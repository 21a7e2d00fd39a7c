/** The environment-template catalog and what the template cards derive from
    a template: the downloadable configuration and its file name, the
    two-feature preview with its "+k more" badge, the ten-line quick-start
    preview, and the "Copied!" indicator. */
module EnvironmentTemplates {
  import opened Common

  // ---------------------------------------------------------------------------
  // Data model and the catalog
  // ---------------------------------------------------------------------------

  datatype EnvironmentTemplate = EnvironmentTemplate(
    id: string,
    name: string,
    language: string,
    icon: string,
    description: string,
    features: seq<string>,
    downloadSize: string,
    setupTime: string,
    preInstalledPackages: seq<string>,
    sampleCode: string,
    color: string)

  /** `environmentTemplates`, in display order. */
  const Catalog: seq<EnvironmentTemplate> := [
    EnvironmentTemplate(
      id := "python-colab",
      name := "Python Data Science",
      language := "Python",
      icon := "🐍",
      description := "Complete Python environment with NumPy, Pandas, Matplotlib, and Jupyter-style execution",
      features := ["Jupyter-style cells", "Data visualization", "Machine Learning ready", "GPU support"],
      downloadSize := "2.1 GB",
      setupTime := "< 3 minutes",
      preInstalledPackages := ["numpy", "pandas", "matplotlib", "scikit-learn", "tensorflow", "jupyter"],
      sampleCode := PythonSample,
      color := "from-blue-500 to-green-500"),
    EnvironmentTemplate(
      id := "cpp-competitive",
      name := "C++ Competitive Programming",
      language := "C++",
      icon := "⚡",
      description := "Optimized C++ environment for competitive programming with fast compilation and debugging tools",
      features := ["Fast compilation", "Debugging tools", "STL libraries", "Performance profiling"],
      downloadSize := "850 MB",
      setupTime := "< 2 minutes",
      preInstalledPackages := ["g++", "gdb", "valgrind", "boost", "googletest"],
      sampleCode := CppSample,
      color := "from-orange-500 to-red-500"),
    EnvironmentTemplate(
      id := "java-enterprise",
      name := "Java Enterprise Development",
      language := "Java",
      icon := "☕",
      description := "Full Java development environment with Spring Boot, Maven, and enterprise libraries",
      features := ["Spring Boot", "Maven integration", "JUnit testing", "Enterprise libraries"],
      downloadSize := "1.8 GB",
      setupTime := "< 4 minutes",
      preInstalledPackages := ["openjdk-17", "maven", "spring-boot", "junit5", "hibernate"],
      sampleCode := JavaSample,
      color := "from-red-500 to-orange-500"),
    EnvironmentTemplate(
      id := "javascript-fullstack",
      name := "JavaScript Full-Stack",
      language := "JavaScript",
      icon := "🟨",
      description := "Modern JavaScript environment with Node.js, React, and popular frameworks",
      features := ["Node.js runtime", "React/Vue ready", "Package management", "Modern ES features"],
      downloadSize := "1.2 GB",
      setupTime := "< 3 minutes",
      preInstalledPackages := ["node", "npm", "react", "express", "lodash", "axios"],
      sampleCode := JavaScriptSample,
      color := "from-yellow-500 to-green-500"),
    EnvironmentTemplate(
      id := "rust-systems",
      name := "Rust Systems Programming",
      language := "Rust",
      icon := "🦀",
      description := "Rust environment optimized for systems programming with cargo and performance tools",
      features := ["Cargo package manager", "Performance profiling", "Memory safety", "Concurrent programming"],
      downloadSize := "1.5 GB",
      setupTime := "< 3 minutes",
      preInstalledPackages := ["rustc", "cargo", "clippy", "rustfmt", "tokio"],
      sampleCode := RustSample,
      color := "from-orange-600 to-red-600"),
    EnvironmentTemplate(
      id := "go-microservices",
      name := "Go Microservices",
      language := "Go",
      icon := "🐹",
      description := "Go environment configured for microservices development with networking and concurrency tools",
      features := ["Goroutines & channels", "HTTP frameworks", "Docker integration", "Cloud-native tools"],
      downloadSize := "900 MB",
      setupTime := "< 2 minutes",
      preInstalledPackages := ["go", "gin", "gorm", "docker", "kubernetes-client"],
      sampleCode := GoSample,
      color := "from-cyan-500 to-blue-500")
  ]

  // The templates' `sampleCode` values, character for character.

  const PythonSample: string := @"# Python Data Science Environment
import numpy as np
import pandas as pd
import matplotlib.pyplot as plt

# Create sample data
data = np.random.randn(1000)
df = pd.DataFrame({'values': data})

# Quick visualization
plt.figure(figsize=(10, 6))
plt.hist(data, bins=30, alpha=0.7)
plt.title('Sample Data Distribution')
plt.show()

print(""Environment ready! 🚀"")"

  const CppSample: string := @"#include <iostream>
#include <vector>
#include <algorithm>
#include <chrono>

using namespace std;
using namespace std::chrono;

int main() {
    // Performance-optimized setup
    ios_base::sync_with_stdio(false);
    cin.tie(NULL);
    
    vector<int> nums = {64, 34, 25, 12, 22, 11, 90};
    
    auto start = high_resolution_clock::now();
    sort(nums.begin(), nums.end());
    auto stop = high_resolution_clock::now();
    
    cout << ""Sorted array: "";
    for(int num : nums) cout << num << "" "";
    cout << endl;
    
    auto duration = duration_cast<microseconds>(stop - start);
    cout << ""Sort time: "" << duration.count() << "" microseconds"" << endl;
    
    return 0;
}"

  const JavaSample: string := @"// Java Enterprise Environment
import java.util.*;
import java.util.stream.Collectors;

public class EnterpriseDemo {
    public static void main(String[] args) {
        System.out.println(""Java Enterprise Environment Ready! ☕"");
        
        // Sample data processing
        List<String> languages = Arrays.asList(
            ""Java"", ""Python"", ""C++"", ""JavaScript"", ""Rust"", ""Go""
        );
        
        // Stream API demonstration
        List<String> filtered = languages.stream()
            .filter(lang -> lang.length() > 4)
            .sorted()
            .collect(Collectors.toList());
            
        System.out.println(""Languages with > 4 chars: "" + filtered);
        
        // Enterprise-ready features available:
        System.out.println(""✓ Spring Boot ready"");
        System.out.println(""✓ Maven configured"");
        System.out.println(""✓ JUnit testing enabled"");
    }
}"

  const JavaScriptSample: string := @"// JavaScript Full-Stack Environment
console.log(""🚀 JavaScript Full-Stack Environment Ready!"");

// Modern ES6+ features
const languages = ['JavaScript', 'TypeScript', 'Node.js'];
const frameworks = ['React', 'Vue', 'Express'];

// Destructuring and spread
const [...allTech] = [...languages, ...frameworks];

// Async/await ready
const fetchData = async () => {
    try {
        console.log('Simulating API call...');
        await new Promise(resolve => setTimeout(resolve, 1000));
        return { status: 'success', data: allTech };
    } catch (error) {
        console.error('Error:', error);
    }
};

// Modern JavaScript execution
fetchData().then(result => {
    console.log('Available technologies:', result.data);
    console.log('✓ Node.js runtime active');
    console.log('✓ Modern ES features enabled');
    console.log('✓ Package ecosystem ready');
});"

  const RustSample: string := @"// Rust Systems Programming Environment
use std::collections::HashMap;
use std::thread;
use std::time::Duration;

fn main() {
    println!(""🦀 Rust Systems Programming Environment Ready!"");
    
    // Memory-safe operations
    let mut data = HashMap::new();
    data.insert(""language"", ""Rust"");
    data.insert(""paradigm"", ""Systems"");
    data.insert(""memory"", ""Safe"");
    
    // Concurrent programming example
    let handles: Vec<_> = (0..3).map(|i| {
        thread::spawn(move || {
            thread::sleep(Duration::from_millis(100));
            println!(""Thread {} completed safely"", i);
        })
    }).collect();
    
    // Wait for all threads
    for handle in handles {
        handle.join().unwrap();
    }
    
    println!(""✓ Memory safety guaranteed"");
    println!(""✓ Zero-cost abstractions"");
    println!(""✓ Cargo ecosystem ready"");
    println!(""Data: {:?}"", data);
}"

  const GoSample: string := @"package main

import (
    ""fmt""
    ""sync""
    ""time""
)

func main() {
    fmt.Println(""🐹 Go Microservices Environment Ready!"")
    
    // Goroutines demonstration
    var wg sync.WaitGroup
    
    services := []string{""auth"", ""api"", ""database"", ""cache""}
    
    for _, service := range services {
        wg.Add(1)
        go func(svc string) {
            defer wg.Done()
            fmt.Printf(""✓ Microservice '%s' started
"", svc)
            time.Sleep(100 * time.Millisecond)
        }(service)
    }
    
    wg.Wait()
    
    fmt.Println(""✓ Concurrent programming ready"")
    fmt.Println(""✓ HTTP frameworks available"")
    fmt.Println(""✓ Cloud-native tools configured"")
    fmt.Println(""All microservices running! 🚀"")
}"

  predicate DistinctIds(templates: seq<EnvironmentTemplate>) {
    forall i, j :: 0 <= i < j < |templates| ==> templates[i].id != templates[j].id
  }

  /** Template ids are distinct: they serve as the card key and as the key
      of the "Copied!" indicator. */
  lemma CatalogIdsDistinct()
    ensures |Catalog| == 6
    ensures DistinctIds(Catalog)
  {
    // Any two ids differ in their first letter or in their length.
    assert Catalog[0].id == "python-colab" && Catalog[0].id[0] == 'p' && |Catalog[0].id| == 12;
    assert Catalog[1].id == "cpp-competitive" && Catalog[1].id[0] == 'c' && |Catalog[1].id| == 15;
    assert Catalog[2].id == "java-enterprise" && Catalog[2].id[0] == 'j' && |Catalog[2].id| == 15;
    assert Catalog[3].id == "javascript-fullstack" && Catalog[3].id[0] == 'j' && |Catalog[3].id| == 20;
    assert Catalog[4].id == "rust-systems" && Catalog[4].id[0] == 'r' && |Catalog[4].id| == 12;
    assert Catalog[5].id == "go-microservices" && Catalog[5].id[0] == 'g' && |Catalog[5].id| == 16;
  }

  // ---------------------------------------------------------------------------
  // Download: the configuration object and the file name
  // ---------------------------------------------------------------------------

  /** The object `downloadEnvironment` serialises; `created` is the
      `toISOString()` timestamp, an opaque input here. */
  datatype DownloadConfig = DownloadConfig(
    name: string,
    language: string,
    packages: seq<string>,
    sampleCode: string,
    features: seq<string>,
    version: string,
    created: string)

  const ConfigVersion := "1.0.0"

  function ConfigFor(t: EnvironmentTemplate, created: string): DownloadConfig {
    DownloadConfig(t.name, t.language, t.preInstalledPackages, t.sampleCode, t.features, ConfigVersion, created)
  }

  /** The configuration carries the template's name, language, packages,
      sample code and features unchanged, version "1.0.0" and the given
      timestamp; two templates give the same configuration exactly when they
      agree on those five fields. */
  lemma ConfigCopiesTemplate(t: EnvironmentTemplate, u: EnvironmentTemplate, created: string)
    ensures ConfigFor(t, created).name == t.name && ConfigFor(t, created).language == t.language
    ensures ConfigFor(t, created).packages == t.preInstalledPackages
    ensures ConfigFor(t, created).sampleCode == t.sampleCode
    ensures ConfigFor(t, created).features == t.features
    ensures ConfigFor(t, created).version == "1.0.0" && ConfigFor(t, created).created == created
    ensures ConfigFor(t, created) == ConfigFor(u, created) <==>
              t.name == u.name && t.language == u.language
              && t.preInstalledPackages == u.preInstalledPackages
              && t.sampleCode == u.sampleCode && t.features == u.features
  {
  }

  const FileSuffix := "-environment.json"

  /** `${template.id}-environment.json`. */
  function DownloadFileName(t: EnvironmentTemplate): string {
    t.id + FileSuffix
  }

  /** Reads the template id back out of a download file name, if it has the
      download suffix. */
  function IdOfFileName(fileName: string): Option<string> {
    if |fileName| >= |FileSuffix| && fileName[|fileName| - |FileSuffix|..] == FileSuffix
    then Some(fileName[..|fileName| - |FileSuffix|])
    else None
  }

  /** The file name ends in the suffix and gives back exactly the id, so two
      templates share a file name only if they share an id. */
  lemma FileNameRoundTrip(t: EnvironmentTemplate, u: EnvironmentTemplate)
    ensures IdOfFileName(DownloadFileName(t)) == Some(t.id)
    ensures DownloadFileName(t) == DownloadFileName(u) ==> t.id == u.id
  {
    var f := DownloadFileName(t);
    assert f[..|t.id|] == t.id;
    assert f[|f| - |FileSuffix|..] == FileSuffix;
  }

  /** Every catalog template downloads to its own file. */
  lemma CatalogFileNamesDistinct(i: nat, j: nat)
    requires i < j < |Catalog|
    ensures DownloadFileName(Catalog[i]) != DownloadFileName(Catalog[j])
  {
    CatalogIdsDistinct();
    FileNameRoundTrip(Catalog[i], Catalog[j]);
  }

  // ---------------------------------------------------------------------------
  // The features preview on a card
  // ---------------------------------------------------------------------------

  /** The badges shown: the leading features and, when some are hidden, the
      number behind the "+k more" badge. */
  datatype FeaturePreview = FeaturePreview(shown: seq<string>, more: Option<nat>)

  function Min(a: int, b: int): int {
    if a < b then a else b
  }

  /** `features.slice(0, 2)` plus the badge rendered when `features.length > 2`. */
  function PreviewFeatures(features: seq<string>): (p: FeaturePreview)
    ensures |p.shown| == Min(2, |features|) && p.shown == features[..|p.shown|]
    ensures p.more.Some? <==> |features| > 2
    ensures |p.shown| + (if p.more.Some? then p.more.value else 0) == |features|
  {
    FeaturePreview(features[..Min(2, |features|)],
                   if |features| > 2 then Some(|features| - 2) else None)
  }

  /** The text of the "+k more" badge. */
  function MoreBadge(k: nat): string {
    "+" + NatToString(k) + " more"
  }

  /** Every catalog card shows two features and a "+2 more" badge. */
  lemma CatalogPreviews(i: nat)
    requires i < |Catalog|
    ensures PreviewFeatures(Catalog[i].features).shown == Catalog[i].features[..2]
    ensures PreviewFeatures(Catalog[i].features).more == Some(2)
    ensures MoreBadge(2) == "+2 more"
  {
  }

  // ---------------------------------------------------------------------------
  // The quick-start preview: split on newlines, keep ten lines, join, "..."
  // ---------------------------------------------------------------------------

  /** `s.split('\n')`: the pieces between newlines, always at least one. */
  function Split(s: string): (parts: seq<string>)
    ensures |parts| >= 1
    ensures forall k :: 0 <= k < |parts| ==> '\n' !in parts[k]
    decreases |s|
  {
    if s == [] then [""]
    else if s[0] == '\n' then [""] + Split(s[1..])
    else
      var rest := Split(s[1..]);
      [[s[0]] + rest[0]] + rest[1..]
  }

  /** `parts.join('\n')`. */
  function Join(parts: seq<string>): string
    decreases |parts|
  {
    if parts == [] then ""
    else if |parts| == 1 then parts[0]
    else parts[0] + "\n" + Join(parts[1..])
  }

  /** `parts.slice(0, k)`. */
  function Take<T>(parts: seq<T>, k: nat): (r: seq<T>)
    ensures |r| == Min(k, |parts|) && r == parts[..|r|]
  {
    if |parts| <= k then parts else parts[..k]
  }

  const PreviewLines := 10

  /** What the quick-start dialog shows for a sample. */
  function QuickStartPreview(code: string): string {
    Join(Take(Split(code), PreviewLines)) + "..."
  }

  /** Joining the pieces of a split gives the string back. */
  lemma {:induction false} JoinSplit(s: string)
    ensures Join(Split(s)) == s
    decreases |s|
  {
    if s == [] {
    } else if s[0] == '\n' {
      JoinSplit(s[1..]);
      assert ([""] + Split(s[1..]))[1..] == Split(s[1..]);
      assert s == "\n" + s[1..];
    } else {
      var rest := Split(s[1..]);
      JoinSplit(s[1..]);
      var parts := [[s[0]] + rest[0]] + rest[1..];
      assert parts[1..] == rest[1..];
      if |rest| == 1 {
        assert s == [s[0]] + s[1..];
      } else {
        assert Join(rest) == rest[0] + "\n" + Join(rest[1..]);
        assert s == [s[0]] + s[1..];
      }
    }
  }

  /** Splitting a join of newline-free pieces gives the pieces back. */
  lemma {:induction false} SplitJoin(parts: seq<string>)
    requires |parts| >= 1
    requires forall k :: 0 <= k < |parts| ==> '\n' !in parts[k]
    ensures Split(Join(parts)) == parts
    decreases |parts|, |parts[0]|
  {
    if |parts| == 1 {
      SplitNoNewline(parts[0]);
    } else if parts[0] == [] {
      assert Join(parts) == "\n" + Join(parts[1..]);
      SplitJoin(parts[1..]);
      assert Join(parts)[1..] == Join(parts[1..]);
    } else {
      var c := parts[0][0];
      var shorter := [parts[0][1..]] + parts[1..];
      assert shorter[1..] == parts[1..];
      assert '\n' !in shorter[0] by { assert forall x :: x in shorter[0] ==> x in parts[0]; }
      SplitJoin(shorter);
      assert Join(parts) == [c] + Join(shorter);
      assert Join(parts)[1..] == Join(shorter);
      assert [c] + shorter[0] == parts[0];
    }
  }

  /** A newline-free string splits into itself. */
  lemma {:induction false} SplitNoNewline(s: string)
    requires '\n' !in s
    ensures Split(s) == [s]
    decreases |s|
  {
    if s != [] {
      assert '\n' !in s[1..] by { assert forall x :: x in s[1..] ==> x in s; }
      SplitNoNewline(s[1..]);
      assert s == [s[0]] + s[1..];
    }
  }

  /** Joining a non-empty leading run of pieces gives a prefix of the join of
      them all. */
  lemma {:induction false} JoinPrefix(parts: seq<string>, k: nat)
    requires 1 <= k <= |parts|
    ensures Join(parts[..k]) <= Join(parts)
    decreases k
  {
    if k == |parts| {
      assert parts[..k] == parts;
    } else if k == 1 {
      assert Join(parts[..1]) == parts[0];
      assert Join(parts) == parts[0] + "\n" + Join(parts[1..]);
    } else {
      JoinPrefix(parts[1..], k - 1);
      assert parts[..k][1..] == parts[1..][..k - 1];
      assert Join(parts[..k]) == parts[0] + "\n" + Join(parts[1..][..k - 1]);
      assert Join(parts) == parts[0] + "\n" + Join(parts[1..]);
    }
  }

  /** The quick-start preview is a prefix of the sample holding its first
      min(10, lines) lines, followed by "..."; a sample of at most ten lines is
      shown whole. */
  lemma QuickStartPreviewShape(code: string)
    ensures exists body :: QuickStartPreview(code) == body + "..." && body <= code
                           && Split(body) == Take(Split(code), PreviewLines)
    ensures |Split(code)| <= PreviewLines ==> QuickStartPreview(code) == code + "..."
  {
    var lines := Split(code);
    var shown := Take(lines, PreviewLines);
    var body := Join(shown);
    JoinSplit(code);
    JoinPrefix(lines, |shown|);
    assert lines[..|shown|] == shown;
    SplitJoin(shown);
    assert QuickStartPreview(code) == body + "...";
  }

  // ---------------------------------------------------------------------------
  // The "Copied!" indicator
  // ---------------------------------------------------------------------------

  /** Whether a template's copy button reads "Copied!". */
  predicate ShowsCopied(copiedCode: Option<string>, t: EnvironmentTemplate) {
    copiedCode == Some(t.id)
  }

  /** After copying template `i`'s sample, exactly that catalog card reads
      "Copied!". */
  lemma OnlyCopiedTemplateShows(i: nat, j: nat)
    requires i < |Catalog| && j < |Catalog|
    ensures ShowsCopied(Some(Catalog[i].id), Catalog[j]) <==> i == j
  {
    CatalogIdsDistinct();
    if i < j {
      assert Catalog[i].id != Catalog[j].id;
    } else if j < i {
      assert Catalog[j].id != Catalog[i].id;
    }
  }

  /** The component's `copiedCode` state. */
  class CopyIndicator {
    var copiedCode: Option<string>

    constructor ()
      ensures copiedCode == None
    {
      copiedCode := None;
    }

    /** `copyToClipboard`: the clipboard write is abstracted as whether it
        succeeded; a failed write is only reported to the console. */
    method CopyToClipboard(code: string, templateId: string, writeSucceeded: bool)
      modifies this
      ensures copiedCode == if writeSucceeded then Some(templateId) else old(copiedCode)
    {
      if writeSucceeded {
        copiedCode := Some(templateId);
      }
    }

    /** The two-second timer's callback. */
    method ClearCopied()
      modifies this
      ensures copiedCode == None
    {
      copiedCode := None;
    }
  }
}
