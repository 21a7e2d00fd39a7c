/** The notebook editor's state: the selected language and the ordered list
    of cells, with the handlers that add a cell and replace one, and the label
    of the add button. */
module Notebook {

  // ---------------------------------------------------------------------------
  // Data model
  // ---------------------------------------------------------------------------

  datatype Cell = Cell(id: int, cellType: string, content: string, language: string, output: string)

  /** The one cell the notebook starts with. */
  const InitialCell := Cell(
    1, "code",
    "# Welcome to CodeIDE Cloud!\nprint('Hello, Multi-language World!')",
    "python",
    "Hello, Multi-language World!")

  const InitialLanguage := "python"

  /** One entry of the language selector. */
  datatype LanguageOption = LanguageOption(value: string, displayName: string, icon: string)

  const Languages: seq<LanguageOption> := [
    LanguageOption("python", "Python", "🐍"),
    LanguageOption("cpp", "C++", "⚡"),
    LanguageOption("java", "Java", "☕"),
    LanguageOption("javascript", "JavaScript", "🟨"),
    LanguageOption("rust", "Rust", "🦀"),
    LanguageOption("go", "Go", "🐹")
  ]

  // ---------------------------------------------------------------------------
  // addCell as a function on the list
  // ---------------------------------------------------------------------------

  /** The cell `addCell` creates: an empty code cell in the selected language. */
  function NewCell(id: int, language: string): Cell {
    Cell(id, "code", "", language, "")
  }

  /** `[...cells, newCell]` with `newCell.id = cells.length + 1`. */
  function WithAddedCell(cells: seq<Cell>, language: string): seq<Cell> {
    cells + [NewCell(|cells| + 1, language)]
  }

  /** Cell ids are 1, 2, ..., n in position order. */
  predicate NumberedFromOne(cells: seq<Cell>) {
    forall k :: 0 <= k < |cells| ==> cells[k].id == k + 1
  }

  /** The cell list after starting up and pressing the add button once per
      entry of `chosen`, the entry being the language selected at that press. */
  function AfterAdds(chosen: seq<string>): seq<Cell>
    decreases |chosen|
  {
    if chosen == [] then [InitialCell]
    else WithAddedCell(AfterAdds(chosen[..|chosen| - 1]), chosen[|chosen| - 1])
  }

  /** Using only the add button from the initial state, the cells are the
      initial cell followed by one new cell per press, numbered 1..n in
      order; each added cell has the language selected when it was added,
      so changing the language later leaves it alone. */
  lemma {:induction false} AddsOnly(chosen: seq<string>)
    ensures |AfterAdds(chosen)| == |chosen| + 1
    ensures AfterAdds(chosen)[0] == InitialCell
    ensures NumberedFromOne(AfterAdds(chosen))
    ensures forall k :: 0 <= k < |chosen| ==> AfterAdds(chosen)[k + 1] == NewCell(k + 2, chosen[k])
    decreases |chosen|
  {
    if chosen != [] {
      var earlier := chosen[..|chosen| - 1];
      AddsOnly(earlier);
      assert forall k :: 0 <= k < |earlier| ==> earlier[k] == chosen[k];
    }
  }

  /** Adding one cell keeps 1..n numbering, appends exactly one cell at the
      end with id n + 1 in the given language, and leaves the earlier cells. */
  lemma AddKeepsNumbering(cells: seq<Cell>, language: string)
    requires NumberedFromOne(cells)
    ensures NumberedFromOne(WithAddedCell(cells, language))
    ensures WithAddedCell(cells, language)[..|cells|] == cells
    ensures WithAddedCell(cells, language)[|cells|].language == language
  {
  }

  /** Replacing one cell by a cell with the same id keeps 1..n numbering. */
  lemma ReplaceKeepsNumbering(cells: seq<Cell>, index: nat, updated: Cell)
    requires NumberedFromOne(cells)
    requires index < |cells| && updated.id == cells[index].id
    ensures NumberedFromOne(cells[index := updated])
  {
  }

  // ---------------------------------------------------------------------------
  // The add button's label
  // ---------------------------------------------------------------------------

  /** `toUpperCase` on one character, for ASCII letters. */
  function UpperChar(c: char): char {
    if 'a' <= c <= 'z' then (c as int - 32) as char else c
  }

  function LowerChar(c: char): char {
    if 'A' <= c <= 'Z' then (c as int + 32) as char else c
  }

  /** `s.charAt(0).toUpperCase() + s.slice(1)`; the empty string stays empty. */
  function Capitalize(s: string): (r: string)
    ensures |r| == |s|
    ensures |s| > 0 ==> r[0] == UpperChar(s[0]) && r[1..] == s[1..]
  {
    if s == [] then [] else [UpperChar(s[0])] + s[1..]
  }

  const LabelPrefix := "Add "
  const LabelSuffix := " Cell"

  /** The text of the add button for the selected language. */
  function AddButtonLabel(language: string): string {
    LabelPrefix + Capitalize(language) + LabelSuffix
  }

  /** Reads the language back from a label: strip "Add " and " Cell" and
      lower-case the first letter. */
  function LanguageOfLabel(text: string): string
    requires |text| >= |LabelPrefix| + |LabelSuffix|
  {
    var middle := text[|LabelPrefix|..|text| - |LabelSuffix|];
    if middle == [] then [] else [LowerChar(middle[0])] + middle[1..]
  }

  /** The label determines the language whenever the language does not start
      with an upper-case letter, as every selector value does not. */
  lemma LabelRoundTrip(language: string)
    requires language == [] || !('A' <= language[0] <= 'Z')
    ensures |AddButtonLabel(language)| == |language| + 9
    ensures LanguageOfLabel(AddButtonLabel(language)) == language
  {
    var cap := Capitalize(language);
    MiddleOf(LabelPrefix, cap, LabelSuffix);
    if language != [] {
      assert [LowerChar(cap[0])] + cap[1..] == [language[0]] + language[1..];
      assert language == [language[0]] + language[1..];
    }
  }

  /** The middle part of a three-part concatenation is found between the
      lengths of the outer parts. */
  lemma MiddleOf<T>(a: seq<T>, b: seq<T>, c: seq<T>)
    ensures |a + b + c| == |a| + |b| + |c|
    ensures (a + b + c)[|a|..|a + b + c| - |c|] == b
  {
    assert (a + b + c)[|a|..|a| + |b|] == b;
  }

  /** The selector offers six values, the first being the initial language. */
  lemma SelectorValues()
    ensures |Languages| == 6 && Languages[0].value == InitialLanguage
    ensures Languages[1].value == "cpp" && Languages[2].value == "java"
    ensures Languages[3].value == "javascript" && Languages[4].value == "rust"
    ensures Languages[5].value == "go"
  {
  }

  /** The labels for the first three selector values. The label is built
      from the value, not from the display name, so "cpp" reads
      "Add Cpp Cell" rather than "Add C++ Cell". */
  lemma SelectorLabelsFirstHalf()
    ensures AddButtonLabel("python") == "Add Python Cell"
    ensures AddButtonLabel("cpp") == "Add Cpp Cell"
    ensures AddButtonLabel("java") == "Add Java Cell"
  {
  }

  /** The labels for the last three selector values. */
  lemma SelectorLabelsSecondHalf()
    ensures AddButtonLabel("javascript") == "Add Javascript Cell"
    ensures AddButtonLabel("rust") == "Add Rust Cell"
    ensures AddButtonLabel("go") == "Add Go Cell"
  {
  }

  /** Every selector value can be read back from its label. */
  lemma SelectorLabelsReadBack()
    ensures forall k :: 0 <= k < |Languages| ==>
              LanguageOfLabel(AddButtonLabel(Languages[k].value)) == Languages[k].value
  {
    forall k | 0 <= k < |Languages|
      ensures LanguageOfLabel(AddButtonLabel(Languages[k].value)) == Languages[k].value
    {
      assert 'a' <= Languages[k].value[0] <= 'z';
      LabelRoundTrip(Languages[k].value);
    }
  }

  // ---------------------------------------------------------------------------
  // The component's state and its handlers
  // ---------------------------------------------------------------------------

  class NotebookState {
    var language: string
    var cells: seq<Cell>

    /** The state on first render: Python selected, the welcome cell. */
    constructor ()
      ensures language == "python" && cells == [InitialCell]
      ensures NumberedFromOne(cells) && cells[0].language == language
    {
      language := InitialLanguage;
      cells := [InitialCell];
    }

    /** The selector's `onValueChange`. Cells are untouched. */
    method SetLanguage(value: string)
      modifies this`language
      ensures language == value
    {
      language := value;
    }

    /** `addCell`. */
    method AddCell()
      modifies this`cells
      ensures cells == WithAddedCell(old(cells), language)
      ensures NumberedFromOne(old(cells)) ==> NumberedFromOne(cells)
    {
      var newCell := NewCell(|cells| + 1, language);
      cells := cells + [newCell];
    }

    /** The `onUpdate` handler of the cell at `index`: copy the list, assign
        the one slot, store the copy. Only ever called for a rendered index. */
    method UpdateCell(index: nat, updated: Cell)
      requires index < |cells|
      modifies this`cells
      ensures |cells| == |old(cells)|
      ensures cells[index] == updated
      ensures forall k :: 0 <= k < |cells| && k != index ==> cells[k] == old(cells)[k]
    {
      var newCells := new Cell[|cells|](k reads this requires 0 <= k < |cells| => cells[k]);
      newCells[index] := updated;
      cells := newCells[..];
    }
  }
}
