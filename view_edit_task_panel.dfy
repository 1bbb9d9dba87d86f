/** The predecessor editing of the task panel: the text shown for the
    selected predecessors, the options selected when the panel opens, the
    multi-select toggle, and the predecessors the panel commits. */
module ViewEditTaskPanel {
  import opened Wrappers
  import opened Js
  import opened Models

  // ---------------------------------------------------------------------
  // Display text

  const Separator := ", "

  /** One step of the `reduce`: the option's text, followed by the
      separator unless it is the last of `n` options. */
  function Piece(o: DropdownOption, index: nat, n: nat): string {
    o.text + (if index < n - 1 then Separator else "")
  }

  /** The `reduce` from index `i` on, starting from `acc`. */
  function ReduceFrom(predecessors: seq<DropdownOption>, i: nat, acc: string): string
    requires i <= |predecessors|
    decreases |predecessors| - i
  {
    if i == |predecessors| then acc
    else ReduceFrom(predecessors, i + 1, acc + Piece(predecessors[i], i, |predecessors|))
  }

  /** `predecessorsString`. */
  function PredecessorsString(predecessors: seq<DropdownOption>): string {
    ReduceFrom(predecessors, 0, "")
  }

  function Texts(options: seq<DropdownOption>): (texts: seq<string>)
    ensures |texts| == |options|
    ensures forall k :: 0 <= k < |options| ==> texts[k] == options[k].text
  {
    seq(|options|, k requires 0 <= k < |options| => options[k].text)
  }

  /** The texts joined with the separator between consecutive ones. */
  function Join(texts: seq<string>): string {
    if texts == [] then ""
    else if |texts| == 1 then texts[0]
    else texts[0] + Separator + Join(texts[1..])
  }

  lemma {:induction false} ReduceFromIsJoin(predecessors: seq<DropdownOption>, i: nat, acc: string)
    requires i <= |predecessors|
    ensures ReduceFrom(predecessors, i, acc) == acc + Join(Texts(predecessors[i..]))
    decreases |predecessors| - i
  {
    if i < |predecessors| {
      var piece := Piece(predecessors[i], i, |predecessors|);
      ReduceFromIsJoin(predecessors, i + 1, acc + piece);
      var rest := Texts(predecessors[i + 1..]);
      assert Texts(predecessors[i..]) == [predecessors[i].text] + rest;
      if i + 1 == |predecessors| {
        assert rest == [];
      } else {
        assert Texts(predecessors[i..])[1..] == rest;
      }
    } else {
      assert Texts(predecessors[i..]) == [];
    }
  }

  /** The display text is the option texts joined with ", ": empty for no
      predecessors, and without a separator after the last one. */
  lemma PredecessorsStringIsJoin(predecessors: seq<DropdownOption>)
    ensures PredecessorsString(predecessors) == Join(Texts(predecessors))
    ensures predecessors == [] ==> PredecessorsString(predecessors) == ""
    ensures |predecessors| == 1 ==> PredecessorsString(predecessors) == predecessors[0].text
    ensures |predecessors| > 1 ==>
      PredecessorsString(predecessors) == predecessors[0].text + Separator + PredecessorsString(predecessors[1..])
  {
    ReduceFromIsJoin(predecessors, 0, "");
    assert predecessors[0..] == predecessors;
    if |predecessors| > 1 {
      ReduceFromIsJoin(predecessors[1..], 0, "");
      assert predecessors[1..][0..] == predecessors[1..];
      assert Texts(predecessors)[1..] == Texts(predecessors[1..]);
    }
  }

  /** A non-empty display text ends with the last text, never with the
      separator. */
  lemma {:induction false} JoinEndsWithLast(texts: seq<string>)
    requires texts != []
    ensures |Join(texts)| >= |texts[|texts| - 1]|
    ensures Join(texts)[|Join(texts)| - |texts[|texts| - 1]|..] == texts[|texts| - 1]
  {
    if |texts| > 1 {
      JoinEndsWithLast(texts[1..]);
      var last := texts[|texts| - 1];
      var prefix := texts[0] + Separator;
      assert Join(texts) == prefix + Join(texts[1..]);
      assert Join(texts)[|Join(texts)| - |last|..] == Join(texts[1..])[|Join(texts[1..])| - |last|..];
    }
  }

  // ---------------------------------------------------------------------
  // Selection

  /** lodash `find(task.predecessors, pre => String(pre.id) === key)`
      finds one. */
  predicate IsPredecessorKey(predecessors: seq<Predecessor>, key: string) {
    exists j :: 0 <= j < |predecessors| && IntToString(predecessors[j].id) == key
  }

  /** The predecessor options selected when the panel opens: in option
      order, the options whose key is the decimal id of a predecessor of
      the task. */
  function InitialSelection(options: seq<DropdownOption>, predecessors: seq<Predecessor>): (selected: seq<DropdownOption>)
    ensures IsSubsequence(selected, options)
    ensures forall i :: 0 <= i < |selected| ==> IsPredecessorKey(predecessors, selected[i].key)
    ensures forall i :: 0 <= i < |options| && IsPredecessorKey(predecessors, options[i].key) ==> options[i] in selected
  {
    var keep := (o: DropdownOption) => IsPredecessorKey(predecessors, o.key);
    FilterIsSubsequence(options, keep);
    Filter(options, keep)
  }

  /** The multi-select `onChange`: no option leaves the selection as it is;
      a selected option is appended; a deselected one removes every entry
      with its key. */
  function Toggle(selection: seq<DropdownOption>, option: Option<DropdownOption>): (r: seq<DropdownOption>)
    ensures option.None? ==> r == selection
    ensures option.Some? && option.value.selected ==> r == selection + [option.value]
    ensures option.Some? && !option.value.selected ==>
      && IsSubsequence(r, selection)
      && (forall i :: 0 <= i < |r| ==> r[i].key != option.value.key)
      && (forall i :: 0 <= i < |selection| && selection[i].key != option.value.key ==> selection[i] in r)
  {
    if option.None? then selection
    else if option.value.selected then selection + [option.value]
    else
      var keep := (pre: DropdownOption) => pre.key != option.value.key;
      FilterIsSubsequence(selection, keep);
      Filter(selection, keep)
  }

  /** Selecting an option that is not yet selected and then deselecting it
      gives back the selection. */
  lemma {:induction false} SelectThenDeselect(selection: seq<DropdownOption>, o: DropdownOption)
    requires forall i :: 0 <= i < |selection| ==> selection[i].key != o.key
    ensures Toggle(Toggle(selection, Some(o.(selected := true))), Some(o.(selected := false))) == selection
  {
    var added := Toggle(selection, Some(o.(selected := true)));
    var keep := (pre: DropdownOption) => pre.key != o.key;
    FilterAppendDropped(selection, o.(selected := true), keep);
  }

  lemma {:induction false} FilterAppendDropped(s: seq<DropdownOption>, x: DropdownOption, keep: DropdownOption -> bool)
    requires forall i :: 0 <= i < |s| ==> keep(s[i])
    requires !keep(x)
    ensures Filter(s + [x], keep) == s
  {
    if s != [] {
      assert (s + [x])[1..] == s[1..] + [x];
      FilterAppendDropped(s[1..], x, keep);
    }
  }

  /** What the panel commits for one selected option: the key as the id
      and the text as the title. */
  datatype PredecessorChoice = PredecessorChoice(id: string, title: string)

  /** `newPredecessors.map(pre => ({id: pre.key, title: pre.text}))`. */
  function Commit(selection: seq<DropdownOption>): (choices: seq<PredecessorChoice>)
    ensures |choices| == |selection|
    ensures forall i :: 0 <= i < |selection| ==> choices[i] == PredecessorChoice(selection[i].key, selection[i].text)
  {
    seq(|selection|, i requires 0 <= i < |selection| => PredecessorChoice(selection[i].key, selection[i].text))
  }

  /** Committing the selection the panel opened with sends, in option
      order, the decimal ids of predecessors of the task. */
  lemma {:induction false} CommitInitialSelection(options: seq<DropdownOption>, predecessors: seq<Predecessor>)
    ensures forall i :: 0 <= i < |Commit(InitialSelection(options, predecessors))| ==>
      IsPredecessorKey(predecessors, Commit(InitialSelection(options, predecessors))[i].id)
  {
    var selected := InitialSelection(options, predecessors);
    var choices := Commit(selected);
    forall i | 0 <= i < |choices| ensures IsPredecessorKey(predecessors, choices[i].id) {
      assert choices[i].id == selected[i].key;
    }
  }
}
