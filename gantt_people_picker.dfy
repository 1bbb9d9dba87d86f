/** The people picker's suggestion filter: search results minus the people
    already selected, cut to the picker's result limit. */
module GanttPeoplePicker {
  import opened Wrappers
  import opened Js
  import opened Models

  /** `listContainsPersona` as written: a non-empty list holding an item
      whose id is strictly equal to the persona's, where an undefined id
      equals every other undefined id. */
  function ListContainsPersonaAsWritten(persona: User, personas: Option<seq<User>>): (b: bool)
    ensures personas.None? || personas.value == [] ==> !b
    ensures personas.Some? ==> (b <==> exists i :: 0 <= i < |personas.value| && personas.value[i].id == persona.id)
  {
    if personas.None? || |personas.value| == 0 then false
    else
      var same := Filter(personas.value, (item: User) => item.id == persona.id);
      assert forall i :: 0 <= i < |personas.value| && personas.value[i].id == persona.id ==> personas.value[i] in same;
      assert |same| > 0 ==> same[0] in personas.value && same[0].id == persona.id;
      |same| > 0
  }

  /** `listContainsPersona` with people compared by account name, the key
      every person carries (search results and list assignees have no id). */
  function ListContainsPersona(persona: User, personas: Option<seq<User>>): (b: bool)
    ensures personas.None? || personas.value == [] ==> !b
    ensures personas.Some? ==> (b <==> exists i :: 0 <= i < |personas.value| && personas.value[i].accountName == persona.accountName)
  {
    if personas.None? || |personas.value| == 0 then false
    else
      var same := Filter(personas.value, (item: User) => item.accountName == persona.accountName);
      assert forall i :: 0 <= i < |personas.value| && personas.value[i].accountName == persona.accountName ==> personas.value[i] in same;
      assert |same| > 0 ==> same[0] in personas.value && same[0].accountName == persona.accountName;
      |same| > 0
  }

  /** `removeDuplicates`, with the membership test as a parameter: the
      personas the test does not find among `possibleDupes`, in their
      order; all of them when the test finds none. */
  function RemoveDuplicatesWith(personas: seq<User>, possibleDupes: Option<seq<User>>,
                                contains: (User, Option<seq<User>>) -> bool): (r: seq<User>)
    ensures IsSubsequence(r, personas)
    ensures forall i :: 0 <= i < |r| ==> !contains(r[i], possibleDupes)
    ensures forall i :: 0 <= i < |personas| && !contains(personas[i], possibleDupes) ==> personas[i] in r
    ensures (forall i :: 0 <= i < |personas| ==> !contains(personas[i], possibleDupes)) ==> r == personas
  {
    var keep := (p: User) => !contains(p, possibleDupes);
    FilterIsSubsequence(personas, keep);
    Filter(personas, keep)
  }

  /** `removeDuplicates` as written: the filter keeps, in their order,
      exactly the personas whose id no selected person shares; with nothing
      selected it keeps them all. */
  function RemoveDuplicatesAsWritten(personas: seq<User>, possibleDupes: Option<seq<User>>): (r: seq<User>)
    ensures IsSubsequence(r, personas)
    ensures forall i :: 0 <= i < |r| ==> !ListContainsPersonaAsWritten(r[i], possibleDupes)
    ensures forall i :: 0 <= i < |personas| && !ListContainsPersonaAsWritten(personas[i], possibleDupes) ==> personas[i] in r
    ensures possibleDupes.None? || possibleDupes.value == [] ==> r == personas
  {
    RemoveDuplicatesWith(personas, possibleDupes, ListContainsPersonaAsWritten)
  }

  /** The filter with people compared by account name: it keeps, in their
      order, exactly the personas whose account is not already selected;
      with nothing selected it keeps them all. */
  function RemoveDuplicates(personas: seq<User>, possibleDupes: Option<seq<User>>): (r: seq<User>)
    ensures IsSubsequence(r, personas)
    ensures forall i :: 0 <= i < |r| ==> !ListContainsPersona(r[i], possibleDupes)
    ensures forall i :: 0 <= i < |personas| && !ListContainsPersona(personas[i], possibleDupes) ==> personas[i] in r
    ensures possibleDupes.None? || possibleDupes.value == [] ==> r == personas
  {
    RemoveDuplicatesWith(personas, possibleDupes, ListContainsPersona)
  }

  /** `limitResults ? results.slice(0, limitResults) : results`: a truthy
      limit (defined and non-zero) cuts the list to a prefix. */
  function LimitResults(results: seq<User>, limitResults: Option<real>): (r: seq<User>)
    ensures r <= results
    ensures limitResults.None? || limitResults.value == 0.0 ==> r == results
    ensures limitResults.Some? && limitResults.value != 0.0 ==> |r| == SliceEnd(|results|, limitResults.value)
  {
    if limitResults.Some? && limitResults.value != 0.0 then SliceTo(results, limitResults.value) else results
  }

  /** A positive whole limit `n` keeps the first `n` results, or all of
      them when there are fewer. */
  lemma LimitKeepsFirst(results: seq<User>, n: nat)
    requires n > 0
    ensures LimitResults(results, Some(n as real)) == results[..Min(n, |results|)]
  {
    assert Trunc(n as real) == n;
  }

  /** `onFilterChanged` once the search has answered with `searchResults`:
      the results no selected person shares an id with, in their order, cut
      to the limit. */
  function OnFilterChanged(searchResults: seq<User>, currentPersonas: Option<seq<User>>, limitResults: Option<real>): (r: seq<User>)
    ensures IsSubsequence(r, searchResults)
    ensures forall i :: 0 <= i < |r| ==> !ListContainsPersonaAsWritten(r[i], currentPersonas)
    ensures limitResults.None? || limitResults.value == 0.0 ==> r == RemoveDuplicatesAsWritten(searchResults, currentPersonas)
    ensures limitResults.Some? && limitResults.value != 0.0 ==>
      var filtered := RemoveDuplicatesAsWritten(searchResults, currentPersonas);
      r <= filtered && |r| == SliceEnd(|filtered|, limitResults.value)
  {
    var filtered := RemoveDuplicatesAsWritten(searchResults, currentPersonas);
    var r := LimitResults(filtered, limitResults);
    PrefixIsSubsequence(r, filtered);
    SubsequenceTransitive(r, filtered, searchResults);
    r
  }

  /** `getTextFromItem`: the text shown for a selected person. */
  function GetTextFromItem(persona: User): (text: string)
    ensures text == persona.text
  {
    persona.text
  }

  /** As written, once any selected person has no id, every search result
      without an id (all of them: the search returns none) counts as
      selected and is filtered out. */
  lemma {:induction false} IdlessSelectionHidesAllSuggestions(results: seq<User>, current: seq<User>, k: int)
    requires 0 <= k < |current| && current[k].id.None?
    requires forall i :: 0 <= i < |results| ==> results[i].id.None?
    ensures RemoveDuplicatesAsWritten(results, Some(current)) == []
  {
    forall i | 0 <= i < |results|
      ensures ListContainsPersonaAsWritten(results[i], Some(current))
    {
      assert current[k].id == results[i].id;
    }
  }

  /** Compared by account name, search results for other accounts stay. */
  lemma {:induction false} OtherAccountsSuggested(results: seq<User>, current: seq<User>)
    requires forall i, j :: 0 <= i < |results| && 0 <= j < |current| ==> results[i].accountName != current[j].accountName
    ensures RemoveDuplicates(results, Some(current)) == results
  {
    assert forall i :: 0 <= i < |results| ==> !ListContainsPersona(results[i], Some(current));
  }

  /** The two side by side: one assignee read from the task list, one search
      result for another person. */
  lemma SuggestionHiddenAsWritten()
    ensures
      var alice := User(None, "Alice", None, "i:0#.f|membership|alice", "");
      var bob := User(None, "Bob", Some("bob@contoso.com"), "i:0#.f|membership|bob", "");
      && RemoveDuplicatesAsWritten([bob], Some([alice])) == []
      && OnFilterChanged([bob], Some([alice]), None) == []
      && RemoveDuplicates([bob], Some([alice])) == [bob]
  {
    var alice := User(None, "Alice", None, "i:0#.f|membership|alice", "");
    var bob := User(None, "Bob", Some("bob@contoso.com"), "i:0#.f|membership|bob", "");
    IdlessSelectionHidesAllSuggestions([bob], [alice], 0);
    OtherAccountsSuggested([bob], [alice]);
  }
}
