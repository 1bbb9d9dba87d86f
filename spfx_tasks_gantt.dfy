/** The web part's root component (SpfxTasksGantt): its state, the update
    of one task field with its no-change check, the update of the assigned
    people, the comparison of two people lists, and what it renders. */
module SpfxTasksGantt {
  import opened Wrappers
  import opened Js
  import opened Calendar
  import opened Models
  import opened Funcs

  // ---------------------------------------------------------------------
  // Task fields

  /** The task properties the edit panel changes one at a time. */
  datatype Field = Title | Description | PercentComplete | Completed | CreatedDate | StartDate | DueDate | Status | Priority

  /** A property value as the panel passes it. `UserIds` is the
      `{results: ids}` object of a people update, with `None` for NaN. */
  datatype FieldValue = Text(text: string) | Number(number: real) | Flag(flag: bool) | Date(time: int) | UserIds(ids: seq<Option<int>>)

  predicate IsDateField(f: Field) {
    f == CreatedDate || f == StartDate || f == DueDate
  }

  /** The property name the panel passes (a key of ITask). */
  function PropertyName(f: Field): string {
    match f
    case Title => "title"
    case Description => "description"
    case PercentComplete => "percentComplete"
    case Completed => "completed"
    case CreatedDate => "createdDate"
    case StartDate => "startDate"
    case DueDate => "dueDate"
    case Status => "status"
    case Priority => "priority"
  }

  /** The value has the type of the field. */
  predicate Fits(f: Field, v: FieldValue) {
    match f
    case Title => v.Text?
    case Description => v.Text?
    case PercentComplete => v.Number?
    case Completed => v.Flag?
    case CreatedDate => v.Date?
    case StartDate => v.Date?
    case DueDate => v.Date?
    case Status => v.Text?
    case Priority => v.Text?
  }

  /** `task[propertyName]`. */
  function Get(t: Task, f: Field): (v: FieldValue)
    ensures Fits(f, v)
  {
    match f
    case Title => Text(t.title)
    case Description => Text(t.description)
    case PercentComplete => Number(t.percentComplete)
    case Completed => Flag(t.completed)
    case CreatedDate => Date(t.createdDate)
    case StartDate => Date(t.startDate)
    case DueDate => Date(t.dueDate)
    case Status => Text(t.status)
    case Priority => Text(t.priority)
  }

  /** `{ ...task, [propertyName]: value }`: the same task with one property
      replaced and every other property as it was. */
  function Set(t: Task, f: Field, v: FieldValue): (u: Task)
    requires Fits(f, v)
    ensures Get(u, f) == v
    ensures forall g :: g != f ==> Get(u, g) == Get(t, g)
    ensures u.id == t.id && u.predecessors == t.predecessors
    ensures u.assignedTo == t.assignedTo && u.createdBy == t.createdBy
  {
    match f
    case Title => t.(title := v.text)
    case Description => t.(description := v.text)
    case PercentComplete => t.(percentComplete := v.number)
    case Completed => t.(completed := v.flag)
    case CreatedDate => t.(createdDate := v.time)
    case StartDate => t.(startDate := v.time)
    case DueDate => t.(dueDate := v.time)
    case Status => t.(status := v.text)
    case Priority => t.(priority := v.text)
  }

  /** The no-change test of `onTaskPropertyChange`: a date property counts
      as unchanged when the new date falls on the same day; any other
      property when the values are strictly equal. */
  predicate Unchanging(f: Field, stored: FieldValue, given: FieldValue)
    requires Fits(f, stored) && Fits(f, given)
  {
    if IsDateField(f) then SameDay(stored.time, given.time) else stored == given
  }

  /** lodash `findIndex(tasks, task => task.id === id)`: the first task
      with that id. */
  function FindIndex(tasks: seq<Task>, id: int): (k: Option<nat>)
    ensures k.None? <==> forall i :: 0 <= i < |tasks| ==> tasks[i].id != id
    ensures k.Some? ==> k.value < |tasks| && tasks[k.value].id == id
    ensures k.Some? ==> forall i :: 0 <= i < k.value ==> tasks[i].id != id
  {
    if tasks == [] then None
    else if tasks[0].id == id then Some(0)
    else match FindIndex(tasks[1..], id)
      case None => None
      case Some(k) => Some(k + 1)
  }

  // ---------------------------------------------------------------------
  // People lists

  /** The persona comparison of `differentPersonaLists` as written: same
      id or same email, where two undefined values are equal. */
  predicate SamePersonaAsWritten(p2: User, persona: User) {
    p2.id == persona.id || p2.email == persona.email
  }

  /** The comparison with undefined values never matching: a defined id
      or email that both share, or the same account (list assignees carry
      neither id nor email). */
  predicate SamePersona(p2: User, persona: User) {
    || (persona.id.Some? && p2.id == persona.id)
    || (persona.email.Some? && p2.email == persona.email)
    || p2.accountName == persona.accountName
  }

  /** `find(list, p2 => same(p2, persona))` finds something. */
  predicate HasMatch(list: seq<User>, persona: User, same: (User, User) -> bool) {
    exists j :: 0 <= j < |list| && same(list[j], persona)
  }

  /** The persona at index `i` of `list1` has no match in `list2`. */
  predicate UnmatchedAt(list1: seq<User>, list2: seq<User>, i: int, same: (User, User) -> bool) {
    0 <= i < |list1| && !HasMatch(list2, list1[i], same)
  }

  /** The lists differ: other lengths, or a persona of the first without a
      match in the second. */
  predicate Differ(list1: seq<User>, list2: seq<User>, same: (User, User) -> bool) {
    |list1| != |list2| || exists i :: 0 <= i < |list1| && UnmatchedAt(list1, list2, i, same)
  }

  /** `differentPersonaLists`, with the persona comparison as a parameter:
      a length check, then a scan of the first list that stops at the
      first persona without a match. */
  method DifferentPersonaLists(list1: seq<User>, list2: seq<User>, same: (User, User) -> bool) returns (different: bool)
    ensures different <==> Differ(list1, list2, same)
  {
    if |list1| != |list2| {
      return true;
    }
    different := false;
    var i := 0;
    while i < |list1|
      invariant 0 <= i <= |list1|
      invariant !different ==> forall k :: 0 <= k < i ==> HasMatch(list2, list1[k], same)
      invariant different ==> UnmatchedAt(list1, list2, i, same)
    {
      var present := false;
      var j := 0;
      while j < |list2|
        invariant 0 <= j <= |list2|
        invariant present <==> exists m :: 0 <= m < j && same(list2[m], list1[i])
      {
        if same(list2[j], list1[i]) {
          present := true;
          break;
        }
        j := j + 1;
      }
      if !present {
        assert !HasMatch(list2, list1[i], same);
        different := true;
        break;
      }
      i := i + 1;
    }
    if different {
      assert UnmatchedAt(list1, list2, i, same);
    }
  }

  /** As written, people with neither id nor email all match one another:
      replacing one assignee read from the list by another goes unnoticed. */
  lemma SwapOfAssigneesUndetected()
    ensures
      var alice := User(None, "Alice", None, "i:0#.f|membership|alice", "");
      var bob := User(None, "Bob", Some("bob@contoso.com"), "i:0#.f|membership|bob", "");
      && !Differ([alice], [bob], SamePersonaAsWritten)
      && Differ([alice], [bob], SamePersona)
  {
    var alice := User(None, "Alice", None, "i:0#.f|membership|alice", "");
    var bob := User(None, "Bob", Some("bob@contoso.com"), "i:0#.f|membership|bob", "");
    assert SamePersonaAsWritten([bob][0], alice);
    assert !SamePersona([bob][0], alice);
    assert [alice][0] == alice && UnmatchedAt([alice], [bob], 0, SamePersona);
  }

  /** Corrected comparison: every person matches themself, and two people
      with different accounts match only through a defined id or email. */
  lemma SamePersonaProperties(p2: User, persona: User)
    ensures SamePersona(persona, persona)
    ensures p2.accountName != persona.accountName && SamePersona(p2, persona) ==>
      (persona.id.Some? && p2.id == persona.id) || (persona.email.Some? && p2.email == persona.email)
    ensures p2.accountName != persona.accountName && persona.id.None? && persona.email.None? ==> !SamePersona(p2, persona)
  {
  }

  /** With the corrected comparison a list never differs from itself, and
      lists of different lengths always differ. */
  lemma {:induction false} DifferProperties(list1: seq<User>, list2: seq<User>)
    ensures |list1| != |list2| ==> Differ(list1, list2, SamePersona)
    ensures !Differ(list1, list1, SamePersona)
  {
    forall i | 0 <= i < |list1| ensures !UnmatchedAt(list1, list1, i, SamePersona) {
      assert SamePersona(list1[i], list1[i]);
    }
  }

  /** The comparison as written matches every person to themself, so
      the handler never saves an unchanged list; lists of different
      lengths always differ. */
  lemma {:induction false} DifferAsWrittenProperties(list1: seq<User>, list2: seq<User>)
    ensures |list1| != |list2| ==> Differ(list1, list2, SamePersonaAsWritten)
    ensures !Differ(list1, list1, SamePersonaAsWritten)
  {
    forall i | 0 <= i < |list1| ensures !UnmatchedAt(list1, list1, i, SamePersonaAsWritten) {
      assert SamePersonaAsWritten(list1[i], list1[i]);
    }
  }

  // ---------------------------------------------------------------------
  // People update

  /** An entry of the `users` array: a numeric id (`None` for NaN) and the
      account name it belongs to. */
  datatype UserRef = UserRef(id: Option<int>, accountName: string)

  /** `if (user.id)`: a defined, non-empty id string. */
  predicate HasId(u: User) {
    u.id.Some? && u.id.value != ""
  }

  /** The `users` entry for one person: the parsed id, or the id the
      directory resolves the account name to (`null` when it does not). */
  function UserRefFor(u: User, resolve: string -> Option<int>): Option<UserRef> {
    if HasId(u) then
      var parsed := ParseInt(u.id.value);
      Some(UserRef(if parsed.Some? then Some(parsed.value as int) else None, u.accountName))
    else
      match resolve(u.accountName)
      case Some(id) => Some(UserRef(Some(id), u.accountName))
      case None => None
  }

  /** The loop of `onTaskPersonPropertyChange` that builds `users`; a
      person the directory does not resolve leaves a `null` that the
      following `map` throws on. */
  method ResolveUsers(people: seq<User>, resolve: string -> Option<int>) returns (r: Result<seq<UserRef>, ChangeError>)
    ensures r.Success? <==> forall i :: 0 <= i < |people| ==> UserRefFor(people[i], resolve).Some?
    ensures r.Success? ==> |r.value| == |people|
    ensures r.Success? ==> forall i :: 0 <= i < |people| ==> Some(r.value[i]) == UserRefFor(people[i], resolve)
    ensures r.Failure? ==> r.error == UserNotResolved
  {
    var users: seq<Option<UserRef>> := [];
    for i := 0 to |people|
      invariant |users| == i
      invariant forall k :: 0 <= k < i ==> users[k] == UserRefFor(people[k], resolve)
    {
      var user := people[i];
      if HasId(user) {
        var parsed := ParseInt(user.id.value);
        users := users + [Some(UserRef(if parsed.Some? then Some(parsed.value as int) else None, user.accountName))];
      } else {
        var usernameId := resolve(user.accountName);
        users := users + [if usernameId.Some? then Some(UserRef(Some(usernameId.value), user.accountName)) else None];
      }
    }
    var refs: seq<UserRef> := [];
    for i := 0 to |users|
      invariant |refs| == i
      invariant forall k :: 0 <= k < i ==> users[k] == Some(refs[k])
    {
      if users[i].None? {
        return Failure(UserNotResolved);
      }
      refs := refs + [users[i].value];
    }
    return Success(refs);
  }

  /** `${id}` for the id of a `users` entry. */
  function IdText(id: Option<int>): string {
    if id.Some? then IntToString(id.value) else "NaN"
  }

  /** lodash `find(users, u => u.accountName === accountName)`: the first
      entry for that account. */
  function FindByAccount(refs: seq<UserRef>, accountName: string): (r: Option<UserRef>)
    ensures r.None? <==> forall k :: 0 <= k < |refs| ==> refs[k].accountName != accountName
    ensures r.Some? ==> r.value.accountName == accountName
    ensures forall k :: (0 <= k < |refs| && refs[k].accountName == accountName &&
                         forall m :: 0 <= m < k ==> refs[m].accountName != accountName) ==> r == Some(refs[k])
  {
    if refs == [] then None
    else if refs[0].accountName == accountName then Some(refs[0])
    else
      var r := FindByAccount(refs[1..], accountName);
      assert forall k :: 1 <= k < |refs| ==> refs[k] == refs[1..][k - 1];
      r
  }

  /** `refs` has an entry for the account. */
  predicate Listed(refs: seq<UserRef>, accountName: string) {
    exists k :: 0 <= k < |refs| && refs[k].accountName == accountName
  }

  /** Every person has an entry for their account in `refs`. */
  predicate AllAccountsListed(people: seq<User>, refs: seq<UserRef>) {
    forall i :: 0 <= i < |people| ==> Listed(refs, people[i].accountName)
  }

  /** One person after `user.id = `${userWithId.id}``. */
  function WithId(u: User, refs: seq<UserRef>): User
    requires Listed(refs, u.accountName)
  {
    u.(id := Some(IdText(FindByAccount(refs, u.accountName).value.id)))
  }

  /** The `forEach` that writes the ids into the people given to the
      change, each from the first entry for its account. */
  method AttachIds(people: seq<User>, refs: seq<UserRef>) returns (withIds: seq<User>)
    requires AllAccountsListed(people, refs)
    ensures |withIds| == |people|
    ensures forall i :: 0 <= i < |people| ==> withIds[i] == WithId(people[i], refs)
  {
    withIds := people;
    for i := 0 to |people|
      invariant |withIds| == |people|
      invariant forall k :: 0 <= k < i ==> withIds[k] == WithId(people[k], refs)
      invariant forall k :: i <= k < |people| ==> withIds[k] == people[k]
    {
      var userWithId := FindByAccount(refs, people[i].accountName);
      withIds := withIds[i := people[i].(id := Some(IdText(userWithId.value.id)))];
    }
  }

  /** The entries `ResolveUsers` builds when every person resolves. */
  function AllRefs(people: seq<User>, resolve: string -> Option<int>): (refs: seq<UserRef>)
    requires forall i :: 0 <= i < |people| ==> UserRefFor(people[i], resolve).Some?
    ensures |refs| == |people|
  {
    seq(|people|, i requires 0 <= i < |people| => UserRefFor(people[i], resolve).value)
  }

  /** `users.map(persona => persona.id)`. */
  function RefIds(refs: seq<UserRef>): (ids: seq<Option<int>>)
    ensures |ids| == |refs|
  {
    seq(|refs|, i requires 0 <= i < |refs| => refs[i].id)
  }

  /** The people with the ids written into them. */
  function AttachAll(people: seq<User>, refs: seq<UserRef>): (r: seq<User>)
    requires AllAccountsListed(people, refs)
    ensures |r| == |people|
  {
    seq(|people|, i requires 0 <= i < |people| => WithId(people[i], refs))
  }

  /** Each entry keeps the account name of its person, so every person finds
      an entry when the ids are written back. */
  lemma {:induction false} RefsListAllAccounts(people: seq<User>, resolve: string -> Option<int>)
    requires forall i :: 0 <= i < |people| ==> UserRefFor(people[i], resolve).Some?
    ensures forall i :: 0 <= i < |people| ==> AllRefs(people, resolve)[i].accountName == people[i].accountName
    ensures AllAccountsListed(people, AllRefs(people, resolve))
  {
    var refs := AllRefs(people, resolve);
    forall i | 0 <= i < |people|
      ensures refs[i].accountName == people[i].accountName
    {
      assert refs[i] == UserRefFor(people[i], resolve).value;
    }
    assert AllAccountsListed(people, refs) by {
      forall i | 0 <= i < |people|
        ensures Listed(refs, people[i].accountName)
      {
        assert 0 <= i < |refs| && refs[i].accountName == people[i].accountName;
      }
    }
  }

  /** With one entry per account, each person gets the id resolved for
      them: the number parsed from their own id, or the directory's. */
  lemma {:induction false} OwnIdAttached(people: seq<User>, resolve: string -> Option<int>, i: int)
    requires forall i :: 0 <= i < |people| ==> UserRefFor(people[i], resolve).Some?
    requires forall p, q :: 0 <= p < q < |people| ==> people[p].accountName != people[q].accountName
    requires 0 <= i < |people|
    ensures AllAccountsListed(people, AllRefs(people, resolve))
    ensures WithId(people[i], AllRefs(people, resolve)).id == Some(IdText(UserRefFor(people[i], resolve).value.id))
  {
    var refs := AllRefs(people, resolve);
    RefsListAllAccounts(people, resolve);
    assert refs[i].accountName == people[i].accountName;
    forall m | 0 <= m < i ensures refs[m].accountName != people[i].accountName {
      assert refs[m].accountName == people[m].accountName;
    }
    assert FindByAccount(refs, people[i].accountName) == Some(refs[i]);
  }

  /** A person whose id is a number written in decimal keeps that id. */
  lemma {:induction false} NumericIdKept(u: User, resolve: string -> Option<int>, n: nat)
    requires u.id == Some(NatToString(n))
    ensures UserRefFor(u, resolve) == Some(UserRef(Some(n), u.accountName))
    ensures IdText(UserRefFor(u, resolve).value.id) == u.id.value
  {
    ParseIntOfNatToString(n);
  }

  /** A person without an id gets the directory's id in decimal; when the
      directory does not know the account, the update fails. */
  lemma {:induction false} DirectoryIdAttached(u: User, resolve: string -> Option<int>)
    requires !HasId(u)
    ensures resolve(u.accountName).None? ==> UserRefFor(u, resolve).None?
    ensures resolve(u.accountName).Some? && resolve(u.accountName).value >= 0 ==>
      IdText(UserRefFor(u, resolve).value.id) == NatToString(resolve(u.accountName).value)
  {
  }

  // ---------------------------------------------------------------------
  // Component

  /** `state.tasks`: `null` before the tasks arrive, `undefined` when the
      service returns nothing, otherwise the loaded tasks. */
  datatype TaskList = Null | Undefined | Loaded(items: seq<Task>)

  /** Why a change handler stops: `state.tasks` is not an array, no task
      has the id, or an account did not resolve to a user (each a thrown
      TypeError in the handler). */
  datatype ChangeError = TasksNotLoaded | TaskNotFound | UserNotResolved

  /** The `updateTask` call a change makes. */
  datatype UpdateRequest = UpdateRequest(taskId: int, propertyName: string, value: FieldValue)

  /** How a change handler ends. */
  datatype ChangeOutcome = Failed(error: ChangeError) | Unchanged | Saved(request: UpdateRequest)

  /** The people property the edit panel changes, and the field of the
      update that carries their ids (`${propertyName}Id`). */
  const PersonProperty := "assignedTo"
  const PersonFieldName := PersonProperty + "Id"

  /** What `render` shows: the shimmer while loading, a message when there
      are no tasks, nothing while the status options are missing, otherwise
      the chart and, when a task is selected, its modal. */
  datatype View = Loading | NoTasksFound | Blank | Chart(tasks: seq<Task>, modal: Option<Task>, isOpen: bool)

  function Render(tasks: TaskList, isOpen: bool, selectedTaskId: Option<int>,
                  statusOptions: Option<seq<DropdownOption>>): (v: View)
    ensures v == Loading <==> tasks == Null
    ensures v == NoTasksFound <==> tasks == Loaded([])
    ensures v.Chart? <==> tasks.Loaded? && tasks.items != [] && statusOptions.Some?
    ensures v.Chart? ==> v.tasks == tasks.items && v.isOpen == isOpen
    ensures v.Chart? && v.modal.Some? ==> selectedTaskId == Some(v.modal.value.id) && v.modal.value in v.tasks
    ensures v.Chart? && v.modal.None? ==>
      selectedTaskId.None? || forall i :: 0 <= i < |v.tasks| ==> v.tasks[i].id != selectedTaskId.value
  {
    match tasks
    case Null => Loading
    case Undefined => Blank
    case Loaded(items) =>
      if items == [] then NoTasksFound
      else if statusOptions.None? then Blank
      else
        var selected :=
          if selectedTaskId.None? then None
          else match FindIndex(items, selectedTaskId.value)
            case None => None
            case Some(k) => Some(items[k]);
        Chart(items, selected, isOpen)
  }

  /** The component: its state and handlers. The service calls are left to
      the caller: mounting receives what the service returned, and each
      change handler returns the update it sends. */
  class SpfxTasksGanttComponent {
    var tasks: TaskList
    var isOpen: bool
    var selectedTaskId: Option<int>
    var statusOptions: Option<seq<DropdownOption>>

    constructor()
      ensures tasks == Null && !isOpen && selectedTaskId.None? && statusOptions.None?
    {
      tasks := Null;
      isOpen := false;
      selectedTaskId := None;
      statusOptions := None;
    }

    function View(): View
      reads this
    {
      Render(tasks, isOpen, selectedTaskId, statusOptions)
    }

    /** `componentDidMount`: stores the tasks and the status options. */
    method ComponentDidMount(loaded: TaskList, options: Option<seq<DropdownOption>>)
      modifies this
      ensures tasks == loaded && statusOptions == options
      ensures isOpen == old(isOpen) && selectedTaskId == old(selectedTaskId)
    {
      tasks := loaded;
      statusOptions := options;
    }

    /** `openTaskModal`. */
    method OpenTaskModal(taskId: int)
      modifies this
      ensures selectedTaskId == Some(taskId) && isOpen
      ensures tasks == old(tasks) && statusOptions == old(statusOptions)
    {
      selectedTaskId := Some(taskId);
      isOpen := true;
    }

    /** `setIsOpen`. */
    method SetIsOpen(open: bool)
      modifies this
      ensures isOpen == open
      ensures tasks == old(tasks) && selectedTaskId == old(selectedTaskId) && statusOptions == old(statusOptions)
    {
      isOpen := open;
    }

    /** `onTaskPropertyChange`: a copy of the task array, the task with the
      id, the no-change check, then the update and the new task in the
      copy at the same index. */
    method OnTaskPropertyChange(taskId: int, f: Field, value: FieldValue) returns (outcome: ChangeOutcome)
      requires Fits(f, value)
      modifies this
      ensures isOpen == old(isOpen) && selectedTaskId == old(selectedTaskId) && statusOptions == old(statusOptions)
      ensures !old(tasks).Loaded? ==> outcome == Failed(TasksNotLoaded) && tasks == old(tasks)
      ensures old(tasks).Loaded? && FindIndex(old(tasks).items, taskId).None? ==>
        outcome == Failed(TaskNotFound) && tasks == old(tasks)
      ensures old(tasks).Loaded? && FindIndex(old(tasks).items, taskId).Some? ==>
        var items := old(tasks).items;
        var k := FindIndex(items, taskId).value;
        if Unchanging(f, Get(items[k], f), value) then
          outcome == Unchanged && tasks == old(tasks)
        else
          outcome == Saved(UpdateRequest(taskId, PropertyName(f), value)) &&
          tasks == Loaded(items[k := Set(items[k], f, value)])
    {
      if !tasks.Loaded? {
        return Failed(TasksNotLoaded);
      }
      var items := tasks.items;
      var copy := new Task[|items|](i requires 0 <= i < |items| => items[i]);
      assert copy[..] == items;
      var updatedTaskIndex := FindIndex(copy[..], taskId);
      if updatedTaskIndex.None? {
        return Failed(TaskNotFound);
      }
      var k := updatedTaskIndex.value;
      var current := Get(copy[k], f);
      if IsDateField(f) {
        var same := EqualDatesNoTime(current.time, value.time);
        if same {
          return Unchanged;
        }
      } else if current == value {
        return Unchanged;
      }
      outcome := Saved(UpdateRequest(taskId, PropertyName(f), value));
      copy[k] := Set(copy[k], f, value);
      tasks := Loaded(copy[..]);
    }

    /** `onTaskPersonPropertyChange` for the assignees: the task with the
      id, the people comparison, the ids of the people (parsed, or from
      the directory through `resolve`), the update, and the people with
      their ids written in. */
    method OnTaskPersonPropertyChange(taskId: int, people: seq<User>, resolve: string -> Option<int>) returns (outcome: ChangeOutcome)
      modifies this
      ensures isOpen == old(isOpen) && selectedTaskId == old(selectedTaskId) && statusOptions == old(statusOptions)
      ensures !old(tasks).Loaded? ==> outcome == Failed(TasksNotLoaded) && tasks == old(tasks)
      ensures old(tasks).Loaded? && FindIndex(old(tasks).items, taskId).None? ==>
        outcome == Failed(TaskNotFound) && tasks == old(tasks)
      ensures old(tasks).Loaded? && FindIndex(old(tasks).items, taskId).Some? ==>
        var items := old(tasks).items;
        var k := FindIndex(items, taskId).value;
        if !Differ(items[k].assignedTo, people, SamePersonaAsWritten) then
          outcome == Unchanged && tasks == old(tasks)
        else if exists i :: 0 <= i < |people| && UserRefFor(people[i], resolve).None? then
          outcome == Failed(UserNotResolved) && tasks == old(tasks)
        else
          var refs := AllRefs(people, resolve);
          AllAccountsListed(people, refs) &&
          outcome == Saved(UpdateRequest(taskId, PersonFieldName, UserIds(RefIds(refs)))) &&
          tasks == Loaded(items[k := items[k].(assignedTo := AttachAll(people, refs))])
    {
      if !tasks.Loaded? {
        return Failed(TasksNotLoaded);
      }
      var items := tasks.items;
      var copy := new Task[|items|](i requires 0 <= i < |items| => items[i]);
      assert copy[..] == items;
      var updatedTaskIndex := FindIndex(copy[..], taskId);
      if updatedTaskIndex.None? {
        return Failed(TaskNotFound);
      }
      var k := updatedTaskIndex.value;
      var different := DifferentPersonaLists(copy[k].assignedTo, people, SamePersonaAsWritten);
      if !different {
        return Unchanged;
      }
      var users := ResolveUsers(people, resolve);
      if users.Failure? {
        return Failed(UserNotResolved);
      }
      var refs := users.value;
      assert refs == AllRefs(people, resolve);
      RefsListAllAccounts(people, resolve);
      outcome := Saved(UpdateRequest(taskId, PersonFieldName, UserIds(RefIds(refs))));
      var propertiesWithIds := AttachIds(people, refs);
      assert propertiesWithIds == AttachAll(people, refs);
      copy[k] := copy[k].(assignedTo := propertiesWithIds);
      tasks := Loaded(copy[..]);
    }
  }

  /** Saving the value a change just saved is a no-change: the handler is
      idempotent. */
  lemma SecondChangeUnchanged(t: Task, f: Field, v: FieldValue)
    requires Fits(f, v)
    ensures Unchanging(f, Get(Set(t, f, v), f), v)
  {
  }

  /** A new date on the same day as the stored one is never saved; one on
      another day always is. */
  lemma {:induction false} DateChangeNeedsNewDay(t: Task, f: Field, d: int, t1: int, t2: int)
    requires IsDateField(f) && Get(t, f) == Date(d * MsPerDay + t1)
    requires 0 <= t1 < MsPerDay && 0 <= t2 < MsPerDay
    ensures Unchanging(f, Get(t, f), Date(d * MsPerDay + t2))
    ensures !Unchanging(f, Get(t, f), Date((d + 1) * MsPerDay + t2))
  {
    SameDayAtAnyTime(d, t1, t2);
  }

  /** After the modal is opened on a listed task, the chart shows that
      task's modal, open. */
  lemma {:induction false} OpenedTaskShown(items: seq<Task>, i: int, options: seq<DropdownOption>)
    requires 0 <= i < |items|
    ensures
      var v := Render(Loaded(items), true, Some(items[i].id), Some(options));
      v.Chart? && v.isOpen && v.modal.Some? && v.modal.value.id == items[i].id
  {
    assert FindIndex(items, items[i].id).Some?;
  }
}
