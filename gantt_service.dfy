/** The pure part of the SharePoint service: list items decoded into tasks
    and sorted by start date, the user photo address, the column an update
    writes, and choice fields turned into dropdown options. The requests
    themselves are left to the caller, who passes in what they returned. */
module GanttService {
  import opened Wrappers
  import opened Js
  import opened Models
  import opened Timeline
  import SpfxTasksGantt

  // ---------------------------------------------------------------------
  // List items

  /** A person of an expanded person column (`Name` is the account name). */
  datatype ListUser = ListUser(name: string, title: string)

  /** An entry of the expanded `Predecessors` column. */
  datatype ListPredecessor = ListPredecessor(id: int, title: string)

  /** A task list item as the query returns it. Dates are the instants
      `new Date(…)` reads from the item; absent lookups are `None`. */
  datatype ListItem = ListItem(
    id: int,
    title: string,
    body: string,
    percentComplete: Option<real>,
    checkmark: string,
    created: int,
    startDate: int,
    dueDate: int,
    status: string,
    predecessors: Option<seq<ListPredecessor>>,
    assignedTo: Option<seq<ListUser>>,
    author: ListUser,
    priority: string)

  const UserPhotoPrefix := "/_layouts/15/userphoto.aspx?Size=L&accountname="

  /** `_getUserImage`: the photo address of an account. */
  function UserImage(accountName: string): (url: string)
    ensures |url| == |UserPhotoPrefix| + |accountName|
    ensures url[..|UserPhotoPrefix|] == UserPhotoPrefix
    ensures url[|UserPhotoPrefix|..] == accountName
  {
    UserPhotoPrefix + accountName
  }

  /** The account name is the rest of the address after the prefix, so
      different accounts get different photo addresses. */
  lemma {:induction false} UserImageInjective(a: string, b: string)
    ensures UserImage(a) == UserImage(b) ==> a == b
  {
    if UserImage(a) == UserImage(b) {
      assert a == UserImage(a)[|UserPhotoPrefix|..];
    }
  }

  /** A person of the item as a task user: display text, photo and account
      name, with no id and no email. */
  function ToUser(u: ListUser): (r: User)
    ensures r.id.None? && r.email.None?
    ensures r.text == u.title && r.accountName == u.name && r.imageUrl == UserImage(u.name)
  {
    User(None, u.title, None, u.name, UserImage(u.name))
  }

  function ToPredecessor(p: ListPredecessor): Predecessor {
    Predecessor(p.id, p.title)
  }

  /** The `map` callback of `getTasks`: one task per list item. */
  function ToTask(item: ListItem): (t: Task)
    ensures t.id == item.id && t.title == item.title && t.description == item.body
    ensures t.percentComplete == NumberOr(item.percentComplete, 0.0)
    ensures t.completed <==> item.checkmark != "0"
    ensures t.createdDate == item.created && t.startDate == item.startDate && t.dueDate == item.dueDate
    ensures t.status == item.status && t.priority == item.priority
    ensures item.predecessors.None? ==> t.predecessors == []
    ensures item.predecessors.Some? ==> |t.predecessors| == |item.predecessors.value|
    ensures item.predecessors.Some? ==> forall k :: 0 <= k < |t.predecessors| ==>
      t.predecessors[k] == Predecessor(item.predecessors.value[k].id, item.predecessors.value[k].title)
    ensures item.assignedTo.None? ==> t.assignedTo == []
    ensures item.assignedTo.Some? ==> |t.assignedTo| == |item.assignedTo.value|
    ensures item.assignedTo.Some? ==> forall k :: 0 <= k < |t.assignedTo| ==> t.assignedTo[k] == ToUser(item.assignedTo.value[k])
    ensures t.createdBy == ToUser(item.author)
  {
    var assignedTo :=
      if item.assignedTo.Some? then
        var users := item.assignedTo.value;
        seq(|users|, k requires 0 <= k < |users| => ToUser(users[k]))
      else [];
    var predecessors :=
      if item.predecessors.Some? then
        var pres := item.predecessors.value;
        seq(|pres|, k requires 0 <= k < |pres| => ToPredecessor(pres[k]))
      else [];
    Task(item.id, item.title, item.body, NumberOr(item.percentComplete, 0.0), item.checkmark != "0",
         item.created, item.startDate, item.dueDate, item.status, item.priority, predecessors, assignedTo,
         ToUser(item.author))
  }

  /** `getTasks` once the items have been read: nothing (`undefined`) for
      an empty site address, otherwise the decoded items, sorted in place
      by start date. */
  method GetTasks(siteUrl: string, listItems: seq<ListItem>) returns (tasks: Option<seq<Task>>)
    ensures siteUrl == "" <==> tasks.None?
    ensures tasks.Some? ==> SortedByStart(tasks.value)
    ensures tasks.Some? ==> multiset(tasks.value) == multiset(seq(|listItems|, i requires 0 <= i < |listItems| => ToTask(listItems[i])))
  {
    if siteUrl == "" {
      return None;
    }
    var a := new Task[|listItems|](i requires 0 <= i < |listItems| => ToTask(listItems[i]));
    assert a[..] == seq(|listItems|, i requires 0 <= i < |listItems| => ToTask(listItems[i]));
    SortByStartDate(a);
    return Some(a[..]);
  }

  /** Every list item gives exactly one task, carrying its id and title,
      and the loaded tasks are the decoded items in another order. */
  lemma {:induction false} OneTaskPerItem(listItems: seq<ListItem>, tasks: seq<Task>)
    requires multiset(tasks) == multiset(seq(|listItems|, i requires 0 <= i < |listItems| => ToTask(listItems[i])))
    ensures |tasks| == |listItems|
    ensures forall i :: 0 <= i < |listItems| ==> ToTask(listItems[i]) in tasks
    ensures forall j :: 0 <= j < |tasks| ==> exists i :: 0 <= i < |listItems| && tasks[j] == ToTask(listItems[i])
  {
    var decoded := seq(|listItems|, i requires 0 <= i < |listItems| => ToTask(listItems[i]));
    assert |tasks| == |multiset(tasks)| == |multiset(decoded)| == |decoded|;
    forall i | 0 <= i < |listItems| ensures ToTask(listItems[i]) in tasks {
      assert decoded[i] in multiset(decoded);
    }
    forall j | 0 <= j < |tasks| ensures exists i :: 0 <= i < |listItems| && tasks[j] == ToTask(listItems[i]) {
      assert tasks[j] in multiset(decoded);
      var i :| 0 <= i < |decoded| && decoded[i] == tasks[j];
    }
  }

  // ---------------------------------------------------------------------
  // Updates

  /** `SP_PROPERTY_MAPPINGS`: task property name to list column name. */
  const PropertyMappings: seq<(string, string)> := [
    ("id", "Id"),
    ("title", "Title"),
    ("percentComplete", "PercentComplete"),
    ("description", "Body"),
    ("completed", "Checkmark"),
    ("createdDate", "Created"),
    ("startDate", "StartDate"),
    ("dueDate", "DueDate"),
    ("status", "Status"),
    ("assignedToId", "AssignedToId"),
    ("predecessorsId", "PredecessorsId"),
    ("priority", "Priority")
  ]

  function Lookup(table: seq<(string, string)>, key: string): (r: Option<string>)
    ensures r.None? <==> forall k :: 0 <= k < |table| ==> table[k].0 != key
    ensures r.Some? ==> exists k :: 0 <= k < |table| && table[k] == (key, r.value)
    ensures forall k :: (0 <= k < |table| && table[k].0 == key &&
                         forall m :: 0 <= m < k ==> table[m].0 != key) ==> r == Some(table[k].1)
  {
    if table == [] then None
    else if table[0].0 == key then Some(table[0].1)
    else
      var r := Lookup(table[1..], key);
      assert forall k :: 1 <= k < |table| ==> table[k] == table[1..][k - 1];
      if r.Some? then
        assert exists k :: 0 <= k < |table[1..]| && table[1..][k] == (key, r.value);
        var k :| 0 <= k < |table[1..]| && table[1..][k] == (key, r.value);
        assert table[k + 1] == (key, r.value);
        r
      else r
  }

  /** The key of the one-property object `updateTask` sends: the mapped
      column, or `"undefined"` for a name the table does not have. */
  function UpdateKey(propertyName: string): (key: string)
    ensures Lookup(PropertyMappings, propertyName).Some? ==> key == Lookup(PropertyMappings, propertyName).value
    ensures Lookup(PropertyMappings, propertyName).None? ==> key == "undefined"
  {
    match Lookup(PropertyMappings, propertyName)
    case Some(column) => column
    case None => "undefined"
  }

  /** Every property the task panel changes, and the people field, has a
      list column. */
  lemma {:induction false} ChangesHaveColumns(f: SpfxTasksGantt.Field)
    ensures Lookup(PropertyMappings, SpfxTasksGantt.PropertyName(f)).Some?
    ensures Lookup(PropertyMappings, SpfxTasksGantt.PersonFieldName).Some?
  {
    assert PropertyMappings[9].0 == "assignedToId" == SpfxTasksGantt.PersonFieldName;
    match f
    case Title => assert PropertyMappings[1].0 == "title";
    case Description => assert PropertyMappings[3].0 == "description";
    case PercentComplete => assert PropertyMappings[2].0 == "percentComplete";
    case Completed => assert PropertyMappings[4].0 == "completed";
    case CreatedDate => assert PropertyMappings[5].0 == "createdDate";
    case StartDate => assert PropertyMappings[6].0 == "startDate";
    case DueDate => assert PropertyMappings[7].0 == "dueDate";
    case Status => assert PropertyMappings[8].0 == "status";
    case Priority => assert PropertyMappings[11].0 == "priority";
  }

  /** The assignees' ids are written to the `AssignedToId` column. */
  lemma PersonColumn()
    ensures UpdateKey(SpfxTasksGantt.PersonFieldName) == "AssignedToId"
  {
    var key := SpfxTasksGantt.PersonFieldName;
    assert key == "assignedToId";
    assert |key| == 12;
    assert PropertyMappings[9] == (key, "AssignedToId");
    assert forall m :: 0 <= m < 9 ==> |PropertyMappings[m].0| != 12 || PropertyMappings[m].0[0] != 'a';
  }

  /** The description is written to the `Body` column. */
  lemma DescriptionColumn()
    ensures UpdateKey("description") == "Body"
  {
    assert PropertyMappings[3] == ("description", "Body");
    assert forall m :: 0 <= m < 3 ==> |PropertyMappings[m].0| != |"description"| || PropertyMappings[m].0[0] != 'd';
  }

  /** A name the table lacks, such as the people property itself, gives the
      key `"undefined"`. */
  lemma UnmappedName()
    ensures UpdateKey("assignedTo") == "undefined"
  {
    assert forall m :: 0 <= m < |PropertyMappings| ==> |PropertyMappings[m].0| != 10 || PropertyMappings[m].0[0] != 'a';
  }

  // ---------------------------------------------------------------------
  // Choices and lists

  /** A choice field's choices as dropdown options (`statusField` absent
      gives none). */
  function ChoiceOptions(choices: Option<seq<string>>): (options: seq<DropdownOption>)
    ensures choices.None? ==> options == []
    ensures choices.Some? ==> |options| == |choices.value|
    ensures choices.Some? ==> forall k :: 0 <= k < |options| ==> options[k].key == choices.value[k] && options[k].text == choices.value[k]
  {
    if choices.None? then []
    else
      var cs := choices.value;
      seq(|cs|, k requires 0 <= k < |cs| => DropdownOption(cs[k], cs[k], false))
  }

  /** Status options keep each choice as key and text, so the panel's
      lookup of a task's status by key finds the option with that text. */
  lemma {:induction false} ChoiceKeyIsText(choices: seq<string>, k: int)
    requires 0 <= k < |choices|
    ensures ChoiceOptions(Some(choices))[k].key == ChoiceOptions(Some(choices))[k].text == choices[k]
  {
  }

  /** `getTaskLists`: no lists without a site address, otherwise the lists
      the site returned. */
  function TaskLists<L>(siteUrl: string, fetched: seq<L>): (lists: seq<L>)
    ensures siteUrl == "" ==> lists == []
    ensures siteUrl != "" ==> lists == fetched
  {
    if siteUrl == "" then [] else fetched
  }
}
