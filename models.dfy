/** The records the web part passes around (ITask, IUser, IPredecessor,
    IDropdownOption). */
module Models {
  import opened Wrappers

  /** A link to a task this one depends on: its id and its cached title. */
  datatype Predecessor = Predecessor(id: int, title: string)

  /** A person (IUser, which extends the people picker's persona). `id` and
      `email` are often undefined: people read with the tasks carry neither,
      people found by the directory search carry no `id`. */
  datatype User = User(
    id: Option<string>,
    text: string,
    email: Option<string>,
    accountName: string,
    imageUrl: string)

  /** A task. Dates are instants in milliseconds; `dueDate` may precede
      `startDate`. */
  datatype Task = Task(
    id: int,
    title: string,
    description: string,
    percentComplete: real,
    completed: bool,
    createdDate: int,
    startDate: int,
    dueDate: int,
    status: string,
    priority: string,
    predecessors: seq<Predecessor>,
    assignedTo: seq<User>,
    createdBy: User)

  /** An entry of a dropdown (IDropdownOption). */
  datatype DropdownOption = DropdownOption(key: string, text: string, selected: bool)
}
