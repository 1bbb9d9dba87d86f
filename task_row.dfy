/** A task bar of the HTML chart: as many day widths as whole days between
    the task's start and due dates. */
module TaskRow {
  import opened Js
  import opened Calendar
  import opened Models

  /** `Math.abs(moment(start).diff(moment(due), 'days'))`. */
  function NumberOfDays(startDate: int, dueDate: int): nat {
    Abs(DiffDays(startDate, dueDate))
  }

  /** The style of the bar. */
  datatype BarStyle = BarStyle(top: real, height: real, borderRadius: real, width: real)

  function TaskRowStyle(task: Task, height: real, dayWidth: real, y: real): (s: BarStyle)
    ensures s.top == y && s.height == height && s.borderRadius * 2.0 == height
    ensures s.width == dayWidth * NumberOfDays(task.startDate, task.dueDate) as real
  {
    BarStyle(y, height, height / 2.0, dayWidth * NumberOfDays(task.startDate, task.dueDate) as real)
  }

  /** The count is the whole days between the dates, rounded down, in
      either order; so swapping start and due leaves the bar unchanged. */
  lemma NumberOfDaysProperties(task: Task, height: real, dayWidth: real, y: real)
    ensures task.startDate <= task.dueDate ==>
      NumberOfDays(task.startDate, task.dueDate) == (task.dueDate - task.startDate) / MsPerDay
    ensures task.dueDate <= task.startDate ==>
      NumberOfDays(task.startDate, task.dueDate) == (task.startDate - task.dueDate) / MsPerDay
    ensures NumberOfDays(task.startDate, task.dueDate) == NumberOfDays(task.dueDate, task.startDate)
    ensures TaskRowStyle(task.(startDate := task.dueDate, dueDate := task.startDate), height, dayWidth, y)
         == TaskRowStyle(task, height, dayWidth, y)
  {
  }

  /** A task due `n` whole days after it starts, at the same time of day,
      spans `n` day widths. */
  lemma {:induction false} WholeDayTask(task: Task, n: nat, height: real, dayWidth: real, y: real)
    requires task.dueDate == AddDays(task.startDate, n)
    ensures TaskRowStyle(task, height, dayWidth, y).width == dayWidth * n as real
  {
    DiffDaysAddDays(task.startDate, n);
  }
}
