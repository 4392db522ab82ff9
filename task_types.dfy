/** A task as the client receives it from the server (the shape frontend/src/lib/types.jsx describes). */
module TaskTypes {

  /**
   * `dueDate` as `moment` reads it. The field is optional: a missing date
   * (`undefined`) reads as the current instant; a date reads as its instant
   * in milliseconds since the epoch; `null`, "" and text `moment` cannot parse
   * read as an invalid moment, which is before nothing.
   */
  datatype DueDate = Unset | DueAt(ms: int) | Unparsable

  /** `createdAt` and `updatedAt` are milliseconds since the epoch. */
  datatype Task = Task(
    id: string, title: string, description: string, status: string,
    completed: bool, dueDate: DueDate, priority: string, createdAt: int, updatedAt: int)
}
