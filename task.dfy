/** The task record stored by the add-task screen and listed on the home screen. */
module TaskModel {
  import opened KotlinNumbers

  datatype TaskPriority = HIGH | MEDIUM | LOW

  /** `dueDate` and `createdAt` are epoch milliseconds; `id` is filled in by the backend. */
  datatype Task = Task(
    id: string,
    title: string,
    description: string,
    userId: string,
    priority: TaskPriority,
    category: string,
    dueDate: Int64,
    isCompleted: bool,
    createdAt: Int64)
}
