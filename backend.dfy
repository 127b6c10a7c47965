/** The boundary to the hosted backend. The view-models never see how a call is carried out:
    each call they make is appended to a ghost log, and what it returned arrives as an `Outcome`
    passed to the step that resumes after it. */
module Backend {
  import opened KotlinText
  import opened TaskModel
  import opened GroupModel
  import opened DocumentModel

  /** A call into the storage or account service, with its arguments. */
  datatype Call =
    | CreateStudyGroup(group: Group)
    | JoinStudyGroup(groupId: string, userId: string)
    | AddTask(task: Task)
    | UploadDocument(document: Document)
    | SignUp(email: string, password: string)
    | InitUserProfile(email: string, username: string, userId: string)
    | Authenticate(email: string, password: string)

  /** What a suspending call produced: its return value, or the exception it threw, of which
      only the (nullable) message is observable. */
  datatype Outcome<T> = Success(value: T) | Failure(message: Option<string>)
}
