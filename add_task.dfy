/** The add-task screen: the draft task, its field updaters, and submission with the check
    that the title is not blank. */
module AddTask {
  import opened KotlinText
  import opened KotlinNumbers
  import opened TaskModel
  import opened Backend

  datatype AddTaskUIState = AddTaskUIState(
    title: string,
    description: string,
    priority: TaskPriority,
    category: string,
    dueDate: Int64,
    isLoading: bool,
    errorMessage: Option<string>,
    isTaskAdded: bool)

  /** `AddTaskUIState()`: every field at its default. */
  const DEFAULT_STATE: AddTaskUIState := AddTaskUIState("", "", MEDIUM, "", 0, false, None, false)

  const TITLE_EMPTY := "Title cannot be empty"
  const ADD_FAILED := "Failed to add task"

  /** The task built from the draft: the draft's fields, owned by `userId`, not completed, with
      the id left for the backend and `createdAt` the clock reading. */
  function DraftTask(s: AddTaskUIState, userId: string, createdAt: Int64): Task
  {
    Task(
      id := "",
      title := s.title,
      description := s.description,
      userId := userId,
      priority := s.priority,
      category := s.category,
      dueDate := s.dueDate,
      isCompleted := false,
      createdAt := createdAt)
  }

  /** The error message after the launched block has thrown: the exception's message, or a
      fixed text when it has none. A blank title throws with `TITLE_EMPTY`. */
  function FailureMessage(message: Option<string>): (r: string)
    ensures message.Some? ==> r == message.value
    ensures message.None? ==> r == ADD_FAILED
  {
    Elvis(message, ADD_FAILED)
  }

  /** The view-model; `currentUserId` stands for `accountService.currentUserId`. */
  class AddTaskViewModel {
    var state: AddTaskUIState
    const currentUserId: string
    /** The backend calls made so far. */
    ghost var calls: seq<Call>

    constructor (currentUserId: string)
      ensures state == DEFAULT_STATE && this.currentUserId == currentUserId && calls == []
    {
      state := DEFAULT_STATE;
      this.currentUserId := currentUserId;
      calls := [];
    }

    method UpdateTitle(title: string)
      modifies this
      ensures state == old(state).(title := title) && calls == old(calls)
    {
      state := state.(title := title);
    }

    method UpdateDescription(description: string)
      modifies this
      ensures state == old(state).(description := description) && calls == old(calls)
    {
      state := state.(description := description);
    }

    method UpdatePriority(priority: TaskPriority)
      modifies this
      ensures state == old(state).(priority := priority) && calls == old(calls)
    {
      state := state.(priority := priority);
    }

    method UpdateCategory(category: string)
      modifies this
      ensures state == old(state).(category := category) && calls == old(calls)
    {
      state := state.(category := category);
    }

    method UpdateDueDate(dueDate: Int64)
      modifies this
      ensures state == old(state).(dueDate := dueDate) && calls == old(calls)
    {
      state := state.(dueDate := dueDate);
    }

    /** The launched block of `addTask` up to the backend call. It first enters the loading
        state; a blank title then throws inside the block, so the block ends there (not
        loading, the title message, `isTaskAdded` as before) without calling the backend.
        Otherwise the draft task is sent and returned, and the block resumes in
        `CompleteAddTask`. */
    method AddTask(createdAt: Int64) returns (submitted: Option<Task>)
      modifies this
      ensures var s := old(state);
        if IsBlank(s.title) then
          && submitted == None
          && state == s.(isLoading := false, errorMessage := Some(TITLE_EMPTY))
          && calls == old(calls)
        else
          && submitted == Some(DraftTask(s, currentUserId, createdAt))
          && state == s.(isLoading := true, errorMessage := None)
          && calls == old(calls) + [Backend.AddTask(submitted.value)]
    {
      state := state.(isLoading := true, errorMessage := None);
      var currentState := state;
      if IsBlank(currentState.title) {
        state := state.(isLoading := false, errorMessage := Some(FailureMessage(Some(TITLE_EMPTY))));
        return None;
      }
      var task := DraftTask(currentState, currentUserId, createdAt);
      calls := calls + [Backend.AddTask(task)];
      submitted := Some(task);
    }

    /** The end of the launched block, once `storageService.addTask` has returned or thrown. */
    method CompleteAddTask(outcome: Outcome<string>)
      modifies this
      ensures outcome.Success? ==> state == old(state).(isLoading := false, isTaskAdded := true)
      ensures outcome.Failure? ==>
        state == old(state).(isLoading := false, errorMessage := Some(FailureMessage(outcome.message)))
      ensures calls == old(calls)
    {
      match outcome
      case Success(_) =>
        state := state.(isLoading := false, isTaskAdded := true);
      case Failure(message) =>
        state := state.(isLoading := false, errorMessage := Some(FailureMessage(message)));
    }

    method ResetState()
      modifies this
      ensures state == DEFAULT_STATE && calls == old(calls)
    {
      state := DEFAULT_STATE;
    }
  }
}
