/** The home screen: three live lists (today's tasks, today's events, the user's documents)
    combined into one snapshot, and three fire-and-forget writes whose failures are shown. */
module Home {
  import opened KotlinText
  import opened TaskModel
  import opened EventModel
  import opened DocumentModel
  import opened Backend

  datatype HomeUiState = HomeUiState(
    isLoading: bool,
    tasks: seq<Task>,
    events: seq<Event>,
    recentDocuments: seq<Document>,
    error: Option<string>)

  /** `HomeUiState(isLoading = true)`. */
  const INITIAL_STATE: HomeUiState := HomeUiState(true, [], [], [], None)

  /** How many documents the home screen lists. */
  const RECENT_DOCUMENT_COUNT: nat := 5

  /** Kotlin's `take(n)`: the first `n` elements, or all of them when there are fewer. */
  function Take<T>(xs: seq<T>, n: nat): (r: seq<T>)
    ensures |r| == if |xs| < n then |xs| else n
    ensures r == xs[..|r|]
  {
    if |xs| <= n then xs else xs[..n]
  }

  /** The latest value of each of the three sources, as `combine` hands them over. */
  datatype Emission = Emission(tasks: seq<Task>, events: seq<Event>, documents: seq<Document>)

  /** The `combine` body: every field of the state is overwritten. Tasks and events are shown
      as they came, the first (at most) five documents in their order, and loading and the
      error are cleared. */
  function ApplyEmission(s: HomeUiState, e: Emission): (r: HomeUiState)
    ensures !r.isLoading && r.error == None && r.tasks == e.tasks && r.events == e.events
    ensures |r.recentDocuments| <= RECENT_DOCUMENT_COUNT && r.recentDocuments <= e.documents
    ensures |r.recentDocuments| == RECENT_DOCUMENT_COUNT || r.recentDocuments == e.documents
  {
    s.(isLoading := false, tasks := e.tasks, events := e.events,
       recentDocuments := Take(e.documents, RECENT_DOCUMENT_COUNT), error := None)
  }

  /** Nothing of the state before an emission survives it. */
  lemma ApplyEmissionForgetsState(s: HomeUiState, t: HomeUiState, e: Emission)
    ensures ApplyEmission(s, e) == ApplyEmission(t, e)
  {
  }

  /** The state after a run of emissions, one after the other. */
  function Replay(s: HomeUiState, es: seq<Emission>): HomeUiState
    decreases |es|
  {
    if es == [] then s else Replay(ApplyEmission(s, es[0]), es[1..])
  }

  /** After any non-empty run of emissions the state is the one built from the latest triple
      alone, whatever came before it and whatever state the screen started in. */
  lemma {:induction false} ReplayDependsOnLatestOnly(s: HomeUiState, es: seq<Emission>)
    requires es != []
    ensures Replay(s, es) == ApplyEmission(INITIAL_STATE, es[|es| - 1])
    decreases |es|
  {
    if |es| == 1 {
      assert Replay(ApplyEmission(s, es[0]), es[1..]) == ApplyEmission(s, es[0]);
      ApplyEmissionForgetsState(s, INITIAL_STATE, es[0]);
    } else {
      ReplayDependsOnLatestOnly(ApplyEmission(s, es[0]), es[1..]);
    }
  }

  /** The view-model; `currentUserId` stands for `accountService.currentUserId`. */
  class HomeViewModel {
    var state: HomeUiState
    const currentUserId: string
    /** Whether the combined subscription started by `init` is still delivering. */
    ghost var collecting: bool
    /** The backend writes made so far (the three live subscriptions are not logged). */
    ghost var calls: seq<Call>

    /** Construction; `init` starts `loadHomeData`, whose live subscription then delivers
        through `OnEmission`. */
    constructor (currentUserId: string)
      ensures state == INITIAL_STATE && this.currentUserId == currentUserId
      ensures collecting && calls == []
    {
      state := INITIAL_STATE;
      this.currentUserId := currentUserId;
      collecting := true;
      calls := [];
    }

    /** One run of the `combine` body. */
    method OnEmission(tasks: seq<Task>, events: seq<Event>, documents: seq<Document>)
      requires collecting
      modifies this
      ensures state == ApplyEmission(old(state), Emission(tasks, events, documents))
      ensures collecting && calls == old(calls)
    {
      state := state.(isLoading := false, tasks := tasks, events := events,
                      recentDocuments := Take(documents, RECENT_DOCUMENT_COUNT), error := None);
    }

    /** The subscription threw: loading ends with the exception's message as the error, the
        lists stay as they were, and no further emission is delivered. */
    method OnLoadFailed(message: Option<string>)
      requires collecting
      modifies this
      ensures state == old(state).(isLoading := false, error := message)
      ensures !collecting && calls == old(calls)
    {
      state := state.(isLoading := false, error := message);
      collecting := false;
    }

    /** `addTask(task)`: the write, and on failure its message as the error; nothing else. */
    method AddTask(task: Task, outcome: Outcome<string>)
      modifies this
      ensures state == if outcome.Failure? then old(state).(error := outcome.message) else old(state)
      ensures collecting == old(collecting) && calls == old(calls) + [Backend.AddTask(task)]
    {
      calls := calls + [Backend.AddTask(task)];
      if outcome.Failure? {
        state := state.(error := outcome.message);
      }
    }

    /** `joinStudyGroup(groupId)` for the current user; on failure its message as the error. */
    method JoinStudyGroup(groupId: string, outcome: Outcome<()>)
      modifies this
      ensures state == if outcome.Failure? then old(state).(error := outcome.message) else old(state)
      ensures collecting == old(collecting) && calls == old(calls) + [Backend.JoinStudyGroup(groupId, currentUserId)]
    {
      calls := calls + [Backend.JoinStudyGroup(groupId, currentUserId)];
      if outcome.Failure? {
        state := state.(error := outcome.message);
      }
    }

    /** `uploadDocument(document)`; on failure its message as the error. */
    method UploadDocument(document: Document, outcome: Outcome<string>)
      modifies this
      ensures state == if outcome.Failure? then old(state).(error := outcome.message) else old(state)
      ensures collecting == old(collecting) && calls == old(calls) + [Backend.UploadDocument(document)]
    {
      calls := calls + [Backend.UploadDocument(document)];
      if outcome.Failure? {
        state := state.(error := outcome.message);
      }
    }

    method ClearError()
      modifies this
      ensures state == old(state).(error := None)
      ensures collecting == old(collecting) && calls == old(calls)
    {
      state := state.(error := None);
    }
  }
}
