/** The join-study-group screen: the display record derived from each group, the live list of
    groups, and the optimistic local update after a successful join. */
module StudyGroups {
  import opened KotlinText
  import opened GroupModel
  import opened Backend

  datatype GroupUI = GroupUI(
    id: string,
    name: string,
    description: string,
    memberCount: int,
    isCurrentUserMember: bool,
    whatsAppLink: string)

  /** `isJoiningGroup` is the id of the group whose join is in flight, if any. */
  datatype JoinGroupUIState = JoinGroupUIState(
    groups: seq<GroupUI>,
    isLoading: bool,
    errorMessage: Option<string>,
    isJoiningGroup: Option<string>)

  const DEFAULT_STATE: JoinGroupUIState := JoinGroupUIState([], false, None, None)

  const LOAD_FAILED_PREFIX := "Failed to load groups: "
  const JOIN_FAILED_PREFIX := "Failed to join group: "

  /** The display record of one group, as seen by `currentUserId`. */
  function ToGroupUI(g: Group, currentUserId: string): (r: GroupUI)
    ensures r.id == g.id && r.name == g.name && r.description == g.description && r.whatsAppLink == g.whatsAppLink
    ensures r.memberCount == |g.members|
    ensures r.isCurrentUserMember <==> currentUserId in g.members
  {
    GroupUI(g.id, g.name, g.description, |g.members|, currentUserId in g.members, g.whatsAppLink)
  }

  /** `groups.map { ... }`: one display record per group, in the same order. */
  function ToGroupUIs(groups: seq<Group>, currentUserId: string): (r: seq<GroupUI>)
    ensures |r| == |groups|
    ensures forall i :: 0 <= i < |groups| ==> r[i] == ToGroupUI(groups[i], currentUserId)
  {
    if groups == [] then [] else [ToGroupUI(groups[0], currentUserId)] + ToGroupUIs(groups[1..], currentUserId)
  }

  /** The display record of a joined group: one more member, and the current user among them. */
  function Joined(g: GroupUI): GroupUI
  {
    g.(memberCount := g.memberCount + 1, isCurrentUserMember := true)
  }

  /** The optimistic update after joining `groupId`: every record with that id is marked as
      joined, and every other record is left as it was. Whether the user was already a
      member is not looked at. */
  function MarkJoined(groups: seq<GroupUI>, groupId: string): (r: seq<GroupUI>)
    ensures |r| == |groups|
    ensures forall i :: 0 <= i < |groups| ==>
      r[i] == if groups[i].id == groupId then Joined(groups[i]) else groups[i]
  {
    if groups == [] then []
    else [if groups[0].id == groupId then Joined(groups[0]) else groups[0]] + MarkJoined(groups[1..], groupId)
  }

  /** Joining a group that is not listed changes no record. */
  lemma {:induction false} MarkJoinedUnlisted(groups: seq<GroupUI>, groupId: string)
    requires forall i :: 0 <= i < |groups| ==> groups[i].id != groupId
    ensures MarkJoined(groups, groupId) == groups
  {
    if groups != [] {
      MarkJoinedUnlisted(groups[1..], groupId);
    }
  }

  /** The stored group as the group list reads it back after `joinStudyGroup` as written: the
      user id is added to a `memberIds` array, which `Group` has no field for, so the record,
      and with it `members`, is what it was before the join. */
  function WrittenJoin(g: Group, userId: string): Group
  {
    g
  }

  /** The join that the optimistic update anticipates: the user id is added to `members`, with
      the set-union behaviour of `arrayUnion` (an id already present is not added again). */
  function MemberJoin(g: Group, userId: string): Group
  {
    if userId in g.members then g else g.(members := g.members + [userId])
  }

  /** As written, the next snapshot shows a group the user has just joined as not joined: the
      count falls back by one and the membership flag is cleared again. */
  lemma WrittenJoinIsUndone(groups: seq<Group>, currentUserId: string, i: nat)
    requires i < |groups| && currentUserId !in groups[i].members
    ensures var shown := MarkJoined(ToGroupUIs(groups, currentUserId), groups[i].id)[i];
      var next := ToGroupUI(WrittenJoin(groups[i], currentUserId), currentUserId);
      shown.isCurrentUserMember && !next.isCurrentUserMember
      && next.memberCount == shown.memberCount - 1
  {
  }

  /** With the join written to `members`, the optimistic record is exactly the one the next
      snapshot gives for a user who was not a member; for a member the snapshot is unchanged,
      which the optimistic update (one more member each time) does not match. */
  lemma JoinedAgreesWithServerAfterAppend(g: Group, currentUserId: string)
    ensures currentUserId !in g.members ==>
      Joined(ToGroupUI(g, currentUserId)) == ToGroupUI(MemberJoin(g, currentUserId), currentUserId)
    ensures currentUserId in g.members ==>
      ToGroupUI(MemberJoin(g, currentUserId), currentUserId) == ToGroupUI(g, currentUserId)
      && Joined(ToGroupUI(g, currentUserId)).memberCount == ToGroupUI(g, currentUserId).memberCount + 1
  {
  }

  /** The local update is not idempotent: two successful joins of one group add two to its
      count, whereas adding the user to the member set twice adds one member. */
  lemma MarkJoinedTwiceCountsTwice(groups: seq<GroupUI>, groupId: string, i: nat)
    requires i < |groups| && groups[i].id == groupId
    ensures MarkJoined(MarkJoined(groups, groupId), groupId)[i].memberCount == groups[i].memberCount + 2
  {
  }

  /** The view-model; `currentUserId` is read from the account service once, at construction. */
  class JoinGroupViewModel {
    var state: JoinGroupUIState
    const currentUserId: string
    /** The backend writes made so far (the live subscription is not logged). */
    ghost var calls: seq<Call>
    /** Whether the live group list started by `LoadGroups` is still delivering. */
    ghost var collecting: bool

    /** Construction; the `init` block's `loadGroups()` is the separate step `LoadGroups`. */
    constructor (currentUserId: string)
      ensures state == DEFAULT_STATE && this.currentUserId == currentUserId && calls == []
      ensures !collecting
    {
      state := DEFAULT_STATE;
      this.currentUserId := currentUserId;
      calls := [];
      collecting := false;
    }

    /** The start of `loadGroups` (also what `refreshGroups` does): loading, no error. */
    method LoadGroups()
      modifies this
      ensures state == old(state).(isLoading := true, errorMessage := None)
      ensures calls == old(calls) && collecting
    {
      state := state.(isLoading := true, errorMessage := None);
      collecting := true;
    }

    /** One emission of the live group list: the displayed list is replaced, loading ends, and
        the error and the pending join are left alone. */
    method OnGroupsEmitted(groups: seq<Group>)
      requires collecting
      modifies this
      ensures state == old(state).(groups := ToGroupUIs(groups, currentUserId), isLoading := false)
      ensures calls == old(calls) && collecting
    {
      var groupUIs := ToGroupUIs(groups, currentUserId);
      state := state.(groups := groupUIs, isLoading := false);
    }

    /** The live list failed (the `catch` operator and the `catch` block do the same): loading
        ends with an error and the last list stays; nothing more is delivered until the next
        `LoadGroups`. */
    method OnLoadFailed(message: Option<string>)
      requires collecting
      modifies this
      ensures state == old(state).(isLoading := false, errorMessage := Some(LOAD_FAILED_PREFIX + Interpolate(message)))
      ensures calls == old(calls) && !collecting
    {
      state := state.(isLoading := false, errorMessage := Some(LOAD_FAILED_PREFIX + Interpolate(message)));
      collecting := false;
    }

    /** `joinGroup(groupId)` up to the backend call. */
    method JoinGroup(groupId: string)
      modifies this
      ensures state == old(state).(isJoiningGroup := Some(groupId), errorMessage := None)
      ensures calls == old(calls) + [JoinStudyGroup(groupId, currentUserId)]
      ensures collecting == old(collecting)
    {
      state := state.(isJoiningGroup := Some(groupId), errorMessage := None);
      calls := calls + [JoinStudyGroup(groupId, currentUserId)];
    }

    /** The end of `joinGroup(groupId)`, once `joinStudyGroup` has returned or thrown. */
    method CompleteJoinGroup(groupId: string, outcome: Outcome<()>)
      modifies this
      ensures outcome.Success? ==>
        state == old(state).(groups := MarkJoined(old(state).groups, groupId), isJoiningGroup := None)
      ensures outcome.Failure? ==>
        state == old(state).(isJoiningGroup := None, errorMessage := Some(JOIN_FAILED_PREFIX + Interpolate(outcome.message)))
      ensures calls == old(calls) && collecting == old(collecting)
    {
      match outcome
      case Success(_) =>
        var updatedGroups := MarkJoined(state.groups, groupId);
        state := state.(groups := updatedGroups, isJoiningGroup := None);
      case Failure(message) =>
        state := state.(isJoiningGroup := None, errorMessage := Some(JOIN_FAILED_PREFIX + Interpolate(message)));
    }
  }
}
