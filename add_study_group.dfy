/** The create-study-group screen: three field validators, the form state they annotate, and
    the view-model that validates the whole form, builds the group and submits it. */
module AddStudyGroup {
  import opened KotlinText
  import opened KotlinNumbers
  import opened GroupModel
  import opened Backend

  /** The form as the screen shows it; `*Error` are the per-field messages (null when valid). */
  datatype AddGroupUIState = AddGroupUIState(
    name: string,
    description: string,
    whatsAppLink: string,
    isLoading: bool,
    errorMessage: Option<string>,
    isGroupCreated: bool,
    nameError: Option<string>,
    descriptionError: Option<string>,
    linkError: Option<string>)

  /** `AddGroupUIState()`: every field at its default. */
  const DEFAULT_STATE: AddGroupUIState :=
    AddGroupUIState("", "", "", false, None, false, None, None, None)

  const NAME_EMPTY := "Name cannot be empty"
  const NAME_TOO_SHORT := "Name must be at least 3 characters long"
  const NAME_TOO_LONG := "Name must be less than 50 characters"
  const DESCRIPTION_EMPTY := "Description cannot be empty"
  const DESCRIPTION_TOO_SHORT := "Description must be at least 10 characters long"
  const DESCRIPTION_TOO_LONG := "Description must be less than 500 characters"
  const LINK_EMPTY := "Please provide a whatsapp link"
  const LINK_INVALID := "Input a valid link"
  const CREATE_FAILED_PREFIX := "Failed to create group: "

  /** A name is accepted exactly when it is not blank and has 3 to 50 characters; blankness is
      reported first, so a short blank name is "empty", not "too short". */
  function ValidateName(name: string): (r: Option<string>)
    ensures r == None <==> !IsBlank(name) && 3 <= |name| <= 50
    ensures IsBlank(name) ==> r == Some(NAME_EMPTY)
    ensures !IsBlank(name) && |name| < 3 ==> r == Some(NAME_TOO_SHORT)
    ensures !IsBlank(name) && |name| > 50 ==> r == Some(NAME_TOO_LONG)
  {
    if IsBlank(name) then Some(NAME_EMPTY)
    else if |name| < 3 then Some(NAME_TOO_SHORT)
    else if |name| > 50 then Some(NAME_TOO_LONG)
    else None
  }

  /** A description is accepted exactly when it is not blank and has 10 to 500 characters. */
  function ValidateDescription(description: string): (r: Option<string>)
    ensures r == None <==> !IsBlank(description) && 10 <= |description| <= 500
    ensures IsBlank(description) ==> r == Some(DESCRIPTION_EMPTY)
    ensures !IsBlank(description) && |description| < 10 ==> r == Some(DESCRIPTION_TOO_SHORT)
    ensures !IsBlank(description) && |description| > 500 ==> r == Some(DESCRIPTION_TOO_LONG)
  {
    if IsBlank(description) then Some(DESCRIPTION_EMPTY)
    else if |description| < 10 then Some(DESCRIPTION_TOO_SHORT)
    else if |description| > 500 then Some(DESCRIPTION_TOO_LONG)
    else None
  }

  /** A chat link is accepted exactly when it is not blank and has 40 to 100 characters; a
      link of the wrong length, short or long, gets one and the same message. */
  function ValidateWhatsAppLink(link: string): (r: Option<string>)
    ensures r == None <==> !IsBlank(link) && 40 <= |link| <= 100
    ensures IsBlank(link) ==> r == Some(LINK_EMPTY)
    ensures !IsBlank(link) && (|link| < 40 || |link| > 100) ==> r == Some(LINK_INVALID)
  {
    if IsBlank(link) then Some(LINK_EMPTY)
    else if |link| < 40 then Some(LINK_INVALID)
    else if |link| > 100 then Some(LINK_INVALID)
    else None
  }

  /** The validators report a message from their own fixed set, and the three sets are
      disjoint, so a message names the field it came from. */
  lemma ValidatorMessagesIdentifyTheirField(name: string, description: string, link: string)
    ensures ValidateName(name).Some? ==> ValidateName(name).value in {NAME_EMPTY, NAME_TOO_SHORT, NAME_TOO_LONG}
    ensures ValidateDescription(description).Some? ==>
      ValidateDescription(description).value in {DESCRIPTION_EMPTY, DESCRIPTION_TOO_SHORT, DESCRIPTION_TOO_LONG}
    ensures ValidateWhatsAppLink(link).Some? ==> ValidateWhatsAppLink(link).value in {LINK_EMPTY, LINK_INVALID}
    ensures {NAME_EMPTY, NAME_TOO_SHORT, NAME_TOO_LONG} !! {DESCRIPTION_EMPTY, DESCRIPTION_TOO_SHORT, DESCRIPTION_TOO_LONG}
    ensures {NAME_EMPTY, NAME_TOO_SHORT, NAME_TOO_LONG} !! {LINK_EMPTY, LINK_INVALID}
    ensures {DESCRIPTION_EMPTY, DESCRIPTION_TOO_SHORT, DESCRIPTION_TOO_LONG} !! {LINK_EMPTY, LINK_INVALID}
  {
    assert NAME_EMPTY[0] == 'N' && NAME_TOO_SHORT[0] == 'N' && NAME_TOO_LONG[0] == 'N';
    assert DESCRIPTION_EMPTY[0] == 'D' && DESCRIPTION_TOO_SHORT[0] == 'D' && DESCRIPTION_TOO_LONG[0] == 'D';
    assert LINK_EMPTY[0] == 'P' && LINK_INVALID[0] == 'I';
  }

  predicate FormIsValid(s: AddGroupUIState)
  {
    ValidateName(s.name) == None && ValidateDescription(s.description) == None
      && ValidateWhatsAppLink(s.whatsAppLink) == None
  }

  /** The group that a valid form is submitted as: fields trimmed, the creator as its only
      member; the id is left for the backend and `createdAt` is the clock reading. */
  function NewGroup(s: AddGroupUIState, currentUserId: string, createdAt: Int64): Group
  {
    Group(
      id := "",
      name := Trim(s.name),
      description := Trim(s.description),
      members := [currentUserId],
      createdBy := currentUserId,
      createdAt := createdAt,
      whatsAppLink := Trim(s.whatsAppLink))
  }

  /** A submitted group has the creator as its one member and as its creator, and its text
      fields are the form's fields without surrounding whitespace: non-empty, and no longer
      than the validators allowed. */
  lemma SubmittedGroupShape(s: AddGroupUIState, currentUserId: string, createdAt: Int64)
    requires FormIsValid(s)
    ensures NewGroup(s, currentUserId, createdAt).members == [currentUserId]
    ensures NewGroup(s, currentUserId, createdAt).createdBy == currentUserId
    ensures NewGroup(s, currentUserId, createdAt).createdBy in NewGroup(s, currentUserId, createdAt).members
    ensures NewGroup(s, currentUserId, createdAt).name == Trim(s.name)
    ensures NewGroup(s, currentUserId, createdAt).description == Trim(s.description)
    ensures NewGroup(s, currentUserId, createdAt).whatsAppLink == Trim(s.whatsAppLink)
    ensures 1 <= |NewGroup(s, currentUserId, createdAt).name| <= 50
    ensures 1 <= |NewGroup(s, currentUserId, createdAt).description| <= 500
    ensures 1 <= |NewGroup(s, currentUserId, createdAt).whatsAppLink| <= 100
    ensures Trim(NewGroup(s, currentUserId, createdAt).name) == NewGroup(s, currentUserId, createdAt).name
    ensures Trim(NewGroup(s, currentUserId, createdAt).description) == NewGroup(s, currentUserId, createdAt).description
    ensures Trim(NewGroup(s, currentUserId, createdAt).whatsAppLink) == NewGroup(s, currentUserId, createdAt).whatsAppLink
  {
    NewGroupFields(s, currentUserId, createdAt);
    NewGroupFieldLengths(s, currentUserId, createdAt);
    NewGroupFieldsTrimmed(s, currentUserId, createdAt);
  }

  /** Where each field of the new group comes from. */
  lemma NewGroupFields(s: AddGroupUIState, currentUserId: string, createdAt: Int64)
    ensures NewGroup(s, currentUserId, createdAt).members == [currentUserId]
    ensures NewGroup(s, currentUserId, createdAt).createdBy == currentUserId
    ensures NewGroup(s, currentUserId, createdAt).name == Trim(s.name)
    ensures NewGroup(s, currentUserId, createdAt).description == Trim(s.description)
    ensures NewGroup(s, currentUserId, createdAt).whatsAppLink == Trim(s.whatsAppLink)
  {
  }

  /** The text fields of the group a valid form is stored as are non-empty and no longer than
      the validators allow. */
  lemma NewGroupFieldLengths(s: AddGroupUIState, currentUserId: string, createdAt: Int64)
    requires FormIsValid(s)
    ensures 1 <= |NewGroup(s, currentUserId, createdAt).name| <= 50
    ensures 1 <= |NewGroup(s, currentUserId, createdAt).description| <= 500
    ensures 1 <= |NewGroup(s, currentUserId, createdAt).whatsAppLink| <= 100
  {
    assert 1 <= |Trim(s.name)| <= 50 by { StoredFieldLength(s.name, 50); }
    assert 1 <= |Trim(s.description)| <= 500 by { StoredFieldLength(s.description, 500); }
    assert 1 <= |Trim(s.whatsAppLink)| <= 100 by { StoredFieldLength(s.whatsAppLink, 100); }
  }

  /** The text fields of a new group are already trimmed. */
  lemma NewGroupFieldsTrimmed(s: AddGroupUIState, currentUserId: string, createdAt: Int64)
    ensures Trim(NewGroup(s, currentUserId, createdAt).name) == NewGroup(s, currentUserId, createdAt).name
    ensures Trim(NewGroup(s, currentUserId, createdAt).description) == NewGroup(s, currentUserId, createdAt).description
    ensures Trim(NewGroup(s, currentUserId, createdAt).whatsAppLink) == NewGroup(s, currentUserId, createdAt).whatsAppLink
  {
    TrimIdempotent(s.name);
    TrimIdempotent(s.description);
    TrimIdempotent(s.whatsAppLink);
  }

  /** One stored field: the trimmed text of a non-blank field is non-empty and no longer than
      the field. */
  lemma StoredFieldLength(field: string, maxLength: nat)
    requires !IsBlank(field) && |field| <= maxLength
    ensures 1 <= |Trim(field)| <= maxLength
  {
    TrimEmptyIffBlank(field);
  }

  /** The length rules are checked on the untrimmed text and the group is stored trimmed, so a
      name the validator accepts can be stored shorter than the validator's minimum. */
  lemma StoredNameCanBeShorterThanMinimum()
    ensures ValidateName("  ab") == None
    ensures ValidateName(Trim("  ab")) == Some(NAME_TOO_SHORT)
  {
    var s0, s1, s2 := "  ab", " ab", "ab";
    assert s0[1..] == s1 && s1[1..] == s2;
    assert IsWhitespace(s0[0]) && IsWhitespace(s1[0]);
    assert !IsWhitespace(s2[0]) && !IsWhitespace(s2[1]);
    assert TrimStartBy(s2, IsWhitespace) == s2;
    assert TrimStartBy(s1, IsWhitespace) == s2;
    assert TrimStartBy(s0, IsWhitespace) == s2;
    assert TrimEndBy(s2, IsWhitespace) == s2;
    assert !IsBlank(s0) by {
      assert s0[2] == s2[0];
    }
  }

  /** The view-model; `currentUserId` is read from the account service once, at construction. */
  class AddGroupViewModel {
    var state: AddGroupUIState
    const currentUserId: string
    /** The backend calls made so far. */
    ghost var calls: seq<Call>

    constructor (currentUserId: string)
      ensures state == DEFAULT_STATE && this.currentUserId == currentUserId && calls == []
    {
      state := DEFAULT_STATE;
      this.currentUserId := currentUserId;
      calls := [];
    }

    /** Sets the name and its message; nothing else changes. */
    method UpdateName(name: string)
      modifies this
      ensures state == old(state).(name := name, nameError := ValidateName(name))
      ensures calls == old(calls)
    {
      state := state.(name := name, nameError := ValidateName(name));
    }

    /** Sets the link and its message; nothing else changes. */
    method UpdateWhatsAppLink(link: string)
      modifies this
      ensures state == old(state).(whatsAppLink := link, linkError := ValidateWhatsAppLink(link))
      ensures calls == old(calls)
    {
      state := state.(whatsAppLink := link, linkError := ValidateWhatsAppLink(link));
    }

    /** Sets the description and its message; nothing else changes. */
    method UpdateDescription(description: string)
      modifies this
      ensures state == old(state).(description := description, descriptionError := ValidateDescription(description))
      ensures calls == old(calls)
    {
      state := state.(description := description, descriptionError := ValidateDescription(description));
    }

    /** `createGroup` up to the backend call. An invalid form gets all three field messages
        (null for the valid fields) and no call is made. A valid form enters the loading state
        and sends `NewGroup` of the form; the group sent is also returned, and the rest of
        the launched block is `CompleteCreateGroup`. */
    method CreateGroup(createdAt: Int64) returns (submitted: Option<Group>)
      modifies this
      ensures var s := old(state);
        var nameError := ValidateName(s.name);
        var descriptionError := ValidateDescription(s.description);
        var linkError := ValidateWhatsAppLink(s.whatsAppLink);
        if nameError.Some? || descriptionError.Some? || linkError.Some? then
          && submitted == None
          && state == s.(nameError := nameError, descriptionError := descriptionError, linkError := linkError)
          && calls == old(calls)
        else
          && submitted == Some(NewGroup(s, currentUserId, createdAt))
          && state == s.(isLoading := true, errorMessage := None)
          && calls == old(calls) + [CreateStudyGroup(submitted.value)]
    {
      var currentState := state;
      var nameError := ValidateName(currentState.name);
      var descriptionError := ValidateDescription(currentState.description);
      var linkError := ValidateWhatsAppLink(currentState.whatsAppLink);
      if nameError.Some? || descriptionError.Some? || linkError.Some? {
        state := state.(nameError := nameError, descriptionError := descriptionError, linkError := linkError);
        return None;
      }
      state := state.(isLoading := true, errorMessage := None);
      var group := NewGroup(currentState, currentUserId, createdAt);
      calls := calls + [CreateStudyGroup(group)];
      submitted := Some(group);
    }

    /** The end of the launched block, once `createStudyGroup` has returned or thrown. */
    method CompleteCreateGroup(outcome: Outcome<string>)
      modifies this
      ensures outcome.Success? ==> state == old(state).(isLoading := false, isGroupCreated := true)
      ensures outcome.Failure? ==>
        state == old(state).(isLoading := false, errorMessage := Some(CREATE_FAILED_PREFIX + Interpolate(outcome.message)))
      ensures calls == old(calls)
    {
      match outcome
      case Success(_) =>
        state := state.(isLoading := false, isGroupCreated := true);
      case Failure(message) =>
        state := state.(isLoading := false, errorMessage := Some(CREATE_FAILED_PREFIX + Interpolate(message)));
    }

    method ResetState()
      modifies this
      ensures state == DEFAULT_STATE
      ensures calls == old(calls)
    {
      state := DEFAULT_STATE;
    }
  }
}
