# EduSync view-model layer in Dafny

This repository models the logic of EduSync, a student app for tasks, calendar events, study
groups and shared documents. The app is a thin client over a hosted backend. What it decides for
itself, and what is modelled here, is:

- the form validators of the create-study-group screen;
- how each screen's view-model rewrites its UI state in response to user actions and backend
  results: create group, join group, add task, the home screen's combined live lists, and
  sign-up and login;
- the pure helper rules on the `Document` and `Event` records: access control, the file-size
  label, versioning, recency, and the event time predicates;
- the `removeCurlyBrackets` id helper of the storage service.

Layout: one module per source file, plus six support modules.

- `KotlinText` holds nullable values, `isBlank`, `trim`, and the `"${x}"` and `?:` forms.
- `KotlinNumbers` holds the Int/Long ranges, truncating division and `Long.toString`.
- `Time` holds the backend `Timestamp`.
- `Backend` holds the log of backend calls and call outcomes.
- `Routes` and `AuthValidation` hold the route names and the validator result shape.

Each view-model is a `class` with a `state` field that its methods replace, as the Kotlin
`_uiState.update { it.copy(...) }` does. A launched block that updates the state before its
backend request becomes two methods. The first runs up to the request and appends it to the
ghost `calls` log. The second takes the request's `Outcome` as a parameter: its return value,
or the message of the exception it threw. The home screen's three fire-and-forget writes change
the state only after their request, so each is one method that logs the request and takes its
`Outcome`. The `calls` log records the requests a view-model sends: writes, and the account calls
of sign-up and login. The live subscriptions (the group list, and the home screen's tasks,
events and documents) are not logged. They arrive as emission methods instead. So a method that
leaves `calls` unchanged sends no request, though it may belong to a running subscription.
Clock readings (`Timestamp.now()`, `System.currentTimeMillis()`) are parameters.

Some properties that the proofs bring out:

- A name such as `"  ab"` passes `validateName`, but the group is stored with its name trimmed to
  `"ab"`, which is shorter than the 3-character minimum. The validators check the untrimmed text
  (`StoredNameCanBeShorterThanMinimum`).
- The optimistic join update adds one to `memberCount` on every successful join, without
  checking membership (`MarkJoinedTwiceCountsTwice`). The screen disables the button for groups
  the user is shown as belonging to.
- The join is written to a `memberIds` array, but `Group` and the group list read `members`,
  which no join ever changes. So the next emission of the live list shows the group as not
  joined again, with the old count, and the button is enabled once more
  (`WrittenJoinIsUndone`; see "## Findings").
- A `SHARED` document that lists any group is open to every user (`SharedWithAnyGroupIsOpenToAll`).
- After a failed sign-up or login the screen stays in the loading state. The failure goes to the
  generic crash handler and no state update follows.

## Model

| member | source | states |
|---|---|---|
| `KotlinText.TrimStartBy` | app/src/main/java/com/example/edusync/ui/screens/add_study_group/AddStudyGroupViewModel.kt:106-110 | `trimStart(p)` returns a suffix of the input that does not start with a `p`-character |
| `KotlinText.TrimStartByDrops` | app/src/main/java/com/example/edusync/ui/screens/add_study_group/AddStudyGroupViewModel.kt:106-110 | every character `trimStart(p)` drops satisfies `p` |
| `KotlinText.TrimEndBy` | app/src/main/java/com/example/edusync/ui/screens/add_study_group/AddStudyGroupViewModel.kt:106-110 | `trimEnd(p)` returns a prefix of the input that does not end with a `p`-character |
| `KotlinText.TrimEndByDrops` | app/src/main/java/com/example/edusync/ui/screens/add_study_group/AddStudyGroupViewModel.kt:106-110 | every character `trimEnd(p)` drops satisfies `p` |
| `KotlinText.TrimBySlice` | app/src/main/java/com/example/edusync/ui/screens/add_study_group/AddStudyGroupViewModel.kt:106-110 | `trim(p)` returns the characters that follow the leading run of `p`-characters, in order |
| `KotlinText.TrimByDropsTrailing` | app/src/main/java/com/example/edusync/ui/screens/add_study_group/AddStudyGroupViewModel.kt:106-110 | everything after the part `trim(p)` keeps satisfies `p` |
| `KotlinText.TrimByIsInnerSlice` | app/src/main/java/com/example/edusync/ui/screens/add_study_group/AddStudyGroupViewModel.kt:106-110 | `trim(p)` returns the contiguous slice between the leading and the trailing run of `p`-characters, and that slice has no `p`-character at either end |
| `KotlinText.TrimByIdempotent` | app/src/main/java/com/example/edusync/ui/screens/add_study_group/AddStudyGroupViewModel.kt:106-110 | trimming twice with the same predicate is the same as trimming once |
| `KotlinText.TrimIsInnerSlice` | app/src/main/java/com/example/edusync/ui/screens/add_study_group/AddStudyGroupViewModel.kt:106-110 | `trim()` (that is, `trim(Char::isWhitespace)`) returns the slice between the leading and the trailing whitespace, with no whitespace at either end |
| `KotlinText.TrimEmptyIffBlank` | app/src/main/java/com/example/edusync/ui/screens/add_study_group/AddStudyGroupViewModel.kt:57 | `trim` gives the empty string exactly when the input is blank |
| `KotlinText.TrimIdempotent` | app/src/main/java/com/example/edusync/ui/screens/add_study_group/AddStudyGroupViewModel.kt:106-110 | trimming twice is the same as trimming once |
| `KotlinNumbers.TruncDiv` | app/src/main/java/com/example/edusync/model/Event.kt:94 | Kotlin's integer `/` rounds toward zero: the remainder has the sign of the dividend and is smaller than the divisor |
| `KotlinNumbers.TruncDivUnique` | app/src/main/java/com/example/edusync/model/Document.kt:107-109 | for a non-negative dividend, any n with n·b ≤ a < (n + 1)·b is the truncated quotient |
| `KotlinNumbers.TruncDivNegate` | app/src/main/java/com/example/edusync/model/Event.kt:94 | truncating division commutes with negation |
| `KotlinNumbers.NatToDecimal` | app/src/main/java/com/example/edusync/model/Document.kt:106-109 | the decimal text of a number is non-empty, all digits, and has no leading zero |
| `KotlinNumbers.DecimalRoundTrip` | app/src/main/java/com/example/edusync/model/Document.kt:106-109 | reading the digits back gives the number |
| `KotlinNumbers.NatToDecimalInjective` | app/src/main/java/com/example/edusync/model/Document.kt:106-109 | distinct numbers print differently |
| `KotlinNumbers.LongToStringSign` | app/src/main/java/com/example/edusync/model/Document.kt:106 | the text of a Long is non-empty and starts with `-` exactly when the Long is negative |
| `KotlinNumbers.NegativeLongToStringInjective` | app/src/main/java/com/example/edusync/model/Document.kt:106 | two negative Longs with the same text are equal |
| `KotlinNumbers.LongToStringInjective` | app/src/main/java/com/example/edusync/model/Document.kt:106-109 | `Long.toString` with its sign loses no information |
| `KotlinNumbers.LongToStringWithSuffixInjective` | app/src/main/java/com/example/edusync/model/Document.kt:106-109 | a Long printed in front of a fixed unit suffix can be read back: equal labels mean equal numbers |
| `DocumentModel.AccessRule` | app/src/main/java/com/example/edusync/model/Document.kt:90-102 | the owner can always access the document and a PUBLIC document is open to all; for a non-owner, a SHARED document is open iff the user is listed or any group is listed, and a PRIVATE one is never open |
| `DocumentModel.AccessMonotoneInVisibility` | app/src/main/java/com/example/edusync/model/Document.kt:92-102 | widening the visibility from PRIVATE to SHARED to PUBLIC never removes access |
| `DocumentModel.SharedWithAnyGroupIsOpenToAll` | app/src/main/java/com/example/edusync/model/Document.kt:96-99 | no group membership is checked: one listed group opens a SHARED document to everyone |
| `DocumentModel.FormattedFileSizeScale` | app/src/main/java/com/example/edusync/model/Document.kt:104-111 | the size divided by KiB or MiB in that unit's range, rounded down, lies in 1..1023, and divided by GiB it is at least 1; the size lies between that many units and one unit more |
| `DocumentModel.ShowsFlooredQuotient` | app/src/main/java/com/example/edusync/model/Document.kt:104-111 | below 1024 the label is the size followed by " B"; otherwise it is n followed by " KB", " MB" or " GB" for the unit whose range holds the size, where n is the number with n units ≤ size < n + 1 units, and n lies in 1..1023 for KB and MB and is at least 1 for GB |
| `DocumentModel.SameLabelSameRounding` | app/src/main/java/com/example/edusync/model/Document.kt:104-111 | two sizes with the same label lie in the same unit's range and round to the same number of that unit; below 1024 bytes they are equal |
| `DocumentModel.FormattedFileSizeUnitDeterminesRange` | app/src/main/java/com/example/edusync/model/Document.kt:104-111 | the suffix KB, MB or GB appears exactly for sizes in that unit's range |
| `DocumentModel.DefaultsUnversioned` | app/src/main/java/com/example/edusync/model/Document.kt:34-45 | a document with the default version 1 (or a lower one), no previous versions and no comments is neither versioned nor commented |
| `DocumentModel.NewVersionIsVersioned` | app/src/main/java/com/example/edusync/model/Document.kt:113 | recording a previous version, or raising the version above 1, makes a document versioned, and raising the version never undoes it |
| `DocumentModel.NewCommentIsCommented` | app/src/main/java/com/example/edusync/model/Document.kt:115 | adding a comment makes `hasComments` hold and leaves `isVersioned` as it was |
| `DocumentModel.VersionedMonotone` | app/src/main/java/com/example/edusync/model/Document.kt:113 | a document with at least the version and at least as long a history as a versioned one is versioned |
| `DocumentModel.UploadDifferenceFitsInLong` | app/src/main/java/com/example/edusync/model/Document.kt:124 | the Long subtraction of two timestamps' seconds cannot overflow |
| `DocumentModel.IsRecentMeaning` | app/src/main/java/com/example/edusync/model/Document.kt:122-126 | for a past upload, recent iff fewer than `daysThreshold + 1` whole days have passed; an upload dated in the future is recent for any non-negative threshold |
| `EventModel.InvertedEventNeverHappening` | app/src/main/java/com/example/edusync/model/Event.kt:82-85 | an event whose start is after its end is never happening |
| `EventModel.HappeningAndOverdueExclusive` | app/src/main/java/com/example/edusync/model/Event.kt:82-90 | happening and overdue are never both true, and for a well-ordered event one of them holds at or after the start |
| `EventModel.TimePredicatesIgnoreNanoseconds` | app/src/main/java/com/example/edusync/model/Event.kt:82-102 | only whole seconds of `now` matter |
| `EventModel.DurationMinutesMeaning` | app/src/main/java/com/example/edusync/model/Event.kt:93-95 | the minute count truncates the seconds span toward zero, is non-negative when start ≤ end, and is negated when start and end are swapped |
| `EventModel.ReminderOnlyBeforeStart` | app/src/main/java/com/example/edusync/model/Event.kt:98-102 | no reminder time means no reminder; a due reminder means reminder ≤ now < start, so the event is neither happening nor (if well-ordered) overdue |
| `StorageIds.RemoveCurlyBrackets` | app/src/main/java/com/example/edusync/model/service/impl/StorageServiceImpl.kt:211-213 | the result is the slice of the id after a leading `{` (if any) and before a trailing `}` (if one is left after that), at most two characters shorter; an id with neither brace is unchanged |
| `StorageIds.UnwrapWrapped` | app/src/main/java/com/example/edusync/model/service/impl/StorageServiceImpl.kt:212 | `"{" + x + "}"` maps back to `x` for every x |
| `StorageIds.KeepsUnmatchedEnd` | app/src/main/java/com/example/edusync/model/service/impl/StorageServiceImpl.kt:212 | an id with only an opening brace, or only a closing one, loses only that brace: "{abc" and "abc}" both become "abc" |
| `StorageIds.StripsOneBraceEachEnd` | app/src/main/java/com/example/edusync/model/service/impl/StorageServiceImpl.kt:212 | only one brace is removed at each end: "{{a}}" becomes "{a}" |
| `AddStudyGroup.ValidateName` | app/src/main/java/com/example/edusync/ui/screens/add_study_group/AddStudyGroupViewModel.kt:55-62 | null iff non-blank and 3 ≤ length ≤ 50; blankness is reported before length |
| `AddStudyGroup.ValidateDescription` | app/src/main/java/com/example/edusync/ui/screens/add_study_group/AddStudyGroupViewModel.kt:64-71 | null iff non-blank and 10 ≤ length ≤ 500, with separate messages for blank, too short and too long |
| `AddStudyGroup.ValidateWhatsAppLink` | app/src/main/java/com/example/edusync/ui/screens/add_study_group/AddStudyGroupViewModel.kt:73-80 | null iff non-blank and 40 ≤ length ≤ 100; too short and too long give the same message |
| `AddStudyGroup.ValidatorMessagesIdentifyTheirField` | app/src/main/java/com/example/edusync/ui/screens/add_study_group/AddStudyGroupViewModel.kt:55-80 | each validator's messages come from its own set, and the three sets are disjoint |
| `AddStudyGroup.SubmittedGroupShape` | app/src/main/java/com/example/edusync/ui/screens/add_study_group/AddStudyGroupViewModel.kt:105-111 | a valid form is stored with members = [creator] and createdBy = creator, and with the trimmed name, description and link, which are non-empty, within the maximum lengths (50, 500, 100) and already trimmed |
| `AddStudyGroup.StoredNameCanBeShorterThanMinimum` | app/src/main/java/com/example/edusync/ui/screens/add_study_group/AddStudyGroupViewModel.kt:86-106 | validation reads the untrimmed name and storage gets the trimmed one, so "  ab" passes and is stored as a 2-character name |
| `AddStudyGroup.AddGroupViewModel.constructor` | app/src/main/java/com/example/edusync/ui/screens/add_study_group/AddStudyGroupViewModel.kt:22-25 | the view-model starts with the all-default form and no backend calls |
| `AddStudyGroup.AddGroupViewModel.UpdateName` | app/src/main/java/com/example/edusync/ui/screens/add_study_group/AddStudyGroupViewModel.kt:27-34 | only the name and its message change, and the message is the validator's result |
| `AddStudyGroup.AddGroupViewModel.UpdateWhatsAppLink` | app/src/main/java/com/example/edusync/ui/screens/add_study_group/AddStudyGroupViewModel.kt:36-44 | only the link and its message change |
| `AddStudyGroup.AddGroupViewModel.UpdateDescription` | app/src/main/java/com/example/edusync/ui/screens/add_study_group/AddStudyGroupViewModel.kt:46-53 | only the description and its message change |
| `AddStudyGroup.AddGroupViewModel.CreateGroup` | app/src/main/java/com/example/edusync/ui/screens/add_study_group/AddStudyGroupViewModel.kt:82-113 | if any field is invalid, all three messages are written and nothing else changes, with no backend call; otherwise isLoading becomes true, the error is cleared, and exactly the trimmed group is sent |
| `AddStudyGroup.AddGroupViewModel.CompleteCreateGroup` | app/src/main/java/com/example/edusync/ui/screens/add_study_group/AddStudyGroupViewModel.kt:114-122 | success: loading ends and isGroupCreated is set; failure: loading ends with "Failed to create group: " + the message, and isGroupCreated is unchanged |
| `AddStudyGroup.AddGroupViewModel.ResetState` | app/src/main/java/com/example/edusync/ui/screens/add_study_group/AddStudyGroupViewModel.kt:126-128 | the form returns to all defaults |
| `StudyGroups.ToGroupUI` | app/src/main/java/com/example/edusync/ui/screens/study_groups/GroupViewModel.kt:48-56 | id, name, description and link are copied; memberCount = number of members; isCurrentUserMember iff the user is among the members |
| `StudyGroups.ToGroupUIs` | app/src/main/java/com/example/edusync/ui/screens/study_groups/GroupViewModel.kt:47-56 | one display record per group, same length and order |
| `StudyGroups.MarkJoined` | app/src/main/java/com/example/edusync/ui/screens/study_groups/GroupViewModel.kt:84-94 | same length and order; each record with the joined id gets one more member and the membership flag, and every other record is identical |
| `StudyGroups.MarkJoinedUnlisted` | app/src/main/java/com/example/edusync/ui/screens/study_groups/GroupViewModel.kt:84-94 | joining an id that is not listed leaves the list as it was |
| `StudyGroups.WrittenJoinIsUndone` | app/src/main/java/com/example/edusync/model/service/impl/StorageServiceImpl.kt:141-146 | as written, the join updates `memberIds`, which the group list does not read: for a user who was not a member, the next snapshot shows the group with one member fewer than the optimistic record and without the user |
| `StudyGroups.JoinedAgreesWithServerAfterAppend` | app/src/main/java/com/example/edusync/ui/screens/study_groups/GroupViewModel.kt:52-53 | with the join written to `members` as a set union, the optimistic record equals the next snapshot's for a user who was not a member; for a member the snapshot is unchanged while the optimistic count still rises by one |
| `StudyGroups.MarkJoinedTwiceCountsTwice` | app/src/main/java/com/example/edusync/ui/screens/study_groups/GroupViewModel.kt:83-97 | the local update does not check membership: two joins add two |
| `StudyGroups.JoinGroupViewModel.constructor` | app/src/main/java/com/example/edusync/ui/screens/study_groups/GroupViewModel.kt:22-25 | the view-model starts with the default state and no backend calls |
| `StudyGroups.JoinGroupViewModel.LoadGroups` | app/src/main/java/com/example/edusync/ui/screens/study_groups/GroupViewModel.kt:31-33 | loading starts with isLoading = true and no error, the list is kept, and the live list starts delivering |
| `StudyGroups.JoinGroupViewModel.OnGroupsEmitted` | app/src/main/java/com/example/edusync/ui/screens/study_groups/GroupViewModel.kt:46-63 | an emission while the list is delivering replaces the list with the mapped groups and ends loading; the error and the pending join are untouched |
| `StudyGroups.JoinGroupViewModel.OnLoadFailed` | app/src/main/java/com/example/edusync/ui/screens/study_groups/GroupViewModel.kt:38-45 | a failure of the delivering list ends loading with "Failed to load groups: " + the message, keeps the list, and stops delivery |
| `StudyGroups.JoinGroupViewModel.JoinGroup` | app/src/main/java/com/example/edusync/ui/screens/study_groups/GroupViewModel.kt:75-80 | the pending join is set to the group id, the error is cleared, and the join call is made for the current user |
| `StudyGroups.JoinGroupViewModel.CompleteJoinGroup` | app/src/main/java/com/example/edusync/ui/screens/study_groups/GroupViewModel.kt:83-106 | success: the list gets the optimistic update and the pending join is cleared; failure: the list is unchanged, the pending join is cleared, and the error is "Failed to join group: " + the message |
| `AddTask.FailureMessage` | app/src/main/java/com/example/edusync/ui/screens/add_task/AddTaskViewModel.kt:67-73 | the exception's message, or "Failed to add task" when it has none |
| `AddTask.AddTaskViewModel.constructor` | app/src/main/java/com/example/edusync/ui/screens/add_task/AddTaskViewModel.kt:23 | the view-model starts with the default draft and no backend calls |
| `AddTask.AddTaskViewModel.UpdateTitle` | app/src/main/java/com/example/edusync/ui/screens/add_task/AddTaskViewModel.kt:26-28 | only the title changes |
| `AddTask.AddTaskViewModel.UpdateDescription` | app/src/main/java/com/example/edusync/ui/screens/add_task/AddTaskViewModel.kt:30-32 | only the description changes |
| `AddTask.AddTaskViewModel.UpdatePriority` | app/src/main/java/com/example/edusync/ui/screens/add_task/AddTaskViewModel.kt:34-36 | only the priority changes |
| `AddTask.AddTaskViewModel.UpdateCategory` | app/src/main/java/com/example/edusync/ui/screens/add_task/AddTaskViewModel.kt:38-40 | only the category changes |
| `AddTask.AddTaskViewModel.UpdateDueDate` | app/src/main/java/com/example/edusync/ui/screens/add_task/AddTaskViewModel.kt:42-44 | only the due date changes |
| `AddTask.AddTaskViewModel.AddTask` | app/src/main/java/com/example/edusync/ui/screens/add_task/AddTaskViewModel.kt:46-65 | a blank title ends with isLoading = false, "Title cannot be empty", isTaskAdded unchanged and no backend call; otherwise loading starts and a task with the draft's fields and the current user's id is sent |
| `AddTask.AddTaskViewModel.CompleteAddTask` | app/src/main/java/com/example/edusync/ui/screens/add_task/AddTaskViewModel.kt:66-74 | success: loading ends and isTaskAdded is set; failure: loading ends with the exception message or "Failed to add task" |
| `AddTask.AddTaskViewModel.ResetState` | app/src/main/java/com/example/edusync/ui/screens/add_task/AddTaskViewModel.kt:78-80 | the draft returns to all defaults |
| `Home.Take` | app/src/main/java/com/example/edusync/ui/screens/home/HomeViewModel.kt:46 | `take(n)` is the prefix of length min(n, size) |
| `Home.ApplyEmission` | app/src/main/java/com/example/edusync/ui/screens/home/HomeViewModel.kt:41-49 | tasks and events are shown verbatim, recentDocuments is the first min(5, number of documents) documents in order, and loading and error are cleared |
| `Home.ApplyEmissionForgetsState` | app/src/main/java/com/example/edusync/ui/screens/home/HomeViewModel.kt:41-49 | an emission overwrites every field, so its result does not depend on the state before it |
| `Home.ReplayDependsOnLatestOnly` | app/src/main/java/com/example/edusync/ui/screens/home/HomeViewModel.kt:36-49 | after any non-empty run of emissions, the state is the one built from the latest triple alone |
| `Home.HomeViewModel.constructor` | app/src/main/java/com/example/edusync/ui/screens/home/HomeViewModel.kt:24-29 | starts loading with empty lists and no error; the live subscription is active |
| `Home.HomeViewModel.OnEmission` | app/src/main/java/com/example/edusync/ui/screens/home/HomeViewModel.kt:38-49 | an emission while subscribed applies the `combine` body |
| `Home.HomeViewModel.OnLoadFailed` | app/src/main/java/com/example/edusync/ui/screens/home/HomeViewModel.kt:51-58 | a failure of the running subscription ends loading with the exception's message as the error, keeps the lists, and stops delivery |
| `Home.HomeViewModel.AddTask` | app/src/main/java/com/example/edusync/ui/screens/home/HomeViewModel.kt:62-70 | the write is made; a failure changes only the error |
| `Home.HomeViewModel.JoinStudyGroup` | app/src/main/java/com/example/edusync/ui/screens/home/HomeViewModel.kt:72-80 | the join is made for the current user; a failure changes only the error |
| `Home.HomeViewModel.UploadDocument` | app/src/main/java/com/example/edusync/ui/screens/home/HomeViewModel.kt:82-90 | the upload is made; a failure changes only the error |
| `Home.HomeViewModel.ClearError` | app/src/main/java/com/example/edusync/ui/screens/home/HomeViewModel.kt:92-94 | the error is cleared and nothing else changes |
| `SignUp.SignUpCheck` | app/src/main/java/com/example/edusync/ui/screens/auth/sign_up/SignUpViewModel.kt:57-77 | passes iff all three validators succeed and the passwords match; otherwise the first failing check's message (name, then email, then password, then "Passwords don't match") |
| `SignUp.EarlierCheckWins` | app/src/main/java/com/example/edusync/ui/screens/auth/sign_up/SignUpViewModel.kt:57-71 | a failing name decides the outcome whatever the later fields hold, and so does a failing email |
| `SignUp.SignUpViewModel.constructor` | app/src/main/java/com/example/edusync/ui/screens/auth/sign_up/SignUpViewModel.kt:28-32 | the view-model holds the given validators, the default form and no backend calls |
| `SignUp.SignUpViewModel.OnNameChange` | app/src/main/java/com/example/edusync/ui/screens/auth/sign_up/SignUpViewModel.kt:34-36 | sets the name and clears the error; nothing else changes |
| `SignUp.SignUpViewModel.OnEmailChange` | app/src/main/java/com/example/edusync/ui/screens/auth/sign_up/SignUpViewModel.kt:38-40 | sets the email and clears the error |
| `SignUp.SignUpViewModel.OnPasswordChange` | app/src/main/java/com/example/edusync/ui/screens/auth/sign_up/SignUpViewModel.kt:42-44 | sets the password and clears the error |
| `SignUp.SignUpViewModel.OnConfirmPasswordChange` | app/src/main/java/com/example/edusync/ui/screens/auth/sign_up/SignUpViewModel.kt:46-48 | sets the confirmation and clears the error |
| `SignUp.SignUpViewModel.OnSignUpClick` | app/src/main/java/com/example/edusync/ui/screens/auth/sign_up/SignUpViewModel.kt:50-82 | a failed check sets only the error and makes no call, with isLoading unchanged; otherwise loading starts and `signUp` gets the form's email and password |
| `SignUp.SignUpViewModel.CompleteSignUp` | app/src/main/java/com/example/edusync/ui/screens/auth/sign_up/SignUpViewModel.kt:82-87 | the profile is created with (email, name, the uid `signUp` returned); on success loading ends, the error is cleared and navigation goes to (HOME_SCREEN, SIGNUP_SCREEN); on failure the state is left alone |
| `Login.SignInCheck` | app/src/main/java/com/example/edusync/ui/screens/auth/login/LoginViewModel.kt:37-47 | passes iff the email validator succeeds and the password is not blank; the email is checked first |
| `Login.BlankPasswordRejected` | app/src/main/java/com/example/edusync/ui/screens/auth/login/LoginViewModel.kt:44-47 | every blank password is rejected, whatever the e-mail result: empty, or any mix of spaces, tabs, line breaks and the other Kotlin whitespace |
| `Login.LoginViewModel.constructor` | app/src/main/java/com/example/edusync/ui/screens/auth/login/LoginViewModel.kt:23-26 | the view-model holds the given validator, the default form and no backend calls |
| `Login.LoginViewModel.OnEmailChange` | app/src/main/java/com/example/edusync/ui/screens/auth/login/LoginViewModel.kt:28-30 | sets the email and clears the error |
| `Login.LoginViewModel.OnPasswordChange` | app/src/main/java/com/example/edusync/ui/screens/auth/login/LoginViewModel.kt:32-34 | sets the password and clears the error |
| `Login.LoginViewModel.OnSignInClick` | app/src/main/java/com/example/edusync/ui/screens/auth/login/LoginViewModel.kt:36-51 | a failed check sets only the error and makes no call; otherwise loading starts and `authenticate` gets the form's email and password |
| `Login.LoginViewModel.CompleteSignIn` | app/src/main/java/com/example/edusync/ui/screens/auth/login/LoginViewModel.kt:51-54 | success: loading ends, the error is cleared and navigation goes to (HOME_SCREEN, LOGIN_SCREEN); failure: the state is left alone |

## Findings

| source | as written | input that shows it | evidently intended | confidence | as-written member | corrected member |
|---|---|---|---|---|---|---|
| app/src/main/java/com/example/edusync/model/service/impl/StorageServiceImpl.kt:141-146 | `joinStudyGroup` adds the user id to a `memberIds` array, but `Group` (Group.kt:9), `createStudyGroup` (AddStudyGroupViewModel.kt:108) and the group list (GroupViewModel.kt:52-53) all use `members` | a group with `members = ["a"]`, joined by user "b": the screen shows 2 members and "joined", and the next snapshot shows 1 member and "not joined" | `arrayUnion(userId)` on `members`, so that the snapshot agrees with the optimistic update | medium, not executed | `StudyGroups.WrittenJoin`, `StudyGroups.WrittenJoinIsUndone` | `StudyGroups.MemberJoin`, `StudyGroups.JoinedAgreesWithServerAfterAppend` |

## Left out

- Screens, layout and navigation wiring are presentation. That covers the button-enable rules,
  the bottom-bar rule and the link offsets. Navigation appears only as the `(route, popUp)` pair
  that a handler requests.
- Every Firestore query, write and live subscription in the storage service is backend I/O.
  Only the calls' arguments are logged. What a call returns arrives as an `Outcome` parameter.
  The set-union behaviour of `arrayUnion` belongs to the backend; only the corrected join
  `StudyGroups.MemberJoin` restates it, for the finding above. The `memberIds` filter of
  `getStudyGroups` (StorageServiceImpl.kt:121-123) is such a query and is not modelled either.
- Coroutines, `combine`/`collect` scheduling and cancellation are left out. Each launched block
  is a sequence of steps, and emissions arrive one at a time as method calls. The home screen's
  `combine` fires only once every source has emitted; the model receives the latest triple
  directly.
- The crash reporter and the snackbar behind `launchCatching` are left out. The model keeps only
  their effect on state, which is none.
- `ValidateEmail`, `ValidateName` and `ValidatePassword` are not part of this model. The
  view-models receive them as opaque functions. `SignUpUiState` and `LoginUiState` are not part of
  this model either; their fields are inferred from how the view-models use them.
- Date formatting (`getLocalStartTime`, `getLocalEndTime`, `getUploadDateFormatted`) is a
  java.time/Calendar library call. The splash screen, dependency injection and the data
  classes without logic are also left out.
- String lengths count characters. Kotlin counts UTF-16 code units, so the two differ for
  characters outside the Basic Multilingual Plane.
- Home.HomeViewModel.OnEmission, Home.HomeViewModel.OnLoadFailed and the emission and failure
  methods of `StudyGroups.JoinGroupViewModel`: the `requires collecting` says that a failed
  subscription delivers nothing more. The source gets this from the coroutine ending.
- StudyGroups.JoinGroupViewModel.LoadGroups: `refreshGroups` launches a second collector while
  the first may still run. The model keeps one `collecting` flag, so it does not capture two
  interleaved live lists.
- StudyGroups.Joined: `memberCount` is an unbounded integer, so the wrap-around of Kotlin's
  `Int` in `memberCount + 1` at 2^31 - 1 is not modelled. A group would need that many members
  first.
