/** The calendar-event record and its time predicates. Every predicate compares whole seconds
    only, and the clock reading is passed in as `now`. */
module EventModel {
  import opened KotlinNumbers
  import opened KotlinText
  import opened Time

  datatype EventType = LECTURE | STUDY_GROUP | EXAM | ASSIGNMENT_DUE | WORKSHOP | MEETING | OFFICE_HOURS | OTHER
  datatype EventPriority = HIGH | MEDIUM | LOW
  datatype EventStatus = UPCOMING | IN_PROGRESS | COMPLETED | CANCELLED

  datatype Event = Event(
    id: string,
    title: string,
    description: string,
    startTime: Timestamp,
    endTime: Timestamp,
    reminderTime: Option<Timestamp>,
    eventType: EventType,
    priority: EventPriority,
    location: string,
    isOnline: bool,
    meetingLink: string,
    courseId: string,
    studyGroupId: string,
    userId: string,
    participants: seq<string>,
    status: EventStatus,
    createdAt: Timestamp,
    updatedAt: Timestamp)

  /** `now.seconds in startTime.seconds..endTime.seconds`: both ends included. */
  predicate IsHappeningNow(e: Event, now: Timestamp)
  {
    e.startTime.seconds <= now.seconds <= e.endTime.seconds
  }

  predicate IsOverdue(e: Event, now: Timestamp)
  {
    now.seconds > e.endTime.seconds
  }

  /** The length of the event in whole minutes, truncated toward zero (negative if the event
      ends before it starts, which nothing prevents). */
  function DurationMinutes(e: Event): Int64
  {
    TruncDiv(e.endTime.seconds - e.startTime.seconds, 60)
  }

  /** A reminder is due from the reminder time until, but not including, the start. */
  predicate ShouldSendReminder(e: Event, now: Timestamp)
  {
    match e.reminderTime
    case None => false
    case Some(reminder) => now.seconds >= reminder.seconds && now.seconds < e.startTime.seconds
  }

  /** An event whose end precedes its start is never happening. */
  lemma InvertedEventNeverHappening(e: Event, now: Timestamp)
    requires e.startTime.seconds > e.endTime.seconds
    ensures !IsHappeningNow(e, now)
  {
  }

  /** At any moment an event is at most one of: happening, overdue; and before its start it is
      neither. */
  lemma HappeningAndOverdueExclusive(e: Event, now: Timestamp)
    ensures !(IsHappeningNow(e, now) && IsOverdue(e, now))
    ensures e.startTime.seconds <= e.endTime.seconds && now.seconds >= e.startTime.seconds ==>
      (IsHappeningNow(e, now) || IsOverdue(e, now))
  {
  }

  /** The predicates look at whole seconds only: changing the nanosecond parts changes nothing. */
  lemma TimePredicatesIgnoreNanoseconds(e: Event, now: Timestamp, nanos: Nanos)
    ensures IsHappeningNow(e, now) == IsHappeningNow(e, now.(nanoseconds := nanos))
    ensures IsOverdue(e, now) == IsOverdue(e, now.(nanoseconds := nanos))
    ensures ShouldSendReminder(e, now) == ShouldSendReminder(e, now.(nanoseconds := nanos))
  {
  }

  /** The minute count: never negative for a well-ordered event, at most the seconds span, and
      exact to within one minute. Swapping start and end negates it (the division truncates). */
  lemma DurationMinutesMeaning(e: Event)
    ensures var span, m := e.endTime.seconds - e.startTime.seconds, DurationMinutes(e);
      && (span >= 0 ==> 0 <= m && m * 60 <= span < m * 60 + 60)
      && (span < 0 ==> m <= 0 && m * 60 - 60 < span <= m * 60)
    ensures DurationMinutes(e.(startTime := e.endTime, endTime := e.startTime)) == -DurationMinutes(e)
  {
    var span := e.endTime.seconds - e.startTime.seconds;
    assert e.startTime.seconds - e.endTime.seconds == -span;
    TruncDivNegate(span, 60);
  }

  /** Without a reminder time no reminder is due; with one, a due reminder means the event has
      not started yet, so it is neither happening nor overdue. */
  lemma ReminderOnlyBeforeStart(e: Event, now: Timestamp)
    ensures e.reminderTime.None? ==> !ShouldSendReminder(e, now)
    ensures ShouldSendReminder(e, now) ==>
      e.reminderTime.value.seconds <= now.seconds < e.startTime.seconds
    ensures ShouldSendReminder(e, now) ==> !IsHappeningNow(e, now)
    ensures ShouldSendReminder(e, now) && e.startTime.seconds <= e.endTime.seconds ==> !IsOverdue(e, now)
  {
  }
}
