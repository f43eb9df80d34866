/**
 * The Assessment record of the recruiting platform: its persisted fields, the
 * normalisation that runs before every save, and the read-only time predicates.
 *
 * Timestamps are whole seconds. The current time is always a parameter.
 */
module Models {
  import opened Wrappers

  /** The invitation window, 7 days, and the working window, 24 hours, in seconds. */
  const InviteWindow: int := 604800
  const WorkWindow: int := 86400

  datatype Status =
    | Draft | Sent | Accepted | Started | Finished | Scoring | Scored | Expired | Cancelled

  /**
   * One persisted Assessment row (its id is the key it is stored under). The token "" stands for both an unset and an
   * empty token: every reader of the field only asks whether it is falsy.
   */
  datatype Assessment = Assessment(
    status: Status,
    createdAt: int,
    sentAt: Option<int>,
    acceptedAt: Option<int>,
    startTime: Option<int>,
    endTime: Option<int>,
    inviteExpiresAt: Option<int>,
    timeLimitMinutes: nat,
    token: string,
    codeSubmission: string,
    codeLanguage: string,
    score: Option<nat>,
    feedback: string
  )

  predicate IsHexDigit(c: char) {
    '0' <= c <= '9' || 'a' <= c <= 'f'
  }

  /** The shape of a freshly generated URL token: 32 lower-case hexadecimal digits. */
  type UuidHex = s: string | |s| == 32 && forall i :: 0 <= i < |s| ==> IsHexDigit(s[i])
    witness "00000000000000000000000000000000"

  // ---------------------------------------------------------------------------
  // Coding questions

  datatype CodingQuestion = CodingQuestion(
    title: string,
    starterPython: string,
    starterJavascript: string,
    starterSql: string,
    starterHtml: string,
    starterCss: string
  )

  const StarterLanguages: set<string> := {"python", "javascript", "sql", "html", "css"}

  /** Which starter-code column belongs to which language tag. */
  function StarterTable(q: CodingQuestion): (t: map<string, string>)
    ensures t.Keys == StarterLanguages
  {
    map["python" := q.starterPython, "javascript" := q.starterJavascript, "sql" := q.starterSql,
        "html" := q.starterHtml, "css" := q.starterCss]
  }

  /** The starter code for a language; the empty string for any other tag. */
  function StarterCode(q: CodingQuestion, language: string): (r: string)
    ensures language in StarterLanguages ==> r == StarterTable(q)[language]
    ensures language !in StarterLanguages ==> r == ""
  {
    if language == "python" then q.starterPython
    else if language == "javascript" then q.starterJavascript
    else if language == "sql" then q.starterSql
    else if language == "html" then q.starterHtml
    else if language == "css" then q.starterCss
    else ""
  }

  // ---------------------------------------------------------------------------
  // Normalisation before every save

  /**
   * What save does to a record before writing it: fill an empty token, fill the
   * invitation expiry of a sent record, fill the end time of a started record.
   * No rule overwrites a field that is already set, and nothing else changes.
   */
  function Normalized(a: Assessment, freshToken: UuidHex): (r: Assessment)
    ensures r.token != ""
    ensures a.token != "" ==> r.token == a.token
    ensures a.token == "" ==> r.token == freshToken
    ensures a.inviteExpiresAt.Some? ==> r.inviteExpiresAt == a.inviteExpiresAt
    ensures a.status == Sent && a.sentAt.Some? && a.inviteExpiresAt.None? ==>
              r.inviteExpiresAt == Some(a.sentAt.value + InviteWindow)
    ensures a.status != Sent || a.sentAt.None? ==> r.inviteExpiresAt == a.inviteExpiresAt
    ensures a.endTime.Some? ==> r.endTime == a.endTime
    ensures a.status == Started && a.startTime.Some? && a.endTime.None? ==>
              r.endTime == Some(a.startTime.value + WorkWindow)
    ensures a.status != Started || a.startTime.None? ==> r.endTime == a.endTime
    ensures r == a.(token := r.token, inviteExpiresAt := r.inviteExpiresAt, endTime := r.endTime)
    ensures EndTimeKnownWhenRunning(r)
  {
    var withToken := if a.token == "" then a.(token := freshToken) else a;
    var withExpiry :=
      if withToken.status == Sent && withToken.inviteExpiresAt.None? && withToken.sentAt.Some?
      then withToken.(inviteExpiresAt := Some(withToken.sentAt.value + InviteWindow))
      else withToken;
    if withExpiry.status == Started && withExpiry.startTime.Some? && withExpiry.endTime.None?
    then withExpiry.(endTime := Some(withExpiry.startTime.value + WorkWindow))
    else withExpiry
  }

  /** Saving twice in a row gives the same record as saving once, whatever token the second save draws. */
  lemma NormalizedIdempotent(a: Assessment, first: UuidHex, second: UuidHex)
    ensures Normalized(Normalized(a, first), second) == Normalized(a, first)
  {
  }

  /** Once the invitation expiry is set, a later change of sent_at does not move it. */
  lemma InviteExpiryNotRecomputed(a: Assessment, newSentAt: Option<int>, freshToken: UuidHex)
    requires a.inviteExpiresAt.Some?
    ensures Normalized(a.(sentAt := newSentAt), freshToken).inviteExpiresAt == a.inviteExpiresAt
  {
  }

  /**
   * Because the expiry is never recomputed, a SENT record whose sent_at is edited
   * after its first save no longer has invite_expires_at == sent_at + 7 days.
   */
  lemma InviteExpiryCanLagSentAt(freshToken: UuidHex)
    ensures exists a: Assessment, s: int ::
              var saved := Normalized(a, freshToken);
              var resaved := Normalized(saved.(sentAt := Some(s)), freshToken);
              resaved.status == Sent && resaved.sentAt == Some(s) &&
              resaved.inviteExpiresAt != Some(s + InviteWindow)
  {
    var a := Assessment(Sent, 0, Some(0), None, None, None, None, 120, "", "", "python", None, "");
    var saved := Normalized(a, freshToken);
    var resaved := Normalized(saved.(sentAt := Some(1)), freshToken);
    assert resaved.inviteExpiresAt == Some(InviteWindow);
    assert resaved.status == Sent && resaved.sentAt == Some(1) && resaved.inviteExpiresAt != Some(1 + InviteWindow);
  }

  // ---------------------------------------------------------------------------
  // Read-only time predicates

  /** An invitation expires 7 days after sent_at; an unsent record never does. */
  predicate IsExpired(a: Assessment, now: int) {
    a.sentAt.Some? && now > a.sentAt.value + InviteWindow
  }

  /** The stored invitation expiry has passed; no stored expiry means not expired. */
  predicate IsInviteExpired(a: Assessment, now: int) {
    a.inviteExpiresAt.Some? && now > a.inviteExpiresAt.value
  }

  /** Once an invitation counts as expired by the 7-day rule, it stays expired. */
  lemma ExpiredStaysExpired(a: Assessment, now: int, later: int)
    requires now <= later
    ensures IsExpired(a, now) ==> IsExpired(a, later)
    ensures !a.sentAt.Some? ==> !IsExpired(a, later)
  {
  }

  /** Once the stored invitation expiry has passed, it stays passed; without one it never passes. */
  lemma InviteExpiredStaysExpired(a: Assessment, now: int, later: int)
    requires now <= later
    ensures IsInviteExpired(a, now) ==> IsInviteExpired(a, later)
    ensures !a.inviteExpiresAt.Some? ==> !IsInviteExpired(a, later)
  {
  }

  /**
   * The in-progress check compares now with end_time whenever the record is
   * STARTED and has a start_time; an unset end_time there would be a type error.
   */
  predicate EndTimeKnownWhenRunning(a: Assessment) {
    a.status == Started && a.startTime.Some? ==> a.endTime.Some?
  }

  predicate IsInProgress(a: Assessment, now: int)
    requires EndTimeKnownWhenRunning(a)
  {
    a.status == Started && a.startTime.Some? && now < a.endTime.value
  }

  predicate IsTimeUp(a: Assessment, now: int) {
    a.startTime.Some? && a.endTime.Some? && now > a.endTime.value
  }

  /** A record is never both in progress and out of time. */
  lemma InProgressExcludesTimeUp(a: Assessment, now: int)
    requires EndTimeKnownWhenRunning(a)
    ensures !(IsInProgress(a, now) && IsTimeUp(a, now))
  {
  }

  /**
   * For a freshly sent record, the stored expiry written by save agrees with the
   * 7-day rule that is_expired computes from sent_at.
   */
  lemma InviteExpiryAgreesWithIsExpired(a: Assessment, freshToken: UuidHex, now: int)
    requires a.status == Sent && a.sentAt.Some? && a.inviteExpiresAt.None?
    ensures IsInviteExpired(Normalized(a, freshToken), now) == IsExpired(a, now)
  {
  }

  /**
   * For a freshly started record, save opens a 24-hour window: the record is in
   * progress strictly before start_time + 24 hours and out of time strictly after.
   */
  lemma StartedWindowAfterSave(a: Assessment, freshToken: UuidHex, now: int)
    requires a.status == Started && a.startTime.Some? && a.endTime.None?
    ensures IsInProgress(Normalized(a, freshToken), now) <==> now < a.startTime.value + WorkWindow
    ensures IsTimeUp(Normalized(a, freshToken), now) <==> now > a.startTime.value + WorkWindow
  {
  }

  datatype Remaining = Remaining(hours: nat, minutes: nat, totalSeconds: nat)

  function Max(x: int, y: int): (r: int)
    ensures r >= x && r >= y && (r == x || r == y)
  {
    if x < y then y else x
  }

  /**
   * The time left before end_time, split into hours and minutes, while the
   * record is in progress; None otherwise. The clock is read twice: once by the
   * in-progress check (checkedAt) and once for the subtraction (readAt), so the
   * end may already have passed at the second reading; the remainder is then 0.
   */
  function TimeRemaining(a: Assessment, checkedAt: int, readAt: int): (r: Option<Remaining>)
    requires EndTimeKnownWhenRunning(a)
    ensures r.Some? <==> IsInProgress(a, checkedAt)
    ensures r.Some? ==> (
              && a.endTime.Some?
              && (readAt < a.endTime.value ==> r.value.totalSeconds == a.endTime.value - readAt)
              && (readAt >= a.endTime.value ==> r.value.totalSeconds == 0))
    ensures r.Some? && readAt == checkedAt ==> r.value.totalSeconds > 0
    ensures r.Some? ==> r.value.minutes < 60
    ensures r.Some? ==>
              r.value.hours * 3600 + r.value.minutes * 60 <= r.value.totalSeconds
              < r.value.hours * 3600 + r.value.minutes * 60 + 60
  {
    if !IsInProgress(a, checkedAt) then None
    else
      var total := Max(0, a.endTime.value - readAt);
      Some(Remaining(total / 3600, (total % 3600) / 60, total))
  }

  /** When the end passes between the two clock readings, the remaining time is zero. */
  lemma TimeRemainingCanBeZero()
    ensures exists a: Assessment, checkedAt: int, readAt: int ::
              EndTimeKnownWhenRunning(a) && TimeRemaining(a, checkedAt, readAt) == Some(Remaining(0, 0, 0))
  {
    var a := Assessment(Started, 0, None, None, Some(0), Some(WorkWindow), None, 120, "", "", "python", None, "");
    assert TimeRemaining(a, 0, WorkWindow) == Some(Remaining(0, 0, 0));
  }

  function Min(x: real, y: real): (r: real)
    ensures r <= x && r <= y && (r == x || r == y)
  {
    if x < y then x else y
  }

  /**
   * The progress computation divides by end_time - start_time unless it has
   * already answered; a zero-length window there would be a division by zero.
   */
  predicate ProgressDefined(a: Assessment, checkedAt: int) {
    a.startTime.Some? && a.endTime.Some? && !IsTimeUp(a, checkedAt) ==> a.endTime.value != a.startTime.value
  }

  /**
   * Elapsed time as a percentage of the window. The clock is read twice: once
   * by the time-up check (checkedAt) and once for the elapsed time (readAt).
   * Only the upper end is clamped, so the value is negative before start_time.
   */
  function ProgressPercentage(a: Assessment, checkedAt: int, readAt: int): (r: real)
    requires ProgressDefined(a, checkedAt)
    ensures a.startTime.None? || a.endTime.None? ==> r == 0.0
    ensures IsTimeUp(a, checkedAt) ==> r == 100.0
    ensures r <= 100.0
    ensures a.startTime.Some? && checkedAt >= a.startTime.value && readAt >= a.startTime.value ==> r >= 0.0
  {
    if a.startTime.None? || a.endTime.None? then 0.0
    else if IsTimeUp(a, checkedAt) then 100.0
    else
      var total := (a.endTime.value - a.startTime.value) as real;
      var elapsed := (readAt - a.startTime.value) as real;
      Min(100.0, elapsed / total * 100.0)
  }

  lemma QuotientKeepsOrder(x: real, y: real, d: real)
    requires d > 0.0 && x <= y
    ensures x / d <= y / d
  {
    assert y / d - x / d == (y - x) / d;
  }

  lemma QuotientAtLeastOne(x: real, d: real)
    requires d < 0.0 && x <= d
    ensures x / d >= 1.0
  {
    assert d / d == 1.0;
    assert (x - d) / d == x / d - d / d;
  }

  /** Progress, read at a single instant, never goes backwards as the clock advances. */
  lemma ProgressMonotone(a: Assessment, earlier: int, later: int)
    requires earlier <= later
    requires ProgressDefined(a, earlier) && ProgressDefined(a, later)
    ensures ProgressPercentage(a, earlier, earlier) <= ProgressPercentage(a, later, later)
  {
    if a.startTime.Some? && a.endTime.Some? && !IsTimeUp(a, later) {
      var s, e := a.startTime.value, a.endTime.value;
      var total := (e - s) as real;
      if e > s {
        QuotientKeepsOrder((earlier - s) as real, (later - s) as real, total);
      } else {
        QuotientAtLeastOne((earlier - s) as real, total);
        QuotientAtLeastOne((later - s) as real, total);
      }
    }
  }

  /** Before start_time the progress is negative: the lower end is not clamped. */
  lemma ProgressNegativeBeforeStart()
    ensures exists a: Assessment, now: int :: ProgressDefined(a, now) && ProgressPercentage(a, now, now) < 0.0
  {
    var a := Assessment(Started, 0, None, None, Some(100), Some(100 + WorkWindow), None, 120,
                        "", "", "python", None, "");
    assert ProgressPercentage(a, 0, 0) < 0.0;
  }

  // ---------------------------------------------------------------------------
  // The stored table and the in-memory model object

  /** What an observer of the store and of the scorer sees, in order. */
  datatype Event = Persisted(id: int, row: Assessment) | ScorerCalled(id: int, row: Assessment)

  /** The Assessment table, keyed by id, with the ghost history of writes. */
  class Database {
    var rows: map<int, Assessment>
    ghost var log: seq<Event>

    constructor (initial: map<int, Assessment>)
      ensures rows == initial && log == []
    {
      rows := initial;
      log := [];
    }

    /** One transactional write of a row under its id. */
    method Persist(id: int, row: Assessment)
      modifies this
      ensures rows == old(rows)[id := row]
      ensures log == old(log) + [Persisted(id, row)]
    {
      rows := rows[id := row];
      log := log + [Persisted(id, row)];
    }

    /** Records, for the proofs only, that the scorer was handed this row. */
    ghost method NoteScorerCall(id: int, row: Assessment)
      modifies this
      ensures rows == old(rows)
      ensures log == old(log) + [ScorerCalled(id, row)]
    {
      log := log + [ScorerCalled(id, row)];
    }
  }

  /** A loaded Assessment object whose fields are changed in place before it is saved. */
  class Instance {
    var id: int
    var status: Status
    var createdAt: int
    var sentAt: Option<int>
    var acceptedAt: Option<int>
    var startTime: Option<int>
    var endTime: Option<int>
    var inviteExpiresAt: Option<int>
    var timeLimitMinutes: nat
    var token: string
    var codeSubmission: string
    var codeLanguage: string
    var score: Option<nat>
    var feedback: string

    /** The row this object would be written as. */
    function Row(): Assessment
      reads this
    {
      Assessment(status, createdAt, sentAt, acceptedAt, startTime, endTime, inviteExpiresAt,
                 timeLimitMinutes, token, codeSubmission, codeLanguage, score, feedback)
    }

    constructor Load(key: int, row: Assessment)
      ensures id == key && Row() == row
    {
      id, status, createdAt := key, row.status, row.createdAt;
      sentAt, acceptedAt := row.sentAt, row.acceptedAt;
      startTime, endTime, inviteExpiresAt := row.startTime, row.endTime, row.inviteExpiresAt;
      timeLimitMinutes, token := row.timeLimitMinutes, row.token;
      codeSubmission, codeLanguage := row.codeSubmission, row.codeLanguage;
      score, feedback := row.score, row.feedback;
    }

    /** Normalise the fields in place, then write the row. */
    method Save(db: Database, freshToken: UuidHex)
      modifies this, db
      ensures Row() == Normalized(old(Row()), freshToken)
      ensures db.rows == old(db.rows)[id := Row()]
      ensures id == old(id)
      ensures db.log == old(db.log) + [Persisted(id, Row())]
    {
      if token == "" {
        token := freshToken;
      }
      if status == Sent && inviteExpiresAt.None? && sentAt.Some? {
        inviteExpiresAt := Some(sentAt.value + InviteWindow);
      }
      if status == Started && startTime.Some? && endTime.None? {
        endTime := Some(startTime.value + WorkWindow);
      }
      db.Persist(id, Row());
    }
  }
}
