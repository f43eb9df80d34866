# Assessment lifecycle and evaluation task of the recruiting platform

This project models the two pieces of logic in the recruiting platform that can be stated exactly.

- **The Assessment record** (`core/models.py`). The model covers its persisted fields and the normalisation that `save` runs before every write:
  - fill an empty URL token with a fresh one;
  - fill `invite_expires_at` of a SENT record;
  - fill `end_time` of a STARTED record.
  It also covers the read-only time predicates `is_expired`, `is_invite_expired`, `is_in_progress`, `is_time_up`, `time_remaining` and `progress_percentage`, and `CodingQuestion.get_starter_code`.
- **The evaluation task** (`core/tasks.py`, `evaluate_assessment`). The task:
  - looks a record up by id;
  - refuses a record that is not FINISHED or has no submission;
  - persists SCORING;
  - calls the scorer;
  - persists SCORED or FINISHED.
  A missing record and an exception are caught at the task boundary.

Modelling choices:

- Timestamps are whole seconds (`Option<int>`). The invitation window is 604800 s (7 days) and the working window is 86400 s (24 hours).
- The current time is a parameter of every predicate. Where the code reads the clock twice (`time_remaining` and `progress_percentage` each call another predicate and then read the clock again), the model takes two parameters: `checkedAt` for the first reading and `readAt` for the second.
- The generated token is a parameter of type `UuidHex`: 32 lower-case hexadecimal digits, the shape of `uuid4().hex`.
- An unset token and an empty token are both written `""`, because the code only asks whether the field is falsy.
- `save` is modelled in two forms. `Models.Normalized` is a pure specification. `Models.Instance.Save` assigns the fields of an in-memory object in place and then writes the row to `Models.Database`, a class holding the table as a `map<int, Assessment>`.
- The task is modelled in two forms. `Tasks.EvaluateAssessment` is the step-by-step method over the live table. `Tasks.Evaluate` is the pure function that the method's postcondition equates it with. The lemmas about the task are stated about `Tasks.Evaluate`.
- `Database` keeps a ghost log of events. Each event is either a row written or a row handed to the scorer. The log lets the ordering of writes around the scorer call be stated.
- The scorer (`evaluate_submission`, not part of this model) is an opaque outcome. It either returns a result, or raises with a message. A returned result carries its status tag, possibly missing, and the score the scorer left on the record.

Behaviour of the code that a reader might not expect, which the model keeps as written:

- The task reverts the record to FINISHED only when the scorer returns a failure tag (the comment at `core/tasks.py:42` reads "Revert to finished if evaluation failed"). When the scorer raises, the handler at `core/tasks.py:61-66` does not revert, so the record stays persisted as SCORING. `Tasks.StuckAfterRaise` shows that every later run of the task then refuses the record, because the guard at `core/tasks.py:21` asks for FINISHED.
- `progress_percentage` clamps only the upper end to 100 (`core/models.py:366`), not the lower end to 0. Before `start_time` the value is negative (`Models.ProgressNegativeBeforeStart`).
- One might expect a SENT record always to satisfy `invite_expires_at == sent_at + 7 days`. Because `save` fills the expiry only when it is empty (`core/models.py:315`), that equation breaks once `sent_at` is edited after the first save (`Models.InviteExpiryCanLagSentAt`).

Two further points about the code:

- When the scorer returns a tag other than `'success'`, the task still returns `'status': 'success'` (`core/tasks.py:49-53`), although the record reverts to FINISHED.
- `time_remaining` is defined twice in `core/models.py`. The second definition (line 340) replaces the first (line 299), so only the second is modelled.

## Model

| member | source | states |
|---|---|---|
| `Models.StarterCode` | core/models.py:184-198 | each of the five language tags selects its own starter-code column, as a language-to-column table says, and any other tag gives the empty string |
| `Models.Normalized` | core/models.py:308-322 | after save the token is non-empty, and an existing token is kept. A SENT record with `sent_at` and no expiry gets `sent_at + 7 days`. A STARTED record with `start_time` and no `end_time` gets `start_time + 24 hours`. No rule overwrites a set field, and every other field is unchanged. A saved STARTED record with a start time always has an end time |
| `Models.Instance.Save` | core/models.py:308-322 | the in-place assignments leave the object equal to `Normalized` of its old row, and then exactly that row is written under the object's id |
| `Models.Instance.Load` | core/tasks.py:18 | the loaded object holds exactly the stored row and its id |
| `Models.Database.Persist` | core/models.py:322 | a write of an existing record replaces the row under its id and leaves the other rows unchanged |
| `Models.Database.NoteScorerCall` | core/tasks.py:36 | the scorer call is recorded in the event log with the row it is handed, and the table is unchanged |
| `Models.NormalizedIdempotent` | core/models.py:308-322 | saving twice gives the same record as saving once, whatever token the second save draws |
| `Models.InviteExpiryNotRecomputed` | core/models.py:315-316 | once `invite_expires_at` is set, changing `sent_at` and saving again leaves it unchanged |
| `Models.InviteExpiryCanLagSentAt` | core/models.py:315-316 | there is a SENT record whose `invite_expires_at` differs from `sent_at + 7 days` after `sent_at` is edited and the record is saved again |
| `Models.IsExpired` | core/models.py:292-297 | false without `sent_at`; otherwise true exactly when now is strictly after `sent_at + 7 days` |
| `Models.IsInviteExpired` | core/models.py:324-328 | false without `invite_expires_at`; otherwise true exactly when now is strictly after it |
| `Models.IsInProgress` | core/models.py:330-332 | true exactly when the status is STARTED, `start_time` is set and now is strictly before `end_time` (which must then be set) |
| `Models.IsTimeUp` | core/models.py:334-338 | false unless both `start_time` and `end_time` are set; otherwise true exactly when now is strictly after `end_time` |
| `Models.ExpiredStaysExpired` | core/models.py:292-297 | without `sent_at` a record is never expired, and once it is expired by the 7-day rule it stays expired at every later time |
| `Models.InviteExpiredStaysExpired` | core/models.py:324-328 | without `invite_expires_at` an invite is never expired, and once it is expired it stays expired at every later time |
| `Models.InviteExpiryAgreesWithIsExpired` | core/models.py:314-328 | for a SENT record saved without an expiry, `is_invite_expired` of the saved record equals `is_expired` at every time |
| `Models.InProgressExcludesTimeUp` | core/models.py:330-338 | no record is in progress and out of time at the same moment |
| `Models.StartedWindowAfterSave` | core/models.py:318-338 | a STARTED record saved without an end time is in progress exactly before `start_time + 24 hours`, and out of time exactly after it |
| `Models.TimeRemaining` | core/models.py:340-354 | there is a result exactly when the record is in progress at the first clock reading. Its `total_seconds` is `end_time` minus the second reading when that is before `end_time`, and 0 otherwise; it is positive when both readings are equal. `minutes < 60`, and `hours*3600 + minutes*60 <= total_seconds < hours*3600 + minutes*60 + 60` |
| `Models.TimeRemainingCanBeZero` | core/models.py:342-346 | some in-progress record gets a remaining time of 0, when `end_time` passes between the two clock readings |
| `Models.ProgressPercentage` | core/models.py:356-368 | the value is 0 without `start_time` or `end_time`, and 100 once time is up at the first clock reading. It is never above 100, and it is non-negative when both readings are at or after `start_time` |
| `Models.ProgressMonotone` | core/models.py:356-368 | for a fixed record, with both clock readings at one instant, progress never decreases as the clock advances |
| `Models.ProgressNegativeBeforeStart` | core/models.py:364-366 | some record gives a negative progress before its `start_time`, because only the upper end is clamped |
| `Tasks.NotFoundMessage` | core/tasks.py:59 | the not-found message is "Assessment ", the id in decimal, then " not found" |
| `Tasks.NatToDecimal` | core/tasks.py:59 | the id in the not-found message is a non-empty string of decimal digits with no leading zero |
| `Tasks.NatToDecimalRoundTrip` | core/tasks.py:59 | reading that decimal numeral back gives the id |
| `Tasks.ReadyForEvaluation` | core/tasks.py:21 | the guard passes exactly when the status is FINISHED and the submission is non-empty |
| `Tasks.Evaluate` | core/tasks.py:11-66 | the task's result, the table afterwards and the ordered writes and scorer call, branch by branch: not found, not ready, raise, and returned tag |
| `Tasks.EvaluateAssessment` | core/tasks.py:11-66 | the result, the final table and the sequence of writes and scorer calls are exactly those of `Tasks.Evaluate` on the table before the run |
| `Tasks.NotFoundWritesNothing` | core/tasks.py:55-60 | an unknown id gives the error "Assessment <id> not found", with no write and no scorer call |
| `Tasks.NotReadyWritesNothing` | core/tasks.py:21-26 | a record that is not FINISHED, or whose submission is empty, gives the not-ready error, with no write and no scorer call |
| `Tasks.RerunIsNoop` | core/tasks.py:21-26 | running the task on a SCORING or SCORED record returns an error and leaves the table unchanged |
| `Tasks.ScoringPersistedBeforeScorer` | core/tasks.py:32-36 | once the guard passes, the first event writes the record with status SCORING, and the next event hands exactly that record to the scorer |
| `Tasks.SuccessTagEndsScored` | core/tasks.py:39-53 | with tag `'success'` the record ends SCORED with the scorer's score, and the task reports success with that score after three events |
| `Tasks.OtherTagRevertsYetReportsSuccess` | core/tasks.py:41-53 | with any other tag, or none, the record ends FINISHED, yet the task still reports success |
| `Tasks.RaiseLeavesScoring` | core/tasks.py:61-66 | when the scorer raises, the task returns an error carrying the exception's message, and the record stays persisted as SCORING after two events |
| `Tasks.StuckAfterRaise` | core/tasks.py:21-66 | after a raise, every later run of the task on that id is refused as not ready and changes nothing |
| `Tasks.TaskAssignsOnlyStatus` | core/tasks.py:32-47 | once the guard passes, the final record differs from the loaded one only in status, in the score the scorer left, and in a token filled by save. No other record is touched |
| `Tasks.FinalStatusAfterGuard` | core/tasks.py:32-66 | once the guard passes, the final status is SCORED, FINISHED or SCORING |

## Left out

- Floating point: `progress_percentage` is computed on exact reals, and its `round(..., 1)` is not modelled. `time_remaining` and all timestamps use whole seconds, so sub-second parts of `total_seconds()` are not modelled.
- Models.ProgressPercentage: requires that the division not be by zero. This means excluding a record that has a start time and an end time, is not out of time, and has `end_time == start_time`. The code raises `ZeroDivisionError` there.
- Models.IsInProgress: requires `end_time` to be set for a STARTED record with a `start_time`. Without it the code raises `TypeError`. Every saved record meets this requirement (the last postcondition of `Models.Normalized`).
- The randomness of `uuid.uuid4()` and the clock `timezone.now()` are parameters. Token collisions are not modelled.
- The scorer `evaluate_submission` is not part of this model. Its effect on the record is limited to the score it leaves. Any writes it makes to other fields (evaluation status, results, timestamps) or to the table are not modelled.
- Only exceptions raised by the scorer are modelled. An exception from a database write, caught by the same handler, is not modelled.
- Logging calls are not modelled.
- The fields the core never reads or writes are not modelled: question texts, personality data, the candidate, the creator, the available and chosen questions, and the evaluation columns. `created_at` and `accepted_at` are carried to show that saving an existing record leaves them alone.
- Creating a record is not modelled. On the first save of a new record the insert allocates the id and sets `created_at` to the current time (`core/models.py:230`, `auto_now_add`). `Models.Normalized`'s frame, `Models.Instance.Save` and `Models.Database.Persist` describe the save of a record that already exists, which is the only kind the task performs.
- Models.TimeRemaining: the clock is read twice, by `is_in_progress` (`core/models.py:332`, called at 342) and again at line 345. The model keeps both readings as parameters; it does not assume the second is not earlier than the first.
- Models.ProgressPercentage: the clock is read twice, by `is_time_up` (`core/models.py:338`, called at 361) and again at line 365; both readings are parameters. `Models.ProgressMonotone` is stated for the case where both readings are the same instant.
- The first `time_remaining` (`core/models.py:299-306`) is not modelled, because the second definition shadows it.
- Concurrent runs of the task on the same id, and the task queue's retry and delivery behaviour, are not modelled.
- `User`, `CustomUserManager`, `Candidate`, `HiringManager` and the ORM's cascade rules are framework wrappers and are not modelled. So are the signal handlers, forms, the authentication backend, e-mail sending, GDPR anonymisation, the queue configuration and the URL listing script.
