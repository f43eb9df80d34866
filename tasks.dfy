/**
 * The background task that scores one finished Assessment: look it up, check
 * that it is ready, persist SCORING, hand it to the scorer, persist the outcome.
 */
module Tasks {
  import opened Wrappers
  import opened Models

  /**
   * What the scorer can do: return a result whose status tag may be missing, after
   * leaving a score on the record, or raise an exception with a message.
   */
  datatype ScorerOutcome =
    | Returned(tag: Option<string>, score: Option<nat>)
    | Raised(message: string)

  /** The dictionary the task returns: status 'success' with id and score, or status 'error' with a message. */
  datatype TaskResult =
    | TaskSuccess(assessmentId: int, score: Option<nat>)
    | TaskError(message: string)

  const SuccessTag: string := "success"
  const NotReadyMessage: string := "Assessment is not ready for evaluation"

  // ---------------------------------------------------------------------------
  // Decimal rendering of the id inside the not-found message

  function DigitChar(d: nat): (c: char)
    requires d < 10
    ensures '0' <= c <= '9' && c as int - '0' as int == d
  {
    "0123456789"[d]
  }

  /** The value of a string of decimal digits. */
  function DigitsValue(s: string): (n: nat)
    requires forall i :: 0 <= i < |s| ==> '0' <= s[i] <= '9'
  {
    if s == [] then 0 else DigitsValue(s[..|s| - 1]) * 10 + (s[|s| - 1] as int - '0' as int)
  }

  /** The shortest decimal numeral of n: digits only, no leading zero. */
  function NatToDecimal(n: nat): (s: string)
    ensures |s| > 0
    ensures forall i :: 0 <= i < |s| ==> '0' <= s[i] <= '9'
    ensures |s| > 1 ==> s[0] != '0'
    decreases n
  {
    if n < 10 then [DigitChar(n)] else NatToDecimal(n / 10) + [DigitChar(n % 10)]
  }

  /** Reading the numeral back gives the number. */
  lemma {:induction false} NatToDecimalRoundTrip(n: nat)
    ensures DigitsValue(NatToDecimal(n)) == n
  {
    if n >= 10 {
      var s := NatToDecimal(n);
      NatToDecimalRoundTrip(n / 10);
      assert s[..|s| - 1] == NatToDecimal(n / 10);
    }
  }

  function IntToDecimal(n: int): (s: string) {
    if n < 0 then "-" + NatToDecimal(-n) else NatToDecimal(n)
  }

  function NotFoundMessage(id: int): (message: string) {
    "Assessment " + IntToDecimal(id) + " not found"
  }

  // ---------------------------------------------------------------------------
  // The task as a function of the stored table

  /** The guard: only a FINISHED record with a non-empty submission is scored. */
  predicate ReadyForEvaluation(a: Assessment) {
    a.status == Finished && a.codeSubmission != ""
  }

  /** The task's result, the table afterwards, and what was written and scored, in order. */
  datatype Run = Run(result: TaskResult, rows: map<int, Assessment>, events: seq<Event>)

  function Evaluate(rows: map<int, Assessment>, id: int, scorer: ScorerOutcome, freshToken: UuidHex): (run: Run) {
    if id !in rows then
      Run(TaskError(NotFoundMessage(id)), rows, [])
    else if !ReadyForEvaluation(rows[id]) then
      Run(TaskError(NotReadyMessage), rows, [])
    else
      var claimed := Normalized(rows[id].(status := Scoring), freshToken);
      var afterClaim := rows[id := claimed];
      var prefix := [Persisted(id, claimed), ScorerCalled(id, claimed)];
      match scorer
      case Raised(message) =>
        Run(TaskError(message), afterClaim, prefix)
      case Returned(tag, score) =>
        var outcome := if tag == Some(SuccessTag) then Scored else Finished;
        var final := Normalized(claimed.(score := score, status := outcome), freshToken);
        Run(TaskSuccess(id, final.score), afterClaim[id := final], prefix + [Persisted(id, final)])
  }

  /** The task, step by step, over the live table. */
  method EvaluateAssessment(db: Database, id: int, scorer: ScorerOutcome, freshToken: UuidHex)
    returns (result: TaskResult)
    modifies db
    ensures var run := Evaluate(old(db.rows), id, scorer, freshToken);
            result == run.result && db.rows == run.rows && db.log == old(db.log) + run.events
  {
    ghost var before := db.rows;
    ghost var run := Evaluate(before, id, scorer, freshToken);
    if id !in db.rows {
      return TaskError(NotFoundMessage(id));
    }
    var assessment := new Instance.Load(id, db.rows[id]);
    if assessment.status != Finished || assessment.codeSubmission == "" {
      return TaskError(NotReadyMessage);
    }
    ghost var claimed := Normalized(before[id].(status := Scoring), freshToken);
    assessment.status := Scoring;
    assessment.Save(db, freshToken);
    assert assessment.Row() == claimed;
    assert db.rows == before[id := claimed];
    db.NoteScorerCall(id, assessment.Row());
    match scorer {
      case Raised(message) =>
        assert run == Run(TaskError(message), before[id := claimed],
                          [Persisted(id, claimed), ScorerCalled(id, claimed)]);
        return TaskError(message);
      case Returned(tag, score) =>
        assessment.score := score;
        if tag == Some(SuccessTag) {
          assessment.status := Scored;
        } else {
          assessment.status := Finished;
        }
        ghost var final := Normalized(claimed.(score := score, status := assessment.status), freshToken);
        assert assessment.Row() == claimed.(score := score, status := assessment.status);
        assessment.Save(db, freshToken);
        assert assessment.Row() == final;
        assert run == Run(TaskSuccess(id, final.score), before[id := claimed][id := final],
                          [Persisted(id, claimed), ScorerCalled(id, claimed), Persisted(id, final)]);
        return TaskSuccess(id, assessment.score);
    }
  }

  // ---------------------------------------------------------------------------
  // What the task promises

  /** An unknown id is reported as not found, and nothing is written. */
  lemma NotFoundWritesNothing(rows: map<int, Assessment>, id: int, scorer: ScorerOutcome, freshToken: UuidHex)
    requires id !in rows
    ensures Evaluate(rows, id, scorer, freshToken) == Run(TaskError(NotFoundMessage(id)), rows, [])
  {
  }

  /** A record that is not FINISHED, or has no submission, is refused, and nothing is written. */
  lemma NotReadyWritesNothing(rows: map<int, Assessment>, id: int, scorer: ScorerOutcome, freshToken: UuidHex)
    requires id in rows && (rows[id].status != Finished || rows[id].codeSubmission == "")
    ensures Evaluate(rows, id, scorer, freshToken) == Run(TaskError(NotReadyMessage), rows, [])
  {
  }

  /** Re-running the task on a record already being scored, or scored, changes nothing. */
  lemma RerunIsNoop(rows: map<int, Assessment>, id: int, scorer: ScorerOutcome, freshToken: UuidHex)
    requires id in rows && rows[id].status in {Scoring, Scored}
    ensures Evaluate(rows, id, scorer, freshToken).rows == rows
    ensures Evaluate(rows, id, scorer, freshToken).result.TaskError?
  {
    NotReadyWritesNothing(rows, id, scorer, freshToken);
  }

  /**
   * Once the guard passes, the first write puts the record in SCORING, and the
   * scorer is handed exactly the record that was written.
   */
  lemma ScoringPersistedBeforeScorer(rows: map<int, Assessment>, id: int, scorer: ScorerOutcome, freshToken: UuidHex)
    requires id in rows && ReadyForEvaluation(rows[id])
    ensures var run := Evaluate(rows, id, scorer, freshToken);
            |run.events| >= 2 && run.events[0].Persisted? && run.events[0].id == id &&
            run.events[0].row.status == Scoring &&
            run.events[1] == ScorerCalled(id, run.events[0].row)
  {
  }

  /** A 'success' tag ends in SCORED, and the task reports success with the record's score. */
  lemma SuccessTagEndsScored(rows: map<int, Assessment>, id: int, score: Option<nat>, freshToken: UuidHex)
    requires id in rows && ReadyForEvaluation(rows[id])
    ensures var run := Evaluate(rows, id, Returned(Some(SuccessTag), score), freshToken);
            id in run.rows && run.rows[id].status == Scored && run.rows[id].score == score &&
            run.result == TaskSuccess(id, score) && |run.events| == 3
  {
  }

  /**
   * Any other tag, or none, puts the record back to FINISHED, and yet the task
   * still reports success.
   */
  lemma OtherTagRevertsYetReportsSuccess(rows: map<int, Assessment>, id: int, tag: Option<string>,
                                         score: Option<nat>, freshToken: UuidHex)
    requires id in rows && ReadyForEvaluation(rows[id])
    requires tag != Some(SuccessTag)
    ensures var run := Evaluate(rows, id, Returned(tag, score), freshToken);
            id in run.rows && run.rows[id].status == Finished &&
            run.result == TaskSuccess(id, score) && |run.events| == 3
  {
  }

  /** A raising scorer yields an error carrying its message, and the record stays in SCORING. */
  lemma RaiseLeavesScoring(rows: map<int, Assessment>, id: int, message: string, freshToken: UuidHex)
    requires id in rows && ReadyForEvaluation(rows[id])
    ensures var run := Evaluate(rows, id, Raised(message), freshToken);
            id in run.rows && run.rows[id].status == Scoring &&
            run.result == TaskError(message) && |run.events| == 2
  {
  }

  /** After a raise, every later run of the task is refused: the record is stuck in SCORING. */
  lemma StuckAfterRaise(rows: map<int, Assessment>, id: int, message: string, freshToken: UuidHex,
                        retry: ScorerOutcome, retryToken: UuidHex)
    requires id in rows && ReadyForEvaluation(rows[id])
    ensures var after := Evaluate(rows, id, Raised(message), freshToken).rows;
            Evaluate(after, id, retry, retryToken) == Run(TaskError(NotReadyMessage), after, [])
  {
    var after := Evaluate(rows, id, Raised(message), freshToken).rows;
    RaiseLeavesScoring(rows, id, message, freshToken);
    NotReadyWritesNothing(after, id, retry, retryToken);
  }

  /**
   * The task assigns only the status. The score is whatever the scorer left, the
   * token is filled by save if it was empty, and no other record is touched.
   */
  lemma TaskAssignsOnlyStatus(rows: map<int, Assessment>, id: int, scorer: ScorerOutcome, freshToken: UuidHex)
    requires id in rows && ReadyForEvaluation(rows[id])
    ensures var run := Evaluate(rows, id, scorer, freshToken);
            var old_ := rows[id];
            var token := if old_.token == "" then freshToken else old_.token;
            var score := if scorer.Returned? then scorer.score else old_.score;
            id in run.rows && run.rows == rows[id := run.rows[id]] &&
            run.rows[id] == old_.(status := run.rows[id].status, score := score, token := token)
  {
  }

  /** Once the guard passes, the record ends SCORED, FINISHED or SCORING, and in no other state. */
  lemma FinalStatusAfterGuard(rows: map<int, Assessment>, id: int, scorer: ScorerOutcome, freshToken: UuidHex)
    requires id in rows && ReadyForEvaluation(rows[id])
    ensures var run := Evaluate(rows, id, scorer, freshToken);
            id in run.rows && run.rows[id].status in {Scored, Finished, Scoring}
  {
  }
}
