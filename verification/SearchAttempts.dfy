/** Billable search attempts: durable evidence before dispatch, retry only on pre-dispatch evidence. */
module SearchAttempts {
  import opened Basics

  // ---- Evidence rows

  datatype AttemptStage = PreDispatch | DispatchPossible | ResponseReceived | Completed

  function Rank(s: AttemptStage): nat {
    match s case PreDispatch => 0 case DispatchPossible => 1 case ResponseReceived => 2 case Completed => 3
  }

  datatype Key = Key(operation: string, provider: string, item: int, attempt: int)

  datatype Row = Row(stage: AttemptStage, outcome: Option<string>, retry: Option<string>, requestId: Option<string>)

  type Rows = map<Key, Row>

  datatype Mark = Mark(stage: AttemptStage, outcome: Option<string>, retry: Option<string>, requestId: Option<string>)

  /** The unique and range constraints of the table. */
  predicate CanStart(rows: Rows, key: Key) { key !in rows && 0 <= key.item <= 31 && 1 <= key.attempt <= 16 }

  /** The guard of the update: the row exists and its stage does not go back. */
  predicate CanMark(rows: Rows, key: Key, m: Mark) { key in rows && Rank(rows[key].stage) <= Rank(m.stage) }

  function Coalesce(a: Option<string>, b: Option<string>): Option<string> { if a.Some? then a else b }

  function Marked(row: Row, m: Mark): Row {
    Row(m.stage, Coalesce(m.outcome, row.outcome), Coalesce(m.retry, row.retry), Coalesce(m.requestId, row.requestId))
  }

  datatype Command = Start(key: Key) | Update(key: Key, mark: Mark)

  predicate Legal(rows: Rows, c: Command) {
    match c case Start(key) => CanStart(rows, key) case Update(key, m) => CanMark(rows, key, m)
  }

  /** A committed transaction; an illegal one changes nothing. */
  function Apply(rows: Rows, c: Command): Rows {
    if !Legal(rows, c) then rows
    else match c
         case Start(key) => rows[key := Row(PreDispatch, None, None, None)]
         case Update(key, m) => rows[key := Marked(rows[key], m)]
  }

  function ApplyAll(rows: Rows, commands: seq<Command>): Rows
    decreases |commands|
  {
    if commands == [] then rows else ApplyAll(Apply(rows, commands[0]), commands[1..])
  }

  /** Evidence only grows: rows stay, stages never go back, and what was recorded stays recorded. */
  predicate Grows(rows: Rows, later: Rows) {
    forall k :: k in rows ==>
      && k in later && Rank(rows[k].stage) <= Rank(later[k].stage)
      && (rows[k].outcome.Some? ==> later[k].outcome.Some?) && (rows[k].retry.Some? ==> later[k].retry.Some?)
  }

  /** Whatever transactions of whatever operations are committed, in whatever order. */
  lemma {:induction false} EvidenceOnlyGrows(rows: Rows, commands: seq<Command>)
    ensures Grows(rows, ApplyAll(rows, commands))
    decreases |commands|
  {
    if commands != [] {
      var next := Apply(rows, commands[0]);
      assert Grows(rows, next);
      EvidenceOnlyGrows(next, commands[1..]);
    }
  }

  // ---- One item

  datatype ExecutionStage = BeforeDispatch | Dispatched | Executing | SideEffectPossible | TerminalKnown | ResponseLost

  datatype AttemptError = AttemptError(stage: ExecutionStage, retryable: bool, code: string, requestId: Option<string>)

  /** How a provider call ends; a deadline or cancellation cuts it off, and any other exception escapes. */
  datatype Ending =
    | Answered(result: string, requestId: Option<string>)
    | Failed(error: AttemptError)
    | CutOff(cancelled: bool)
    | Escaped

  /** A provider call, with the committed evidence row at the moment of the call. */
  datatype Call = Call(key: Key, evidence: Option<Row>, ending: Ending)

  /** Only an error that proves nothing was dispatched excludes that the request was sent. */
  predicate PossiblySent(c: Call) { !(c.ending.Failed? && c.ending.error.stage == BeforeDispatch) }

  datatype Outcome = Success(result: string, attempts: nat) | Raised(error: AttemptError) | Interrupted | Propagated

  /** A transaction commits; or fails, or is cut off by a deadline, with or without having taken effect. */
  datatype Commit = Committed | Lost(applied: bool) | Cut(applied: bool)

  datatype Recorded = Recorded | Unavailable | Stopped

  datatype Admission = Admitted | RateLimited | RateUnavailable | AdmissionCut

  datatype Slot = Granted | Full | SlotCut

  /** What the surroundings do during one attempt. */
  datatype Env = Env(admission: Admission, slot: Slot, start: Commit, dispatch: Commit, ending: Ending, record: Commit,
                     waits: bool)

  datatype Step = Retry | Finish(outcome: Outcome)

  predicate RetryAllowed(billable: bool, e: AttemptError) { e.retryable && (billable ==> e.stage == BeforeDispatch) }

  function Early(code: string, retryable: bool): Outcome { Raised(AttemptError(BeforeDispatch, retryable, code, None)) }

  function UsageError(stage: ExecutionStage): Outcome {
    Raised(AttemptError(stage, false, "usage_accounting_unavailable", None))
  }

  /** The exit when evidence could not be recorded. */
  function NotRecorded(r: Recorded, stage: ExecutionStage): Outcome {
    if r == Stopped then Interrupted else UsageError(stage)
  }

  function Effect(rows: Rows, c: Command, commit: Commit): Rows {
    if commit.Committed? || commit.applied then Apply(rows, c) else rows
  }

  function Answer(rows: Rows, c: Command, commit: Commit): Recorded {
    match commit
    case Cut(_) => Stopped
    case Lost(_) => Unavailable
    case Committed => if Legal(rows, c) then Recorded else Unavailable
  }

  function FailureMark(e: AttemptError, retrying: bool): Mark {
    Mark(if e.stage == TerminalKnown then ResponseReceived else DispatchPossible,
         Some(e.code), if retrying then Some(e.code) else None, e.requestId)
  }

  function SuccessMark(requestId: Option<string>): Mark { Mark(Completed, Some("succeeded"), None, requestId) }

  predicate OnlyKey(before: Rows, after: Rows, key: Key) {
    after.Keys <= before.Keys + {key} && forall k :: k in before && k != key ==> k in after && after[k] == before[k]
  }

  /** What one attempt may have done, from the rows and calls before it to those after it. */
  ghost predicate AttemptDid(billable: bool, mayRetry: bool, key: Key, rows: Rows, after: Rows, call: Option<Call>,
                             step: Step, attempt: nat) {
    && Grows(rows, after) && OnlyKey(rows, after, key) && (!billable ==> after == rows)
    && (call.Some? ==> call.value.key == key && CallBacked(billable, after, call.value))
    && (match step
        case Retry => call.Some? && mayRetry && Retried(billable, after, call.value)
        case Finish(o) => Finished(billable, key, after, call, o, attempt))
  }

  /** A billable call happened after its evidence was committed at dispatch_possible, and the evidence stays. */
  predicate CallBacked(billable: bool, after: Rows, c: Call) {
    billable ==>
      && c.evidence.Some? && c.evidence.value.stage == DispatchPossible
      && c.key in after && Rank(DispatchPossible) <= Rank(after[c.key].stage)
  }

  /** A retried call failed retryably; if billable, before dispatch, and its row says why it was retried. */
  predicate Retried(billable: bool, after: Rows, c: Call) {
    && c.ending.Failed? && RetryAllowed(billable, c.ending.error)
    && (billable ==>
          && c.key in after && after[c.key].stage == DispatchPossible
          && after[c.key].outcome == Some(c.ending.error.code) && after[c.key].retry == Some(c.ending.error.code))
  }

  predicate Finished(billable: bool, key: Key, after: Rows, call: Option<Call>, o: Outcome, attempt: nat) {
    match o
    case Success(result, n) =>
      && n == attempt && call.Some? && call.value.ending.Answered? && call.value.ending.result == result
      && (billable ==> key in after && after[key].stage == Completed && after[key].outcome == Some("succeeded"))
    case Raised(e) => billable && e.stage == BeforeDispatch ==> call.None? || !PossiblySent(call.value)
    case Interrupted => billable && call.Some? ==> !call.value.ending.CutOff?
    case Propagated =>
      && call.Some? && call.value.ending.Escaped?
      && (billable ==> key in after && after[key].stage == DispatchPossible && after[key].outcome == Some("unknown"))
  }

  class SearchItemExecutor {
    const billable: bool
    const usageConfigured: bool
    const maxAttempts: nat

    /** The evidence table, the provider calls made so far, and the concurrency slots in use. */
    var rows: Rows
    var calls: seq<Call>
    var slots: nat

    constructor (billable: bool, usageConfigured: bool, maxAttempts: nat, rows: Rows)
      requires maxAttempts >= 1
      ensures this.billable == billable && this.usageConfigured == usageConfigured && this.maxAttempts == maxAttempts
      ensures this.rows == rows && calls == [] && slots == 0
    {
      this.billable, this.usageConfigured, this.maxAttempts := billable, usageConfigured, maxAttempts;
      this.rows, calls, slots := rows, [], 0;
    }

    method StartAttempt(key: Key, commit: Commit) returns (r: Recorded)
      modifies this`rows
      ensures rows == Effect(old(rows), Start(key), commit) && r == Answer(old(rows), Start(key), commit)
      ensures r == Recorded <==>
        commit.Committed? && key !in old(rows) && 0 <= key.item <= 31 && 1 <= key.attempt <= 16
      ensures r == Stopped <==> commit.Cut?
      ensures rows == if key !in old(rows) && 0 <= key.item <= 31 && 1 <= key.attempt <= 16
                         && (commit.Committed? || commit.applied)
                      then old(rows)[key := Row(PreDispatch, None, None, None)] else old(rows)
    {
      var legal := CanStart(rows, key);
      if legal && (commit.Committed? || commit.applied) {
        rows := rows[key := Row(PreDispatch, None, None, None)];
      }
      if commit.Cut? {
        return Stopped;
      }
      r := if legal && commit.Committed? then Recorded else Unavailable;
    }

    method MarkStage(key: Key, m: Mark, commit: Commit) returns (r: Recorded)
      modifies this`rows
      ensures rows == Effect(old(rows), Update(key, m), commit) && r == Answer(old(rows), Update(key, m), commit)
      ensures r == Recorded <==> commit.Committed? && key in old(rows) && Rank(old(rows)[key].stage) <= Rank(m.stage)
      ensures r == Stopped <==> commit.Cut?
      ensures key !in old(rows) || Rank(old(rows)[key].stage) > Rank(m.stage) ==> rows == old(rows)
      ensures !commit.Committed? && !commit.applied ==> rows == old(rows)
      ensures key in old(rows) && Rank(old(rows)[key].stage) <= Rank(m.stage)
              && (commit.Committed? || commit.applied) ==>
        var row := old(rows)[key];
        rows == old(rows)[key := Row(m.stage, if m.outcome.Some? then m.outcome else row.outcome,
                                     if m.retry.Some? then m.retry else row.retry,
                                     if m.requestId.Some? then m.requestId else row.requestId)]
    {
      var legal := CanMark(rows, key, m);
      if legal && (commit.Committed? || commit.applied) {
        rows := rows[key := Marked(rows[key], m)];
      }
      if commit.Cut? {
        return Stopped;
      }
      r := if legal && commit.Committed? then Recorded else Unavailable;
    }

    /** Evidence before dispatch: a pre_dispatch row, then the dispatch_possible mark, each committed on its own. */
    method Prepare(key: Key, e: Env) returns (o: Option<Outcome>)
      modifies this`rows
      ensures Grows(old(rows), rows) && OnlyKey(old(rows), rows, key)
      ensures o.None? ==> key in rows && rows[key] == Row(DispatchPossible, Some("unknown"), None, None)
      ensures o.Some? ==> o.value == Interrupted || o.value == UsageError(BeforeDispatch)
      ensures o.None? <==>
        && usageConfigured && key !in old(rows) && 0 <= key.item <= 31 && 1 <= key.attempt <= 16
        && e.start.Committed? && e.dispatch.Committed?
      ensures o == Some(Interrupted) ==> e.start.Cut? || e.dispatch.Cut?
    {
      if !usageConfigured {
        return Some(UsageError(BeforeDispatch));
      }
      var started := StartAttempt(key, e.start);
      if started != Recorded {
        return Some(NotRecorded(started, BeforeDispatch));
      }
      var marked := MarkStage(key, Mark(DispatchPossible, Some("unknown"), None, None), e.dispatch);
      if marked != Recorded {
        return Some(NotRecorded(marked, BeforeDispatch));
      }
      o := None;
    }

    /** After an answered call. */
    method Succeed(key: Key, attempt: nat, e: Env) returns (o: Outcome)
      requires e.ending.Answered?
      requires billable ==> key in rows && rows[key].stage == DispatchPossible
      modifies this`rows
      ensures Grows(old(rows), rows) && OnlyKey(old(rows), rows, key) && (!billable ==> rows == old(rows))
      ensures billable ==> key in rows
      ensures match o
              case Success(result, n) =>
                && n == attempt && result == e.ending.result
                && (billable ==> rows[key].stage == Completed && rows[key].outcome == Some("succeeded"))
              case Raised(err) => err.stage == ResponseLost && billable && e.record.Lost?
              case Interrupted => billable && e.record.Cut?
              case Propagated => false
      ensures billable && e.record.Committed? ==>
        rows[key] == Row(Completed, Some("succeeded"), old(rows)[key].retry,
                         if e.ending.requestId.Some? then e.ending.requestId else old(rows)[key].requestId)
    {
      if billable {
        var recorded := MarkStage(key, SuccessMark(e.ending.requestId), e.record);
        if recorded != Recorded {
          return NotRecorded(recorded, ResponseLost);
        }
      }
      o := Success(e.ending.result, attempt);
    }

    /** After a call that failed with an attempt error. */
    method Fail(key: Key, mayRetry: bool, e: Env) returns (step: Step)
      requires e.ending.Failed?
      requires billable ==> key in rows && rows[key].stage == DispatchPossible
      modifies this`rows
      ensures Grows(old(rows), rows) && OnlyKey(old(rows), rows, key) && (!billable ==> rows == old(rows))
      ensures billable ==> key in rows
      ensures match step
              case Retry =>
                mayRetry && forall c: Call :: c.key == key && c.ending == e.ending ==> Retried(billable, rows, c)
              case Finish(Success(_, _)) => false
              case Finish(Raised(err)) => err == e.ending.error || err.stage == ResponseLost
              case Finish(Interrupted) => true
              case Finish(Propagated) => false
      ensures !billable || e.record.Committed? ==> step == AfterFailure(billable, mayRetry, e.ending.error, e.waits)
      ensures billable && e.record.Lost? ==> step.Finish? && step.outcome == UsageError(ResponseLost)
      ensures billable && e.record.Cut? ==> step == Finish(Interrupted)
      ensures billable && e.record.Committed? ==>
        var error, row := e.ending.error, old(rows)[key];
        rows[key] == Row(if error.stage == TerminalKnown then ResponseReceived else DispatchPossible, Some(error.code),
                         if mayRetry && error.retryable && error.stage == BeforeDispatch then Some(error.code)
                         else row.retry,
                         if error.requestId.Some? then error.requestId else row.requestId)
    {
      var error := e.ending.error;
      var willRetry := mayRetry && RetryAllowed(billable, error);
      if billable {
        var recorded := MarkStage(key, FailureMark(error, willRetry), e.record);
        if recorded != Recorded {
          return Finish(NotRecorded(recorded, ResponseLost));
        }
      }
      if !willRetry {
        return Finish(Raised(error));
      }
      step := if e.waits then Retry else Finish(Interrupted);
    }

    /** Everything between taking and releasing the concurrency slot. */
    method Attempt(key: Key, attempt: nat, mayRetry: bool, e: Env) returns (step: Step, ghost call: Option<Call>)
      modifies this`rows, this`calls
      ensures calls == if call.Some? then old(calls) + [call.value] else old(calls)
      ensures AttemptDid(billable, mayRetry, key, old(rows), rows, call, step, attempt)
      ensures Smooth(billable, usageConfigured, old(rows), key, e) ==>
        call.Some? && call.value.ending == e.ending && step == AfterCall(billable, mayRetry, e, attempt)
    {
      call := None;
      if billable {
        var refused := Prepare(key, e);
        if refused.Some? {
          return Finish(refused.value), None;
        }
      }
      var made := Call(key, if key in rows then Some(rows[key]) else None, e.ending);
      calls := calls + [made];
      call := Some(made);
      match e.ending
      case CutOff(cancelled) =>
        var code := if cancelled then "search_cancelled_after_dispatch" else "search_deadline_after_dispatch";
        step := Finish(if billable then Raised(AttemptError(SideEffectPossible, false, code, None)) else Interrupted);
      case Escaped => step := Finish(Propagated);
      case Failed(_) => step := Fail(key, mayRetry, e);
      case Answered(_, _) =>
        var o := Succeed(key, attempt, e);
        step := Finish(o);
    }

    /** The attempt loop of one item. */
    method ExecuteAttempts(operation: string, provider: string, item: int, env: nat -> Env) returns (r: Outcome)
      requires maxAttempts >= 1
      modifies this
      ensures |old(calls)| <= |calls| && calls[..|old(calls)|] == old(calls) && slots == old(slots)
      ensures Grows(old(rows), rows) && (!billable ==> rows == old(rows))
      ensures ItemDid(billable, maxAttempts, operation, provider, item, rows, calls[|old(calls)|..], r)
      ensures SmoothFrom(billable, usageConfigured, maxAttempts, old(rows), operation, provider, item, env, 1) ==>
                (r, |calls| - |old(calls)|) == Expected(billable, maxAttempts, env, 1)
    {
      hide ItemDid, AllRetried, AttemptDid, Smooth, AfterCall, OnlyKey, SmoothFrom, Expected, LaterUntouched, Turned,
           Grows;
      var attempt := 1;
      ghost var made: seq<Call> := [];
      ghost var smooth := SmoothFrom(billable, usageConfigured, maxAttempts, rows, operation, provider, item, env, 1);
      NothingRetried(billable, operation, provider, item, rows);
      NothingTouched(rows, operation, provider, item);
      while true
        invariant 1 <= attempt <= maxAttempts && slots == old(slots) && |made| == attempt - 1
        invariant calls == old(calls) + made && Grows(old(rows), rows) && (!billable ==> rows == old(rows))
        invariant AllRetried(billable, operation, provider, item, rows, made)
        invariant LaterUntouched(old(rows), rows, operation, provider, item, attempt)
        invariant smooth ==>
          && SmoothFrom(billable, usageConfigured, maxAttempts, old(rows), operation, provider, item, env, attempt)
          && Expected(billable, maxAttempts, env, 1) == Expected(billable, maxAttempts, env, attempt)
        decreases maxAttempts - attempt
      {
        ghost var before := rows;
        var key := Key(operation, provider, item, attempt);
        var e := env(attempt);
        if smooth {
          ExpectedStep(billable, usageConfigured, maxAttempts, old(rows), operation, provider, item, env, attempt);
        }
        if e.admission != Admitted || e.slot != Granted {
          Appended(old(calls), made);
          TurnedAway(billable, maxAttempts, operation, provider, item, rows, made, e);
          return Turned(e);
        }
        SmoothNow(billable, usageConfigured, old(rows), rows, key, e);
        assert smooth ==> Smooth(billable, usageConfigured, rows, key, e);
        slots := slots + 1;
        var step, call := Attempt(key, attempt, attempt < maxAttempts, e);
        slots := slots - 1;
        AttemptGrows(billable, attempt < maxAttempts, key, before, rows, call, step, attempt);
        GrowsOn(old(rows), before, rows);
        if step.Finish? {
          r := step.outcome;
          ghost var all := if call.Some? then made + [call.value] else made;
          assert calls == old(calls) + all;
          Appended(old(calls), all);
          ItemEnds(billable, maxAttempts, operation, provider, item, before, rows, made, call, r, attempt);
          return;
        }
        OneMoreRetried(billable, attempt < maxAttempts, operation, provider, item, before, rows, made, call, attempt);
        StillUntouched(billable, attempt < maxAttempts, old(rows), before, rows, key, call, step, attempt);
        made := made + [call.value];
        attempt := attempt + 1;
      }
    }
  }

  // ---- what happens when nothing goes wrong around the calls

  /** After a failed call whose record, if any, is committed: a retryable error is retried while attempts are left, a
      billable one only if nothing was dispatched; the wait may run into the deadline. */
  function AfterFailure(billable: bool, mayRetry: bool, error: AttemptError, waits: bool): Step {
    if mayRetry && error.retryable && (billable ==> error.stage == BeforeDispatch)
    then if waits then Retry else Finish(Interrupted)
    else Finish(Raised(error))
  }

  /** After a call whose evidence is committed before and after. */
  function AfterCall(billable: bool, mayRetry: bool, e: Env, attempt: nat): Step {
    match e.ending
    case Answered(result, _) => Finish(Success(result, attempt))
    case Failed(error) => AfterFailure(billable, mayRetry, error, e.waits)
    case CutOff(cancelled) =>
      if !billable then Finish(Interrupted)
      else
        var code := if cancelled then "search_cancelled_after_dispatch" else "search_deadline_after_dispatch";
        Finish(Raised(AttemptError(SideEffectPossible, false, code, None)))
    case Escaped => Finish(Propagated)
  }

  /** The accounting of a billable attempt works: it is configured, the key is new and in range, every commit is
      made. */
  predicate Smooth(billable: bool, usageConfigured: bool, rows: Rows, key: Key, e: Env) {
    billable ==>
      && usageConfigured && key !in rows && 0 <= key.item <= 31 && 1 <= key.attempt <= 16
      && e.start.Committed? && e.dispatch.Committed? && e.record.Committed?
  }

  /** Every attempt that is reached and admitted is smooth. */
  predicate SmoothFrom(billable: bool, usageConfigured: bool, maxAttempts: nat, rows: Rows, operation: string,
                       provider: string, item: int, env: nat -> Env, attempt: nat)
    decreases maxAttempts - attempt
  {
    env(attempt).admission == Admitted && env(attempt).slot == Granted ==>
      && Smooth(billable, usageConfigured, rows, Key(operation, provider, item, attempt), env(attempt))
      && (attempt < maxAttempts && AfterCall(billable, true, env(attempt), attempt).Retry? ==>
            SmoothFrom(billable, usageConfigured, maxAttempts, rows, operation, provider, item, env, attempt + 1))
  }

  /** The outcome of the loop and the number of calls it makes, from this attempt on. */
  function Expected(billable: bool, maxAttempts: nat, env: nat -> Env, attempt: nat): (Outcome, int)
    decreases maxAttempts - attempt
  {
    var e := env(attempt);
    if e.admission != Admitted || e.slot != Granted then (Turned(e), attempt - 1)
    else match AfterCall(billable, attempt < maxAttempts, e, attempt)
         case Finish(o) => (o, attempt)
         case Retry =>
           if attempt < maxAttempts then Expected(billable, maxAttempts, env, attempt + 1) else (Interrupted, attempt)
  }

  /** The keys of this and later attempts are as they were. */
  ghost predicate LaterUntouched(first: Rows, rows: Rows, operation: string, provider: string, item: int,
                                 attempt: nat) {
    forall a :: a >= attempt && Key(operation, provider, item, a) in rows ==> Key(operation, provider, item, a) in first
  }

  lemma Appended(a: seq<Call>, b: seq<Call>)
    ensures (a + b)[..|a|] == a && (a + b)[|a|..] == b
  {}

  lemma NothingTouched(rows: Rows, operation: string, provider: string, item: int)
    ensures LaterUntouched(rows, rows, operation, provider, item, 1) && Grows(rows, rows)
  {}

  lemma GrowsOn(a: Rows, b: Rows, c: Rows)
    requires Grows(a, b) && Grows(b, c)
    ensures Grows(a, c)
  {}

  /** One attempt of the expected course. */
  lemma ExpectedStep(billable: bool, usageConfigured: bool, maxAttempts: nat, rows: Rows, operation: string,
                     provider: string, item: int, env: nat -> Env, attempt: nat)
    requires attempt <= maxAttempts
    requires SmoothFrom(billable, usageConfigured, maxAttempts, rows, operation, provider, item, env, attempt)
    ensures var e := env(attempt);
            var step := AfterCall(billable, attempt < maxAttempts, e, attempt);
            if e.admission != Admitted || e.slot != Granted
            then Expected(billable, maxAttempts, env, attempt) == (Turned(e), attempt - 1)
            else
              && Smooth(billable, usageConfigured, rows, Key(operation, provider, item, attempt), e)
              && (match step
                  case Finish(o) => Expected(billable, maxAttempts, env, attempt) == (o, attempt)
                  case Retry =>
                    && attempt < maxAttempts
                    && SmoothFrom(billable, usageConfigured, maxAttempts, rows, operation, provider, item, env,
                                  attempt + 1)
                    && Expected(billable, maxAttempts, env, attempt)
                       == Expected(billable, maxAttempts, env, attempt + 1))
  {
    hide Smooth, Turned;
  }

  lemma SmoothNow(billable: bool, usageConfigured: bool, first: Rows, rows: Rows, key: Key, e: Env)
    requires 0 <= key.attempt && LaterUntouched(first, rows, key.operation, key.provider, key.item, key.attempt)
    requires !billable ==> rows == first
    ensures Smooth(billable, usageConfigured, first, key, e) ==> Smooth(billable, usageConfigured, rows, key, e)
  {
    assert key == Key(key.operation, key.provider, key.item, key.attempt);
  }

  lemma StillUntouched(billable: bool, mayRetry: bool, first: Rows, before: Rows, rows: Rows, key: Key,
                       call: Option<Call>, step: Step, attempt: nat)
    requires AttemptDid(billable, mayRetry, key, before, rows, call, step, attempt) && key.attempt == attempt
    requires LaterUntouched(first, before, key.operation, key.provider, key.item, attempt)
    ensures LaterUntouched(first, rows, key.operation, key.provider, key.item, attempt + 1)
  {
    hide Grows, CallBacked, Retried, Finished;
  }

  /** An attempt that fails before dispatch with a retryable error, and waits for the next one. */
  predicate RetriesOn(e: Env) {
    && e.admission == Admitted && e.slot == Granted && e.waits
    && e.ending.Failed? && e.ending.error.retryable && e.ending.error.stage == BeforeDispatch
  }

  /** Attempts are repeated until one answers: if all before the k-th fail retryably before dispatch and the k-th
      answers, with the accounting working throughout, then the loop makes k calls and returns that answer. */
  lemma {:induction false} RetriesUntilAnswered(billable: bool, usageConfigured: bool, maxAttempts: nat, rows: Rows,
                                                operation: string, provider: string, item: int, env: nat -> Env,
                                                k: nat, attempt: nat)
    requires 1 <= attempt <= k <= maxAttempts
    requires forall a :: attempt <= a <= k ==>
               Smooth(billable, usageConfigured, rows, Key(operation, provider, item, a), env(a))
    requires forall a :: attempt <= a < k ==> RetriesOn(env(a))
    requires env(k).admission == Admitted && env(k).slot == Granted && env(k).ending.Answered?
    ensures SmoothFrom(billable, usageConfigured, maxAttempts, rows, operation, provider, item, env, attempt)
    ensures Expected(billable, maxAttempts, env, attempt) == (Success(env(k).ending.result, k), k)
    decreases k - attempt
  {
    hide Smooth;
    assert Smooth(billable, usageConfigured, rows, Key(operation, provider, item, attempt), env(attempt));
    if attempt < k {
      assert RetriesOn(env(attempt));
      RetriesUntilAnswered(billable, usageConfigured, maxAttempts, rows, operation, provider, item, env, k,
                           attempt + 1);
    }
  }

  /** What an item that is turned away is told. */
  lemma TurnedMeans(e: Env)
    ensures e.admission == RateLimited ==>
              Turned(e) == Raised(AttemptError(BeforeDispatch, true, "provider_rate_limited", None))
    ensures e.admission == RateUnavailable ==>
              Turned(e) == Raised(AttemptError(BeforeDispatch, true, "search_admission_unavailable", None))
    ensures e.admission == Admitted && e.slot == Full ==>
              Turned(e) == Raised(AttemptError(BeforeDispatch, true, "provider_capacity_unavailable", None))
    ensures e.admission == AdmissionCut || (e.admission == Admitted && e.slot == SlotCut) ==> Turned(e) == Interrupted
  {}

  /** The exit of an attempt that is not admitted. */
  function Turned(e: Env): Outcome {
    match e.admission
    case AdmissionCut => Interrupted
    case RateUnavailable => Early("search_admission_unavailable", true)
    case RateLimited => Early("provider_rate_limited", true)
    case Admitted => if e.slot == Full then Early("provider_capacity_unavailable", true) else Interrupted
  }

  /** All calls so far were those of attempts 1, 2, ..., each backed by evidence and rightly retried. */
  ghost predicate AllRetried(billable: bool, operation: string, provider: string, item: int, rows: Rows,
                             made: seq<Call>) {
    forall i :: 0 <= i < |made| ==>
      && made[i].key == Key(operation, provider, item, i + 1)
      && CallBacked(billable, rows, made[i]) && Retried(billable, rows, made[i])
  }

  /** What the loop guarantees about an item's provider calls and its outcome. */
  ghost predicate ItemDid(billable: bool, maxAttempts: nat, operation: string, provider: string, item: int, rows: Rows,
                          made: seq<Call>, r: Outcome) {
    && |made| <= maxAttempts
    && (forall i :: 0 <= i < |made| ==>
          made[i].key == Key(operation, provider, item, i + 1) && CallBacked(billable, rows, made[i]))
    && (forall i :: 0 <= i < |made| - 1 ==> Retried(billable, rows, made[i]))
    && (match r
        case Success(result, n) =>
          && n == |made| > 0 && made[n - 1].ending.Answered? && made[n - 1].ending.result == result
          && (billable ==> rows[made[n - 1].key].stage == Completed)
        case Raised(e) => billable && e.stage == BeforeDispatch ==> forall c :: c in made ==> !PossiblySent(c)
        case Interrupted => billable ==> forall c :: c in made ==> !c.ending.CutOff?
        case Propagated =>
          && made != [] && made[|made| - 1].ending.Escaped?
          && (billable ==> rows[made[|made| - 1].key].stage == DispatchPossible))
  }

  lemma NothingRetried(billable: bool, operation: string, provider: string, item: int, rows: Rows)
    ensures AllRetried(billable, operation, provider, item, rows, [])
  {}

  lemma AttemptGrows(billable: bool, mayRetry: bool, key: Key, before: Rows, after: Rows, call: Option<Call>,
                     step: Step, attempt: nat)
    requires AttemptDid(billable, mayRetry, key, before, after, call, step, attempt)
    ensures Grows(before, after) && (!billable ==> after == before)
    ensures step.Retry? ==> mayRetry && call.Some?
  {}

  lemma TurnedAway(billable: bool, maxAttempts: nat, operation: string, provider: string, item: int, rows: Rows,
                   made: seq<Call>, e: Env)
    requires AllRetried(billable, operation, provider, item, rows, made) && |made| <= maxAttempts
    ensures ItemDid(billable, maxAttempts, operation, provider, item, rows, made, Turned(e))
  {}

  /** Later attempts have other keys, so the evidence of earlier calls stays as it is. */
  lemma RetriedStay(billable: bool, operation: string, provider: string, item: int, before: Rows, after: Rows,
                    made: seq<Call>, key: Key)
    requires OnlyKey(before, after, key) && key == Key(operation, provider, item, |made| + 1)
    requires AllRetried(billable, operation, provider, item, before, made)
    ensures AllRetried(billable, operation, provider, item, after, made)
  {}

  lemma OneMoreRetried(billable: bool, mayRetry: bool, operation: string, provider: string, item: int, before: Rows,
                       after: Rows, made: seq<Call>, call: Option<Call>, attempt: nat)
    requires attempt == |made| + 1
    requires AttemptDid(billable, mayRetry, Key(operation, provider, item, attempt), before, after, call, Retry,
                        attempt)
    requires AllRetried(billable, operation, provider, item, before, made)
    ensures call.Some? && AllRetried(billable, operation, provider, item, after, made + [call.value])
  {
    RetriedStay(billable, operation, provider, item, before, after, made, Key(operation, provider, item, attempt));
  }

  lemma ItemEnds(billable: bool, maxAttempts: nat, operation: string, provider: string, item: int, before: Rows,
                 after: Rows, made: seq<Call>, call: Option<Call>, r: Outcome, attempt: nat)
    requires attempt == |made| + 1 <= maxAttempts
    requires AttemptDid(billable, attempt < maxAttempts, Key(operation, provider, item, attempt), before, after, call,
                        Finish(r), attempt)
    requires AllRetried(billable, operation, provider, item, before, made)
    ensures ItemDid(billable, maxAttempts, operation, provider, item, after,
                    if call.Some? then made + [call.value] else made, r)
  {
    RetriedStay(billable, operation, provider, item, before, after, made, Key(operation, provider, item, attempt));
  }

  /** A billable item has at most one possibly sent request, and it is the last one. */
  lemma AtMostOneSent(maxAttempts: nat, operation: string, provider: string, item: int, rows: Rows, made: seq<Call>,
                      r: Outcome, i: nat)
    requires ItemDid(true, maxAttempts, operation, provider, item, rows, made, r)
    requires i < |made| && PossiblySent(made[i])
    ensures i == |made| - 1
    ensures !(r.Raised? && r.error.stage == BeforeDispatch)
  {
    assert made[i] in made;
    assert i < |made| - 1 ==> Retried(true, rows, made[i]);
  }
}
