/** Task states: the attempt loop with named-error retry, followed by first-match
    catch. The unit of work is an oracle (`Work`) that, for the context and the
    attempt index, says what the attempt left in the context and how it ended; an
    attempt whose scope expired first ends with the named error TIMEOUT. */
module Tasks {
  import opened Wrappers
  import opened Seqs
  import opened Errors
  import opened States

  /** The error an attempt outcome stands for: none on success, the returned error
      on failure, `ErrTimeout` when the scope expired first. */
  function AttemptError(o: AttemptOutcome): (r: Option<Error>)
    ensures r.None? <==> o.Success?
    ensures o.Failure? ==> r == Some(o.err)
    ensures o.Expired? ==> r == Some(ErrTimeout)
  {
    match o
    case Success => None
    case Failure(e) => Some(e)
    case Expired => Some(ErrTimeout)
  }

  /** Whether a retry rule applies to an error: the error carries a name (found through
      the unwrap chain) and it equals the rule's. Plain errors match nothing. */
  predicate RetryApplies(rule: RetryRule, e: Error)
  {
    NameOf(e) == Some(rule.errorName)
  }

  predicate CatchApplies(rule: CatchRule, e: Error)
  {
    NameOf(e) == Some(rule.errorName)
  }

  /** Index of the retry rule that governs an error: the first that applies. */
  function RetryMatch(retries: seq<RetryRule>, e: Error): Option<nat>
  {
    FirstIndex(retries, (rule: RetryRule) => RetryApplies(rule, e))
  }

  function CatchMatch(catches: seq<CatchRule>, e: Error): Option<nat>
  {
    FirstIndex(catches, (rule: CatchRule) => CatchApplies(rule, e))
  }

  /** The largest retry allowance among the rules (zero when there is none, or when
      all are negative): no attempt index beyond it can be retried. */
  function RetryBudget(retries: seq<RetryRule>): (b: nat)
    ensures forall j :: 0 <= j < |retries| ==> retries[j].maxAttempts <= b
    ensures b == 0 || exists j :: 0 <= j < |retries| && retries[j].maxAttempts == b
  {
    MaxOf(retries, (rule: RetryRule) => rule.maxAttempts, 0)
  }

  /** What the attempt loop ends with: the context, the last attempt's error (None
      when an attempt succeeded), and how many attempts ran. */
  datatype Attempts = Attempts(ctx: Context, err: Option<Error>, count: nat)

  /** The attempt loop from zero-based attempt index `i` on. An attempt that fails is
      retried when the first matching retry rule still allows it (`i < maxAttempts`);
      the loop stops on success, on an error no rule matches, or once `i` reaches the
      matched rule's allowance. Context changes made by failed attempts are kept. */
  function RetryLoop(work: Work, retries: seq<RetryRule>, ctx: Context, i: nat): (r: Attempts)
    requires i <= RetryBudget(retries)
    ensures 1 <= r.count && i + r.count <= RetryBudget(retries) + 1
    ensures r.err.Some? ==>
      RetryMatch(retries, r.err.value).None?
      || i + r.count - 1 >= retries[RetryMatch(retries, r.err.value).value].maxAttempts
    decreases RetryBudget(retries) - i
  {
    var (after, outcome) := work(ctx, i);
    match AttemptError(outcome)
    case None => Attempts(after, None, 1)
    case Some(e) =>
      match RetryMatch(retries, e)
      case None => Attempts(after, Some(e), 1)
      case Some(k) =>
        if i >= retries[k].maxAttempts then Attempts(after, Some(e), 1)
        else
          var rest := RetryLoop(work, retries, after, i + 1);
          Attempts(rest.ctx, rest.err, rest.count + 1)
  }

  /** The context after attempts `i`, `i+1`, ..., `i+n-1`, each starting from what the
      previous one left. */
  function Replay(work: Work, ctx: Context, i: nat, n: nat): Context
    decreases n
  {
    if n == 0 then ctx else Replay(work, work(ctx, i).0, i + 1, n - 1)
  }

  /** The attempt loop runs attempts back to back on the same context: it ends with
      the context that replaying its attempts gives, and with the error of its last
      attempt, unchanged. */
  lemma RetryLoopIsReplay(work: Work, retries: seq<RetryRule>, ctx: Context, i: nat)
    requires i <= RetryBudget(retries)
    ensures var r := RetryLoop(work, retries, ctx, i);
      && r.ctx == Replay(work, ctx, i, r.count)
      && r.err == AttemptError(work(Replay(work, ctx, i, r.count - 1), i + r.count - 1).1)
  {
    RetryLoopContext(work, retries, ctx, i);
    RetryLoopError(work, retries, ctx, i, RetryLoop(work, retries, ctx, i).count - 1);
  }

  /** Failed attempts' changes to the context persist into the next attempt. */
  lemma {:induction false} RetryLoopContext(work: Work, retries: seq<RetryRule>, ctx: Context, i: nat)
    requires i <= RetryBudget(retries)
    ensures var r := RetryLoop(work, retries, ctx, i);
      r.ctx == Replay(work, ctx, i, r.count)
    decreases RetryBudget(retries) - i
  {
    RetryLoopUnfold(work, retries, ctx, i);
    if Retried(work, retries, ctx, i) {
      var after := work(ctx, i).0;
      RetryLoopContext(work, retries, after, i + 1);
      ReplayStep(work, ctx, i, RetryLoop(work, retries, after, i + 1).count);
    } else {
      ReplayStep(work, ctx, i, 0);
    }
  }

  /** The loop's final error is the error of its last attempt (attempt `i + n`, the
      loop having run `n + 1`), passed on unchanged. */
  lemma {:induction false} RetryLoopError(work: Work, retries: seq<RetryRule>, ctx: Context, i: nat, n: nat)
    requires i <= RetryBudget(retries)
    requires RetryLoop(work, retries, ctx, i).count == n + 1
    ensures RetryLoop(work, retries, ctx, i).err == AttemptError(NthAttempt(work, ctx, i, n).1)
    decreases n
  {
    RetryLoopUnfold(work, retries, ctx, i);
    if n > 0 {
      RetryLoopError(work, retries, work(ctx, i).0, i + 1, n - 1);
      NthAttemptStep(work, ctx, i, n - 1);
    }
  }

  /** Attempt `i + n` as the loop runs it: on the context attempts `i` .. `i + n - 1`
      left behind. */
  function NthAttempt(work: Work, ctx: Context, i: nat, n: nat): (Context, AttemptOutcome)
  {
    work(Replay(work, ctx, i, n), i + n)
  }

  lemma NthAttemptStep(work: Work, ctx: Context, i: nat, n: nat)
    ensures NthAttempt(work, ctx, i, n + 1) == NthAttempt(work, work(ctx, i).0, i + 1, n)
  {
    ReplayStep(work, ctx, i, n);
    assert i + (n + 1) == (i + 1) + n;
  }

  /** Every attempt before the last (attempt `i + n` for any `n` below the count
      minus one) failed with an error whose matching retry rule still allowed a retry
      at that attempt index. */
  lemma {:induction false} RetriedBeforeLast(work: Work, retries: seq<RetryRule>, ctx: Context, i: nat, n: nat)
    requires i <= RetryBudget(retries)
    requires n + 1 < RetryLoop(work, retries, ctx, i).count
    ensures Retried(work, retries, Replay(work, ctx, i, n), i + n)
    decreases n
  {
    RetryLoopUnfold(work, retries, ctx, i);
    if n > 0 {
      RetriedBeforeLast(work, retries, work(ctx, i).0, i + 1, n - 1);
    }
    RetriedShift(work, retries, ctx, i, n);
  }

  /** Attempt `i + n` from `ctx` is attempt `(i + 1) + (n - 1)` from what attempt `i` left. */
  lemma RetriedShift(work: Work, retries: seq<RetryRule>, ctx: Context, i: nat, n: nat)
    ensures n == 0 ==> Retried(work, retries, Replay(work, ctx, i, n), i + n) == Retried(work, retries, ctx, i)
    ensures n > 0 ==>
      Retried(work, retries, Replay(work, ctx, i, n), i + n)
        == Retried(work, retries, Replay(work, work(ctx, i).0, i + 1, n - 1), i + 1 + (n - 1))
  {
    if n > 0 {
      ReplayStep(work, ctx, i, n - 1);
    }
  }

  /** One step of the attempt loop: a retried attempt is followed by the loop from
      the next index on the context it left; any other attempt is the last. */
  lemma RetryLoopUnfold(work: Work, retries: seq<RetryRule>, ctx: Context, i: nat)
    requires i <= RetryBudget(retries)
    ensures Retried(work, retries, ctx, i) ==>
      && i + 1 <= RetryBudget(retries)
      && var rest := RetryLoop(work, retries, work(ctx, i).0, i + 1);
         RetryLoop(work, retries, ctx, i) == Attempts(rest.ctx, rest.err, rest.count + 1)
    ensures !Retried(work, retries, ctx, i) ==>
      RetryLoop(work, retries, ctx, i) == Attempts(work(ctx, i).0, AttemptError(work(ctx, i).1), 1)
  {
    var e := AttemptError(work(ctx, i).1);
    if e.Some? && RetryMatch(retries, e.value).Some? {
      var k := RetryMatch(retries, e.value).value;
      assert retries[k].maxAttempts <= RetryBudget(retries);
    }
  }

  /** Attempt `j` on context `c` failed with an error that a retry rule matched while
      that rule still allowed attempt `j` to be retried. */
  ghost predicate Retried(work: Work, retries: seq<RetryRule>, c: Context, j: nat)
  {
    var e := AttemptError(work(c, j).1);
    e.Some? && RetryMatch(retries, e.value).Some?
    && j < retries[RetryMatch(retries, e.value).value].maxAttempts
  }

  lemma ReplayStep(work: Work, ctx: Context, i: nat, n: nat)
    ensures Replay(work, ctx, i, n + 1) == Replay(work, work(ctx, i).0, i + 1, n)
  {
  }

  /** A unit of work that fails every time with the same error, governed by a rule
      allowing `maxAttempts = m` retries, runs exactly `m + 1` times when started at
      attempt 0 (once when `m` is not positive). */
  lemma {:induction false} AlwaysFailingRunsAllowancePlusOne(
    work: Work, retries: seq<RetryRule>, ctx: Context, i: nat, e: Error, k: nat)
    requires forall c, j :: work(c, j).1 == Failure(e)
    requires RetryMatch(retries, e) == Some(k)
    requires i <= RetryBudget(retries)
    ensures RetryLoop(work, retries, ctx, i).count ==
      if i < retries[k].maxAttempts then retries[k].maxAttempts - i + 1 else 1
    ensures RetryLoop(work, retries, ctx, i).err == Some(e)
    decreases RetryBudget(retries) - i
  {
    var after := work(ctx, i).0;
    assert work(ctx, i).1 == Failure(e);
    if i < retries[k].maxAttempts {
      AlwaysFailingRunsAllowancePlusOne(work, retries, after, i + 1, e, k);
    }
  }

  /** How a Task state's execution ends, with the final context and attempt count:
      an attempt succeeded, the final error was caught and redirected to `target`,
      or the final error is raised to the run loop. */
  datatype TaskOutcome =
    | Succeeded(ctx: Context, count: nat)
    | Caught(target: string, ctx: Context, count: nat)
    | Raised(err: Error, ctx: Context, count: nat)

  /** `TaskState.Execute` minus the transition lookup: run the attempt loop, then, on
      a final error, let the first catch rule whose name matches redirect it. */
  function RunTask(work: Work, retries: seq<RetryRule>, catches: seq<CatchRule>, ctx: Context): (r: TaskOutcome)
    ensures var a := RetryLoop(work, retries, ctx, 0);
      && r.ctx == a.ctx && r.count == a.count
      && 1 <= r.count <= RetryBudget(retries) + 1
      && (r.Succeeded? <==> a.err.None?)
      && (r.Raised? ==>
            && a.err == Some(r.err)
            && forall j :: 0 <= j < |catches| ==> NameOf(r.err) != Some(catches[j].errorName))
      && (r.Caught? ==> exists k ::
            && 0 <= k < |catches| && a.err.Some?
            && NameOf(a.err.value) == Some(catches[k].errorName)
            && r.target == catches[k].nextState
            && forall j :: 0 <= j < k ==> NameOf(a.err.value) != Some(catches[j].errorName))
  {
    var a := RetryLoop(work, retries, ctx, 0);
    match a.err
    case None => Succeeded(a.ctx, a.count)
    case Some(e) =>
      match CatchMatch(catches, e)
      case Some(k) => Caught(catches[k].nextState, a.ctx, a.count)
      case None => Raised(e, a.ctx, a.count)
  }

  /** An error without a name (a plain error, or one wrapping only plain errors) is
      neither retried nor caught: the unit of work runs once and the error is raised. */
  lemma UnnamedErrorIsFatal(work: Work, retries: seq<RetryRule>, catches: seq<CatchRule>, ctx: Context, e: Error)
    requires work(ctx, 0).1 == Failure(e)
    requires NameOf(e).None?
    ensures RunTask(work, retries, catches, ctx) == Raised(e, work(ctx, 0).0, 1)
  {
    assert RetryMatch(retries, e).None?;
  }

  /** An attempt whose scope expires is the named error TIMEOUT: when no retry rule
      names "TIMEOUT", the first catch rule for "TIMEOUT" redirects it after that one
      attempt. */
  lemma ExpiryIsCaughtAsTimeout(work: Work, retries: seq<RetryRule>, catches: seq<CatchRule>, ctx: Context, k: nat)
    requires work(ctx, 0).1 == Expired
    requires forall j :: 0 <= j < |retries| ==> retries[j].errorName != "TIMEOUT"
    requires k < |catches| && catches[k].errorName == "TIMEOUT"
    requires forall j :: 0 <= j < k ==> catches[j].errorName != "TIMEOUT"
    ensures RunTask(work, retries, catches, ctx) == Caught(catches[k].nextState, work(ctx, 0).0, 1)
  {
    assert CatchMatch(catches, ErrTimeout) == Some(k);
    assert RetryMatch(retries, ErrTimeout).None?;
  }
}
