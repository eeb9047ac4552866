/**
 * The supervisor of a single command, as if it had the daemon to itself: start, exit, wait out the delay,
 * then spend one restart or stop for good. It knows nothing of channels, goroutines or other commands.
 *
 * A command's life is the log of its events; `Replay` runs the supervisor over a log and fails on an illegal one.
 */
module Supervisor {
  import opened Prelude
  import opened Limiting

  datatype Event =
    | LogFailed(at: int)             // the log file could not be opened, so nothing is started
    | Started(at: int)
    | StartFailed(at: int)
    | Exited(at: int)                // clean or not
    | Passed(at: int)                // the context was seen alive after the exit
    | Delayed(at: int, wake: int)    // the back-off goroutine set its timer
    | Granted(at: int)               // the limiter granted a restart
    | Refused(at: int)               // the limiter refused: restart limit reached
    | LimiterReset(at: int)
    | Canceled(at: int)              // the generation's context was cancelled
    | Stopped(at: int)               // supervision ended because of the cancellation

  datatype Phase =
    | Ready
    | Up
    | Ended                          // attempt over, context not yet checked
    | Pending                        // on its way to a back-off goroutine
    | Delaying(wake: int)
    | GaveUp
    | NoLog
    | Halted

  /** `logged` says whether the command writes a log file, without which opening it cannot fail. */
  datatype Sup = Sup(phase: Phase, limiter: LState, now: int, cancelled: bool, logged: bool)

  predicate Over(p: Phase) {
    p.GaveUp? || p.NoLog? || p.Halted?
  }

  predicate Allows(b: Sup, e: Event) {
    && b.now <= e.at
    && match e
       case LogFailed(_) => b.phase.Ready? && b.logged
       case Started(_) => b.phase.Ready?
       case StartFailed(_) => b.phase.Ready?
       case Exited(_) => b.phase.Up?
       case Passed(_) => b.phase.Ended? && !b.cancelled
       case Delayed(at, wake) => b.phase.Pending? && wake == NextAt(b.limiter, at)
       case Granted(at) => b.phase.Delaying? && b.phase.wake <= at && CanAdd(b.limiter, 1, at)
       case Refused(at) => b.phase.Delaying? && b.phase.wake <= at && !CanAdd(b.limiter, 1, at)
       case LimiterReset(_) => true
       case Canceled(_) => !b.cancelled
       case Stopped(_) => b.cancelled && (b.phase.Ended? || b.phase.Pending? || b.phase.Delaying?)
  }

  function Apply(b: Sup, e: Event): Sup {
    var c := b.(now := e.at);
    match e
    case LogFailed(_) => c.(phase := NoLog)
    case Started(_) => c.(phase := Up)
    case StartFailed(_) => c.(phase := Ended)
    case Exited(_) => c.(phase := Ended)
    case Passed(_) => c.(phase := Pending)
    case Delayed(_, wake) => c.(phase := Delaying(wake))
    case Granted(at) => c.(phase := Ready, limiter := Add(b.limiter, 1, at))
    case Refused(_) => c.(phase := GaveUp)
    case LimiterReset(_) => c.(limiter := Cleared(b.limiter))
    case Canceled(_) => c.(cancelled := true)
    case Stopped(_) => c.(phase := Halted)
  }

  function Replay(b: Sup, log: seq<Event>): Option<Sup> {
    if log == [] then Some(b)
    else
      match Replay(b, log[..|log| - 1])
      case None => None
      case Some(r) => if Allows(r, log[|log| - 1]) then Some(Apply(r, log[|log| - 1])) else None
  }

  ghost predicate Legal(b: Sup, log: seq<Event>) {
    Replay(b, log).Some?
  }

  lemma ReplaySnoc(b: Sup, log: seq<Event>, e: Event)
    ensures Replay(b, log + [e]) ==
            match Replay(b, log)
            case None => None
            case Some(r) => if Allows(r, e) then Some(Apply(r, e)) else None
  {
    assert (log + [e])[..|log + [e]| - 1] == log;
  }

  function Boot(logged: bool): Sup {
    Sup(Ready, Fresh(), 1, false, logged)
  }

  /** A command whose supervision has not begun, with any limiter that has spent nothing. */
  ghost predicate Initial(b: Sup) {
    && b.phase.Ready?
    && !b.cancelled
    && b.now > 0
    && b.limiter.count == 0 && b.limiter.last == 0
    && b.limiter.limit >= 0 && b.limiter.interval > 0
  }

  // ---------------------------------------------------------------- counting events

  function Grants(log: seq<Event>): nat {
    if log == [] then 0 else Grants(log[..|log| - 1]) + if log[|log| - 1].Granted? then 1 else 0
  }

  function Resets(log: seq<Event>): nat {
    if log == [] then 0 else Resets(log[..|log| - 1]) + if log[|log| - 1].LimiterReset? then 1 else 0
  }

  /** Calls to `Start`, successful or not. */
  function Attempts(log: seq<Event>): nat {
    if log == [] then 0
    else Attempts(log[..|log| - 1]) + if log[|log| - 1].Started? || log[|log| - 1].StartFailed? then 1 else 0
  }

  /** The times of the restarts granted since the last reset. */
  function GrantTimes(log: seq<Event>): seq<int> {
    if log == [] then []
    else
      var e := log[|log| - 1];
      if e.LimiterReset? then [] else GrantTimes(log[..|log| - 1]) + if e.Granted? then [e.at] else []
  }

  /** Calls to `Start` after the cancellation. */
  function LateAttempts(log: seq<Event>): nat {
    if log == [] then 0
    else
      var e := log[|log| - 1];
      if e.Canceled? then 0
      else LateAttempts(log[..|log| - 1]) + if e.Started? || e.StartFailed? then 1 else 0
  }

  /** Events of the command itself after the cancellation; a limiter reset is not one. */
  function LateEvents(log: seq<Event>): nat {
    if log == [] then 0
    else
      var e := log[|log| - 1];
      if e.Canceled? then 0 else LateEvents(log[..|log| - 1]) + if e.LimiterReset? then 0 else 1
  }

  function Rank(p: Phase): nat {
    match p
    case Pending => 5
    case Delaying(_) => 4
    case Ready => 3
    case Up => 2
    case Ended => 1
    case _ => 0
  }

  // ---------------------------------------------------------------- restart budget

  lemma {:induction false} Accounting(b: Sup, log: seq<Event>)
    requires Initial(b) && Legal(b, log)
    ensures var r := Replay(b, log).value;
            && r.limiter.limit == b.limiter.limit && r.limiter.interval == b.limiter.interval
            && r.now >= b.now && r.logged == b.logged
            && Sane(r.limiter) && r.limiter.last <= r.now
            && r.limiter.count == |GrantTimes(log)|
  {
    if log != [] {
      Accounting(b, log[..|log| - 1]);
    }
  }

  /** Every start but the first was granted; a command about to start, or without log, has not used its last grant. */
  lemma {:induction false} StartsAreGranted(b: Sup, log: seq<Event>)
    requires Initial(b) && Legal(b, log)
    ensures var r := Replay(b, log).value;
            Attempts(log) + (if r.phase.Ready? || r.phase.NoLog? then 1 else 0) == 1 + Grants(log)
  {
    if log != [] {
      StartsAreGranted(b, log[..|log| - 1]);
    }
  }

  /** `limit` restarts for each of `k` periods. */
  function Allowance(limit: nat, k: nat): nat {
    if k == 0 then 0 else Allowance(limit, k - 1) + limit
  }

  lemma {:induction false} BudgetInvariant(b: Sup, log: seq<Event>)
    requires Initial(b) && Legal(b, log)
    ensures Grants(log) <= Allowance(b.limiter.limit, Resets(log)) + |GrantTimes(log)|
  {
    if log != [] {
      BudgetInvariant(b, log[..|log| - 1]);
      Accounting(b, log[..|log| - 1]);
    }
  }

  lemma {:induction false} AllowanceIsProduct(limit: nat, k: nat)
    ensures Allowance(limit, k) == limit * k
  {
    if k > 0 {
      AllowanceIsProduct(limit, k - 1);
    }
  }

  /** With r limiter resets a command is granted at most limit * (r + 1) restarts, and started at most once more. */
  lemma RestartBudget(b: Sup, log: seq<Event>)
    requires Initial(b) && Legal(b, log)
    ensures Grants(log) <= b.limiter.limit * (Resets(log) + 1)
    ensures Attempts(log) <= 1 + b.limiter.limit * (Resets(log) + 1)
    ensures Replay(b, log).value.limiter.count == |GrantTimes(log)| <= b.limiter.limit
  {
    Accounting(b, log);
    StartsAreGranted(b, log);
    BudgetInvariant(b, log);
    AllowanceIsProduct(b.limiter.limit, Resets(log) + 1);
  }

  // ---------------------------------------------------------------- exponential spacing

  ghost predicate Spaced(times: seq<int>, interval: int) {
    forall i :: 0 < i < |times| ==> times[i] >= times[i - 1] + Pow2(i) * interval
  }

  lemma {:induction false} SpacingInvariant(b: Sup, log: seq<Event>)
    requires Initial(b) && Fits(b.limiter.limit, b.limiter.interval) && Legal(b, log)
    ensures Spaced(GrantTimes(log), b.limiter.interval)
    ensures var r := Replay(b, log).value;
            var times := GrantTimes(log);
            && (times == [] <==> r.limiter.last == 0)
            && (times != [] ==> r.limiter.last == times[|times| - 1])
            && (r.phase.Delaying? && times != [] ==>
                  r.phase.wake == r.limiter.last + Pow2(|times|) * b.limiter.interval)
  {
    if log != [] {
      var before := log[..|log| - 1];
      var e := log[|log| - 1];
      SpacingInvariant(b, before);
      Accounting(b, before);
      var r := Replay(b, before).value;
      if e.Delayed? {
        NextDoubles(r.limiter, e.at);
      } else if e.Granted? {
        SpacedSnoc(GrantTimes(before), e.at, b.limiter.interval);
      }
    }
  }

  lemma NextDoubles(l: LState, now: int)
    requires Sane(l) && Fits(l.limit, l.interval)
    ensures l.last != 0 ==> NextAt(l, now) == l.last + Pow2(l.count) * l.interval
  {
    DelayExact(l.count, l.limit, l.interval);
  }

  lemma SpacedSnoc(times: seq<int>, at: int, interval: int)
    requires Spaced(times, interval)
    requires times != [] ==> at >= times[|times| - 1] + Pow2(|times|) * interval
    ensures Spaced(times + [at], interval)
  {
  }

  lemma DoublingStep(p: int, interval: int)
    ensures (p - 2) * interval + p * interval == (2 * p - 2) * interval
  {
  }

  lemma {:induction false} SpacingAddsUp(times: seq<int>, interval: int, i: nat)
    requires Spaced(times, interval) && i < |times|
    ensures times[i] >= times[0] + (Pow2(i + 1) - 2) * interval
  {
    if i > 0 {
      SpacingAddsUp(times, interval, i - 1);
      DoublingStep(Pow2(i), interval);
    } else {
      assert Pow2(1) == 2;
    }
  }

  /** The n-th restart granted since the last reset comes no earlier than the first plus (2^n - 2) intervals. */
  lemma ExponentialSpacing(b: Sup, log: seq<Event>, n: nat)
    requires Initial(b) && Fits(b.limiter.limit, b.limiter.interval) && Legal(b, log)
    requires 1 <= n <= |GrantTimes(log)|
    ensures GrantTimes(log)[n - 1] >= GrantTimes(log)[0] + (Pow2(n) - 2) * b.limiter.interval
  {
    SpacingInvariant(b, log);
    SpacingAddsUp(GrantTimes(log), b.limiter.interval, n - 1);
  }

  /** It gives up with its whole budget spent, no earlier than the first grant plus 2^(limit+1) - 2 intervals. */
  lemma GivesUpLate(b: Sup, log: seq<Event>, e: Event)
    requires Initial(b) && Fits(b.limiter.limit, b.limiter.interval) && b.limiter.limit >= 1
    requires Legal(b, log + [e]) && e.Refused?
    ensures |GrantTimes(log)| == b.limiter.limit
    ensures e.at >= GrantTimes(log)[0] + (Pow2(b.limiter.limit + 1) - 2) * b.limiter.interval
  {
    ReplaySnoc(b, log, e);
    Accounting(b, log);
    SpacingInvariant(b, log);
    var r := Replay(b, log).value;
    AddAcceptsExactlyInRange(r.limiter, 1, e.at);
    assert r.limiter.count == b.limiter.limit;
    var n := b.limiter.limit;
    var times := GrantTimes(log);
    assert |times| == n;
    SpacingAddsUp(times, b.limiter.interval, n - 1);
    DoublingStep(Pow2(n), b.limiter.interval);
  }

  // ---------------------------------------------------------------- after cancellation

  lemma {:induction false} LateInvariant(b: Sup, log: seq<Event>)
    requires Initial(b) && Legal(b, log)
    ensures var r := Replay(b, log).value;
            r.cancelled ==>
              && LateEvents(log) + Rank(r.phase) <= 5
              && LateAttempts(log) + (if Rank(r.phase) >= 3 then 1 else 0) <= 1
  {
    if log != [] {
      LateInvariant(b, log[..|log| - 1]);
    }
  }

  /** Once cancelled, a command is started at most once more and lives through at most five more events. */
  lemma AtMostOneLateStart(b: Sup, log: seq<Event>)
    requires Initial(b) && Legal(b, log) && Replay(b, log).value.cancelled
    ensures LateAttempts(log) <= 1
    ensures LateEvents(log) <= 5
  {
    LateInvariant(b, log);
  }

  // ---------------------------------------------------------------- starts after the cancellation, exactly

  /** What the supervisor was doing when it may still start the command after the cancellation. */
  predicate MayStillStart(b: Sup) {
    b.phase.Ready? || (b.limiter.limit >= 1 && (b.phase.Pending? || b.phase.Delaying?))
  }

  lemma AttemptsSnoc(log: seq<Event>, e: Event)
    ensures Attempts(log + [e]) == Attempts(log) + if e.Started? || e.StartFailed? then 1 else 0
  {
    assert (log + [e])[..|log + [e]| - 1] == log;
  }

  /** Once it is cancelled and can no longer start the command, no event changes that. */
  lemma {:induction false} NoMoreStarts(b: Sup, log: seq<Event>, more: seq<Event>)
    requires Initial(b) && Legal(b, log) && Legal(b, log + more)
    requires Replay(b, log).value.cancelled && !MayStillStart(Replay(b, log).value)
    ensures Attempts(log + more) == Attempts(log)
    ensures Replay(b, log + more).value.cancelled && !MayStillStart(Replay(b, log + more).value)
    decreases |more|
  {
    if more == [] {
      assert log + more == log;
    } else {
      var m, e := more[..|more| - 1], more[|more| - 1];
      assert log + more == (log + m) + [e];
      ReplaySnoc(b, log + m, e);
      NoMoreStarts(b, log, m);
      Accounting(b, log + m);
      AttemptsSnoc(log + m, e);
    }
  }

  /** One more event. */
  lemma OneMoreEvent(b: Sup, log: seq<Event>, more: seq<Event>, e: Event)
    requires Legal(b, log + more) && Allows(Replay(b, log + more).value, e)
    ensures Replay(b, log + (more + [e])) == Some(Apply(Replay(b, log + more).value, e))
    ensures Attempts(log + (more + [e])) == Attempts(log + more) + if e.Started? || e.StartFailed? then 1 else 0
  {
    assert log + (more + [e]) == (log + more) + [e];
    ReplaySnoc(b, log + more, e);
    AttemptsSnoc(log + more, e);
  }

  /** With its limiter reset, a command that waits for a restart gets it. */
  lemma UpToReady(b: Sup, log: seq<Event>) returns (more: seq<Event>)
    requires Initial(b) && Legal(b, log) && MayStillStart(Replay(b, log).value)
    ensures Legal(b, log + more) && Replay(b, log + more).value.phase.Ready? && Attempts(log + more) == Attempts(log)
  {
    var r := Replay(b, log).value;
    Accounting(b, log);
    more := [];
    assert log + more == log;
    if !r.phase.Ready? {
      var at := if r.phase.Delaying? && r.phase.wake > r.now then r.phase.wake else r.now;
      OneMoreEvent(b, log, more, LimiterReset(at));
      more := more + [LimiterReset(at)];
      if r.phase.Pending? {
        OneMoreEvent(b, log, more, Delayed(at, at));
        more := more + [Delayed(at, at)];
      }
      OneMoreEvent(b, log, more, Granted(at));
      more := more + [Granted(at)];
    }
  }

  /** After the cancellation a command can be started once more exactly from these phases. */
  lemma LateStartIff(b: Sup, log: seq<Event>)
    requires Initial(b) && Legal(b, log) && Replay(b, log).value.cancelled
    ensures (exists more :: Legal(b, log + more) && Attempts(log + more) > Attempts(log)) <==>
            MayStillStart(Replay(b, log).value)
  {
    if MayStillStart(Replay(b, log).value) {
      var more := UpToReady(b, log);
      var at := Replay(b, log + more).value.now;
      OneMoreEvent(b, log, more, Started(at));
      assert Legal(b, log + (more + [Started(at)]));
    } else if more :| Legal(b, log + more) && Attempts(log + more) > Attempts(log) {
      NoMoreStarts(b, log, more);
    }
  }

  // ---------------------------------------------------------------- leaving supervision

  ghost predicate WasRefused(log: seq<Event>) {
    exists i :: 0 <= i < |log| && log[i].Refused?
  }

  ghost predicate LostItsLog(log: seq<Event>) {
    exists i :: 0 <= i < |log| && log[i].LogFailed?
  }

  ghost predicate WasStopped(log: seq<Event>) {
    exists i :: 0 <= i < |log| && log[i].Stopped?
  }

  ghost predicate WasCanceled(log: seq<Event>) {
    exists i :: 0 <= i < |log| && log[i].Canceled?
  }

  lemma SnocKeepsWitnesses(log: seq<Event>, e: Event)
    ensures WasRefused(log + [e]) <==> WasRefused(log) || e.Refused?
    ensures LostItsLog(log + [e]) <==> LostItsLog(log) || e.LogFailed?
    ensures WasStopped(log + [e]) <==> WasStopped(log) || e.Stopped?
    ensures WasCanceled(log + [e]) <==> WasCanceled(log) || e.Canceled?
  {
    var more := log + [e];
    assert more[|log|] == e;
    assert forall i :: 0 <= i < |log| ==> more[i] == log[i];
  }

  /** A command has ended exactly when its log holds the event that ends supervision, and in the state of that event. */
  lemma {:induction false} WhyItEnded(b: Sup, log: seq<Event>)
    requires Initial(b) && Legal(b, log)
    ensures var r := Replay(b, log).value;
            && (r.phase.GaveUp? <==> WasRefused(log))
            && (r.phase.NoLog? <==> LostItsLog(log))
            && (r.phase.Halted? <==> WasStopped(log))
            && (r.phase.Halted? ==> r.cancelled)
            && (r.cancelled <==> WasCanceled(log))
  {
    if log != [] {
      var before := log[..|log| - 1];
      WhyItEnded(b, before);
      assert log == before + [log[|log| - 1]];
      SnocKeepsWitnesses(before, log[|log| - 1]);
    }
  }

  /** Giving up, a failed log file and a stop are final: no later event changes them, a limiter reset included. */
  lemma {:induction false} EndIsFinal(b: Sup, log: seq<Event>, more: seq<Event>)
    requires Legal(b, log) && Legal(b, log + more) && Over(Replay(b, log).value.phase)
    ensures Replay(b, log + more).value.phase == Replay(b, log).value.phase
    ensures Attempts(log + more) == Attempts(log) && Grants(log + more) == Grants(log)
    decreases |more|
  {
    if more == [] {
      assert log + more == log;
    } else {
      var m := more[..|more| - 1];
      assert (log + more)[..|log + more| - 1] == log + m;
      EndIsFinal(b, log, m);
    }
  }
}
