/**
 * The life of each command in the daemon is a life of the one-command supervisor, whatever the other commands,
 * the shared channel and the reloads do; so every law of that supervisor holds in the daemon.
 */
module Lifetimes {
  import opened Prelude
  import opened Limiting
  import opened Supervisor
  import opened Machine
  import opened Invariant
  import opened Tokens

  // ---------------------------------------------------------------- refinement

  /** The life of every command is legal, and the command's fields agree with it. */
  lemma LifeIsLegal(s0: State, ls: seq<Step>, s: State, c: nat)
    requires Reached(s0, ls, s) && c < |s.cmds|
    ensures Legal(Boot(s.cmds[c].logged), Log(s, c))
    ensures s.cmds[c].gen < |s.gens|
    ensures Agrees(s.cmds[c], s.gens[s.cmds[c].gen].cancelled, s.now, Replay(Boot(s.cmds[c].logged), Log(s, c)).value)
  {
    ReachedInv(s0, ls, s);
    assert CmdOk(s, c);
  }

  ghost predicate Supervised(s: State, c: nat) {
    || (exists t :: At(s, t) && s.threads[t].cmd == c)
    || (exists k :: 0 <= k < |s.gens| && c in s.gens[k].queue)
  }

  lemma SupervisedIff(s: State, c: nat)
    requires Inv(s) && c < |s.cmds|
    ensures Supervised(s, c) <==> !s.hist[c].loc.Nowhere?
    ensures Legal(Boot(s.cmds[c].logged), Log(s, c))
    ensures Supervised(s, c) <==> !Over(Replay(Boot(s.cmds[c].logged), Log(s, c)).value.phase)
  {
    assert CmdOk(s, c);
    forall t | At(s, t) && s.threads[t].cmd == c ensures s.hist[c].loc == InThread(t) { assert ThreadOk(s, t); }
    forall k | 0 <= k < |s.gens| && c in s.gens[k].queue ensures s.hist[c].loc == InQueue(k) { QueuedAt(s, c, k); }
    match s.hist[c].loc
    case InThread(t) => assert At(s, t) && s.threads[t].cmd == c;
    case InQueue(k) => assert c in s.gens[k].queue;
    case Nowhere =>
  }

  /** The steps that concern command `c`. */
  ghost predicate Concerns(s: State, l: Step, c: nat)
    requires WellFormed(s) && Enabled(s, l)
  {
    match l
    case Tick(_) => false
    case Arm(_) => false
    case Return(_) => false
    case Receive(g) => var q := s.gens[s.gens[g].consumer.k].queue; q != [] && q[0] == c
    case ResetOne(d) => d == c
    case Cancel => c < |s.cmds| && s.cmds[c].gen == s.Cur()
    case Close => false
    case Drain => s.gens[s.Cur()].queue[0] == c
    case NewChannel => false
    case NewContext => false
    case Install(_) => false
    case _ => s.threads[l.t].cmd == c
  }

  /** A step that does not concern a command changes nothing about it. */
  lemma OthersDoNotInterfere(s: State, l: Step, c: nat)
    requires WellFormed(s) && Enabled(s, l) && c < |s.cmds| && !Concerns(s, l, c)
    ensures var s' := Next(s, l);
            c < |s'.cmds| && s'.cmds[c] == s.cmds[c] && c < |s'.hist| && s'.hist[c] == s.hist[c]
  {
  }

  /** Steps that hand commands around or replace the channel: no event of any command. */
  ghost predicate IsSilent(l: Step) {
    || l.Enter? || l.Send? || l.Receive? || l.Arm? || l.Return? || l.Tick?
    || l.Close? || l.NewChannel? || l.NewContext? || l.Install?
  }

  /** Entering, sending, receiving and the steps of consumer, clock and reload leave no trace in any command. */
  lemma ChannelIsInvisible(s: State, l: Step, c: nat)
    requires WellFormed(s) && Enabled(s, l) && c < |s.cmds| && IsSilent(l)
    ensures var s' := Next(s, l);
            c < |s'.cmds| && s'.cmds[c] == s.cmds[c] && Log(s', c) == Log(s, c)
  {
    assert s.hist[c].log + [] == s.hist[c].log;
  }

  // ---------------------------------------------------------------- erasing everything but one command

  /** The event that a step is for command `c`, if it is one; the history is not consulted. */
  ghost function EventsFor(s: State, l: Step, c: nat): seq<Event>
    requires WellFormed(s) && Enabled(s, l)
  {
    if !Concerns(s, l, c) then []
    else
      match l
      case LogFails(_) => [LogFailed(s.now)]
      case Starts(_) => [Started(s.now)]
      case StartFails(_) => [StartFailed(s.now)]
      case WaitReturns(_, _) => [Exited(s.now)]
      case CheckCtx(_) => if s.gens[s.cmds[c].gen].cancelled then [Stopped(s.now)] else [Passed(s.now)]
      case SetTimer(_) => [Delayed(s.now, NextAt(s.cmds[c].limiter, s.now))]
      case Abandon(_) => [Stopped(s.now)]
      case Fire(_, _) => if CanAdd(s.cmds[c].limiter, 1, s.now) then [Granted(s.now)] else [Refused(s.now)]
      case ResetOne(_) => [LimiterReset(s.now)]
      case Cancel => [Canceled(s.now)]
      case Drain => [Stopped(s.now)]
      case _ => []
  }

  /** A run with every step erased that is not an event of command `c`. */
  ghost function Projection(s: State, ls: seq<Step>, c: nat): seq<Event>
    requires Runs(s, ls)
    decreases |ls|
  {
    if ls == [] then []
    else
      var before := ls[..|ls| - 1];
      Projection(s, before, c) + EventsFor(After(s, before), ls[|ls| - 1], c)
  }

  lemma MoveRecords(s: State, l: Step, c: nat)
    requires WellFormed(s) && Enabled(s, l) && IsMove(l) && s.threads[l.t].cmd == c
    ensures EffectOf(s, l).events == EventsFor(s, l, c)
  {
  }

  /** A step adds to each life the event that it is for that command, and nothing else. */
  lemma StepRecords(s: State, l: Step, c: nat)
    requires WellFormed(s) && Enabled(s, l)
    ensures Log(Next(s, l), c) == Log(s, c) + EventsFor(s, l, c)
  {
    if IsMove(l) && s.threads[l.t].cmd == c {
      MoveRecords(s, l, c);
    } else if Concerns(s, l, c) {
      OtherRecords(s, l, c);
    } else if c < |s.cmds| {
      OthersDoNotInterfere(s, l, c);
    } else {
      NothingToRecord(s, l, c);
    }
  }

  lemma OtherRecords(s: State, l: Step, c: nat)
    requires WellFormed(s) && Enabled(s, l) && !IsMove(l) && Concerns(s, l, c)
    ensures Log(Next(s, l), c) == Log(s, c) + EventsFor(s, l, c)
  {
  }

  lemma NothingToRecord(s: State, l: Step, c: nat)
    requires WellFormed(s) && Enabled(s, l) && |s.cmds| <= c
    ensures Log(Next(s, l), c) == [] && EventsFor(s, l, c) == []
  {
    if !l.Install? && !l.NewChannel? {
      SizesStay(s, l);
    }
  }

  /** A step that concerns a command and is not silent is exactly one event, stamped with the clock. */
  lemma OneEventPerStep(s: State, l: Step, c: nat)
    requires WellFormed(s) && Enabled(s, l) && Concerns(s, l, c) && !IsSilent(l)
    ensures |EventsFor(s, l, c)| == 1 && EventsFor(s, l, c)[0].at == s.now
    ensures Log(Next(s, l), c) == Log(s, c) + EventsFor(s, l, c)
  {
    StepRecords(s, l, c);
  }

  /** The life of each command is the projection of the run onto it. */
  lemma {:induction false} LifeIsTheProjection(s0: State, ls: seq<Step>, s: State, c: nat)
    requires Reached(s0, ls, s)
    ensures Log(s, c) == Projection(s0, ls, c)
    decreases |ls|
  {
    if ls == [] {
      assert forall d :: 0 <= d < |s0.cmds| ==> s0.hist[d] == Hist(InThread(d), []);
    } else {
      var before := ls[..|ls| - 1];
      LifeIsTheProjection(s0, before, After(s0, before), c);
      StepRecords(After(s0, before), ls[|ls| - 1], c);
    }
  }

  /**
   * Refinement: erasing from a run everything but the events of one command leaves a legal life of the one-command
   * supervisor.
   */
  lemma ProjectionIsLegal(s0: State, ls: seq<Step>, s: State, c: nat)
    requires Reached(s0, ls, s) && c < |s.cmds|
    ensures Legal(Boot(s.cmds[c].logged), Projection(s0, ls, c))
  {
    LifeIsTheProjection(s0, ls, s, c);
    LifeIsLegal(s0, ls, s, c);
  }

  // ---------------------------------------------------------------- leaving supervision

  /** While its context lives, a command is out of supervision exactly when it was refused or lost its log file. */
  lemma NoCommandIsLost(s0: State, ls: seq<Step>, s: State, c: nat)
    requires Reached(s0, ls, s) && c < |s.cmds|
    ensures s.cmds[c].gen < |s.gens|
    ensures !s.gens[s.cmds[c].gen].cancelled ==>
              (!Supervised(s, c) <==> WasRefused(Log(s, c)) || LostItsLog(Log(s, c)))
  {
    ReachedInv(s0, ls, s);
    assert CmdOk(s, c);
    SupervisedIff(s, c);
    WhyItEnded(Boot(s.cmds[c].logged), Log(s, c));
  }

  /** Apart from resets and the cancellation, only the holder of its token concerns a command. */
  lemma ConcernNeedsToken(s: State, l: Step, c: nat)
    requires Inv(s) && WellFormed(s) && Enabled(s, l) && c < |s.cmds| && Concerns(s, l, c)
    requires !l.ResetOne? && !l.Cancel?
    ensures !s.hist[c].loc.Nowhere?
  {
    if l.Receive? {
      QueuedAt(s, c, s.gens[l.g].consumer.k);
    } else if l.Drain? {
      QueuedAt(s, c, s.Cur());
    } else {
      assert ThreadOk(s, l.t);
    }
  }

  lemma StaysGone(s: State, l: Step, c: nat)
    requires Inv(s) && WellFormed(s) && Enabled(s, l) && c < |s.cmds| && s.hist[c].loc.Nowhere?
    ensures var s' := Next(s, l);
            && c < |s'.cmds| && c < |s'.hist| && s'.hist[c].loc.Nowhere?
            && s'.cmds[c].logged == s.cmds[c].logged
            && Log(s, c) <= Log(s', c)
  {
    if !l.ResetOne? && !l.Cancel? {
      if Concerns(s, l, c) {
        ConcernNeedsToken(s, l, c);
      } else {
        OthersDoNotInterfere(s, l, c);
      }
    }
  }

  lemma {:induction false} GoneIsGone(s: State, more: seq<Step>, c: nat)
    requires Inv(s) && Runs(s, more) && c < |s.cmds| && s.hist[c].loc.Nowhere?
    ensures var s' := After(s, more);
            && c < |s'.cmds| && c < |s'.hist| && s'.hist[c].loc.Nowhere?
            && s'.cmds[c].logged == s.cmds[c].logged
            && Log(s, c) <= Log(s', c)
    decreases |more|
  {
    if more != [] {
      var m := more[..|more| - 1];
      GoneIsGone(s, m, c);
      RunKeeps(s, m);
      StaysGone(After(s, m), more[|more| - 1], c);
    }
  }

  lemma NoMoreAttempts(b: Sup, log: seq<Event>, longer: seq<Event>)
    requires log <= longer && Legal(b, log) && Legal(b, longer) && Over(Replay(b, log).value.phase)
    ensures Attempts(longer) == Attempts(log)
  {
    assert longer == log + longer[|log|..];
    EndIsFinal(b, log, longer[|log|..]);
  }

  /** Once out of supervision a command is never started again: not by a limiter reset, and not by a reload. */
  lemma EndIsAbsorbing(s0: State, ls: seq<Step>, s: State, more: seq<Step>, c: nat)
    requires Reached(s0, ls, s) && c < |s.cmds| && !Supervised(s, c) && Runs(s, more)
    ensures !Supervised(After(s, more), c)
    ensures Attempts(Log(After(s, more), c)) == Attempts(Log(s, c))
  {
    ReachedInv(s0, ls, s);
    SupervisedIff(s, c);
    GoneIsGone(s, more, c);
    RunKeeps(s, more);
    SupervisedIff(After(s, more), c);
    NoMoreAttempts(Boot(s.cmds[c].logged), Log(s, c), Log(After(s, more), c));
  }

  // ---------------------------------------------------------------- restart budget and spacing in the daemon

  lemma BootIsInitial(logged: bool)
    ensures Initial(Boot(logged)) && Fits(Fresh().limit, Fresh().interval)
  {
    SecondFits(5);
  }

  /** With r limiter resets a command is granted at most 5 (r + 1) restarts and started at most once more. */
  lemma DaemonRestartBudget(s0: State, ls: seq<Step>, s: State, c: nat)
    requires Reached(s0, ls, s) && c < |s.cmds|
    ensures Grants(Log(s, c)) <= 5 * (Resets(Log(s, c)) + 1)
    ensures Attempts(Log(s, c)) <= 1 + 5 * (Resets(Log(s, c)) + 1)
    ensures s.cmds[c].limiter.count == |GrantTimes(Log(s, c))| <= 5
  {
    LifeIsLegal(s0, ls, s, c);
    RestartBudget(Boot(s.cmds[c].logged), Log(s, c));
  }

  /** The n-th restart since a reset is granted no earlier than 2^n - 2 seconds after the first. */
  lemma DaemonSpacing(s0: State, ls: seq<Step>, s: State, c: nat, n: nat)
    requires Reached(s0, ls, s) && c < |s.cmds| && 1 <= n <= |GrantTimes(Log(s, c))|
    ensures GrantTimes(Log(s, c))[n - 1] >= GrantTimes(Log(s, c))[0] + (Pow2(n) - 2) * SECOND
  {
    LifeIsLegal(s0, ls, s, c);
    BootIsInitial(s.cmds[c].logged);
    ExponentialSpacing(Boot(s.cmds[c].logged), Log(s, c), n);
  }

  /** A timer set since a restart rings exactly 2^n seconds after the last of the n restarts since the last reset. */
  lemma WakesAfter2ToTheN(s0: State, ls: seq<Step>, s: State, t: nat)
    requires Reached(s0, ls, s) && At(s, t) && s.threads[t].pc.Waiting?
    ensures var times := GrantTimes(Log(s, s.threads[t].cmd));
            times != [] ==> s.threads[t].pc.wake == times[|times| - 1] + Pow2(|times|) * 1_000_000_000
  {
    ReachedInv(s0, ls, s);
    var c := s.threads[t].cmd;
    assert ThreadOk(s, t) && CmdOk(s, c);
    BootIsInitial(s.cmds[c].logged);
    SpacingInvariant(Boot(s.cmds[c].logged), Log(s, c));
  }

  /** The first timer of a command, and the first since a reset, rings at once. */
  lemma FirstTimerRingsAtOnce(s0: State, ls: seq<Step>, s: State, t: nat)
    requires Reached(s0, ls, s) && WellFormed(s) && Enabled(s, SetTimer(t))
    ensures GrantTimes(Log(s, s.threads[t].cmd)) == [] ==>
              var m := Next(s, SetTimer(t)); m.threads[t].pc.Waiting? && m.threads[t].pc.wake == s.now
  {
    ReachedInv(s0, ls, s);
    var c := s.threads[t].cmd;
    assert CmdOk(s, c);
    BootIsInitial(s.cmds[c].logged);
    SpacingInvariant(Boot(s.cmds[c].logged), Log(s, c));
  }

  lemma RefusalIsLogged(s: State, t: nat, look: Str)
    requires Inv(s) && WellFormed(s) && Enabled(s, Fire(t, look))
    requires Next(s, Fire(t, look)).threads[t].pc.Finished?
    ensures Log(Next(s, Fire(t, look)), s.threads[t].cmd) == Log(s, s.threads[t].cmd) + [Refused(s.now)]
    ensures Legal(Boot(s.cmds[s.threads[t].cmd].logged), Log(s, s.threads[t].cmd) + [Refused(s.now)])
  {
    var c, m := s.threads[t].cmd, Next(s, Fire(t, look));
    StepKeeps(s, Fire(t, look));
    assert CmdOk(m, c);
  }

  /** The daemon gives a command up only after five restarts since a reset, at least 62 seconds after the first. */
  lemma GivesUpAfter62Seconds(s0: State, ls: seq<Step>, s: State, t: nat, look: Str)
    requires Reached(s0, ls, s) && WellFormed(s) && Enabled(s, Fire(t, look))
    requires Next(s, Fire(t, look)).threads[t].pc.Finished?
    ensures var times := GrantTimes(Log(s, s.threads[t].cmd));
            |times| == 5 && s.now >= times[0] + 62 * SECOND
  {
    var c := s.threads[t].cmd;
    ReachedInv(s0, ls, s);
    RefusalIsLogged(s, t, look);
    hide Inv, Enabled, Next;
    BootIsInitial(s.cmds[c].logged);
    GivesUpLate(Boot(s.cmds[c].logged), Log(s, c), Refused(s.now));
    assert Pow2(6) == 64;
  }

  // ---------------------------------------------------------------- after cancellation

  /** Once its context is cancelled, a command is started at most once more. */
  lemma AtMostOneStartAfterCancel(s0: State, ls: seq<Step>, s: State, c: nat)
    requires Reached(s0, ls, s) && c < |s.cmds|
    ensures s.cmds[c].gen < |s.gens|
    ensures s.gens[s.cmds[c].gen].cancelled ==> LateAttempts(Log(s, c)) <= 1 && LateEvents(Log(s, c)) <= 5
  {
    LifeIsLegal(s0, ls, s, c);
    if s.gens[s.cmds[c].gen].cancelled {
      AtMostOneLateStart(Boot(s.cmds[c].logged), Log(s, c));
    }
  }
}
