/** Which commands can still be started after their context has been cancelled: an exact answer in every state. */
module LateStarts {
  import opened Limiting
  import opened Supervisor
  import opened Machine
  import opened Invariant
  import opened Tokens
  import opened Lifetimes
  import opened Draining

  /** Some consumer has the current channel in hand, or will read it next. */
  ghost predicate HasTaker(s: State) {
    exists g :: CanTake(s, g)
  }

  ghost predicate CanTake(s: State, g: nat) {
    && g < |s.gens|
    && (s.gens[g].consumer.Looping? || (s.gens[g].consumer.Selecting? && s.gens[g].consumer.k == s.Cur()))
  }

  /** A goroutine for command `c` before its `Start`, or in the back-off. */
  ghost predicate BeforeStart(s: State, c: nat, t: nat) {
    && At(s, t) && s.threads[t].cmd == c
    && var pc := s.threads[t].pc; pc.Entering? || pc.Launching? || pc.Spawned? || pc.Waiting?
  }

  /** A goroutine for command `c` about to send on the current channel. */
  ghost predicate BeforeSend(s: State, c: nat, t: nat) {
    && At(s, t) && s.threads[t].cmd == c && s.threads[t].pc.Sending? && s.threads[t].pc.ch == s.Cur()
    && s.gens != [] && !s.gens[s.Cur()].closed
  }

  /**
   * The command's goroutine is on its way to `Start` or in the back-off, or the command is in the current channel, or
   * about to be sent there while it is open, and a consumer is left to take it.
   */
  ghost predicate MayStart(s: State, c: nat) {
    || (exists t :: BeforeStart(s, c, t))
    || (HasTaker(s) && s.gens != [] && c in s.gens[s.Cur()].queue)
    || (HasTaker(s) && exists t :: BeforeSend(s, c, t))
  }

  /** Some run starts command `c` once more. */
  ghost predicate StartsAgain(s: State, c: nat) {
    exists m :: Reaches(s, m) && Attempts(Log(m, c)) > Attempts(Log(s, c))
  }

  ghost predicate Live(s: State, c: nat) {
    Inv(s) && WellFormed(s) && !s.crashed && c < |s.cmds|
  }

  // ---------------------------------------------------------------- a run that starts it

  lemma StartsLater(s: State, m: State, c: nat)
    requires Reaches(s, m) && Attempts(Log(m, c)) == Attempts(Log(s, c)) && StartsAgain(m, c)
    ensures StartsAgain(s, c)
  {
    var n :| Reaches(m, n) && Attempts(Log(n, c)) > Attempts(Log(m, c));
    ReachesTransitive(s, m, n);
  }

  /** A step that does not start the command. */
  lemma StepThenStarts(s: State, l: Step, c: nat)
    requires WellFormed(s) && Enabled(s, l) && !l.Starts? && !l.StartFails? && StartsAgain(Next(s, l), c)
    ensures StartsAgain(s, c)
  {
    StepRecords(s, l, c);
    NoAttempt(s, l, c);
    LeadsNowhere(s);
    ReachesOn(s, s, l);
    StartsLater(s, Next(s, l), c);
  }

  lemma NoAttempt(s: State, l: Step, c: nat)
    requires WellFormed(s) && Enabled(s, l) && !l.Starts? && !l.StartFails?
    ensures Attempts(Log(s, c) + EventsFor(s, l, c)) == Attempts(Log(s, c))
  {
    var log, events := Log(s, c), EventsFor(s, l, c);
    if events == [] {
      assert log + events == log;
    } else {
      OneEvent(s, l, c);
      AttemptsSnoc(log, events[0]);
    }
  }

  lemma OneEvent(s: State, l: Step, c: nat)
    requires WellFormed(s) && Enabled(s, l) && EventsFor(s, l, c) != []
    ensures EventsFor(s, l, c) == [EventsFor(s, l, c)[0]]
    ensures EventsFor(s, l, c)[0].Started? || EventsFor(s, l, c)[0].StartFailed? ==> l.Starts? || l.StartFails?
    ensures l.Starts? ==> EventsFor(s, l, c)[0].Started?
  {
  }

  lemma FromLaunching(s: State, c: nat, t: nat)
    requires Live(s, c) && At(s, t) && s.threads[t].cmd == c && s.threads[t].pc.Launching?
    ensures StartsAgain(s, c)
  {
    StepRecords(s, Starts(t), c);
    OneEvent(s, Starts(t), c);
    AttemptsSnoc(Log(s, c), Started(s.now));
    LeadsNowhere(s);
    ReachesOn(s, s, Starts(t));
  }

  lemma FromEntering(s: State, c: nat, t: nat)
    requires Live(s, c) && At(s, t) && s.threads[t].cmd == c && s.threads[t].pc.Entering?
    ensures StartsAgain(s, c)
  {
    StepKeeps(s, Enter(t));
    FromLaunching(Next(s, Enter(t)), c, t);
    StepThenStarts(s, Enter(t), c);
  }

  /** With its limiter reset and its time come, a command in the back-off is granted its restart. */
  lemma FromTimer(s: State, c: nat, t: nat)
    requires Live(s, c) && At(s, t) && s.threads[t].cmd == c && s.threads[t].pc.Waiting?
    requires s.threads[t].pc.wake <= s.now && s.cmds[c].limiter.last == 0 && s.cmds[c].limiter.count == 0
    ensures StartsAgain(s, c)
  {
    var l := Fire(t, s.cmds[c].exe.path);
    assert CmdOk(s, c);
    Accounting(Boot(s.cmds[c].logged), Log(s, c));
    assert CanAdd(s.cmds[c].limiter, 1, s.now);
    StepKeeps(s, l);
    FromEntering(Next(s, l), c, t);
    StepThenStarts(s, l, c);
  }

  lemma FromWaiting(s: State, c: nat, t: nat)
    requires Live(s, c) && At(s, t) && s.threads[t].cmd == c && s.threads[t].pc.Waiting?
    ensures StartsAgain(s, c)
  {
    var wake := s.threads[t].pc.wake;
    var tick := Tick(if wake <= s.now then s.now else wake);
    StepKeeps(s, tick);
    var a := Next(s, tick);
    StepKeeps(a, ResetOne(c));
    FromTimer(Next(a, ResetOne(c)), c, t);
    StepThenStarts(a, ResetOne(c), c);
    StepThenStarts(s, tick, c);
  }

  lemma FromSpawned(s: State, c: nat, t: nat)
    requires Live(s, c) && At(s, t) && s.threads[t].cmd == c && s.threads[t].pc.Spawned?
    ensures StartsAgain(s, c)
  {
    StepKeeps(s, SetTimer(t));
    FromWaiting(Next(s, SetTimer(t)), c, t);
    StepThenStarts(s, SetTimer(t), c);
  }

  lemma FromBeforeStart(s: State, c: nat, t: nat)
    requires Live(s, c) && BeforeStart(s, c, t)
    ensures StartsAgain(s, c)
  {
    if s.threads[t].pc.Launching? {
      FromLaunching(s, c, t);
    } else if s.threads[t].pc.Entering? {
      FromEntering(s, c, t);
    } else if s.threads[t].pc.Waiting? {
      FromWaiting(s, c, t);
    } else {
      FromSpawned(s, c, t);
    }
  }

  /** A consumer that can serve the current channel gets there. */
  lemma ArmNext(s: State, g: nat)
    requires Inv(s) && WellFormed(s) && !s.crashed && CanTake(s, g) && s.gens[g].consumer.Looping?
    ensures Enabled(s, Arm(g))
    ensures var m := Next(s, Arm(g));
            && m.gens[g].consumer.Selecting? && CanTake(m, g) && !m.crashed && |m.gens| == |s.gens|
            && m.threads == s.threads && m.cmds == s.cmds
            && m.gens[m.Cur()].queue == s.gens[s.Cur()].queue && m.gens[m.Cur()].closed == s.gens[s.Cur()].closed
  {
  }

  lemma TakeNext(s: State, g: nat)
    requires Inv(s) && WellFormed(s) && !s.crashed && CanTake(s, g) && s.gens[g].consumer.Selecting?
    requires s.gens[s.Cur()].queue != []
    ensures Enabled(s, Receive(g))
    ensures var m, q := Next(s, Receive(g)), s.gens[s.Cur()].queue;
            && CanTake(m, g) && !m.crashed && |m.gens| == |s.gens| && m.cmds == s.cmds
            && m.threads == s.threads + [Thread(q[0], Spawned)]
            && m.gens[m.Cur()].queue == q[1..] && m.gens[m.Cur()].closed == s.gens[s.Cur()].closed
  {
  }

  /** The consumer works through the channel until it comes to the command. */
  lemma {:induction false} FromQueue(s: State, c: nat, g: nat)
    requires Live(s, c) && CanTake(s, g) && c in s.gens[s.Cur()].queue
    ensures StartsAgain(s, c)
    decreases |s.gens[s.Cur()].queue|, s.gens[g].consumer.Looping?
  {
    if s.gens[g].consumer.Looping? {
      ArmNext(s, g);
      StepKeeps(s, Arm(g));
      FromQueue(Next(s, Arm(g)), c, g);
      StepThenStarts(s, Arm(g), c);
    } else {
      var q := s.gens[s.Cur()].queue;
      TakeNext(s, g);
      StepKeeps(s, Receive(g));
      var m := Next(s, Receive(g));
      if q[0] == c {
        assert BeforeStart(m, c, |s.threads|);
        FromBeforeStart(m, c, |s.threads|);
      } else {
        FromQueue(m, c, g);
      }
      StepThenStarts(s, Receive(g), c);
    }
  }

  lemma SendNext(s: State, c: nat, t: nat, g: nat)
    requires Live(s, c) && CanTake(s, g) && BeforeSend(s, c, t) && |s.gens[s.Cur()].queue| < CAPACITY
    ensures Enabled(s, Send(t))
    ensures var m := Next(s, Send(t));
            && !m.crashed && |m.cmds| == |s.cmds| && CanTake(m, g) && c in m.gens[m.Cur()].queue
  {
    var m, q := Next(s, Send(t)), s.gens[s.Cur()].queue;
    assert m.gens[m.Cur()].queue == q + [c];
    assert m.gens[m.Cur()].queue[|q|] == c;
  }

  /** A sender goes ahead, after the consumer has made room if need be. */
  lemma {:induction false} FromSender(s: State, c: nat, t: nat, g: nat)
    requires Live(s, c) && CanTake(s, g) && BeforeSend(s, c, t)
    ensures StartsAgain(s, c)
    decreases |s.gens[s.Cur()].queue|, s.gens[g].consumer.Looping?
  {
    if |s.gens[s.Cur()].queue| < CAPACITY {
      SendNext(s, c, t, g);
      StepKeeps(s, Send(t));
      FromQueue(Next(s, Send(t)), c, g);
      StepThenStarts(s, Send(t), c);
    } else if s.gens[g].consumer.Looping? {
      ArmNext(s, g);
      StepKeeps(s, Arm(g));
      FromSender(Next(s, Arm(g)), c, t, g);
      StepThenStarts(s, Arm(g), c);
    } else {
      TakeNext(s, g);
      StepKeeps(s, Receive(g));
      FromSender(Next(s, Receive(g)), c, t, g);
      StepThenStarts(s, Receive(g), c);
    }
  }

  lemma MayStartDoes(s: State, c: nat)
    requires Live(s, c) && MayStart(s, c)
    ensures StartsAgain(s, c)
  {
    if t :| BeforeStart(s, c, t) {
      FromBeforeStart(s, c, t);
    } else {
      var g :| CanTake(s, g);
      if t :| BeforeSend(s, c, t) {
        FromSender(s, c, t, g);
      } else {
        FromQueue(s, c, g);
      }
    }
  }

  // ---------------------------------------------------------------- no run starts it

  /** Nothing that is sent to channel `k` from now on will be received. */
  ghost predicate Cut(s: State, k: nat) {
    k != s.Cur() || !HasTaker(s) || s.gens[k].closed
  }

  /** A goroutine that does not get its command back to a start. */
  ghost predicate DeadEnd(s: State, pc: Pc) {
    pc.Alive? || pc.Checking? || (pc.Sending? && Cut(s, pc.ch))
  }

  /** The command's context is cancelled, and its token cannot get back to a start. */
  ghost predicate Lost(s: State, c: nat) {
    && Inv(s) && WellFormed(s) && c < |s.cmds| && s.gens[s.cmds[c].gen].cancelled
    && match s.hist[c].loc
       case Nowhere => true
       case InQueue(k) => !HasTaker(s)
       case InThread(t) => t < |s.threads| && DeadEnd(s, s.threads[t].pc)
  }

  lemma LostIff(s: State, c: nat)
    requires Live(s, c) && s.cmds[c].gen < |s.gens| && s.gens[s.cmds[c].gen].cancelled
    ensures Lost(s, c) <==> !MayStart(s, c)
  {
    assert CmdOk(s, c);
    forall t | At(s, t) && s.threads[t].cmd == c ensures s.hist[c].loc == InThread(t) { assert ThreadOk(s, t); }
    if c in s.gens[s.Cur()].queue { QueuedAt(s, c, s.Cur()); }
    match s.hist[c].loc {
      case InThread(t) =>
        assert At(s, t) && s.threads[t].cmd == c && ThreadOk(s, t);
        assert BeforeStart(s, c, t) || !exists u :: BeforeStart(s, c, u);
        assert BeforeSend(s, c, t) || !exists u :: BeforeSend(s, c, u);
      case InQueue(k) => assert GenOk(s, k);
      case Nowhere =>
    }
  }

  /** A consumer that is left without the current channel does not come back. */
  lemma NoTakerStays(s: State, l: Step)
    requires Inv(s) && WellFormed(s) && Enabled(s, l) && !HasTaker(s) && !l.Install? && !l.NewChannel?
    ensures !HasTaker(Next(s, l))
  {
    SizesStay(s, l);
    forall g | 0 <= g < |s.gens| ensures !CanTake(Next(s, l), g) {
      assert !CanTake(s, g);
      if l.Receive? { assert GenOk(s, s.gens[l.g].consumer.k); }
      ConsumerStays(s, l, g);
    }
  }

  lemma ConsumerStays(s: State, l: Step, g: nat)
    requires WellFormed(s) && Enabled(s, l) && !l.Install? && !l.NewChannel?
    requires g < |s.gens| == |Next(s, l).gens| && !CanTake(s, g)
    requires l.Receive? && l.g == g ==> s.gens[s.gens[g].consumer.k].queue == []
    ensures !CanTake(Next(s, l), g)
  {
    if IsMove(l) {
      EffectFacts(s, l);
    }
  }

  lemma LostIsNotStarted(s: State, l: Step, c: nat)
    requires Lost(s, c) && Enabled(s, l)
    ensures Attempts(Log(s, c) + EventsFor(s, l, c)) == Attempts(Log(s, c))
  {
    if l.Starts? || l.StartFails? {
      assert ThreadOk(s, l.t);
      assert EventsFor(s, l, c) == [];
      assert Log(s, c) + [] == Log(s, c);
    } else {
      NoAttempt(s, l, c);
    }
  }

  lemma CutStays(s: State, l: Step, k: nat)
    requires Inv(s) && WellFormed(s) && Enabled(s, l) && k <= Newest(s) && Cut(s, k)
    ensures Cut(Next(s, l), k)
  {
    if l.Install? || l.NewChannel? {
    } else {
      SizesStay(s, l);
      if s.gens[k].closed { ClosedStays(s, l, k); }
      if !HasTaker(s) { NoTakerStays(s, l); }
    }
  }

  lemma ClosedStays(s: State, l: Step, k: nat)
    requires WellFormed(s) && Enabled(s, l) && k < |s.gens| && s.gens[k].closed
    ensures k < |Next(s, l).gens| && Next(s, l).gens[k].closed
  {
    if IsMove(l) {
      EffectFacts(s, l);
    }
  }

  /** A step of the command's own goroutine, at a dead end, leads to another one or ends it. */
  lemma DeadEndMove(s: State, l: Step, c: nat)
    requires Lost(s, c) && Enabled(s, l) && IsMove(l) && s.threads[l.t].cmd == c
    ensures EffectOf(s, l).pc.Checking? || EffectOf(s, l).pc.Finished?
  {
    assert ThreadOk(s, l.t);
  }

  lemma MoveLeaves(s: State, l: Step)
    requires WellFormed(s) && Enabled(s, l) && IsMove(l)
    ensures var m, pc, c := Next(s, l), EffectOf(s, l).pc, s.threads[l.t].cmd;
            && l.t < |m.threads| && m.threads[l.t].pc == pc
            && c < |m.hist| && m.hist[c].loc == if pc.Finished? then Nowhere else InThread(l.t)
  {
    hide EffectOf;
  }

  lemma SendLeaves(s: State, t: nat, c: nat)
    requires Lost(s, c) && Enabled(s, Send(t)) && s.threads[t].cmd == c
    ensures Next(s, Send(t)) == s.(crashed := true) || (!HasTaker(s) && Next(s, Send(t)).hist[c].loc.InQueue?)
  {
    assert ThreadOk(s, t);
    assert GenOk(s, s.threads[t].pc.ch);
  }

  lemma OwnStepStaysLost(s: State, l: Step, c: nat)
    requires Lost(s, c) && Enabled(s, l) && TokenStep(s, l, c)
    requires Inv(Next(s, l)) && WellFormed(Next(s, l))
    requires c < |Next(s, l).cmds| && Next(s, l).gens[Next(s, l).cmds[c].gen].cancelled
    ensures Lost(Next(s, l), c)
  {
    if IsMove(l) {
      DeadEndMove(s, l, c);
      MoveLeaves(s, l);
    } else if l.Send? {
      SendLeaves(s, l.t, c);
      NoTakerStays(s, l);
    } else if l.Receive? {
      QueuedAt(s, c, s.gens[l.g].consumer.k);
      assert GenOk(s, s.gens[l.g].consumer.k);
      assert CanTake(s, l.g);
    } else {
      QueuedAt(s, c, s.Cur());
    }
  }

  lemma OtherStepStaysLost(s: State, l: Step, c: nat)
    requires Lost(s, c) && Enabled(s, l) && !TokenStep(s, l, c)
    requires Inv(Next(s, l)) && WellFormed(Next(s, l))
    requires c < |Next(s, l).cmds| && Next(s, l).gens[Next(s, l).cmds[c].gen].cancelled
    ensures Lost(Next(s, l), c)
  {
    assert CmdOk(s, c);
    OtherLocationsStay(s, l, c);
    match s.hist[c].loc {
      case InThread(t) =>
        OtherGoroutinesStay(s, l, t);
        assert ThreadOk(s, t);
        if s.threads[t].pc.Sending? { CutStays(s, l, s.threads[t].pc.ch); }
      case InQueue(k) =>
        QueueIsOfNewest(s, c, k);
        NoTakerStays(s, l);
      case Nowhere =>
    }
  }

  lemma QueueIsOfNewest(s: State, c: nat, k: nat)
    requires Inv(s) && c < |s.cmds| && s.hist[c].loc == InQueue(k)
    ensures k == s.Cur() == Newest(s) && s.gens[k].queue != []
  {
    assert CmdOk(s, c);
    assert GenOk(s, k);
    QueuedAt(s, c, k);
  }

  lemma StepStaysLost(s: State, l: Step, c: nat)
    requires Lost(s, c) && Enabled(s, l)
    ensures Lost(Next(s, l), c) && Attempts(Log(Next(s, l), c)) == Attempts(Log(s, c))
  {
    StepKeeps(s, l);
    CmdsOnlyGrow(s, l);
    StepRecords(s, l, c);
    LostIsNotStarted(s, l, c);
    if TokenStep(s, l, c) {
      OwnStepStaysLost(s, l, c);
    } else {
      OtherStepStaysLost(s, l, c);
    }
  }

  lemma {:induction false} LostForever(s: State, ls: seq<Step>, c: nat)
    requires Lost(s, c) && Runs(s, ls)
    ensures Lost(After(s, ls), c) && Attempts(Log(After(s, ls), c)) == Attempts(Log(s, c))
    decreases |ls|
  {
    if ls != [] {
      LostForever(s, ls[..|ls| - 1], c);
      StepStaysLost(After(s, ls[..|ls| - 1]), ls[|ls| - 1], c);
    }
  }

  // ---------------------------------------------------------------- the exact condition

  /**
   * Once its context is cancelled, a command can be started again exactly when its goroutine is before `Start` or in
   * the back-off, or when it is in the current channel, or about to be sent there, and a consumer is left to take it.
   */
  lemma StartsAgainIff(s0: State, ls: seq<Step>, s: State, c: nat)
    requires Reached(s0, ls, s) && !s.crashed && c < |s.cmds|
    ensures s.cmds[c].gen < |s.gens|
    ensures s.gens[s.cmds[c].gen].cancelled ==> (StartsAgain(s, c) <==> MayStart(s, c))
  {
    ReachedInv(s0, ls, s);
    assert CmdOk(s, c);
    if s.gens[s.cmds[c].gen].cancelled {
      LostIff(s, c);
      if MayStart(s, c) {
        MayStartDoes(s, c);
      } else if m :| Reaches(s, m) && Attempts(Log(m, c)) > Attempts(Log(s, c)) {
        var more :| Runs(s, more) && After(s, more) == m;
        LostForever(s, more, c);
      }
    }
  }

  /** The process of command `c` has ended and its goroutine has not looked at the context yet. */
  ghost predicate HasExited(s: State, c: nat) {
    exists t :: At(s, t) && s.threads[t].cmd == c && s.threads[t].pc.Checking?
  }

  /** A process that lives, or has just ended, when its context is cancelled is never started again, in any run. */
  lemma KilledStaysDown(s0: State, ls: seq<Step>, s: State, more: seq<Step>, c: nat)
    requires Reached(s0, ls, s) && c < |s.cmds| && (HasProcess(s, c) || HasExited(s, c)) && Runs(s, more)
    ensures s.cmds[c].gen < |s.gens|
    ensures s.gens[s.cmds[c].gen].cancelled ==> Attempts(Log(After(s, more), c)) == Attempts(Log(s, c))
  {
    ReachedInv(s0, ls, s);
    assert CmdOk(s, c);
    var t :| At(s, t) && s.threads[t].cmd == c && (s.threads[t].pc.Alive? || s.threads[t].pc.Checking?);
    assert ThreadOk(s, t);
    if s.gens[s.cmds[c].gen].cancelled {
      LostForever(s, more, c);
    }
  }

  /** The cancellation takes no consumer away and moves no token. */
  lemma CancelFacts(s: State, c: nat)
    requires Inv(s) && WellFormed(s) && Enabled(s, Cancel) && c < |s.cmds| && s.cmds[c].gen == s.Cur()
    ensures var m := Next(s, Cancel);
            && Live(m, c) && m.stage.Serving? && m.cmds == s.cmds && m.gens[m.Cur()].cancelled && m.Cur() == s.Cur()
            && CanTake(m, m.Cur())
            && (Supervised(m, c) <==> Supervised(s, c))
            && (HasProcess(m, c) <==> HasProcess(s, c)) && (HasExited(m, c) <==> HasExited(s, c))
  {
    var m := Next(s, Cancel);
    StepKeeps(s, Cancel);
    assert GenOk(s, s.Cur());
    assert m.threads == s.threads && |m.gens| == |s.gens|;
    assert forall k :: 0 <= k < |s.gens| ==> m.gens[k].queue == s.gens[k].queue;
    assert forall t :: At(m, t) <==> At(s, t);
  }

  lemma TakerMakesStarts(s: State, c: nat)
    requires Live(s, c) && s.stage.Serving? && CanTake(s, s.Cur()) && s.cmds[c].gen == s.Cur()
    ensures MayStart(s, c) <==> Supervised(s, c) && !HasProcess(s, c) && !HasExited(s, c)
  {
    assert CmdOk(s, c) && GenOk(s, s.Cur());
    forall t | At(s, t) && s.threads[t].cmd == c ensures s.hist[c].loc == InThread(t) { assert ThreadOk(s, t); }
    forall k | 0 <= k < |s.gens| && c in s.gens[k].queue ensures k == s.Cur() && s.hist[c].loc == InQueue(k) {
      QueuedAt(s, c, k);
    }
    match s.hist[c].loc {
      case InThread(t) =>
        assert At(s, t) && s.threads[t].cmd == c && ThreadOk(s, t);
        assert BeforeStart(s, c, t) || BeforeSend(s, c, t) || s.threads[t].pc.Alive? || s.threads[t].pc.Checking?;
      case InQueue(k) => QueuedAt(s, c, k);
      case Nowhere =>
    }
  }

  /**
   * At the cancellation: a command of the generation in force can be started once more exactly when it is under
   * supervision and has no process and no goroutine that is about to look at the context.
   */
  lemma CancelStopsIff(s0: State, ls: seq<Step>, s: State, c: nat)
    requires Reached(s0, ls, s) && WellFormed(s) && Enabled(s, Cancel) && c < |s.cmds| && s.cmds[c].gen == s.Cur()
    ensures StartsAgain(Next(s, Cancel), c) <==> Supervised(s, c) && !HasProcess(s, c) && !HasExited(s, c)
  {
    ReachedInv(s0, ls, s);
    RunsLast(s0, ls, Cancel);
    var m := Next(s, Cancel);
    StartsAgainIff(s0, ls + [Cancel], m, c);
    CancelFacts(s, c);
    TakerMakesStarts(m, c);
  }
}
