/**
 * The converse of the refinement: among any number of commands, every legal life of the one-command supervisor
 * is the life of each command in some run of the daemon.
 */
module Realizing {
  import opened Prelude
  import opened Limiting
  import opened Supervisor
  import opened Machine
  import opened Invariant
  import opened Tokens
  import opened Draining
  import opened Reloading
  import Exec

  /** A state of command `c` with the one-command supervisor at `b`. */
  ghost predicate Living(s: State, c: nat, b: Sup) {
    && Inv(s) && WellFormed(s) && !s.crashed
    && c < |s.cmds| && s.cmds[c].logged == b.logged
    && Replay(Boot(b.logged), Log(s, c)) == Some(b)
  }

  /** The command belongs to the generation in force, and no reload has begun. */
  ghost predicate InService(s: State, c: nat) {
    s.stage.Serving? && c < |s.cmds| && s.cmds[c].gen == s.Cur()
  }

  /** Goroutine `t` works for `c` and is at `pc`; the channel is open and empty, its consumer at work. */
  ghost predicate Held(s: State, c: nat, b: Sup, t: nat, pc: Pc) {
    && Living(s, c, b)
    && InService(s, c) && s.gens[s.Cur()].queue == [] && !s.gens[s.Cur()].consumer.Returned?
    && At(s, t) && s.threads[t] == Thread(c, pc)
  }

  /** How a poised command is held. */
  ghost predicate Rests(s: State, c: nat, b: Sup, t: nat, pc: Pc) {
    Held(s, c, b, t, pc) && (b.phase.Ready? ==> pc.Entering?) && (b.phase.Pending? ==> pc.Sending?)
  }

  /** A state in which the next event of command `c` can be arranged, whatever legal event it is. */
  ghost predicate Poised(s: State, c: nat, b: Sup) {
    && Living(s, c, b)
    && (!Over(b.phase) || !b.cancelled ==> InService(s, c))
    && (!Over(b.phase) ==>
          exists t, pc :: Rests(s, c, b, t, pc))
  }

  lemma HolderFacts(s: State, c: nat, b: Sup, t: nat, pc: Pc)
    requires Held(s, c, b, t, pc)
    ensures s.hist[c].loc == InThread(t)
    ensures PcMatches(pc, b.phase) && PcOk(s, s.Cur(), pc) && !s.gens[s.Cur()].closed
    ensures Agrees(s.cmds[c], s.gens[s.Cur()].cancelled, s.now, b)
    ensures Exec.LookOk(s.cmds[c].exe.path, s.cmds[c].exe.path)
  {
    assert CmdOk(s, c) && ThreadOk(s, t) && GenOk(s, s.Cur());
  }

  /** `m` comes after `s` with one more event in the life of `c`. */
  ghost predicate Advanced(s: State, m: State, c: nat, b: Sup, e: Event)
    requires Allows(b, e)
  {
    Poised(m, c, Supervisor.Apply(b, e)) && Log(m, c) == Log(s, c) + [e] && m.now == e.at
  }

  lemma EventFollows(s: State, c: nat, b: Sup, e: Event)
    requires Living(s, c, b) && Allows(b, e)
    ensures Replay(Boot(b.logged), Log(s, c) + [e]) == Some(Supervisor.Apply(b, e))
  {
    ReplaySnoc(Boot(b.logged), Log(s, c), e);
  }

  /** The goroutine of `c` takes a step without an event. */
  lemma QuietStep(s: State, c: nat, b: Sup, t: nat)
    requires Held(s, c, b, t, Entering)
    ensures Enabled(s, Enter(t)) && Held(Next(s, Enter(t)), c, b, t, Launching(s.Cur()))
    ensures Log(Next(s, Enter(t)), c) == Log(s, c) && Next(s, Enter(t)).now == s.now
  {
    StepKeeps(s, Enter(t));
    assert s.hist[c].log + [] == s.hist[c].log;
  }

  /** The step by which the goroutine of `c`, at `pc`, produces the event. */
  ghost function StepFor(t: nat, pc: Pc, path: Str, e: Event): Step {
    match e
    case LogFailed(_) => LogFails(t)
    case Started(_) => Starts(t)
    case StartFailed(_) => StartFails(t)
    case Exited(_) => WaitReturns(t, false)
    case Passed(_) => CheckCtx(t)
    case Delayed(_, _) => SetTimer(t)
    case Stopped(_) => if pc.Checking? then CheckCtx(t) else Abandon(t)
    case _ => Fire(t, path)
  }

  ghost predicate OwnEvent(b: Sup, pc: Pc, e: Event) {
    && Allows(b, e)
    && !e.LimiterReset? && !e.Canceled?
    && (b.phase.Ready? ==> pc.Launching?)
    && (b.phase.Pending? ==> pc.Spawned? && e.Delayed?)
  }

  lemma OwnStepEnabled(s: State, c: nat, b: Sup, t: nat, pc: Pc, e: Event)
    requires Held(s, c, b, t, pc) && OwnEvent(b, pc, e) && s.now == e.at
    ensures Enabled(s, StepFor(t, pc, s.cmds[c].exe.path, e))
  {
    HolderFacts(s, c, b, t, pc);
  }

  lemma OwnStepLogs(s: State, c: nat, b: Sup, t: nat, pc: Pc, e: Event)
    requires Held(s, c, b, t, pc) && OwnEvent(b, pc, e) && s.now == e.at
    requires Enabled(s, StepFor(t, pc, s.cmds[c].exe.path, e))
    ensures Log(Next(s, StepFor(t, pc, s.cmds[c].exe.path, e)), c) == Log(s, c) + [e]
  {
    HolderFacts(s, c, b, t, pc);
  }

  lemma OwnStepMoves(s: State, c: nat, b: Sup, t: nat, pc: Pc, e: Event)
    requires Held(s, c, b, t, pc) && OwnEvent(b, pc, e) && s.now == e.at
    requires Enabled(s, StepFor(t, pc, s.cmds[c].exe.path, e))
    ensures var m := Next(s, StepFor(t, pc, s.cmds[c].exe.path, e));
            && m.gens == s.gens && m.now == s.now && m.stage == s.stage && !m.crashed
            && |m.cmds| == |s.cmds| && m.cmds[c].gen == s.cmds[c].gen && m.cmds[c].logged == s.cmds[c].logged
            && t < |m.threads| && m.threads[t].cmd == c
            && (var phase := Supervisor.Apply(b, e).phase;
                && (!Over(phase) ==> !m.threads[t].pc.Finished?)
                && (phase.Ready? ==> m.threads[t].pc.Entering?)
                && (phase.Pending? ==> m.threads[t].pc.Sending?))
  {
    HolderFacts(s, c, b, t, pc);
  }

  /** A step of the goroutine of `c` that produces the event and keeps the command poised. */
  lemma OwnStep(s: State, c: nat, b: Sup, t: nat, pc: Pc, e: Event)
    requires Held(s, c, b, t, pc) && OwnEvent(b, pc, e) && s.now == e.at
    ensures Enabled(s, StepFor(t, pc, s.cmds[c].exe.path, e))
    ensures Advanced(s, Next(s, StepFor(t, pc, s.cmds[c].exe.path, e)), c, b, e)
  {
    OwnStepEnabled(s, c, b, t, pc, e);
    OwnStepLogs(s, c, b, t, pc, e);
    OwnStepMoves(s, c, b, t, pc, e);
    EventFollows(s, c, b, e);
    StepKeeps(s, StepFor(t, pc, s.cmds[c].exe.path, e));
    var m := Next(s, StepFor(t, pc, s.cmds[c].exe.path, e));
    assert Living(m, c, Supervisor.Apply(b, e));
    if !Over(Supervisor.Apply(b, e).phase) {
      assert Rests(m, c, Supervisor.Apply(b, e), t, m.threads[t].pc);
    }
  }

  lemma ArmFirst(s: State, c: nat, b: Sup, t: nat, pc: Pc)
    requires Held(s, c, b, t, pc) && s.gens[s.Cur()].consumer.Looping?
    ensures Enabled(s, Arm(s.Cur())) && Held(Next(s, Arm(s.Cur())), c, b, t, pc)
    ensures var m := Next(s, Arm(s.Cur()));
            && m.gens[m.Cur()].consumer == Selecting(m.Cur(), m.Cur())
            && |m.gens| == |s.gens| && |m.threads| == |s.threads|
  {
    StepKeeps(s, Arm(s.Cur()));
  }

  /** Command `c` waits alone in the open channel of its generation. */
  ghost predicate Enqueued(s: State, c: nat, b: Sup) {
    && Living(s, c, b) && InService(s, c)
    && s.gens[s.Cur()].queue == [c] && !s.gens[s.Cur()].consumer.Returned?
  }

  lemma SendFirst(s: State, c: nat, b: Sup, t: nat, pc: Pc)
    requires Held(s, c, b, t, pc) && pc.Sending?
    ensures Enabled(s, Send(t)) && Enqueued(Next(s, Send(t)), c, b)
    ensures var m := Next(s, Send(t));
            && Log(m, c) == Log(s, c) && m.now == s.now && m.cmds == s.cmds && |m.threads| == |s.threads|
            && |m.gens| == |s.gens| && m.gens[m.Cur()].consumer == s.gens[s.Cur()].consumer
            && m.gens[m.Cur()].cancelled == s.gens[s.Cur()].cancelled
  {
    HolderFacts(s, c, b, t, pc);
    StepKeeps(s, Send(t));
  }

  lemma ReceiveNext(s: State, c: nat, b: Sup)
    requires Enqueued(s, c, b) && s.gens[s.Cur()].consumer == Selecting(s.Cur(), s.Cur())
    ensures Enabled(s, Receive(s.Cur())) && Held(Next(s, Receive(s.Cur())), c, b, |s.threads|, Spawned)
    ensures var m := Next(s, Receive(s.Cur())); Log(m, c) == Log(s, c) && m.now == s.now && m.cmds == s.cmds
  {
    StepKeeps(s, Receive(s.Cur()));
  }

  lemma ReadyToReceive(s: State, c: nat, b: Sup, t: nat, pc: Pc) returns (a: State)
    requires Held(s, c, b, t, pc)
    ensures Reaches(s, a) && Held(a, c, b, t, pc) && a.gens[a.Cur()].consumer == Selecting(a.Cur(), a.Cur())
    ensures Log(a, c) == Log(s, c) && a.now == s.now && |a.threads| == |s.threads|
  {
    LeadsNowhere(s);
    if s.gens[s.Cur()].consumer.Looping? {
      ArmFirst(s, c, b, t, pc);
      ReachesOn(s, s, Arm(s.Cur()));
      a := Next(s, Arm(s.Cur()));
    } else {
      assert GenOk(s, s.Cur());
      a := s;
    }
  }

  lemma SendAndReceive(a: State, c: nat, b: Sup, t: nat, pc: Pc) returns (m: State)
    requires Held(a, c, b, t, pc) && pc.Sending? && a.gens[a.Cur()].consumer == Selecting(a.Cur(), a.Cur())
    ensures Reaches(a, m) && Held(m, c, b, |a.threads|, Spawned) && Log(m, c) == Log(a, c) && m.now == a.now
  {
    LeadsNowhere(a);
    SendFirst(a, c, b, t, pc);
    ReachesOn(a, a, Send(t));
    var q := Next(a, Send(t));
    ReceiveNext(q, c, b);
    ReachesOn(a, q, Receive(q.Cur()));
    m := Next(q, Receive(q.Cur()));
  }

  /** Send, receive: the command is with a back-off goroutine. */
  lemma ThroughChannel(s: State, c: nat, b: Sup, t: nat, pc: Pc) returns (m: State)
    requires Held(s, c, b, t, pc) && pc.Sending?
    ensures Reaches(s, m) && Held(m, c, b, |s.threads|, Spawned) && Log(m, c) == Log(s, c) && m.now == s.now
  {
    var a := ReadyToReceive(s, c, b, t, pc);
    m := SendAndReceive(a, c, b, t, pc);
    ReachesTransitive(s, a, m);
  }

  /** Command `c` waits alone in the channel that `Reload` has closed. */
  ghost predicate Trapped(s: State, c: nat, b: Sup) {
    Living(s, c, b) && s.stage.Closing? && s.gens[s.Cur()].queue == [c]
  }

  lemma CloseNext(s: State, c: nat, b: Sup)
    requires Enqueued(s, c, b) && s.gens[s.Cur()].cancelled
    ensures Enabled(s, Close) && Trapped(Next(s, Close), c, b)
    ensures Log(Next(s, Close), c) == Log(s, c) && Next(s, Close).now == s.now
  {
    StepKeeps(s, Close);
  }

  lemma DrainNext(s: State, c: nat, b: Sup, e: Event)
    requires Trapped(s, c, b) && Allows(b, e) && s.now == e.at && e.Stopped?
    ensures Enabled(s, Drain) && Advanced(s, Next(s, Drain), c, b, e)
  {
    EventFollows(s, c, b, e);
    StepKeeps(s, Drain);
    assert Living(Next(s, Drain), c, Supervisor.Apply(b, e));
  }

  /** A command that waits in the channel is stopped by the reload that drains it. */
  lemma DrainedAway(s: State, c: nat, b: Sup, t: nat, pc: Pc, e: Event) returns (m: State)
    requires Held(s, c, b, t, pc) && pc.Sending? && Allows(b, e) && s.now == e.at && e.Stopped?
    ensures Reaches(s, m) && Advanced(s, m, c, b, e)
  {
    LeadsNowhere(s);
    HolderFacts(s, c, b, t, pc);
    SendFirst(s, c, b, t, pc);
    ReachesOn(s, s, Send(t));
    var q := Next(s, Send(t));
    CloseNext(q, c, b);
    ReachesOn(s, q, Close);
    var r := Next(q, Close);
    DrainNext(r, c, b, e);
    ReachesOn(s, r, Drain);
    m := Next(r, Drain);
  }

  /** An event that is not the command's own leaves its goroutine where it is. */
  lemma StillPoised(s: State, m: State, c: nat, b: Sup, e: Event)
    requires Poised(s, c, b) && Allows(b, e) && s.now == e.at && (e.Canceled? || e.LimiterReset?)
    requires Inv(m) && WellFormed(m) && !m.crashed && m.now == s.now && m.stage == s.stage
    requires |m.cmds| == |s.cmds| && m.cmds[c].gen == s.cmds[c].gen && m.cmds[c].logged == s.cmds[c].logged
    requires m.threads == s.threads && |m.gens| == |s.gens|
    requires m.gens[m.Cur()].queue == s.gens[s.Cur()].queue && m.gens[m.Cur()].consumer == s.gens[s.Cur()].consumer
    requires Log(m, c) == Log(s, c) + [e]
    ensures Advanced(s, m, c, b, e)
  {
    EventFollows(s, c, b, e);
    assert Living(m, c, Supervisor.Apply(b, e));
    if t, pc :| Rests(s, c, b, t, pc) {
      assert Rests(m, c, Supervisor.Apply(b, e), t, pc);
    }
  }

  lemma ResetLogs(s: State, c: nat)
    requires WellFormed(s) && !s.crashed && c < |s.cmds|
    ensures Enabled(s, ResetOne(c))
    ensures var m := Next(s, ResetOne(c));
            && |m.cmds| == |s.cmds| && m.cmds[c].gen == s.cmds[c].gen && m.cmds[c].logged == s.cmds[c].logged
            && m.threads == s.threads && m.now == s.now && m.stage == s.stage && m.gens == s.gens && !m.crashed
            && Log(m, c) == Log(s, c) + [LimiterReset(s.now)]
  {
  }

  lemma DoReset(s: State, c: nat, b: Sup, e: Event) returns (m: State)
    requires Poised(s, c, b) && Allows(b, e) && s.now == e.at && e.LimiterReset?
    ensures Reaches(s, m) && Advanced(s, m, c, b, e)
  {
    ResetLogs(s, c);
    StepKeeps(s, ResetOne(c));
    LeadsNowhere(s);
    ReachesOn(s, s, ResetOne(c));
    m := Next(s, ResetOne(c));
    StillPoised(s, m, c, b, e);
  }

  lemma CancelLogs(s: State, c: nat)
    requires WellFormed(s) && Enabled(s, Cancel) && InService(s, c)
    ensures var m := Next(s, Cancel);
            && InService(m, c) && m.cmds == s.cmds && m.threads == s.threads && m.now == s.now && !m.crashed
            && |m.gens| == |s.gens| && m.gens[m.Cur()] == s.gens[s.Cur()].(cancelled := true)
            && Log(m, c) == Log(s, c) + [Canceled(s.now)]
  {
  }

  lemma CancelIsEnabled(s: State, c: nat, b: Sup)
    requires Living(s, c, b) && InService(s, c) && !b.cancelled
    ensures Enabled(s, Cancel)
  {
    assert CmdOk(s, c);
  }

  lemma DoCancel(s: State, c: nat, b: Sup, e: Event) returns (m: State)
    requires Poised(s, c, b) && Allows(b, e) && s.now == e.at && e.Canceled?
    ensures Reaches(s, m) && Advanced(s, m, c, b, e)
  {
    CancelIsEnabled(s, c, b);
    CancelLogs(s, c);
    StepKeeps(s, Cancel);
    LeadsNowhere(s);
    ReachesOn(s, s, Cancel);
    m := Next(s, Cancel);
    StillPoised(s, m, c, b, e);
  }

  /** The command's own goroutine makes the event happen, from a position where it can. */
  lemma Finish(s: State, m: State, c: nat, b: Sup, t: nat, pc: Pc, e: Event) returns (m': State)
    requires Reaches(s, m) && Held(m, c, b, t, pc) && OwnEvent(b, pc, e) && m.now == e.at && Log(m, c) == Log(s, c)
    ensures Reaches(s, m') && Advanced(s, m', c, b, e)
  {
    OwnStep(m, c, b, t, pc, e);
    var l := StepFor(t, pc, m.cmds[c].exe.path, e);
    ReachesOn(s, m, l);
    m' := Next(m, l);
  }

  lemma DoOwn(s: State, c: nat, b: Sup, e: Event) returns (m: State)
    requires Poised(s, c, b) && Allows(b, e) && s.now == e.at && !e.LimiterReset? && !e.Canceled?
    ensures Reaches(s, m) && Advanced(s, m, c, b, e)
  {
    var t, pc :| Rests(s, c, b, t, pc);
    LeadsNowhere(s);
    if b.phase.Pending? && e.Stopped? {
      m := DrainedAway(s, c, b, t, pc, e);
    } else if b.phase.Pending? {
      var a := ThroughChannel(s, c, b, t, pc);
      m := Finish(s, a, c, b, |s.threads|, Spawned, e);
    } else if b.phase.Ready? {
      QuietStep(s, c, b, t);
      ReachesOn(s, s, Enter(t));
      m := Finish(s, Next(s, Enter(t)), c, b, t, Launching(s.Cur()), e);
    } else {
      m := Finish(s, s, c, b, t, pc, e);
    }
  }

  lemma Ticked(s: State, c: nat, b: Sup, to: int)
    requires Poised(s, c, b) && s.now <= to
    ensures Enabled(s, Tick(to)) && Poised(Next(s, Tick(to)), c, b) && Log(Next(s, Tick(to)), c) == Log(s, c)
    ensures Next(s, Tick(to)).now == to
  {
    StepKeeps(s, Tick(to));
    if t, pc :| Rests(s, c, b, t, pc) {
      assert Rests(Next(s, Tick(to)), c, b, t, pc);
    }
  }

  lemma DoEvent(s: State, c: nat, b: Sup, e: Event) returns (m: State)
    requires Poised(s, c, b) && Allows(b, e) && s.now <= e.at
    ensures Reaches(s, m) && Advanced(s, m, c, b, e)
  {
    Ticked(s, c, b, e.at);
    LeadsNowhere(s);
    ReachesOn(s, s, Tick(e.at));
    var a := Next(s, Tick(e.at));
    if e.LimiterReset? {
      m := DoReset(a, c, b, e);
    } else if e.Canceled? {
      m := DoCancel(a, c, b, e);
    } else {
      m := DoOwn(a, c, b, e);
    }
    ReachesTransitive(s, a, m);
  }

  // ---------------------------------------------------------------- whole lives

  /**
   * Command `c` has just been made, with log directory or without, and its generation has not taken a step; what older
   * generations have left behind is arbitrary.
   */
  ghost predicate Newborn(s: State, c: nat, logged: bool) {
    && Inv(s) && WellFormed(s) && !s.crashed && InService(s, c)
    && s.gens[s.Cur()] == Gen(false, false, [], Looping)
    && s.cmds[c].logged == logged && Log(s, c) == []
    && exists t :: At(s, t) && s.threads[t] == Thread(c, Entering)
  }

  lemma FirstAreNewborn(s0: State, c: nat)
    requires Init(s0) && c < |s0.cmds|
    ensures Newborn(s0, c, true)
  {
    InitInv(s0);
    InvWellFormed(s0);
    assert s0.cmds[c] == NewCmd(s0.cmds[c].entry, 0, true);
    assert At(s0, c) && s0.threads[c] == Thread(c, Entering);
  }

  lemma InstalledAreNewborn(s: State, entries: seq<Entry>, c: nat)
    requires Inv(s) && WellFormed(s) && Enabled(s, Install(entries)) && |s.cmds| <= c < |s.cmds| + |entries|
    ensures Newborn(Next(s, Install(entries)), c, false)
  {
    var m := Next(s, Install(entries));
    var t := |s.threads| + (c - |s.cmds|);
    StepKeeps(s, Install(entries));
    ReloadInstalls(s, entries);
    InstalledAt(s, entries, c - |s.cmds|);
    assert At(m, t) && m.threads[t] == Thread(c, Entering);
  }

  lemma NewbornIsPoised(s: State, c: nat, logged: bool)
    requires Newborn(s, c, logged)
    ensures Poised(s, c, Boot(logged))
  {
    var t :| At(s, t) && s.threads[t] == Thread(c, Entering);
    assert Rests(s, c, Boot(logged), t, Entering);
  }

  ghost predicate Lived(m: State, c: nat, logged: bool, log: seq<Event>, since: int)
    requires Legal(Boot(logged), log)
  {
    && Log(m, c) == log && Poised(m, c, Replay(Boot(logged), log).value)
    && m.now == if log == [] then since else log[|log| - 1].at
  }

  lemma LastEvent(logged: bool, log: seq<Event>, before: seq<Event>, e: Event)
    requires log == before + [e] && Legal(Boot(logged), log)
    ensures Legal(Boot(logged), before)
    ensures var r := Replay(Boot(logged), before).value;
            && Allows(r, e) && Replay(Boot(logged), log) == Some(Supervisor.Apply(r, e))
            && (before == [] ==> r == Boot(logged))
  {
    ReplaySnoc(Boot(logged), before, e);
  }

  lemma {:induction false} Arrange(s: State, c: nat, logged: bool, log: seq<Event>) returns (m: State)
    requires Poised(s, c, Boot(logged)) && Log(s, c) == []
    requires Legal(Boot(logged), log) && forall i :: 0 <= i < |log| ==> s.now <= log[i].at
    ensures Reaches(s, m) && Lived(m, c, logged, log, s.now)
    decreases |log|
  {
    if log == [] {
      LeadsNowhere(s);
      m := s;
    } else {
      var before, e := log[..|log| - 1], log[|log| - 1];
      LastEvent(logged, log, before, e);
      var a := Arrange(s, c, logged, before);
      LaterThan(logged, before, e);
      m := DoEvent(a, c, Replay(Boot(logged), before).value, e);
      ReachesTransitive(s, a, m);
    }
  }

  lemma LaterThan(logged: bool, before: seq<Event>, e: Event)
    requires Legal(Boot(logged), before) && Allows(Replay(Boot(logged), before).value, e)
    ensures before != [] ==> before[|before| - 1].at <= e.at
  {
  }

  lemma LivesAreLegal(s: State, c: nat, logged: bool, m: State)
    requires Newborn(s, c, logged) && Reaches(s, m)
    ensures Legal(Boot(logged), Log(m, c))
  {
    var ls :| Runs(s, ls) && After(s, ls) == m;
    CmdsOnlyGrowOverRuns(s, ls);
    RunKeeps(s, ls);
    assert CmdOk(m, c);
  }

  /** A command just made, by whatever run, can live exactly the legal lives from there on. */
  lemma NewbornLives(s: State, c: nat, logged: bool, log: seq<Event>)
    requires Newborn(s, c, logged) && forall i :: 0 <= i < |log| ==> s.now <= log[i].at
    ensures (exists m :: Reaches(s, m) && Log(m, c) == log) <==> Legal(Boot(logged), log)
  {
    if m :| Reaches(s, m) && Log(m, c) == log {
      LivesAreLegal(s, c, logged, m);
    }
    if Legal(Boot(logged), log) {
      NewbornIsPoised(s, c, logged);
      var m := Arrange(s, c, logged, log);
    }
  }

  /**
   * The lives of a command in the daemon are exactly the legal lives of the one-command supervisor: sharing the
   * bounded channel with other commands neither adds a behaviour nor takes one away. Here for the first generation.
   */
  lemma LivesAreExactlyTheLegalOnes(s0: State, c: nat, log: seq<Event>)
    requires Init(s0) && c < |s0.cmds| && forall i :: 0 <= i < |log| ==> s0.now <= log[i].at
    ensures (exists m :: Reaches(s0, m) && Log(m, c) == log) <==> Legal(Boot(true), log)
  {
    FirstAreNewborn(s0, c);
    NewbornLives(s0, c, true, log);
  }

  /** The same for every command that a reload installs, after any run; it writes no log file. */
  lemma ReloadedLivesAreExactlyTheLegalOnes(
      s0: State, ls: seq<Step>, s: State, entries: seq<Entry>, c: nat, log: seq<Event>)
    requires Reached(s0, ls, s) && WellFormed(s) && Enabled(s, Install(entries))
    requires |s.cmds| <= c < |s.cmds| + |entries| && forall i :: 0 <= i < |log| ==> s.now <= log[i].at
    ensures (exists m :: Reaches(Next(s, Install(entries)), m) && Log(m, c) == log) <==> Legal(Boot(false), log)
  {
    ReachedInv(s0, ls, s);
    InstalledAreNewborn(s, entries, c);
    NewbornLives(Next(s, Install(entries)), c, false, log);
  }

  // ---------------------------------------------------------------- one start after the cancellation

  lemma ReplayOne(log: seq<Event>, r: Sup, e: Event)
    requires Replay(Boot(true), log) == Some(r) && Allows(r, e)
    ensures Replay(Boot(true), log + [e]) == Some(Supervisor.Apply(r, e))
  {
    ReplaySnoc(Boot(true), log, e);
  }

  /** A command fails to start and its context is cancelled while it waits out the delay. */
  lemma WaitingLife(n: int) returns (log: seq<Event>)
    requires n > 0
    ensures Replay(Boot(true), log) == Some(Sup(Delaying(n), Fresh(), n, true, true))
    ensures LateAttempts(log) == 0 && forall i :: 0 <= i < |log| ==> log[i].at == n
  {
    var l := Fresh();
    var ended := [] + [StartFailed(n)];
    ReplayOne([], Boot(true), StartFailed(n));
    ReplayOne(ended, Sup(Ended, l, n, false, true), Passed(n));
    var pending := ended + [Passed(n)];
    ReplayOne(pending, Sup(Pending, l, n, false, true), Delayed(n, n));
    var delaying := pending + [Delayed(n, n)];
    ReplayOne(delaying, Sup(Delaying(n), l, n, false, true), Canceled(n));
    log := delaying + [Canceled(n)];
  }

  /** A life with a start after the cancellation. */
  lemma LateLife(n: int) returns (log: seq<Event>)
    requires n > 0
    ensures Legal(Boot(true), log) && LateAttempts(log) == 1
    ensures forall i :: 0 <= i < |log| ==> log[i].at == n
  {
    var waiting := WaitingLife(n);
    ReplayOne(waiting, Sup(Delaying(n), Fresh(), n, true, true), Granted(n));
    var granted := waiting + [Granted(n)];
    ReplayOne(granted, Sup(Ready, Add(Fresh(), 1, n), n, true, true), Started(n));
    log := granted + [Started(n)];
    assert log[..|log| - 1] == granted && granted[..|granted| - 1] == waiting;
    assert LateAttempts(granted) == 0;
  }

  /** The bound of one start after the cancellation is met: the timer may win against the cancelled context. */
  lemma LateStartHappens(s0: State, c: nat)
    requires Init(s0) && c < |s0.cmds|
    ensures exists m :: Reaches(s0, m) && LateAttempts(Log(m, c)) == 1
  {
    var log := LateLife(s0.now);
    FirstAreNewborn(s0, c);
    NewbornIsPoised(s0, c, true);
    var m := Arrange(s0, c, true, log);
  }
}
