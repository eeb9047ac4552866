/** What every step of the daemon keeps, from any reachable state. */
module Invariant {
  import opened Prelude
  import opened Limiting
  import opened Supervisor
  import opened Machine
  import Exec

  // ---------------------------------------------------------------- the invariant

  /** The last generation that has commands: the one that `Reload` prepares has none yet. */
  ghost function Newest(s: State): int {
    if s.stage.Renewing? || s.stage.Populating? then |s.gens| - 2 else |s.gens| - 1
  }

  /** A goroutine's channel is never older than its command; a sender's channel is the one of its generation. */
  ghost predicate PcOk(s: State, gen: nat, pc: Pc) {
    && (pc.Launching? || pc.Alive? || pc.Checking? ==> gen <= pc.ch < |s.gens|)
    && (pc.Sending? ==> pc.ch == gen)
    && (pc.Waiting? ==> gen <= pc.ctx < |s.gens|)
  }

  ghost predicate ThreadOk(s: State, t: nat)
    requires t < |s.threads| && |s.hist| == |s.cmds|
  {
    var thread := s.threads[t];
    && thread.cmd < |s.cmds|
    && (!thread.pc.Finished? ==>
          && s.hist[thread.cmd].loc == InThread(t)
          && PcOk(s, s.cmds[thread.cmd].gen, thread.pc))
  }

  ghost predicate GenOk(s: State, k: nat)
    requires k < |s.gens| && |s.hist| == |s.cmds|
  {
    var gen := s.gens[k];
    && (gen.closed <==> k < s.Cur() || s.stage.Closing?)
    && (gen.closed ==> gen.cancelled)
    && (k < s.Cur() ==> gen.queue == [])
    && |gen.queue| <= CAPACITY
    && NoDup(gen.queue)
    && (forall i :: 0 <= i < |gen.queue| ==> Queued(s, gen.queue[i], k))
    && ConsumerOk(s, k, gen)
  }

  ghost predicate ConsumerOk(s: State, k: nat, gen: Gen) {
    && (gen.consumer.Idle? <==> k == s.Cur() && (s.stage.Renewing? || s.stage.Populating?))
    && (gen.consumer.Selecting? ==> k <= gen.consumer.ctx <= gen.consumer.k < |s.gens|)
    && (gen.consumer.Idle? ==> !gen.cancelled)
    && (gen.consumer.Returned? ==> gen.cancelled)
  }

  ghost predicate Queued(s: State, c: nat, k: nat)
    requires |s.hist| == |s.cmds|
  {
    c < |s.cmds| && s.cmds[c].gen == k && s.hist[c].loc == InQueue(k)
  }

  ghost predicate LocOk(s: State, c: nat, loc: Loc) {
    match loc
    case InThread(t) => t < |s.threads| && s.threads[t].cmd == c && !s.threads[t].pc.Finished?
    case InQueue(k) => k < |s.gens| && c in s.gens[k].queue
    case Nowhere => true
  }

  /** The phase of the one-command supervisor that a goroutine's position stands for. */
  ghost predicate PcMatches(pc: Pc, phase: Phase) {
    match pc
    case Entering => phase.Ready?
    case Launching(_) => phase.Ready?
    case Alive(_) => phase.Up?
    case Checking(_) => phase.Ended?
    case Sending(_) => phase.Pending?
    case Spawned => phase.Pending?
    case Waiting(wake, _) => phase == Delaying(wake)
    case Finished => Over(phase)
  }

  ghost predicate LocMatches(s: State, loc: Loc, phase: Phase) {
    match loc
    case InThread(t) => t < |s.threads| && PcMatches(s.threads[t].pc, phase)
    case InQueue(_) => phase.Pending?
    case Nowhere => Over(phase)
  }

  /** The fields of a command agree with the one-command supervisor. */
  ghost predicate Agrees(cmd: DCmd, cancelled: bool, now: int, b: Sup) {
    && b.limiter == cmd.limiter
    && b.logged == cmd.logged
    && b.cancelled == cancelled
    && b.now <= now
    && (cmd.status == StatusRunning <==> b.phase.Up?)
    && (b.phase.Ready? || b.phase.Up? || b.phase.GaveUp? ==> cmd.err == NoError)
    && (b.phase.NoLog? ==> cmd.err == LogError)
  }

  /** The command line differs from the configured one at most in how the program is named. */
  ghost predicate ExeOk(configured: Exec.Cmd, exe: Exec.Cmd) {
    && Exec.WellBuilt(configured)
    && Exec.WellBuilt(exe)
    && exe.args[1..] == configured.args[1..]
    && (Exec.HasSeparator(configured.args[0]) ==> exe == configured)
  }

  ghost predicate CmdOk(s: State, c: nat)
    requires c < |s.cmds| == |s.hist|
  {
    var cmd := s.cmds[c];
    && cmd.gen <= Newest(s) < |s.gens|
    && ExeOk(cmd.entry.exe, cmd.exe)
    && LocOk(s, c, s.hist[c].loc)
    && Legal(Boot(cmd.logged), s.hist[c].log)
    && var b := Replay(Boot(cmd.logged), s.hist[c].log).value;
       && Agrees(cmd, s.gens[cmd.gen].cancelled, s.now, b)
       && LocMatches(s, s.hist[c].loc, b.phase)
  }

  ghost predicate Inv(s: State) {
    && s.now > 0
    && s.gens != []
    && (s.stage.Renewing? || s.stage.Populating? ==> |s.gens| >= 2)
    && |s.hist| == |s.cmds|
    && (forall t :: 0 <= t < |s.threads| ==> ThreadOk(s, t))
    && (forall k :: 0 <= k < |s.gens| ==> GenOk(s, k))
    && (forall c :: 0 <= c < |s.cmds| ==> CmdOk(s, c))
  }

  lemma InvWellFormed(s: State)
    requires Inv(s)
    ensures WellFormed(s)
  {
    forall t | 0 <= t < |s.threads| ensures s.threads[t].cmd < |s.cmds| && PcFits(s, s.threads[t].pc) {
      assert ThreadOk(s, t);
      if !s.threads[t].pc.Finished? { assert CmdOk(s, s.threads[t].cmd); }
    }
    forall c | 0 <= c < |s.cmds| ensures s.cmds[c].gen < |s.gens| && s.cmds[c].exe.args != [] {
      assert CmdOk(s, c);
    }
    forall g | 0 <= g < |s.gens| && s.gens[g].consumer.Selecting?
      ensures s.gens[g].consumer.ctx < |s.gens| && s.gens[g].consumer.k < |s.gens|
    {
      assert GenOk(s, g);
    }
    forall k, i | 0 <= k < |s.gens| && 0 <= i < |s.gens[k].queue| ensures s.gens[k].queue[i] < |s.cmds| {
      assert GenOk(s, k);
      assert Queued(s, s.gens[k].queue[i], k);
    }
  }

  lemma InitInv(s: State)
    requires Init(s)
    ensures Inv(s)
  {
    forall c | 0 <= c < |s.cmds| ensures CmdOk(s, c) && ThreadOk(s, c) {
      assert s.cmds[c] == NewCmd(s.cmds[c].entry, 0, true);
      assert Replay(Boot(true), s.hist[c].log) == Some(Boot(true));
    }
  }

  // ---------------------------------------------------------------- one goroutine moves

  ghost predicate Justified(s: State, t: nat, pc: Pc, cmd: DCmd, log: seq<Event>)
    requires Inv(s) && At(s, t)
  {
    && s.threads[t].cmd < |s.cmds|
    && var was := s.cmds[s.threads[t].cmd];
       && cmd.gen == was.gen < |s.gens| && cmd.entry == was.entry && cmd.logged == was.logged
       && ExeOk(cmd.entry.exe, cmd.exe)
       && PcOk(s, cmd.gen, pc)
       && Legal(Boot(cmd.logged), log)
       && var b := Replay(Boot(cmd.logged), log).value;
          && Agrees(cmd, s.gens[cmd.gen].cancelled, s.now, b)
          && PcMatches(pc, b.phase)
  }

  ghost predicate SameQueue(s: State, s': State, k: nat)
    requires k < |s.gens| && k < |s'.gens|
  {
    var was, now := s.gens[k], s'.gens[k];
    && now.queue == was.queue && now.closed == was.closed && (was.cancelled ==> now.cancelled)
    && ConsumerOk(s', k, now)
  }

  /** Queues are as good as before when they and the places of their commands are unchanged. */
  lemma QueuesKeep(s: State, s': State)
    requires |s.hist| == |s.cmds| == |s'.cmds| == |s'.hist| && |s.gens| == |s'.gens| && s.stage == s'.stage
    requires forall k :: 0 <= k < |s.gens| ==> GenOk(s, k) && SameQueue(s, s', k)
    requires forall c :: 0 <= c < |s.cmds| && s.hist[c].loc.InQueue? ==>
               s'.hist[c].loc == s.hist[c].loc && s'.cmds[c].gen == s.cmds[c].gen
    ensures forall k :: 0 <= k < |s'.gens| ==> GenOk(s', k)
  {
    forall k | 0 <= k < |s'.gens| ensures GenOk(s', k) {
      assert GenOk(s, k) && SameQueue(s, s', k);
      forall i | 0 <= i < |s.gens[k].queue| ensures Queued(s', s.gens[k].queue[i], k) {
        assert Queued(s, s.gens[k].queue[i], k);
      }
    }
  }

  lemma MoveKeeps(s: State, t: nat, pc: Pc, cmd: DCmd, events: seq<Event>)
    requires Inv(s) && At(s, t) && ThreadOk(s, t)
    requires Justified(s, t, pc, cmd, s.hist[s.threads[t].cmd].log + events)
    ensures Inv(Move(s, t, pc, cmd, events))
  {
    var c := s.threads[t].cmd;
    var s' := Move(s, t, pc, cmd, events);
    forall u | 0 <= u < |s'.threads| ensures ThreadOk(s', u) {
      assert ThreadOk(s, u);
    }
    forall k | 0 <= k < |s'.gens| ensures GenOk(s, k) && SameQueue(s, s', k) {
      assert GenOk(s, k);
    }
    QueuesKeep(s, s');
    forall d | 0 <= d < |s'.cmds| ensures CmdOk(s', d) {
      assert CmdOk(s, d);
      assert d != c ==> LocOk(s', d, s.hist[d].loc);
    }
  }

  /** The effect of a goroutine step is one the one-command supervisor allows. */
  ghost predicate EffectOk(s: State, t: nat, e: Effect, b: Sup)
    requires Inv(s) && At(s, t)
  {
    && s.threads[t].cmd < |s.cmds|
    && var was := s.cmds[s.threads[t].cmd];
       && e.cmd.gen == was.gen < |s.gens| && e.cmd.entry == was.entry && e.cmd.logged == was.logged
       && ExeOk(e.cmd.entry.exe, e.cmd.exe)
       && PcOk(s, e.cmd.gen, e.pc)
       && |e.events| <= 1
       && (e.events != [] ==> Allows(b, e.events[0]))
       && var b' := if e.events == [] then b else Supervisor.Apply(b, e.events[0]);
          && Agrees(e.cmd, s.gens[e.cmd.gen].cancelled, s.now, b')
          && PcMatches(e.pc, b'.phase)
  }

  lemma EffectKeeps(s: State, t: nat, e: Effect, b: Sup)
    requires Inv(s) && At(s, t) && ThreadOk(s, t) && CmdOk(s, s.threads[t].cmd)
    requires Replay(Boot(s.cmds[s.threads[t].cmd].logged), s.hist[s.threads[t].cmd].log) == Some(b)
    requires EffectOk(s, t, e, b)
    ensures Inv(Move(s, t, e.pc, e.cmd, e.events))
  {
    var log := s.hist[s.threads[t].cmd].log;
    if e.events == [] {
      assert log + e.events == log;
    } else {
      assert e.events == [e.events[0]];
      ReplaySnoc(Boot(e.cmd.logged), log, e.events[0]);
    }
    MoveKeeps(s, t, e.pc, e.cmd, e.events);
  }

  /** A context is cancelled once a later one exists; a goroutine that saw a cancelled one has a cancelled command. */
  lemma CancelReachesBack(s: State, gen: nat, k: nat)
    requires Inv(s) && gen <= k < |s.gens| && s.gens[k].cancelled
    ensures s.gens[gen].cancelled
  {
    assert GenOk(s, gen);
  }

  lemma RebuildKeeps(configured: Exec.Cmd, exe: Exec.Cmd, look: Str)
    requires ExeOk(configured, exe) && Exec.LookOk(exe.path, look)
    ensures ExeOk(configured, Exec.Rebuild(exe, look))
  {
  }

  lemma FireEffectOk(s: State, t: nat, look: Str, b: Sup)
    requires Inv(s) && WellFormed(s) && Enabled(s, Fire(t, look)) && ThreadOk(s, t) && CmdOk(s, s.threads[t].cmd)
    requires Replay(Boot(s.cmds[s.threads[t].cmd].logged), s.hist[s.threads[t].cmd].log) == Some(b)
    ensures EffectOk(s, t, FireEffect(s.cmds[s.threads[t].cmd], s.now, look), b)
  {
    var cmd := s.cmds[s.threads[t].cmd];
    RebuildKeeps(cmd.entry.exe, cmd.exe, look);
  }

  lemma LaunchEffectOk(s: State, l: Step, b: Sup)
    requires Inv(s) && WellFormed(s) && Enabled(s, l) && (l.Enter? || l.LogFails? || l.Starts? || l.StartFails?)
    requires ThreadOk(s, l.t) && CmdOk(s, s.threads[l.t].cmd)
    requires Replay(Boot(s.cmds[s.threads[l.t].cmd].logged), s.hist[s.threads[l.t].cmd].log) == Some(b)
    ensures EffectOk(s, l.t, EffectOf(s, l), b)
  {
  }

  lemma ExitEffectOk(s: State, l: Step, b: Sup)
    requires Inv(s) && WellFormed(s) && Enabled(s, l) && (l.WaitReturns? || l.CheckCtx?)
    requires ThreadOk(s, l.t) && CmdOk(s, s.threads[l.t].cmd)
    requires Replay(Boot(s.cmds[s.threads[l.t].cmd].logged), s.hist[s.threads[l.t].cmd].log) == Some(b)
    ensures EffectOk(s, l.t, EffectOf(s, l), b)
  {
    assert GenOk(s, s.cmds[s.threads[l.t].cmd].gen);
  }

  lemma BackOffEffectOk(s: State, l: Step, b: Sup)
    requires Inv(s) && WellFormed(s) && Enabled(s, l) && (l.SetTimer? || l.Abandon?)
    requires ThreadOk(s, l.t) && CmdOk(s, s.threads[l.t].cmd)
    requires Replay(Boot(s.cmds[s.threads[l.t].cmd].logged), s.hist[s.threads[l.t].cmd].log) == Some(b)
    ensures EffectOk(s, l.t, EffectOf(s, l), b)
  {
    if l.Abandon? {
      CancelReachesBack(s, s.cmds[s.threads[l.t].cmd].gen, s.threads[l.t].pc.ctx);
    }
  }

  lemma StepEffectOk(s: State, l: Step, b: Sup)
    requires Inv(s) && WellFormed(s) && Enabled(s, l) && IsMove(l) && ThreadOk(s, l.t) && CmdOk(s, s.threads[l.t].cmd)
    requires Replay(Boot(s.cmds[s.threads[l.t].cmd].logged), s.hist[s.threads[l.t].cmd].log) == Some(b)
    ensures EffectOk(s, l.t, EffectOf(s, l), b)
  {
    if l.Fire? {
      FireEffectOk(s, l.t, l.look, b);
    } else if l.WaitReturns? || l.CheckCtx? {
      ExitEffectOk(s, l, b);
    } else if l.SetTimer? || l.Abandon? {
      BackOffEffectOk(s, l, b);
    } else {
      LaunchEffectOk(s, l, b);
    }
  }

  /** What every goroutine step leaves alone, and when it grants a restart or gets past the context check. */
  lemma EffectFacts(s: State, l: Step)
    requires WellFormed(s) && Enabled(s, l) && IsMove(l)
    ensures var was, e := s.cmds[s.threads[l.t].cmd], EffectOf(s, l);
            && e.cmd.gen == was.gen && e.cmd.entry == was.entry && e.cmd.logged == was.logged
            && |e.events| <= 1
            && (e.events == [] <==> l.Enter?)
            && (e.events != [] ==> e.events[0].at == s.now)
            && (e.events != [] && e.events[0].Granted? <==> l.Fire? && CanAdd(was.limiter, 1, s.now))
            && (e.pc.Sending? <==> l.CheckCtx? && !s.gens[was.gen].cancelled)
            && (e.pc.Sending? ==> e.pc.ch == s.threads[l.t].pc.ch)
  {
  }

  /** Between two reloads nothing is added to the generations or the commands. */
  lemma SizesStay(s: State, l: Step)
    requires WellFormed(s) && Enabled(s, l) && !l.NewChannel? && !l.Install?
    ensures var s' := Next(s, l); |s'.gens| == |s.gens| && |s'.cmds| == |s.cmds| && |s'.hist| == |s.hist|
  {
    if IsMove(l) {
      EffectFacts(s, l);
    }
  }

  lemma GoroutineKeeps(s: State, l: Step)
    requires Inv(s) && WellFormed(s) && Enabled(s, l) && IsMove(l)
    ensures Inv(Next(s, l))
  {
    assert ThreadOk(s, l.t);
    var c := s.threads[l.t].cmd;
    assert CmdOk(s, c);
    var b := Replay(Boot(s.cmds[c].logged), s.hist[c].log).value;
    StepEffectOk(s, l, b);
    var e := EffectOf(s, l);
    EffectKeeps(s, l.t, e, b);
    var moved := Move(s, l.t, e.pc, e.cmd, e.events);
    BookkeepingKeeps(moved, moved.now, Counted(s.restarts, e), moved.crashed);
  }

  /** Clock, counters and the crash flag take no part in the invariant beyond the clock not going back. */
  lemma BookkeepingKeeps(s: State, now: int, restarts: map<seq<Str>, nat>, crashed: bool)
    requires Inv(s) && s.now <= now
    ensures Inv(s.(now := now, restarts := restarts, crashed := crashed))
  {
    var s' := s.(now := now, restarts := restarts, crashed := crashed);
    forall t | 0 <= t < |s'.threads| ensures ThreadOk(s', t) { assert ThreadOk(s, t); }
    forall k | 0 <= k < |s'.gens| ensures GenOk(s, k) && SameQueue(s, s', k) {
      assert GenOk(s, k);
    }
    QueuesKeep(s, s');
    forall c | 0 <= c < |s'.cmds| ensures CmdOk(s', c) { assert CmdOk(s, c); }
  }

  // ---------------------------------------------------------------- channel, consumer, clock

  /** The command leaves the sender for the channel's tail. */
  lemma EnqueueKeeps(s: State, t: nat)
    requires Inv(s) && WellFormed(s) && Enabled(s, Send(t)) && !s.gens[s.threads[t].pc.ch].closed
    ensures Inv(Sent(s, t))
  {
    var s' := Sent(s, t);
    assert ThreadOk(s, t);
    var c := s.threads[t].cmd;
    var k := s.threads[t].pc.ch;
    assert CmdOk(s, c) && GenOk(s, k);
    forall u | 0 <= u < |s'.threads| ensures ThreadOk(s', u) { assert ThreadOk(s, u); }
    forall j | 0 <= j < |s'.gens| ensures GenOk(s', j) { EnqueueKeepsGen(s, t, j); }
    forall d | 0 <= d < |s'.cmds| ensures CmdOk(s', d) {
      assert CmdOk(s, d);
      if d == c { assert s'.gens[k].queue[|s.gens[k].queue|] == c; }
    }
  }

  lemma EnqueueKeepsGen(s: State, t: nat, j: nat)
    requires Inv(s) && WellFormed(s) && Enabled(s, Send(t)) && !s.gens[s.threads[t].pc.ch].closed && j < |s.gens|
    requires ThreadOk(s, t) && CmdOk(s, s.threads[t].cmd)
    ensures |Sent(s, t).gens| == |s.gens| && |Sent(s, t).hist| == |Sent(s, t).cmds| && GenOk(Sent(s, t), j)
  {
    var s' := Sent(s, t);
    var c := s.threads[t].cmd;
    assert GenOk(s, j);
    forall i | 0 <= i < |s.gens[j].queue| ensures Queued(s', s.gens[j].queue[i], j) && s.gens[j].queue[i] != c {
      assert Queued(s, s.gens[j].queue[i], j);
    }
    if j == s.threads[t].pc.ch {
      assert Queued(s', c, j);
    }
  }

  lemma SendKeeps(s: State, t: nat)
    requires Inv(s) && WellFormed(s) && Enabled(s, Send(t))
    ensures Inv(Next(s, Send(t)))
  {
    if s.gens[s.threads[t].pc.ch].closed {
      BookkeepingKeeps(s, s.now, s.restarts, true);
    } else {
      EnqueueKeeps(s, t);
    }
  }

  lemma DequeueKeepsThread(s: State, g: nat, u: nat)
    requires Inv(s) && WellFormed(s) && Enabled(s, Receive(g)) && s.gens[s.gens[g].consumer.k].queue != []
    requires u <= |s.threads|
    ensures |Received(s, g).hist| == |Received(s, g).cmds| && |Received(s, g).threads| == |s.threads| + 1
    ensures ThreadOk(Received(s, g), u)
  {
    var k := s.gens[g].consumer.k;
    assert GenOk(s, k);
    assert Queued(s, s.gens[k].queue[0], k);
    if u < |s.threads| { assert ThreadOk(s, u); }
  }

  lemma DequeueKeepsCmd(s: State, g: nat, d: nat)
    requires Inv(s) && WellFormed(s) && Enabled(s, Receive(g)) && s.gens[s.gens[g].consumer.k].queue != []
    requires d < |s.cmds|
    ensures |Received(s, g).hist| == |Received(s, g).cmds| == |s.cmds| && CmdOk(Received(s, g), d)
  {
    var s' := Received(s, g);
    var k := s.gens[g].consumer.k;
    var q := s.gens[k].queue;
    assert GenOk(s, k) && Queued(s, q[0], k) && CmdOk(s, d);
    if d != q[0] {
      if s.hist[d].loc == InQueue(k) {
        assert d in q;
        assert d in q[1..];
      }
      assert LocOk(s', d, s.hist[d].loc);
    }
  }

  /** The channel's head goes to a new back-off goroutine. */
  lemma DequeueKeeps(s: State, g: nat)
    requires Inv(s) && WellFormed(s) && Enabled(s, Receive(g)) && s.gens[s.gens[g].consumer.k].queue != []
    ensures Inv(Received(s, g))
  {
    var s' := Received(s, g);
    DequeueKeepsThread(s, g, |s.threads|);
    forall u | 0 <= u < |s'.threads| ensures ThreadOk(s', u) { DequeueKeepsThread(s, g, u); }
    forall j | 0 <= j < |s'.gens| ensures GenOk(s', j) { DequeueKeepsGen(s, g, j); }
    forall d | 0 <= d < |s'.cmds| ensures CmdOk(s', d) { DequeueKeepsCmd(s, g, d); }
  }

  lemma DequeueKeepsGen(s: State, g: nat, j: nat)
    requires Inv(s) && WellFormed(s) && Enabled(s, Receive(g)) && s.gens[s.gens[g].consumer.k].queue != []
    requires j < |s.gens|
    ensures |Received(s, g).gens| == |s.gens| && |Received(s, g).hist| == |Received(s, g).cmds|
    ensures GenOk(Received(s, g), j)
  {
    var s' := Received(s, g);
    var k := s.gens[g].consumer.k;
    assert GenOk(s, j) && GenOk(s, k);
    assert Queued(s, s.gens[k].queue[0], k);
    var q' := s'.gens[j].queue;
    forall i | 0 <= i < |q'| ensures Queued(s', q'[i], j) {
      if j == k { assert q'[i] == s.gens[k].queue[i + 1]; }
      assert Queued(s, q'[i], j);
    }
  }

  lemma ReceiveKeeps(s: State, g: nat)
    requires Inv(s) && WellFormed(s) && Enabled(s, Receive(g))
    ensures Inv(Next(s, Receive(g)))
  {
    if s.gens[s.gens[g].consumer.k].queue == [] {
      BookkeepingKeeps(s, s.now, s.restarts, true);
    } else {
      DequeueKeeps(s, g);
    }
  }

  lemma ConsumerKeeps(s: State, l: Step)
    requires Inv(s) && WellFormed(s) && Enabled(s, l) && (l.Arm? || l.Return?)
    ensures Inv(Next(s, l))
  {
    var s' := Next(s, l);
    if l.Return? { CancelReachesBackFrom(s, l.g); }
    forall k | 0 <= k < |s'.gens| ensures GenOk(s, k) && SameQueue(s, s', k) {
      assert GenOk(s, k);
    }
    QueuesKeep(s, s');
    assert OnlyStage(s, s');
    hide Next, Enabled, WellFormed;
    forall t | 0 <= t < |s'.threads| ensures ThreadOk(s', t) { assert ThreadOk(s, t); }
    forall c | 0 <= c < |s'.cmds| ensures CmdOk(s', c) {
      assert CmdOk(s, c);
      StageKeepsCmd(s, s', c);
    }
  }

  lemma CancelReachesBackFrom(s: State, g: nat)
    requires Inv(s) && WellFormed(s) && g < |s.gens| && s.gens[g].consumer.Selecting?
    requires s.gens[s.gens[g].consumer.ctx].cancelled
    ensures s.gens[g].cancelled
  {
    assert GenOk(s, g);
    CancelReachesBack(s, g, s.gens[g].consumer.ctx);
  }

  /** A command is as good as before when its limiter has been reset. */
  lemma ResetIsOk(s: State, m: State, c: nat)
    requires c < |s.cmds| == |s.hist| == |m.hist| == |m.cmds| && CmdOk(s, c)
    requires m.gens == s.gens && m.threads == s.threads && m.now == s.now && m.stage == s.stage
    requires m.hist[c].loc == s.hist[c].loc
    requires m.cmds[c] == s.cmds[c].(limiter := Cleared(s.cmds[c].limiter))
    requires m.hist[c].log == s.hist[c].log + [LimiterReset(s.now)]
    ensures CmdOk(m, c)
  {
    assert LocOk(m, c, s.hist[c].loc);
    ReplaySnoc(Boot(s.cmds[c].logged), s.hist[c].log, LimiterReset(s.now));
  }

  lemma ResetKeepsCmd(s: State, c: nat, d: nat)
    requires Inv(s) && WellFormed(s) && Enabled(s, ResetOne(c)) && d < |s.cmds|
    ensures CmdOk(Next(s, ResetOne(c)), d)
  {
    assert CmdOk(s, d);
    hide Inv;
    if d == c {
      hide CmdOk;
      ResetIsOk(s, Next(s, ResetOne(c)), c);
    } else {
      assert LocOk(Next(s, ResetOne(c)), d, s.hist[d].loc);
    }
  }

  lemma ResetKeeps(s: State, c: nat)
    requires Inv(s) && WellFormed(s) && Enabled(s, ResetOne(c))
    ensures Inv(Next(s, ResetOne(c)))
  {
    var s' := Next(s, ResetOne(c));
    forall t | 0 <= t < |s'.threads| ensures ThreadOk(s', t) { assert ThreadOk(s, t); }
    forall k | 0 <= k < |s'.gens| ensures GenOk(s, k) && SameQueue(s, s', k) {
      assert GenOk(s, k);
    }
    QueuesKeep(s, s');
    forall d | 0 <= d < |s'.cmds| ensures CmdOk(s', d) { ResetKeepsCmd(s, c, d); }
  }

  // ---------------------------------------------------------------- cancellation and reload

  lemma CancelKeepsCmd(s: State, s': State, c: nat)
    requires s.gens != [] && c < |s.cmds| == |s.hist| == |s'.hist| && CmdOk(s, c)
    requires s'.cmds == s.cmds && s'.threads == s.threads && s'.now == s.now && s'.stage == s.stage
    requires !s.gens[s.Cur()].cancelled && s'.gens == s.gens[s.Cur() := s.gens[s.Cur()].(cancelled := true)]
    requires s'.hist == CancelHist(s)
    ensures CmdOk(s', c)
  {
    assert LocOk(s', c, s.hist[c].loc);
    if s.cmds[c].gen == s.Cur() {
      ReplaySnoc(Boot(s.cmds[c].logged), s.hist[c].log, Canceled(s.now));
    }
  }

  lemma CancelKeeps(s: State)
    requires Inv(s) && WellFormed(s) && Enabled(s, Cancel)
    ensures Inv(Next(s, Cancel))
  {
    var s' := Next(s, Cancel);
    forall t | 0 <= t < |s'.threads| ensures ThreadOk(s', t) { assert ThreadOk(s, t); }
    forall k | 0 <= k < |s'.gens| ensures GenOk(s, k) && SameQueue(s, s', k) {
      assert GenOk(s, k);
    }
    QueuesKeep(s, s');
    forall c | 0 <= c < |s'.cmds| ensures CmdOk(s', c) { CancelKeepsCmd(s, s', c); }
  }

  // ---------------------------------------------------------------- the statements of Reload

  lemma QueuedAt(s: State, c: nat, k: nat)
    requires Inv(s) && k < |s.gens| && c in s.gens[k].queue
    ensures Queued(s, c, k)
  {
    assert GenOk(s, k);
    var i :| 0 <= i < |s.gens[k].queue| && s.gens[k].queue[i] == c;
    assert Queued(s, s.gens[k].queue[i], k);
  }

  /** Commands, goroutines and history stay, as do contexts and channel contents. */
  ghost predicate OnlyStage(s: State, s': State) {
    && s'.now == s.now && s'.cmds == s.cmds && s'.threads == s.threads && s'.hist == s.hist
    && |s.gens| <= |s'.gens| && Newest(s) <= Newest(s')
    && forall k :: 0 <= k < |s.gens| ==>
         s'.gens[k].queue == s.gens[k].queue && s'.gens[k].cancelled == s.gens[k].cancelled
  }

  lemma StageKeepsCmd(s: State, s': State, c: nat)
    requires OnlyStage(s, s') && |s.hist| == |s.cmds| && c < |s.cmds| && CmdOk(s, c)
    ensures CmdOk(s', c)
  {
    assert LocOk(s', c, s.hist[c].loc);
  }

  lemma StageKeepsGen(s: State, l: Step, k: nat)
    requires Inv(s) && WellFormed(s) && Enabled(s, l) && (l.Close? || l.NewChannel? || l.NewContext?)
    requires k < |Next(s, l).gens|
    ensures |Next(s, l).hist| == |Next(s, l).cmds| && GenOk(Next(s, l), k)
  {
    assert GenOk(s, s.Cur());
    if k < |s.gens| {
      assert GenOk(s, k);
      forall i | 0 <= i < |s.gens[k].queue| ensures Queued(Next(s, l), s.gens[k].queue[i], k) {
        assert Queued(s, s.gens[k].queue[i], k);
      }
    }
  }

  lemma StageKeeps(s: State, l: Step)
    requires Inv(s) && WellFormed(s) && Enabled(s, l) && (l.Close? || l.NewChannel? || l.NewContext?)
    ensures Inv(Next(s, l))
  {
    var s' := Next(s, l);
    assert OnlyStage(s, s');
    forall t | 0 <= t < |s'.threads| ensures ThreadOk(s', t) { assert ThreadOk(s, t); }
    forall k | 0 <= k < |s'.gens| ensures GenOk(s', k) { StageKeepsGen(s, l, k); }
    forall c | 0 <= c < |s'.cmds| ensures CmdOk(s', c) {
      assert CmdOk(s, c);
      StageKeepsCmd(s, s', c);
    }
  }

  lemma DrainKeepsGen(s: State, k: nat)
    requires Inv(s) && WellFormed(s) && Enabled(s, Drain) && k < |s.gens|
    ensures |Drained(s).hist| == |Drained(s).cmds| && |Drained(s).gens| == |s.gens| && GenOk(Drained(s), k)
  {
    var s' := Drained(s);
    assert GenOk(s, k) && GenOk(s, s.Cur());
    var q, q' := s.gens[k].queue, s'.gens[k].queue;
    forall i | 0 <= i < |q'| ensures Queued(s', q'[i], k) {
      assert Queued(s, q[i], k);
      if k == s.Cur() {
        assert q'[i] == q[i + 1] && q[0] != q[i + 1];
        assert Queued(s, q[i + 1], k);
      }
    }
  }

  /** A queued command of a cancelled generation is stopped. */
  lemma StoppedIsOk(s: State, m: State, c: nat)
    requires c < |s.cmds| == |s.hist| && CmdOk(s, c) && s.hist[c].loc.InQueue? && s.gens[s.cmds[c].gen].cancelled
    requires m.cmds == s.cmds && |m.hist| == |s.hist| && m.now == s.now && m.stage == s.stage && |m.gens| == |s.gens|
    requires m.gens[s.cmds[c].gen].cancelled && m.hist[c] == Hist(Nowhere, s.hist[c].log + [Stopped(s.now)])
    ensures CmdOk(m, c)
  {
    ReplaySnoc(Boot(s.cmds[c].logged), s.hist[c].log, Stopped(s.now));
  }

  /** The dropped command has ended. */
  lemma DrainEndsCmd(s: State)
    requires Inv(s) && WellFormed(s) && Enabled(s, Drain)
    ensures var c := s.gens[s.Cur()].queue[0];
            |Drained(s).hist| == |Drained(s).cmds| && c < |s.cmds| && CmdOk(Drained(s), c)
  {
    var c := s.gens[s.Cur()].queue[0];
    QueuedAt(s, c, s.Cur());
    assert CmdOk(s, c) && GenOk(s, s.Cur());
    hide Inv, WellFormed, CmdOk;
    StoppedIsOk(s, Drained(s), c);
  }

  /** Every other command is where it was. */
  lemma DrainKeepsCmd(s: State, c: nat)
    requires Inv(s) && WellFormed(s) && Enabled(s, Drain) && c < |s.cmds| && c != s.gens[s.Cur()].queue[0]
    ensures |Drained(s).hist| == |Drained(s).cmds| && CmdOk(Drained(s), c)
  {
    var q := s.gens[s.Cur()].queue;
    assert CmdOk(s, c);
    hide Inv, WellFormed, Enabled;
    if s.hist[c].loc == InQueue(s.Cur()) {
      assert c in q;
      assert c in q[1..];
    }
    assert LocOk(Drained(s), c, s.hist[c].loc);
  }

  lemma DrainKeeps(s: State)
    requires Inv(s) && WellFormed(s) && Enabled(s, Drain)
    ensures Inv(Next(s, Drain))
  {
    var s' := Next(s, Drain);
    QueuedAt(s, s.gens[s.Cur()].queue[0], s.Cur());
    forall t | 0 <= t < |s'.threads| ensures ThreadOk(s', t) { assert ThreadOk(s, t); }
    forall k | 0 <= k < |s'.gens| ensures GenOk(s', k) { DrainKeepsGen(s, k); }
    forall c | 0 <= c < |s'.cmds| ensures CmdOk(s', c) {
      if c == s.gens[s.Cur()].queue[0] { DrainEndsCmd(s); } else { DrainKeepsCmd(s, c); }
    }
  }

  lemma InstallKeepsGen(s: State, entries: seq<Entry>, k: nat)
    requires Inv(s) && WellFormed(s) && Enabled(s, Install(entries)) && k < |s.gens|
    ensures var m := Installed(s, entries); |m.hist| == |m.cmds| && |m.gens| == |s.gens| && GenOk(m, k)
  {
    assert GenOk(s, k);
    forall i | 0 <= i < |s.gens[k].queue| ensures Queued(Installed(s, entries), s.gens[k].queue[i], k) {
      assert Queued(s, s.gens[k].queue[i], k);
    }
  }

  lemma InstallKeepsCmd(s: State, entries: seq<Entry>, c: nat)
    requires Inv(s) && WellFormed(s) && Enabled(s, Install(entries)) && c < |s.cmds|
    ensures |Installed(s, entries).hist| == |Installed(s, entries).cmds| && CmdOk(Installed(s, entries), c)
  {
    assert CmdOk(s, c);
    assert LocOk(Installed(s, entries), c, s.hist[c].loc);
  }

  lemma InstallMakesCmd(s: State, entries: seq<Entry>, c: nat)
    requires Inv(s) && WellFormed(s) && Enabled(s, Install(entries)) && |s.cmds| <= c < |s.cmds| + |entries|
    ensures |Installed(s, entries).hist| == |Installed(s, entries).cmds| && CmdOk(Installed(s, entries), c)
  {
    assert GenOk(s, s.Cur());
    assert Exec.WellBuilt(entries[c - |s.cmds|].exe);
    assert Replay(Boot(false), Installed(s, entries).hist[c].log) == Some(Boot(false));
  }

  lemma InstallKeeps(s: State, entries: seq<Entry>)
    requires Inv(s) && WellFormed(s) && Enabled(s, Install(entries))
    ensures Inv(Next(s, Install(entries)))
  {
    var s' := Next(s, Install(entries));
    forall t | 0 <= t < |s'.threads| ensures ThreadOk(s', t) {
      if t < |s.threads| { assert ThreadOk(s, t); }
    }
    forall k | 0 <= k < |s'.gens| ensures GenOk(s', k) { InstallKeepsGen(s, entries, k); }
    forall c | 0 <= c < |s'.cmds| ensures CmdOk(s', c) {
      if c < |s.cmds| { InstallKeepsCmd(s, entries, c); } else { InstallMakesCmd(s, entries, c); }
    }
  }

  // ---------------------------------------------------------------- every step, every run

  lemma TickKeeps(s: State, to: int)
    requires Inv(s) && WellFormed(s) && Enabled(s, Tick(to))
    ensures Inv(Next(s, Tick(to)))
  {
    BookkeepingKeeps(s, to, s.restarts, s.crashed);
  }

  lemma StepKeeps(s: State, l: Step)
    requires Inv(s) && WellFormed(s) && Enabled(s, l)
    ensures Inv(Next(s, l)) && WellFormed(Next(s, l))
  {
    hide Inv, WellFormed, Enabled, Next;
    match l {
      case Tick(to) => TickKeeps(s, to);
      case Send(t) => SendKeeps(s, t);
      case Receive(g) => ReceiveKeeps(s, g);
      case Arm(_) => ConsumerKeeps(s, l);
      case Return(_) => ConsumerKeeps(s, l);
      case ResetOne(c) => ResetKeeps(s, c);
      case Cancel => CancelKeeps(s);
      case Close => StageKeeps(s, l);
      case Drain => DrainKeeps(s);
      case NewChannel => StageKeeps(s, l);
      case NewContext => StageKeeps(s, l);
      case Install(entries) => InstallKeeps(s, entries);
      case _ => GoroutineKeeps(s, l);
    }
    InvWellFormed(Next(s, l));
  }

  lemma HistoryIsNotNeeded(s: State, other: seq<Hist>)
    requires WellFormed(s) && |other| == |s.hist|
    ensures WellFormed(s.(hist := other))
  {
    var t := s.(hist := other);
    assert forall i :: 0 <= i < |s.threads| ==> PcFits(t, s.threads[i].pc) == PcFits(s, s.threads[i].pc);
  }

  lemma HistoryEnablesNothing(s: State, t: State, l: Step)
    requires WellFormed(s) && WellFormed(t) && t == s.(hist := t.hist)
    ensures Enabled(t, l) <==> Enabled(s, l)
  {
    assert t.Cur() == s.Cur() && t.Ctx() == s.Ctx();
    hide WellFormed;
  }

  lemma MoveIgnoresHistory(s: State, t: State, l: Step)
    requires WellFormed(s) && Enabled(s, l) && IsMove(l) && t == s.(hist := t.hist) && WellFormed(t) && Enabled(t, l)
    ensures EffectOf(t, l) == EffectOf(s, l)
    ensures Next(t, l) == Next(s, l).(hist := Next(t, l).hist)
  {
    assert t.Cur() == s.Cur() && t.Ctx() == s.Ctx();
  }

  /** No step reads the history: with another one, the same steps can be taken, to the same state but for it. */
  lemma HistoryIsNotRead(s: State, other: seq<Hist>, l: Step)
    requires WellFormed(s) && |other| == |s.hist|
    ensures WellFormed(s.(hist := other))
    ensures Enabled(s.(hist := other), l) <==> Enabled(s, l)
    ensures Enabled(s, l) ==>
              var m := Next(s.(hist := other), l);
              m == Next(s, l).(hist := m.hist)
  {
    var t := s.(hist := other);
    HistoryIsNotNeeded(s, other);
    HistoryEnablesNothing(s, t, l);
    if Enabled(s, l) && IsMove(l) {
      MoveIgnoresHistory(s, t, l);
    } else {
      assert t.Cur() == s.Cur() && t.Ctx() == s.Ctx();
    }
  }

  /** The invariant holds in every state of every run. */
  lemma {:induction false} RunKeeps(s: State, ls: seq<Step>)
    requires Inv(s) && Runs(s, ls)
    ensures Inv(After(s, ls)) && WellFormed(After(s, ls))
  {
    if ls == [] {
      InvWellFormed(s);
    } else {
      RunKeeps(s, ls[..|ls| - 1]);
      StepKeeps(After(s, ls[..|ls| - 1]), ls[|ls| - 1]);
    }
  }

  lemma RunSnoc(s: State, ls: seq<Step>, l: Step)
    requires Runs(s, ls) && WellFormed(After(s, ls)) && Enabled(After(s, ls), l)
    ensures Runs(s, ls + [l]) && After(s, ls + [l]) == Next(After(s, ls), l)
  {
    hide Next, WellFormed, Enabled;
    RunsLast(s, ls, l);
  }

  lemma RunsLast(s: State, ls: seq<Step>, l: Step)
    ensures Runs(s, ls + [l]) <==> Runs(s, ls) && WellFormed(After(s, ls)) && Enabled(After(s, ls), l)
    ensures Runs(s, ls + [l]) ==> After(s, ls + [l]) == Next(After(s, ls), l)
  {
    hide Next, WellFormed, Enabled;
    assert (ls + [l])[..|ls + [l]| - 1] == ls;
  }

  lemma {:induction false} RunsSplit(s: State, ls: seq<Step>, more: seq<Step>)
    requires Runs(s, ls)
    ensures Runs(s, ls + more) <==> Runs(After(s, ls), more)
    ensures Runs(s, ls + more) ==> After(s, ls + more) == After(After(s, ls), more)
    decreases |more|
  {
    hide Next, WellFormed, Enabled;
    if more == [] {
      assert ls + more == ls;
    } else {
      var m, l := more[..|more| - 1], more[|more| - 1];
      assert ls + more == (ls + m) + [l] && more == m + [l];
      RunsSplit(s, ls, m);
      RunsLast(s, ls + m, l);
      RunsLast(After(s, ls), m, l);
    }
  }

  // ---------------------------------------------------------------- reachability without reload

  /** No reload begins. */
  ghost predicate ReloadFree(ls: seq<Step>) {
    forall i :: 0 <= i < |ls| ==> !ls[i].Close?
  }

  /** Some run in which no reload begins leads from `s` to `m`. */
  ghost predicate Leads(s: State, m: State) {
    exists ls :: ReloadFree(ls) && Runs(s, ls) && After(s, ls) == m
  }

  /** Some run leads from `s` to `m`. */
  ghost predicate Reaches(s: State, m: State) {
    exists ls :: Runs(s, ls) && After(s, ls) == m
  }

  lemma LeadsNowhere(s: State)
    ensures Leads(s, s) && Reaches(s, s)
  {
    assert ReloadFree([]) && Runs(s, []) && After(s, []) == s;
  }

  lemma LeadsOn(s: State, m: State, l: Step)
    requires Leads(s, m) && WellFormed(m) && Enabled(m, l) && !l.Close?
    ensures Leads(s, Next(m, l))
  {
    hide Next, WellFormed, Enabled, Runs, After;
    var ls :| ReloadFree(ls) && Runs(s, ls) && After(s, ls) == m;
    RunSnoc(s, ls, l);
    var more := ls + [l];
    assert ReloadFree(more) && Runs(s, more) && After(s, more) == Next(m, l);
  }

  lemma LeadsTransitive(a: State, b: State, c: State)
    requires Leads(a, b) && Leads(b, c)
    ensures Leads(a, c)
  {
    hide Next, WellFormed, Enabled, Runs, After;
    var ls :| ReloadFree(ls) && Runs(a, ls) && After(a, ls) == b;
    var ms :| ReloadFree(ms) && Runs(b, ms) && After(b, ms) == c;
    RunsSplit(a, ls, ms);
    assert ReloadFree(ls + ms) && Runs(a, ls + ms);
  }

  lemma LeadsReaches(a: State, b: State)
    requires Leads(a, b)
    ensures Reaches(a, b)
  {
  }

  lemma ReachesOn(s: State, m: State, l: Step)
    requires Reaches(s, m) && WellFormed(m) && Enabled(m, l)
    ensures Reaches(s, Next(m, l))
  {
    hide Next, WellFormed, Enabled, Runs, After;
    var ls :| Runs(s, ls) && After(s, ls) == m;
    RunSnoc(s, ls, l);
    var more := ls + [l];
    assert Runs(s, more) && After(s, more) == Next(m, l);
  }

  lemma ReachesTransitive(a: State, b: State, c: State)
    requires Reaches(a, b) && Reaches(b, c)
    ensures Reaches(a, c)
  {
    hide Next, WellFormed, Enabled, Runs, After;
    var ls :| Runs(a, ls) && After(a, ls) == b;
    var ms :| Runs(b, ms) && After(b, ms) == c;
    RunsSplit(a, ls, ms);
    assert Runs(a, ls + ms);
  }
}
