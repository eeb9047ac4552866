/** Where commands are: one token each, in the channel of their own generation. */
module Tokens {
  import opened Prelude
  import opened Limiting
  import opened Supervisor
  import opened Machine
  import opened Invariant

  ghost predicate Reached(s0: State, ls: seq<Step>, s: State) {
    Init(s0) && Runs(s0, ls) && After(s0, ls) == s
  }

  lemma ReachedInv(s0: State, ls: seq<Step>, s: State)
    requires Reached(s0, ls, s)
    ensures Inv(s) && WellFormed(s)
  {
    InitInv(s0);
    RunKeeps(s0, ls);
  }

  // ---------------------------------------------------------------- one token per command

  /** No command is with two goroutines, in a channel twice, in two channels, or with a goroutine and in a channel. */
  ghost predicate OneToken(s: State) {
    && (forall t, u :: 0 <= t < u < |s.threads| && At(s, t) && At(s, u) ==> s.threads[t].cmd != s.threads[u].cmd)
    && (forall t, k :: At(s, t) && 0 <= k < |s.gens| ==> s.threads[t].cmd !in s.gens[k].queue)
    && (forall k :: 0 <= k < |s.gens| ==> NoDup(s.gens[k].queue))
    && (forall j, k, i :: 0 <= j < |s.gens| && 0 <= k < |s.gens| && j != k && 0 <= i < |s.gens[j].queue| ==>
          s.gens[j].queue[i] !in s.gens[k].queue)
  }

  lemma InvOneToken(s: State)
    requires Inv(s)
    ensures OneToken(s)
  {
    forall t, u | 0 <= t < u < |s.threads| && At(s, t) && At(s, u) ensures s.threads[t].cmd != s.threads[u].cmd {
      assert ThreadOk(s, t) && ThreadOk(s, u);
    }
    forall t, k | At(s, t) && 0 <= k < |s.gens| ensures s.threads[t].cmd !in s.gens[k].queue {
      assert ThreadOk(s, t);
      if s.threads[t].cmd in s.gens[k].queue { QueuedAt(s, s.threads[t].cmd, k); }
    }
    forall k | 0 <= k < |s.gens| ensures NoDup(s.gens[k].queue) { assert GenOk(s, k); }
    forall j, k, i | 0 <= j < |s.gens| && 0 <= k < |s.gens| && j != k && 0 <= i < |s.gens[j].queue|
      ensures s.gens[j].queue[i] !in s.gens[k].queue
    {
      var c := s.gens[j].queue[i];
      QueuedAt(s, c, j);
      if c in s.gens[k].queue { QueuedAt(s, c, k); }
    }
  }

  /** In every reachable state each command has at most one token, and so at most one live process. */
  lemma TokenUniqueness(s0: State, ls: seq<Step>, s: State)
    requires Reached(s0, ls, s)
    ensures OneToken(s)
    ensures forall t, u :: 0 <= t < u < |s.threads| && s.threads[t].pc.Alive? && s.threads[u].pc.Alive? ==>
              s.threads[t].cmd != s.threads[u].cmd
  {
    ReachedInv(s0, ls, s);
    InvOneToken(s);
  }

  // ---------------------------------------------------------------- generations do not mix

  /**
   * A channel only ever holds commands of its own generation, never more than its capacity, and nothing once it has
   * been closed and drained.
   */
  lemma GenerationIsolation(s0: State, ls: seq<Step>, s: State, k: nat, c: nat)
    requires Reached(s0, ls, s) && k < |s.gens|
    ensures |s.gens[k].queue| <= 20
    ensures c in s.gens[k].queue ==> c < |s.cmds| && s.cmds[c].gen == k
    ensures s.gens[k].closed && !(k == s.Cur() && s.stage.Closing?) ==> s.gens[k].queue == []
  {
    ReachedInv(s0, ls, s);
    assert GenOk(s, k);
    if c in s.gens[k].queue { QueuedAt(s, c, k); }
  }

  // ---------------------------------------------------------------- status and error

  ghost predicate HasProcess(s: State, c: nat) {
    exists t :: At(s, t) && s.threads[t].cmd == c && s.threads[t].pc.Alive?
  }

  lemma StatusOfLive(s: State, c: nat)
    requires Inv(s) && c < |s.cmds|
    ensures s.cmds[c].status == StatusRunning <==> HasProcess(s, c)
    ensures forall t :: At(s, t) && s.threads[t].cmd == c
                        && (s.threads[t].pc.Entering? || s.threads[t].pc.Launching? || s.threads[t].pc.Alive?) ==>
              s.cmds[c].err == NoError
  {
    assert CmdOk(s, c);
    var loc := s.hist[c].loc;
    forall t | At(s, t) && s.threads[t].cmd == c ensures loc == InThread(t) { assert ThreadOk(s, t); }
    if s.cmds[c].status == StatusRunning {
      assert At(s, loc.t) && s.threads[loc.t].pc.Alive?;
    }
  }

  /** Status is Running exactly while a process lives, and Err is nil while the command launches or runs. */
  lemma StatusIsTruthful(s0: State, ls: seq<Step>, s: State, c: nat)
    requires Reached(s0, ls, s) && c < |s.cmds|
    ensures s.cmds[c].status == StatusRunning <==> HasProcess(s, c)
    ensures forall t :: At(s, t) && s.threads[t].cmd == c
                        && (s.threads[t].pc.Entering? || s.threads[t].pc.Launching? || s.threads[t].pc.Alive?) ==>
              s.cmds[c].err == NoError
  {
    ReachedInv(s0, ls, s);
    StatusOfLive(s, c);
  }

  /** A command that was refused has no error and one whose log file failed says so, for as long as the daemon lives. */
  lemma ErrorTellsTheEnd(s0: State, ls: seq<Step>, s: State, c: nat)
    requires Reached(s0, ls, s) && c < |s.cmds|
    ensures WasRefused(Log(s, c)) ==> s.cmds[c].err == NoError
    ensures LostItsLog(Log(s, c)) ==> s.cmds[c].err == LogError
  {
    ReachedInv(s0, ls, s);
    assert CmdOk(s, c);
    EndAndError(s.cmds[c], s.hist[c].log, s.gens[s.cmds[c].gen].cancelled, s.now);
  }

  lemma EndAndError(cmd: DCmd, log: seq<Event>, cancelled: bool, now: int)
    requires Legal(Boot(cmd.logged), log) && Agrees(cmd, cancelled, now, Replay(Boot(cmd.logged), log).value)
    ensures WasRefused(log) ==> cmd.err == NoError
    ensures LostItsLog(log) ==> cmd.err == LogError
  {
    WhyItEnded(Boot(cmd.logged), log);
  }

  // ---------------------------------------------------------------- restart counters

  function GrantsWithLabels(cmds: seq<DCmd>, hist: seq<Hist>, labels: seq<Str>): nat
    requires |cmds| == |hist|
  {
    if cmds == [] then 0
    else
      var n := |cmds| - 1;
      GrantsWithLabels(cmds[..n], hist[..n], labels)
      + if MetricLabels(cmds[n].entry.annotations) == labels then Grants(hist[n].log) else 0
  }

  ghost predicate CountersOk(s: State)
    requires |s.cmds| == |s.hist|
  {
    forall labels :: Count(s.restarts, labels) == GrantsWithLabels(s.cmds, s.hist, labels)
  }

  ghost predicate SameGrants(cmds: seq<DCmd>, hist: seq<Hist>, cmds': seq<DCmd>, hist': seq<Hist>) {
    && |cmds| == |hist| <= |cmds'| == |hist'|
    && (forall c :: 0 <= c < |cmds| ==>
          cmds'[c].entry == cmds[c].entry && Grants(hist'[c].log) == Grants(hist[c].log))
    && (forall c :: |cmds| <= c < |cmds'| ==> hist'[c].log == [])
  }

  lemma {:induction false} GrantsUnchanged(
      cmds: seq<DCmd>, hist: seq<Hist>, cmds': seq<DCmd>, hist': seq<Hist>, labels: seq<Str>)
    requires SameGrants(cmds, hist, cmds', hist')
    ensures GrantsWithLabels(cmds', hist', labels) == GrantsWithLabels(cmds, hist, labels)
    decreases |cmds'|
  {
    if cmds' != [] {
      var n := |cmds'| - 1;
      if |cmds'| == |cmds| {
        GrantsUnchanged(cmds[..n], hist[..n], cmds'[..n], hist'[..n], labels);
      } else {
        GrantsUnchanged(cmds, hist, cmds'[..n], hist'[..n], labels);
      }
    }
  }

  lemma {:induction false} GrantCounted(
      cmds: seq<DCmd>, hist: seq<Hist>, c: nat, cmd: DCmd, h: Hist, labels: seq<Str>)
    requires c < |cmds| == |hist| && cmd.entry == cmds[c].entry
    requires Grants(h.log) == Grants(hist[c].log) + 1
    ensures GrantsWithLabels(cmds[c := cmd], hist[c := h], labels) ==
            GrantsWithLabels(cmds, hist, labels)
            + if MetricLabels(cmd.entry.annotations) == labels then 1 else 0
    decreases |cmds|
  {
    var n := |cmds| - 1;
    if c == n {
      assert cmds[c := cmd][..n] == cmds[..n] && hist[c := h][..n] == hist[..n];
    } else {
      assert cmds[c := cmd][..n] == cmds[..n][c := cmd] && hist[c := h][..n] == hist[..n][c := h];
      GrantCounted(cmds[..n], hist[..n], c, cmd, h, labels);
    }
  }

  lemma GrantsSnoc(log: seq<Event>, e: Event)
    ensures Grants(log + [e]) == Grants(log) + if e.Granted? then 1 else 0
  {
    assert (log + [e])[..|log + [e]| - 1] == log;
  }

  lemma EffectGrantsNothing(log: seq<Event>, events: seq<Event>)
    requires |events| <= 1 && (events != [] ==> !events[0].Granted?)
    ensures Grants(log + events) == Grants(log)
  {
    if events == [] {
      assert log + events == log;
    } else {
      assert events == [events[0]];
      GrantsSnoc(log, events[0]);
    }
  }

  lemma MoveSameGrants(s: State, t: nat, e: Effect)
    requires t < |s.threads| && s.threads[t].cmd < |s.cmds| == |s.hist| && e.cmd.entry == s.cmds[s.threads[t].cmd].entry
    requires Grants(s.hist[s.threads[t].cmd].log + e.events) == Grants(s.hist[s.threads[t].cmd].log)
    ensures var s' := Move(s, t, e.pc, e.cmd, e.events); SameGrants(s.cmds, s.hist, s'.cmds, s'.hist)
  {
  }

  lemma MoveGrantsNothing(s: State, l: Step)
    requires WellFormed(s) && Enabled(s, l) && IsMove(l)
    requires l.Fire? ==> !CanAdd(s.cmds[s.threads[l.t].cmd].limiter, 1, s.now)
    ensures var s' := Next(s, l);
            SameGrants(s.cmds, s.hist, s'.cmds, s'.hist) && s'.restarts == s.restarts
  {
    EffectFacts(s, l);
    var e := EffectOf(s, l);
    EffectGrantsNothing(s.hist[s.threads[l.t].cmd].log, e.events);
    MoveSameGrants(s, l.t, e);
  }

  lemma DrainGrantsNothing(s: State)
    requires WellFormed(s) && Enabled(s, Drain)
    ensures var s' := Next(s, Drain); SameGrants(s.cmds, s.hist, s'.cmds, s'.hist)
  {
    var c := s.gens[s.Cur()].queue[0];
    var s' := Next(s, Drain);
    assert s' == Drained(s);
    OneLogSameGrants(s.cmds, s.hist, c, s.cmds[c], s'.hist[c], Stopped(s.now));
  }

  lemma InstallGrantsNothing(s: State, entries: seq<Entry>)
    requires WellFormed(s)
    ensures var s' := Installed(s, entries); SameGrants(s.cmds, s.hist, s'.cmds, s'.hist)
  {
  }

  lemma CancelGrantsNothing(s: State)
    requires WellFormed(s)
    ensures SameGrants(s.cmds, s.hist, s.cmds, CancelHist(s))
  {
    forall c | 0 <= c < |s.cmds| ensures Grants(s.hist[c].log + [Canceled(s.now)]) == Grants(s.hist[c].log) {
      GrantsSnoc(s.hist[c].log, Canceled(s.now));
    }
  }

  lemma ResetGrantsNothing(s: State, c: nat)
    requires WellFormed(s) && Enabled(s, ResetOne(c))
    ensures var s' := Next(s, ResetOne(c)); SameGrants(s.cmds, s.hist, s'.cmds, s'.hist)
  {
    var s' := Next(s, ResetOne(c));
    OneLogSameGrants(s.cmds, s.hist, c, s'.cmds[c], s'.hist[c], LimiterReset(s.now));
  }

  lemma OneLogSameGrants(cmds: seq<DCmd>, hist: seq<Hist>, c: nat, cmd: DCmd, h: Hist, e: Event)
    requires c < |cmds| == |hist| && cmd.entry == cmds[c].entry && h.log == hist[c].log + [e] && !e.Granted?
    ensures SameGrants(cmds, hist, cmds[c := cmd], hist[c := h])
  {
    GrantsSnoc(hist[c].log, e);
  }

  lemma QuietSteps(s: State, l: Step)
    requires WellFormed(s) && Enabled(s, l)
    requires l.Tick? || l.Send? || l.Arm? || l.Receive? || l.Return? || l.Close? || l.NewChannel? || l.NewContext?
    ensures var s' := Next(s, l);
            && s'.cmds == s.cmds && s'.restarts == s.restarts && |s'.hist| == |s.hist|
            && forall c :: 0 <= c < |s.hist| ==> s'.hist[c].log == s.hist[c].log
  {
  }

  lemma SameLogsSameGrants(cmds: seq<DCmd>, hist: seq<Hist>, hist': seq<Hist>)
    requires |cmds| == |hist| == |hist'| && forall c :: 0 <= c < |hist| ==> hist'[c].log == hist[c].log
    ensures SameGrants(cmds, hist, cmds, hist')
  {
  }

  /** Except for a granted restart, no step adds a grant to any log. */
  lemma OtherStepsGrantNothing(s: State, l: Step)
    requires WellFormed(s) && Enabled(s, l) && !IsMove(l)
    ensures var s' := Next(s, l);
            SameGrants(s.cmds, s.hist, s'.cmds, s'.hist) && s'.restarts == s.restarts
  {
    if l.Install? {
      InstallGrantsNothing(s, l.entries);
    } else if l.Drain? {
      DrainGrantsNothing(s);
    } else if l.Cancel? {
      CancelGrantsNothing(s);
    } else if l.ResetOne? {
      ResetGrantsNothing(s, l.c);
    } else {
      QuietSteps(s, l);
      SameLogsSameGrants(s.cmds, s.hist, Next(s, l).hist);
    }
  }

  lemma GrantChanges(s: State, t: nat, look: Str)
    requires WellFormed(s) && Enabled(s, Fire(t, look)) && CanAdd(s.cmds[s.threads[t].cmd].limiter, 1, s.now)
    ensures var m, c := Next(s, Fire(t, look)), s.threads[t].cmd;
            && c < |m.cmds| == |m.hist| && m.cmds == s.cmds[c := m.cmds[c]] && m.hist == s.hist[c := m.hist[c]]
            && m.cmds[c].entry == s.cmds[c].entry && m.hist[c].log == s.hist[c].log + [Granted(s.now)]
    ensures var labels := MetricLabels(s.cmds[s.threads[t].cmd].entry.annotations);
            Next(s, Fire(t, look)).restarts == s.restarts[labels := Count(s.restarts, labels) + 1]
  {
  }

  lemma GrantCounts(s: State, t: nat, look: Str)
    requires WellFormed(s) && Enabled(s, Fire(t, look)) && CanAdd(s.cmds[s.threads[t].cmd].limiter, 1, s.now)
    requires CountersOk(s)
    ensures |Next(s, Fire(t, look)).cmds| == |Next(s, Fire(t, look)).hist| && CountersOk(Next(s, Fire(t, look)))
  {
    var s', c := Next(s, Fire(t, look)), s.threads[t].cmd;
    GrantChanges(s, t, look);
    hide Next, WellFormed, Enabled;
    GrantsSnoc(s.hist[c].log, Granted(s.now));
    forall labels ensures Count(s'.restarts, labels) == GrantsWithLabels(s'.cmds, s'.hist, labels) {
      GrantCounted(s.cmds, s.hist, c, s'.cmds[c], s'.hist[c], labels);
    }
  }

  lemma NoGrantCounts(s: State, s': State)
    requires |s.cmds| == |s.hist| && CountersOk(s) && SameGrants(s.cmds, s.hist, s'.cmds, s'.hist)
    requires s'.restarts == s.restarts
    ensures CountersOk(s')
  {
    forall labels ensures Count(s'.restarts, labels) == GrantsWithLabels(s'.cmds, s'.hist, labels) {
      GrantsUnchanged(s.cmds, s.hist, s'.cmds, s'.hist, labels);
    }
  }

  lemma StepCounts(s: State, l: Step)
    requires WellFormed(s) && Enabled(s, l) && CountersOk(s) && |Next(s, l).cmds| == |Next(s, l).hist|
    ensures CountersOk(Next(s, l))
  {
    if l.Fire? && CanAdd(s.cmds[s.threads[l.t].cmd].limiter, 1, s.now) {
      GrantCounts(s, l.t, l.look);
    } else {
      if IsMove(l) { MoveGrantsNothing(s, l); } else { OtherStepsGrantNothing(s, l); }
      NoGrantCounts(s, Next(s, l));
    }
  }

  lemma {:induction false} NoGrantsAtFirst(cmds: seq<DCmd>, hist: seq<Hist>, labels: seq<Str>)
    requires |cmds| == |hist| && forall c :: 0 <= c < |hist| ==> hist[c].log == []
    ensures GrantsWithLabels(cmds, hist, labels) == 0
    decreases |cmds|
  {
    if cmds != [] {
      NoGrantsAtFirst(cmds[..|cmds| - 1], hist[..|cmds| - 1], labels);
    }
  }

  /** Each restart counter equals the restarts granted to all commands, of any generation, with its label values. */
  lemma {:induction false} RestartCountersAgree(s0: State, ls: seq<Step>, s: State)
    requires Reached(s0, ls, s)
    ensures |s.cmds| == |s.hist| && CountersOk(s)
    decreases |ls|
  {
    ReachedInv(s0, ls, s);
    if ls == [] {
      forall labels ensures Count(s.restarts, labels) == GrantsWithLabels(s.cmds, s.hist, labels) {
        NoGrantsAtFirst(s.cmds, s.hist, labels);
      }
    } else {
      var before := After(s0, ls[..|ls| - 1]);
      RestartCountersAgree(s0, ls[..|ls| - 1], before);
      StepCounts(before, ls[|ls| - 1]);
    }
  }

  /** The annotations that the restart counter is labelled with. */
  ghost predicate SameLabels(a: Annotations, b: Annotations) {
    forall key :: key in ["name", "port", "hostname", "ip", "app"] ==> Label(a, key) == Label(b, key)
  }

  /** Two commands share a restart counter exactly when these five annotations agree. */
  lemma CountersAreShared(a: Annotations, b: Annotations)
    ensures MetricLabels(a) == MetricLabels(b) <==> SameLabels(a, b)
  {
    var keys := ["name", "port", "hostname", "ip", "app"];
    assert keys[0] in keys && keys[1] in keys && keys[2] in keys && keys[3] in keys && keys[4] in keys;
    if MetricLabels(a) == MetricLabels(b) {
      forall i | 0 <= i < 5 ensures Label(a, keys[i]) == Label(b, keys[i]) {
        assert MetricLabels(a)[i] == MetricLabels(b)[i];
      }
    }
  }

  /** A granted restart raises the counter of the commands with the same five annotations by one, and no other. */
  lemma RestartIsCounted(s: State, t: nat, look: Str, a: Annotations)
    requires WellFormed(s) && Enabled(s, Fire(t, look))
    ensures var m, own := Next(s, Fire(t, look)), s.cmds[s.threads[t].cmd].entry.annotations;
            Count(m.restarts, MetricLabels(a)) ==
            Count(s.restarts, MetricLabels(a)) + if m.threads[t].pc.Entering? && SameLabels(a, own) then 1 else 0
  {
    CountersAreShared(a, s.cmds[s.threads[t].cmd].entry.annotations);
    if CanAdd(s.cmds[s.threads[t].cmd].limiter, 1, s.now) {
      GrantChanges(s, t, look);
    }
  }
}
