/** When `Reload` may close the old channel: exactly when nobody is about to send on it or to receive from it. */
module Reloading {
  import opened Limiting
  import opened Machine
  import opened Invariant
  import opened Tokens
  import opened Lifetimes
  import opened Draining

  /**
   * No goroutine is past its context check, and every consumer has returned. A consumer between two turns of its loop
   * still counts: it may reach its select while the channel is closed.
   */
  ghost predicate Quiescent(s: State) {
    && (forall t :: At(s, t) ==> !s.threads[t].pc.Sending?)
    && (forall g :: 0 <= g < |s.gens| ==> s.gens[g].consumer.Returned?)
  }

  /** Nobody is about to use a closed channel, and inside `Reload` no consumer is about to look for one. */
  ghost predicate NoDanger(s: State) {
    && (forall t :: At(s, t) && s.threads[t].pc.Sending? ==> IsOpen(s, s.threads[t].pc.ch))
    && (forall g :: 0 <= g < |s.gens| && s.gens[g].consumer.Selecting? ==> IsOpen(s, s.gens[g].consumer.k))
    && (!s.stage.Serving? ==>
          forall g :: 0 <= g < |s.gens| ==> s.gens[g].consumer.Returned? || s.gens[g].consumer.Idle?)
  }

  ghost predicate IsOpen(s: State, k: nat) {
    k < |s.gens| && !s.gens[k].closed
  }

  /** Before the next reload begins, some run crashes. */
  ghost predicate CanCrash(s: State) {
    exists m :: Leads(s, m) && m.crashed
  }

  // ---------------------------------------------------------------- safe reloads

  lemma MoveStaysSafe(s: State, l: Step)
    requires Inv(s) && WellFormed(s) && Enabled(s, l) && IsMove(l) && NoDanger(s)
    ensures NoDanger(Next(s, l)) && !Next(s, l).crashed
  {
    SenderIsSafe(s, l);
    NewPlaceIsSafe(s, l);
  }

  /** A goroutine that gets past its context check has an open channel in hand. */
  lemma SenderIsSafe(s: State, l: Step)
    requires Inv(s) && WellFormed(s) && Enabled(s, l) && IsMove(l)
    ensures EffectOf(s, l).pc.Sending? ==> IsOpen(s, EffectOf(s, l).pc.ch)
  {
    hide EffectOf, FireEffect;
    EffectFacts(s, l);
    assert ThreadOk(s, l.t);
    assert GenOk(s, s.cmds[s.threads[l.t].cmd].gen);
  }

  lemma NewPlaceIsSafe(s: State, l: Step)
    requires WellFormed(s) && Enabled(s, l) && IsMove(l) && NoDanger(s)
    requires EffectOf(s, l).pc.Sending? ==> IsOpen(s, EffectOf(s, l).pc.ch)
    ensures NoDanger(Next(s, l)) && !Next(s, l).crashed
  {
    assert !s.crashed && s.threads[l.t].cmd < |s.cmds|;
    hide EffectOf, WellFormed, Enabled, NoDanger;
    MovedIsSafe(s, Next(s, l), l.t, EffectOf(s, l).pc);
  }

  lemma MovedIsSafe(s: State, m: State, t: nat, pc: Pc)
    requires NoDanger(s) && t < |s.threads| && (pc.Sending? ==> IsOpen(s, pc.ch))
    requires m.threads == s.threads[t := Thread(s.threads[t].cmd, pc)] && m.gens == s.gens && m.stage == s.stage
    ensures NoDanger(m)
  {
  }

  lemma StageStaysSafe(s: State, l: Step)
    requires Inv(s) && WellFormed(s) && Enabled(s, l) && NoDanger(s)
    requires l.Drain? || l.NewChannel? || l.NewContext? || l.Install? || l.Cancel?
    ensures NoDanger(Next(s, l)) && !Next(s, l).crashed
  {
    var s' := Next(s, l);
    assert forall k: nat :: IsOpen(s, k) ==> IsOpen(s', k);
    if l.Install? {
      assert forall t :: At(s', t) && t >= |s.threads| ==> s'.threads[t].pc.Entering?;
    }
  }

  lemma OtherStaysSafe(s: State, l: Step)
    requires Inv(s) && WellFormed(s) && Enabled(s, l) && NoDanger(s)
    requires l.Tick? || l.Send? || l.Return? || l.ResetOne?
    ensures NoDanger(Next(s, l)) && !Next(s, l).crashed
  {
  }

  lemma ArmStaysSafe(s: State, g: nat)
    requires Inv(s) && WellFormed(s) && Enabled(s, Arm(g)) && NoDanger(s)
    ensures NoDanger(Next(s, Arm(g))) && !Next(s, Arm(g)).crashed
  {
    assert GenOk(s, s.Cur());
  }

  lemma ReceiveStaysSafe(s: State, g: nat)
    requires Inv(s) && WellFormed(s) && Enabled(s, Receive(g)) && NoDanger(s)
    ensures NoDanger(Next(s, Receive(g))) && !Next(s, Receive(g)).crashed
  {
    assert IsOpen(s, s.gens[g].consumer.k);
  }

  lemma StepStaysSafe(s: State, l: Step)
    requires Inv(s) && WellFormed(s) && Enabled(s, l) && NoDanger(s) && !l.Close?
    ensures NoDanger(Next(s, l)) && !Next(s, l).crashed
  {
    if IsMove(l) {
      MoveStaysSafe(s, l);
    } else if l.Drain? || l.NewChannel? || l.NewContext? || l.Install? || l.Cancel? {
      StageStaysSafe(s, l);
    } else if l.Arm? {
      ArmStaysSafe(s, l.g);
    } else if l.Receive? {
      ReceiveStaysSafe(s, l.g);
    } else {
      OtherStaysSafe(s, l);
    }
  }

  lemma {:induction false} RunStaysSafe(s: State, ls: seq<Step>)
    requires Inv(s) && !s.crashed && NoDanger(s) && ReloadFree(ls) && Runs(s, ls)
    ensures NoDanger(After(s, ls)) && !After(s, ls).crashed
  {
    if ls != [] {
      RunStaysSafe(s, ls[..|ls| - 1]);
      RunKeeps(s, ls[..|ls| - 1]);
      StepStaysSafe(After(s, ls[..|ls| - 1]), ls[|ls| - 1]);
    }
  }

  lemma QuiescentCloseIsSafe(s: State)
    requires WellFormed(s) && Enabled(s, Close) && Quiescent(s)
    ensures NoDanger(Next(s, Close)) && !Next(s, Close).crashed
  {
  }

  // ---------------------------------------------------------------- unsafe reloads

  /** `Reload` has closed the channel; some consumer is still in its loop. */
  ghost predicate Shut(s: State, g: nat) {
    && Inv(s) && WellFormed(s) && !s.crashed && s.stage.Closing?
    && g < |s.gens| && (s.gens[g].consumer.Looping? || s.gens[g].consumer.Selecting?)
  }

  lemma DrainOne(s: State, g: nat)
    requires Shut(s, g) && s.gens[s.Cur()].queue != []
    ensures Enabled(s, Drain)
    ensures var m := Next(s, Drain);
            && Shut(m, g) && |m.gens[m.Cur()].queue| < |s.gens[s.Cur()].queue|
            && m.gens[g].consumer == s.gens[g].consumer
  {
    StepKeeps(s, Drain);
  }

  lemma {:induction false} DrainAll(s: State, g: nat) returns (m: State)
    requires Shut(s, g)
    ensures Leads(s, m) && Shut(m, g) && m.gens[m.Cur()].queue == [] && m.gens[g].consumer == s.gens[g].consumer
    decreases |s.gens[s.Cur()].queue|
  {
    LeadsNowhere(s);
    if s.gens[s.Cur()].queue == [] {
      m := s;
    } else {
      DrainOne(s, g);
      LeadsOn(s, s, Drain);
      m := DrainAll(Next(s, Drain), g);
      LeadsTransitive(s, Next(s, Drain), m);
    }
  }

  lemma ReceiveCrashes(s: State, g: nat)
    requires Shut(s, g) && s.gens[s.Cur()].queue == [] && s.gens[g].consumer.Selecting?
    ensures CanCrash(s)
  {
    assert GenOk(s, g) && GenOk(s, s.gens[g].consumer.k);
    LeadsNowhere(s);
    LeadsOn(s, s, Receive(g));
  }

  lemma ArmInside(s: State, g: nat)
    requires Shut(s, g) && s.gens[s.Cur()].queue == [] && s.gens[g].consumer.Looping?
    ensures Enabled(s, Arm(g)) && Shut(Next(s, Arm(g)), g)
    ensures var m := Next(s, Arm(g)); m.gens[m.Cur()].queue == [] && m.gens[g].consumer.Selecting?
  {
    StepKeeps(s, Arm(g));
  }

  lemma CrashFollows(s: State, m: State)
    requires Leads(s, m) && CanCrash(m)
    ensures CanCrash(s)
  {
    var n :| Leads(m, n) && n.crashed;
    LeadsTransitive(s, m, n);
  }

  /** A consumer still in its loop can take the nil command out of the closed channel. */
  lemma ConsumerCrashes(s: State, g: nat)
    requires Shut(s, g)
    ensures CanCrash(s)
  {
    var m := DrainAll(s, g);
    if m.gens[g].consumer.Looping? {
      ArmInside(m, g);
      ReceiveCrashes(Next(m, Arm(g)), g);
      LeadsNowhere(m);
      LeadsOn(m, m, Arm(g));
      CrashFollows(m, Next(m, Arm(g)));
    } else {
      ReceiveCrashes(m, g);
    }
    CrashFollows(s, m);
  }

  lemma SenderCrashes(s: State, t: nat)
    requires Inv(s) && WellFormed(s) && !s.crashed && s.stage.Closing?
    requires At(s, t) && s.threads[t].pc.Sending?
    ensures CanCrash(s)
  {
    assert GenOk(s, s.threads[t].pc.ch);
    LeadsNowhere(s);
    LeadsOn(s, s, Send(t));
  }

  lemma UnquietCloseCrashes(s: State)
    requires Inv(s) && WellFormed(s) && Enabled(s, Close) && !Quiescent(s)
    ensures CanCrash(Next(s, Close))
  {
    var s' := Next(s, Close);
    StepKeeps(s, Close);
    if t :| At(s, t) && s.threads[t].pc.Sending? {
      SenderCrashes(s', t);
    } else {
      var g :| 0 <= g < |s.gens| && !s.gens[g].consumer.Returned?;
      assert GenOk(s, g);
      ConsumerCrashes(s', g);
    }
  }

  // ---------------------------------------------------------------- the exact condition

  /**
   * Once `Reload` has begun, and until the next one begins, some run sends on the closed channel or receives nil from
   * it, exactly when the reload began in a state that was not quiescent, whatever earlier reloads have left behind.
   */
  lemma ReloadCrashesIffNotQuiescent(s: State)
    requires Inv(s) && WellFormed(s) && Enabled(s, Close)
    ensures CanCrash(Next(s, Close)) <==> !Quiescent(s)
  {
    var s' := Next(s, Close);
    if Quiescent(s) {
      QuiescentCloseIsSafe(s);
      StepKeeps(s, Close);
      if m :| Leads(s', m) && m.crashed {
        var ls :| ReloadFree(ls) && Runs(s', ls) && After(s', ls) == m;
        RunStaysSafe(s', ls);
      }
    } else {
      UnquietCloseCrashes(s);
    }
  }

  /** Outside `Reload`, the daemon can crash before the next reload exactly when somebody is about to. */
  lemma CrashIffDanger(s: State)
    requires Inv(s) && WellFormed(s) && !s.crashed && s.stage.Serving?
    ensures CanCrash(s) <==> !NoDanger(s)
  {
    LeadsNowhere(s);
    if NoDanger(s) {
      if m :| Leads(s, m) && m.crashed {
        var ls :| ReloadFree(ls) && Runs(s, ls) && After(s, ls) == m;
        RunStaysSafe(s, ls);
      }
    } else if t :| At(s, t) && s.threads[t].pc.Sending? && !IsOpen(s, s.threads[t].pc.ch) {
      LeadsOn(s, s, Send(t));
    } else {
      var g :| 0 <= g < |s.gens| && s.gens[g].consumer.Selecting? && !IsOpen(s, s.gens[g].consumer.k);
      assert GenOk(s, s.gens[g].consumer.k);
      LeadsOn(s, s, Receive(g));
    }
  }

  /** Every reload of the run begins in a quiescent state. */
  ghost predicate QuietReloads(s: State, ls: seq<Step>)
    requires Runs(s, ls)
    decreases |ls|
  {
    ls == [] ||
    (&& QuietReloads(s, ls[..|ls| - 1])
     && (ls[|ls| - 1].Close? ==> Quiescent(After(s, ls[..|ls| - 1]))))
  }

  /** A daemon that only begins a reload when quiescent never touches a closed channel, over any number of reloads. */
  lemma {:induction false} QuietReloadsNeverCrash(s0: State, ls: seq<Step>)
    requires Init(s0) && Runs(s0, ls) && QuietReloads(s0, ls)
    ensures !After(s0, ls).crashed && NoDanger(After(s0, ls))
  {
    if ls != [] {
      var m := ls[..|ls| - 1];
      QuietReloadsNeverCrash(s0, m);
      InitInv(s0);
      RunKeeps(s0, m);
      if ls[|ls| - 1].Close? {
        QuiescentCloseIsSafe(After(s0, m));
      } else {
        StepStaysSafe(After(s0, m), ls[|ls| - 1]);
      }
    }
  }

  /** The context is cancelled while the consumer is between two turns of its loop. */
  lemma CancelFirst(s0: State)
    requires Init(s0)
    ensures Enabled(s0, Cancel) && Inv(Next(s0, Cancel)) && WellFormed(Next(s0, Cancel))
    ensures Enabled(Next(s0, Cancel), Close) && !Quiescent(Next(s0, Cancel))
  {
    InitInv(s0);
    InvWellFormed(s0);
    StepKeeps(s0, Cancel);
    assert Next(s0, Cancel).gens[0].consumer == Looping;
  }

  /** In a history of quiet reloads the only senders are those with the current channel in hand. */
  lemma QuietSendersAreCurrent(s: State, t: nat)
    requires Inv(s) && NoDanger(s) && s.stage.Serving? && At(s, t) && s.threads[t].pc.Sending?
    ensures s.threads[t].pc.ch == s.Cur()
  {
    assert IsOpen(s, s.threads[t].pc.ch) && GenOk(s, s.threads[t].pc.ch);
  }

  /** Nothing makes `Reload` wait: from every start, a reload after the cancellation can crash the daemon. */
  lemma ReloadAfterCancelCanCrash(s0: State)
    requires Init(s0)
    ensures exists m :: Reaches(s0, m) && m.crashed
  {
    CancelFirst(s0);
    var s := Next(s0, Cancel);
    UnquietCloseCrashes(s);
    InitInv(s0);
    InvWellFormed(s0);
    LeadsNowhere(s0);
    ReachesOn(s0, s0, Cancel);
    ReachesOn(s0, s, Close);
    var m :| Leads(Next(s, Close), m) && m.crashed;
    LeadsReaches(Next(s, Close), m);
    ReachesTransitive(s0, Next(s, Close), m);
  }

  /** From the cancellation to the end of the reload no goroutine newly gets past its context check. */
  lemma SendersOnlyShrink(s: State, l: Step, t: nat)
    requires Inv(s) && WellFormed(s) && Enabled(s, l)
    requires 0 <= Newest(s) < |s.gens| && s.gens[Newest(s)].cancelled
    requires var s' := Next(s, l); At(s', t) && s'.threads[t].pc.Sending?
    ensures At(s, t) && s.threads[t] == Next(s, l).threads[t]
  {
    if IsMove(l) {
      MoveMakesNoSender(s, l);
    }
  }

  lemma MoveMakesNoSender(s: State, l: Step)
    requires Inv(s) && WellFormed(s) && Enabled(s, l) && IsMove(l)
    requires 0 <= Newest(s) < |s.gens| && s.gens[Newest(s)].cancelled
    ensures !EffectOf(s, l).pc.Sending?
  {
    EffectFacts(s, l);
    var c := s.threads[l.t].cmd;
    assert CmdOk(s, c);
    CancelReachesBack(s, s.cmds[c].gen, Newest(s));
  }

  // ---------------------------------------------------------------- what a reload installs

  /** The commands of the last generation are exactly the given entries, in order. */
  ghost predicate InForce(s: State, entries: seq<Entry>) {
    && |entries| <= |s.cmds|
    && var first := |s.cmds| - |entries|;
       && (forall c :: 0 <= c < first ==> s.cmds[c].gen < s.Cur())
       && (forall c :: first <= c < |s.cmds| ==>
             s.cmds[c].gen == s.Cur() && s.cmds[c].entry == entries[c - first])
  }

  ghost function EntriesIn(cmds: seq<DCmd>): seq<Entry> {
    seq(|cmds|, i requires 0 <= i < |cmds| => cmds[i].entry)
  }

  /** The entries of the last completed reload of a run, or of the first generation. */
  ghost function LastEntries(s0: State, ls: seq<Step>): seq<Entry> {
    if ls == [] then EntriesIn(s0.cmds)
    else if ls[|ls| - 1].Install? then ls[|ls| - 1].entries
    else LastEntries(s0, ls[..|ls| - 1])
  }

  lemma StepKeepsInForce(s: State, l: Step, entries: seq<Entry>)
    requires Inv(s) && WellFormed(s) && Enabled(s, l) && !l.NewChannel? && !l.Install? && InForce(s, entries)
    ensures InForce(Next(s, l), entries)
  {
    hide EffectOf;
    SizesStay(s, l);
    if IsMove(l) {
      EffectFacts(s, l);
    }
  }

  /** Whenever `main` is outside `Reload`, the generation in force is that of the last completed reload. */
  lemma {:induction false} LastReloadIsInForce(s0: State, ls: seq<Step>)
    requires Init(s0) && Runs(s0, ls)
    ensures After(s0, ls).stage.Serving? || After(s0, ls).stage.Closing? ==> InForce(After(s0, ls), LastEntries(s0, ls))
  {
    if ls == [] {
      FirstInForce(s0);
    } else {
      InitInv(s0);
      RunKeeps(s0, ls[..|ls| - 1]);
      LastReloadIsInForce(s0, ls[..|ls| - 1]);
      NextInForce(After(s0, ls[..|ls| - 1]), ls[|ls| - 1], LastEntries(s0, ls[..|ls| - 1]));
    }
  }

  lemma FirstInForce(s0: State)
    requires Init(s0)
    ensures InForce(s0, LastEntries(s0, []))
  {
    forall c | 0 <= c < |s0.cmds| ensures s0.cmds[c].gen == 0 {
      assert s0.cmds[c] == NewCmd(s0.cmds[c].entry, 0, true);
    }
    OnlyGenerationInForce(s0);
  }

  lemma OnlyGenerationInForce(s: State)
    requires |s.gens| == 1 && forall c :: 0 <= c < |s.cmds| ==> s.cmds[c].gen == 0
    ensures InForce(s, EntriesIn(s.cmds))
  {
  }

  lemma StageAfter(s: State, l: Step)
    requires WellFormed(s) && Enabled(s, l) && (Next(s, l).stage.Serving? || Next(s, l).stage.Closing?)
    ensures l.Install? || s.stage.Serving? || s.stage.Closing?
    ensures !l.NewChannel?
  {
  }

  lemma NextInForce(s: State, l: Step, entries: seq<Entry>)
    requires Inv(s) && WellFormed(s) && Enabled(s, l)
    requires s.stage.Serving? || s.stage.Closing? ==> InForce(s, entries)
    ensures Next(s, l).stage.Serving? || Next(s, l).stage.Closing? ==>
              InForce(Next(s, l), if l.Install? then l.entries else entries)
  {
    if l.Install? {
      ReloadInstalls(s, l.entries);
    } else if Next(s, l).stage.Serving? || Next(s, l).stage.Closing? {
      StageAfter(s, l);
      StepKeepsInForce(s, l, entries);
    }
  }

  /** A reload leaves every old command alone and installs the entries in order, under a live context. */
  lemma ReloadInstalls(s: State, entries: seq<Entry>)
    requires Inv(s) && WellFormed(s) && Enabled(s, Install(entries))
    ensures var m := Next(s, Install(entries));
            && InForce(m, entries)
            && m.stage.Serving? && m.gens[m.Cur()] == Gen(false, false, [], Looping)
            && |m.cmds| == |s.cmds| + |entries| && m.cmds[..|s.cmds|] == s.cmds
  {
    forall c | 0 <= c < |s.cmds| ensures s.cmds[c].gen < s.Cur() {
      assert CmdOk(s, c);
    }
    NewChannelIsEmpty(s);
    NewestInForce(s, Next(s, Install(entries)), entries);
  }

  lemma NewChannelIsEmpty(s: State)
    requires Inv(s) && s.stage.Populating?
    ensures s.gens[s.Cur()] == Gen(false, false, [], Idle)
  {
    assert GenOk(s, s.Cur());
    if s.gens[s.Cur()].queue != [] {
      HeadIsNoNewer(s, s.Cur());
    }
  }

  lemma HeadIsNoNewer(s: State, k: nat)
    requires Inv(s) && k < |s.gens| && s.gens[k].queue != []
    ensures k <= Newest(s)
  {
    QueuedAt(s, s.gens[k].queue[0], k);
    assert CmdOk(s, s.gens[k].queue[0]);
  }

  lemma NewestInForce(s: State, m: State, entries: seq<Entry>)
    requires m.gens != [] && m.cmds == s.cmds + NewCmds(entries, m.Cur(), false)
    requires forall c :: 0 <= c < |s.cmds| ==> s.cmds[c].gen < m.Cur()
    ensures InForce(m, entries) && m.cmds[..|s.cmds|] == s.cmds
  {
  }

  /** Each installed command is exited, without error, log directory or spent restarts, and about to be started. */
  lemma ReloadStartsAfresh(s: State, entries: seq<Entry>, c: nat)
    requires Inv(s) && WellFormed(s) && Enabled(s, Install(entries))
    requires |s.cmds| <= c < |Next(s, Install(entries)).cmds|
    ensures var m := Next(s, Install(entries));
            && |m.cmds| == |s.cmds| + |entries|
            && m.cmds[c].status == StatusExited && m.cmds[c].err == NoError && !m.cmds[c].logged
            && m.cmds[c].limiter == Fresh() && m.cmds[c].exe == entries[c - |s.cmds|].exe
            && Supervised(m, c) && Log(m, c) == []
  {
    var m := Next(s, Install(entries));
    var t := |s.threads| + (c - |s.cmds|);
    InstalledAt(s, entries, c - |s.cmds|);
    assert At(m, t) && m.threads[t].cmd == c;
  }

  lemma InstalledAt(s: State, entries: seq<Entry>, i: nat)
    requires s.gens != [] && |s.hist| == |s.cmds| && i < |entries|
    ensures var m := Installed(s, entries);
            && m.cmds[|s.cmds| + i] == NewCmd(entries[i], s.Cur(), false)
            && m.threads[|s.threads| + i] == Thread(|s.cmds| + i, Entering)
            && m.hist[|s.cmds| + i] == Hist(InThread(|s.threads| + i), [])
  {
  }

  /** In every reachable state exactly the commands of the first generation write a log. */
  lemma {:induction false} LogsIffFirst(s0: State, ls: seq<Step>, s: State, c: nat)
    requires Reached(s0, ls, s) && c < |s.cmds|
    ensures s.cmds[c].logged <==> s.cmds[c].gen == 0
    decreases |ls|
  {
    if ls == [] {
      assert s0.cmds[c] == NewCmd(s0.cmds[c].entry, 0, true);
    } else {
      var before, l := After(s0, ls[..|ls| - 1]), ls[|ls| - 1];
      ReachedInv(s0, ls[..|ls| - 1], before);
      if c < |before.cmds| {
        LogsIffFirst(s0, ls[..|ls| - 1], before, c);
        CmdsOnlyGrow(before, l);
      } else {
        MadeByInstall(before, l, c);
      }
    }
  }

  lemma MadeByInstall(s: State, l: Step, c: nat)
    requires Inv(s) && WellFormed(s) && Enabled(s, l) && |s.cmds| <= c < |Next(s, l).cmds|
    ensures !Next(s, l).cmds[c].logged && Next(s, l).cmds[c].gen > 0
  {
    if !l.Install? && !l.NewChannel? {
      SizesStay(s, l);
    }
  }
}
