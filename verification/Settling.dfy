/**
 * A cancelled daemon comes to rest: it can take only finitely many steps besides the passing of time and limiter
 * resets, and where it can take no more with at most 20 commands in its generation, a reload is safe.
 */
module Settling {
  import opened Machine
  import opened Invariant
  import opened Tokens
  import opened Lifetimes
  import opened Draining
  import opened Reloading
  import opened Capacity

  /** A cancelled daemon that has not crashed, before its reload. */
  ghost predicate Stopping(s: State) {
    && Inv(s) && WellFormed(s) && !s.crashed
    && s.stage.Serving? && s.gens[s.Cur()].cancelled
  }

  /** A step of a goroutine or of a consumer. */
  predicate IsBusy(l: Step) {
    IsMove(l) || l.Send? || l.Arm? || l.Receive? || l.Return?
  }

  /** No goroutine and no consumer can take a step. */
  ghost predicate AtRest(s: State)
    requires WellFormed(s)
  {
    forall l: Step :: IsBusy(l) ==> !Enabled(s, l)
  }

  lemma AllCancelled(s: State, g: nat)
    requires Stopping(s) && g < |s.gens|
    ensures s.gens[g].cancelled
  {
    CancelReachesBack(s, g, s.Cur());
  }

  // ---------------------------------------------------------------- who can step

  /** A goroutine that waits to send on a full channel; on a closed one it need not wait. */
  ghost predicate HeldUp(s: State, t: nat)
    requires WellFormed(s) && At(s, t)
  {
    s.threads[t].pc.Sending? && !Enabled(s, Send(t))
  }

  /** The goroutine of a command can step unless it waits to send on a full channel. */
  lemma GoroutineStepsOn(s: State, t: nat) returns (l: Step)
    requires Stopping(s) && At(s, t) && !HeldUp(s, t)
    ensures IsBusy(l) && Enabled(s, l) && Concerns(s, l, s.threads[t].cmd)
    ensures Next(s, l).crashed ==> s.threads[t].pc.Sending? && !IsOpen(s, s.threads[t].pc.ch)
  {
    assert ThreadOk(s, t);
    match s.threads[t].pc {
      case Entering => l := Enter(t);
      case Launching(_) => l := Starts(t);
      case Alive(_) => l := WaitReturns(t, false);
      case Checking(_) => l := CheckCtx(t);
      case Sending(_) => l := Send(t);
      case Spawned => l := SetTimer(t);
      case Waiting(_, ctx) =>
        AllCancelled(s, ctx);
        l := Abandon(t);
    }
  }

  /** A token that is neither queued nor behind a full channel can always step, or crash on a closed channel. */
  lemma TokenCanStep(s: State, c: nat)
    requires Stopping(s) && c < |s.cmds| && Supervised(s, c)
    requires forall k :: 0 <= k < |s.gens| ==> c !in s.gens[k].queue
    requires forall t :: At(s, t) && s.threads[t].cmd == c && s.threads[t].pc.Sending? ==>
               |s.gens[s.threads[t].pc.ch].queue| < CAPACITY
    ensures exists l :: IsBusy(l) && Enabled(s, l) && (TokenStep(s, l, c) || Next(s, l).crashed)
  {
    var t :| At(s, t) && s.threads[t].cmd == c;
    var l := GoroutineStepsOn(s, t);
    assert TokenStep(s, l, c) || Next(s, l).crashed;
  }

  lemma ConsumerStepsOn(s: State, g: nat) returns (l: Step)
    requires Stopping(s) && g < |s.gens| && !s.gens[g].consumer.Returned?
    ensures IsBusy(l) && Enabled(s, l) && !Next(s, l).crashed
  {
    assert GenOk(s, g);
    if s.gens[g].consumer.Looping? {
      l := Arm(g);
    } else {
      AllCancelled(s, s.gens[g].consumer.ctx);
      l := Return(g);
    }
  }

  ghost predicate Small(s: State) {
    s.gens != [] && |Members(s, s.Cur(), |s.cmds|)| <= CAPACITY
  }

  /** No goroutine has a closed channel in hand and is about to send on it. */
  ghost predicate SendersOpen(s: State) {
    forall t :: At(s, t) && s.threads[t].pc.Sending? ==> IsOpen(s, s.threads[t].pc.ch)
  }

  /** Only a crash could come next. */
  ghost predicate Spent(s: State)
    requires WellFormed(s)
  {
    forall l: Step :: IsBusy(l) && Enabled(s, l) ==> Next(s, l).crashed
  }

  lemma SenderCanSend(s: State, t: nat)
    requires Stopping(s) && Small(s) && At(s, t) && s.threads[t].pc.Sending?
    ensures Enabled(s, Send(t))
  {
    assert GenOk(s, s.threads[t].pc.ch);
    if s.threads[t].pc.ch == s.Cur() {
      NeverFullForSender(s, t);
    }
  }

  /** Goroutines that hold no closed channel and consumers can go on without a crash until they have ended. */
  lemma SpentIsQuiescent(s: State)
    requires Stopping(s) && Small(s) && Spent(s) && SendersOpen(s)
    ensures Quiescent(s)
  {
    forall t | At(s, t) ensures !s.threads[t].pc.Sending? {
      if s.threads[t].pc.Sending? {
        SenderCanSend(s, t);
        var l := GoroutineStepsOn(s, t);
      }
    }
    forall g | 0 <= g < |s.gens| ensures s.gens[g].consumer.Returned? {
      if !s.gens[g].consumer.Returned? {
        var l := ConsumerStepsOn(s, g);
      }
    }
  }

  /** Where a cancelled generation of at most 20 commands comes to rest, a reload is safe. */
  lemma RestIsQuiescent(s: State)
    requires Stopping(s) && Small(s) && AtRest(s)
    ensures Quiescent(s)
  {
    forall t | At(s, t) ensures !s.threads[t].pc.Sending? {
      if s.threads[t].pc.Sending? { SenderCanSend(s, t); }
    }
    SpentIsQuiescent(s);
  }

  /** At rest no goroutine works for any command: the only tokens left are in the current channel. */
  lemma RestLeavesNoGoroutine(s: State, c: nat)
    requires Stopping(s) && Small(s) && AtRest(s) && c < |s.cmds| && Supervised(s, c)
    ensures c in s.gens[s.Cur()].queue
  {
    if t :| At(s, t) && s.threads[t].cmd == c {
      if s.threads[t].pc.Sending? { SenderCanSend(s, t); }
      var l := GoroutineStepsOn(s, t);
    } else {
      var k :| 0 <= k < |s.gens| && c in s.gens[k].queue;
      assert GenOk(s, k);
    }
  }

  // ---------------------------------------------------------------- the measure

  function ConsumerRank(consumer: Consumer): nat {
    match consumer
    case Looping => 2
    case Selecting(_, _) => 1
    case _ => 0
  }

  function ConsumerRanks(gens: seq<Gen>): nat {
    if gens == [] then 0 else ConsumerRanks(gens[..|gens| - 1]) + ConsumerRank(gens[|gens| - 1].consumer)
  }

  ghost function TokenRanks(s: State, n: nat): nat {
    if n == 0 then 0 else TokenRanks(s, n - 1) + RankOf(s, n - 1)
  }

  /** A consumer's turn costs it two ranks and is paid for by the token it takes along. */
  ghost function Measure(s: State): nat {
    2 * TokenRanks(s, |s.cmds|) + ConsumerRanks(s.gens)
  }

  lemma {:induction false} MeasureBound(s: State, n: nat, gens: seq<Gen>)
    ensures TokenRanks(s, n) <= 8 * n
    ensures ConsumerRanks(gens) <= 2 * |gens|
    decreases n, |gens|
  {
    if n > 0 {
      MeasureBound(s, n - 1, gens);
    } else if gens != [] {
      MeasureBound(s, 0, gens[..|gens| - 1]);
    }
  }

  lemma {:induction false} TokenRanksMono(s: State, s': State, n: nat)
    requires forall c: nat :: c < n ==> RankOf(s', c) <= RankOf(s, c)
    ensures TokenRanks(s', n) <= TokenRanks(s, n)
    ensures (exists c: nat :: c < n && RankOf(s', c) < RankOf(s, c)) ==> TokenRanks(s', n) < TokenRanks(s, n)
  {
    if n > 0 {
      TokenRanksMono(s, s', n - 1);
    }
  }

  lemma {:induction false} ConsumerRanksUpdate(gens: seq<Gen>, gens': seq<Gen>, g: nat)
    requires g < |gens| == |gens'|
    requires forall k :: 0 <= k < |gens| && k != g ==> gens'[k].consumer == gens[k].consumer
    ensures ConsumerRanks(gens') + ConsumerRank(gens[g].consumer)
            == ConsumerRanks(gens) + ConsumerRank(gens'[g].consumer)
    decreases |gens|
  {
    var n := |gens| - 1;
    if g == n {
      SameConsumers(gens[..n], gens'[..n]);
    } else {
      ConsumerRanksUpdate(gens[..n], gens'[..n], g);
    }
  }

  lemma {:induction false} SameConsumers(gens: seq<Gen>, gens': seq<Gen>)
    requires |gens| == |gens'| && forall k :: 0 <= k < |gens| ==> gens'[k].consumer == gens[k].consumer
    ensures ConsumerRanks(gens') == ConsumerRanks(gens)
  {
    if gens != [] {
      SameConsumers(gens[..|gens| - 1], gens'[..|gens| - 1]);
    }
  }

  // ---------------------------------------------------------------- every busy step costs

  lemma StoppingStays(s: State, l: Step)
    requires Stopping(s) && Enabled(s, l) && !l.Close?
    ensures Next(s, l).crashed || Stopping(Next(s, l))
    ensures var m := Next(s, l); |m.gens| == |s.gens| && |m.cmds| == |s.cmds|
    ensures Members(Next(s, l), s.Cur(), |s.cmds|) == Members(s, s.Cur(), |s.cmds|)
  {
    SizesStay(s, l);
    StepKeeps(s, l);
    CmdsOnlyGrow(s, l);
    ServingStays(s, l);
  }

  lemma ServingStays(s: State, l: Step)
    requires WellFormed(s) && Enabled(s, l) && s.stage.Serving? && !l.Close?
    ensures Next(s, l).stage.Serving?
  {
  }

  lemma RanksDescend(s: State, l: Step)
    requires Stopping(s) && Enabled(s, l) && !l.Close?
    ensures forall c: nat :: c < |s.cmds| ==> RankOf(Next(s, l), c) <= RankOf(s, c)
    ensures forall c: nat :: c < |s.cmds| && TokenStep(s, l, c) ==> RankOf(Next(s, l), c) < RankOf(s, c)
  {
    forall c: nat | c < |s.cmds|
      ensures RankOf(Next(s, l), c) <= RankOf(s, c)
      ensures TokenStep(s, l, c) ==> RankOf(Next(s, l), c) < RankOf(s, c)
    {
      if TokenStep(s, l, c) {
        assert CmdOk(s, c);
        AllCancelled(s, s.cmds[c].gen);
        TokenStepDescends(s, l, c);
      } else {
        OtherTokensStay(s, l, c);
      }
    }
  }

  /** A step takes some token further, or is a step of a consumer. */
  lemma BusyStepsMove(s: State, l: Step)
    requires Stopping(s) && Enabled(s, l) && IsBusy(l) && !l.Arm? && !l.Return? && !Next(s, l).crashed
    ensures exists c: nat :: c < |s.cmds| && TokenStep(s, l, c)
  {
    if l.Receive? {
      var k := s.gens[l.g].consumer.k;
      assert TokenStep(s, l, s.gens[k].queue[0]);
    } else {
      assert TokenStep(s, l, s.threads[l.t].cmd);
    }
  }

  lemma ConsumersOf(s: State, l: Step)
    requires Stopping(s) && Enabled(s, l) && !l.Close? && !Next(s, l).crashed
    ensures |Next(s, l).gens| == |s.gens|
    ensures l.Arm? || l.Return? ==> ConsumerRanks(Next(s, l).gens) < ConsumerRanks(s.gens)
    ensures l.Receive? ==> ConsumerRanks(Next(s, l).gens) == ConsumerRanks(s.gens) + 1
    ensures !l.Arm? && !l.Return? && !l.Receive? ==> ConsumerRanks(Next(s, l).gens) == ConsumerRanks(s.gens)
  {
    SizesStay(s, l);
    if l.Arm? || l.Return? || l.Receive? {
      ConsumerTurns(s, l);
      ConsumerRanksUpdate(s.gens, Next(s, l).gens, l.g);
    } else {
      ConsumersIdle(s, l);
      SameConsumers(s.gens, Next(s, l).gens);
    }
  }

  lemma ConsumerTurns(s: State, l: Step)
    requires WellFormed(s) && Enabled(s, l) && (l.Arm? || l.Return? || l.Receive?) && !Next(s, l).crashed
    ensures var gens' := Next(s, l).gens;
            && l.g < |s.gens| == |gens'|
            && (forall k :: 0 <= k < |s.gens| && k != l.g ==> gens'[k].consumer == s.gens[k].consumer)
            && ConsumerRank(s.gens[l.g].consumer) == (if l.Arm? then 2 else 1)
            && ConsumerRank(gens'[l.g].consumer) == (if l.Arm? then 1 else if l.Return? then 0 else 2)
  {
  }

  lemma ConsumersIdle(s: State, l: Step)
    requires WellFormed(s) && Enabled(s, l) && !l.Arm? && !l.Return? && !l.Receive? && !l.Install? && !l.NewChannel?
    ensures |Next(s, l).gens| == |s.gens|
    ensures forall k :: 0 <= k < |s.gens| ==> Next(s, l).gens[k].consumer == s.gens[k].consumer
  {
    if IsMove(l) {
      EffectFacts(s, l);
    }
  }

  lemma MeasureDescends(s: State, l: Step)
    requires Stopping(s) && Enabled(s, l) && !l.Close?
    ensures Measure(Next(s, l)) <= Measure(s)
    ensures IsBusy(l) && !Next(s, l).crashed ==> Measure(Next(s, l)) < Measure(s)
  {
    if Next(s, l).crashed {
      CrashChangesNothing(s, l);
      MeasureIgnoresCrash(s, |s.cmds|);
    } else {
      SafeStepDescends(s, l);
    }
  }

  lemma CrashChangesNothing(s: State, l: Step)
    requires WellFormed(s) && Enabled(s, l) && Next(s, l).crashed
    ensures Next(s, l) == s.(crashed := true)
  {
    assert !s.crashed;
  }

  lemma {:induction false} MeasureIgnoresCrash(s: State, n: nat)
    ensures TokenRanks(s.(crashed := true), n) == TokenRanks(s, n)
  {
    if n > 0 {
      MeasureIgnoresCrash(s, n - 1);
    }
  }

  lemma SafeStepDescends(s: State, l: Step)
    requires Stopping(s) && Enabled(s, l) && !l.Close? && !Next(s, l).crashed
    ensures Measure(Next(s, l)) <= Measure(s)
    ensures IsBusy(l) ==> Measure(Next(s, l)) < Measure(s)
  {
    StoppingStays(s, l);
    RanksDescend(s, l);
    ConsumersOf(s, l);
    TokenRanksMono(s, Next(s, l), |s.cmds|);
    if IsBusy(l) && !l.Arm? && !l.Return? {
      BusyStepsMove(s, l);
    }
  }

  // ---------------------------------------------------------------- every run

  function BusySteps(ls: seq<Step>): nat {
    if ls == [] then 0 else BusySteps(ls[..|ls| - 1]) + if IsBusy(ls[|ls| - 1]) then 1 else 0
  }

  /** The step at which the daemon crashes, if it does, is the last. */
  function Fatal(crashed: bool): nat {
    if crashed then 1 else 0
  }

  lemma {:induction false} RunSettles(s: State, ls: seq<Step>)
    requires Stopping(s) && Runs(s, ls) && ReloadFree(ls)
    ensures var m := After(s, ls);
            && (m.crashed || Stopping(m)) && |m.gens| == |s.gens| && |m.cmds| == |s.cmds|
            && Members(m, s.Cur(), |s.cmds|) == Members(s, s.Cur(), |s.cmds|)
            && BusySteps(ls) + Measure(m) <= Measure(s) + Fatal(m.crashed)
  {
    if ls != [] {
      RunSettles(s, ls[..|ls| - 1]);
      StoppingStays(After(s, ls[..|ls| - 1]), ls[|ls| - 1]);
      MeasureDescends(After(s, ls[..|ls| - 1]), ls[|ls| - 1]);
    }
  }

  /**
   * After the cancellation a run has at most 16 steps per command and two per consumer, besides time and resets; and
   * one more if it ends in a crash.
   */
  lemma BusyStepsAreBounded(s: State, ls: seq<Step>)
    requires Stopping(s) && Runs(s, ls) && ReloadFree(ls)
    ensures BusySteps(ls) <= 16 * |s.cmds| + 2 * |s.gens| + Fatal(After(s, ls).crashed)
  {
    RunSettles(s, ls);
    MeasureBound(s, |s.cmds|, s.gens);
  }

  /**
   * Every run that cannot go on, with at most 20 commands in the generation, has crashed or come to a safe reload; it
   * has not crashed when nobody was about to.
   */
  lemma MaximalRunsQuiesce(s: State, ls: seq<Step>)
    requires Stopping(s) && Small(s) && Runs(s, ls) && ReloadFree(ls)
    ensures WellFormed(After(s, ls))
    ensures AtRest(After(s, ls)) ==> After(s, ls).crashed || Quiescent(After(s, ls))
    ensures NoDanger(s) ==> !After(s, ls).crashed
  {
    RunKeeps(s, ls);
    RunSettles(s, ls);
    if NoDanger(s) {
      RunStaysSafe(s, ls);
    }
    if AtRest(After(s, ls)) && !After(s, ls).crashed {
      RestIsQuiescent(After(s, ls));
    }
  }

  /** A cancelled daemon that is ready for its reload stays so until the reload begins. */
  lemma QuiescenceStays(s: State, l: Step)
    requires Stopping(s) && Quiescent(s) && Enabled(s, l) && !l.Close?
    ensures Quiescent(Next(s, l))
  {
    if IsMove(l) {
      MoveMakesNoSender(s, l);
      MoveKeepsQuiet(s, l);
    } else {
      OtherKeepsQuiet(s, l);
    }
  }

  lemma MoveKeepsQuiet(s: State, l: Step)
    requires WellFormed(s) && Enabled(s, l) && IsMove(l) && Quiescent(s) && !EffectOf(s, l).pc.Sending?
    ensures Quiescent(Next(s, l))
  {
    hide EffectOf;
  }

  lemma OtherKeepsQuiet(s: State, l: Step)
    requires WellFormed(s) && Enabled(s, l) && !IsMove(l) && !l.Close?
    requires s.stage.Serving? && s.gens[s.Cur()].cancelled && Quiescent(s)
    ensures Quiescent(Next(s, l))
  {
  }

  // ---------------------------------------------------------------- reaching rest

  ghost predicate CanQuiesce(s: State) {
    exists m :: Leads(s, m) && !m.crashed && Quiescent(m)
  }

  lemma SendersStayOpen(s: State, l: Step)
    requires Stopping(s) && SendersOpen(s) && Enabled(s, l) && !l.Close?
    ensures SendersOpen(Next(s, l))
  {
    if IsMove(l) {
      MoveMakesNoSender(s, l);
      MoveKeepsSendersOpen(s, l);
    } else {
      OtherKeepsSendersOpen(s, l);
    }
  }

  lemma MoveKeepsSendersOpen(s: State, l: Step)
    requires WellFormed(s) && Enabled(s, l) && IsMove(l) && SendersOpen(s) && !EffectOf(s, l).pc.Sending?
    ensures SendersOpen(Next(s, l))
  {
    hide EffectOf;
  }

  lemma OtherKeepsSendersOpen(s: State, l: Step)
    requires WellFormed(s) && Enabled(s, l) && !IsMove(l) && !l.Close? && s.stage.Serving? && SendersOpen(s)
    ensures SendersOpen(Next(s, l))
  {
  }

  lemma {:induction false} SettleDown(s: State) returns (m: State)
    requires Stopping(s) && Small(s) && SendersOpen(s)
    ensures Leads(s, m) && Stopping(m) && Small(m) && Spent(m) && SendersOpen(m)
    decreases Measure(s)
  {
    LeadsNowhere(s);
    if l :| IsBusy(l) && Enabled(s, l) && !Next(s, l).crashed {
      MeasureDescends(s, l);
      StoppingStays(s, l);
      SendersStayOpen(s, l);
      LeadsOn(s, s, l);
      m := SettleDown(Next(s, l));
      LeadsTransitive(s, Next(s, l), m);
    } else {
      m := s;
    }
  }

  /** A goroutine about to send on a closed channel. */
  ghost predicate Doomed(s: State, t: nat) {
    At(s, t) && s.threads[t].pc.Sending? && s.threads[t].pc.ch < |s.gens| && s.gens[s.threads[t].pc.ch].closed
  }

  /** It can only crash. */
  lemma DoomedStays(s: State, l: Step, t: nat)
    requires WellFormed(s) && Enabled(s, l) && Doomed(s, t)
    ensures Doomed(Next(s, l), t)
  {
    if IsMove(l) {
      EffectFacts(s, l);
    }
  }

  lemma {:induction false} DoomedForever(s: State, ls: seq<Step>, t: nat)
    requires Inv(s) && Runs(s, ls) && Doomed(s, t)
    ensures Doomed(After(s, ls), t)
  {
    if ls != [] {
      DoomedForever(s, ls[..|ls| - 1], t);
      RunKeeps(s, ls[..|ls| - 1]);
      DoomedStays(After(s, ls[..|ls| - 1]), ls[|ls| - 1], t);
    }
  }

  lemma DoomedNeverQuiesces(s: State, t: nat)
    requires Inv(s) && Doomed(s, t)
    ensures !CanQuiesce(s)
  {
    if m :| Leads(s, m) && !m.crashed && Quiescent(m) {
      var ls :| ReloadFree(ls) && Runs(s, ls) && After(s, ls) == m;
      DoomedForever(s, ls, t);
    }
  }

  /**
   * With at most 20 commands, waiting long enough after the cancellation can make a reload safe exactly when no
   * goroutine is left from an earlier reload that can only send on a closed channel.
   */
  lemma SmallGenerationsQuiesce(s: State)
    requires Stopping(s) && |Members(s, s.Cur(), |s.cmds|)| <= CAPACITY
    ensures CanQuiesce(s) <==> SendersOpen(s)
  {
    if SendersOpen(s) {
      var m := SettleDown(s);
      SpentIsQuiescent(m);
    } else {
      var t :| At(s, t) && s.threads[t].pc.Sending? && !IsOpen(s, s.threads[t].pc.ch);
      DoomedNeverQuiesces(s, t);
    }
  }

  /** So a daemon that so far began every reload when quiescent can always be brought to its next safe reload. */
  lemma QuietDaemonsQuiesce(s0: State, ls: seq<Step>, s: State)
    requires Reached(s0, ls, s) && QuietReloads(s0, ls)
    requires s.stage.Serving? && s.gens != [] && s.gens[s.Cur()].cancelled
    requires |Members(s, s.Cur(), |s.cmds|)| <= CAPACITY
    ensures CanQuiesce(s)
  {
    ReachedInv(s0, ls, s);
    QuietReloadsNeverCrash(s0, ls);
    SmallGenerationsQuiesce(s);
  }
}
