/** What travels through the channels, and which channel and context a goroutine reads. */
module Channels {
  import opened Machine
  import opened Invariant
  import opened Tokens

  // ---------------------------------------------------------------- first in, first out

  /** The command that a step puts into channel `k`, if it does. */
  ghost function SentBy(s: State, l: Step, k: nat): seq<nat>
    requires WellFormed(s) && Enabled(s, l)
  {
    if l.Send? && s.threads[l.t].pc.ch == k && !Next(s, l).crashed then [s.threads[l.t].cmd] else []
  }

  /**
   * The command that a step takes out of channel `k`, if it does: the one the new back-off goroutine works for, or the
   * one that is dropped.
   */
  ghost function TakenBy(s: State, l: Step, k: nat): seq<nat>
    requires WellFormed(s) && Enabled(s, l)
  {
    if l.Receive? && s.gens[l.g].consumer.k == k && |Next(s, l).threads| > |s.threads| then
      [Next(s, l).threads[|s.threads|].cmd]
    else if l.Drain? && k == s.Cur() then [s.gens[k].queue[0]]
    else []
  }

  ghost function SentTo(s: State, ls: seq<Step>, k: nat): seq<nat>
    requires Runs(s, ls)
    decreases |ls|
  {
    if ls == [] then [] else SentTo(s, ls[..|ls| - 1], k) + SentBy(After(s, ls[..|ls| - 1]), ls[|ls| - 1], k)
  }

  ghost function TakenFrom(s: State, ls: seq<Step>, k: nat): seq<nat>
    requires Runs(s, ls)
    decreases |ls|
  {
    if ls == [] then [] else TakenFrom(s, ls[..|ls| - 1], k) + TakenBy(After(s, ls[..|ls| - 1]), ls[|ls| - 1], k)
  }

  ghost function Content(s: State, k: nat): seq<nat> {
    if k < |s.gens| then s.gens[k].queue else []
  }

  lemma StepIsFifo(s: State, l: Step, k: nat)
    requires WellFormed(s) && Enabled(s, l)
    ensures Content(s, k) + SentBy(s, l, k) == TakenBy(s, l, k) + Content(Next(s, l), k)
  {
    if l.Receive? {
      ReceiveIsFifo(s, l.g, k);
    } else if l.Drain? {
      DrainIsFifo(s, k);
    } else if IsMove(l) {
      EffectFacts(s, l);
    }
  }

  lemma ReceiveIsFifo(s: State, g: nat, k: nat)
    requires WellFormed(s) && Enabled(s, Receive(g))
    ensures Content(s, k) == TakenBy(s, Receive(g), k) + Content(Next(s, Receive(g)), k)
  {
    var q := s.gens[s.gens[g].consumer.k].queue;
    if q != [] {
      assert q == [q[0]] + q[1..];
    }
  }

  lemma DrainIsFifo(s: State, k: nat)
    requires WellFormed(s) && Enabled(s, Drain)
    ensures Content(s, k) == TakenBy(s, Drain, k) + Content(Next(s, Drain), k)
  {
    var q := s.gens[s.Cur()].queue;
    assert q == [q[0]] + q[1..];
  }

  /** Over every run the commands sent to a channel are those taken from it, in order, and then those still in it. */
  lemma {:induction false} ChannelIsFifo(s0: State, ls: seq<Step>, s: State, k: nat)
    requires Reached(s0, ls, s)
    ensures SentTo(s0, ls, k) == TakenFrom(s0, ls, k) + Content(s, k)
    decreases |ls|
  {
    if ls != [] {
      var m, l := ls[..|ls| - 1], ls[|ls| - 1];
      var before := After(s0, m);
      ChannelIsFifo(s0, m, before, k);
      ReachedInv(s0, m, before);
      StepIsFifo(before, l, k);
      Regroup(TakenFrom(s0, m, k), Content(before, k), SentBy(before, l, k), TakenBy(before, l, k), Content(s, k));
    }
  }

  lemma Regroup(taken: seq<nat>, was: seq<nat>, sent: seq<nat>, out: seq<nat>, now: seq<nat>)
    requires was + sent == out + now
    ensures (taken + was) + sent == (taken + out) + now
  {
    assert (taken + was) + sent == taken + (was + sent);
    assert (taken + out) + now == taken + (out + now);
  }

  // ---------------------------------------------------------------- what is in force

  /**
   * Outside `Reload`, a goroutine about to launch takes the last channel; a back-off goroutine can be stopped only by
   * the last context, even if its command is of an earlier generation; and a consumer entering its select waits for the
   * last context and the last channel.
   */
  lemma LatestIsRead(s: State, l: Step)
    requires Inv(s) && WellFormed(s) && Enabled(s, l) && s.stage.Serving?
    requires l.Enter? || l.SetTimer? || l.Arm?
    ensures WellFormed(Next(s, l))
    ensures var m, last := Next(s, l), |s.gens| - 1;
            && (l.Enter? ==> m.threads[l.t].pc.Launching? && m.threads[l.t].pc.ch == last)
            && (l.SetTimer? ==> (Enabled(m, Abandon(l.t)) <==> s.gens[last].cancelled))
            && (l.Arm? ==> (Enabled(m, Return(l.g)) <==> s.gens[last].cancelled))
            && (l.Arm? ==> (Enabled(m, Receive(l.g)) <==> s.gens[last].queue != [] || s.gens[last].closed))
  {
    StepKeeps(s, l);
  }

  /** Between the two statements of `Reload` that replace them, the channel is the new one and the context the old. */
  lemma RenewingReadsBoth(s: State, l: Step)
    requires Inv(s) && WellFormed(s) && Enabled(s, l) && s.stage.Renewing?
    requires l.Enter? || l.SetTimer? || l.Arm?
    ensures WellFormed(Next(s, l))
    ensures var m, last := Next(s, l), |s.gens| - 1;
            && (l.Enter? ==> m.threads[l.t].pc.Launching? && m.threads[l.t].pc.ch == last)
            && (l.SetTimer? ==> (Enabled(m, Abandon(l.t)) <==> s.gens[last - 1].cancelled))
            && (l.Arm? ==> (Enabled(m, Return(l.g)) <==> s.gens[last - 1].cancelled))
            && (l.Arm? ==> (Enabled(m, Receive(l.g)) <==> s.gens[last].queue != [] || s.gens[last].closed))
  {
    StepKeeps(s, l);
  }
}
