/** After the cancellation a generation runs down: a linear number of steps, and at most one more start per command. */
module Draining {
  import opened Machine
  import opened Invariant
  import opened Tokens
  import opened Lifetimes

  // ---------------------------------------------------------------- rank of a token

  function PcRank(pc: Pc): nat {
    match pc
    case Sending(_) => 8
    case Spawned => 6
    case Waiting(_, _) => 5
    case Entering => 4
    case Launching(_) => 3
    case Alive(_) => 2
    case Checking(_) => 1
    case Finished => 0
  }

  /** How far a command's token is from its end; a queued one ranks between its sender and its back-off goroutine. */
  ghost function RankOf(s: State, c: nat): nat {
    if c >= |s.hist| then 0
    else
      match s.hist[c].loc
      case InThread(t) => if t < |s.threads| then PcRank(s.threads[t].pc) else 0
      case InQueue(_) => 7
      case Nowhere => 0
  }

  /** A step taken by, or with, the token of command `c`. */
  ghost predicate TokenStep(s: State, l: Step, c: nat)
    requires WellFormed(s) && Enabled(s, l)
  {
    Concerns(s, l, c) && !l.ResetOne? && !l.Cancel? && !Next(s, l).crashed
  }

  lemma OtherGoroutinesStay(s: State, l: Step, t: nat)
    requires WellFormed(s) && Enabled(s, l) && t < |s.threads| && !TokenStep(s, l, s.threads[t].cmd)
    ensures t < |Next(s, l).threads| && Next(s, l).threads[t] == s.threads[t]
  {
  }

  lemma OtherLocationsStay(s: State, l: Step, c: nat)
    requires WellFormed(s) && Enabled(s, l) && c < |s.cmds| && !TokenStep(s, l, c)
    ensures c < |Next(s, l).hist| && Next(s, l).hist[c].loc == s.hist[c].loc
  {
    if !l.Cancel? && !l.ResetOne? && !Next(s, l).crashed {
      OthersDoNotInterfere(s, l, c);
    }
  }

  lemma OtherTokensStay(s: State, l: Step, c: nat)
    requires Inv(s) && WellFormed(s) && Enabled(s, l) && c < |s.cmds| && !TokenStep(s, l, c)
    ensures RankOf(Next(s, l), c) == RankOf(s, c)
  {
    assert CmdOk(s, c);
    OtherLocationsStay(s, l, c);
    if s.hist[c].loc.InThread? {
      OtherGoroutinesStay(s, l, s.hist[c].loc.t);
    }
  }

  lemma EffectDescends(s: State, l: Step)
    requires WellFormed(s) && Enabled(s, l) && IsMove(l)
    requires s.gens[s.cmds[s.threads[l.t].cmd].gen].cancelled
    ensures PcRank(EffectOf(s, l).pc) < PcRank(s.threads[l.t].pc)
  {
  }

  /** Once its generation is cancelled, every step of a command's token lowers the rank. */
  lemma TokenStepDescends(s: State, l: Step, c: nat)
    requires Inv(s) && WellFormed(s) && Enabled(s, l) && c < |s.cmds| && TokenStep(s, l, c)
    requires s.cmds[c].gen < |s.gens| && s.gens[s.cmds[c].gen].cancelled
    ensures RankOf(Next(s, l), c) < RankOf(s, c)
  {
    if IsMove(l) {
      assert ThreadOk(s, l.t);
      EffectDescends(s, l);
    } else {
      match l {
        case Receive(g) => QueuedAt(s, c, s.gens[g].consumer.k);
        case Drain => QueuedAt(s, c, s.Cur());
        case Send(t) => assert ThreadOk(s, t);
        case _ =>
      }
    }
  }

  // ---------------------------------------------------------------- the whole generation

  ghost function Members(s: State, g: nat, n: nat): set<nat>
    requires n <= |s.cmds|
  {
    set c: nat | c < n && s.cmds[c].gen == g
  }

  ghost function TotalRank(s: State, g: nat, n: nat): nat
    requires n <= |s.cmds|
  {
    if n == 0 then 0 else TotalRank(s, g, n - 1) + if s.cmds[n - 1].gen == g then RankOf(s, n - 1) else 0
  }

  lemma {:induction false} TotalRankBound(s: State, g: nat, n: nat)
    requires n <= |s.cmds|
    ensures TotalRank(s, g, n) <= 8 * |Members(s, g, n)|
  {
    if n > 0 {
      TotalRankBound(s, g, n - 1);
      if s.cmds[n - 1].gen == g {
        assert Members(s, g, n) == Members(s, g, n - 1) + {n - 1};
      } else {
        assert Members(s, g, n) == Members(s, g, n - 1);
      }
    }
  }

  lemma {:induction false} TotalRankMono(s: State, s': State, g: nat, n: nat)
    requires n <= |s.cmds| && n <= |s'.cmds|
    requires forall c :: 0 <= c < n ==> s'.cmds[c].gen == s.cmds[c].gen
    requires forall c: nat :: c < n && s.cmds[c].gen == g ==> RankOf(s', c) <= RankOf(s, c)
    ensures TotalRank(s', g, n) <= TotalRank(s, g, n)
    ensures (exists c: nat :: c < n && s.cmds[c].gen == g && RankOf(s', c) < RankOf(s, c)) ==>
              TotalRank(s', g, n) < TotalRank(s, g, n)
  {
    if n > 0 {
      TotalRankMono(s, s', g, n - 1);
    }
  }

  ghost predicate GenStep(s: State, l: Step, g: nat, n: nat)
    requires WellFormed(s) && Enabled(s, l) && n <= |s.cmds|
  {
    exists c: nat :: c < n && s.cmds[c].gen == g && TokenStep(s, l, c)
  }

  lemma CmdsOnlyGrow(s: State, l: Step)
    requires Inv(s) && WellFormed(s) && Enabled(s, l)
    ensures |s.cmds| <= |Next(s, l).cmds| && |s.gens| <= |Next(s, l).gens|
    ensures forall c :: 0 <= c < |s.cmds| ==>
              Next(s, l).cmds[c].gen == s.cmds[c].gen && Next(s, l).cmds[c].entry == s.cmds[c].entry
              && Next(s, l).cmds[c].logged == s.cmds[c].logged
    ensures forall g :: 0 <= g < |s.gens| && s.gens[g].cancelled ==> Next(s, l).gens[g].cancelled
  {
    if IsMove(l) {
      EffectFacts(s, l);
    }
  }

  lemma {:induction false} CmdsOnlyGrowOverRuns(s: State, ls: seq<Step>)
    requires Inv(s) && Runs(s, ls)
    ensures |s.cmds| <= |After(s, ls).cmds| && |s.gens| <= |After(s, ls).gens|
    ensures forall c :: 0 <= c < |s.cmds| ==>
              After(s, ls).cmds[c].gen == s.cmds[c].gen && After(s, ls).cmds[c].entry == s.cmds[c].entry
              && After(s, ls).cmds[c].logged == s.cmds[c].logged
    ensures forall g :: 0 <= g < |s.gens| && s.gens[g].cancelled ==> After(s, ls).gens[g].cancelled
  {
    if ls != [] {
      CmdsOnlyGrowOverRuns(s, ls[..|ls| - 1]);
      RunKeeps(s, ls[..|ls| - 1]);
      CmdsOnlyGrow(After(s, ls[..|ls| - 1]), ls[|ls| - 1]);
    }
  }

  lemma GenStepDescends(s: State, l: Step, g: nat, n: nat)
    requires Inv(s) && WellFormed(s) && Enabled(s, l) && n <= |s.cmds|
    requires g < |s.gens| && s.gens[g].cancelled
    ensures n <= |Next(s, l).cmds|
    ensures TotalRank(Next(s, l), g, n) <= TotalRank(s, g, n)
    ensures GenStep(s, l, g, n) ==> TotalRank(Next(s, l), g, n) < TotalRank(s, g, n)
  {
    CmdsOnlyGrow(s, l);
    forall c: nat | c < n && s.cmds[c].gen == g
      ensures RankOf(Next(s, l), c) <= RankOf(s, c)
      ensures TokenStep(s, l, c) ==> RankOf(Next(s, l), c) < RankOf(s, c)
    {
      if TokenStep(s, l, c) { TokenStepDescends(s, l, c); } else { OtherTokensStay(s, l, c); }
    }
    TotalRankMono(s, Next(s, l), g, n);
  }

  ghost function GenSteps(s: State, ls: seq<Step>, g: nat, n: nat): nat
    requires Inv(s) && Runs(s, ls) && n <= |s.cmds|
    decreases |ls|
  {
    if ls == [] then 0
    else
      RunKeeps(s, ls[..|ls| - 1]);
      CmdsOnlyGrowOverRuns(s, ls[..|ls| - 1]);
      GenSteps(s, ls[..|ls| - 1], g, n) + if GenStep(After(s, ls[..|ls| - 1]), ls[|ls| - 1], g, n) then 1 else 0
  }

  lemma {:induction false} DrainInvariant(s: State, ls: seq<Step>, g: nat, n: nat)
    requires Inv(s) && Runs(s, ls) && n <= |s.cmds|
    requires g < |s.gens| && s.gens[g].cancelled
    ensures n <= |After(s, ls).cmds|
    ensures GenSteps(s, ls, g, n) + TotalRank(After(s, ls), g, n) <= TotalRank(s, g, n)
    decreases |ls|
  {
    if ls != [] {
      var m := ls[..|ls| - 1];
      DrainInvariant(s, m, g, n);
      RunKeeps(s, m);
      CmdsOnlyGrowOverRuns(s, m);
      GenStepDescends(After(s, m), ls[|ls| - 1], g, n);
    }
  }

  /**
   * From the cancellation on, every run contains at most eight steps per command of the generation, reloads and
   * timers that win against the cancelled context included.
   */
  lemma DrainIsLinear(s0: State, ls: seq<Step>, s: State, more: seq<Step>, g: nat)
    requires Reached(s0, ls, s) && Runs(s, more) && g < |s.gens| && s.gens[g].cancelled
    ensures Inv(s) && GenSteps(s, more, g, |s.cmds|) <= 8 * |Members(s, g, |s.cmds|)|
  {
    ReachedInv(s0, ls, s);
    DrainInvariant(s, more, g, |s.cmds|);
    TotalRankBound(s, g, |s.cmds|);
  }
}
