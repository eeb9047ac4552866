/** Code of several statements, with what other goroutines do after each of them. */
module Weaving {
  import opened Machine
  import opened Invariant

  /** The steps of `main`, as opposed to those of goroutines, consumers, clock and ticker. */
  predicate IsMain(l: Step) {
    l.Cancel? || l.Close? || l.Drain? || l.NewChannel? || l.NewContext? || l.Install?
  }

  ghost predicate OthersOnly(ls: seq<Step>) {
    forall i :: 0 <= i < |ls| ==> !IsMain(ls[i])
  }

  lemma {:induction false} PrefixRuns(s: State, ls: seq<Step>, i: nat)
    requires Runs(s, ls) && i <= |ls|
    ensures Runs(s, ls[..i])
    decreases |ls|
  {
    if i < |ls| {
      assert ls[..|ls| - 1][..i] == ls[..i];
      PrefixRuns(s, ls[..|ls| - 1], i);
    } else {
      assert ls[..i] == ls;
    }
  }

  /** Statement after statement, each followed by what the others do. */
  ghost function Woven(mine: seq<Step>, others: seq<seq<Step>>): seq<Step>
    requires |mine| == |others|
  {
    if mine == [] then []
    else
      var n := |mine| - 1;
      Woven(mine[..n], others[..n]) + ([mine[n]] + others[n])
  }

  /** The state in which statement `i` is executed. */
  ghost function StateBefore(s: State, mine: seq<Step>, others: seq<seq<Step>>, i: nat): State
    requires i <= |mine| == |others| && Runs(s, Woven(mine[..i], others[..i]))
  {
    After(s, Woven(mine[..i], others[..i]))
  }

  /** Statement `i` can be executed, and then the others can do what they do. */
  ghost predicate CanFollow(s: State, mine: seq<Step>, others: seq<seq<Step>>, i: nat) {
    && i < |mine| == |others|
    && Runs(s, Woven(mine[..i], others[..i]))
    && WellFormed(StateBefore(s, mine, others, i)) && Enabled(StateBefore(s, mine, others, i), mine[i])
    && Runs(Next(StateBefore(s, mine, others, i), mine[i]), others[i])
  }

  lemma {:induction false} WovenPrefix(mine: seq<Step>, others: seq<seq<Step>>, i: nat)
    requires i <= |mine| == |others|
    ensures Woven(mine[..i], others[..i]) <= Woven(mine, others)
    decreases |mine|
  {
    var n := |mine| - 1;
    if i <= n {
      assert mine[..n][..i] == mine[..i] && others[..n][..i] == others[..i];
      WovenPrefix(mine[..n], others[..n], i);
    } else {
      assert mine[..i] == mine && others[..i] == others;
    }
  }

  lemma WovenSnoc(mine: seq<Step>, others: seq<seq<Step>>, i: nat)
    requires i < |mine| == |others|
    ensures Woven(mine[..i + 1], others[..i + 1]) == Woven(mine[..i], others[..i]) + ([mine[i]] + others[i])
  {
    assert mine[..i + 1][..i] == mine[..i] && others[..i + 1][..i] == others[..i];
  }

  lemma RunsCons(s: State, l: Step, ls: seq<Step>)
    requires Runs(s, [l] + ls)
    ensures WellFormed(s) && Enabled(s, l) && Runs(Next(s, l), ls)
    ensures After(s, [l] + ls) == After(Next(s, l), ls)
  {
    PrefixRuns(s, [l] + ls, 1);
    assert ([l] + ls)[..1] == [] + [l];
    RunsLast(s, [], l);
    RunsSplit(s, [] + [l], ls);
  }

  lemma WovenStep(s: State, mine: seq<Step>, others: seq<seq<Step>>, i: nat)
    requires i < |mine| == |others| && Runs(s, Woven(mine, others))
    ensures CanFollow(s, mine, others, i)
    ensures Runs(s, Woven(mine[..i + 1], others[..i + 1]))
    ensures StateBefore(s, mine, others, i + 1) == After(Next(StateBefore(s, mine, others, i), mine[i]), others[i])
  {
    hide Next, Woven, Enabled, WellFormed, Runs, After;
    var w, p, q := Woven(mine, others), Woven(mine[..i], others[..i]), Woven(mine[..i + 1], others[..i + 1]);
    WovenPrefix(mine, others, i);
    WovenPrefix(mine, others, i + 1);
    assert w[..|p|] == p && w[..|q|] == q;
    PrefixRuns(s, w, |p|);
    PrefixRuns(s, w, |q|);
    WovenSnoc(mine, others, i);
    RunsSplit(s, p, [mine[i]] + others[i]);
    RunsCons(After(s, p), mine[i], others[i]);
  }

  // ---------------------------------------------------------------- the code in question

  /** The statements of `resetLimiter` for `n` commands from the `first` on. */
  ghost function ResetSteps(first: nat, n: nat): seq<Step> {
    seq(n, i requires 0 <= i < n => Step.ResetOne(first + i))
  }

  /** The `n` statements of `Reload` when the channel takes all but four of them to drain. */
  ghost function ReloadSteps(n: nat, entries: seq<Entry>): seq<Step>
    requires n >= 4
  {
    [Step.Close] + seq(n - 4, i => Step.Drain) + [Step.NewChannel, Step.NewContext, Step.Install(entries)]
  }

  lemma StatementsOfReload(n: nat, entries: seq<Entry>)
    requires n >= 4
    ensures var steps := ReloadSteps(n, entries);
            && |steps| == n && steps[0] == Step.Close
            && steps[n - 3] == Step.NewChannel && steps[n - 2] == Step.NewContext
            && steps[n - 1] == Step.Install(entries)
            && forall k :: 1 <= k < n - 3 ==> steps[k] == Step.Drain
  {
  }
}
