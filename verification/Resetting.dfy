/** What a whole `resetLimiter` does to the commands, with other goroutines acting between the resets. */
module Resetting {
  import opened Supervisor
  import opened Machine
  import opened Lifetimes
  import opened Weaving

  lemma ResetsAppend(log: seq<Event>, events: seq<Event>)
    requires |events| <= 1
    ensures Resets(log + events) == Resets(log) + if events != [] && events[0].LimiterReset? then 1 else 0
  {
    if events == [] {
      assert log + events == log;
    } else {
      assert (log + events)[..|log + events| - 1] == log;
    }
  }

  lemma AtMostOneEvent(s: State, l: Step, c: nat)
    requires WellFormed(s) && Enabled(s, l)
    ensures |EventsFor(s, l, c)| <= 1
    ensures l == Step.ResetOne(c) ==> EventsFor(s, l, c) == [LimiterReset(s.now)]
  {
  }

  lemma ResetsGrow(s: State, l: Step, c: nat)
    requires WellFormed(s) && Enabled(s, l)
    ensures Resets(Log(Next(s, l), c)) >= Resets(Log(s, c)) + if l == Step.ResetOne(c) then 1 else 0
  {
    StepRecords(s, l, c);
    AtMostOneEvent(s, l, c);
    ResetsAppend(Log(s, c), EventsFor(s, l, c));
  }

  lemma {:induction false} ResetsGrowOverRuns(s: State, ls: seq<Step>, c: nat)
    requires Runs(s, ls)
    ensures Resets(Log(After(s, ls), c)) >= Resets(Log(s, c))
    decreases |ls|
  {
    if ls != [] {
      ResetsGrowOverRuns(s, ls[..|ls| - 1], c);
      ResetsGrow(After(s, ls[..|ls| - 1]), ls[|ls| - 1], c);
    }
  }

  lemma {:induction false} ResetsReach(s: State, first: nat, n: nat, others: seq<seq<Step>>, i: nat, c: nat)
    requires |others| == n && i <= n && Runs(s, Woven(ResetSteps(first, n), others))
    ensures Runs(s, Woven(ResetSteps(first, n)[..i], others[..i]))
    ensures var m := StateBefore(s, ResetSteps(first, n), others, i);
            Resets(Log(m, c)) >= Resets(Log(s, c)) + if first <= c < first + i then 1 else 0
    decreases i
  {
    hide Woven, Next, Enabled, WellFormed, Runs, After;
    var mine := ResetSteps(first, n);
    if i == 0 {
      NothingWoven(s, mine, others);
    } else {
      ResetsReach(s, first, n, others, i - 1, c);
      WovenStep(s, mine, others, i - 1);
      var a := StateBefore(s, mine, others, i - 1);
      ResetsGrow(a, mine[i - 1], c);
      ResetsGrowOverRuns(Next(a, mine[i - 1]), others[i - 1], c);
    }
  }

  lemma NothingWoven(s: State, mine: seq<Step>, others: seq<seq<Step>>)
    requires |mine| == |others|
    ensures Runs(s, Woven(mine[..0], others[..0])) && StateBefore(s, mine, others, 0) == s
  {
  }

  lemma AllWoven(s: State, mine: seq<Step>, others: seq<seq<Step>>)
    requires |mine| == |others| && Runs(s, Woven(mine, others))
    ensures Runs(s, Woven(mine[..|mine|], others[..|mine|]))
    ensures StateBefore(s, mine, others, |mine|) == After(s, Woven(mine, others))
  {
    assert mine[..|mine|] == mine && others[..|mine|] == others;
  }

  /** Whatever the others do in between, every one of the commands is reset at least once more. */
  lemma EveryOneIsReset(s: State, first: nat, n: nat, others: seq<seq<Step>>)
    requires |others| == n && Runs(s, Woven(ResetSteps(first, n), others))
    ensures forall c: nat :: first <= c < first + n ==>
              Resets(Log(After(s, Woven(ResetSteps(first, n), others)), c)) > Resets(Log(s, c))
  {
    AllWoven(s, ResetSteps(first, n), others);
    forall c: nat | first <= c < first + n
      ensures Resets(Log(After(s, Woven(ResetSteps(first, n), others)), c)) > Resets(Log(s, c))
    {
      ResetsReach(s, first, n, others, n, c);
    }
  }

  // ---------------------------------------------------------------- without interference

  /** The limiters of the commands from `first` to `last` are as new, all else but the history is as before. */
  ghost predicate OnlyReset(s: State, m: State, first: nat, last: nat) {
    && m == s.(cmds := m.cmds, hist := m.hist) && |m.cmds| == |s.cmds|
    && forall c :: 0 <= c < |s.cmds| ==>
         m.cmds[c] == if first <= c < last then s.cmds[c].(limiter := s.cmds[c].limiter.(count := 0, last := 0))
                      else s.cmds[c]
  }

  lemma OneMoreReset(s: State, m: State, first: nat, last: nat)
    requires OnlyReset(s, m, first, last) && WellFormed(m) && Enabled(m, Step.ResetOne(last)) && first <= last
    ensures OnlyReset(s, Next(m, Step.ResetOne(last)), first, last + 1)
  {
  }

  lemma {:induction false} ResetsAlone(s: State, first: nat, n: nat, others: seq<seq<Step>>, i: nat)
    requires |others| == n && i <= n && Runs(s, Woven(ResetSteps(first, n), others))
    requires forall k :: 0 <= k < n ==> others[k] == []
    ensures Runs(s, Woven(ResetSteps(first, n)[..i], others[..i]))
    ensures OnlyReset(s, StateBefore(s, ResetSteps(first, n), others, i), first, first + i)
    decreases i
  {
    hide Woven, Next, Enabled, WellFormed, Runs;
    var mine := ResetSteps(first, n);
    if i == 0 {
      NothingWoven(s, mine, others);
    } else {
      ResetsAlone(s, first, n, others, i - 1);
      WovenStep(s, mine, others, i - 1);
      OneMoreReset(s, StateBefore(s, mine, others, i - 1), first, first + i - 1);
    }
  }

  /** When the others do nothing, exactly these limiters are as new, and nothing else has changed. */
  lemma ResetAloneClears(s: State, first: nat, n: nat, others: seq<seq<Step>>)
    requires |others| == n && Runs(s, Woven(ResetSteps(first, n), others))
    requires forall k :: 0 <= k < n ==> others[k] == []
    ensures OnlyReset(s, After(s, Woven(ResetSteps(first, n), others)), first, first + n)
  {
    AllWoven(s, ResetSteps(first, n), others);
    ResetsAlone(s, first, n, others, n);
  }
}
