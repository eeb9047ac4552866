/** More than 20 commands in a generation: senders can be stuck behind a full channel that nobody reads any more. */
module Jamming {
  import opened Machine
  import opened Invariant
  import opened Tokens
  import opened Draining
  import opened Reloading
  import opened Settling

  // ---------------------------------------------------------------- stuck for good

  /** The channel is full, every consumer has returned, and a sender waits. */
  ghost predicate Blocked(s: State, t: nat) {
    && s.stage.Serving? && s.gens != [] && At(s, t) && s.threads[t].pc == Sending(|s.gens| - 1)
    && |s.gens[s.Cur()].queue| == CAPACITY && !s.gens[s.Cur()].closed
    && (forall g :: 0 <= g < |s.gens| ==> s.gens[g].consumer.Returned?)
  }

  lemma BlockedStays(s: State, l: Step, t: nat)
    requires WellFormed(s) && Enabled(s, l) && !l.Close? && Blocked(s, t)
    ensures Blocked(Next(s, l), t)
  {
    if IsMove(l) {
      EffectFacts(s, l);
    }
  }

  /** Until a reload begins, no run frees the sender, so none of its states is quiescent. */
  lemma {:induction false} BlockedForever(s: State, ls: seq<Step>, t: nat)
    requires Inv(s) && Runs(s, ls) && ReloadFree(ls) && Blocked(s, t)
    ensures Blocked(After(s, ls), t) && !Quiescent(After(s, ls))
  {
    if ls != [] {
      BlockedForever(s, ls[..|ls| - 1], t);
      RunKeeps(s, ls[..|ls| - 1]);
      BlockedStays(After(s, ls[..|ls| - 1]), ls[|ls| - 1], t);
    }
  }

  lemma BlockedNeverQuiesces(s: State, t: nat)
    requires Inv(s) && Blocked(s, t)
    ensures !CanQuiesce(s)
  {
    if m :| Leads(s, m) && !m.crashed && Quiescent(m) {
      var ls :| ReloadFree(ls) && Runs(s, ls) && After(s, ls) == m;
      BlockedForever(s, ls, t);
    }
  }

  // ---------------------------------------------------------------- a generation that has just been started

  ghost predicate OldReturned(s: State) {
    forall g :: 0 <= g < |s.gens| - 1 ==> s.gens[g].consumer.Returned?
  }

  /**
   * The generation in force has not taken a step: its commands are those from `first` on, each with a goroutine, from
   * `spawn` on, that is about to call `startAndWait`. What older generations have left behind is arbitrary, except that
   * their consumers have returned.
   */
  ghost predicate Opening(s: State, first: nat, spawn: nat) {
    && Inv(s) && WellFormed(s) && !s.crashed && NoDanger(s) && s.stage.Serving?
    && s.gens[s.Cur()] == Gen(false, false, [], Looping) && OldReturned(s)
    && first <= |s.cmds| && spawn <= |s.threads| && |s.threads| - spawn == |s.cmds| - first
    && (forall c :: 0 <= c < |s.cmds| ==> (s.cmds[c].gen == s.Cur() <==> first <= c))
    && (forall t :: spawn <= t < |s.threads| ==> s.threads[t] == Thread(first + (t - spawn), Entering))
  }

  lemma FirstIsOpening(s0: State)
    requires Init(s0)
    ensures Opening(s0, 0, 0)
  {
    InitInv(s0);
    InvWellFormed(s0);
    forall c | 0 <= c < |s0.cmds| ensures s0.cmds[c].gen == 0 {
      assert s0.cmds[c] == NewCmd(s0.cmds[c].entry, 0, true);
    }
  }

  lemma OldConsumersReturned(s: State)
    requires Inv(s) && NoDanger(s) && s.stage.Populating?
    ensures OldReturned(s)
  {
    forall g | 0 <= g < |s.gens| - 1 ensures s.gens[g].consumer.Returned? {
      assert GenOk(s, g);
    }
  }

  lemma InstalledIsOpening(s: State, entries: seq<Entry>)
    requires Inv(s) && WellFormed(s) && NoDanger(s) && Enabled(s, Install(entries))
    ensures Opening(Next(s, Install(entries)), |s.cmds|, |s.threads|)
  {
    var m := Next(s, Install(entries));
    StepKeeps(s, Install(entries));
    StepStaysSafe(s, Install(entries));
    ReloadInstalls(s, entries);
    OldConsumersReturned(s);
    forall t | |s.threads| <= t < |m.threads|
      ensures m.threads[t] == Thread(|s.cmds| + (t - |s.threads|), Entering)
    {
      InstalledAt(s, entries, t - |s.threads|);
    }
  }

  lemma {:induction false} MembersFrom(s: State, first: nat, n: nat)
    requires first <= n <= |s.cmds|
    requires forall c :: 0 <= c < n ==> (s.cmds[c].gen == s.Cur() <==> first <= c)
    ensures s.gens != [] ==> |Members(s, s.Cur(), n)| == n - first
  {
    if s.gens != [] {
      if n == first {
        assert Members(s, s.Cur(), n) == {};
      } else {
        MembersFrom(s, first, n - 1);
        assert Members(s, s.Cur(), n) == Members(s, s.Cur(), n - 1) + {n - 1};
      }
    }
  }

  // ---------------------------------------------------------------- filling the channel

  function Counting(first: nat, j: nat): seq<nat> {
    seq(j, i requires 0 <= i < j => first + i)
  }

  /**
   * The first `j` commands failed to start and wait in the channel, the next one is at `pc`, the others have not begun.
   */
  ghost predicate Stacked(s: State, first: nat, spawn: nat, j: nat, pc: Pc) {
    && Inv(s) && WellFormed(s) && !s.crashed && s.stage.Serving?
    && s.gens[s.Cur()] == Gen(false, false, Counting(first, j), Looping) && OldReturned(s)
    && first <= |s.cmds| && spawn <= |s.threads| && |s.threads| - spawn == |s.cmds| - first
    && (forall c :: first <= c < |s.cmds| ==> s.cmds[c].gen == s.Cur())
    && (first + j < |s.cmds| ==> s.threads[spawn + j] == Thread(first + j, pc))
    && (forall t :: spawn + j < t < |s.threads| ==> s.threads[t] == Thread(first + (t - spawn), Entering))
  }

  lemma StackEnter(s: State, first: nat, spawn: nat, j: nat)
    requires s.gens != [] && first + j < |s.cmds| && Stacked(s, first, spawn, j, Entering)
    ensures WellFormed(s) && Enabled(s, Enter(spawn + j))
    ensures var m := Next(s, Enter(spawn + j));
            Stacked(m, first, spawn, j, Launching(s.Cur())) && |m.gens| == |s.gens| && |m.cmds| == |s.cmds|
  {
    StepKeeps(s, Enter(spawn + j));
  }

  lemma StackFail(s: State, first: nat, spawn: nat, j: nat)
    requires s.gens != [] && first + j < |s.cmds| && Stacked(s, first, spawn, j, Launching(s.Cur()))
    ensures WellFormed(s) && Enabled(s, StartFails(spawn + j))
    ensures var m := Next(s, StartFails(spawn + j));
            Stacked(m, first, spawn, j, Checking(s.Cur())) && |m.gens| == |s.gens| && |m.cmds| == |s.cmds|
  {
    StepKeeps(s, StartFails(spawn + j));
  }

  lemma StackCheck(s: State, first: nat, spawn: nat, j: nat)
    requires s.gens != [] && first + j < |s.cmds| && Stacked(s, first, spawn, j, Checking(s.Cur()))
    ensures WellFormed(s) && Enabled(s, CheckCtx(spawn + j))
    ensures var m := Next(s, CheckCtx(spawn + j));
            Stacked(m, first, spawn, j, Sending(s.Cur())) && |m.gens| == |s.gens| && |m.cmds| == |s.cmds|
  {
    StepKeeps(s, CheckCtx(spawn + j));
  }

  lemma StackSend(s: State, first: nat, spawn: nat, j: nat)
    requires s.gens != [] && first + j < |s.cmds| && j < CAPACITY && Stacked(s, first, spawn, j, Sending(s.Cur()))
    ensures Enabled(s, Send(spawn + j))
    ensures Stacked(Next(s, Send(spawn + j)), first, spawn, j + 1, Entering)
    ensures |Next(s, Send(spawn + j)).gens| == |s.gens| && |Next(s, Send(spawn + j)).cmds| == |s.cmds|
  {
    StepKeeps(s, Send(spawn + j));
    assert Counting(first, j) + [first + j] == Counting(first, j + 1);
  }

  lemma PushOne(s: State, first: nat, spawn: nat, j: nat) returns (m: State)
    requires s.gens != [] && first + j < |s.cmds| && Stacked(s, first, spawn, j, Entering)
    ensures Leads(s, m) && Stacked(m, first, spawn, j, Sending(s.Cur()))
    ensures |m.gens| == |s.gens| && |m.cmds| == |s.cmds|
  {
    hide Next, Inv, WellFormed, Enabled, Stacked;
    LeadsNowhere(s);
    StackEnter(s, first, spawn, j);
    LeadsOn(s, s, Enter(spawn + j));
    var a := Next(s, Enter(spawn + j));
    StackFail(a, first, spawn, j);
    LeadsOn(s, a, StartFails(spawn + j));
    var b := Next(a, StartFails(spawn + j));
    StackCheck(b, first, spawn, j);
    LeadsOn(s, b, CheckCtx(spawn + j));
    m := Next(b, CheckCtx(spawn + j));
  }

  lemma StackOne(s: State, first: nat, spawn: nat, j: nat) returns (m: State)
    requires s.gens != [] && first + j < |s.cmds| && j < CAPACITY && Stacked(s, first, spawn, j, Entering)
    ensures Leads(s, m) && Stacked(m, first, spawn, j + 1, Entering)
    ensures |m.gens| == |s.gens| && |m.cmds| == |s.cmds|
  {
    var b := PushOne(s, first, spawn, j);
    StackSend(b, first, spawn, j);
    LeadsOn(s, b, Send(spawn + j));
    m := Next(b, Send(spawn + j));
  }

  lemma {:induction false} StackUp(s: State, first: nat, spawn: nat, j: nat) returns (m: State)
    requires s.gens != [] && Stacked(s, first, spawn, 0, Entering) && first + j <= |s.cmds| && j <= CAPACITY
    ensures Leads(s, m) && Stacked(m, first, spawn, j, Entering)
    ensures |m.gens| == |s.gens| && |m.cmds| == |s.cmds|
    decreases j
  {
    hide Next, Inv, WellFormed, Enabled, Stacked;
    if j == 0 {
      LeadsNowhere(s);
      m := s;
    } else {
      var a := StackUp(s, first, spawn, j - 1);
      m := StackOne(a, first, spawn, j - 1);
      LeadsTransitive(s, a, m);
    }
  }

  // ---------------------------------------------------------------- the jam

  /** A full channel and a sender behind it. */
  ghost predicate Jammed(s: State, first: nat, t: nat, cancelled: bool, consumer: Consumer) {
    && Inv(s) && WellFormed(s) && !s.crashed && s.stage.Serving?
    && s.gens[s.Cur()] == Gen(cancelled, false, Counting(first, CAPACITY), consumer) && OldReturned(s)
    && t < |s.threads| && s.threads[t].pc == Sending(|s.gens| - 1)
  }

  lemma JamStep(s: State, first: nat, t: nat, l: Step)
    requires s.gens != []
    requires var inside := Selecting(s.Cur(), s.Cur());
             || (l == Arm(s.Cur()) && Jammed(s, first, t, false, Looping))
             || (l == Cancel && Jammed(s, first, t, false, inside))
             || (l == Return(s.Cur()) && Jammed(s, first, t, true, inside))
    ensures Enabled(s, l)
    ensures Jammed(Next(s, l), first, t, !l.Arm?, if l.Return? then Returned else Selecting(s.Cur(), s.Cur()))
    ensures |Next(s, l).gens| == |s.gens| && WellFormed(s) && WellFormed(Next(s, l))
  {
    StepKeeps(s, l);
  }

  lemma JamIt(s: State, first: nat, t: nat) returns (m: State)
    requires s.gens != [] && Jammed(s, first, t, false, Looping)
    ensures Leads(s, m) && Jammed(m, first, t, true, Returned)
  {
    hide Next, Inv, WellFormed, Enabled, Jammed;
    LeadsNowhere(s);
    JamStep(s, first, t, Arm(s.Cur()));
    LeadsOn(s, s, Arm(s.Cur()));
    var a := Next(s, Arm(s.Cur()));
    JamStep(a, first, t, Cancel);
    LeadsOn(s, a, Cancel);
    var b := Next(a, Cancel);
    JamStep(b, first, t, Return(b.Cur()));
    LeadsOn(s, b, Return(b.Cur()));
    m := Next(b, Return(b.Cur()));
  }

  lemma StackedIsJammed(s: State, first: nat, spawn: nat)
    requires s.gens != [] && Stacked(s, first, spawn, CAPACITY, Sending(s.Cur())) && |s.cmds| - first > CAPACITY
    ensures Jammed(s, first, spawn + CAPACITY, false, Looping)
  {
  }

  lemma JamUp(s: State, first: nat, spawn: nat) returns (m: State)
    requires s.gens != [] && Stacked(s, first, spawn, 0, Entering) && |s.cmds| - first > CAPACITY
    ensures Leads(s, m) && Jammed(m, first, spawn + CAPACITY, true, Returned)
  {
    hide Next, Inv, WellFormed, Enabled, Stacked, Jammed, Leads;
    var a := StackUp(s, first, spawn, CAPACITY);
    var b := PushOne(a, first, spawn, CAPACITY);
    LeadsTransitive(s, a, b);
    StackedIsJammed(b, first, spawn);
    m := JamIt(b, first, spawn + CAPACITY);
    LeadsTransitive(s, b, m);
  }

  lemma JammedIsBlocked(s: State, first: nat, t: nat)
    requires Jammed(s, first, t, true, Returned)
    ensures Blocked(s, t) && Inv(s) && s.gens != [] && s.gens[s.Cur()].cancelled
  {
  }

  // ---------------------------------------------------------------- exactly 20

  /** Whenever the generation in force has been cancelled, some continuation makes the reload safe. */
  ghost predicate AlwaysQuiesces(s0: State) {
    forall s :: Leads(s0, s) && s.gens != [] && s.gens[s.Cur()].cancelled ==> CanQuiesce(s)
  }

  /** Between two reloads generations and their commands stay what they are. */
  lemma {:induction false} ServingRuns(s: State, ls: seq<Step>)
    requires Inv(s) && !s.crashed && NoDanger(s) && s.stage.Serving? && Runs(s, ls) && ReloadFree(ls)
    ensures var m := After(s, ls);
            && Inv(m) && WellFormed(m) && !m.crashed && NoDanger(m) && m.stage.Serving?
            && |m.gens| == |s.gens| && |m.cmds| == |s.cmds|
    ensures forall c :: 0 <= c < |s.cmds| ==> After(s, ls).cmds[c].gen == s.cmds[c].gen
  {
    RunKeeps(s, ls);
    RunStaysSafe(s, ls);
    CmdsOnlyGrowOverRuns(s, ls);
    if ls != [] {
      var m := ls[..|ls| - 1];
      ServingRuns(s, m);
      SizesStay(After(s, m), ls[|ls| - 1]);
      ServingStays(After(s, m), ls[|ls| - 1]);
    }
  }

  lemma SmallQuiesces(s0: State, first: nat, spawn: nat, s: State)
    requires Opening(s0, first, spawn) && |s0.cmds| - first <= CAPACITY
    requires Leads(s0, s) && s.gens != [] && s.gens[s.Cur()].cancelled
    ensures CanQuiesce(s)
  {
    var ls :| ReloadFree(ls) && Runs(s0, ls) && After(s0, ls) == s;
    ServingRuns(s0, ls);
    MembersFrom(s, first, |s.cmds|);
    SmallGenerationsQuiesce(s);
  }

  lemma OpeningIsStacked(s: State, first: nat, spawn: nat)
    requires Opening(s, first, spawn)
    ensures s.gens != [] && Stacked(s, first, spawn, 0, Entering)
  {
    assert Counting(first, 0) == [];
  }

  lemma LargeCanFail(s0: State, first: nat, spawn: nat)
    requires Opening(s0, first, spawn) && |s0.cmds| - first > CAPACITY
    ensures !AlwaysQuiesces(s0)
  {
    OpeningIsStacked(s0, first, spawn);
    hide Next, Inv, WellFormed, Opening, Stacked, Leads;
    var s := JamUp(s0, first, spawn);
    JammedIsBlocked(s, first, spawn + CAPACITY);
    BlockedNeverQuiesces(s, spawn + CAPACITY);
  }

  /**
   * A generation, once cancelled, can always come to a state in which the reload is safe exactly when it has at most
   * 20 commands.
   */
  lemma QuiescenceIffFits(s0: State, first: nat, spawn: nat)
    requires Opening(s0, first, spawn)
    ensures AlwaysQuiesces(s0) <==> |s0.cmds| - first <= 20
  {
    if |s0.cmds| - first <= CAPACITY {
      forall s | Leads(s0, s) && s.gens != [] && s.gens[s.Cur()].cancelled ensures CanQuiesce(s) {
        SmallQuiesces(s0, first, spawn, s);
      }
    } else {
      LargeCanFail(s0, first, spawn);
    }
  }

  lemma FirstQuiescesIffFits(s0: State)
    requires Init(s0)
    ensures AlwaysQuiesces(s0) <==> |s0.cmds| <= 20
  {
    FirstIsOpening(s0);
    QuiescenceIffFits(s0, 0, 0);
  }

  /** The same for the generation that any reload installs, after any number of reloads that began quiescent. */
  lemma ReloadedQuiescesIffFits(s0: State, ls: seq<Step>, s: State, entries: seq<Entry>)
    requires Reached(s0, ls, s) && QuietReloads(s0, ls) && WellFormed(s) && Enabled(s, Install(entries))
    ensures AlwaysQuiesces(Next(s, Install(entries))) <==> |entries| <= 20
  {
    ReachedInv(s0, ls, s);
    QuietReloadsNeverCrash(s0, ls);
    InstalledIsOpening(s, entries);
    ReloadInstalls(s, entries);
    QuiescenceIffFits(Next(s, Install(entries)), |s.cmds|, |s.threads|);
  }
}
