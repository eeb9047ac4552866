/** What a run alone tells about a command: its command line and its error, from the steps that were taken. */
module Histories {
  import opened Prelude
  import opened Machine
  import opened Invariant
  import opened Tokens
  import opened Identity
  import Exec

  // ---------------------------------------------------------------- one restart

  /**
   * A timer that wins, whether the restart is then granted or refused, rebuilds the command line from the path that the
   * last one ended up with, and looks a plain name up anew; and it clears the error.
   */
  lemma RestartRebuilds(s: State, t: nat, look: Str)
    requires WellFormed(s) && Enabled(s, Fire(t, look))
    ensures var c, m := s.threads[t].cmd, Next(s, Fire(t, look));
            && |m.cmds| == |s.cmds| && m.cmds[c].err == NoError
            && var was, now := s.cmds[c].exe, m.cmds[c].exe;
               && now.args == [was.path] + was.args[1..]
               && (Exec.HasSeparator(was.path) || was.path == [] ==> now.path == was.path)
               && (!Exec.HasSeparator(was.path) && was.path != [] ==> now.path == look)
  {
    FireChanges(s, t, look);
    RebuildFacts(s.cmds[s.threads[t].cmd].exe, look);
    hide Next, WellFormed, Enabled;
  }

  lemma FireChanges(s: State, t: nat, look: Str)
    requires WellFormed(s) && Enabled(s, Fire(t, look))
    ensures var c, m := s.threads[t].cmd, Next(s, Fire(t, look));
            && s.cmds[c].exe.args != [] && Exec.LookOk(s.cmds[c].exe.path, look)
            && |m.cmds| == |s.cmds| && m.cmds[c] == FireEffect(s.cmds[c], s.now, look).cmd
  {
  }

  lemma RebuildFacts(was: Exec.Cmd, look: Str)
    requires was.args != [] && Exec.LookOk(was.path, look)
    ensures var now := Exec.Rebuild(was, look);
            && now.args == [was.path] + was.args[1..]
            && (Exec.HasSeparator(was.path) || was.path == [] ==> now.path == was.path)
            && (!Exec.HasSeparator(was.path) && was.path != [] ==> now.path == look)
  {
    Exec.PlainIsItsBase(was.path);
  }

  // ---------------------------------------------------------------- the command line over runs

  /** How the lookup of a restart of command `c` ends, if the step is one. */
  ghost function LookIn(s: State, l: Step, c: nat): seq<Str>
    requires WellFormed(s) && Enabled(s, l)
  {
    if l.Fire? && s.threads[l.t].cmd == c then [l.look] else []
  }

  /** How the lookups of the restarts of command `c` end, in order. */
  ghost function LooksIn(s: State, ls: seq<Step>, c: nat): seq<Str>
    requires Runs(s, ls)
    decreases |ls|
  {
    if ls == [] then []
    else LooksIn(s, ls[..|ls| - 1], c) + LookIn(After(s, ls[..|ls| - 1]), ls[|ls| - 1], c)
  }

  lemma StepRebuilds(s: State, l: Step, c: nat)
    requires WellFormed(s) && Enabled(s, l) && c < |s.cmds|
    ensures c < |Next(s, l).cmds| && Next(s, l).cmds[c].entry == s.cmds[c].entry
    ensures LookIn(s, l, c) == [] ==> Next(s, l).cmds[c].exe == s.cmds[c].exe
    ensures LookIn(s, l, c) != [] ==>
              && Exec.LookOk(s.cmds[c].exe.path, LookIn(s, l, c)[0])
              && Next(s, l).cmds[c].exe == Exec.Rebuild(s.cmds[c].exe, LookIn(s, l, c)[0])
  {
    if IsMove(l) && s.threads[l.t].cmd == c {
      EffectRebuilds(s, l);
      MoveChanges(s, l);
    } else {
      OthersKeepLine(s, l, c);
    }
  }

  lemma EffectRebuilds(s: State, l: Step)
    requires WellFormed(s) && Enabled(s, l) && IsMove(l)
    ensures var was, now := s.cmds[s.threads[l.t].cmd], EffectOf(s, l).cmd;
            && now.entry == was.entry
            && (l.Fire? ==> Exec.LookOk(was.exe.path, l.look) && now.exe == Exec.Rebuild(was.exe, l.look))
            && (!l.Fire? ==> now.exe == was.exe)
  {
  }

  lemma OthersKeepLine(s: State, l: Step, c: nat)
    requires WellFormed(s) && Enabled(s, l) && c < |s.cmds| && !(IsMove(l) && s.threads[l.t].cmd == c)
    ensures var m := Next(s, l);
            c < |m.cmds| && m.cmds[c].exe == s.cmds[c].exe && m.cmds[c].entry == s.cmds[c].entry
  {
    hide EffectOf;
  }

  /** A command that comes into being is the configured one. */
  lemma NewIsConfigured(s: State, l: Step, c: nat)
    requires WellFormed(s) && Enabled(s, l) && |s.cmds| <= c < |Next(s, l).cmds|
    ensures var cmd := Next(s, l).cmds[c];
            cmd.exe == cmd.entry.exe && cmd.err == NoError && Exec.WellBuilt(cmd.exe)
  {
    if l.Install? {
      assert Exec.WellBuilt(l.entries[c - |s.cmds|].exe);
    } else if !l.NewChannel? {
      SizesStay(s, l);
    }
  }

  /** Before it exists nothing is done to a command. */
  lemma {:induction false} NoLooksYet(s: State, ls: seq<Step>, c: nat)
    requires Inv(s) && Runs(s, ls) && |After(s, ls).cmds| <= c
    ensures LooksIn(s, ls, c) == []
    decreases |ls|
  {
    if ls != [] {
      var before, l := After(s, ls[..|ls| - 1]), ls[|ls| - 1];
      RunKeeps(s, ls[..|ls| - 1]);
      if c < |before.cmds| { StepRebuilds(before, l, c); }
      NoLooksYet(s, ls[..|ls| - 1], c);
    }
  }

  lemma LooksSnoc(c: Exec.Cmd, looks: seq<Str>, look: Str)
    requires c.args != [] && LooksOk(c, looks) && Exec.LookOk(Rebuilds(c, looks).path, look)
    ensures LooksOk(c, looks + [look])
    ensures Rebuilds(c, looks + [look]) == Exec.Rebuild(Rebuilds(c, looks), look)
  {
    assert (looks + [look])[..|looks + [look]| - 1] == looks;
  }

  /**
   * In every reachable state the command line of a command is the configured one, rebuilt once for each of its timers
   * that won, in order.
   */
  lemma {:induction false} CommandLineIsRebuilt(s0: State, ls: seq<Step>, s: State, c: nat)
    requires Reached(s0, ls, s) && c < |s.cmds|
    ensures s.cmds[c].entry.exe.args != [] && LooksOk(s.cmds[c].entry.exe, LooksIn(s0, ls, c))
    ensures s.cmds[c].exe == Rebuilds(s.cmds[c].entry.exe, LooksIn(s0, ls, c))
    decreases |ls|
  {
    hide Next, Enabled, WellFormed, Inv, Init;
    if ls == [] {
      FirstIsConfigured(s0, c);
    } else {
      var m, l := ls[..|ls| - 1], ls[|ls| - 1];
      var before := After(s0, m);
      ReachedInv(s0, m, before);
      if c < |before.cmds| {
        CommandLineIsRebuilt(s0, m, before, c);
        RebuiltOnce(before, l, c, LooksIn(s0, m, c));
      } else {
        InitInv(s0);
        NoLooksYet(s0, m, c);
        NewIsConfigured(before, l, c);
        NoLookForNew(before, l, c);
      }
    }
  }

  lemma FirstIsConfigured(s: State, c: nat)
    requires Init(s) && c < |s.cmds|
    ensures var cmd := s.cmds[c];
            cmd.exe == cmd.entry.exe && cmd.err == NoError && Exec.WellBuilt(cmd.exe)
  {
    assert s.cmds[c] == NewCmd(s.cmds[c].entry, 0, true);
  }

  lemma NoLookForNew(s: State, l: Step, c: nat)
    requires WellFormed(s) && Enabled(s, l) && |s.cmds| <= c
    ensures LookIn(s, l, c) == []
  {
  }

  lemma RebuiltOnce(s: State, l: Step, c: nat, looks: seq<Str>)
    requires WellFormed(s) && Enabled(s, l) && c < |s.cmds|
    requires s.cmds[c].entry.exe.args != []
    requires LooksOk(s.cmds[c].entry.exe, looks) && s.cmds[c].exe == Rebuilds(s.cmds[c].entry.exe, looks)
    ensures var all, m := looks + LookIn(s, l, c), Next(s, l);
            && c < |m.cmds| && m.cmds[c].entry == s.cmds[c].entry
            && LooksOk(m.cmds[c].entry.exe, all) && m.cmds[c].exe == Rebuilds(m.cmds[c].entry.exe, all)
  {
    StepRebuilds(s, l, c);
    hide Next, Enabled, WellFormed;
    var last := LookIn(s, l, c);
    if last == [] {
      assert looks + last == looks;
    } else {
      assert last == [last[0]];
      LooksSnoc(s.cmds[c].entry.exe, looks, last[0]);
    }
  }

  // ---------------------------------------------------------------- the error over runs

  /** What a step makes of the error of command `c`. */
  ghost function ErrorAfter(s: State, l: Step, c: nat, was: Error): Error
    requires WellFormed(s) && Enabled(s, l)
  {
    if !IsMove(l) || s.threads[l.t].cmd != c then was
    else
      match l
      case LogFails(_) => LogError
      case StartFails(_) => StartError
      case WaitReturns(_, failed) => if failed then WaitError else NoError
      case Fire(_, _) => NoError
      case _ => was
  }

  /** The outcome of the last attempt to run command `c`, cleared by the timer that follows it. */
  ghost function LastError(s: State, ls: seq<Step>, c: nat): Error
    requires Runs(s, ls)
    decreases |ls|
  {
    if ls == [] then NoError
    else ErrorAfter(After(s, ls[..|ls| - 1]), ls[|ls| - 1], c, LastError(s, ls[..|ls| - 1], c))
  }

  lemma StepTellsError(s: State, l: Step, c: nat)
    requires Inv(s) && WellFormed(s) && Enabled(s, l) && c < |s.cmds|
    ensures c < |Next(s, l).cmds| && Next(s, l).cmds[c].err == ErrorAfter(s, l, c, s.cmds[c].err)
  {
    if IsMove(l) && s.threads[l.t].cmd == c {
      EffectTellsError(s, l);
      MoveChanges(s, l);
    } else {
      OthersKeepError(s, l, c);
    }
  }

  lemma EffectTellsError(s: State, l: Step)
    requires Inv(s) && WellFormed(s) && Enabled(s, l) && IsMove(l)
    ensures var c := s.threads[l.t].cmd; EffectOf(s, l).cmd.err == ErrorAfter(s, l, c, s.cmds[c].err)
  {
    assert ThreadOk(s, l.t) && CmdOk(s, s.threads[l.t].cmd);
    hide Inv;
  }

  lemma MoveChanges(s: State, l: Step)
    requires WellFormed(s) && Enabled(s, l) && IsMove(l)
    ensures s.threads[l.t].cmd < |Next(s, l).cmds| && Next(s, l).cmds[s.threads[l.t].cmd] == EffectOf(s, l).cmd
  {
    hide EffectOf;
  }

  lemma OthersKeepError(s: State, l: Step, c: nat)
    requires WellFormed(s) && Enabled(s, l) && c < |s.cmds| && !(IsMove(l) && s.threads[l.t].cmd == c)
    ensures c < |Next(s, l).cmds| && Next(s, l).cmds[c].err == s.cmds[c].err
  {
    hide EffectOf;
  }

  lemma NoErrorForNew(s: State, l: Step, c: nat, was: Error)
    requires WellFormed(s) && Enabled(s, l) && |s.cmds| <= c
    ensures ErrorAfter(s, l, c, was) == was
  {
  }

  lemma {:induction false} NoErrorYet(s: State, ls: seq<Step>, c: nat)
    requires Inv(s) && Runs(s, ls) && |After(s, ls).cmds| <= c
    ensures LastError(s, ls, c) == NoError
    decreases |ls|
  {
    if ls != [] {
      var before, l := After(s, ls[..|ls| - 1]), ls[|ls| - 1];
      RunKeeps(s, ls[..|ls| - 1]);
      if c < |before.cmds| { StepRebuilds(before, l, c); }
      NoErrorYet(s, ls[..|ls| - 1], c);
    }
  }

  /** In every reachable state the error of a command is the outcome of its last attempt. */
  lemma {:induction false} ErrorIsTheLastOutcome(s0: State, ls: seq<Step>, s: State, c: nat)
    requires Reached(s0, ls, s) && c < |s.cmds|
    ensures s.cmds[c].err == LastError(s0, ls, c)
    decreases |ls|
  {
    hide Next, Enabled, WellFormed, Inv, Init;
    if ls == [] {
      FirstIsConfigured(s0, c);
    } else {
      var m, l := ls[..|ls| - 1], ls[|ls| - 1];
      var before := After(s0, m);
      ReachedInv(s0, m, before);
      if c < |before.cmds| {
        ErrorIsTheLastOutcome(s0, m, before, c);
        StepTellsError(before, l, c);
      } else {
        InitInv(s0);
        NoErrorYet(s0, m, c);
        NewIsConfigured(before, l, c);
        NoErrorForNew(before, l, c, NoError);
      }
    }
  }
}
