/** The SIGHUP branch of `main` (main.go). */
module MainLoop {
  import opened Prelude
  import opened Machine
  import opened Invariant
  import opened Weaving
  import opened Reloading
  import opened Settling
  import opened Daemons
  import opened Config
  import Exec

  /** What reading the configuration file comes to. */
  datatype Load = Unreadable | Malformed | Parsed(entries: seq<ConfEntry>)

  /** The commands and annotations that a parsed configuration stands for. */
  function EntriesOf(entries: seq<ConfEntry>, host: Host, looks: seq<Str>): seq<Entry>
    requires |looks| == |entries|
  {
    seq(|entries|, i requires 0 <= i < |entries| =>
      Entry(CmdOf(entries[i], looks[i]), Filled(host, entries[i]).annotations))
  }

  /** Every lookup ends as `exec.LookPath` can end. */
  predicate LooksAt(entries: seq<ConfEntry>, looks: seq<Str>) {
    |looks| == |entries| && forall i :: 0 <= i < |entries| ==> Exec.LookOk(entries[i].cmd, looks[i])
  }

  predicate Accepted(load: Load) {
    load.Parsed? && load.entries != []
  }

  /** The context can be cancelled, and then the goroutines can run the schedule. */
  ghost predicate CanStop(s: State, schedule: seq<Step>) {
    && WellFormed(s) && Enabled(s, Step.Cancel)
    && Runs(Next(s, Step.Cancel), schedule) && OthersOnly(schedule)
  }

  ghost function Halted(s: State, schedule: seq<Step>): State
    requires CanStop(s, schedule)
  {
    After(Next(s, Step.Cancel), schedule)
  }

  /** After cancellation and schedule, `Reload` can run through, the other goroutines acting after each statement. */
  ghost predicate CanHangUp(s: State, schedule: seq<Step>, others: seq<seq<Step>>, entries: seq<Entry>) {
    && CanStop(s, schedule) && |others| >= 4
    && Runs(Halted(s, schedule), Woven(ReloadSteps(|others|, entries), others))
    && forall i :: 0 <= i < |others| ==> OthersOnly(others[i])
  }

  /** Where cancellation, schedule and reload lead. */
  ghost function HungUp(s: State, schedule: seq<Step>, others: seq<seq<Step>>, entries: seq<Entry>): State
    requires CanHangUp(s, schedule, others, entries)
  {
    After(Halted(s, schedule), Woven(ReloadSteps(|others|, entries), others))
  }

  /** What reaches the signal loop; `Quiet` is what the goroutines do while it waits. */
  datatype Signal =
    | Quiet(schedule: seq<Step>)
    | Hup(load: Load, host: Host, looks: seq<Str>, schedule: seq<Step>, others: seq<seq<Step>>)
    | Terminate
    | ServerDone

  /** SIGTERM and the end of the web server leave the loop. */
  predicate Leaves(g: Signal) {
    g.Terminate? || g.ServerDone?
  }

  ghost predicate CanHappen(s: State, g: Signal)
    requires WellFormed(s)
  {
    match g
    case Quiet(schedule) => Runs(s, schedule) && OthersOnly(schedule)
    case Hup(load, host, looks, schedule, others) =>
      && (load.Parsed? ==> LooksAt(load.entries, looks))
      && (Accepted(load) ==> CanHangUp(s, schedule, others, EntriesOf(load.entries, host, looks)))
    case _ => Enabled(s, Step.Cancel)
  }

  /** Leaving the loop runs the deferred `cancel()`. */
  ghost function Handled(s: State, g: Signal): State
    requires WellFormed(s) && CanHappen(s, g)
  {
    match g
    case Quiet(schedule) => After(s, schedule)
    case Hup(load, host, looks, schedule, others) =>
      if Accepted(load) then HungUp(s, schedule, others, EntriesOf(load.entries, host, looks)) else s
    case _ => Next(s, Step.Cancel)
  }

  ghost predicate AllCanHappen(s: State, signals: seq<Signal>)
    decreases |signals|
  {
    && WellFormed(s)
    && (signals == [] ||
        (&& CanHappen(s, signals[0])
         && (Leaves(signals[0]) || AllCanHappen(Handled(s, signals[0]), signals[1..]))))
  }

  ghost function Outcome(s: State, signals: seq<Signal>): State
    requires AllCanHappen(s, signals)
    decreases |signals|
  {
    if signals == [] then s
    else if Leaves(signals[0]) then Handled(s, signals[0])
    else Outcome(Handled(s, signals[0]), signals[1..])
  }

  lemma OutcomeAtEnd(s: State, signals: seq<Signal>, i: nat)
    requires i == |signals| && AllCanHappen(s, signals[i..])
    ensures Outcome(s, signals[i..]) == s
  {
  }

  lemma OutcomeOfLeaving(s: State, signals: seq<Signal>, i: nat)
    requires i < |signals| && AllCanHappen(s, signals[i..]) && Leaves(signals[i])
    ensures WellFormed(s) && Enabled(s, Step.Cancel)
    ensures Outcome(s, signals[i..]) == Next(s, Step.Cancel)
  {
  }

  lemma OutcomeOfRest(s: State, signals: seq<Signal>, i: nat)
    requires i < |signals| && AllCanHappen(s, signals[i..]) && !Leaves(signals[i])
    ensures WellFormed(s) && CanHappen(s, signals[i])
    ensures AllCanHappen(Handled(s, signals[i]), signals[i + 1..])
    ensures Outcome(s, signals[i..]) == Outcome(Handled(s, signals[i]), signals[i + 1..])
  {
    assert signals[i..][1..] == signals[i + 1..];
  }

  // ---------------------------------------------------------------- the generation in force

  ghost predicate LooksMatch(signals: seq<Signal>) {
    forall i :: 0 <= i < |signals| && signals[i].Hup? && signals[i].load.Parsed? ==>
      |signals[i].looks| == |signals[i].load.entries|
  }

  /** The entries of the last accepted configuration. */
  ghost function LastAccepted(current: seq<Entry>, signals: seq<Signal>): seq<Entry>
    requires LooksMatch(signals)
    decreases |signals|
  {
    if signals == [] || Leaves(signals[0]) then current
    else if signals[0].Hup? && Accepted(signals[0].load) then
      LastAccepted(EntriesOf(signals[0].load.entries, signals[0].host, signals[0].looks), signals[1..])
    else LastAccepted(current, signals[1..])
  }

  /** `main` is outside `Reload`, with the entries in force. */
  ghost predicate Serves(s: State, entries: seq<Entry>) {
    Inv(s) && s.stage.Serving? && InForce(s, entries)
  }

  lemma StepKeepsServing(s: State, l: Step, entries: seq<Entry>)
    requires Serves(s, entries) && WellFormed(s) && Enabled(s, l) && (l.Cancel? || !IsMain(l))
    ensures Serves(Next(s, l), entries)
  {
    StepKeeps(s, l);
    StepKeepsInForce(s, l, entries);
    ServingStays(s, l);
  }

  lemma {:induction false} RunKeepsServing(s: State, ls: seq<Step>, entries: seq<Entry>)
    requires Serves(s, entries) && Runs(s, ls) && OthersOnly(ls)
    ensures Serves(After(s, ls), entries)
  {
    if ls != [] {
      RunKeepsServing(s, ls[..|ls| - 1], entries);
      StepKeepsServing(After(s, ls[..|ls| - 1]), ls[|ls| - 1], entries);
    }
  }

  /** However the other goroutines act in between, a reload that runs through puts its entries in force. */
  lemma ReloadServes(s: State, others: seq<seq<Step>>, entries: seq<Entry>)
    requires Inv(s) && |others| >= 4 && Runs(s, Woven(ReloadSteps(|others|, entries), others))
    requires OthersOnly(others[|others| - 1])
    ensures Serves(After(s, Woven(ReloadSteps(|others|, entries), others)), entries)
  {
    hide Next, Enabled, Woven, Runs, After, Inv, Serves, ReloadSteps;
    var n := |others| - 1;
    var mine := ReloadSteps(|others|, entries);
    StatementsOfReload(|others|, entries);
    WovenStep(s, mine, others, n);
    assert mine[..n + 1] == mine && others[..n + 1] == others;
    var m := StateBefore(s, mine, others, n);
    RunKeeps(s, Woven(mine[..n], others[..n]));
    InstallServes(m, entries);
    RunKeepsServing(Next(m, Step.Install(entries)), others[n], entries);
  }

  lemma InstallServes(s: State, entries: seq<Entry>)
    requires Inv(s) && WellFormed(s) && Enabled(s, Step.Install(entries))
    ensures Serves(Next(s, Step.Install(entries)), entries)
  {
    StepKeeps(s, Step.Install(entries));
    ReloadInstalls(s, entries);
  }

  lemma HangupServes(s: State, schedule: seq<Step>, others: seq<seq<Step>>, entries: seq<Entry>, current: seq<Entry>)
    requires Serves(s, current) && CanHangUp(s, schedule, others, entries)
    ensures Serves(HungUp(s, schedule, others, entries), entries)
  {
    StepKeepsServing(s, Step.Cancel, current);
    RunKeepsServing(Next(s, Step.Cancel), schedule, current);
    ReloadServes(Halted(s, schedule), others, entries);
  }

  lemma SignalKeepsServing(s: State, g: Signal, entries: seq<Entry>)
    requires Serves(s, entries) && WellFormed(s) && CanHappen(s, g)
    ensures var next := if g.Hup? && Accepted(g.load) then EntriesOf(g.load.entries, g.host, g.looks) else entries;
            Serves(Handled(s, g), next)
  {
    match g
    case Quiet(schedule) => RunKeepsServing(s, schedule, entries);
    case Hup(load, host, looks, schedule, others) =>
      if Accepted(load) {
        HangupServes(s, schedule, others, EntriesOf(load.entries, host, looks), entries);
      }
    case _ => StepKeepsServing(s, Step.Cancel, entries);
  }

  /** Over any sequence of signals the generation in force is that of the last accepted configuration. */
  lemma {:induction false} LastAcceptedIsInForce(s: State, signals: seq<Signal>, entries: seq<Entry>)
    requires Serves(s, entries) && AllCanHappen(s, signals) && LooksMatch(signals)
    ensures Serves(Outcome(s, signals), LastAccepted(entries, signals))
    decreases |signals|
  {
    if signals != [] {
      var g := signals[0];
      SignalKeepsServing(s, g, entries);
      if !Leaves(g) {
        var now := if g.Hup? && Accepted(g.load) then EntriesOf(g.load.entries, g.host, g.looks) else entries;
        LastAcceptedIsInForce(Handled(s, g), signals[1..], now);
      }
    }
  }

  // ---------------------------------------------------------------- what the signals come to

  /**
   * Command `c` is configured with the name and the arguments of an entry of the file and keeps the annotations given
   * there; restarts have left its arguments alone.
   */
  ghost predicate RunsEntry(s: State, c: nat, e: ConfEntry) {
    && c < |s.cmds|
    && s.cmds[c].entry.exe.args == [e.cmd] + e.args
    && s.cmds[c].exe.args != [] && s.cmds[c].exe.args[1..] == e.args
    && forall key :: Label(e.annotations, key) != "" ==>
         Label(s.cmds[c].entry.annotations, key) == Label(e.annotations, key)
  }

  /** The commands in force are those of the file, in order. */
  ghost predicate RunsFile(s: State, entries: seq<ConfEntry>) {
    && |entries| <= |s.cmds|
    && var first := |s.cmds| - |entries|;
       && (forall c :: 0 <= c < |s.cmds| ==> (s.cmds[c].gen == s.Cur() <==> first <= c))
       && forall i :: 0 <= i < |entries| ==> RunsEntry(s, first + i, entries[i])
  }

  lemma BuiltRunsEntry(s: State, c: nat, e: ConfEntry, host: Host, look: Str)
    requires Inv(s) && c < |s.cmds| && s.cmds[c].entry == Entry(CmdOf(e, look), Filled(host, e).annotations)
    ensures RunsEntry(s, c, e)
  {
    assert CmdOk(s, c);
    hide Inv, CmdOk;
    CommandLineAsConfigured(e, look);
    forall key ensures Label(e.annotations, key) != "" ==>
                         Label(s.cmds[c].entry.annotations, key) == Label(e.annotations, key)
    {
      DefaultsRespectTheUser(host, e, key);
    }
  }

  lemma InForceRunsFile(s: State, entries: seq<ConfEntry>, host: Host, looks: seq<Str>)
    requires |looks| == |entries| && Serves(s, EntriesOf(entries, host, looks))
    ensures RunsFile(s, entries)
  {
    hide Inv, CmdOf, Filled, RunsEntry;
    var first := |s.cmds| - |entries|;
    forall i | 0 <= i < |entries| ensures RunsEntry(s, first + i, entries[i]) {
      BuiltRunsEntry(s, first + i, entries[i], host, looks[i]);
    }
  }

  /** A file that parses and has a command is put in force. */
  lemma HangupRunsTheFile(s: State, g: Signal, current: seq<Entry>)
    requires Serves(s, current) && WellFormed(s) && CanHappen(s, g)
    requires g.Hup? && g.load.Parsed? && |g.load.entries| > 0
    ensures RunsFile(Handled(s, g), g.load.entries)
  {
    SignalKeepsServing(s, g, current);
    InForceRunsFile(Handled(s, g), g.load.entries, g.host, g.looks);
  }

  /** A file that cannot be read, does not parse or has no command changes nothing in the daemon. */
  lemma BadFilesChangeNothing(s: State, g: Signal)
    requires WellFormed(s) && CanHappen(s, g) && g.Hup?
    requires g.load.Unreadable? || g.load.Malformed? || (g.load.Parsed? && g.load.entries == [])
    ensures Handled(s, g) == s
  {
  }

  /** An accepted file makes this run: cancellation, what the others do, and the reload with the others in between. */
  lemma HangupIsARun(s: State, g: Signal)
    requires WellFormed(s) && CanHappen(s, g) && g.Hup? && g.load.Parsed? && |g.load.entries| > 0
    ensures |g.looks| == |g.load.entries| && |g.others| >= 4
    ensures var reload := Woven(ReloadSteps(|g.others|, EntriesOf(g.load.entries, g.host, g.looks)), g.others);
            && Runs(s, ([Step.Cancel] + g.schedule) + reload)
            && Handled(s, g) == After(s, ([Step.Cancel] + g.schedule) + reload)
  {
    StatementsOfReload(|g.others|, EntriesOf(g.load.entries, g.host, g.looks));
    hide Next, WellFormed, Enabled, Runs, After, Woven, ReloadSteps;
    var reload := Woven(ReloadSteps(|g.others|, EntriesOf(g.load.entries, g.host, g.looks)), g.others);
    CancelThen(s, g.schedule);
    RunsSplit(s, [Step.Cancel] + g.schedule, reload);
  }

  lemma CancelThen(s: State, ls: seq<Step>)
    requires WellFormed(s) && Enabled(s, Step.Cancel) && Runs(Next(s, Step.Cancel), ls)
    ensures Runs(s, [Step.Cancel] + ls) && After(s, [Step.Cancel] + ls) == After(Next(s, Step.Cancel), ls)
  {
    hide Next, WellFormed, Enabled;
    RunsLast(s, [], Step.Cancel);
    assert [] + [Step.Cancel] == [Step.Cancel];
    RunsSplit(s, [Step.Cancel], ls);
  }

  lemma SignalIsARun(s: State, g: Signal)
    requires WellFormed(s) && CanHappen(s, g)
    ensures Reaches(s, Handled(s, g))
  {
    hide Next, WellFormed, Enabled, Woven, ReloadSteps, HungUp, CanHangUp, Runs, After;
    LeadsNowhere(s);
    match g
    case Quiet(schedule) =>
    case Hup(load, host, looks, schedule, others) =>
      if Accepted(load) { HangupIsARun(s, g); }
    case _ => ReachesOn(s, s, Step.Cancel);
  }

  /** Whatever signals arrive, the loop makes a run of the machine, so everything proved of runs holds of it. */
  lemma {:induction false} OutcomeIsARun(s: State, signals: seq<Signal>)
    requires AllCanHappen(s, signals)
    ensures Reaches(s, Outcome(s, signals))
    decreases |signals|
  {
    hide Reaches, CanHappen, Handled;
    if signals == [] {
      LeadsNowhere(s);
    } else {
      SignalIsARun(s, signals[0]);
      if !Leaves(signals[0]) {
        OutcomeIsARun(Handled(s, signals[0]), signals[1..]);
        ReachesTransitive(s, Handled(s, signals[0]), Outcome(s, signals));
      }
    }
  }

  /** SIGTERM and the end of the web server cancel the context in force and end the loop: later signals are not seen. */
  lemma LeavingCancels(s: State, g: Signal, later: seq<Signal>)
    requires (g.Terminate? || g.ServerDone?) && AllCanHappen(s, [g] + later)
    ensures var m := Outcome(s, [g] + later);
            && |m.gens| == |s.gens| > 0 && m.gens[|m.gens| - 1].cancelled
            && m == Handled(s, g) && m.cmds == s.cmds && m.threads == s.threads
  {
  }

  // ---------------------------------------------------------------- the process

  lemma BuiltFromEntry(e: ConfEntry, look: Str)
    requires Exec.LookOk(e.cmd, look)
    ensures Exec.WellBuilt(CmdOf(e, look))
  {
  }

  class Process {
    var conf: Conf
    var d: Daemon

    constructor (conf: Conf, d: Daemon)
      ensures this.conf == conf && this.d == d
    {
      this.conf, this.d := conf, d;
    }

    /**
     * `initConf`; false is a panic. A file without commands is parsed into the global before the panic, so
     * the configuration object can disagree with the daemon afterwards.
     */
    method InitConf(load: Load) returns (ok: bool)
      modifies this`conf
      ensures ok <==> load.Parsed? && |load.entries| > 0
      ensures load.Parsed? ==> fresh(conf) && fresh(conf.cmds) && conf.cmds[..] == load.entries
      ensures !load.Parsed? ==> conf == old(conf)
    {
      match load
      case Unreadable => return false;
      case Malformed => return false;
      case Parsed(entries) =>
        conf := new Conf(entries);
        if conf.cmds.Length == 0 {
          return false;
        }
        return true;
    }

    /** `initConf` and `GenerateCmds`. The second check for an empty list never fires: `initConf` has refused it. */
    method LoadCmds(load: Load, host: Host, looks: seq<Str>)
        returns (ok: bool, cmds: seq<Exec.Cmd>, annotationsList: seq<Annotations>)
      requires load.Parsed? ==> LooksAt(load.entries, looks)
      modifies this`conf
      ensures ok <==> load.Parsed? && |load.entries| > 0
      ensures ok ==> |cmds| == |annotationsList| == |load.entries| > 0
      ensures ok ==> forall i :: 0 <= i < |cmds| ==>
                cmds[i].args == [load.entries[i].cmd] + load.entries[i].args && annotationsList[i].Some?
      ensures ok ==> Daemon.Entries(cmds, annotationsList) == EntriesOf(load.entries, host, looks)
      ensures ok ==> forall i :: 0 <= i < |cmds| ==> Exec.WellBuilt(cmds[i])
    {
      cmds, annotationsList := [], [];
      ok := InitConf(load);
      if !ok {
        return;
      }
      cmds, annotationsList := GenerateCmds(conf, host, looks);
      ok := |cmds| != 0;
      forall i | 0 <= i < |cmds| ensures Exec.WellBuilt(cmds[i]) && annotationsList[i].Some? {
        BuiltFromEntry(load.entries[i], looks[i]);
        DefaultsRespectTheUser(host, load.entries[i], "name");
      }
    }

    /**
     * SIGHUP. `schedule` is what the goroutines do between the cancellation and the reload, while the children are
     * killed, and `others` what they do after each statement of `Reload`. All or nothing: a rejected configuration
     * makes no step at all, an accepted one cancels, lets the schedule run and reloads with one command per entry.
     */
    method Hangup(load: Load, host: Host, looks: seq<Str>, schedule: seq<Step>, others: seq<seq<Step>>)
      requires load.Parsed? ==> LooksAt(load.entries, looks)
      requires d.Valid()
      requires Accepted(load) ==> CanHangUp(d.View(), schedule, others, EntriesOf(load.entries, host, looks))
      modifies this`conf, d, d.Objects()
      ensures d == old(d) && d.Valid() && d.OnlyNewObjects()
      ensures !Accepted(load) ==> d.View() == old(d.View()) && d.dcmds == old(d.dcmds)
      ensures Accepted(load) ==>
                d.View() == HungUp(old(d.View()), schedule, others, EntriesOf(load.entries, host, looks))
    {
      hide Next, After, Runs, Inv, WellFormed, Enabled;
      var ok, cmds, annotationsList := LoadCmds(load, host, looks);
      if ok {
        Stop(schedule);
        d.Reload(cmds, annotationsList, others);
      }
    }

    /** `cancel()` and the wait for the children. */
    method Stop(schedule: seq<Step>)
      requires d.Valid() && CanStop(d.View(), schedule)
      modifies d, d.Objects()
      ensures d.Valid() && d.OnlyNewObjects()
      ensures d.View() == Halted(old(d.View()), schedule) == After(Next(old(d.View()), Step.Cancel), schedule)
    {
      hide Next, After, Runs, Inv, WellFormed, Enabled;
      d.Cancel();
      d.Play(schedule);
    }

    /** The signal loop, up to a signal that leaves it or the last one given; leaving runs the deferred `cancel()`. */
    method Serve(signals: seq<Signal>)
      requires d.Valid() && AllCanHappen(d.View(), signals)
      modifies this`conf, d, d.Objects()
      ensures d.Valid() && d.View() == Outcome(old(d.View()), signals)
    {
      hide Outcome, AllCanHappen, Handled, Next, Inv, WellFormed, Enabled;
      var i := 0;
      ghost var s0 := d.View();
      assert signals[0..] == signals;
      while i < |signals|
        invariant 0 <= i <= |signals|
        invariant d == old(d) && d.Valid() && d.OnlyNewObjects()
        invariant AllCanHappen(d.View(), signals[i..])
        invariant Outcome(d.View(), signals[i..]) == Outcome(s0, signals)
      {
        if Leaves(signals[i]) {
          OutcomeOfLeaving(d.View(), signals, i);
          d.Cancel();
          return;
        }
        OutcomeOfRest(d.View(), signals, i);
        HandleSignal(signals[i]);
        i := i + 1;
      }
      OutcomeAtEnd(d.View(), signals, i);
    }

    method HandleSignal(g: Signal)
      requires !Leaves(g) && d.Valid() && CanHappen(d.View(), g)
      modifies this`conf, d, d.Objects()
      ensures d == old(d) && d.Valid() && d.OnlyNewObjects()
      ensures d.View() == Handled(old(d.View()), g)
    {
      hide Next, After, Runs, Inv, WellFormed, Enabled;
      match g
      case Quiet(schedule) => d.Play(schedule);
      case Hup(load, host, looks, schedule, others) => Hangup(load, host, looks, schedule, others);
    }
  }
}
