/**
 * The daemon as a step machine: all goroutines of all generations, over unboundedly many commands.
 *
 * A label names a step and fixes every choice that step leaves open (timing, process outcomes, the branch a
 * `select` takes), so `Next` is a function and a run is a sequence of labels.
 * Context and channel of generation k are `gens[k]`. `d.exitedCmdCh` is the channel of the last generation and
 * `d.ctx` the context of generation `Ctx()`, which lags behind inside `Reload`; a goroutine that reads those fields
 * reads what they are at that step.
 */
module Machine {
  import opened Prelude
  import opened Limiting
  import opened Supervisor
  import Exec

  const CAPACITY: nat := 20

  datatype Status = StatusExited | StatusRunning

  datatype Error = NoError | LogError | StartError | WaitError

  /** The label values of the restart counter: name, port, hostname, ip, app. */
  function MetricLabels(a: Annotations): seq<Str> {
    [Label(a, "name"), Label(a, "port"), Label(a, "hostname"), Label(a, "ip"), Label(a, "app")]
  }

  /** One configured command with its annotations. */
  datatype Entry = Entry(exe: Exec.Cmd, annotations: Annotations)

  /** A `DaemonCmd`; `gen` stands for its context and `logged` for a non-empty log directory. */
  datatype DCmd = DCmd(
    entry: Entry, gen: nat, exe: Exec.Cmd, limiter: LState, status: Status, err: Error, logged: bool)

  /** Where a goroutine working for a command is; `ch` is the channel it was given. */
  datatype Pc =
    | Entering                       // about to evaluate d.exitedCmdCh and call startAndWait
    | Launching(ch: nat)             // in startAndWait, before the log file and Start
    | Alive(ch: nat)                 // in Wait
    | Checking(ch: nat)              // before the select on the command's context
    | Sending(ch: nat)               // past that select, before the send
    | Spawned                        // back-off goroutine, before its select
    | Waiting(wake: int, ctx: nat)   // in that select: timer against the context it read
    | Finished

  datatype Thread = Thread(cmd: nat, pc: Pc)

  /** The loop of one `Run`: it re-reads d.ctx and d.exitedCmdCh each time it enters its select. */
  datatype Consumer = Idle | Looping | Selecting(ctx: nat, k: nat) | Returned

  /** Where `main` is: outside `Reload`, or between two of its statements. */
  datatype Stage =
    | Serving
    | Closing                        // the old channel is closed and being drained
    | Renewing                       // d.exitedCmdCh is the new channel, d.ctx the old context
    | Populating                     // d.ctx is the new context, d.DCmds is empty

  datatype Gen = Gen(cancelled: bool, closed: bool, queue: seq<nat>, consumer: Consumer)

  /** Where the token of a command is: with a goroutine, in a channel, or gone. */
  datatype Loc = InThread(t: nat) | InQueue(k: nat) | Nowhere

  /** History of one command. No step reads it. */
  datatype Hist = Hist(loc: Loc, log: seq<Event>)

  datatype State = State(
    now: int,
    stage: Stage,
    cmds: seq<DCmd>,
    gens: seq<Gen>,
    threads: seq<Thread>,
    restarts: map<seq<Str>, nat>,
    crashed: bool,
    hist: seq<Hist>)
  {
    /** The generation whose channel is `d.exitedCmdCh`. */
    function Cur(): int { |gens| - 1 }

    /** The generation whose context is `d.ctx`. */
    function Ctx(): int { if stage.Renewing? then |gens| - 2 else |gens| - 1 }
  }

  datatype Step =
    | Tick(to: int)
    | Enter(t: nat)
    | LogFails(t: nat)
    | Starts(t: nat)
    | StartFails(t: nat)
    | WaitReturns(t: nat, failed: bool)
    | CheckCtx(t: nat)
    | Send(t: nat)
    | Arm(g: nat)
    | Receive(g: nat)
    | Return(g: nat)
    | SetTimer(t: nat)
    | Abandon(t: nat)
    | Fire(t: nat, look: Str)
    | ResetOne(c: nat)
    | Cancel
    | Close
    | Drain
    | NewChannel
    | NewContext
    | Install(entries: seq<Entry>)

  ghost function Log(s: State, c: nat): seq<Event> {
    if c < |s.hist| then s.hist[c].log else []
  }

  ghost predicate WellFormed(s: State) {
    && s.now > 0
    && s.gens != []
    && (s.stage.Renewing? ==> |s.gens| >= 2)
    && |s.hist| == |s.cmds|
    && (forall t :: 0 <= t < |s.threads| ==> s.threads[t].cmd < |s.cmds|)
    && (forall c :: 0 <= c < |s.cmds| ==> s.cmds[c].gen < |s.gens| && s.cmds[c].exe.args != [])
    && (forall t :: 0 <= t < |s.threads| ==> PcFits(s, s.threads[t].pc))
    && (forall g :: 0 <= g < |s.gens| && s.gens[g].consumer.Selecting? ==>
          s.gens[g].consumer.ctx < |s.gens| && s.gens[g].consumer.k < |s.gens|)
    && (forall k, i :: 0 <= k < |s.gens| && 0 <= i < |s.gens[k].queue| ==> s.gens[k].queue[i] < |s.cmds|)
  }

  ghost predicate PcFits(s: State, pc: Pc) {
    && (pc.Launching? || pc.Alive? || pc.Checking? || pc.Sending? ==> pc.ch < |s.gens|)
    && (pc.Waiting? ==> pc.ctx < |s.gens|)
  }

  ghost predicate At(s: State, t: int) {
    0 <= t < |s.threads| && !s.threads[t].pc.Finished?
  }

  ghost predicate Enabled(s: State, l: Step)
    requires WellFormed(s)
  {
    && !s.crashed
    && match l
       case Tick(to) => s.now <= to
       case Enter(t) => At(s, t) && s.threads[t].pc.Entering?
       case LogFails(t) => At(s, t) && s.threads[t].pc.Launching? && s.cmds[s.threads[t].cmd].logged
       case Starts(t) => At(s, t) && s.threads[t].pc.Launching?
       case StartFails(t) => At(s, t) && s.threads[t].pc.Launching?
       case WaitReturns(t, _) => At(s, t) && s.threads[t].pc.Alive?
       case CheckCtx(t) => At(s, t) && s.threads[t].pc.Checking?
       case Send(t) =>
         && At(s, t) && s.threads[t].pc.Sending?
         && (s.gens[s.threads[t].pc.ch].closed || |s.gens[s.threads[t].pc.ch].queue| < CAPACITY)
       case Arm(g) => g < |s.gens| && s.gens[g].consumer.Looping?
       case Receive(g) =>
         && g < |s.gens| && s.gens[g].consumer.Selecting?
         && (s.gens[s.gens[g].consumer.k].queue != [] || s.gens[s.gens[g].consumer.k].closed)
       case Return(g) =>
         && g < |s.gens| && s.gens[g].consumer.Selecting?
         && s.gens[s.gens[g].consumer.ctx].cancelled
       case SetTimer(t) => At(s, t) && s.threads[t].pc.Spawned?
       case Abandon(t) => At(s, t) && s.threads[t].pc.Waiting? && s.gens[s.threads[t].pc.ctx].cancelled
       case Fire(t, look) =>
         && At(s, t) && s.threads[t].pc.Waiting? && s.threads[t].pc.wake <= s.now
         && Exec.LookOk(s.cmds[s.threads[t].cmd].exe.path, look)
       case ResetOne(c) => c < |s.cmds|
       case Cancel => s.stage.Serving? && !s.gens[s.Cur()].cancelled
       case Close => s.stage.Serving? && s.gens[s.Cur()].cancelled
       case Drain => s.stage.Closing? && s.gens[s.Cur()].queue != []
       case NewChannel => s.stage.Closing? && s.gens[s.Cur()].queue == []
       case NewContext => s.stage.Renewing?
       case Install(entries) =>
         s.stage.Populating? && forall i :: 0 <= i < |entries| ==> Exec.WellBuilt(entries[i].exe)
  }

  // ---------------------------------------------------------------- what a step does

  /** Goroutine `t` moves to `pc`, leaving its command as `cmd`. */
  function Move(s: State, t: nat, pc: Pc, cmd: DCmd, events: seq<Event>): State
    requires t < |s.threads| && s.threads[t].cmd < |s.cmds| == |s.hist|
  {
    var c := s.threads[t].cmd;
    var loc := if pc.Finished? then Nowhere else InThread(t);
    s.(threads := s.threads[t := Thread(c, pc)], cmds := s.cmds[c := cmd],
       hist := s.hist[c := Hist(loc, s.hist[c].log + events)])
  }

  function Count(restarts: map<seq<Str>, nat>, labels: seq<Str>): nat {
    if labels in restarts then restarts[labels] else 0
  }

  function NewCmd(entry: Entry, gen: nat, logged: bool): DCmd {
    DCmd(entry, gen, entry.exe, Fresh(), StatusExited, NoError, logged)
  }

  function NewCmds(entries: seq<Entry>, gen: nat, logged: bool): seq<DCmd> {
    seq(|entries|, i requires 0 <= i < |entries| => NewCmd(entries[i], gen, logged))
  }

  /** A goroutine for each of `n` commands from the `first` on. */
  function NewThreads(first: nat, n: nat): seq<Thread> {
    seq(n, i requires 0 <= i < n => Thread(first + i, Entering))
  }

  function NewHists(first: nat, n: nat): seq<Hist> {
    seq(n, i requires 0 <= i < n => Hist(InThread(first + i), []))
  }

  function CancelHist(s: State): seq<Hist>
    requires |s.hist| == |s.cmds|
  {
    seq(|s.cmds|, c requires 0 <= c < |s.cmds| =>
      if s.cmds[c].gen == s.Cur() then s.hist[c].(log := s.hist[c].log + [Canceled(s.now)]) else s.hist[c])
  }

  /** A message taken out of the closed channel is dropped, and its command with it. */
  function Drained(s: State): State
    requires s.gens != [] && s.gens[s.Cur()].queue != [] && |s.hist| == |s.cmds|
    requires s.gens[s.Cur()].queue[0] < |s.cmds|
  {
    var cur, c := s.Cur(), s.gens[s.Cur()].queue[0];
    s.(gens := s.gens[cur := s.gens[cur].(queue := s.gens[cur].queue[1..])],
       hist := s.hist[c := Hist(Nowhere, s.hist[c].log + [Stopped(s.now)])])
  }

  /** One command per entry, and `Run`: one goroutine per command, one consumer. */
  function Installed(s: State, entries: seq<Entry>): State
    requires s.gens != [] && |s.hist| == |s.cmds|
  {
    var cur := s.Cur();
    s.(stage := Serving,
       gens := s.gens[cur := s.gens[cur].(consumer := Looping)],
       cmds := s.cmds + NewCmds(entries, cur, false),
       threads := s.threads + NewThreads(|s.cmds|, |entries|),
       hist := s.hist + NewHists(|s.threads|, |entries|))
  }

  function Sent(s: State, t: nat): State
    requires t < |s.threads| && s.threads[t].cmd < |s.cmds| == |s.hist|
    requires s.threads[t].pc.Sending? && s.threads[t].pc.ch < |s.gens|
  {
    var c := s.threads[t].cmd;
    var k := s.threads[t].pc.ch;
    if s.gens[k].closed then s.(crashed := true)
    else
      s.(threads := s.threads[t := Thread(c, Finished)],
         gens := s.gens[k := s.gens[k].(queue := s.gens[k].queue + [c])],
         hist := s.hist[c := s.hist[c].(loc := InQueue(k))])
  }

  /** Receiving from the closed, empty channel yields a nil command, whose lock panics. */
  function Received(s: State, g: nat): State
    requires g < |s.gens| && s.gens[g].consumer.Selecting? && s.gens[g].consumer.k < |s.gens|
    requires |s.hist| == |s.cmds|
    requires var q := s.gens[s.gens[g].consumer.k].queue; q != [] ==> q[0] < |s.cmds|
  {
    var k := s.gens[g].consumer.k;
    var q := s.gens[k].queue;
    if q == [] then s.(crashed := true)
    else
      var popped := s.gens[k := s.gens[k].(queue := q[1..])];
      s.(threads := s.threads + [Thread(q[0], Spawned)],
         gens := popped[g := popped[g].(consumer := Looping)],
         hist := s.hist[q[0] := s.hist[q[0]].(loc := InThread(|s.threads|))])
  }

  /** What a goroutine step does: where it leaves the goroutine, the command, and the event it is recorded as. */
  datatype Effect = Effect(pc: Pc, cmd: DCmd, events: seq<Event>)

  /** The steps of one goroutine that involve no channel. */
  predicate IsMove(l: Step) {
    || l.Enter? || l.LogFails? || l.Starts? || l.StartFails? || l.WaitReturns? || l.CheckCtx?
    || l.SetTimer? || l.Abandon? || l.Fire?
  }

  /** `update`, then `Inc`. */
  function FireEffect(cmd: DCmd, now: int, look: Str): Effect
    requires cmd.exe.args != []
  {
    var updated := cmd.(exe := Exec.Rebuild(cmd.exe, look), err := NoError);
    if CanAdd(cmd.limiter, 1, now) then
      Effect(Entering, updated.(limiter := Add(cmd.limiter, 1, now)), [Granted(now)])
    else
      Effect(Finished, updated, [Refused(now)])
  }

  ghost function EffectOf(s: State, l: Step): Effect
    requires WellFormed(s) && Enabled(s, l) && IsMove(l)
  {
    var pc := s.threads[l.t].pc;
    var cmd := s.cmds[s.threads[l.t].cmd];
    match l
    case Enter(_) => Effect(Launching(s.Cur()), cmd, [])
    case LogFails(_) => Effect(Finished, cmd.(err := LogError), [LogFailed(s.now)])
    case Starts(_) => Effect(Alive(pc.ch), cmd.(status := StatusRunning), [Started(s.now)])
    case StartFails(_) => Effect(Checking(pc.ch), cmd.(err := StartError), [StartFailed(s.now)])
    case WaitReturns(_, failed) =>
      var err := if failed then WaitError else cmd.err;
      Effect(Checking(pc.ch), cmd.(status := StatusExited, err := err), [Exited(s.now)])
    case CheckCtx(_) =>
      if s.gens[cmd.gen].cancelled then Effect(Finished, cmd, [Stopped(s.now)])
      else Effect(Sending(pc.ch), cmd, [Passed(s.now)])
    case SetTimer(_) =>
      var wake := NextAt(cmd.limiter, s.now);
      Effect(Waiting(wake, s.Ctx()), cmd, [Delayed(s.now, wake)])
    case Abandon(_) => Effect(Finished, cmd, [Stopped(s.now)])
    case Fire(_, look) => FireEffect(cmd, s.now, look)
  }

  /** A granted restart increments the restart counter of the command's labels. */
  function Counted(restarts: map<seq<Str>, nat>, e: Effect): map<seq<Str>, nat> {
    if |e.events| == 1 && e.events[0].Granted? then
      var labels := MetricLabels(e.cmd.entry.annotations);
      restarts[labels := Count(restarts, labels) + 1]
    else restarts
  }

  ghost function Next(s: State, l: Step): State
    requires WellFormed(s) && Enabled(s, l)
  {
    if IsMove(l) then
      var e := EffectOf(s, l);
      Move(s, l.t, e.pc, e.cmd, e.events).(restarts := Counted(s.restarts, e))
    else
      match l
      case Tick(to) => s.(now := to)
      case Send(t) => Sent(s, t)
      case Arm(g) => s.(gens := s.gens[g := s.gens[g].(consumer := Selecting(s.Ctx(), s.Cur()))])
      case Receive(g) => Received(s, g)
      case Return(g) => s.(gens := s.gens[g := s.gens[g].(consumer := Returned)])
      case ResetOne(c) =>
        s.(cmds := s.cmds[c := s.cmds[c].(limiter := Cleared(s.cmds[c].limiter))],
           hist := s.hist[c := s.hist[c].(log := s.hist[c].log + [LimiterReset(s.now)])])
      case Cancel => s.(gens := s.gens[s.Cur() := s.gens[s.Cur()].(cancelled := true)], hist := CancelHist(s))
      case Close => s.(stage := Closing, gens := s.gens[s.Cur() := s.gens[s.Cur()].(closed := true)])
      case Drain => Drained(s)
      case NewChannel => s.(stage := Renewing, gens := s.gens + [Gen(false, false, [], Idle)])
      case NewContext => s.(stage := Populating)
      case Install(entries) => Installed(s, entries)
  }

  /** `main` builds the first generation, `NewDaemon` gives it a log directory, and `Run` is called. */
  ghost predicate Init(s: State) {
    && s.now > 0
    && s.stage.Serving?
    && s.gens == [Gen(false, false, [], Looping)]
    && s.cmds != []
    && (forall c :: 0 <= c < |s.cmds| ==>
          Exec.WellBuilt(s.cmds[c].entry.exe) && s.cmds[c] == NewCmd(s.cmds[c].entry, 0, true))
    && |s.threads| == |s.cmds| && |s.hist| == |s.cmds|
    && (forall c :: 0 <= c < |s.cmds| ==> s.threads[c] == Thread(c, Entering) && s.hist[c] == Hist(InThread(c), []))
    && s.restarts == map[]
    && !s.crashed
  }

  /** `ls` is a run from `s` that ends in `After(s, ls)`. */
  ghost predicate Runs(s: State, ls: seq<Step>)
    decreases |ls|, 0
  {
    ls == [] ||
    (&& Runs(s, ls[..|ls| - 1])
     && WellFormed(After(s, ls[..|ls| - 1]))
     && Enabled(After(s, ls[..|ls| - 1]), ls[|ls| - 1]))
  }

  ghost function After(s: State, ls: seq<Step>): State
    requires Runs(s, ls)
    decreases |ls|, 1
  {
    if ls == [] then s else Next(After(s, ls[..|ls| - 1]), ls[|ls| - 1])
  }
}
