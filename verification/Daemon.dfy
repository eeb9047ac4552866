/**
 * `DaemonCmd` and `Daemon` as objects (daemon/daemonCmd.go, daemon/daemon.go).
 *
 * Go runs the pieces of `startAndWait`, of `Run` and of its back-off goroutines between two blocking points as
 * methods here; each is proved to make exactly one step of the machine.
 */
module Daemons {
  import opened Prelude
  import opened Limiting
  import opened Machine
  import opened Invariant
  import opened Hashing
  import opened Supervisor
  import opened Tokens
  import opened Weaving
  import opened Resetting
  import Exec

  class DaemonCmd {
    const ctx: nat                         // the generation whose context it was given
    ghost const configured: Exec.Cmd
    const annotations: Annotations
    const limiter: Limiter
    var cmd: Exec.Cmd
    var status: Status
    var err: Error
    var logDir: Str

    ghost function Value(): DCmd
      reads this, limiter
    {
      DCmd(Entry(configured, annotations), ctx, cmd, limiter.Value(), status, err, logDir != [])
    }

    constructor (ctx: nat, cmd: Exec.Cmd, annotations: Annotations)
      ensures Value() == NewCmd(Entry(cmd, annotations), ctx, false)
      ensures fresh(limiter)
    {
      this.ctx, this.cmd, this.annotations := ctx, cmd, annotations;
      configured := cmd;
      limiter := new Limiter();
      status, err, logDir := StatusExited, NoError, [];
    }

    /** `withLogDir` */
    method SetLogDir(dir: Str)
      modifies this
      ensures Value() == old(Value()).(logged := dir != []) && logDir == dir
    {
      logDir := dir;
    }

    method Update(look: Str)
      requires cmd.args != []
      modifies this
      ensures Value() == old(Value()).(exe := Exec.Rebuild(old(cmd), look), err := NoError) && logDir == old(logDir)
    {
      cmd := Exec.Command(cmd.path, cmd.args[1..], look);
      err := NoError;
    }

    /** `update`, then `Limiter.Inc`. */
    method TryRestart(look: Str, now: int) returns (ok: bool)
      requires cmd.args != []
      modifies this, limiter
      ensures ok == CanAdd(old(limiter.Value()), 1, now)
      ensures Value() == FireEffect(old(Value()), now, look).cmd
      ensures cmd.args == [old(cmd.path)] + old(cmd.args)[1..] && err == NoError
      ensures Exec.HasSeparator(old(cmd.path)) && Exec.LookOk(old(cmd.path), look) ==> cmd.path == old(cmd.path)
      ensures !Exec.HasSeparator(old(cmd.path)) && old(cmd.path) != [] ==> cmd.path == look
      ensures limiter.Value() == Add(old(limiter.Value()), 1, now) && status == old(status) && logDir == old(logDir)
    {
      Exec.PlainIsItsBase(cmd.path);
      Update(look);
      ok := limiter.Inc(now);
    }

    /** The log directory or the log file could not be opened. */
    method NoteLogFailure()
      modifies this
      ensures Value() == old(Value()).(err := LogError)
    {
      err := LogError;
    }

    /** `Start` has returned. */
    method NoteStart(ok: bool)
      modifies this
      ensures Value() == if ok then old(Value()).(status := StatusRunning) else old(Value()).(err := StartError)
    {
      if !ok {
        err := StartError;
        return;
      }
      status := StatusRunning;
    }

    /** `Wait` has returned. */
    method NoteExit(failed: bool)
      modifies this
      ensures Value() == old(Value()).(status := StatusExited, err := if failed then WaitError else old(err))
    {
      if failed {
        err := WaitError;
      }
      status := StatusExited;
    }

    ghost predicate HasHash(hash: Str)
      reads this
    {
      HashOf(cmd.args) == hash
    }

    method CmdHash() returns (hash: Str)
      ensures HasHash(hash)
    {
      hash := HashCmd(Some(cmd));
    }

    /** Whether `cmd`, hashed anew, has the hash of this command. */
    method Answers(cmd: Option<Exec.Cmd>) returns (same: bool)
      ensures same <==> HasHash(CmdHashOf(cmd))
    {
      var hash := HashCmd(cmd);
      var own := CmdHash();
      same := hash == own;
    }
  }

  lemma FireEffectShape(cmd: DCmd, now: int, look: Str, restarts: map<seq<Str>, nat>)
    requires cmd.exe.args != []
    ensures var e := FireEffect(cmd, now, look);
            var ok := CanAdd(cmd.limiter, 1, now);
            && e.pc == (if ok then Entering else Finished)
            && var labels := MetricLabels(cmd.entry.annotations);
               Counted(restarts, e) == if ok then restarts[labels := Count(restarts, labels) + 1] else restarts
  {
  }

  class Daemon {
    // the fields of the struct; a context and a channel are named by their generation
    var ctx: nat
    var exitedCmdCh: nat
    var dcmds: seq<DaemonCmd>
    // the process around it: clock, contexts, channels, consumers, goroutines and every command ever made
    var now: int
    var stage: Stage
    var gens: seq<Gen>
    var threads: seq<Thread>
    var all: seq<DaemonCmd>
    var restarts: map<seq<Str>, nat>
    var crashed: bool
    ghost var hist: seq<Hist>

    ghost function Objects(): set<object>
      reads this`all
    {
      (set d: DaemonCmd | d in all) + (set d: DaemonCmd | d in all :: d.limiter)
    }

    /** The objects of the daemon are those it had and new ones. */
    twostate predicate OnlyNewObjects()
      reads this`all
    {
      forall o :: o in Objects() ==> o in old(Objects()) || fresh(o)
    }

    ghost function Values(): seq<DCmd>
      reads this`all, Objects()
    {
      var ds := all;
      seq(|ds|, i requires 0 <= i < |ds| reads ds, set d | d in ds :: d.limiter => ds[i].Value())
    }

    ghost function View(): State
      reads this, Objects()
    {
      State(now, stage, Values(), gens, threads, restarts, crashed, hist)
    }

    ghost predicate Separate()
      reads this`all
    {
      forall i, j :: 0 <= i < j < |all| ==> all[i] != all[j] && all[i].limiter != all[j].limiter
    }

    /**
     * Outside `Reload` the struct refers to the last generation, and `DCmds` lists its commands in order. Inside, the
     * context is replaced after the channel, and `DCmds` is empty.
     */
    ghost predicate RefersToLast()
      reads this`ctx, this`exitedCmdCh, this`gens, this`dcmds, this`all, this`stage
    {
      && gens != []
      && exitedCmdCh == |gens| - 1
      && ctx == (if stage.Renewing? then |gens| - 2 else |gens| - 1)
      && |dcmds| <= |all|
      && dcmds == all[|all| - |dcmds|..]
      && (!stage.Serving? ==> dcmds == [])
      && (stage.Serving? ==>
            forall i :: 0 <= i < |all| ==> (all[i].ctx == |gens| - 1 <==> i >= |all| - |dcmds|))
    }

    ghost predicate Shape()
      reads this`ctx, this`exitedCmdCh, this`gens, this`dcmds, this`all, this`stage
    {
      Separate() && RefersToLast()
    }

    ghost predicate Valid()
      reads this, Objects()
    {
      Shape() && Inv(View()) && WellFormed(View())
    }

    lemma Keeps(s: State)
      requires Shape() && s == View() && Inv(s)
      ensures Valid()
    {
      InvWellFormed(s);
    }

    static ghost function HistAfter(hist: seq<Hist>, t: nat, c: nat, e: Effect): seq<Hist>
      requires c < |hist|
    {
      hist[c := Hist(if e.pc.Finished? then Nowhere else InThread(t), hist[c].log + e.events)]
    }

    /** Goroutine `t` and command `c` have changed as `e` says, and nothing else but counters and history. */
    twostate predicate Moved(t: nat, c: nat, e: Effect)
      requires t < |old(threads)| && c < |old(all)| && c < |old(hist)|
      reads this, Objects()
    {
      && ctx == old(ctx) && exitedCmdCh == old(exitedCmdCh) && dcmds == old(dcmds) && all == old(all)
      && now == old(now) && stage == old(stage) && gens == old(gens) && crashed == old(crashed)
      && threads == old(threads)[t := Thread(c, e.pc)]
      && restarts == Counted(old(restarts), e)
      && hist == HistAfter(old(hist), t, c, e)
      && all[c].Value() == e.cmd
      && forall i :: 0 <= i < |all| && i != c ==> all[i].Value() == old(all[i].Value())
    }

    /** A goroutine step of the objects is the goroutine step of the machine. */
    twostate lemma Simulates(l: Step)
      requires old(Valid()) && Enabled(old(View()), l) && IsMove(l)
      requires Moved(l.t, old(threads)[l.t].cmd, EffectOf(old(View()), l))
      ensures View() == Next(old(View()), l) && Valid()
    {
      assert Values() == Next(old(View()), l).cmds;
      StepKeeps(old(View()), l);
    }

    /** `go dCmd.startAndWait(d.exitedCmdCh)`: the argument is evaluated. */
    method Enter(t: nat)
      requires Valid() && Enabled(View(), Step.Enter(t))
      modifies this`threads, this`hist
      ensures Valid() && View() == Next(old(View()), Step.Enter(t))
    {
      hide Inv, Next;
      ghost var l := Step.Enter(t);
      ghost var c := threads[t].cmd;
      ghost var e := EffectOf(View(), l);
      hist := HistAfter(hist, t, c, e);
      threads := threads[t := Thread(threads[t].cmd, Launching(exitedCmdCh))];
      Simulates(l);
    }

    method OpenLogFails(t: nat)
      requires Valid() && Enabled(View(), Step.LogFails(t))
      modifies this`threads, this`hist, all[threads[t].cmd]
      ensures Valid() && View() == Next(old(View()), Step.LogFails(t))
    {
      hide Inv, Next;
      ghost var l := Step.LogFails(t);
      ghost var c := threads[t].cmd;
      ghost var e := EffectOf(View(), l);
      hist := HistAfter(hist, t, c, e);
      all[threads[t].cmd].NoteLogFailure();
      threads := threads[t := Thread(threads[t].cmd, Finished)];
      Simulates(l);
    }

    /** `cmd.Start()` returns. */
    method Start(t: nat, ok: bool)
      requires Valid() && Enabled(View(), if ok then Step.Starts(t) else Step.StartFails(t))
      modifies this`threads, this`hist, all[threads[t].cmd]
      ensures Valid() && View() == Next(old(View()), if ok then Step.Starts(t) else Step.StartFails(t))
    {
      hide Inv, Next;
      ghost var l := if ok then Step.Starts(t) else Step.StartFails(t);
      ghost var c := threads[t].cmd;
      ghost var e := EffectOf(View(), l);
      hist := HistAfter(hist, t, c, e);
      var ch := threads[t].pc.ch;
      all[threads[t].cmd].NoteStart(ok);
      threads := threads[t := Thread(threads[t].cmd, if ok then Alive(ch) else Checking(ch))];
      Simulates(l);
    }

    /** `cmd.Wait()` returns. */
    method WaitReturns(t: nat, failed: bool)
      requires Valid() && Enabled(View(), Step.WaitReturns(t, failed))
      modifies this`threads, this`hist, all[threads[t].cmd]
      ensures Valid() && View() == Next(old(View()), Step.WaitReturns(t, failed))
    {
      hide Inv, Next;
      ghost var l := Step.WaitReturns(t, failed);
      ghost var c := threads[t].cmd;
      ghost var e := EffectOf(View(), l);
      hist := HistAfter(hist, t, c, e);
      all[threads[t].cmd].NoteExit(failed);
      threads := threads[t := Thread(threads[t].cmd, Checking(threads[t].pc.ch))];
      Simulates(l);
    }

    /** The select on the command's own context, after an exit. */
    method CheckContext(t: nat)
      requires Valid() && Enabled(View(), Step.CheckCtx(t))
      modifies this`threads, this`hist
      ensures Valid() && View() == Next(old(View()), Step.CheckCtx(t))
    {
      hide Inv, Next;
      ghost var l := Step.CheckCtx(t);
      ghost var c := threads[t].cmd;
      ghost var e := EffectOf(View(), l);
      hist := HistAfter(hist, t, c, e);
      var dcmd := all[threads[t].cmd];
      if gens[dcmd.ctx].cancelled {
        threads := threads[t := Thread(threads[t].cmd, Finished)];
      } else {
        threads := threads[t := Thread(threads[t].cmd, Sending(threads[t].pc.ch))];
      }
      Simulates(l);
    }

    /** The back-off goroutine reads `d.ctx` and `Limiter.next()` and enters its select. */
    method SetTimer(t: nat)
      requires Valid() && Enabled(View(), Step.SetTimer(t))
      modifies this`threads, this`hist
      ensures Valid() && View() == Next(old(View()), Step.SetTimer(t))
    {
      hide Inv, Next;
      ghost var l := Step.SetTimer(t);
      ghost var c := threads[t].cmd;
      ghost var e := EffectOf(View(), l);
      hist := HistAfter(hist, t, c, e);
      var wake := all[threads[t].cmd].limiter.Next(now);
      threads := threads[t := Thread(threads[t].cmd, Waiting(wake, ctx))];
      Simulates(l);
    }

    /** The select sees the cancelled context. */
    method Abandon(t: nat)
      requires Valid() && Enabled(View(), Step.Abandon(t))
      modifies this`threads, this`hist
      ensures Valid() && View() == Next(old(View()), Step.Abandon(t))
    {
      hide Inv, Next;
      ghost var l := Step.Abandon(t);
      ghost var c := threads[t].cmd;
      ghost var e := EffectOf(View(), l);
      hist := HistAfter(hist, t, c, e);
      threads := threads[t := Thread(threads[t].cmd, Finished)];
      Simulates(l);
    }

    /** Rebuild the command, ask the limiter, and count a granted restart. */
    method Restart(c: nat, look: Str) returns (ok: bool)
      requires Separate() && c < |all| && all[c].cmd.args != []
      modifies this`restarts, all[c], all[c].limiter
      ensures var e := FireEffect(old(all[c].Value()), now, look);
              && all[c].Value() == e.cmd
              && restarts == Counted(old(restarts), e)
              && e.pc == if ok then Entering else Finished
      ensures forall i :: 0 <= i < |all| && i != c ==> all[i].Value() == old(all[i].Value())
    {
      var dcmd := all[c];
      FireEffectShape(dcmd.Value(), now, look, restarts);
      ok := dcmd.TryRestart(look, now);
      if ok {
        var a := dcmd.annotations;
        var labels := [Label(a, "name"), Label(a, "port"), Label(a, "hostname"), Label(a, "ip"), Label(a, "app")];
        restarts := restarts[labels := Count(restarts, labels) + 1];
      }
    }

    lemma MoverFacts(l: Step)
      requires Valid() && Enabled(View(), l) && IsMove(l)
      ensures l.t < |threads| && threads[l.t].cmd < |all| == |hist|
      ensures View().cmds[threads[l.t].cmd] == all[threads[l.t].cmd].Value()
      ensures all[threads[l.t].cmd].cmd.args != []
    {
    }

    /** The timer wins the select: start again or give up. */
    method Fire(t: nat, look: Str)
      requires Valid() && Enabled(View(), Step.Fire(t, look))
      modifies this`threads, this`restarts, this`hist, all[threads[t].cmd], all[threads[t].cmd].limiter
      ensures Valid() && View() == Next(old(View()), Step.Fire(t, look))
    {
      hide Inv, WellFormed, Enabled, Next, RefersToLast, FireEffect;
      ghost var l := Step.Fire(t, look);
      MoverFacts(l);
      var c := threads[t].cmd;
      ghost var e := EffectOf(View(), l);
      hist := HistAfter(hist, t, c, e);
      var ok := Restart(c, look);
      threads := threads[t := Thread(c, if ok then Entering else Finished)];
      Simulates(l);
    }

    // ---------------------------------------------------------------- channel and consumer

    /** `ch <- dcmd`: a send on a closed channel panics. */
    method Send(t: nat)
      requires Valid() && Enabled(View(), Step.Send(t))
      modifies this`threads, this`gens, this`crashed, this`hist
      ensures Valid() && View() == Next(old(View()), Step.Send(t))
    {
      hide Inv;
      StepKeeps(View(), Step.Send(t));
      hist := Next(View(), Step.Send(t)).hist;
      var ch := threads[t].pc.ch;
      if gens[ch].closed {
        crashed := true;
      } else {
        gens := gens[ch := gens[ch].(queue := gens[ch].queue + [threads[t].cmd])];
        threads := threads[t := Thread(threads[t].cmd, Finished)];
      }
      assert Values() == old(Values());
      assert View().cmds == Next(old(View()), Step.Send(t)).cmds;
    }

    /** The loop of `Run` enters its select on the current context and channel. */
    method EnterSelect(g: nat)
      requires Valid() && Enabled(View(), Step.Arm(g))
      modifies this`gens
      ensures Valid() && View() == Next(old(View()), Step.Arm(g))
    {
      hide Inv;
      StepKeeps(View(), Step.Arm(g));
      gens := gens[g := gens[g].(consumer := Selecting(ctx, exitedCmdCh))];
      assert Values() == old(Values());
    }

    /** The select of `Run` takes the context: all is over for this loop. */
    method RunReturns(g: nat)
      requires Valid() && Enabled(View(), Step.Return(g))
      modifies this`gens
      ensures Valid() && View() == Next(old(View()), Step.Return(g))
    {
      hide Inv;
      StepKeeps(View(), Step.Return(g));
      gens := gens[g := gens[g].(consumer := Returned)];
      assert Values() == old(Values());
    }

    lemma ReceiverFacts(g: nat)
      requires Valid() && Enabled(View(), Step.Receive(g))
      ensures g < |gens| && gens[g].consumer.Selecting? && gens[g].consumer.k < |gens|
      ensures var q := gens[gens[g].consumer.k].queue; q != [] ==> q[0] < |all|
      ensures |hist| == |View().cmds| == |all|
      ensures Next(View(), Step.Receive(g)) == Received(View(), g)
    {
    }

    /** The select of `Run` takes the channel: a back-off goroutine, or a panic on the nil once closed. */
    method Receive(g: nat)
      requires Valid() && Enabled(View(), Step.Receive(g))
      modifies this`threads, this`gens, this`crashed, this`hist
      ensures Valid() && View() == Next(old(View()), Step.Receive(g))
    {
      hide Inv, WellFormed, Enabled, Next;
      StepKeeps(View(), Step.Receive(g));
      ReceiverFacts(g);
      hist := Received(View(), g).hist;
      var k := gens[g].consumer.k;
      if gens[k].queue == [] {
        crashed := true;
      } else {
        var c := gens[k].queue[0];
        gens := gens[k := gens[k].(queue := gens[k].queue[1..])];
        gens := gens[g := gens[g].(consumer := Looping)];
        threads := threads + [Thread(c, Spawned)];
      }
      assert Values() == old(Values());
    }

    // ---------------------------------------------------------------- clock, resets, cancellation

    method TimePasses(to: int)
      requires Valid() && Enabled(View(), Step.Tick(to))
      modifies this`now
      ensures Valid() && View() == Next(old(View()), Step.Tick(to))
    {
      hide Inv;
      StepKeeps(View(), Step.Tick(to));
      now := to;
      assert Values() == old(Values());
    }

    method Cancel()
      requires Valid() && Enabled(View(), Step.Cancel)
      modifies this`gens, this`hist
      ensures Valid() && View() == Next(old(View()), Step.Cancel)
    {
      hide Inv;
      StepKeeps(View(), Step.Cancel);
      hist := Next(View(), Step.Cancel).hist;
      gens := gens[ctx := gens[ctx].(cancelled := true)];
      assert Values() == old(Values());
    }

    method ResetOne(c: nat)
      requires Valid() && Enabled(View(), Step.ResetOne(c))
      modifies this`hist, all[c].limiter
      ensures Valid() && View() == Next(old(View()), Step.ResetOne(c))
    {
      hide Inv;
      StepKeeps(View(), Step.ResetOne(c));
      hist := Next(View(), Step.ResetOne(c)).hist;
      assert all[c].Value() == View().cmds[c];
      all[c].limiter.ResetCount();
      assert Values() == Next(old(View()), Step.ResetOne(c)).cmds;
    }

    // ---------------------------------------------------------------- construction and reload

    static function Entries(cmds: seq<Exec.Cmd>, annotationsList: seq<Annotations>): seq<Entry>
      requires |cmds| <= |annotationsList|
    {
      seq(|cmds|, i requires 0 <= i < |cmds| => Entry(cmds[i], annotationsList[i]))
    }

    /** `NewDaemon` on the commands of `main`, and `Run`: log directories, one goroutine per command, one consumer. */
    constructor (now: int, dcmds: seq<DaemonCmd>)
      requires now > 0 && dcmds != []
      requires forall i, j :: 0 <= i < j < |dcmds| ==> dcmds[i] != dcmds[j] && dcmds[i].limiter != dcmds[j].limiter
      requires forall d :: d in dcmds ==>
                 d.Value() == NewCmd(d.Value().entry, 0, false) && Exec.WellBuilt(d.Value().entry.exe)
      modifies dcmds
      ensures Valid() && Init(View()) && this.dcmds == all == dcmds
      ensures forall i :: 0 <= i < |dcmds| ==> View().cmds[i].entry == old(dcmds[i].Value().entry)
    {
      this.now, this.stage, this.dcmds, all := now, Serving, dcmds, dcmds;
      ctx, exitedCmdCh := 0, 0;
      gens := [Gen(false, false, [], Looping)];
      threads := seq(|dcmds|, i requires 0 <= i < |dcmds| => Thread(i, Entering));
      restarts, crashed := map[], false;
      hist := seq(|dcmds|, i requires 0 <= i < |dcmds| => Hist(InThread(i), []));
      new;
      WithCmdLogDir("./log");
      StartsUp();
    }

    lemma StartsUp()
      requires now > 0 && stage.Serving? && dcmds == all && all != [] && Separate() && ctx == exitedCmdCh == 0
      requires gens == [Gen(false, false, [], Looping)] && restarts == map[] && !crashed
      requires |threads| == |hist| == |all|
      requires forall i :: 0 <= i < |all| ==> threads[i] == Thread(i, Entering) && hist[i] == Hist(InThread(i), [])
      requires forall i :: 0 <= i < |all| ==>
                 all[i].Value() == NewCmd(all[i].Value().entry, 0, true) && Exec.WellBuilt(all[i].Value().entry.exe)
      ensures Valid() && Init(View())
    {
      assert forall i :: 0 <= i < |all| ==> all[i].Value().gen == 0;
      InitInv(View());
      Keeps(View());
    }

    method WithCmdLogDir(dir: Str)
      modifies dcmds
      ensures forall i :: 0 <= i < |dcmds| ==>
                dcmds[i].Value() == old(dcmds[i].Value()).(logged := dir != []) && dcmds[i].logDir == dir
    {
      var i := 0;
      while i < |dcmds|
        invariant 0 <= i <= |dcmds|
        invariant forall d :: d in dcmds ==>
                    d.Value() == old(d.Value()) || d.Value() == old(d.Value()).(logged := dir != [])
        invariant forall k :: 0 <= k < i ==>
                    dcmds[k].Value() == old(dcmds[k].Value()).(logged := dir != []) && dcmds[k].logDir == dir
        modifies dcmds
      {
        dcmds[i].SetLogDir(dir);
        i := i + 1;
      }
    }

    /** `d.DCmds` is emptied and the channel closed. */
    method CloseChannel()
      requires Valid() && Enabled(View(), Step.Close)
      modifies this`stage, this`dcmds, this`gens
      ensures Valid() && View() == Next(old(View()), Step.Close)
    {
      hide Inv;
      StepKeeps(View(), Step.Close);
      stage := Closing;
      dcmds := [];
      gens := gens[exitedCmdCh := gens[exitedCmdCh].(closed := true)];
      assert Values() == old(Values());
    }

    /** A message left in the closed channel is taken out and dropped. */
    method DropOne()
      requires Valid() && Enabled(View(), Step.Drain)
      modifies this`gens, this`hist
      ensures Valid() && View() == Next(old(View()), Step.Drain)
    {
      hide Inv;
      StepKeeps(View(), Step.Drain);
      hist := Next(View(), Step.Drain).hist;
      gens := gens[exitedCmdCh := gens[exitedCmdCh].(queue := gens[exitedCmdCh].queue[1..])];
      assert Values() == old(Values());
    }

    /** `d.exitedCmdCh` becomes a new channel. */
    method RenewChannel()
      requires Valid() && Enabled(View(), Step.NewChannel)
      modifies this`stage, this`exitedCmdCh, this`gens
      ensures Valid() && View() == Next(old(View()), Step.NewChannel)
    {
      hide Inv;
      StepKeeps(View(), Step.NewChannel);
      stage := Renewing;
      gens := gens + [Gen(false, false, [], Idle)];
      exitedCmdCh := |gens| - 1;
      assert Values() == old(Values());
    }

    /** `d.ctx` becomes the new context. */
    method RenewContext()
      requires Valid() && Enabled(View(), Step.NewContext)
      modifies this`stage, this`ctx
      ensures Valid() && View() == Next(old(View()), Step.NewContext)
    {
      hide Inv;
      StepKeeps(View(), Step.NewContext);
      stage := Populating;
      ctx := |gens| - 1;
      assert Values() == old(Values());
    }

    /** `NewDaemonCmd` for each command in order, each with a goroutine that `Run` starts. */
    method Populate(cmds: seq<Exec.Cmd>, annotationsList: seq<Annotations>)
      requires |cmds| <= |annotationsList| && dcmds == [] && Separate()
      modifies this`dcmds, this`all, this`threads
      ensures |dcmds| == |cmds| && all == old(all) + dcmds
      ensures forall d :: d in dcmds ==> fresh(d) && fresh(d.limiter)
      ensures Separate() && forall i :: 0 <= i < |old(all)| ==> all[i].Value() == old(all[i].Value())
      ensures forall i :: 0 <= i < |cmds| ==>
                dcmds[i].Value() == NewCmd(Entry(cmds[i], annotationsList[i]), ctx, false)
      ensures threads == old(threads) + NewThreads(|old(all)|, |cmds|)
      ensures OnlyNewObjects()
    {
      var i := 0;
      while i < |cmds|
        invariant 0 <= i == |dcmds| <= |cmds|
        invariant all == old(all) + dcmds
        invariant forall k :: 0 <= k < i ==> fresh(dcmds[k]) && fresh(dcmds[k].limiter)
        invariant Separate()
        invariant forall k :: 0 <= k < i ==>
                    dcmds[k].Value() == NewCmd(Entry(cmds[k], annotationsList[k]), ctx, false)
        invariant threads == old(threads) + NewThreads(|old(all)|, i)
      {
        var dcmd := new DaemonCmd(ctx, cmds[i], annotationsList[i]);
        dcmds := dcmds + [dcmd];
        all := all + [dcmd];
        threads := threads + [Thread(|all| - 1, Entering)];
        assert NewThreads(|old(all)|, i) + [Thread(|old(all)| + i, Entering)] == NewThreads(|old(all)|, i + 1);
        i := i + 1;
      }
    }

    /** The new commands are in place, the old ones as they were. */
    lemma Furnished(was: seq<DCmd>, before: seq<DaemonCmd>, entries: seq<Entry>)
      requires all == before + dcmds && |dcmds| == |entries| && |was| == |before| && gens != [] && ctx == |gens| - 1
      requires forall i :: 0 <= i < |was| ==> before[i].ctx < |gens| - 1 && before[i].Value() == was[i]
      requires forall i :: 0 <= i < |dcmds| ==> dcmds[i].Value() == NewCmd(entries[i], ctx, false)
      ensures forall i :: 0 <= i < |all| ==> (all[i].ctx == |gens| - 1 <==> i >= |all| - |dcmds|)
      ensures Values() == was + NewCmds(entries, ctx, false)
    {
      forall i | 0 <= i < |all| ensures all[i].ctx == |gens| - 1 <==> i >= |all| - |dcmds| {
        if i >= |was| {
          assert all[i] == dcmds[i - |was|] && all[i].ctx == all[i].Value().gen;
        }
      }
    }

    /** `go d.Run()`: the consumer of the new generation is in its loop. */
    method StartRun()
      requires stage.Populating? && gens != [] && ctx == exitedCmdCh == |gens| - 1 && Separate()
      requires |dcmds| <= |all| && dcmds == all[|all| - |dcmds|..]
      requires forall i :: 0 <= i < |all| ==> (all[i].ctx == |gens| - 1 <==> i >= |all| - |dcmds|)
      modifies this`stage, this`gens
      ensures stage.Serving? && gens == old(gens)[ctx := old(gens)[ctx].(consumer := Looping)] && Shape()
    {
      stage := Serving;
      gens := gens[ctx := gens[ctx].(consumer := Looping)];
    }

    lemma BeforeInstall(entries: seq<Entry>)
      requires Valid() && Enabled(View(), Step.Install(entries))
      ensures stage.Populating? && |View().cmds| == |all| && View().Cur() == ctx == |gens| - 1
      ensures forall i :: 0 <= i < |all| ==> all[i].ctx < |gens| - 1
    {
      forall i | 0 <= i < |all| ensures all[i].ctx < |gens| - 1 {
        assert CmdOk(View(), i) && View().cmds[i] == all[i].Value();
      }
    }

    static lemma InstallIs(s: State, entries: seq<Entry>, m: State)
      requires Inv(s) && WellFormed(s) && Enabled(s, Step.Install(entries))
      requires m.now == s.now && m.stage.Serving? && m.restarts == s.restarts && m.crashed == s.crashed
      requires m.gens == s.gens[s.Cur() := s.gens[s.Cur()].(consumer := Looping)]
      requires m.cmds == s.cmds + NewCmds(entries, s.Cur(), false)
      requires m.threads == s.threads + NewThreads(|s.cmds|, |entries|)
      requires m.hist == s.hist + NewHists(|s.threads|, |entries|)
      ensures m == Next(s, Step.Install(entries)) && Inv(m)
    {
      StepKeeps(s, Step.Install(entries));
    }

    lemma PopulatingShape()
      requires Shape() && stage.Populating?
      ensures Separate() && dcmds == [] && gens != [] && ctx == exitedCmdCh == |gens| - 1
    {
    }

    /** The new commands, and `go d.Run()`. */
    method Furnish(cmds: seq<Exec.Cmd>, annotationsList: seq<Annotations>)
      requires |cmds| <= |annotationsList| && Shape() && stage.Populating?
      requires forall i :: 0 <= i < |all| ==> all[i].ctx < |gens| - 1
      modifies this
      ensures now == old(now) && stage.Serving? && restarts == old(restarts) && crashed == old(crashed)
      ensures hist == old(hist) + NewHists(|old(threads)|, |cmds|) && ctx == old(ctx) && ctx == |gens| - 1
      ensures gens == old(gens)[ctx := old(gens)[ctx].(consumer := Looping)]
      ensures threads == old(threads) + NewThreads(|old(all)|, |cmds|)
      ensures Values() == old(Values()) + NewCmds(Entries(cmds, annotationsList), ctx, false)
      ensures Shape() && |dcmds| == |cmds| && all == old(all) + dcmds && OnlyNewObjects()
    {
      PopulatingShape();
      ghost var was := Values();
      assert forall i :: 0 <= i < |all| ==> all[i].Value() == was[i];
      hide Separate, RefersToLast, NewThreads, NewHists, Values;
      hist := hist + NewHists(|threads|, |cmds|);
      Populate(cmds, annotationsList);
      Furnished(was, old(all), Entries(cmds, annotationsList));
      StartRun();
    }

    /** The rest of `Reload`, and the `Run` that `main` starts after it. */
    method Install(cmds: seq<Exec.Cmd>, annotationsList: seq<Annotations>)
      requires Valid() && |cmds| <= |annotationsList|
      requires Enabled(View(), Step.Install(Entries(cmds, annotationsList)))
      modifies this
      ensures Valid() && View() == Next(old(View()), Step.Install(Entries(cmds, annotationsList)))
      ensures |dcmds| == |cmds| && all == old(all) + dcmds && OnlyNewObjects()
    {
      hide Inv, WellFormed, Enabled, Next, Separate, RefersToLast, Values, NewCmds, NewThreads, NewHists;
      ghost var was := View();
      ghost var entries := Entries(cmds, annotationsList);
      BeforeInstall(entries);
      Furnish(cmds, annotationsList);
      InstallIs(was, entries, View());
      Keeps(View());
    }

    // ---------------------------------------------------------------- any schedule

    static function ExesOf(entries: seq<Entry>): seq<Exec.Cmd> {
      seq(|entries|, i requires 0 <= i < |entries| => entries[i].exe)
    }

    static function AnnotationsOf(entries: seq<Entry>): seq<Annotations> {
      seq(|entries|, i requires 0 <= i < |entries| => entries[i].annotations)
    }

    static lemma EntriesAgain(entries: seq<Entry>)
      ensures Entries(ExesOf(entries), AnnotationsOf(entries)) == entries
    {
    }

    /** One step of a goroutine, of the environment, of the consumer or of `main`, by the method that performs it. */
    method Perform(l: Step)
      requires Valid() && Enabled(View(), l)
      modifies this, Objects()
      ensures Valid() && View() == Next(old(View()), l)
      ensures old(all) <= all && OnlyNewObjects()
    {
      hide Next, Inv, WellFormed;
      if IsMove(l) {
        PerformMove(l);
      } else if l.Close? || l.Drain? || l.NewChannel? || l.NewContext? || l.Install? {
        PerformReload(l);
      } else {
        match l {
          case Tick(to) => TimePasses(to);
          case Send(t) => Send(t);
          case Arm(g) => EnterSelect(g);
          case Receive(g) => Receive(g);
          case Return(g) => RunReturns(g);
          case ResetOne(c) => ResetOne(c);
          case Cancel => Cancel();
        }
      }
    }

    method PerformReload(l: Step)
      requires Valid() && Enabled(View(), l)
      requires l.Close? || l.Drain? || l.NewChannel? || l.NewContext? || l.Install?
      modifies this
      ensures Valid() && View() == Next(old(View()), l)
      ensures old(all) <= all && OnlyNewObjects()
    {
      hide Next, Inv, WellFormed, Enabled;
      match l {
        case Close => CloseChannel();
        case Drain => DropOne();
        case NewChannel => RenewChannel();
        case NewContext => RenewContext();
        case Install(entries) =>
          EntriesAgain(entries);
          Install(ExesOf(entries), AnnotationsOf(entries));
      }
    }

    method PerformMove(l: Step)
      requires Valid() && Enabled(View(), l) && IsMove(l)
      modifies this, Objects()
      ensures Valid() && View() == Next(old(View()), l)
      ensures all == old(all)
    {
      hide Next, Inv;
      if l.Enter? || l.LogFails? || l.Starts? || l.StartFails? {
        PerformLaunch(l);
      } else if l.WaitReturns? || l.CheckCtx? {
        PerformExit(l);
      } else {
        PerformBackOff(l);
      }
    }

    method PerformExit(l: Step)
      requires Valid() && Enabled(View(), l) && (l.WaitReturns? || l.CheckCtx?)
      modifies this, Objects()
      ensures Valid() && View() == Next(old(View()), l)
      ensures all == old(all)
    {
      hide Next, Inv;
      match l {
        case WaitReturns(t, failed) => WaitReturns(t, failed);
        case CheckCtx(t) => CheckContext(t);
      }
    }

    method PerformBackOff(l: Step)
      requires Valid() && Enabled(View(), l) && (l.SetTimer? || l.Abandon? || l.Fire?)
      modifies this, Objects()
      ensures Valid() && View() == Next(old(View()), l)
      ensures all == old(all)
    {
      hide Next, Inv;
      match l {
        case SetTimer(t) => SetTimer(t);
        case Abandon(t) => Abandon(t);
        case Fire(t, look) => Fire(t, look);
      }
    }

    method PerformLaunch(l: Step)
      requires Valid() && Enabled(View(), l) && (l.Enter? || l.LogFails? || l.Starts? || l.StartFails?)
      modifies this, Objects()
      ensures Valid() && View() == Next(old(View()), l)
      ensures all == old(all)
    {
      hide Next, Inv;
      match l {
        case Enter(t) => Enter(t);
        case LogFails(t) => OpenLogFails(t);
        case Starts(t) => Start(t, true);
        case StartFails(t) => Start(t, false);
      }
    }

    method PlayOne(ghost s0: State, schedule: seq<Step>, i: nat)
      requires i < |schedule| && Inv(s0) && Runs(s0, schedule[..i + 1])
      requires Shape() && Runs(s0, schedule[..i]) && View() == After(s0, schedule[..i])
      modifies this, Objects()
      ensures Shape() && View() == After(s0, schedule[..i + 1])
      ensures old(all) <= all && OnlyNewObjects()
    {
      assert schedule[..i + 1][..|schedule[..i + 1]| - 1] == schedule[..i];
      RunKeeps(s0, schedule[..i]);
      Perform(schedule[i]);
    }

    /** The objects can perform every run of the machine. */
    method Play(schedule: seq<Step>)
      requires Valid() && Runs(View(), schedule)
      modifies this, Objects()
      ensures Valid() && View() == After(old(View()), schedule)
      ensures old(all) <= all && OnlyNewObjects()
    {
      ghost var s0 := View();
      var i := 0;
      PrefixRuns(s0, schedule, 0);
      while i < |schedule|
        invariant 0 <= i <= |schedule|
        invariant Shape() && Runs(s0, schedule[..i]) && View() == After(s0, schedule[..i])
        invariant old(all) <= all && OnlyNewObjects()
      {
        PrefixRuns(s0, schedule, i + 1);
        PlayOne(s0, schedule, i);
        i := i + 1;
      }
      assert schedule[..i] == schedule;
      RunKeeps(s0, schedule);
    }

    // ---------------------------------------------------------------- code of several statements

    /** Statement `i` of the code is done, and what the other goroutines did after each statement so far. */
    ghost predicate DoneTo(s0: State, mine: seq<Step>, others: seq<seq<Step>>, i: nat)
      requires i <= |mine| == |others|
      reads this, Objects()
    {
      Valid() && Runs(s0, Woven(mine[..i], others[..i])) && View() == After(s0, Woven(mine[..i], others[..i]))
    }

    lemma NothingDone(mine: seq<Step>, others: seq<seq<Step>>)
      requires |mine| == |others| && Valid()
      ensures DoneTo(View(), mine, others, 0)
    {
    }

    lemma AllDone(s0: State, mine: seq<Step>, others: seq<seq<Step>>)
      requires |mine| == |others| && DoneTo(s0, mine, others, |mine|)
      ensures Valid()
      ensures Runs(s0, Woven(mine, others)) && View() == After(s0, Woven(mine, others))
    {
      assert mine[..|mine|] == mine && others[..|mine|] == others;
    }

    /** Statement `i` of the code, which is `l`, and what the other goroutines do after it. */
    method Execute(ghost s0: State, ghost mine: seq<Step>, others: seq<seq<Step>>, i: nat, l: Step)
      requires i < |mine| == |others| && Runs(s0, Woven(mine, others)) && mine[i] == l
      requires DoneTo(s0, mine, others, i)
      modifies this, Objects()
      ensures DoneTo(s0, mine, others, i + 1)
      ensures old(all) <= all && OnlyNewObjects()
    {
      hide Next, Woven, Enabled, WellFormed, Runs, After, Inv;
      WovenStep(s0, mine, others, i);
      Perform(l);
      Play(others[i]);
    }

    /** `resetLimiter`: one command after the other, the list being read once. */
    method ResetLimiter(others: seq<seq<Step>>)
      requires Valid() && |others| == |dcmds|
      requires Runs(View(), Woven(ResetSteps(|all| - |dcmds|, |dcmds|), others))
      modifies this, Objects()
      ensures Valid() && View() == After(old(View()), Woven(old(ResetSteps(|all| - |dcmds|, |dcmds|)), others))
      ensures OnlyNewObjects()
      ensures forall c: nat :: |old(all)| - |old(dcmds)| <= c < |old(all)| ==>
                Resets(Log(View(), c)) > Resets(Log(old(View()), c))
      ensures (forall k :: 0 <= k < |others| ==> others[k] == []) ==>
                OnlyReset(old(View()), View(), |old(all)| - |old(dcmds)|, |old(all)|)
    {
      hide Next, Woven, Enabled, WellFormed, Runs, After, Inv;
      ghost var s0 := View();
      var first, n := |all| - |dcmds|, |dcmds|;
      ghost var mine := ResetSteps(first, n);
      NothingDone(mine, others);
      var i := 0;
      while i < n
        invariant 0 <= i <= n && DoneTo(s0, mine, others, i)
        invariant OnlyNewObjects()
      {
        Execute(s0, mine, others, i, Step.ResetOne(first + i));
        i := i + 1;
      }
      AllDone(s0, mine, others);
      EveryOneIsReset(s0, first, n, others);
      if forall k :: 0 <= k < |others| ==> others[k] == [] {
        ResetAloneClears(s0, first, n, others);
      }
    }

    /** What is left of the drain loop shows in the channel. */
    lemma ChannelTells(s0: State, mine: seq<Step>, others: seq<seq<Step>>, i: nat)
      requires i < |mine| == |others| && Runs(s0, Woven(mine, others)) && DoneTo(s0, mine, others, i)
      ensures exitedCmdCh < |gens|
      ensures mine[i] == Step.Drain ==> gens[exitedCmdCh].queue != []
      ensures mine[i] == Step.NewChannel ==> gens[exitedCmdCh].queue == []
    {
      hide Next, Woven, WellFormed, Runs, After, Inv;
      WovenStep(s0, mine, others, i);
    }

    /** The loop that empties the closed channel; `i` counts statements. */
    method DrainChannel(ghost s0: State, ghost mine: seq<Step>, others: seq<seq<Step>>) returns (i: nat)
      requires |mine| == |others| >= 4 && Runs(s0, Woven(mine, others)) && DoneTo(s0, mine, others, 1)
      requires forall k :: 1 <= k < |mine| - 3 ==> mine[k] == Step.Drain
      requires mine[|mine| - 3] == Step.NewChannel
      modifies this, Objects()
      ensures i == |mine| - 3 && DoneTo(s0, mine, others, i)
      ensures OnlyNewObjects()
    {
      hide Next, Woven, Enabled, WellFormed, Runs, After, Inv;
      i := 1;
      ChannelTells(s0, mine, others, i);
      while gens[exitedCmdCh].queue != []
        invariant 1 <= i <= |mine| - 3 && DoneTo(s0, mine, others, i)
        invariant exitedCmdCh < |gens| && (gens[exitedCmdCh].queue == [] <==> i == |mine| - 3)
        invariant OnlyNewObjects()
        decreases |others| - i
      {
        Execute(s0, mine, others, i, Step.Drain);
        i := i + 1;
        ChannelTells(s0, mine, others, i);
      }
    }

    /** `Reload`, and the `Run` that `main` starts after it. */
    method Reload(cmds: seq<Exec.Cmd>, annotationsList: seq<Annotations>, others: seq<seq<Step>>)
      requires Valid() && |cmds| <= |annotationsList| && |others| >= 4
      requires Runs(View(), Woven(ReloadSteps(|others|, Entries(cmds, annotationsList)), others))
      modifies this, Objects()
      ensures Valid()
      ensures View() == After(old(View()), Woven(ReloadSteps(|others|, Entries(cmds, annotationsList)), others))
      ensures OnlyNewObjects()
    {
      hide Next, Woven, Enabled, WellFormed, Runs, After, Inv, Valid, DoneTo, Objects, ReloadSteps;
      ghost var s0 := View();
      ghost var mine := ReloadSteps(|others|, Entries(cmds, annotationsList));
      StatementsOfReload(|others|, Entries(cmds, annotationsList));
      NothingDone(mine, others);
      Execute(s0, mine, others, 0, Step.Close);
      var i := DrainChannel(s0, mine, others);
      Execute(s0, mine, others, i, Step.NewChannel);
      Execute(s0, mine, others, i + 1, Step.NewContext);
      Execute(s0, mine, others, i + 2, Step.Install(Entries(cmds, annotationsList)));
      AllDone(s0, mine, others);
    }

    // ---------------------------------------------------------------- queries

    method GetRunningCmdLen() returns (count: nat)
      ensures count == HowMany(dcmds, StatusRunning)
      ensures count == |set i: nat | i < |dcmds| && dcmds[i].status == StatusRunning|
    {
      count := 0;
      var i := 0;
      while i < |dcmds|
        invariant 0 <= i <= |dcmds|
        invariant count == HowMany(dcmds[..i], StatusRunning)
      {
        assert dcmds[..i + 1][..i] == dcmds[..i];
        if dcmds[i].status == StatusRunning {
          count := count + 1;
        }
        i := i + 1;
      }
      assert dcmds[..i] == dcmds;
      HowManyCounts(dcmds, StatusRunning);
    }

    method GetExitedCmdLen() returns (count: nat)
      ensures count == HowMany(dcmds, StatusExited)
      ensures count == |set i: nat | i < |dcmds| && dcmds[i].status == StatusExited|
    {
      count := 0;
      var i := 0;
      while i < |dcmds|
        invariant 0 <= i <= |dcmds|
        invariant count == HowMany(dcmds[..i], StatusExited)
      {
        assert dcmds[..i + 1][..i] == dcmds[..i];
        if dcmds[i].status == StatusExited {
          count := count + 1;
        }
        i := i + 1;
      }
      assert dcmds[..i] == dcmds;
      HowManyCounts(dcmds, StatusExited);
    }

    /** The first command of `DCmds` whose hash is that of `cmd`; nil is `ErrNoCmdFound`. */
    method GetDCmdByCmd(cmd: Option<Exec.Cmd>) returns (found: DaemonCmd?, ghost i: nat)
      ensures found == null ==> i == |dcmds|
      ensures found != null ==> i < |dcmds| && dcmds[i] == found && found.HasHash(CmdHashOf(cmd))
      ensures forall j :: 0 <= j < i ==> !dcmds[j].HasHash(CmdHashOf(cmd))
    {
      hide HashOf;
      var k := 0;
      while k < |dcmds|
        invariant 0 <= k <= |dcmds|
        invariant forall j :: 0 <= j < k ==> !dcmds[j].HasHash(CmdHashOf(cmd))
      {
        var same := dcmds[k].Answers(cmd);
        if same {
          return dcmds[k], k;
        }
        k := k + 1;
      }
      return null, k;
    }
  }

  /** Looking up the configured command line of a command of the daemon that is configured by a path succeeds. */
  lemma LookupSucceeds(d: Daemon, i: nat)
    requires d.Valid() && i < |d.dcmds|
    requires d.dcmds[i].configured.args != [] && Exec.HasSeparator(d.dcmds[i].configured.args[0])
    ensures d.dcmds[i].HasHash(CmdHashOf(Some(d.dcmds[i].configured)))
  {
    var c := |d.all| - |d.dcmds| + i;
    assert d.dcmds[i] == d.all[c];
    assert CmdOk(d.View(), c) && d.View().cmds[c] == d.all[c].Value();
  }

  ghost function HowMany(dcmds: seq<DaemonCmd>, status: Status): nat
    reads dcmds
  {
    if dcmds == [] then 0
    else HowMany(dcmds[..|dcmds| - 1], status) + if dcmds[|dcmds| - 1].status == status then 1 else 0
  }

  ghost function Positions(dcmds: seq<DaemonCmd>, status: Status): set<nat>
    reads dcmds
  {
    set i: nat | i < |dcmds| && dcmds[i].status == status
  }

  lemma PositionsSnoc(dcmds: seq<DaemonCmd>, status: Status)
    requires dcmds != []
    ensures var n := |dcmds| - 1;
            && n !in Positions(dcmds[..n], status)
            && Positions(dcmds, status) == Positions(dcmds[..n], status) + if dcmds[n].status == status then {n} else {}
  {
  }

  /** The count is the number of positions with that status. */
  lemma {:induction false} HowManyCounts(dcmds: seq<DaemonCmd>, status: Status)
    ensures HowMany(dcmds, status) == |Positions(dcmds, status)|
  {
    if dcmds == [] {
      assert Positions(dcmds, status) == {};
    } else {
      PositionsSnoc(dcmds, status);
      hide Positions;
      HowManyCounts(dcmds[..|dcmds| - 1], status);
    }
  }

  /** Command `i` of `DCmds` has a live process. */
  ghost predicate AliveAt(d: Daemon, i: nat)
    reads d, d.Objects()
  {
    |d.dcmds| <= |d.all| && HasProcess(d.View(), |d.all| - |d.dcmds| + i)
  }

  /** In every state of the daemon those that count as running are those in force that have a live process. */
  lemma RunningAreAlive(d: Daemon)
    requires d.Valid()
    ensures HowMany(d.dcmds, StatusRunning) == |set i: nat | i < |d.dcmds| && AliveAt(d, i)|
  {
    HowManyCounts(d.dcmds, StatusRunning);
    forall i: nat | i < |d.dcmds| ensures d.dcmds[i].status == StatusRunning <==> AliveAt(d, i) {
      var c := |d.all| - |d.dcmds| + i;
      assert d.dcmds[i] == d.all[c] && d.View().cmds[c] == d.all[c].Value();
      StatusOfLive(d.View(), c);
    }
    assert Positions(d.dcmds, StatusRunning) == set i: nat | i < |d.dcmds| && AliveAt(d, i);
  }

  /** Running and exited commands together are all the commands. */
  lemma {:induction false} RunningPlusExited(dcmds: seq<DaemonCmd>)
    ensures HowMany(dcmds, StatusRunning) + HowMany(dcmds, StatusExited) == |dcmds|
  {
    if dcmds != [] {
      RunningPlusExited(dcmds[..|dcmds| - 1]);
    }
  }
}
