/** What the bounded channel can and cannot hold up while its context lives. */
module Capacity {
  import opened Prelude
  import opened Machine
  import opened Invariant
  import opened Tokens
  import opened Lifetimes
  import opened Draining

  // ---------------------------------------------------------------- at most 20 commands: never full

  /** With at most 20 commands in its generation no sender ever finds the channel full: tokens are unique. */
  lemma NeverFullForSender(s: State, t: nat)
    requires Inv(s) && At(s, t) && s.threads[t].pc.Sending?
    ensures s.threads[t].cmd < |s.cmds| && s.threads[t].pc.ch < |s.gens|
    ensures |Members(s, s.threads[t].pc.ch, |s.cmds|)| <= CAPACITY ==> |s.gens[s.threads[t].pc.ch].queue| < CAPACITY
  {
    assert ThreadOk(s, t);
    var c := s.threads[t].cmd;
    var k := s.threads[t].pc.ch;
    assert CmdOk(s, c) && GenOk(s, k);
    var q := s.gens[k].queue;
    forall i | 0 <= i < |q| ensures q[i] in Members(s, k, |s.cmds|) && q[i] != c {
      assert Queued(s, q[i], k);
    }
    NoDupFits(q + [c], Members(s, k, |s.cmds|));
  }

  lemma SenderNeverBlocks(s0: State, ls: seq<Step>, s: State, t: nat)
    requires Reached(s0, ls, s) && !s.crashed && At(s, t) && s.threads[t].pc.Sending?
    requires |Members(s, s.threads[t].pc.ch, |s.cmds|)| <= CAPACITY
    ensures WellFormed(s) && Enabled(s, Send(t))
  {
    ReachedInv(s0, ls, s);
    NeverFullForSender(s, t);
  }

  // ---------------------------------------------------------------- progress

  /** A step of the command's token or of the consumer that serves its channel. */
  ghost predicate Advances(s: State, l: Step, c: nat)
    requires c < |s.cmds|
  {
    match l
    case Enter(t) => At(s, t) && s.threads[t].cmd == c
    case Starts(t) => At(s, t) && s.threads[t].cmd == c
    case WaitReturns(t, _) => At(s, t) && s.threads[t].cmd == c
    case CheckCtx(t) => At(s, t) && s.threads[t].cmd == c
    case Send(t) => At(s, t) && s.threads[t].cmd == c
    case SetTimer(t) => At(s, t) && s.threads[t].cmd == c
    case Fire(t, _) => At(s, t) && s.threads[t].cmd == c
    case Arm(g) => g == s.cmds[c].gen
    case Receive(g) => g == s.cmds[c].gen
    case _ => false
  }

  ghost predicate CanStep(s: State, l: Step) {
    WellFormed(s) && Enabled(s, l)
  }

  ghost predicate CanStepInTime(s: State, l: Step) {
    exists to :: s.now <= to && CanStep(s.(now := to), l)
  }

  lemma ConsumerCanStep(s: State, c: nat) returns (l: Step)
    requires Inv(s) && WellFormed(s) && !s.crashed && c < |s.cmds|
    requires s.cmds[c].gen <= Newest(s) < |s.gens| && !s.gens[s.cmds[c].gen].cancelled
    requires s.gens[s.cmds[c].gen].queue != []
    ensures Advances(s, l, c) && CanStep(s, l)
  {
    var g := s.cmds[c].gen;
    assert GenOk(s, g);
    l := if s.gens[g].consumer.Looping? then Arm(g) else Receive(g);
  }

  /** The goroutine of a command can step, or must wait for room in the channel; a timer needs its time to come. */
  lemma GoroutineCanStep(s: State, c: nat, t: nat) returns (l: Step, to: int)
    requires Inv(s) && WellFormed(s) && !s.crashed && At(s, t) && s.threads[t].cmd == c < |s.cmds|
    requires ThreadOk(s, t) && CmdOk(s, c) && s.now > 0
    requires s.threads[t].pc.Sending? ==> |s.gens[s.threads[t].pc.ch].queue| < CAPACITY
    ensures Advances(s, l, c) && s.now <= to
    ensures WellFormed(s.(now := to)) ==> Enabled(s.(now := to), l)
  {
    to := s.now;
    match s.threads[t].pc {
      case Entering => l := Enter(t);
      case Launching(_) => l := Starts(t);
      case Alive(_) => l := WaitReturns(t, false);
      case Checking(_) => l := CheckCtx(t);
      case Sending(_) => l := Send(t);
      case Spawned => l := SetTimer(t);
      case Waiting(wake, _) =>
        l := Fire(t, s.cmds[c].exe.path);
        to := if wake <= s.now then s.now else wake;
    }
  }

  /**
   * While its context lives no supervised command is stuck: its goroutine, its process, its timer or the consumer
   * that serves its channel can step.
   */
  lemma NeverStuck(s0: State, ls: seq<Step>, s: State, c: nat)
    requires Reached(s0, ls, s) && !s.crashed && c < |s.cmds| && Supervised(s, c)
    requires s.cmds[c].gen < |s.gens| && !s.gens[s.cmds[c].gen].cancelled
    ensures exists l :: Advances(s, l, c) && CanStepInTime(s, l)
  {
    ReachedInv(s0, ls, s);
    SupervisedIff(s, c);
    assert CmdOk(s, c);
    var l: Step;
    var to := s.now;
    var loc := s.hist[c].loc;
    if loc.InQueue? {
      QueuedAt(s, c, loc.k);
      l := ConsumerCanStep(s, c);
    } else {
      assert ThreadOk(s, loc.t);
      if s.threads[loc.t].pc.Sending? && |s.gens[s.threads[loc.t].pc.ch].queue| >= CAPACITY {
        l := ConsumerCanStep(s, c);
      } else {
        l, to := GoroutineCanStep(s, c, loc.t);
      }
    }
    BookkeepingKeeps(s, to, s.restarts, s.crashed);
    InvWellFormed(s.(now := to));
    assert CanStep(s.(now := to), l);
    assert Advances(s, l, c) && CanStepInTime(s, l);
  }
}
