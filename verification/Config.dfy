/** Configuration entries and the defaults filled into their annotations (config/config.go). */
module Config {
  import opened Prelude
  import Exec

  datatype ConfEntry = ConfEntry(cmd: Str, args: seq<Str>, annotations: Annotations)

  /** What the host says about itself: `os.Hostname` and the address found for it, each possibly failing. */
  datatype Host = Host(hostname: Option<Str>, ip: Option<Str>)

  /** Make the map if there is none, then set the key if it has no value. */
  function Fill(a: Annotations, key: Str, value: Str): Annotations {
    var m := if a.Some? then a.value else map[];
    Some(if Label(a, key) == "" then m[key := value] else m)
  }

  function FillHostName(host: Host, e: ConfEntry): ConfEntry {
    if host.hostname.None? then e else e.(annotations := Fill(e.annotations, "hostname", host.hostname.value))
  }

  function FillIP(host: Host, e: ConfEntry): ConfEntry {
    if host.hostname.None? || host.ip.None? then e else e.(annotations := Fill(e.annotations, "ip", host.ip.value))
  }

  function FillName(e: ConfEntry): ConfEntry {
    e.(annotations := Fill(e.annotations, "name", Exec.Base(e.cmd)))
  }

  function Filled(host: Host, e: ConfEntry): ConfEntry {
    FillName(FillIP(host, FillHostName(host, e)))
  }

  function Map<A, B>(f: A -> B, s: seq<A>): seq<B> {
    seq(|s|, i requires 0 <= i < |s| => f(s[i]))
  }

  // ---------------------------------------------------------------- laws of the defaults

  lemma FillFacts(a: Annotations, key: Str, value: Str)
    ensures Fill(a, key, value).Some?
    ensures Label(Fill(a, key, value), key) == if Label(a, key) == "" then value else Label(a, key)
    ensures forall k :: k != key ==> Label(Fill(a, key, value), k) == Label(a, k)
  {
  }

  /** The three visitors commute: whatever their order, the result is that of `GenerateCmds`. */
  lemma VisitorsCommute(host: Host, e: ConfEntry)
    ensures FillIP(host, FillHostName(host, e)) == FillHostName(host, FillIP(host, e))
    ensures FillName(FillHostName(host, e)) == FillHostName(host, FillName(e))
    ensures FillName(FillIP(host, e)) == FillIP(host, FillName(e))
  {
    FillsCommute(e.annotations, "hostname", if host.hostname.Some? then host.hostname.value else "",
                 "ip", if host.ip.Some? then host.ip.value else "");
    FillsCommute(e.annotations, "hostname", if host.hostname.Some? then host.hostname.value else "",
                 "name", Exec.Base(e.cmd));
    FillsCommute(e.annotations, "ip", if host.ip.Some? then host.ip.value else "", "name", Exec.Base(e.cmd));
  }

  lemma FillsCommute(a: Annotations, j: Str, v: Str, k: Str, w: Str)
    requires j != k
    ensures Fill(Fill(a, j, v), k, w) == Fill(Fill(a, k, w), j, v)
  {
    var m: map<Str, Str> := if a.Some? then a.value else map[];
    assert m[j := v][k := w] == m[k := w][j := v];
  }

  lemma FillTwice(a: Annotations, key: Str, value: Str)
    ensures Fill(Fill(a, key, value), key, value) == Fill(a, key, value)
  {
    var m: map<Str, Str> := if a.Some? then a.value else map[];
    assert m[key := value][key := value] == m[key := value];
  }

  /** Defaulting twice is defaulting once. */
  lemma DefaultingIsIdempotent(host: Host, e: ConfEntry)
    ensures Filled(host, Filled(host, e)) == Filled(host, e)
  {
    var h := FillHostName(host, e);
    var i := FillIP(host, h);
    var n := FillName(i);
    VisitorsCommute(host, i);
    VisitorsCommute(host, h);
    VisitorsCommute(host, n);
    if host.hostname.Some? {
      FillTwice(e.annotations, "hostname", host.hostname.value);
      if host.ip.Some? {
        FillTwice(h.annotations, "ip", host.ip.value);
      }
    }
    FillTwice(i.annotations, "name", Exec.Base(e.cmd));
    assert FillHostName(host, i) == i;
    assert FillHostName(host, n) == n;
    assert FillIP(host, i) == i;
    assert FillIP(host, n) == n;
  }

  /** No value the user gave is changed, no key but the three is touched, and every command ends with a name. */
  lemma DefaultsRespectTheUser(host: Host, e: ConfEntry, key: Str)
    ensures Label(e.annotations, key) != "" ==> Label(Filled(host, e).annotations, key) == Label(e.annotations, key)
    ensures key !in {"hostname", "ip", "name"} ==>
              Label(Filled(host, e).annotations, key) == Label(e.annotations, key)
    ensures Label(Filled(host, e).annotations, "name") != ""
    ensures Label(e.annotations, "name") == "" ==> Label(Filled(host, e).annotations, "name") == Exec.Base(e.cmd)
    ensures Filled(host, e).cmd == e.cmd && Filled(host, e).args == e.args && Filled(host, e).annotations.Some?
    ensures Label(e.annotations, "hostname") == "" ==>
              Label(Filled(host, e).annotations, "hostname") ==
              if host.hostname.Some? then host.hostname.value else ""
    ensures Label(e.annotations, "ip") == "" ==>
              Label(Filled(host, e).annotations, "ip") ==
              if host.hostname.Some? && host.ip.Some? then host.ip.value else ""
  {
    var h := FillHostName(host, e);
    var i := FillIP(host, h);
    if host.hostname.Some? {
      FillFacts(e.annotations, "hostname", host.hostname.value);
      if host.ip.Some? {
        FillFacts(h.annotations, "ip", host.ip.value);
      }
    }
    FillFacts(i.annotations, "name", Exec.Base(e.cmd));
  }

  /** Generating again from the configuration that the first generation left changes nothing in it or in the result. */
  lemma GeneratingTwiceIsGeneratingOnce(host: Host, entries: seq<ConfEntry>)
    ensures var once := Map(e => Filled(host, e), entries);
            && Map(e => Filled(host, e), once) == once
            && forall i, look :: 0 <= i < |entries| ==> CmdOf(once[i], look) == CmdOf(entries[i], look)
  {
    forall i | 0 <= i < |entries|
      ensures Filled(host, Filled(host, entries[i])) == Filled(host, entries[i])
      ensures Filled(host, entries[i]).cmd == entries[i].cmd && Filled(host, entries[i]).args == entries[i].args
    {
      DefaultingIsIdempotent(host, entries[i]);
      DefaultsRespectTheUser(host, entries[i], "name");
    }
  }

  /** Command as `exec.Command` builds it when its lookup ends with `look`. */
  function CmdOf(e: ConfEntry, look: Str): Exec.Cmd {
    Exec.Command(e.cmd, e.args, look)
  }

  /** The command line is the configured name followed by the configured arguments. */
  lemma CommandLineAsConfigured(e: ConfEntry, look: Str)
    ensures CmdOf(e, look).args == [e.cmd] + e.args
    ensures (Exec.HasSeparator(e.cmd) && Exec.LookOk(e.cmd, look)) || e.cmd == [] ==> CmdOf(e, look).path == e.cmd
    ensures !Exec.HasSeparator(e.cmd) && e.cmd != [] ==> CmdOf(e, look).path == look
  {
    Exec.PlainIsItsBase(e.cmd);
  }

  lemma SameCommand(host: Host, e: ConfEntry, look: Str)
    ensures CmdOf(Filled(host, e), look) == CmdOf(e, look)
  {
    DefaultsRespectTheUser(host, e, "name");
  }

  // ---------------------------------------------------------------- the configuration object

  /** `Conf`: the visitors replace the annotations of its entries in place. */
  class Conf {
    var cmds: array<ConfEntry>

    constructor (entries: seq<ConfEntry>)
      ensures fresh(cmds) && cmds[..] == entries
    {
      cmds := new ConfEntry[|entries|](i requires 0 <= i < |entries| => entries[i]);
    }
  }

  /** Makes the annotation map of entry `i` if it is nil, then gives `key` a value if it has none. */
  method SetDefault(cmds: array<ConfEntry>, i: nat, key: Str, value: Str)
    requires i < cmds.Length
    modifies cmds
    ensures cmds[..] == old(cmds[..])[i := old(cmds[i]).(annotations := Fill(old(cmds[i]).annotations, key, value))]
  {
    if cmds[i].annotations == None {
      cmds[i] := cmds[i].(annotations := Some(map[]));
    }
    if Label(cmds[i].annotations, key) == "" {
      cmds[i] := cmds[i].(annotations := Some(cmds[i].annotations.value[key := value]));
    }
  }

  method WithHostName(c: Conf?, host: Host)
    modifies if c == null then {} else {c.cmds}
    ensures c != null ==> c.cmds[..] == Map(e => FillHostName(host, e), old(c.cmds[..]))
  {
    if c == null || host.hostname.None? {
      return;
    }
    ghost var was := c.cmds[..];
    var i := 0;
    while i < c.cmds.Length
      invariant 0 <= i <= c.cmds.Length
      invariant forall k :: 0 <= k < i ==> c.cmds[..][k] == FillHostName(host, was[k])
      invariant forall k :: i <= k < c.cmds.Length ==> c.cmds[..][k] == was[k]
    {
      SetDefault(c.cmds, i, "hostname", host.hostname.value);
      i := i + 1;
    }
  }

  method WithIP(c: Conf?, host: Host)
    modifies if c == null then {} else {c.cmds}
    ensures c != null ==> c.cmds[..] == Map(e => FillIP(host, e), old(c.cmds[..]))
  {
    if c == null || host.hostname.None? || host.ip.None? {
      return;
    }
    ghost var was := c.cmds[..];
    var i := 0;
    while i < c.cmds.Length
      invariant 0 <= i <= c.cmds.Length
      invariant forall k :: 0 <= k < i ==> c.cmds[..][k] == FillIP(host, was[k])
      invariant forall k :: i <= k < c.cmds.Length ==> c.cmds[..][k] == was[k]
    {
      SetDefault(c.cmds, i, "ip", host.ip.value);
      i := i + 1;
    }
  }

  method WithName(c: Conf?)
    modifies if c == null then {} else {c.cmds}
    ensures c != null ==> c.cmds[..] == Map(FillName, old(c.cmds[..]))
  {
    if c == null {
      return;
    }
    ghost var was := c.cmds[..];
    var i := 0;
    while i < c.cmds.Length
      invariant 0 <= i <= c.cmds.Length
      invariant forall k :: 0 <= k < i ==> c.cmds[..][k] == FillName(was[k])
      invariant forall k :: i <= k < c.cmds.Length ==> c.cmds[..][k] == was[k]
    {
      SetDefault(c.cmds, i, "name", Exec.Base(c.cmds[i].cmd));
      i := i + 1;
    }
  }

  /** `Accept` of the three visitors, in the order of `GenerateCmds`. */
  method FillDefaults(conf: Conf, host: Host)
    modifies conf.cmds
    ensures forall i :: 0 <= i < conf.cmds.Length ==> conf.cmds[i] == Filled(host, old(conf.cmds[i]))
  {
    ghost var was := conf.cmds[..];
    WithHostName(conf, host);
    ghost var named := conf.cmds[..];
    assert forall k :: 0 <= k < |was| ==> named[k] == FillHostName(host, was[k]);
    WithIP(conf, host);
    ghost var addressed := conf.cmds[..];
    assert forall k :: 0 <= k < |was| ==> addressed[k] == FillIP(host, named[k]);
    WithName(conf);
    forall k | 0 <= k < |was| ensures conf.cmds[k] == Filled(host, was[k]) {
      assert conf.cmds[k] == conf.cmds[..][k] == FillName(addressed[k]);
    }
  }

  method ListCommands(entries: seq<ConfEntry>, looks: seq<Str>)
      returns (cmds: seq<Exec.Cmd>, annotationsList: seq<Annotations>)
    requires |looks| == |entries|
    ensures |cmds| == |annotationsList| == |entries|
    ensures forall i :: 0 <= i < |cmds| ==>
              cmds[i] == CmdOf(entries[i], looks[i]) && annotationsList[i] == entries[i].annotations
  {
    cmds, annotationsList := [], [];
    var i := 0;
    while i < |entries|
      invariant 0 <= i == |cmds| == |annotationsList| <= |entries|
      invariant forall k :: 0 <= k < i ==>
                  cmds[k] == CmdOf(entries[k], looks[k]) && annotationsList[k] == entries[k].annotations
    {
      cmds := cmds + [CmdOf(entries[i], looks[i])];
      annotationsList := annotationsList + [entries[i].annotations];
      i := i + 1;
    }
  }

  /** Fills the defaults in place, then lists commands and annotations in configuration order. */
  method GenerateCmds(conf: Conf, host: Host, looks: seq<Str>)
      returns (cmds: seq<Exec.Cmd>, annotationsList: seq<Annotations>)
    requires |looks| == conf.cmds.Length
    modifies conf.cmds
    ensures forall i :: 0 <= i < conf.cmds.Length ==> conf.cmds[i] == Filled(host, old(conf.cmds[i]))
    ensures |cmds| == |annotationsList| == conf.cmds.Length
    ensures forall i :: 0 <= i < |cmds| ==>
              && cmds[i] == CmdOf(old(conf.cmds[i]), looks[i])
              && annotationsList[i] == Filled(host, old(conf.cmds[i])).annotations
    ensures forall i :: 0 <= i < |cmds| ==>
              && cmds[i].args == [old(conf.cmds[i]).cmd] + old(conf.cmds[i]).args
              && (Exec.HasSeparator(old(conf.cmds[i]).cmd) && Exec.LookOk(old(conf.cmds[i]).cmd, looks[i]) ==>
                    cmds[i].path == old(conf.cmds[i]).cmd)
  {
    if conf.cmds.Length == 0 {
      return [], [];
    }
    FillDefaults(conf, host);
    cmds, annotationsList := ListCommands(conf.cmds[..], looks);
    forall i | 0 <= i < |cmds|
      ensures cmds[i] == CmdOf(old(conf.cmds[i]), looks[i])
      ensures cmds[i].args == [old(conf.cmds[i]).cmd] + old(conf.cmds[i]).args
      ensures Exec.HasSeparator(old(conf.cmds[i]).cmd) && Exec.LookOk(old(conf.cmds[i]).cmd, looks[i]) ==>
                cmds[i].path == old(conf.cmds[i]).cmd
    {
      SameCommand(host, old(conf.cmds[i]), looks[i]);
      CommandLineAsConfigured(old(conf.cmds[i]), looks[i]);
    }
  }
}
