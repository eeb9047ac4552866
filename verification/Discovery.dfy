/** The service discovery view of the daemon (daemon/httpsd.go). */
module Discovery {
  import opened Prelude
  import opened Machine
  import opened Tokens
  import opened Daemons

  datatype TargetGroup = TargetGroup(targets: seq<Str>, labels: map<Str, Str>)

  /** What the handler reads of a command. */
  datatype Seen = Seen(annotations: Annotations, status: Status)

  predicate HasAddress(a: Annotations) {
    a.Some? && Label(a, "metricsPath") != "" && Label(a, "ip") != "" && Label(a, "port") != ""
  }

  predicate Listed(v: Seen) {
    HasAddress(v.annotations) && v.status == StatusRunning
  }

  function Group(a: Annotations): TargetGroup {
    TargetGroup(
      [Label(a, "ip") + ":" + Label(a, "port")],
      map["name" := Label(a, "name"), "hostAdmIp" := Label(a, "ip"), "metricsPath" := Label(a, "metricsPath"),
          "hostname" := Label(a, "hostname"), "app" := Label(a, "app")])
  }

  function Targets(vs: seq<Seen>): seq<TargetGroup> {
    if vs == [] then []
    else Targets(vs[..|vs| - 1]) + if Listed(vs[|vs| - 1]) then [Group(vs[|vs| - 1].annotations)] else []
  }

  /** The positions of the listed commands. */
  function Picks(vs: seq<Seen>): seq<nat> {
    if vs == [] then []
    else Picks(vs[..|vs| - 1]) + if Listed(vs[|vs| - 1]) then [|vs| - 1] else []
  }

  lemma {:induction false} PicksInOrder(vs: seq<Seen>)
    ensures forall j :: 0 <= j < |Picks(vs)| ==> Picks(vs)[j] < |vs| && Listed(vs[Picks(vs)[j]])
    ensures forall j, k :: 0 <= j < k < |Picks(vs)| ==> Picks(vs)[j] < Picks(vs)[k]
    ensures |Targets(vs)| == |Picks(vs)|
    ensures forall j :: 0 <= j < |Picks(vs)| ==> Targets(vs)[j] == Group(vs[Picks(vs)[j]].annotations)
  {
    if vs != [] {
      PicksInOrder(vs[..|vs| - 1]);
    }
  }

  lemma {:induction false} PicksAll(vs: seq<Seen>, i: nat)
    requires i < |vs| && Listed(vs[i])
    ensures i in Picks(vs)
  {
    if i < |vs| - 1 {
      PicksAll(vs[..|vs| - 1], i);
    } else {
      assert Picks(vs)[|Picks(vs)| - 1] == i;
    }
  }

  /** The response is, in order, one group for each listed command and nothing else. */
  lemma TargetsAreTheListed(vs: seq<Seen>)
    ensures |Targets(vs)| == |Picks(vs)|
    ensures forall j :: 0 <= j < |Picks(vs)| ==>
              Picks(vs)[j] < |vs| && Targets(vs)[j] == Group(vs[Picks(vs)[j]].annotations)
    ensures forall j, k :: 0 <= j < k < |Picks(vs)| ==> Picks(vs)[j] < Picks(vs)[k]
    ensures forall i: nat :: i in Picks(vs) <==> i < |vs| && Listed(vs[i])
  {
    PicksInOrder(vs);
    forall i: nat | i < |vs| && Listed(vs[i]) ensures i in Picks(vs) {
      PicksAll(vs, i);
    }
  }

  /** A group names the address as one target, and carries the five labels with the values of the annotations. */
  ghost predicate IsGroupOf(g: TargetGroup, a: map<Str, Str>) {
    && "ip" in a && "port" in a && "metricsPath" in a
    && g.targets == [a["ip"] + ":" + a["port"]]
    && g.labels.Keys == {"name", "hostAdmIp", "metricsPath", "hostname", "app"}
    && g.labels["hostAdmIp"] == a["ip"] && g.labels["metricsPath"] == a["metricsPath"]
    && g.labels["name"] == (if "name" in a then a["name"] else "")
    && g.labels["hostname"] == (if "hostname" in a then a["hostname"] else "")
    && g.labels["app"] == (if "app" in a then a["app"] else "")
  }

  /** A running command with an address, in terms of its annotation map. */
  ghost predicate IsTarget(v: Seen) {
    && v.status == StatusRunning && v.annotations.Some?
    && forall key :: key in ["metricsPath", "ip", "port"] ==>
         key in v.annotations.value && v.annotations.value[key] != ""
  }

  lemma ListedIsTarget(v: Seen)
    ensures Listed(v) <==> IsTarget(v)
    ensures Listed(v) ==> IsGroupOf(Group(v.annotations), v.annotations.value)
  {
    var keys := ["metricsPath", "ip", "port"];
    assert keys[0] in keys && keys[1] in keys && keys[2] in keys;
  }

  /**
   * `response` has, in the order of `vs`, one group for each running command with an address, and nothing else: `picks`
   * are the positions of these commands.
   */
  ghost predicate IsResponse(response: seq<TargetGroup>, vs: seq<Seen>, picks: seq<nat>) {
    && |response| == |picks|
    && (forall j, k :: 0 <= j < k < |picks| ==> picks[j] < picks[k])
    && (forall i: nat :: i in picks <==> i < |vs| && IsTarget(vs[i]))
    && forall j :: 0 <= j < |picks| ==>
         picks[j] < |vs| && vs[picks[j]].annotations.Some?
         && IsGroupOf(response[j], vs[picks[j]].annotations.value)
  }

  lemma TargetsAreTheResponse(vs: seq<Seen>)
    ensures IsResponse(Targets(vs), vs, Picks(vs))
  {
    TargetsAreTheListed(vs);
    forall i: nat ensures i in Picks(vs) <==> i < |vs| && IsTarget(vs[i]) {
      if i < |vs| { ListedIsTarget(vs[i]); }
    }
    forall j | 0 <= j < |Picks(vs)|
      ensures vs[Picks(vs)[j]].annotations.Some? && IsGroupOf(Targets(vs)[j], vs[Picks(vs)[j]].annotations.value)
    {
      assert Picks(vs)[j] in Picks(vs);
      ListedIsTarget(vs[Picks(vs)[j]]);
    }
  }

  ghost function View(dcmds: seq<DaemonCmd>): seq<Seen>
    reads dcmds
  {
    seq(|dcmds|, i requires 0 <= i < |dcmds| reads dcmds => Seen(dcmds[i].annotations, dcmds[i].status))
  }

  method HttpSD(d: Daemon) returns (response: seq<TargetGroup>)
    ensures response == Targets(View(d.dcmds))
    ensures IsResponse(response, View(d.dcmds), Picks(View(d.dcmds)))
  {
    response := [];
    var i := 0;
    while i < |d.dcmds|
      invariant 0 <= i <= |d.dcmds|
      invariant response == Targets(View(d.dcmds)[..i])
    {
      var dcmd := d.dcmds[i];
      i := i + 1;
      assert View(d.dcmds)[..i][..|View(d.dcmds)[..i]| - 1] == View(d.dcmds)[..i - 1];
      if dcmd.annotations == None {
        continue;
      }
      var a := dcmd.annotations;
      if Label(a, "metricsPath") == "" || Label(a, "ip") == "" || Label(a, "port") == "" {
        continue;
      }
      if dcmd.status == StatusRunning {
        var targets := [Label(a, "ip") + ":" + Label(a, "port")];
        var labels := map["name" := Label(a, "name"), "hostAdmIp" := Label(a, "ip"),
                          "metricsPath" := Label(a, "metricsPath"), "hostname" := Label(a, "hostname"),
                          "app" := Label(a, "app")];
        response := response + [TargetGroup(targets, labels)];
      }
    }
    assert View(d.dcmds)[..i] == View(d.dcmds);
    TargetsAreTheResponse(View(d.dcmds));
  }

  /**
   * In every state of the daemon the response lists exactly those of its commands, the ones in `DCmds`, that have an
   * address and a live process.
   */
  lemma ListedIffAlive(d: Daemon, i: nat)
    requires d.Valid() && i < |d.dcmds|
    ensures i in Picks(View(d.dcmds)) <==>
              var a := d.dcmds[i].annotations;
              && a.Some? && HasProcess(d.View(), |d.all| - |d.dcmds| + i)
              && "metricsPath" in a.value && a.value["metricsPath"] != ""
              && "ip" in a.value && a.value["ip"] != "" && "port" in a.value && a.value["port"] != ""
  {
    var c := |d.all| - |d.dcmds| + i;
    TargetsAreTheListed(View(d.dcmds));
    assert d.dcmds[i] == d.all[c] && d.View().cmds[c] == d.all[c].Value();
    StatusOfLive(d.View(), c);
  }

  /** The commands in `DCmds` are those of the generation in force; there are none inside a reload. */
  lemma ListedAreInForce(d: Daemon, c: nat)
    requires d.Valid() && c < |d.all|
    ensures d.stage.Serving? ==> (d.View().cmds[c].gen == d.View().Cur() <==> c >= |d.all| - |d.dcmds|)
    ensures !d.stage.Serving? ==> d.dcmds == []
  {
    assert d.View().cmds[c] == d.all[c].Value();
  }
}
