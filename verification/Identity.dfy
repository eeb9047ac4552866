/** The identity of a command across restarts: each one rebuilds the command line from the previous one. */
module Identity {
  import opened Prelude
  import opened Exec
  import opened Sorting
  import opened Hashing
  import opened Machine
  import opened Invariant
  import opened Tokens

  /** `looks` are the paths that the lookups of successive updates end with. */
  function Rebuilds(c: Cmd, looks: seq<Str>): (r: Cmd)
    requires c.args != []
    ensures r.args != []
  {
    if looks == [] then c else Rebuild(Rebuilds(c, looks[..|looks| - 1]), looks[|looks| - 1])
  }

  predicate LooksOk(c: Cmd, looks: seq<Str>)
    requires c.args != []
  {
    looks == [] ||
    (&& LooksOk(c, looks[..|looks| - 1])
     && LookOk(Rebuilds(c, looks[..|looks| - 1]).path, looks[|looks| - 1]))
  }

  lemma {:induction false} AfterRestarts(c: Cmd, looks: seq<Str>)
    requires WellBuilt(c) && LooksOk(c, looks)
    ensures var r := Rebuilds(c, looks);
            && WellBuilt(r)
            && r.args[1..] == c.args[1..]
            && (HasSeparator(c.args[0]) ==> r == c)
            && (r.args[0] == c.args[0] || HasSeparator(r.args[0]))
  {
    if looks != [] {
      AfterRestarts(c, looks[..|looks| - 1]);
    }
  }

  lemma {:induction false} RebuildsSplit(c: Cmd, a: seq<Str>, b: seq<Str>)
    requires c.args != [] && LooksOk(c, a + b)
    ensures LooksOk(c, a) && LooksOk(Rebuilds(c, a), b)
    ensures Rebuilds(c, a + b) == Rebuilds(Rebuilds(c, a), b)
    decreases |b|
  {
    if b == [] {
      assert a + b == a;
    } else {
      assert (a + b)[..|a + b| - 1] == a + b[..|b| - 1];
      RebuildsSplit(c, a, b[..|b| - 1]);
    }
  }

  ghost predicate KeepsCommandLine(c: Cmd)
    requires c.args != []
  {
    forall looks :: LooksOk(c, looks) ==> Rebuilds(c, looks).args == c.args
  }

  /** Two restarts in which the lookup of a plain name succeeds replace the name by the path that was found. */
  lemma PlainNameCanChange(c: Cmd) returns (looks: seq<Str>)
    requires WellBuilt(c) && !HasSeparator(c.args[0]) && c.args[0] != []
    ensures LooksOk(c, looks) && Rebuilds(c, looks).args != c.args
  {
    PlainTrims(c.args[0]);
    var found: Str := "/" + c.args[0];
    assert found[0] == '/';
    if HasSeparator(c.path) {
      looks := [] + [c.path];
      assert looks[..0] == [];
    } else {
      var one := [] + [found];
      looks := one + [found];
      assert one[..0] == [] && looks[..1] == one;
      assert Rebuilds(c, one).path == found;
    }
  }

  /**
   * The command line survives every sequence of restarts exactly when the configured name contains a separator
   * (or is empty); a plain name gives way to whatever path it is found at.
   */
  lemma CommandLineIsStableIff(c: Cmd)
    requires WellBuilt(c)
    ensures KeepsCommandLine(c) <==> HasSeparator(c.args[0]) || c.args[0] == []
  {
    if HasSeparator(c.args[0]) || c.args[0] == [] {
      forall looks | LooksOk(c, looks) ensures Rebuilds(c, looks).args == c.args {
        StableLine(c, looks);
      }
    } else {
      var looks := PlainNameCanChange(c);
    }
  }

  lemma {:induction false} StableLine(c: Cmd, looks: seq<Str>)
    requires WellBuilt(c) && LooksOk(c, looks) && (HasSeparator(c.args[0]) || c.args[0] == [])
    ensures Rebuilds(c, looks) == c
  {
    if looks != [] {
      StableLine(c, looks[..|looks| - 1]);
      assert c.args == [c.args[0]] + c.args[1..];
    }
  }

  /** Over any number of restarts the command line, and with it the hash, changes at most once. */
  lemma CommandLineChangesAtMostOnce(c: Cmd, a: seq<Str>, b: seq<Str>)
    requires WellBuilt(c) && LooksOk(c, a + b)
    ensures LooksOk(c, a)
    ensures Rebuilds(c, a).args != c.args ==>
              Rebuilds(c, a + b).args == Rebuilds(c, a).args
              && HashOf(Rebuilds(c, a + b).args) == HashOf(Rebuilds(c, a).args)
  {
    RebuildsSplit(c, a, b);
    AfterRestarts(c, a);
    var m := Rebuilds(c, a);
    if m.args != c.args {
      SameArgs(m.args, c.args);
      StableLine(m, b);
    }
  }

  lemma SameArgs(a: seq<Str>, b: seq<Str>)
    requires a != [] && b != [] && a[1..] == b[1..]
    ensures a == b <==> a[0] == b[0]
  {
    assert a == [a[0]] + a[1..] && b == [b[0]] + b[1..];
  }

  // ---------------------------------------------------------------- the hash

  /** However the restarts' lookups end, the hash stays what it was. */
  ghost predicate KeepsHash(c: Cmd)
    requires c.args != []
  {
    forall looks :: LooksOk(c, looks) ==> HashOf(Rebuilds(c, looks).args) == HashOf(c.args)
  }

  /** Where a plain name is found: in one of two directories. */
  function Found(dir: Byte, name: Str): Str {
    ['/', dir, '/'] + name
  }

  lemma FoundKey(dir: Byte, name: Str, rest: seq<Str>)
    ensures Key([Found(dir, name)] + rest) == "/" + [dir] + Key([['/'] + name] + rest)
  {
    var tail := Sort(rest);
    var a, b := [Found(dir, name)] + rest, [['/'] + name] + rest;
    assert a[1..] == rest && b[1..] == rest;
    var x, y := [a[0]] + tail, [b[0]] + tail;
    assert x[1..] == tail && y[1..] == tail;
    assert a[0] == "/" + [dir] + b[0];
  }

  /** A name that is looked up and found in two directories gets two hashes. */
  lemma FoundHashesDiffer(name: Str, rest: seq<Str>)
    ensures HashOf([Found('a', name)] + rest) != HashOf([Found('b', name)] + rest)
  {
    FoundKey('a', name, rest);
    FoundKey('b', name, rest);
    OneByteChangesHash("/", 'a', 'b', Key([['/'] + name] + rest));
  }

  /** A command whose first lookup failed, restarted twice with the program found. */
  lemma FoundTwice(name: Str, rest: seq<Str>, dir: Byte)
    requires !HasSeparator(name) && name != []
    ensures WellBuilt(Cmd(name, [name] + rest))
    ensures var looks := [Found(dir, name), Found(dir, name)];
            && LooksOk(Cmd(name, [name] + rest), looks)
            && Rebuilds(Cmd(name, [name] + rest), looks).args == [Found(dir, name)] + rest
  {
    PlainTrims(name);
    var c, found := Cmd(name, [name] + rest), Found(dir, name);
    assert found[0] == '/';
    assert c.args[1..] == rest;
    var one := [found];
    var looks := [found, found];
    assert one[..0] == [] && looks[..1] == one;
    assert Rebuilds(c, one) == Cmd(found, [name] + rest);
  }

  lemma PlainNameLosesItsHash(name: Str, rest: seq<Str>)
    requires !HasSeparator(name) && name != []
    ensures WellBuilt(Cmd(name, [name] + rest)) && !KeepsHash(Cmd(name, [name] + rest))
  {
    FoundTwice(name, rest, 'a');
    FoundTwice(name, rest, 'b');
    FoundHashesDiffer(name, rest);
  }

  /**
   * The hash of a configured command line survives all restarts, however its name was looked up when it was configured,
   * exactly when the name contains a separator (or is empty).
   */
  lemma HashIsStableIff(name: Str, rest: seq<Str>)
    ensures (forall path :: WellBuilt(Cmd(path, [name] + rest)) ==> KeepsHash(Cmd(path, [name] + rest))) <==>
            HasSeparator(name) || name == []
  {
    if HasSeparator(name) || name == [] {
      forall path | WellBuilt(Cmd(path, [name] + rest)) ensures KeepsHash(Cmd(path, [name] + rest)) {
        CommandLineIsStableIff(Cmd(path, [name] + rest));
      }
    } else {
      PlainNameLosesItsHash(name, rest);
    }
  }

  // ---------------------------------------------------------------- in the daemon

  /** The first command of generation `g`, in order, with the given hash, is at or after position `i`. */
  ghost predicate FirstMatch(s: State, g: nat, hash: Str, i: nat) {
    && i < |s.cmds| && s.cmds[i].gen == g && HashOf(s.cmds[i].exe.args) == hash
    && forall j :: 0 <= j < i && s.cmds[j].gen == g ==> HashOf(s.cmds[j].exe.args) != hash
  }

  lemma {:induction false} FirstMatchExists(s: State, g: nat, hash: Str, c: nat) returns (i: nat)
    requires c < |s.cmds| && s.cmds[c].gen == g && HashOf(s.cmds[c].exe.args) == hash
    ensures i <= c && FirstMatch(s, g, hash, i)
    decreases c
  {
    if j: nat :| j < c && s.cmds[j].gen == g && HashOf(s.cmds[j].exe.args) == hash {
      i := FirstMatchExists(s, g, hash, j);
    } else {
      i := c;
    }
  }

  /**
   * A command configured by a path keeps its hash through all restarts, so looking its configured command line up
   * succeeds in every reachable state.
   */
  lemma ConfiguredCommandIsFound(s0: State, ls: seq<Step>, s: State, c: nat)
    requires Reached(s0, ls, s) && c < |s.cmds| && s.cmds[c].gen == s.Cur()
    requires s.cmds[c].entry.exe.args != [] && HasSeparator(s.cmds[c].entry.exe.args[0])
    ensures s.cmds[c].exe == s.cmds[c].entry.exe
    ensures exists i :: FirstMatch(s, s.Cur(), HashOf(s.cmds[c].entry.exe.args), i)
  {
    ReachedInv(s0, ls, s);
    assert CmdOk(s, c);
    var i := FirstMatchExists(s, s.Cur(), HashOf(s.cmds[c].entry.exe.args), c);
  }
}
