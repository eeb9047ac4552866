/** The parts of Go's `path/filepath` and `os/exec` that give a command its name and arguments. */
module Exec {
  import opened Prelude

  predicate HasSeparator(s: Str) {
    '/' in s
  }

  function TrimSlashes(s: Str): (r: Str)
    ensures r == [] || r[|r| - 1] != '/'
  {
    if s != [] && s[|s| - 1] == '/' then TrimSlashes(s[..|s| - 1]) else s
  }

  function AfterLastSlash(s: Str): (r: Str)
    ensures s != [] && s[|s| - 1] != '/' ==> r != []
    ensures !HasSeparator(r)
  {
    if s == [] || s[|s| - 1] == '/' then [] else AfterLastSlash(s[..|s| - 1]) + [s[|s| - 1]]
  }

  /** `filepath.Base` */
  function Base(path: Str): (r: Str)
    ensures r != []
    ensures HasSeparator(r) ==> r == "/"
  {
    if path == [] then "."
    else
      var t := TrimSlashes(path);
      if t == [] then "/" else AfterLastSlash(t)
  }

  ghost predicate AllSlashes(s: Str) {
    forall i :: 0 <= i < |s| ==> s[i] == '/'
  }

  /** `path[i..j]` is free of separators, follows one or begins the path, and only separators follow it. */
  ghost predicate IsLastElement(path: Str, i: int, j: int) {
    && 0 <= i < j <= |path| && !HasSeparator(path[i..j])
    && (i > 0 ==> path[i - 1] == '/') && AllSlashes(path[j..])
  }

  lemma {:induction false} TrimFacts(s: Str)
    ensures |TrimSlashes(s)| <= |s|
    ensures TrimSlashes(s) == s[..|TrimSlashes(s)|] && AllSlashes(s[|TrimSlashes(s)|..])
  {
    if s != [] && s[|s| - 1] == '/' {
      var n := |TrimSlashes(s[..|s| - 1])|;
      TrimFacts(s[..|s| - 1]);
      assert s[..|s| - 1][..n] == s[..n];
      assert s[n..] == s[..|s| - 1][n..] + [s[|s| - 1]];
    }
  }

  lemma {:induction false} AfterLastFacts(s: Str)
    ensures |AfterLastSlash(s)| <= |s|
    ensures s[|s| - |AfterLastSlash(s)|..] == AfterLastSlash(s)
    ensures |AfterLastSlash(s)| < |s| ==> s[|s| - |AfterLastSlash(s)| - 1] == '/'
  {
    if s != [] && s[|s| - 1] != '/' {
      AfterLastFacts(s[..|s| - 1]);
    }
  }

  /** `Base` is the last element of the path, "." for the empty path, and "/" for one that consists of separators. */
  lemma BaseIsTheLastElement(path: Str)
    ensures path == [] ==> Base(path) == "."
    ensures path != [] && AllSlashes(path) ==> Base(path) == "/"
    ensures !AllSlashes(path) ==> exists i, j :: IsLastElement(path, i, j) && Base(path) == path[i..j]
  {
    TrimFacts(path);
    var t := TrimSlashes(path);
    if t == [] {
      assert path[0..] == path;
    } else {
      assert path[|t| - 1] == t[|t| - 1];
      AfterLastFacts(t);
      var i, j := |t| - |AfterLastSlash(t)|, |t|;
      assert path[i..j] == path[..j][i..] == t[i..];
      assert IsLastElement(path, i, j);
    }
  }

  lemma {:induction false} PlainTrims(s: Str)
    requires !HasSeparator(s)
    ensures TrimSlashes(s) == s && AfterLastSlash(s) == s
  {
    if s != [] {
      PlainTrims(s[..|s| - 1]);
      assert s[|s| - 1] in s;
      assert s == s[..|s| - 1] + [s[|s| - 1]];
    }
  }

  lemma PlainIsItsBase(name: Str)
    ensures !HasSeparator(name) && name != [] ==> Base(name) == name
  {
    if !HasSeparator(name) {
      PlainTrims(name);
    }
  }

  /** `exec.Cmd`, as far as the daemon looks into it. */
  datatype Cmd = Cmd(path: Str, args: seq<Str>)

  /** `exec.Command(name, rest...)`; `look` is the path it ends up with when it consults `exec.LookPath`. */
  function Command(name: Str, rest: seq<Str>, look: Str): Cmd {
    Cmd(if Base(name) == name then look else name, [name] + rest)
  }

  /** What `exec.Command` makes of a lookup: the name itself when it fails, else a path inside some directory. */
  predicate LookOk(name: Str, look: Str) {
    look == name || (!HasSeparator(name) && HasSeparator(look))
  }

  /** `exec.Command(cmd.Path, cmd.Args[1:]...)`, the command line that `update` installs. */
  function Rebuild(c: Cmd, look: Str): Cmd
    requires c.args != []
  {
    Command(c.path, c.args[1..], look)
  }

  /** A command line as `exec.Command` leaves it. */
  predicate WellBuilt(c: Cmd) {
    && c.args != []
    && if Base(c.args[0]) == c.args[0] then LookOk(c.args[0], c.path) else c.path == c.args[0]
  }
}
