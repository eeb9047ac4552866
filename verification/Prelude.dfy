/** Byte strings, and a few facts about sequences that several modules need. */
module Prelude {

  /** A Go string is a sequence of bytes; a byte is written as the character with that code. */
  type Byte = c: char | c as int < 256 witness 'a'
  type Str = seq<Byte>

  datatype Option<+T> = None | Some(value: T)

  /** The annotations of a command: a Go map, possibly nil. */
  type Annotations = Option<map<Str, Str>>

  /** Reading a Go map, nil or not, at a missing key gives the empty string. */
  function Label(a: Annotations, key: Str): Str {
    if a.Some? && key in a.value then a.value[key] else ""
  }

  ghost predicate NoDup<T>(s: seq<T>) {
    forall i, j :: 0 <= i < j < |s| ==> s[i] != s[j]
  }

  /** Pigeonhole: a repetition-free sequence over a finite set is no longer than the set. */
  lemma {:induction false} NoDupFits<T>(s: seq<T>, universe: set<T>)
    requires NoDup(s)
    requires forall i :: 0 <= i < |s| ==> s[i] in universe
    ensures |s| <= |universe|
  {
    if s != [] {
      var rest := s[..|s| - 1];
      NoDupFits(rest, universe - {s[|s| - 1]});
    }
  }
}
