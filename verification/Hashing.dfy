/**
 * `HashCmd` (internal/tool/tools.go): the arguments are sorted, joined to the name with spaces, hashed with
 * 64-bit FNV-1a (draft-eastlake-fnv, section 2) and printed in hexadecimal.
 */
module Hashing {
  import opened Prelude
  import opened Limiting
  import opened Sorting
  import Exec

  const OFFSET: nat := 14695981039346656037
  const PRIME: nat := 1099511628211

  /** The inverse of the FNV prime modulo 2^64. */
  const INVERSE: nat := 14886173955864302971

  // ---------------------------------------------------------------- exclusive or

  function Xor(a: nat, b: nat, bits: nat): (r: nat)
    ensures r < Pow2(bits)
  {
    if bits == 0 then 0 else (if a % 2 != b % 2 then 1 else 0) + 2 * Xor(a / 2, b / 2, bits - 1)
  }

  lemma Halves(bit: nat, rest: nat)
    requires bit < 2
    ensures (bit + 2 * rest) / 2 == rest && (bit + 2 * rest) % 2 == bit
  {
  }

  lemma {:induction false} XorUndoes(a: nat, b: nat, bits: nat)
    requires a < Pow2(bits)
    ensures Xor(Xor(a, b, bits), b, bits) == a
    decreases bits
  {
    if bits > 0 {
      XorUndoes(a / 2, b / 2, bits - 1);
      Halves(if a % 2 != b % 2 then 1 else 0, Xor(a / 2, b / 2, bits - 1));
    }
  }

  lemma {:induction false} XorCommutes(a: nat, b: nat, bits: nat)
    ensures Xor(a, b, bits) == Xor(b, a, bits)
    decreases bits
  {
    if bits > 0 {
      XorCommutes(a / 2, b / 2, bits - 1);
    }
  }

  function Bit(n: nat, k: nat): nat {
    if k == 0 then n % 2 else Bit(n / 2, k - 1)
  }

  /** Exclusive or, bit by bit. */
  lemma {:induction false} XorBits(a: nat, b: nat, bits: nat, k: nat)
    requires k < bits
    ensures Bit(Xor(a, b, bits), k) == if Bit(a, k) == Bit(b, k) then 0 else 1
    decreases bits
  {
    Halves(if a % 2 != b % 2 then 1 else 0, Xor(a / 2, b / 2, bits - 1));
    if k > 0 {
      XorBits(a / 2, b / 2, bits - 1, k - 1);
    }
  }

  // ---------------------------------------------------------------- one byte

  function XorByte(a: nat, b: nat): nat {
    Xor(a, b, 8)
  }

  lemma XorByteFacts(a: nat, b: nat)
    requires a < 256
    ensures XorByte(a, b) < 256 && XorByte(XorByte(a, b), b) == a && XorByte(a, b) == XorByte(b, a)
  {
    EightBits();
    XorUndoes(a, b, 8);
    XorCommutes(a, b, 8);
  }

  function MixByte(h: nat, b: nat): nat {
    256 * (h / 256) + XorByte(h % 256, b)
  }

  /** One round of FNV-1a: exclusive or into the low byte, then multiply modulo 2^64. */
  function Round(h: nat, c: Byte): (r: nat)
    ensures r < TWO64
  {
    MixByte(h, c as int) * PRIME % TWO64
  }

  function Unround(h: nat, c: Byte): nat {
    MixByte(h * INVERSE % TWO64, c as int)
  }

  lemma EightBits()
    ensures Pow2(8) == 256
  {
  }

  lemma MixUndoes(h: nat, b: nat)
    ensures MixByte(MixByte(h, b), b) == h
    ensures h < TWO64 ==> MixByte(h, b) < TWO64
    ensures MixByte(h, b) % 256 == XorByte(h % 256, b)
  {
    XorByteFacts(h % 256, b);
    TwoParts(h / 256, XorByte(h % 256, b));
  }

  lemma TwoParts(q: nat, r: nat)
    requires r < 256
    ensures (256 * q + r) / 256 == q && (256 * q + r) % 256 == r
    ensures q < TWO64 / 256 ==> 256 * q + r < TWO64
  {
  }

  lemma Residue(x: int, k: int, r: int)
    requires 0 <= r < TWO64 && x == k * TWO64 + r
    ensures x % TWO64 == r
  {
  }

  /** Multiplication by the odd FNV prime is invertible modulo 2^64. */
  lemma PrimeInverts(h: nat)
    requires h < TWO64
    ensures h * PRIME % TWO64 * INVERSE % TWO64 == h
    ensures h * INVERSE % TWO64 * PRIME % TWO64 == h
  {
    assert PRIME * INVERSE == 887285111055 * TWO64 + 1;
    var p, q := h * PRIME / TWO64, h * INVERSE / TWO64;
    assert h * PRIME == p * TWO64 + h * PRIME % TWO64;
    assert h * INVERSE == q * TWO64 + h * INVERSE % TWO64;
    Residue(h * PRIME % TWO64 * INVERSE, 887285111055 * h - p * INVERSE, h);
    Residue(h * INVERSE % TWO64 * PRIME, 887285111055 * h - q * PRIME, h);
  }

  /** For a fixed byte a round is a bijection on the 64-bit states. */
  lemma RoundIsBijective(h: nat, c: Byte)
    requires h < TWO64
    ensures Unround(Round(h, c), c) == h
    ensures Unround(h, c) < TWO64 && Round(Unround(h, c), c) == h
  {
    var b := c as int;
    MixUndoes(h, b);
    PrimeInverts(MixByte(h, b));
    MixUndoes(h * INVERSE % TWO64, b);
    PrimeInverts(h);
  }

  /** For a fixed state a round is injective in the byte. */
  lemma RoundTellsBytes(h: nat, c: Byte, d: Byte)
    requires h < TWO64 && Round(h, c) == Round(h, d)
    ensures c == d
  {
    var low := h % 256;
    MixUndoes(h, c as int);
    MixUndoes(h, d as int);
    PrimeInverts(MixByte(h, c as int));
    PrimeInverts(MixByte(h, d as int));
    XorByteFacts(low, c as int);
    XorByteFacts(low, d as int);
    XorByteFacts(c as int, low);
    XorByteFacts(d as int, low);
  }

  // ---------------------------------------------------------------- whole keys

  function Fnv(h: nat, s: Str): nat {
    if s == [] then h else Round(Fnv(h, s[..|s| - 1]), s[|s| - 1])
  }

  lemma {:induction false} FnvInRange(h: nat, s: Str)
    requires h < TWO64
    ensures Fnv(h, s) < TWO64
  {
    if s != [] {
      FnvInRange(h, s[..|s| - 1]);
    }
  }

  /** Hashing in pieces is hashing the concatenation. */
  lemma {:induction false} FnvOfConcat(h: nat, a: Str, b: Str)
    ensures Fnv(h, a + b) == Fnv(Fnv(h, a), b)
    decreases |b|
  {
    if b == [] {
      assert a + b == a;
    } else {
      assert (a + b)[..|a + b| - 1] == a + b[..|b| - 1];
      FnvOfConcat(h, a, b[..|b| - 1]);
    }
  }

  /** A common suffix never merges two states. */
  lemma {:induction false} SuffixKeepsApart(g: nat, h: nat, s: Str)
    requires g < TWO64 && h < TWO64 && Fnv(g, s) == Fnv(h, s)
    ensures g == h
    decreases |s|
  {
    if s != [] {
      var t, c := s[..|s| - 1], s[|s| - 1];
      FnvInRange(g, t);
      FnvInRange(h, t);
      RoundIsBijective(Fnv(g, t), c);
      RoundIsBijective(Fnv(h, t), c);
      SuffixKeepsApart(g, h, t);
    }
  }

  // ---------------------------------------------------------------- hexadecimal

  const DIGITS: Str := "0123456789abcdef"

  /** `%x` of an unsigned number. */
  function Hex(n: nat): (r: Str)
    ensures r != []
  {
    if n < 16 then [DIGITS[n]] else Hex(n / 16) + [DIGITS[n % 16]]
  }

  lemma DigitsDiffer(i: nat, j: nat)
    requires i < 16 && j < 16 && DIGITS[i] == DIGITS[j]
    ensures i == j
  {
  }

  lemma {:induction false} HexIsInjective(m: nat, n: nat)
    requires Hex(m) == Hex(n)
    ensures m == n
    decreases m
  {
    if m < 16 && n < 16 {
      DigitsDiffer(m, n);
    } else if m >= 16 && n >= 16 {
      var a, b := Hex(m / 16), Hex(n / 16);
      assert a == Hex(m)[..|Hex(m)| - 1] && b == Hex(n)[..|Hex(n)| - 1];
      assert DIGITS[m % 16] == Hex(m)[|Hex(m)| - 1];
      DigitsDiffer(m % 16, n % 16);
      HexIsInjective(m / 16, n / 16);
    }
  }

  /** The value of a hexadecimal digit, by its character code. */
  function DigitValue(c: Byte): int {
    if '0' <= c <= '9' then c as int - '0' as int else c as int - 'a' as int + 10
  }

  predicate IsDigit(c: Byte) {
    '0' <= c <= '9' || 'a' <= c <= 'f'
  }

  /** The number that a string of digits stands for in base 16. */
  function Number(s: Str): int {
    if s == [] then 0 else 16 * Number(s[..|s| - 1]) + DigitValue(s[|s| - 1])
  }

  lemma DigitReadsBack(n: nat)
    requires n < 16
    ensures DigitValue(DIGITS[n]) == n && IsDigit(DIGITS[n])
  {
  }

  /** The printed form consists of lower-case digits that stand for the number, and begins with a zero for zero only. */
  lemma {:induction false} HexReadsBack(n: nat)
    ensures Number(Hex(n)) == n
    ensures forall i :: 0 <= i < |Hex(n)| ==> IsDigit(Hex(n)[i])
    ensures Hex(n)[0] == '0' ==> n == 0
  {
    DigitReadsBack(n % 16);
    if n >= 16 {
      HexReadsBack(n / 16);
      assert Hex(n)[..|Hex(n)| - 1] == Hex(n / 16);
    } else {
      assert Hex(n)[..0] == [] && Number([]) == 0;
    }
  }

  lemma FirstXor()
    ensures XorByte(37, 97) == 68
  {
    assert Xor(0, 0, 1) == 0 && Xor(0, 1, 2) == 1 && Xor(1, 3, 3) == 2 && Xor(2, 6, 4) == 4;
    assert Xor(4, 12, 5) == 8 && Xor(9, 24, 6) == 17 && Xor(18, 48, 7) == 34;
  }

  lemma FirstMix()
    ensures MixByte(OFFSET, 97) == 14695981039346656068
  {
    assert OFFSET == 256 * 57406175934947875 + 37;
    TwoParts(57406175934947875, 37);
    FirstXor();
    hide XorByte;
  }

  lemma FirstProduct()
    ensures 14695981039346656068 * PRIME % TWO64 == 0xaf63dc4c8601ec8c
  {
    Residue(14695981039346656068 * PRIME, 875948729822, 0xaf63dc4c8601ec8c);
  }

  /** The published values of 64-bit FNV-1a for the empty string and for "a". */
  lemma PublishedValues()
    ensures Fnv(OFFSET, "") == 0xcbf29ce484222325
    ensures Fnv(OFFSET, "a") == 0xaf63dc4c8601ec8c
  {
    var a: Str := "a";
    assert a[..0] == [];
    FirstMix();
    FirstProduct();
    hide MixByte;
  }

  // ---------------------------------------------------------------- the canonical key

  /** `strings.Join(tokens, " ")` */
  function Join(tokens: seq<Str>): Str {
    if tokens == [] then []
    else if |tokens| == 1 then tokens[0]
    else tokens[0] + " " + Join(tokens[1..])
  }

  function Split(s: Str): (r: seq<Str>)
    ensures r != []
  {
    if s == [] then [[]]
    else if s[0] == ' ' then [[]] + Split(s[1..])
    else
      var rest := Split(s[1..]);
      [[s[0]] + rest[0]] + rest[1..]
  }

  function Key(args: seq<Str>): Str
    requires args != []
  {
    Join([args[0]] + Sort(args[1..]))
  }

  function HashOf(args: seq<Str>): Str {
    if args == [] then [] else Hex(Fnv(OFFSET, Key(args)))
  }

  /** A nil command hashes to the empty string. */
  function CmdHashOf(cmd: Option<Exec.Cmd>): Str {
    if cmd.None? then [] else HashOf(cmd.value.args)
  }

  predicate SpaceFree(tokens: seq<Str>) {
    forall i :: 0 <= i < |tokens| ==> ' ' !in tokens[i]
  }

  lemma {:induction false} SplitToken(t: Str, rest: Str)
    requires ' ' !in t
    ensures Split(t) == [t]
    ensures Split(t + " " + rest) == [t] + Split(rest)
  {
    if t == [] {
      assert t + " " + rest == " " + rest;
    } else {
      SplitToken(t[1..], rest);
      assert (t + " " + rest)[1..] == t[1..] + " " + rest;
      assert t == [t[0]] + t[1..];
    }
  }

  /** On tokens without spaces `Split` undoes `Join`. */
  lemma {:induction false} SplitUndoesJoin(tokens: seq<Str>)
    requires tokens != [] && SpaceFree(tokens)
    ensures Split(Join(tokens)) == tokens
  {
    if |tokens| == 1 {
      SplitToken(tokens[0], []);
    } else {
      SplitUndoesJoin(tokens[1..]);
      SplitToken(tokens[0], Join(tokens[1..]));
    }
  }

  lemma SortedTokensSpaceFree(args: seq<Str>)
    requires args != [] && SpaceFree(args)
    ensures SpaceFree([args[0]] + Sort(args[1..]))
  {
    SortPermutes(args[1..]);
    var tokens := [args[0]] + Sort(args[1..]);
    forall i | 0 <= i < |tokens| ensures ' ' !in tokens[i] {
      if i > 0 { InMultiset(Sort(args[1..]), args[1..], i - 1); }
    }
  }

  /** The order of the arguments does not matter to the key, nor to the hash. */
  lemma HashIgnoresArgumentOrder(a: seq<Str>, b: seq<Str>)
    requires a != [] && b != [] && a[0] == b[0] && multiset(a[1..]) == multiset(b[1..])
    ensures Key(a) == Key(b) && HashOf(a) == HashOf(b)
  {
    SortIgnoresOrder(a[1..], b[1..]);
  }

  /** On tokens without spaces the key determines the name and the multiset of arguments, and nothing more. */
  lemma KeyDeterminesCommand(a: seq<Str>, b: seq<Str>)
    requires a != [] && b != [] && SpaceFree(a) && SpaceFree(b)
    ensures Key(a) == Key(b) <==> a[0] == b[0] && multiset(a[1..]) == multiset(b[1..])
  {
    SortIgnoresOrder(a[1..], b[1..]);
    if Key(a) == Key(b) {
      SortedTokensSpaceFree(a);
      SortedTokensSpaceFree(b);
      SplitUndoesJoin([a[0]] + Sort(a[1..]));
      SplitUndoesJoin([b[0]] + Sort(b[1..]));
      var s, t := [a[0]] + Sort(a[1..]), [b[0]] + Sort(b[1..]);
      assert s[0] == a[0] && t[0] == b[0] && s[1..] == Sort(a[1..]) && t[1..] == Sort(b[1..]);
    }
  }

  /** Two keys of the same length that differ in exactly one byte have different hash strings. */
  lemma OneByteChangesHash(p: Str, x: Byte, y: Byte, q: Str)
    requires x != y
    ensures Hex(Fnv(OFFSET, p + [x] + q)) != Hex(Fnv(OFFSET, p + [y] + q))
  {
    var h := Fnv(OFFSET, p);
    FnvInRange(OFFSET, p);
    FnvOfConcat(OFFSET, p + [x], q);
    FnvOfConcat(OFFSET, p + [y], q);
    FnvOfConcat(OFFSET, p, [x]);
    FnvOfConcat(OFFSET, p, [y]);
    assert Fnv(h, [x]) == Round(h, x) && Fnv(h, [y]) == Round(h, y);
    if Hex(Fnv(OFFSET, p + [x] + q)) == Hex(Fnv(OFFSET, p + [y] + q)) {
      HexIsInjective(Fnv(OFFSET, p + [x] + q), Fnv(OFFSET, p + [y] + q));
      SuffixKeepsApart(Round(h, x), Round(h, y), q);
      RoundTellsBytes(h, x, y);
    }
  }

  // ---------------------------------------------------------------- the streaming implementation

  /** `fnv.New64a()` */
  class Hasher {
    var state: nat

    constructor ()
      ensures state == OFFSET
    {
      state := OFFSET;
    }

    method Write(p: Str)
      modifies this
      ensures state == Fnv(old(state), p)
    {
      var i := 0;
      assert p[..0] == [];
      while i < |p|
        invariant 0 <= i <= |p|
        invariant state == Fnv(old(state), p[..i])
      {
        state := Round(state, p[i]);
        assert p[..i + 1][..|p[..i + 1]| - 1] == p[..i];
        i := i + 1;
      }
      assert p[..i] == p;
    }
  }

  lemma HashOfOne(args: seq<Str>)
    requires |args| == 1
    ensures HashOf(args) == Hex(Fnv(OFFSET, args[0]))
  {
    assert [args[0]] + Sort(args[1..]) == [args[0]];
  }

  lemma KeyOfMany(args: seq<Str>, sorted: seq<Str>)
    requires |args| > 1 && sorted == Sort(args[1..])
    ensures Key(args) == args[0] + " " + Join(sorted)
  {
    SortPermutes(args[1..]);
    assert |sorted| == |multiset(sorted)| == |args| - 1;
    var tokens: seq<Str> := [args[0]] + sorted;
    assert tokens[1..] == sorted;
  }

  /** Three writes, one after the other, hash the key. */
  lemma HashOfMany(args: seq<Str>, sorted: seq<Str>)
    requires |args| > 1 && sorted == Sort(args[1..])
    ensures HashOf(args) == Hex(Fnv(Fnv(Fnv(OFFSET, args[0]), " "), Join(sorted)))
  {
    KeyOfMany(args, sorted);
    FnvOfConcat(OFFSET, args[0], " ");
    FnvOfConcat(OFFSET, args[0] + " ", Join(sorted));
  }

  /** Copies and sorts the arguments, then writes name, space and joined arguments one after the other. */
  method HashCmd(cmd: Option<Exec.Cmd>) returns (hash: Str)
    ensures hash == CmdHashOf(cmd)
    ensures hash == "" <==> cmd.None? || cmd.value.args == []
  {
    if cmd.None? || |cmd.value.args| == 0 {
      return [];
    }
    var given := cmd.value.args;
    var hasher := new Hasher();
    if |given| == 1 {
      hasher.Write(given[0]);
      HashOfOne(given);
      return Hex(hasher.state);
    }
    var name := given[0];
    var args := new Str[|given| - 1](i requires 0 <= i < |given| - 1 => given[i + 1]);
    assert args[..] == given[1..];
    SortStrings(args);
    var joined := Join(args[..]);
    hasher.Write(name);
    hasher.Write(" ");
    hasher.Write(joined);
    HashOfMany(given, args[..]);
    return Hex(hasher.state);
  }
}
