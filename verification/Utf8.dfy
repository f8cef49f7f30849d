/** UTF-8 validity as section 4 of RFC 3629 defines it, and cutting valid text short. */
module Utf8 {
  import opened Common

  type byte = b: int | 0 <= b < 256

  predicate In(b: byte, lo: byte, hi: byte) { lo <= b <= hi }

  predicate Tail(b: byte) { In(b, 0x80, 0xBF) }

  /** The length of the well-formed character s starts with, or 0 if there is none. */
  function RuneLen(s: seq<byte>): (n: nat)
    ensures n <= 4 && n <= |s|
  {
    if s == [] then 0
    else if s[0] <= 0x7F then 1
    else if |s| < 2 then 0
    else if In(s[0], 0xC2, 0xDF) && Tail(s[1]) then 2
    else if |s| < 3 || !Tail(s[2]) then 0
    else if s[0] == 0xE0 && In(s[1], 0xA0, 0xBF) then 3
    else if (In(s[0], 0xE1, 0xEC) || In(s[0], 0xEE, 0xEF)) && Tail(s[1]) then 3
    else if s[0] == 0xED && In(s[1], 0x80, 0x9F) then 3
    else if |s| < 4 || !Tail(s[3]) then 0
    else if s[0] == 0xF0 && In(s[1], 0x90, 0xBF) then 4
    else if In(s[0], 0xF1, 0xF3) && Tail(s[1]) then 4
    else if s[0] == 0xF4 && In(s[1], 0x80, 0x8F) then 4
    else 0
  }

  predicate Valid(s: seq<byte>)
  {
    s == [] || (RuneLen(s) > 0 && Valid(s[RuneLen(s)..]))
  }

  /** The length of the longest valid prefix of s that is no longer than n. */
  function LongestValid(s: seq<byte>, n: nat): (m: nat)
    requires n <= |s|
    ensures m <= n && Valid(s[..m])
    ensures forall k :: m < k <= n ==> !Valid(s[..k])
  {
    if Valid(s[..n]) then n else LongestValid(s, n - 1)
  }

  /** The last character boundary of s at or before n. */
  function Boundary(s: seq<byte>, n: nat): nat
    requires n <= |s|
    decreases |s|
  {
    var r := RuneLen(s);
    if r == 0 || r > n then 0 else r + Boundary(s[r..], n - r)
  }

  lemma PrefixRune(s: seq<byte>, m: nat)
    requires RuneLen(s) <= m <= |s| && RuneLen(s) > 0
    ensures RuneLen(s[..m]) == RuneLen(s)
  {
  }

  /** A character followed by valid text is valid text. */
  lemma ValidPrepend(s: seq<byte>, k: nat)
    requires 0 < RuneLen(s) && RuneLen(s) + k <= |s| && Valid(s[RuneLen(s)..][..k])
    ensures Valid(s[..RuneLen(s) + k])
  {
    var r := RuneLen(s);
    PrefixRune(s, r + k);
    assert s[..r + k][r..] == s[r..][..k];
  }

  lemma {:induction false} BoundaryIsValid(s: seq<byte>, n: nat)
    requires n <= |s|
    ensures Boundary(s, n) <= n && Valid(s[..Boundary(s, n)])
    decreases |s|
  {
    var r := RuneLen(s);
    if r != 0 && r <= n {
      BoundaryIsValid(s[r..], n - r);
      ValidPrepend(s, Boundary(s[r..], n - r));
    }
  }

  lemma {:induction false} BoundaryIsNear(s: seq<byte>, n: nat)
    requires Valid(s) && n <= |s|
    ensures Boundary(s, n) >= n - 3
    decreases |s|
  {
    var r := RuneLen(s);
    if r != 0 && r <= n { BoundaryIsNear(s[r..], n - r); }
  }

  /** Cutting valid text at n loses at most three bytes more. */
  lemma CutLosesLittle(s: seq<byte>, n: nat)
    requires Valid(s) && n <= |s|
    ensures n - 3 <= LongestValid(s, n) <= n
  {
    BoundaryIsValid(s, n);
    BoundaryIsNear(s, n);
  }

  // ----------------------------------------------- valid text is encoded text

  /** A Unicode scalar value: any code point but the surrogates. */
  type Scalar = u: int | 0 <= u < 0xD800 || 0xE000 <= u < 0x11_0000

  /** The encoding of one character, as the table of section 3 of RFC 3629 gives it. */
  function EncodeRune(u: Scalar): (s: seq<byte>)
    ensures 1 <= |s| <= 4
  {
    if u < 0x80 then [u]
    else if u < 0x800 then [0xC0 + u / 64, 0x80 + u % 64]
    else if u < 0x1_0000 then [0xE0 + u / 4096, 0x80 + u / 64 % 64, 0x80 + u % 64]
    else [0xF0 + u / 262144, 0x80 + u / 4096 % 64, 0x80 + u / 64 % 64, 0x80 + u % 64]
  }

  function EncodeAll(us: seq<Scalar>): seq<byte>
  {
    if us == [] then [] else EncodeRune(us[0]) + EncodeAll(us[1..])
  }

  /** The parts of a number that the bytes of its encoding carry. */
  lemma Sixes(a: nat, b: nat, c: nat, d: nat)
    requires b < 64 && c < 64 && d < 64
    ensures var u := a * 262144 + b * 4096 + c * 64 + d;
      && u / 262144 == a && u / 4096 == a * 64 + b && u / 64 == a * 4096 + b * 64 + c
      && u / 4096 % 64 == b && u / 64 % 64 == c && u % 64 == d
  {
    var u := a * 262144 + b * 4096 + c * 64 + d;
    assert u / 64 == a * 4096 + b * 64 + c && u % 64 == d;
    assert u / 4096 == a * 64 + b;
  }

  /** An encoded character is recognised whatever follows it. */
  lemma RuneOfEncoded(u: Scalar, rest: seq<byte>)
    ensures RuneLen(EncodeRune(u) + rest) == |EncodeRune(u)|
  {
    Sixes(u / 262144, u / 4096 % 64, u / 64 % 64, u % 64);
    RuneOfBytes(EncodeRune(u), rest);
    assert RuneLen(EncodeRune(u)) == |EncodeRune(u)|;
  }

  lemma RuneOfBytes(s: seq<byte>, rest: seq<byte>)
    requires s != [] && RuneLen(s) == |s|
    ensures RuneLen(s + rest) == |s|
  {
  }

  lemma TwoBytes(a: byte, b: byte) returns (u: Scalar)
    requires RuneLen([a, b]) == 2
    ensures EncodeRune(u) == [a, b]
  {
    u := (a as int - 0xC0) * 64 + (b as int - 0x80);
  }

  lemma ThreeBytes(a: byte, b: byte, c: byte) returns (u: Scalar)
    requires RuneLen([a, b, c]) == 3
    ensures EncodeRune(u) == [a, b, c]
  {
    Sixes(0, a as int - 0xE0, b as int - 0x80, c as int - 0x80);
    u := (a as int - 0xE0) * 4096 + (b as int - 0x80) * 64 + (c as int - 0x80);
  }

  lemma FourBytes(a: byte, b: byte, c: byte, d: byte) returns (u: Scalar)
    requires RuneLen([a, b, c, d]) == 4
    ensures EncodeRune(u) == [a, b, c, d]
  {
    Sixes(a as int - 0xF0, b as int - 0x80, c as int - 0x80, d as int - 0x80);
    u := (a as int - 0xF0) * 262144 + (b as int - 0x80) * 4096 + (c as int - 0x80) * 64 + (d as int - 0x80);
  }

  /** What is recognised as a character encodes one. */
  lemma EncodedOfRune(s: seq<byte>) returns (u: Scalar)
    requires RuneLen(s) > 0
    ensures EncodeRune(u) == s[..RuneLen(s)]
  {
    PrefixRune(s, RuneLen(s));
    if RuneLen(s) == 1 {
      u := s[0];
    } else if RuneLen(s) == 2 {
      assert s[..2] == [s[0], s[1]];
      u := TwoBytes(s[0], s[1]);
    } else if RuneLen(s) == 3 {
      assert s[..3] == [s[0], s[1], s[2]];
      u := ThreeBytes(s[0], s[1], s[2]);
    } else {
      assert s[..4] == [s[0], s[1], s[2], s[3]];
      u := FourBytes(s[0], s[1], s[2], s[3]);
    }
  }

  lemma {:induction false} EncodedIsValid(us: seq<Scalar>)
    ensures Valid(EncodeAll(us))
  {
    if us != [] {
      EncodedIsValid(us[1..]);
      RuneOfEncoded(us[0], EncodeAll(us[1..]));
      assert EncodeAll(us)[|EncodeRune(us[0])|..] == EncodeAll(us[1..]);
    }
  }

  lemma EncodeCons(u: Scalar, us: seq<Scalar>, s: seq<byte>, n: nat)
    requires n <= |s| && EncodeRune(u) == s[..n] && EncodeAll(us) == s[n..]
    ensures EncodeAll([u] + us) == s
  {
    assert ([u] + us)[1..] == us;
    assert s == s[..n] + s[n..];
  }

  lemma {:induction false} ValidIsEncoded(s: seq<byte>) returns (us: seq<Scalar>)
    requires Valid(s)
    ensures EncodeAll(us) == s
    decreases |s|
  {
    if s == [] {
      us := [];
    } else {
      var u := EncodedOfRune(s);
      var rest := ValidIsEncoded(s[RuneLen(s)..]);
      us := [u] + rest;
      EncodeCons(u, rest, s, RuneLen(s));
    }
  }

  /** The byte-pattern test accepts exactly the encodings of character sequences, and only the shortest forms. */
  lemma ValidExactly(s: seq<byte>)
    ensures Valid(s) <==> exists us :: s == EncodeAll(us)
  {
    if Valid(s) { var us := ValidIsEncoded(s); }
    forall us | s == EncodeAll(us) ensures Valid(s) { EncodedIsValid(us); }
  }
}
