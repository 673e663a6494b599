/** decode_utf8 of src/network.c, by section 4 of RFC 3629: malformed bytes become U+FFFD. */
module Utf8Repair {
  import opened Results

  const REPLACEMENT: seq<byte> := [0xEF, 0xBF, 0xBD]

  predicate Tail(b: byte) {
    0x80 <= b <= 0xBF
  }

  /** The bytes that may follow a lead byte. */
  predicate Second(lead: byte, b: byte) {
    && Tail(b)
    && (lead == 0xE0 ==> b >= 0xA0) && (lead == 0xED ==> b <= 0x9F)
    && (lead == 0xF0 ==> b >= 0x90) && (lead == 0xF4 ==> b <= 0x8F)
  }

  /** How many bytes a lead byte announces, 1 for one that leads nothing longer. */
  function Expected(lead: byte): (n: nat)
    ensures 1 <= n <= 4
  {
    if 0xC2 <= lead <= 0xDF then 2 else if 0xE0 <= lead <= 0xEF then 3 else if 0xF0 <= lead <= 0xF4 then 4 else 1
  }

  /** One well-formed sequence: UTF8-1 to UTF8-4 of the RFC. */
  predicate Char(s: seq<byte>) {
    || (|s| == 1 && s[0] <= 0x7F)
    || (|s| == 2 && 0xC2 <= s[0] <= 0xDF && Tail(s[1]))
    || (|s| == 3 && ((s[0] == 0xE0 && 0xA0 <= s[1] <= 0xBF) || (0xE1 <= s[0] <= 0xEC && Tail(s[1])) ||
                     (s[0] == 0xED && 0x80 <= s[1] <= 0x9F) || (0xEE <= s[0] <= 0xEF && Tail(s[1]))) && Tail(s[2]))
    || (|s| == 4 && ((s[0] == 0xF0 && 0x90 <= s[1] <= 0xBF) || (0xF1 <= s[0] <= 0xF3 && Tail(s[1])) ||
                     (s[0] == 0xF4 && 0x80 <= s[1] <= 0x8F)) && Tail(s[2]) && Tail(s[3]))
  }

  /** The length of the well-formed sequence at the front, 0 if there is none. */
  function CharLength(s: seq<byte>): nat
    ensures CharLength(s) <= |s| && (CharLength(s) > 0 ==> Char(s[..CharLength(s)]))
    ensures CharLength(s) == 0 ==> forall k :: 0 <= k <= |s| ==> !Char(s[..k])
  {
    if s == [] then NoChar(s); 0
    else
      var n := Expected(s[0]);
      if n <= |s| && Char(s[..n]) then n else NoChar(s); 0
  }

  lemma {:induction false} NoChar(s: seq<byte>)
    requires s == [] || Expected(s[0]) > |s| || !Char(s[..Expected(s[0])])
    ensures forall k :: 0 <= k <= |s| ==> !Char(s[..k])
  {
    forall k | 0 <= k <= |s| ensures !Char(s[..k]) {
      if k > 0 {
        LeadDecides(s[..k]);
      }
    }
  }

  lemma {:induction false} LeadDecides(c: seq<byte>)
    requires c != []
    ensures Char(c) ==> |c| == Expected(c[0])
  {
  }

  predicate WellFormed(s: seq<byte>)
    decreases |s|
  {
    s == [] || (CharLength(s) > 0 && WellFormed(s[CharLength(s)..]))
  }

  /** How far the bytes at the front fit the sequence their lead announces. */
  function Fitting(s: seq<byte>, used: nat): (n: nat)
    requires 1 <= used <= |s|
    ensures used <= n <= |s|
    decreases |s| - used
  {
    if used < Expected(s[0]) && used < |s| && (if used == 1 then Second(s[0], s[1]) else Tail(s[used]))
    then Fitting(s, used + 1) else used
  }

  function Repaired(s: seq<byte>): (r: seq<byte>)
    ensures |r| <= 3 * |s|
    decreases |s|
  {
    if s == [] then []
    else if CharLength(s) > 0 then s[..CharLength(s)] + Repaired(s[CharLength(s)..])
    else REPLACEMENT + Repaired(s[Fitting(s, 1)..])
  }

  // ----- What comes out -----

  /** A sequence ends where its lead says, whatever follows. */
  lemma {:induction false} CharFirst(c: seq<byte>, rest: seq<byte>)
    requires Char(c)
    ensures CharLength(c + rest) == |c|
  {
    LeadDecides(c);
    assert (c + rest)[..|c|] == c;
  }

  lemma {:induction false} WellFormedJoin(c: seq<byte>, rest: seq<byte>)
    requires Char(c) && WellFormed(rest)
    ensures WellFormed(c + rest)
  {
    CharFirst(c, rest);
    assert (c + rest)[|c|..] == rest;
  }

  /** The output is well-formed. */
  lemma {:induction false} RepairedWellFormed(s: seq<byte>)
    ensures WellFormed(Repaired(s))
    decreases |s|
  {
    if s != [] {
      if CharLength(s) > 0 {
        RepairedWellFormed(s[CharLength(s)..]);
        WellFormedJoin(s[..CharLength(s)], Repaired(s[CharLength(s)..]));
      } else {
        RepairedWellFormed(s[Fitting(s, 1)..]);
        WellFormedJoin(REPLACEMENT, Repaired(s[Fitting(s, 1)..]));
      }
    }
  }

  /** Repair changes a text exactly when it is malformed. */
  lemma {:induction false} RepairedExactly(s: seq<byte>)
    ensures Repaired(s) == s <==> WellFormed(s)
    decreases |s|
  {
    RepairedWellFormed(s);
    if s != [] && CharLength(s) > 0 {
      var n := CharLength(s);
      RepairedExactly(s[n..]);
      assert s == s[..n] + s[n..];
    }
  }

  lemma {:induction false} RepairedTwice(s: seq<byte>)
    ensures Repaired(Repaired(s)) == Repaired(s)
  {
    RepairedWellFormed(s);
    RepairedExactly(Repaired(s));
  }

  // ----- What is replaced -----

  /** u starts some well-formed sequence and is not all of it. */
  ghost predicate Opens(u: seq<byte>) {
    exists t :: t != [] && Char(u + t)
  }

  predicate Fits(s: seq<byte>, n: nat)
    requires 1 <= n <= |s|
  {
    n <= Expected(s[0]) && (n > 1 ==> Second(s[0], s[1])) && (n > 2 ==> Tail(s[2])) && (n > 3 ==> Tail(s[3]))
  }

  lemma {:induction false} FittingLongest(s: seq<byte>, used: nat)
    requires 1 <= used <= |s| && Fits(s, used)
    ensures Fits(s, Fitting(s, used))
    ensures forall m :: Fitting(s, used) < m <= |s| ==> !Fits(s, m)
    decreases |s| - used
  {
    if used < Expected(s[0]) && used < |s| && (if used == 1 then Second(s[0], s[1]) else Tail(s[used])) {
      FittingLongest(s, used + 1);
    }
  }

  function Pad(k: nat): (r: seq<byte>)
    ensures |r| == k && forall j :: 0 <= j < k ==> r[j] == 0x80
  {
    seq(k, j => 0x80)
  }

  /** What is missing from a sequence that fits so far. */
  function Missing(lead: byte, n: nat): (r: seq<byte>)
    requires 1 <= n < Expected(lead)
    ensures |r| == Expected(lead) - n
  {
    var second: byte := if lead == 0xE0 then 0xA0 else if lead == 0xF0 then 0x90 else 0x80;
    if n == 1 then [second] + Pad(Expected(lead) - 2) else Pad(Expected(lead) - n)
  }

  lemma {:induction false} Completed(u: seq<byte>)
    requires 1 <= |u| < Expected(u[0]) && Fits(u, |u|)
    ensures Opens(u)
  {
    var lead := u[0];
    var t := Missing(lead, |u|);
    var c := u + t;
    assert forall k :: 0 <= k < |c| ==> c[k] == if k < |u| then u[k] else t[k - |u|];
    assert Second(lead, c[1]);
    assert forall k :: 2 <= k < |c| ==> Tail(c[k]);
    WholeChar(c);
  }

  lemma {:induction false} OpensFits(u: seq<byte>)
    requires u != [] && Opens(u)
    ensures |u| < Expected(u[0]) && Fits(u, |u|)
  {
    var t :| t != [] && Char(u + t);
    var c := u + t;
    LeadDecides(c);
    assert c[0] == u[0];
    assert |u| > 1 ==> c[1] == u[1];
    assert |u| > 2 ==> c[2] == u[2];
  }

  lemma {:induction false} FitsPrefix(s: seq<byte>, n: nat)
    requires 1 <= n <= |s|
    ensures Fits(s, n) <==> Fits(s[..n], n)
  {
  }

  /** A whole sequence that fits is well-formed, unless its lead stands alone. */
  lemma {:induction false} WholeChar(u: seq<byte>)
    requires u != [] && |u| == Expected(u[0]) && Fits(u, |u|) && |u| > 1
    ensures Char(u)
  {
  }

  /** Each replacement stands for a single byte or for the longest proper beginning of a well-formed
      sequence. */
  lemma {:induction false} ReplacedPart(s: seq<byte>)
    requires s != [] && CharLength(s) == 0
    ensures var n := Fitting(s, 1);
      && (n > 1 ==> Opens(s[..n]))
      && forall m :: n < m <= |s| ==> !Opens(s[..m]) && !Char(s[..m])
  {
    FittingLongest(s, 1);
    var n := Fitting(s, 1);
    hide Fitting, Opens, Char;
    FitsPrefix(s, n);
    if n > 1 {
      if n == Expected(s[0]) {
        WholeChar(s[..n]);
        assert false;
      }
      Completed(s[..n]);
    }
    forall m | n < m <= |s|
      ensures !Opens(s[..m])
    {
      FitsPrefix(s, m);
      if Opens(s[..m]) {
        OpensFits(s[..m]);
        assert false;
      }
    }
  }

  // ----- The function -----

  lemma {:induction false} RepairedStep(s: seq<byte>, i: nat, n: nat, part: seq<byte>)
    requires i < |s| && n <= |s| - i && 0 < n
    requires if CharLength(s[i..]) > 0 then n == CharLength(s[i..]) && part == s[i..i + n]
             else n == Fitting(s[i..], 1) && part == REPLACEMENT
    ensures Repaired(s[i..]) == part + Repaired(s[i + n..]) && |part| <= 3 * n
  {
    assert s[i..][..n] == s[i..i + n] && s[i..][n..] == s[i + n..];
  }

  /** The bytes at position i that fit the lead there. */
  method CountFitting(s: seq<byte>, i: nat) returns (used: nat)
    requires i < |s|
    ensures used == Fitting(s[i..], 1) && 1 <= used <= |s| - i
  {
    var lead := s[i];
    var expected := Expected(lead);
    used := 1;
    while used < expected && i + used < |s|
      invariant 1 <= used <= |s| - i && Fitting(s[i..], used) == Fitting(s[i..], 1)
    {
      var c := s[i + used];
      assert s[i..][used] == c;
      if c < 0x80 || c > 0xBF {
        break;
      }
      if used == 1 && ((lead == 0xE0 && c < 0xA0) || (lead == 0xED && c > 0x9F) ||
                       (lead == 0xF0 && c < 0x90) || (lead == 0xF4 && c > 0x8F)) {
        break;
      }
      used := used + 1;
    }
  }

  /** Two indexes run over the input and a buffer of three bytes per input byte. */
  method DecodeUtf8(s: seq<byte>) returns (out: array<byte>, length: nat)
    ensures fresh(out) && out.Length == 3 * |s| + 1
    ensures length <= 3 * |s| && out[length] == 0
    ensures out[..length] == Repaired(s) && WellFormed(out[..length])
  {
    hide Char, WellFormed, Fitting, Repaired, CharLength;
    out := new byte[3 * |s| + 1](_ => 0);
    var i, j := 0, 0;
    assert s[0..] == s;
    while i < |s|
      invariant i <= |s| && 0 <= j <= 3 * i
      invariant Repaired(s) == out[..j] + Repaired(s[i..])
    {
      var count := CharLength(s[i..]);
      var part, used;
      if count > 0 {
        CharRange(s[i..]);
        part, used := s[i..i + count], count;
      } else {
        used := CountFitting(s, i);
        part := REPLACEMENT;
      }
      RepairedStep(s, i, used, part);
      assert j + |part| <= 3 * (i + used);
      ghost var was := out[..j];
      Copy(out, j, part);
      assert out[..j + |part|] == was + part;
      Regroup(Repaired(s), was, part, Repaired(s[i..]), Repaired(s[i + used..]));
      i, j := i + used, j + |part|;
    }
    RepairedNone(s, i);
    RepairedWellFormed(s);
    assert out[..j] + [] == out[..j];
    out[j] := 0;
    length := j;
  }

  lemma {:induction false} Regroup(total: seq<byte>, was: seq<byte>, part: seq<byte>, tail: seq<byte>, rest: seq<byte>)
    requires total == was + tail && tail == part + rest
    ensures total == was + part + rest
  {
  }

  lemma {:induction false} CharRange(s: seq<byte>)
    ensures CharLength(s) <= |s|
  {
  }

  lemma {:induction false} RepairedNone(s: seq<byte>, i: nat)
    requires i == |s|
    ensures Repaired(s[i..]) == []
  {
  }

  /** memcpy. */
  method Copy(out: array<byte>, at: nat, part: seq<byte>)
    requires at + |part| <= out.Length
    modifies out
    ensures out[..at] == old(out[..at]) && out[at..at + |part|] == part
    ensures out[at + |part|..] == old(out[at + |part|..])
  {
    var k := 0;
    while k < |part|
      invariant k <= |part| && out[..at] == old(out[..at]) && out[at..at + k] == part[..k]
      invariant out[at + k..] == old(out[at + k..])
    {
      out[at + k] := part[k];
      k := k + 1;
    }
  }
}
