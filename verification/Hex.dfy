/** The HTTP-facing form of a job id: 32 lowercase hex digits (src/records.cc). */
module Hex {
  import opened Bytes
  import opened Options
  import opened Jobs

  function Pow16(n: nat): (p: nat)
    ensures p >= 1
  {
    if n == 0 then 1 else 16 * Pow16(n - 1)
  }

  function Digit(d: nat): char
    requires d < 16
  {
    if d < 10 then '0' + d as char else 'a' + (d - 10) as char
  }

  predicate IsDigit(c: char) { '0' <= c <= '9' || 'a' <= c <= 'f' }

  function DigitValue(c: char): (d: nat)
    requires IsDigit(c)
    ensures d < 16
  {
    if c <= '9' then (c - '0') as nat else (c - 'a') as nat + 10
  }

  /** The n low hex digits of v, most significant first. */
  function ToHex(v: nat, n: nat): (s: string)
    ensures |s| == n
  {
    if n == 0 then [] else ToHex(v / 16, n - 1) + [Digit(v % 16)]
  }

  predicate AllDigits(s: string) { forall i :: 0 <= i < |s| ==> IsDigit(s[i]) }

  function Value(s: string): (v: nat)
    requires AllDigits(s)
    ensures v < Pow16(|s|)
  {
    if s == [] then 0 else 16 * Value(s[..|s| - 1]) + DigitValue(s[|s| - 1])
  }

  lemma {:induction false} ValueOfHex(v: nat, n: nat)
    requires v < Pow16(n)
    ensures AllDigits(ToHex(v, n)) && Value(ToHex(v, n)) == v
  {
    if n > 0 {
      var front := ToHex(v / 16, n - 1);
      assert v / 16 < Pow16(n - 1);
      ValueOfHex(v / 16, n - 1);
      var s := ToHex(v, n);
      assert s[..n - 1] == front && s[n - 1] == Digit(v % 16);
      assert DigitValue(Digit(v % 16)) == v % 16;
    }
  }

  lemma {:induction false} HexOfValue(s: string)
    requires AllDigits(s)
    ensures ToHex(Value(s), |s|) == s
  {
    if s != [] {
      var n := |s| - 1;
      HexOfValue(s[..n]);
      assert Value(s) / 16 == Value(s[..n]) && Value(s) % 16 == DigitValue(s[n]);
      assert Digit(DigitValue(s[n])) == s[n];
      assert s == s[..n] + [s[n]];
    }
  }

  lemma Sixteen()
    ensures Pow16(16) == U64
  {
    assert Pow16(4) == 0x1_0000 by { assert Pow16(2) == 256; }
    assert Pow16(8) == 0x1_0000_0000 by { assert Pow16(6) == 0x100_0000; }
    assert Pow16(12) == 0x1_0000_0000_0000 by { assert Pow16(10) == 0x100_0000_0000; }
    assert Pow16(14) == 0x100_0000_0000_0000;
  }

  function IdToHex(id: JobId): string { ToHex(id.origin, 16) + ToHex(id.nonce, 16) }

  /** What from_hex accepts, and the id it denotes. */
  function ParseId(s: string): Option<JobId> {
    if |s| == 32 && AllDigits(s) then
      assert AllDigits(s[..16]) && AllDigits(s[16..]);
      Some(JobId(Value(s[..16]), Value(s[16..])))
    else None
  }

  /** One half: a digit shifts the accumulator by four bits, any other character rejects. */
  method ReadHalf(s: string, from: nat) returns (r: Option<nat>)
    requires from + 16 <= |s|
    ensures r.Some? <==> AllDigits(s[from..from + 16])
    ensures r.Some? ==> r.value == Value(s[from..from + 16])
  {
    var v := 0;
    for i := 0 to 16
      invariant AllDigits(s[from..from + i]) && v == Value(s[from..from + i])
    {
      var c := s[from + i];
      ghost var t := s[from..from + i + 1];
      assert t[..i] == s[from..from + i] && t[i] == c;
      if !IsDigit(c) {
        assert s[from..from + 16][i] == c;
        return None;
      }
      assert t == s[from..from + i] + [c] && AllDigits(t);
      v := v * 16 + DigitValue(c);
    }
    r := Some(v);
  }

  method FromHex(s: string) returns (r: Option<JobId>)
    ensures r == ParseId(s)
  {
    if |s| != 32 { return None; }
    assert s[..16] == s[0..16] && s[16..] == s[16..32];
    assert AllDigits(s) ==> AllDigits(s[..16]) && AllDigits(s[16..]);
    assert s == s[..16] + s[16..];
    var origin := ReadHalf(s, 0);
    if origin.None? { return None; }
    var nonce := ReadHalf(s, 16);
    if nonce.None? { return None; }
    r := Some(JobId(origin.value, nonce.value));
  }

  /** Ids and 32-digit lowercase hex strings are in bijection. */
  lemma HexBijection(id: JobId, s: string)
    requires id.origin < U64 && id.nonce < U64
    ensures ParseId(IdToHex(id)) == Some(id)
    ensures ParseId(s).Some? <==> |s| == 32 && AllDigits(s)
    ensures ParseId(s).Some? ==>
        IdToHex(ParseId(s).value) == s && ParseId(s).value.origin < U64 && ParseId(s).value.nonce < U64
  {
    Sixteen();
    ValueOfHex(id.origin, 16);
    ValueOfHex(id.nonce, 16);
    var h := IdToHex(id);
    assert h[..16] == ToHex(id.origin, 16) && h[16..] == ToHex(id.nonce, 16);
    if ParseId(s).Some? {
      HexOfValue(s[..16]);
      HexOfValue(s[16..]);
      assert s == s[..16] + s[16..];
    }
  }
}
