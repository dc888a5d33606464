/** Little-endian byte helpers shared by the record codec, the wire codec and the log
    (src/bytes.h). Integers are unbounded here; a width is a byte count, and a value fits
    a width when it is below Pow256 of it. */
module Bytes {

  type byte = b: int | 0 <= b < 256

  const U16 := 0x1_0000
  const U32 := 0x1_0000_0000
  const U64 := 0x1_0000_0000_0000_0000

  /** 256^n: the number of values an n-byte field can hold. */
  function Pow256(n: nat): (p: nat)
    ensures p >= 1
  {
    if n == 0 then 1 else 256 * Pow256(n - 1)
  }

  /** The n low-order bytes of v, least significant first. */
  function PutLE(v: nat, n: nat): (s: seq<byte>)
    ensures |s| == n
  {
    if n == 0 then [] else [v % 256] + PutLE(v / 256, n - 1)
  }

  function GetLE(s: seq<byte>): (v: nat)
    ensures v < Pow256(|s|)
  {
    if |s| == 0 then 0 else s[0] + 256 * GetLE(s[1..])
  }

  /** Reading a field back yields the value modulo its width: nothing is lost when it fits. */
  lemma {:induction false} PutGetLE(v: nat, n: nat)
    ensures GetLE(PutLE(v, n)) == v % Pow256(n)
    ensures v < Pow256(n) ==> GetLE(PutLE(v, n)) == v
  {
    if n > 0 {
      PutGetLE(v / 256, n - 1);
      assert PutLE(v, n)[1..] == PutLE(v / 256, n - 1);
      ModSplit(v, Pow256(n - 1));
      DivBelow(v, Pow256(n - 1));
    }
  }

  /** Writing what was read restores the bytes, so the two are mutually inverse. */
  lemma {:induction false} GetPutLE(s: seq<byte>)
    ensures PutLE(GetLE(s), |s|) == s
  {
    if |s| > 0 {
      GetPutLE(s[1..]);
      assert GetLE(s) % 256 == s[0] && GetLE(s) / 256 == GetLE(s[1..]);
      assert s == [s[0]] + s[1..];
    }
  }

  lemma ModSplit(v: nat, p: nat)
    requires p >= 1
    ensures v % (256 * p) == v % 256 + 256 * ((v / 256) % p)
  {
    var q := v / 256;
    var k := q / p;
    var r := v % 256 + 256 * (q % p);
    assert v == 256 * q + v % 256 && q == p * k + q % p;
    assert v == (256 * p) * k + r by {
      assert 256 * q == 256 * (p * k) + 256 * (q % p);
      assert 256 * (p * k) == (256 * p) * k;
    }
    assert 0 <= r < 256 * p;
    ModUnique(v, 256 * p, k, r);
  }

  lemma ModUnique(v: int, m: int, k: int, r: int)
    requires m > 0 && 0 <= r < m && v == m * k + r
    ensures v % m == r && v / m == k
  {
    var k', r' := v / m, v % m;
    assert v == m * k' + r' && 0 <= r' < m;
    assert m * (k - k') == r' - r by {
      assert m * (k - k') == m * k - m * k';
    }
    if k > k' {
      assert m * (k - k') >= m by { MulMono(m, 1, k - k'); }
    } else if k < k' {
      assert m * (k' - k) >= m by { MulMono(m, 1, k' - k); }
    }
  }

  lemma MulMono(m: int, a: int, b: int)
    requires m >= 0 && a <= b
    ensures m * a <= m * b
  {
  }

  lemma DivBelow(v: nat, p: nat)
    requires p >= 1
    ensures v < 256 * p ==> v / 256 < p
  {
  }

  /** The widths the program uses. */
  lemma Widths()
    ensures Pow256(1) == 256 && Pow256(2) == U16 && Pow256(4) == U32 && Pow256(8) == U64
  {
    assert Pow256(2) == 256 * Pow256(1);
    assert Pow256(3) == 256 * Pow256(2);
    assert Pow256(4) == 256 * Pow256(3);
    assert Pow256(5) == 256 * Pow256(4);
    assert Pow256(6) == 256 * Pow256(5);
    assert Pow256(7) == 256 * Pow256(6);
    assert Pow256(8) == 256 * Pow256(7);
  }

  // ---- The loops of the source -------------------------------------------------------------------

  /** put_u32 and put_u64: append the bytes of v one shift at a time. */
  method AppendLE(buf: seq<byte>, v: nat, n: nat) returns (out: seq<byte>)
    ensures out == buf + PutLE(v, n)
  {
    out := buf;
    var rest := v;
    for i := 0 to n
      invariant out + PutLE(rest, n - i) == buf + PutLE(v, n)
    {
      assert out + PutLE(rest, n - i) == (out + [rest % 256]) + PutLE(rest / 256, n - i - 1);
      out := out + [rest % 256];
      rest := rest / 256;
    }
  }

  /** get_u64: accumulate from the most significant byte down. */
  method ReadLE(b: seq<byte>, off: nat, n: nat) returns (v: nat)
    requires off + n <= |b|
    ensures v == GetLE(b[off..off + n])
  {
    v := 0;
    var i := n;
    while i > 0
      invariant 0 <= i <= n
      invariant v == GetLE(b[off + i..off + n])
    {
      i := i - 1;
      assert b[off + i..off + n][1..] == b[off + i + 1..off + n];
      v := v * 256 + b[off + i];
    }
  }

  // ---- Records of fixed-width fields ---------------------------------------------------------------

  function Total(widths: seq<nat>): nat {
    if widths == [] then 0 else widths[0] + Total(widths[1..])
  }

  lemma TotalStep(ws: seq<nat>, k: nat)
    requires k < |ws|
    ensures Total(ws[k..]) == ws[k] + Total(ws[k + 1..])
  {
    assert ws[k..][1..] == ws[k + 1..];
  }

  predicate FieldsFit(widths: seq<nat>, values: seq<nat>) {
    |widths| == |values| && forall i :: 0 <= i < |widths| ==> values[i] < Pow256(widths[i])
  }

  function PutFields(widths: seq<nat>, values: seq<nat>): (s: seq<byte>)
    requires |widths| == |values|
    ensures |s| == Total(widths)
  {
    if widths == [] then [] else PutLE(values[0], widths[0]) + PutFields(widths[1..], values[1..])
  }

  function GetFields(s: seq<byte>, widths: seq<nat>): (values: seq<nat>)
    requires |s| >= Total(widths)
    ensures |values| == |widths|
  {
    if widths == [] then []
    else [GetLE(s[..widths[0]])] + GetFields(s[widths[0]..], widths[1..])
  }

  lemma ReadFirst(head: seq<byte>, tail: seq<byte>, widths: seq<nat>)
    requires widths != [] && |head| == widths[0] && |tail| >= Total(widths[1..])
    ensures GetFields(head + tail, widths) == [GetLE(head)] + GetFields(tail, widths[1..])
  {
    assert (head + tail)[..widths[0]] == head && (head + tail)[widths[0]..] == tail;
  }

  /** Fields that fit are read back unchanged, whatever follows them. */
  lemma {:induction false} FieldsRoundTrip(widths: seq<nat>, values: seq<nat>, rest: seq<byte>)
    requires FieldsFit(widths, values)
    ensures GetFields(PutFields(widths, values) + rest, widths) == values
    decreases widths
  {
    if widths != [] {
      var head, tail := PutLE(values[0], widths[0]), PutFields(widths[1..], values[1..]) + rest;
      PutGetLE(values[0], widths[0]);
      assert PutFields(widths, values) + rest == head + tail;
      hide PutLE, GetLE, PutFields, Pow256;
      FieldsRoundTrip(widths[1..], values[1..], rest);
      ReadFirst(head, tail, widths);
    }
  }

  /** What is read always fits and re-encodes to the very bytes it was read from. */
  lemma {:induction false} FieldsCanonical(s: seq<byte>, widths: seq<nat>)
    requires |s| >= Total(widths)
    ensures FieldsFit(widths, GetFields(s, widths))
    ensures PutFields(widths, GetFields(s, widths)) == s[..Total(widths)]
    decreases widths
  {
    if widths != [] {
      var w := widths[0];
      FieldsCanonical(s[w..], widths[1..]);
      GetPutLE(s[..w]);
      assert s[..w] + s[w..][..Total(widths[1..])] == s[..Total(widths)];
      var vs := GetFields(s, widths);
      assert vs[1..] == GetFields(s[w..], widths[1..]);
      assert vs == [vs[0]] + vs[1..];
    }
  }
}
