/** The file system under a data directory, one method per system call (src/wal.cc). Every call
    may fail, and the machine or the process may be stopped after any of them. */
module Devices {
  import opened Bytes
  import opened Disk

  /** The file system under the data directory. seen records every image it went through. Calls on
      a reliable device never fail; a write may be short on any. */
  class Device {
    const reliable: bool
    var st: Image
    var seen: seq<Image>

    constructor (d: Image, reliable: bool)
      ensures st == d && seen == [d] && this.reliable == reliable
    {
      this.reliable := reliable;
      st := d;
      seen := [d];
    }

    /** Whether a call goes through. */
    method Works() returns (ok: bool)
      ensures reliable ==> ok
    {
      ok := *;
      if reliable { ok := true; }
    }

    /** write(2) may write less than asked, or fail and write nothing. */
    method Write(loc: nat, bytes: seq<byte>) returns (n: int)
      requires HasSegment(st, loc) && bytes != []
      modifies this
      ensures n <= |bytes| && (reliable ==> n > 0)
      ensures n <= 0 ==> st == old(st) && seen == old(seen)
      ensures n > 0 ==> st == Wrote(old(st), loc, bytes[..n]) && seen == old(seen) + [st]
    {
      n := *;
      if n > |bytes| { n := |bytes|; }
      if reliable && n <= 0 { n := 1; }
      if n > 0 {
        st := Wrote(st, loc, bytes[..n]);
        seen := seen + [st];
      }
    }

    /** fdatasync of the newest segment. */
    method SyncData(loc: nat) returns (ok: bool)
      requires HasSegment(st, loc)
      modifies this
      ensures !ok ==> !reliable && st == old(st) && seen == old(seen)
      ensures ok ==> st == SyncedData(old(st), loc) && seen == old(seen) + [st]
    {
      ok := Works();
      if ok {
        st := SyncedData(st, loc);
        seen := seen + [st];
      }
    }

    method Create(loc: nat, start: nat) returns (ok: bool)
      requires loc in st.dirs
      modifies this
      ensures !ok ==> !reliable && st == old(st) && seen == old(seen)
      ensures ok ==> st == Created(old(st), loc, start) && seen == old(seen) + [st]
    {
      ok := Works();
      if ok {
        st := Created(st, loc, start);
        seen := seen + [st];
      }
    }

    method SyncDir(loc: nat) returns (ok: bool)
      requires loc in st.dirs
      modifies this
      ensures !ok ==> !reliable && st == old(st) && seen == old(seen)
      ensures ok ==> st == SyncedDir(old(st), loc) && seen == old(seen) + [st]
    {
      ok := Works();
      if ok {
        st := SyncedDir(st, loc);
        seen := seen + [st];
      }
    }

    method Truncate(loc: nat, n: nat) returns (ok: bool)
      requires HasSegment(st, loc) && n <= |Last(st, loc).data|
      modifies this
      ensures !ok ==> !reliable && st == old(st) && seen == old(seen)
      ensures ok ==> st == Truncated(old(st), loc, n) && seen == old(seen) + [st]
    {
      ok := Works();
      if ok {
        st := Truncated(st, loc, n);
        seen := seen + [st];
      }
    }

    method MakeDir(g: nat) returns (ok: bool)
      requires g !in st.dirs
      modifies this
      ensures !ok ==> !reliable && st == old(st) && seen == old(seen)
      ensures ok ==> st == MadeDir(old(st), g) && seen == old(seen) + [st]
    {
      ok := Works();
      if ok {
        st := MadeDir(st, g);
        seen := seen + [st];
      }
    }

    /** CURRENT.tmp is created, written and synced; it stays unsynced when this fails midway. */
    method WriteTmp(g: nat) returns (ok: bool)
      modifies this
      ensures ok ==> st == SyncedTmp(WroteTmp(old(st), g)) && seen == old(seen) + [WroteTmp(old(st), g), st]
      ensures !ok ==>
          !reliable
              && ((st == old(st) && seen == old(seen)) || (st == WroteTmp(old(st), g) && seen == old(seen) + [st]))
    {
      ok := Works();
      if !ok { return; }
      st := WroteTmp(st, g);
      seen := seen + [st];
      ok := Works();
      if ok {
        st := SyncedTmp(st);
        seen := seen + [st];
      }
    }

    method Rename() returns (ok: bool)
      modifies this
      ensures !ok ==> !reliable && st == old(st) && seen == old(seen)
      ensures ok ==> st == Renamed(old(st)) && seen == old(seen) + [st]
    {
      ok := Works();
      if ok {
        st := Renamed(st);
        seen := seen + [st];
      }
    }

    method Remove(g: nat) returns (ok: bool)
      requires g in st.dirs
      modifies this
      ensures !ok ==> !reliable && st == old(st) && seen == old(seen)
      ensures ok ==> st == Removed(old(st), g) && seen == old(seen) + [st]
    {
      ok := Works();
      if ok {
        st := Removed(st, g);
        seen := seen + [st];
      }
    }

    /** The loop around write(2): a short write is continued, a failed one leaves a strict part. */
    method WriteFully(loc: nat, bytes: seq<byte>) returns (ok: bool)
      requires HasSegment(st, loc) && bytes != []
      modifies this
      ensures ok ==> st == Wrote(old(st), loc, bytes)
      ensures !ok ==> !reliable && Torn(old(st), st, loc, bytes)
      ensures AllParts(old(st), old(seen), seen, loc, bytes)
    {
      var written := 0;
      WroteNone(st, loc, bytes);
      while written < |bytes|
        invariant 0 <= written <= |bytes| && HasSegment(st, loc)
        invariant st == Wrote(old(st), loc, bytes[..written])
        invariant AllParts(old(st), old(seen), seen, loc, bytes)
      {
        var n := Write(loc, bytes[written..]);
        if n <= 0 { return false; }
        WroteMore(old(st), loc, bytes, written, n);
        assert PartOf(old(st), st, loc, bytes);
        written := written + n;
      }
      assert bytes[..written] == bytes;
      return true;
    }
  }

  predicate PartOf(d: Image, d': Image, loc: nat, bytes: seq<byte>)
    requires HasSegment(d, loc)
  {
    exists k :: 0 < k <= |bytes| && d' == Wrote(d, loc, bytes[..k])
  }

  predicate AllParts(d: Image, first: seq<Image>, seen: seq<Image>, loc: nat, bytes: seq<byte>)
    requires HasSegment(d, loc)
  {
    first <= seen && forall i :: |first| <= i < |seen| ==> PartOf(d, seen[i], loc, bytes)
  }

  predicate Torn(d: Image, d': Image, loc: nat, bytes: seq<byte>)
    requires HasSegment(d, loc)
  {
    exists k :: 0 <= k < |bytes| && d' == Wrote(d, loc, bytes[..k])
  }

  lemma WroteNone(d: Image, loc: nat, bytes: seq<byte>)
    requires HasSegment(d, loc)
    ensures Wrote(d, loc, bytes[..0]) == d
  {
    var s := Last(d, loc);
    assert s.data + bytes[..0] == s.data;
    assert d.dirs[loc].segs[|d.dirs[loc].segs| - 1 := s] == d.dirs[loc].segs;
    assert Wrote(d, loc, bytes[..0]).dirs == d.dirs;
  }

  lemma WroteMore(d: Image, loc: nat, bytes: seq<byte>, k: nat, n: nat)
    requires HasSegment(d, loc) && k + n <= |bytes|
    ensures HasSegment(Wrote(d, loc, bytes[..k]), loc)
    ensures Wrote(Wrote(d, loc, bytes[..k]), loc, bytes[k..][..n]) == Wrote(d, loc, bytes[..k + n])
  {
    var s, m := Last(d, loc), |d.dirs[loc].segs| - 1;
    var d1, d2 := Wrote(d, loc, bytes[..k]), Wrote(d, loc, bytes[..k + n]);
    assert s.data + bytes[..k] + bytes[k..][..n] == s.data + bytes[..k + n];
    assert d1.dirs[loc].segs[m := d2.dirs[loc].segs[m]] == d2.dirs[loc].segs;
    assert Wrote(d1, loc, bytes[k..][..n]).dirs == d2.dirs;
  }
}
