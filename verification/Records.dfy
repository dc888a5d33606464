/** The binary form of jobs and log records (src/records.cc, src/wire.cc). A reader takes the
    span that starts at its offset and returns how many bytes it consumed. */
module Records {
  import opened Bytes
  import opened Options
  import opened Jobs
  import opened Store
  import Calls
  import Frames

  const MAX_IDEM_KEY := 64
  const MAX_URL := 256
  const MAX_JOB_BODY := 640

  // Field widths, in bytes: a job id, what follows a job's three strings, and the payloads of
  // the transition records.
  function ID(): (w: seq<nat>) ensures |w| == 2 { [8, 8] }
  function TAIL(): (w: seq<nat>) ensures |w| == 14 && w[8] == 1 { [4, 4, 4, 2, 4, 2, 4, 2, 1, 4, 2, 4, 4, 4] }
  function LEASE(): (w: seq<nat>) ensures |w| == 5 { [8, 8, 4, 4, 8] }
  function FENCE(): (w: seq<nat>) ensures |w| == 4 { [8, 8, 4, 4] }
  function PARK(): (w: seq<nat>) ensures |w| == 3 { [8, 8, 4] }
  function TAKEOVER(): (w: seq<nat>) ensures |w| == 5 { [8, 8, 4, 4, 2] }

  lemma TotalSmall(ws: seq<nat>)
    requires 2 <= |ws| <= 5
    ensures |ws| == 2 ==> Total(ws) == ws[0] + ws[1]
    ensures |ws| == 3 ==> Total(ws) == ws[0] + ws[1] + ws[2]
    ensures |ws| == 4 ==> Total(ws) == ws[0] + ws[1] + ws[2] + ws[3]
    ensures |ws| == 5 ==> Total(ws) == ws[0] + ws[1] + ws[2] + ws[3] + ws[4]
  {
    assert ws[0..] == ws;
    TotalStep(ws, 0);
    TotalStep(ws, 1);
    if |ws| > 2 { TotalStep(ws, 2); }
    if |ws| > 3 { TotalStep(ws, 3); }
    if |ws| > 4 { TotalStep(ws, 4); }
  }

  lemma TotalTail(ws: seq<nat>)
    requires |ws| == 14
    ensures Total(ws) == Total(ws[..5]) + Total(ws[5..10]) + Total(ws[10..])
  {
    TotalSplit(ws, 5);
    TotalSplit(ws[5..], 5);
    assert ws[5..][..5] == ws[5..10] && ws[5..][5..] == ws[10..];
  }

  lemma {:induction false} TotalSplit(ws: seq<nat>, k: nat)
    requires k <= |ws|
    ensures Total(ws) == Total(ws[..k]) + Total(ws[k..])
  {
    if k > 0 {
      TotalSplit(ws[1..], k - 1);
      assert ws[..k][1..] == ws[1..][..k - 1] && ws[1..][k - 1..] == ws[k..];
    }
  }

  lemma Layouts()
    ensures Total(ID()) == 16 && Total(TAIL()) == 45
    ensures Total(LEASE()) == 32 && Total(FENCE()) == 24 && Total(PARK()) == 20 && Total(TAKEOVER()) == 26
  {
    hide Total;
    TotalSmall(ID());
    TotalSmall(LEASE());
    TotalSmall(FENCE());
    TotalSmall(PARK());
    TotalSmall(TAKEOVER());
    TotalTail(TAIL());
    TotalSmall(TAIL()[..5]);
    TotalSmall(TAIL()[5..10]);
    TotalSmall(TAIL()[10..]);
  }

  function StateByte(s: JobState): byte {
    match s
    case Ready => 1
    case Leased => 2
    case Done => 3
    case DeadLetter => 4
    case Other(c) => c
  }

  /** Any byte is accepted as a state; the four known ones get their names. */
  function ByteState(b: byte): JobState {
    if b == 1 then Ready else if b == 2 then Leased else if b == 3 then Done
    else if b == 4 then DeadLetter else Other(b)
  }

  predicate StateFits(s: JobState) { s.Other? ==> s.code == 0 || s.code > 4 }

  // ---- Jobs -----------------------------------------------------------------------------------------

  /** The length field is 16 bits: PutLE keeps the low two bytes of the size. */
  function PutStr(s: seq<byte>): seq<byte> { PutLE(|s|, 2) + s }

  function GetStr(s: seq<byte>, max: nat): (r: Option<(seq<byte>, nat)>)
    ensures r.Some? ==> r.value.1 == 2 + |r.value.0| <= |s|
  {
    if |s| < 2 then None
    else
      var n := GetLE(s[..2]);
      if n > max || 2 + n > |s| then None else Some((s[2..2 + n], 2 + n))
  }

  function IdValues(id: JobId): (v: seq<nat>) ensures |v| == 2 { [id.origin, id.nonce] }

  function TailValues(j: Job): (v: seq<nat>)
    requires |j.replicas| == 3
    ensures |v| == 14
  {
    [j.visibilityMs, j.maxAttempts,
     j.replicas[0].addr, j.replicas[0].port, j.replicas[1].addr, j.replicas[1].port,
     j.replicas[2].addr, j.replicas[2].port,
     StateByte(j.state), j.owner.addr, j.owner.port, j.epoch, j.leaseSeq, j.attempts]
  }

  function PutJob(j: Job): seq<byte>
    requires |j.replicas| == 3
  {
    PutFields(ID(), IdValues(j.id)) + PutStr(j.idemKey) + PutStr(j.url) + PutStr(j.body)
    + PutFields(TAIL(), TailValues(j))
  }

  function MakeJob(id: seq<nat>, key: seq<byte>, url: seq<byte>, body: seq<byte>, f: seq<nat>): Job
    requires |id| == 2 && |f| == 14 && f[8] < 256
  {
    Job(JobId(id[0], id[1]), key, url, body, f[0], f[1],
        [Endpoint(f[2], f[3]), Endpoint(f[4], f[5]), Endpoint(f[6], f[7])],
        ByteState(f[8]), Endpoint(f[9], f[10]), f[11], f[12], f[13])
  }

  function GetTail(s: seq<byte>): (f: seq<nat>)
    requires |s| >= 45
    ensures |f| == 14 && f[8] < 256
  {
    Layouts();
    FieldsCanonical(s, TAIL());
    assert Pow256(TAIL()[8]) == 256 by { Widths(); }
    GetFields(s, TAIL())
  }

  function GetJobId(s: seq<byte>): (f: seq<nat>)
    requires |s| >= 16
    ensures |f| == 2
  {
    Layouts();
    GetFields(s, ID())
  }

  /** The strings in front: (key, url, body, bytes consumed so far). */
  function GetStrings(s: seq<byte>): (r: Option<(seq<byte>, seq<byte>, seq<byte>, nat)>)
    ensures r.Some? ==> r.value.3 <= |s|
  {
    var key := GetStr(s, MAX_IDEM_KEY);
    if key.None? then None
    else
      var url := GetStr(s[key.value.1..], MAX_URL);
      if url.None? then None
      else
        var o := key.value.1 + url.value.1;
        var body := GetStr(s[o..], MAX_JOB_BODY);
        if body.None? then None else Some((key.value.0, url.value.0, body.value.0, o + body.value.1))
  }

  function GetJob(s: seq<byte>): (r: Option<(Job, nat)>)
    ensures r.Some? ==> r.value.1 <= |s|
  {
    if |s| < 16 then None
    else
      var strs := GetStrings(s[16..]);
      if strs.None? || 16 + strs.value.3 + 45 > |s| then None
      else
        var (key, url, body, n) := strs.value;
        Some((MakeJob(GetJobId(s), key, url, body, GetTail(s[16 + n..])), 16 + n + 45))
  }

  /** A job the program can hold: the field widths of the C++ types and the submit limits. */
  ghost predicate JobFits(j: Job) {
    && |j.idemKey| <= MAX_IDEM_KEY && |j.url| <= MAX_URL && |j.body| <= MAX_JOB_BODY
    && |j.replicas| == 3 && StateFits(j.state)
    && FieldsFit(ID(), IdValues(j.id)) && FieldsFit(TAIL(), TailValues(j))
  }

  lemma StrRoundTrip(s: seq<byte>, max: nat, rest: seq<byte>)
    requires |s| <= max < U16
    ensures GetStr(PutStr(s) + rest, max) == Some((s, 2 + |s|))
  {
    var t := PutStr(s) + rest;
    Widths();
    PutGetLE(|s|, 2);
    assert t[..2] == PutLE(|s|, 2);
    assert t[2..2 + |s|] == s;
  }

  lemma StrCanonical(s: seq<byte>, max: nat)
    requires GetStr(s, max).Some? && max < U16
    ensures |GetStr(s, max).value.0| <= max
    ensures PutStr(GetStr(s, max).value.0) == s[..GetStr(s, max).value.1]
  {
    GetPutLE(s[..2]);
    var n := GetLE(s[..2]);
    assert s[..2] + s[2..2 + n] == s[..2 + n];
  }

  lemma StringsRoundTrip(key: seq<byte>, url: seq<byte>, body: seq<byte>, rest: seq<byte>)
    requires |key| <= MAX_IDEM_KEY && |url| <= MAX_URL && |body| <= MAX_JOB_BODY
    ensures
      GetStrings(PutStr(key) + PutStr(url) + PutStr(body) + rest) == Some((key, url, body, 6 + |key| + |url| + |body|))
  {
    var k, u, b := PutStr(key), PutStr(url), PutStr(body);
    var s := k + u + b + rest;
    assert s == k + (u + b + rest);
    assert s[|k|..] == u + (b + rest);
    assert s[|k| + |u|..] == b + rest;
    StrRoundTrip(key, MAX_IDEM_KEY, u + b + rest);
    StrRoundTrip(url, MAX_URL, b + rest);
    StrRoundTrip(body, MAX_JOB_BODY, rest);
  }

  lemma JobSlices(id: seq<byte>, k: seq<byte>, u: seq<byte>, b: seq<byte>, t: seq<byte>, rest: seq<byte>)
    requires |id| == 16
    ensures
      var s := id + k + u + b + t + rest;
      && s == id + (k + u + b + t + rest)
      && s[16..] == k + u + b + (t + rest)
      && s[16 + (|k| + |u| + |b|)..] == t + rest
  {
  }

  lemma JobRoundTrip(j: Job, rest: seq<byte>)
    requires JobFits(j)
    ensures GetJob(PutJob(j) + rest) == Some((j, |PutJob(j)|))
  {
    hide ID, TAIL, GetStrings, MakeJob, PutFields, GetFields, FieldsFit, PutLE, TailValues, IdValues, StateFits;
    Layouts();
    var id, k, u, b, t :=
        PutFields(ID(), IdValues(j.id)), PutStr(j.idemKey), PutStr(j.url), PutStr(j.body),
        PutFields(TAIL(), TailValues(j));
    JobSlices(id, k, u, b, t, rest);
    FieldsRoundTrip(ID(), IdValues(j.id), k + u + b + t + rest);
    FieldsRoundTrip(TAIL(), TailValues(j), rest);
    StringsRoundTrip(j.idemKey, j.url, j.body, t + rest);
    MakeTail(j);
  }

  lemma MakeTail(j: Job)
    requires JobFits(j)
    ensures MakeJob(IdValues(j.id), j.idemKey, j.url, j.body, TailValues(j)) == j
  {
    assert j.replicas == [j.replicas[0], j.replicas[1], j.replicas[2]];
  }

  lemma StringsCanonical(s: seq<byte>)
    requires GetStrings(s).Some?
    ensures
      var (key, url, body, n) := GetStrings(s).value;
      && |key| <= MAX_IDEM_KEY && |url| <= MAX_URL && |body| <= MAX_JOB_BODY
      && PutStr(key) + PutStr(url) + PutStr(body) == s[..n]
  {
    var k := GetStr(s, MAX_IDEM_KEY).value.1;
    var o := k + GetStr(s[k..], MAX_URL).value.1;
    var n := GetStrings(s).value.3;
    StrCanonical(s, MAX_IDEM_KEY);
    StrCanonical(s[k..], MAX_URL);
    StrCanonical(s[o..], MAX_JOB_BODY);
    Rejoin(s, k, o, n);
  }

  lemma Rejoin(s: seq<byte>, k: nat, o: nat, n: nat)
    requires k <= o <= n <= |s|
    ensures s[..k] + s[k..][..o - k] + s[o..][..n - o] == s[..n]
  {
  }

  lemma Regroup(a: seq<byte>, b: seq<byte>, c: seq<byte>)
    ensures (a + b) + c == a + (b + c)
  {
  }

  lemma DecodesTo(t: byte, l: seq<byte>, p: seq<byte>, r: Record)
    requires |l| == 8 && DecodePayload(t, p) == Some(r)
    ensures DecodeRecord([t] + l + p) == Some((r, GetLE(l)))
  {
    hide DecodePayload, GetLE;
    var s := [t] + l + p;
    assert s[0] == t && s[1..9] == l && s[9..] == p;
  }

  lemma JoinThree(s: seq<byte>, n: nat)
    requires 16 + n + 45 <= |s|
    ensures s[..16] + s[16..][..n] + s[16 + n..][..45] == s[..16 + n + 45]
  {
  }

  /** Whatever get_job accepts respects the limits and is the encoding of what it returns. */
  lemma JobCanonical(s: seq<byte>)
    requires GetJob(s).Some?
    ensures
      var (j, n) := GetJob(s).value;
      JobFits(j) && PutJob(j) == s[..n] && n <= |s|
  {
    hide ID, TAIL, GetStrings, PutFields, GetFields, FieldsFit, PutLE, PutStr, TailValues, IdValues, GetStr, MakeJob;
    Layouts();
    var n := GetStrings(s[16..]).value.3;
    FieldsCanonical(s, ID());
    StringsCanonical(s[16..]);
    FieldsCanonical(s[16 + n..], TAIL());
    MadeFrom(s);
    TailBack(GetJobId(s), GetTail(s[16 + n..]), GetJob(s).value.0);
    JoinThree(s, n);
  }

  lemma MadeFrom(s: seq<byte>)
    requires GetJob(s).Some?
    ensures
      var (key, url, body, n) := GetStrings(s[16..]).value;
      var j := GetJob(s).value.0;
      && j.idemKey == key && j.url == url && j.body == body
      && j == MakeJob(GetJobId(s), j.idemKey, j.url, j.body, GetTail(s[16 + n..]))
  {
    hide GetStrings, GetJobId, GetTail;
  }

  lemma TailBack(id: seq<nat>, f: seq<nat>, j: Job)
    requires |id| == 2 && |f| == 14 && f[8] < 256 && j == MakeJob(id, j.idemKey, j.url, j.body, f)
    ensures |j.replicas| == 3 && IdValues(j.id) == id && TailValues(j) == f && StateFits(j.state)
  {
  }

  // ---- Records ----------------------------------------------------------------------------------------

  function TypeByte(r: Record): byte {
    match r
    case SubmitRec(_) => 1
    case ReplicateRec(_) => 2
    case LeaseRec(_, _, _, _) => 3
    case DoneRec(_, _, _) => 4
    case ExpireRec(_, _, _) => 5
    case DeadLetterRec(_, _) => 6
    case TakeoverRec(_, _, _) => 7
  }

  /** A full copy carries a job with three replica slots. */
  predicate Encodable(r: Record) {
    r.SubmitRec? || r.ReplicateRec? ==> |r.job.replicas| == 3
  }

  function Payload(r: Record): seq<byte>
    requires Encodable(r)
  {
    match r
    case SubmitRec(j) => PutJob(j)
    case ReplicateRec(j) => PutJob(j)
    case LeaseRec(id, e, s, w) => PutFields(LEASE(), [id.origin, id.nonce, e, s, w])
    case DoneRec(id, e, s) => PutFields(FENCE(), [id.origin, id.nonce, e, s])
    case ExpireRec(id, e, s) => PutFields(FENCE(), [id.origin, id.nonce, e, s])
    case DeadLetterRec(id, e) => PutFields(PARK(), [id.origin, id.nonce, e])
    case TakeoverRec(id, e, o) => PutFields(TAKEOVER(), [id.origin, id.nonce, e, o.addr, o.port])
  }

  function EncodeRecord(r: Record, lsn: nat): seq<byte>
    requires Encodable(r)
  {
    [TypeByte(r)] + PutLE(lsn, 8) + Payload(r)
  }

  function DecodePayload(kind: byte, s: seq<byte>): Option<Record> {
    Layouts();
    if kind == 1 || kind == 2 then
      var j := GetJob(s);
      if j.None? then None else if kind == 1 then Some(SubmitRec(j.value.0)) else Some(ReplicateRec(j.value.0))
    else if kind == 3 then
      if |s| < 32 then None
      else var f := GetFields(s, LEASE()); Some(LeaseRec(JobId(f[0], f[1]), f[2], f[3], f[4]))
    else if kind == 4 || kind == 5 then
      if |s| < 24 then None
      else
        var f := GetFields(s, FENCE());
        if kind == 4 then Some(DoneRec(JobId(f[0], f[1]), f[2], f[3]))
            else Some(ExpireRec(JobId(f[0], f[1]), f[2], f[3]))
    else if kind == 6 then
      if |s| < 20 then None
      else var f := GetFields(s, PARK()); Some(DeadLetterRec(JobId(f[0], f[1]), f[2]))
    else if kind == 7 then
      if |s| < 26 then None
      else var f := GetFields(s, TAKEOVER()); Some(TakeoverRec(JobId(f[0], f[1]), f[2], Endpoint(f[3], f[4])))
    else None
  }

  function DecodeRecord(s: seq<byte>): Option<(Record, nat)> {
    if |s| < 9 then None
    else
      var r := DecodePayload(s[0], s[9..]);
      if r.None? then None else Some((r.value, GetLE(s[1..9])))
  }

  ghost predicate RecordFits(r: Record) {
    match r
    case SubmitRec(j) => JobFits(j)
    case ReplicateRec(j) => JobFits(j)
    case LeaseRec(id, e, s, w) => FieldsFit(LEASE(), [id.origin, id.nonce, e, s, w])
    case DoneRec(id, e, s) => FieldsFit(FENCE(), [id.origin, id.nonce, e, s])
    case ExpireRec(id, e, s) => FieldsFit(FENCE(), [id.origin, id.nonce, e, s])
    case DeadLetterRec(id, e) => FieldsFit(PARK(), [id.origin, id.nonce, e])
    case TakeoverRec(id, e, o) => FieldsFit(TAKEOVER(), [id.origin, id.nonce, e, o.addr, o.port])
  }

  lemma PayloadRoundTrip(r: Record, rest: seq<byte>)
    requires RecordFits(r)
    ensures Encodable(r) && DecodePayload(TypeByte(r), Payload(r) + rest) == Some(r)
  {
    hide ID, TAIL, LEASE, FENCE, PARK, TAKEOVER, PutFields, GetFields, FieldsFit, PutJob, GetJob;
    Layouts();
    match r
    case SubmitRec(j) => JobRoundTrip(j, rest);
    case ReplicateRec(j) => JobRoundTrip(j, rest);
    case LeaseRec(id, e, s, w) => FieldsRoundTrip(LEASE(), [id.origin, id.nonce, e, s, w], rest);
    case DoneRec(id, e, s) => FieldsRoundTrip(FENCE(), [id.origin, id.nonce, e, s], rest);
    case ExpireRec(id, e, s) => FieldsRoundTrip(FENCE(), [id.origin, id.nonce, e, s], rest);
    case DeadLetterRec(id, e) => FieldsRoundTrip(PARK(), [id.origin, id.nonce, e], rest);
    case TakeoverRec(id, e, o) => FieldsRoundTrip(TAKEOVER(), [id.origin, id.nonce, e, o.addr, o.port], rest);
  }

  /** The sequence number wraps at 64 bits and is read back modulo that; the record is not
      affected. */
  lemma RecordReplays(r: Record, lsn: nat)
    requires RecordFits(r)
    ensures Encodable(r) && DecodeRecord(EncodeRecord(r, lsn)) == Some((r, lsn % Pow256(8)))
  {
    hide Payload, DecodePayload, DecodeRecord, PutLE, GetLE, Pow256, RecordFits, TypeByte;
    PayloadRoundTrip(r, []);
    PutGetLE(lsn, 8);
    assert Payload(r) + [] == Payload(r);
    DecodesTo(TypeByte(r), PutLE(lsn, 8), Payload(r), r);
  }

  /** Every record within the limits survives encoding, whatever bytes follow it. */
  lemma RecordRoundTrip(r: Record, lsn: nat, rest: seq<byte>)
    requires RecordFits(r) && lsn < U64
    ensures Encodable(r) && DecodeRecord(EncodeRecord(r, lsn) + rest) == Some((r, lsn))
  {
    PayloadRoundTrip(r, rest);
    Widths();
    hide Payload, DecodePayload, DecodeRecord, PutLE, GetLE, Pow256;
    PutGetLE(lsn, 8);
    hide RecordFits, TypeByte;
    DecodesTo(TypeByte(r), PutLE(lsn, 8), Payload(r) + rest, r);
    Regroup([TypeByte(r)] + PutLE(lsn, 8), Payload(r), rest);
  }

  lemma PayloadCanonical(kind: byte, s: seq<byte>)
    requires DecodePayload(kind, s).Some?
    ensures
      var r := DecodePayload(kind, s).value;
      RecordFits(r) && Encodable(r) && TypeByte(r) == kind && |Payload(r)| <= |s| && Payload(r) == s[..|Payload(r)|]
  {
    hide ID, TAIL, LEASE, FENCE, PARK, TAKEOVER, PutFields, GetFields, FieldsFit, PutJob, GetJob;
    Layouts();
    if kind == 1 || kind == 2 { JobCanonical(s); }
    else if kind == 3 { FieldsCanonical(s, LEASE()); FieldList(GetFields(s, LEASE())); }
    else if kind == 4 || kind == 5 { FieldsCanonical(s, FENCE()); FieldList(GetFields(s, FENCE())); }
    else if kind == 6 { FieldsCanonical(s, PARK()); FieldList(GetFields(s, PARK())); }
    else { FieldsCanonical(s, TAKEOVER()); FieldList(GetFields(s, TAKEOVER())); }
  }

  lemma FieldList(f: seq<nat>)
    ensures |f| == 3 ==> f == [f[0], f[1], f[2]]
    ensures |f| == 4 ==> f == [f[0], f[1], f[2], f[3]]
    ensures |f| == 5 ==> f == [f[0], f[1], f[2], f[3], f[4]]
  {
  }

  /** Whatever the decoder accepts is, up to trailing bytes, the encoding of what it returns. */
  lemma RecordCanonical(s: seq<byte>)
    requires DecodeRecord(s).Some?
    ensures
      var (r, lsn) := DecodeRecord(s).value;
      && RecordFits(r) && lsn < U64 && Encodable(r)
      && |EncodeRecord(r, lsn)| <= |s| && EncodeRecord(r, lsn) == s[..|EncodeRecord(r, lsn)|]
  {
    PayloadCanonical(s[0], s[9..]);
    Widths();
    hide Payload, DecodePayload, PutLE, GetLE, Pow256, RecordFits;
    GetPutLE(s[1..9]);
    var (r, lsn) := DecodeRecord(s).value;
    ReadWhole(s, |Payload(r)|);
  }

  lemma ReadWhole(s: seq<byte>, n: nat)
    requires 9 + n <= |s|
    ensures [s[0]] + s[1..9] + s[9..][..n] == s[..9 + n]
  {
  }

  /** The encoding is prefix-free: no strict prefix of a record decodes to anything. */
  lemma StrictPrefixRejected(r: Record, lsn: nat, n: nat)
    requires RecordFits(r) && lsn < U64 && Encodable(r) && n < |EncodeRecord(r, lsn)|
    ensures DecodeRecord(EncodeRecord(r, lsn)[..n]).None?
  {
    hide EncodeRecord, DecodeRecord, RecordFits;
    var s := EncodeRecord(r, lsn);
    var t := s[..n];
    if DecodeRecord(t).Some? {
      RecordCanonical(t);
      var (r', lsn') := DecodeRecord(t).value;
      var k := |EncodeRecord(r', lsn')|;
      assert s == EncodeRecord(r', lsn') + s[k..];
      RecordRoundTrip(r', lsn', s[k..]);
      assert s + [] == s;
      RecordRoundTrip(r, lsn, []);
    }
  }

  // ---- Size budget -----------------------------------------------------------------------------------

  /** Every request the queue protocol builds fits one datagram, and every record one frame:
      full copies, forwarded submits, transition records, claims and forwarded acks. */
  lemma SizeBudget(r: Record, lsn: nat, j: Job, key: seq<byte>, url: seq<byte>, body: seq<byte>)
    requires RecordFits(r) && Encodable(r) && JobFits(j)
    requires |key| <= MAX_IDEM_KEY && |url| <= MAX_URL && |body| <= MAX_JOB_BODY
    ensures |PutJob(j)| == 67 + |j.idemKey| + |j.url| + |j.body| <= 1027 <= Calls.MAX_RPC_BODY
    ensures |PutStr(key) + PutStr(url) + PutStr(body)| + 8 <= Calls.MAX_RPC_BODY
    ensures 9 < |EncodeRecord(r, lsn)| <= 1036 <= Calls.MAX_RPC_BODY < Frames.MAX_BODY
    ensures Total(ID()) + 4 + 6 <= Calls.MAX_RPC_BODY && Total(ID()) + 9 <= Calls.MAX_RPC_BODY
  {
    Layouts();
  }
}
