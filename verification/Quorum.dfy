/** The two counters that turn replica replies into one answer: quorum_commit's shared state and
    the pending submits (src/queue_node.cc:332-396, 497-538). */
module Quorum {
  import opened Options
  import opened Jobs

  /** What n outstanding requests answer once these replies have come in: yes at the first
      success, no when all n have failed, nothing before. */
  function Answer(n: nat, replies: seq<bool>): Option<bool> {
    if n == 0 || true in First(n, replies) then Some(true)
    else if |replies| >= n then Some(false)
    else None
  }

  function First(n: nat, replies: seq<bool>): seq<bool> { if |replies| <= n then replies else replies[..n] }

  /** An answer never changes, and comes with the n-th reply at the latest. */
  lemma AnswerStands(n: nat, replies: seq<bool>, more: seq<bool>)
    ensures Answer(n, replies).Some? ==> Answer(n, replies + more) == Answer(n, replies)
    ensures |replies| >= n ==> Answer(n, replies).Some?
    ensures Answer(n, replies) == Some(true) && n > 0 ==> true in replies
  {
    var a, b := First(n, replies), First(n, replies + more);
    assert a <= b;
    if true in a {
      var i :| 0 <= i < |a| && a[i];
      assert b[i];
    }
  }

  lemma AnswerStep(n: nat, replies: seq<bool>, ok: bool)
    requires Answer(n, replies).None?
    ensures true !in replies
             && Answer(n, replies + [ok]) == if ok then Some(true) else if |replies| + 1 == n then Some(false) else None
  {
    var r := replies + [ok];
    assert First(n, r) == r && First(n, replies) == replies;
    MoreReplies(replies, ok);
  }

  predicate Told(answers: seq<bool>, n: nat, replies: seq<bool>) {
    answers == if Answer(n, replies).Some? then [Answer(n, replies).value] else []
  }

  /** One quorum_commit after its local commit: Apply goes to n peers, and each of those calls
      completes exactly once. */
  class QuorumCommit {
    var needed: int
    var outstanding: int
    var fired: bool

    ghost const n: nat
    ghost var replies: seq<bool>
    /** The arguments done was called with. */
    ghost var answers: seq<bool>

    ghost predicate Valid()
      reads this
    {
      |replies| <= n && Counting(needed, outstanding, fired, n, replies, answers) && needed <= 1
    }

    constructor (peers: nat)
      ensures Valid() && n == peers && replies == []
    {
      n, replies := peers, [];
      needed, outstanding, fired := 1, peers, false;
      answers := if peers == 0 then [true] else [];
    }

    /** A completed call: created says the peer answered kCreated. done is called at most once in
        all, and after the last completion exactly once. */
    method OnReply(created: bool)
      requires Valid() && |replies| < n
      modifies this
      ensures Valid() && replies == old(replies) + [created] && old(answers) <= answers
      ensures |replies| == n ==> |answers| == 1
      ensures true in answers ==> true in replies
    {
      CountingStep(needed, outstanding, fired, n, replies, answers, created);
      hide Counting;
      outstanding := outstanding - 1;
      if created { needed := needed - 1; }
      replies := replies + [created];
      if !fired && needed <= 0 {
        fired, answers := true, answers + [true];
      } else if !fired && outstanding == 0 {
        fired, answers := true, answers + [false];
      }
      CountingMeans(needed, outstanding, fired, n, replies, answers);
    }
  }

  predicate Counting(needed: int, outstanding: int, fired: bool, n: nat, replies: seq<bool>, answers: seq<bool>) {
    && Told(answers, n, replies)
    && (n > 0 ==> outstanding == n - |replies| && fired == (answers != []) && (needed <= 0 <==> true in replies))
  }

  lemma CountingStep(needed: int, outstanding: int, fired: bool, n: nat, replies: seq<bool>, answers: seq<bool>,
      r: bool)
    requires Counting(needed, outstanding, fired, n, replies, answers) && |replies| < n && needed <= 1
    ensures
      var needed' := if r then needed - 1 else needed;
      var outstanding', replies' := outstanding - 1, replies + [r];
      if !fired && needed' <= 0 then Counting(needed', outstanding', true, n, replies', answers + [true])
      else if !fired && outstanding' == 0 then Counting(needed', outstanding', true, n, replies', answers + [false])
      else Counting(needed', outstanding', fired, n, replies', answers)
  {
    hide Answer;
    AnswerStands(n, replies, [r]);
    if Answer(n, replies).None? { AnswerStep(n, replies, r); }
    MoreReplies(replies, r);
  }

  lemma CountingMeans(needed: int, outstanding: int, fired: bool, n: nat, replies: seq<bool>, answers: seq<bool>)
    requires Counting(needed, outstanding, fired, n, replies, answers) && n > 0
    ensures |replies| >= n ==> |answers| == 1
    ensures true in answers ==> true in replies
  {
    AnswerStands(n, replies, []);
  }

  lemma MoreReplies(replies: seq<bool>, r: bool)
    ensures true in replies + [r] <==> r || true in replies
  {
    if true in replies { var i :| 0 <= i < |replies| && replies[i]; assert (replies + [r])[i]; }
    if r { assert (replies + [r])[|replies|]; }
  }

  datatype PendingSubmit = PendingSubmit(needed: int, outstanding: int)

  /** The history of one tracked submit: its replica slots, the replies its job drew, from repair
      resends as much as from the first sends, and what its client was told. */
  datatype Submit = Submit(slots: nat, replies: seq<bool>, answers: seq<bool>)

  predicate Tracked(p: Option<PendingSubmit>, s: Submit) {
    && Told(s.answers, s.slots, s.replies) && |s.answers| <= 1
    && (p.Some? <==> s.answers == [])
    && (p.Some? ==> p.value == PendingSubmit(1, s.slots - |s.replies|) && true !in s.replies && |s.replies| < s.slots)
    && (true in s.answers && s.slots > 0 ==> true in s.replies)
  }

  /** One reply, as a function. */
  function Counted(p: PendingSubmit, ok: bool): PendingSubmit {
    PendingSubmit(if ok then p.needed - 1 else p.needed, p.outstanding - 1)
  }

  lemma CountedReply(p: Option<PendingSubmit>, s: Submit, ok: bool)
    requires Tracked(p, s)
    ensures
      var r := s.(replies := s.replies + [ok]);
      if p.None? then Tracked(None, r)
      else
        var q := Counted(p.value, ok);
        if q.needed <= 0 then Tracked(None, r.(answers := r.answers + [true]))
        else if q.outstanding == 0 then Tracked(None, r.(answers := r.answers + [false]))
        else Tracked(Some(q), r)
  {
    ReplyStep(s, ok);
  }

  ghost predicate AllTracked(pending: map<JobId, PendingSubmit>, submits: map<JobId, Submit>) {
    && pending.Keys <= submits.Keys
    && (forall id :: id in submits ==> Tracked(Waiting(pending, id), submits[id]))
  }

  function Waiting(pending: map<JobId, PendingSubmit>, id: JobId): Option<PendingSubmit> {
    if id in pending then Some(pending[id]) else None
  }

  lemma TrackedElsewhere(pending: map<JobId, PendingSubmit>, submits: map<JobId, Submit>, pending': map<JobId,
      PendingSubmit>, submits': map<JobId, Submit>, id: JobId)
    requires AllTracked(pending, submits) && id in submits' && submits' == submits[id := submits'[id]]
    requires forall j :: j != id ==> Waiting(pending', j) == Waiting(pending, j)
    requires Tracked(Waiting(pending', id), submits'[id])
    ensures AllTracked(pending', submits')
  {
    hide Tracked;
    forall j | j in pending' ensures j in submits' { assert j != id ==> Waiting(pending', j) == Waiting(pending, j); }
  }

  class Submits {
    var pending: map<JobId, PendingSubmit>
    ghost var submits: map<JobId, Submit>

    ghost predicate Valid()
      reads this
    {
      AllTracked(pending, submits)
    }

    /** A client is told at most once, kCreated only after a replica confirmed its copy, and never
        left waiting once every slot has replied. */
    lemma ToldOnce(id: JobId)
      requires Valid() && id in submits
      ensures |submits[id].answers| <= 1
      ensures true in submits[id].answers && submits[id].slots > 0 ==> true in submits[id].replies
      ensures |submits[id].replies| >= submits[id].slots ==> |submits[id].answers| == 1
    {
      AnswerStands(submits[id].slots, submits[id].replies, []);
    }

    constructor ()
      ensures Valid() && submits == map[]
    {
      pending, submits := map[], map[];
    }

    /** A committed submit starts waiting; without replica slots it is answered at once. */
    method Track(id: JobId, slots: nat)
      requires Valid() && id !in submits
      modifies this
      ensures Valid() && submits == old(submits)[id := Submit(slots, [], if slots == 0 then [true] else [])]
    {
      NotWaiting(pending, submits, id);
      hide AllTracked;
      submits := submits[id := Submit(slots, [], [])];
      pending := pending[id := PendingSubmit(if slots > 0 then 1 else 0, slots)];
      if slots == 0 { Result(id, true); }
      TrackedElsewhere(old(pending), old(submits), pending, submits, id);
    }

    method Result(id: JobId, created: bool)
      requires id in pending && id in submits
      modifies this
      ensures pending == old(pending) - {id}
      ensures submits == old(submits)[id := old(submits)[id].(answers := old(submits)[id].answers + [created])]
    {
      pending := pending - {id};
      submits := submits[id := submits[id].(answers := submits[id].answers + [created])];
    }

    /** Any completed Replicate call for the job. */
    method OnReply(id: JobId, ok: bool)
      requires Valid() && id in submits
      modifies this
      ensures Valid() && id in submits && submits == old(submits)[id := submits[id]]
      ensures submits[id].replies == old(submits)[id].replies + [ok] && submits[id].slots == old(submits)[id].slots
      ensures old(submits)[id].answers <= submits[id].answers
    {
      ReplyKeeps(pending, submits, id, ok);
      hide AllTracked, Counted;
      ghost var replied := submits[id].(replies := submits[id].replies + [ok]);
      if id !in pending {
        submits := submits[id := replied];
        return;
      }
      var ps := Counted(pending[id], ok);
      if ps.needed <= 0 {
        pending, submits := pending - {id}, submits[id := replied.(answers := replied.answers + [true])];
      } else if ps.outstanding == 0 {
        pending, submits := pending - {id}, submits[id := replied.(answers := replied.answers + [false])];
      } else {
        pending, submits := pending[id := ps], submits[id := replied];
      }
    }
  }

  lemma ReplyKeeps(pending: map<JobId, PendingSubmit>, submits: map<JobId, Submit>, id: JobId, ok: bool)
    requires AllTracked(pending, submits) && id in submits
    ensures
      var replied := submits[id].(replies := submits[id].replies + [ok]);
      if id !in pending then AllTracked(pending, submits[id := replied])
      else
        var ps := Counted(pending[id], ok);
        if ps.needed <= 0 then AllTracked(pending - {id}, submits[id := replied.(answers := replied.answers + [true])])
        else if ps.outstanding == 0 then AllTracked(pending - {id},
            submits[id := replied.(answers := replied.answers + [false])])
        else AllTracked(pending[id := ps], submits[id := replied])
  {
    CountedReply(Waiting(pending, id), submits[id], ok);
    var replied := submits[id].(replies := submits[id].replies + [ok]);
    hide Tracked, AllTracked;
    if id !in pending {
      TrackedElsewhere(pending, submits, pending, submits[id := replied], id);
    } else {
      var ps := Counted(pending[id], ok);
      if ps.needed <= 0 {
        TrackedElsewhere(pending, submits, pending - {id}, submits[id := replied.(answers := replied.answers + [true])],
            id);
      } else if ps.outstanding == 0 {
        TrackedElsewhere(pending, submits, pending - {id},
            submits[id := replied.(answers := replied.answers + [false])], id);
      } else {
        TrackedElsewhere(pending, submits, pending[id := ps], submits[id := replied], id);
      }
    }
  }

  lemma NotWaiting(pending: map<JobId, PendingSubmit>, submits: map<JobId, Submit>, id: JobId)
    requires AllTracked(pending, submits) && id !in submits
    ensures id !in pending
  {
  }

  lemma ReplyStep(s: Submit, ok: bool)
    requires Told(s.answers, s.slots, s.replies)
    ensures
      var r := s.replies + [ok];
      && (s.answers != [] ==>
          Told(s.answers, s.slots, r) && |s.answers| == 1 && (true in s.answers && s.slots > 0 ==> true in r))
      && (s.answers == [] && ok ==> Told([true], s.slots, r) && true in r)
      && (s.answers == [] && !ok && |r| == s.slots ==> Told([false], s.slots, r))
      && (s.answers == [] && !ok && |r| != s.slots ==> Told([], s.slots, r))
      && (true in r <==> ok || true in s.replies)
  {
    hide Answer;
    AnswerStands(s.slots, s.replies, [ok]);
    if Answer(s.slots, s.replies).None? { AnswerStep(s.slots, s.replies, ok); }
    MoreReplies(s.replies, ok);
  }
}
