/** What an owner may conclude from a repair entry that is gone (src/queue_node.cc:479-503, 521-526,
    739-743). An entry is opened with every transition; a peer's bit is set by any answer of that
    peer, whichever request it answers. */
module Repair {
  import opened Options
  import opened Jobs
  import opened Store
  import opened Handlers

  /** A peer confirmed; the entry goes when all have. */
  function MarkOk(entry: Option<set<nat>>, want: set<nat>, slot: nat): Option<set<nat>> {
    if entry.None? || want <= entry.value + {slot} then None else Some(entry.value + {slot})
  }

  /** What the owner goes through with one job: a transition that opens the entry, an entry opened anew
      for a restart or a peer that returned, and an answer to a request that carried the job as of
      the version-th transition. */
  datatype Event = Opens | Reopens | Answer(slot: nat, version: nat)

  datatype View = View(version: nat, entry: Option<set<nat>>)

  function See(want: set<nat>, v: View, e: Event): View {
    match e
    case Opens => View(v.version + 1, Some({}))
    case Reopens => v.(entry := Some({}))
    case Answer(slot, _) => v.(entry := MarkOk(v.entry, want, slot))
  }

  function Seen(want: set<nat>, events: seq<Event>): View {
    if events == [] then View(0, None)
    else See(want, Seen(want, events[..|events| - 1]), events[|events| - 1])
  }

  /** took says what each peer has applied; it is a world the owner may be in if it explains every
      answer the owner has seen. */
  ghost predicate World(events: seq<Event>, took: nat -> set<nat>) {
    forall i :: 0 <= i < |events| && events[i].Answer? ==> events[i].version in took(events[i].slot)
  }

  predicate AllTook(want: set<nat>, took: nat -> set<nat>, version: nat) {
    forall s :: s in want ==> version in took(s)
  }

  /** The peer at s answered a request that carried this version. */
  predicate Confirmed(events: seq<Event>, s: nat, version: nat) { Answer(s, version) in events }

  /** The world in which peers did no more than what they answered for. */
  function Least(events: seq<Event>): nat -> set<nat> {
    (s: nat) => set i | 0 <= i < |events| && events[i].Answer? && events[i].slot == s :: events[i].version
  }

  /** Exactly then: that every peer took the latest transition holds in every world the owner may be in
      if and only if every peer has answered a request that carried it. */
  lemma TakenIffConfirmed(events: seq<Event>, want: set<nat>, version: nat)
    ensures
      (forall took :: World(events, took) ==> AllTook(want, took, version)) <==>
      (forall s :: s in want ==> Confirmed(events, s, version))
  {
    if forall took :: World(events, took) ==> AllTook(want, took, version) {
      var least := Least(events);
      assert World(events, least);
      assert AllTook(want, least, version);
      forall s | s in want ensures Confirmed(events, s, version) {
        assert version in least(s);
      }
    }
    if forall s :: s in want ==> Confirmed(events, s, version) {
      forall took | World(events, took) ensures AllTook(want, took, version) {
        forall s | s in want ensures version in took(s) {
          var i :| 0 <= i < |events| && events[i] == Answer(s, version);
        }
      }
    }
  }

  // ---- When the code's test is that condition ----------------------------------------------------------------

  /** An answer that was entered: the entry it met is the last one opened. */
  predicate Counted(want: set<nat>, events: seq<Event>, i: nat) {
    && i < |events| && events[i].Answer? && Seen(want, events[..i]).entry.Some?
    && forall k :: i < k < |events| ==> events[k].Answer?
  }

  /** Every answer entered carried the latest transition. */
  ghost predicate CountsCurrent(want: set<nat>, events: seq<Event>) {
    forall i: nat :: Counted(want, events, i) ==> events[i].version == Seen(want, events).version
  }

  lemma CountedMore(want: set<nat>, events: seq<Event>, i: nat)
    requires events != [] && events[|events| - 1].Answer? && Counted(want, events[..|events| - 1], i)
    ensures Counted(want, events, i)
  {
    var n := |events| - 1;
    assert events[..n][..i] == events[..i];
    forall k | i < k < |events| ensures events[k].Answer? {
      if k < n { assert events[..n][k] == events[k]; }
    }
  }

  /** The bits of an entry are the peers whose answers were entered, and an entry goes only when all
      peers' were. */
  lemma {:induction false} BitsCounted(want: set<nat>, events: seq<Event>, s: nat)
    requires
      var v := Seen(want, events);
      (v.entry.Some? && s in v.entry.value) || (v.entry.None? && v.version > 0 && s in want)
    ensures exists i: nat :: Counted(want, events, i) && events[i].slot == s
  {
    var n := |events| - 1;
    var e, before := events[n], Seen(want, events[..n]);
    assert e.Answer?;
    if before.entry.Some? && s !in before.entry.value {
      assert Counted(want, events, n) && events[n].slot == s;
    } else {
      BitsCounted(want, events[..n], s);
      var i: nat :| Counted(want, events[..n], i) && events[..n][i].slot == s;
      CountedMore(want, events, i);
      assert events[..n][i] == events[i];
    }
  }

  /** So if every answer entered carries the latest transition, an entry that is gone proves that every
      peer took it. */
  lemma GoneMeansTaken(want: set<nat>, events: seq<Event>, took: nat -> set<nat>)
    requires CountsCurrent(want, events) && World(events, took)
    requires Seen(want, events).version > 0 && Seen(want, events).entry.None?
    ensures AllTook(want, took, Seen(want, events).version)
  {
    var v := Seen(want, events).version;
    forall s | s in want ensures v in took(s) {
      BitsCounted(want, events, s);
      var i: nat :| Counted(want, events, i) && events[i].slot == s;
    }
  }

  /** And if the answers entered for some peer all carried older transitions, the entry goes as well, and
      in some world the owner may be in that peer lacks the latest one. */
  lemma StaleProvesNothing(want: set<nat>, events: seq<Event>, s: nat) returns (took: nat -> set<nat>)
    requires s in want && !Confirmed(events, s, Seen(want, events).version)
    ensures World(events, took) && !AllTook(want, took, Seen(want, events).version)
  {
    took := Least(events);
  }

  /** The run: a transition (an expiry, say) is sent, then a completion opens the entry again, and then
      both peers' answers to the first come in. The entry goes, and neither peer need have the second. */
  lemma LateAnswersErase() returns (events: seq<Event>, took: nat -> set<nat>)
    ensures Seen({1, 2}, events) == View(2, None) && World(events, took) && took(1) == {1} && took(2) == {1}
  {
    var a, b, c, d := Opens, Opens, Answer(1, 1), Answer(2, 1);
    events := [a, b, c, d];
    took := (s: nat) => {1};
    assert events[..3] == [a, b, c] && events[..3][..2] == [a, b] && [a, b][..1] == [a] && [a][..0] == [];
    var want := {1, 2};
    assert Seen(want, [a]) == View(1, Some({}));
    assert Seen(want, [a, b]) == View(2, Some({}));
    assert Seen(want, [a, b, c]) == View(2, Some({1})) by { assert 2 !in {1}; assert {} + {1} == {1}; }
    assert {1} + {2} == want;
  }

  /** A peer that took a completion is Done. */
  lemma TookDone(local: Option<Job>, from: Endpoint, id: JobId, epoch: nat, leaseSeq: nat)
    requires OnApply(local, from, DoneRec(id, epoch, leaseSeq)).1.Created?
    ensures
      var copy := OnApply(local, from, DoneRec(id, epoch, leaseSeq)).0;
      copy.Some? && copy.value.state.Done?
  {
  }
}
