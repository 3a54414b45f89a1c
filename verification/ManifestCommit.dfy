/**
 * Publication with the manifest last: states are staged on the broker first, and the manifest naming
 * them is the commit point. Any publish may fail, and then has no effect.
 */
module ManifestCommit {
  import opened Common

  /** What a candidate lists: stable ids, and the body that decides whether anything changed. */
  datatype Candidate = Candidate(ids: seq<string>, body: string)

  datatype Manifest = Manifest(revision: nat, ids: seq<string>, body: string)

  /** The broker's retained manifest and, per stable id, the sequence of its retained state. */
  datatype Broker = Broker(manifest: Option<Manifest>, states: map<string, nat>)

  datatype State = State(broker: Broker, manifest: Option<Manifest>, sequences: map<string, nat>)

  /** A new process knows nothing of what the broker still retains. */
  predicate Begins(s: State) { s.manifest.None? && s.sequences == map[] }

  function SequenceOf(s: State, id: string): nat { if id in s.sequences then s.sequences[id] else 0 }

  /** Publish one state; the sequence is committed only with it. */
  function PublishState(s: State, id: string): State {
    var next := SequenceOf(s, id) + 1;
    s.(broker := s.broker.(states := s.broker.states[id := next]), sequences := s.sequences[id := next])
  }

  /** The first `count` publishes of a list succeed. */
  function PublishStates(s: State, ids: seq<string>, count: nat): State
    decreases |ids|
  {
    if ids == [] || count == 0 then s else PublishStates(PublishState(s, ids[0]), ids[1..], count - 1)
  }

  function NextRevision(s: State): nat { if s.manifest.None? then 1 else s.manifest.value.revision + 1 }

  function Committed(s: State, c: Candidate): State {
    var manifest := Manifest(NextRevision(s), c.ids, c.body);
    s.(broker := s.broker.(manifest := Some(manifest)), manifest := Some(manifest))
  }

  datatype Op =
    | Rebuild(candidate: Candidate, republish: bool, publishes: nat)
    | StateChanged(id: string, published: bool)

  predicate Unchanged(s: State, c: Candidate) { s.manifest.Some? && s.manifest.value.body == c.body }

  /** `publishes` is how many publishes of the rebuild go through before one fails. */
  function Apply(s: State, op: Op): State {
    match op
    case Rebuild(c, republish, publishes) =>
      if Unchanged(s, c) then if republish then PublishStates(s, c.ids, publishes) else s
      else if publishes <= |c.ids| then PublishStates(s, c.ids, publishes)
      else Committed(PublishStates(s, c.ids, |c.ids|), c)
    case StateChanged(id, published) =>
      if published && s.manifest.Some? && id in s.manifest.value.ids then PublishState(s, id) else s
  }

  function ApplyAll(s: State, ops: seq<Op>): State {
    if ops == [] then s else Apply(ApplyAll(s, ops[..|ops| - 1]), ops[|ops| - 1])
  }

  // ----- consistency -----

  /** The broker shows exactly the committed manifest, and a current state for every entity in it. */
  predicate Consistent(s: State) {
    && (s.manifest.Some? ==>
          s.broker.manifest == s.manifest && forall id :: id in s.manifest.value.ids ==> id in s.sequences)
    && (forall id :: id in s.sequences ==>
          s.sequences[id] > 0 && id in s.broker.states && s.broker.states[id] == s.sequences[id])
  }

  ghost predicate Grows(s: State, t: State) {
    && (forall id :: SequenceOf(s, id) <= SequenceOf(t, id))
    && (forall id :: id in s.sequences ==> id in t.sequences)
  }

  lemma {:induction false} PublishStatesKeeps(s: State, ids: seq<string>, count: nat)
    requires Consistent(s)
    ensures var t := PublishStates(s, ids, count);
            Consistent(t) && Grows(s, t) && t.manifest == s.manifest && t.broker.manifest == s.broker.manifest
            && (count >= |ids| ==> forall id :: id in ids ==> id in t.sequences)
    decreases |ids|
  {
    if ids != [] && count > 0 {
      PublishStatesKeeps(PublishState(s, ids[0]), ids[1..], count - 1);
    }
  }

  /** One operation, failing at any publish, keeps the broker consistent; sequences never fall, and the
      revision rises by one exactly when a new manifest is committed. */
  lemma OpKeeps(s: State, op: Op)
    requires Consistent(s)
    ensures var t := Apply(s, op);
            Consistent(t) && Grows(s, t)
            && (t.manifest == s.manifest
                || (t.manifest.Some? && t.manifest.value.revision == NextRevision(s) && t.broker.manifest == t.manifest
                    && op.Rebuild? && t.manifest.value.ids == op.candidate.ids
                       && t.manifest.value.body == op.candidate.body))
            && (t.broker.manifest != s.broker.manifest ==> t.manifest != s.manifest)
  {
    hide PublishStates;
    if op.Rebuild? {
      PublishStatesKeeps(s, op.candidate.ids, op.publishes);
      PublishStatesKeeps(s, op.candidate.ids, |op.candidate.ids|);
    }
  }

  // ----- what one operation publishes -----

  /** Exactly these states were published, in any order: each raised its own sequence, once for every time it
      is listed, and the broker retains it under the raised one. */
  ghost predicate RaisedBy(s: State, t: State, published: seq<string>) {
    && (forall id :: SequenceOf(t, id) == SequenceOf(s, id) + multiset(published)[id])
    && (forall id :: id in t.sequences <==> id in s.sequences || id in published)
    && (forall id :: id in published ==> id in t.broker.states && t.broker.states[id] == t.sequences[id])
    && (forall id :: id !in published ==>
          (id in t.broker.states <==> id in s.broker.states)
          && (id in s.broker.states ==> t.broker.states[id] == s.broker.states[id]))
  }

  lemma RaisedOne(s: State, id: string)
    ensures RaisedBy(s, PublishState(s, id), [id])
  {
  }

  lemma RaisedBoth(s: State, t: State, u: State, first: string, rest: seq<string>)
    requires RaisedBy(s, t, [first]) && RaisedBy(t, u, rest)
    ensures RaisedBy(s, u, [first] + rest)
  {
    assert multiset([first] + rest) == multiset([first]) + multiset(rest);
    forall id ensures id in [first] + rest <==> id == first || id in rest {}
    if first !in rest { assert SequenceOf(u, first) == SequenceOf(t, first); }
  }

  /** A rebuild stages the states of its list in order, up to the first publish that fails. */
  lemma {:induction false} StagesPrefix(s: State, ids: seq<string>, count: nat)
    ensures var t := PublishStates(s, ids, count);
            && RaisedBy(s, t, ids[..if count < |ids| then count else |ids|])
            && t.manifest == s.manifest && t.broker.manifest == s.broker.manifest
    decreases |ids|
  {
    hide RaisedBy;
    if ids != [] && count > 0 {
      var n := if count < |ids| then count else |ids|;
      var first := PublishState(s, ids[0]);
      RaisedOne(s, ids[0]);
      StagesPrefix(first, ids[1..], count - 1);
      assert ids[..n] == [ids[0]] + ids[1..][..n - 1];
      RaisedBoth(s, first, PublishStates(s, ids, count), ids[0], ids[1..][..n - 1]);
    } else {
      NothingRaised(s);
      assert ids[..if count < |ids| then count else |ids|] == [];
    }
  }

  lemma NothingRaised(s: State)
    ensures RaisedBy(s, s, [])
  {
  }

  /** A rebuild of a changed body whose every publish goes through, the manifest's being the last, commits the
      next revision of exactly this candidate, on the broker and in the process. With any publish missing both
      keep what they had. What was staged on the way is the published part of the list; an unchanged body stages
      it only when asked to. */
  lemma RebuildCommits(s: State, c: Candidate, republish: bool, publishes: nat)
    ensures var t := Apply(s, Rebuild(c, republish, publishes));
            var changed := s.manifest.None? || s.manifest.value.body != c.body;
            var revision := if s.manifest.None? then 1 else s.manifest.value.revision + 1;
            && (changed && publishes > |c.ids| ==>
                  t.manifest == Some(Manifest(revision, c.ids, c.body)) && t.broker.manifest == t.manifest)
            && (!changed || publishes <= |c.ids| ==>
                  t.manifest == s.manifest && t.broker.manifest == s.broker.manifest)
            && (changed || republish ==> RaisedBy(s, t, c.ids[..if publishes < |c.ids| then publishes else |c.ids|]))
            && (!changed && !republish ==> t == s)
  {
    hide PublishStates;
    StagesPrefix(s, c.ids, publishes);
    StagesPrefix(s, c.ids, |c.ids|);
  }

  /** A change of an entity the manifest lists raises its own sequence by one when it is published; any other
      change, and one whose publish fails, does nothing. */
  lemma ChangeRaises(s: State, id: string, published: bool)
    ensures var t := Apply(s, StateChanged(id, published));
            && t.manifest == s.manifest && t.broker.manifest == s.broker.manifest
            && (if published && s.manifest.Some? && id in s.manifest.value.ids then RaisedBy(s, t, [id]) else t == s)
  {
    hide RaisedBy;
    RaisedOne(s, id);
  }

  /** Throughout any process: the retained manifest is the committed one, every entity in it has a
      retained state of exactly its committed sequence, and neither sequences nor revisions go back. */
  lemma {:induction false} ManifestLast(s: State, ops: seq<Op>)
    requires Begins(s)
    ensures var t := ApplyAll(s, ops);
            Consistent(t)
            && (t.manifest.Some? ==>
                  t.broker.manifest == t.manifest
                  && forall id :: id in t.manifest.value.ids ==>
                       id in t.broker.states && t.broker.states[id] == SequenceOf(t, id) > 0)
            && (t.manifest.None? ==> t.broker.manifest == s.broker.manifest)
  {
    hide Apply;
    if ops != [] {
      ManifestLast(s, ops[..|ops| - 1]);
      OpKeeps(ApplyAll(s, ops[..|ops| - 1]), ops[|ops| - 1]);
    }
  }

  lemma {:induction false} RevisionsRise(s: State, ops: seq<Op>, n: nat)
    requires Begins(s) && n < |ops|
    ensures var t, u := ApplyAll(s, ops[..n]), ApplyAll(s, ops[..n + 1]);
            Grows(t, u)
              && (u.manifest == t.manifest || (u.manifest.Some? && u.manifest.value.revision == NextRevision(t)))
  {
    hide Apply;
    ManifestLast(s, ops[..n]);
    OpKeeps(ApplyAll(s, ops[..n]), ops[n]);
    assert ops[..n + 1][..n] == ops[..n] && ops[..n + 1][n] == ops[n];
  }

  // ----- as it runs -----

  class ManifestPublisher {
    var manifest: Option<Manifest>
    var sequences: map<string, nat>
    var broker: Broker

    constructor (retained: Broker)
      ensures Begins(Now()) && Now().broker == retained
    {
      manifest, sequences, broker := None, map[], retained;
    }

    ghost function Now(): State
      reads this
    {
      State(broker, manifest, sequences)
    }

    /** Stage one state; a failed publish leaves its sequence alone. */
    method PublishOne(id: string, ok: bool) returns (done: bool)
      modifies this
      ensures done == ok && Now() == if ok then PublishState(old(Now()), id) else old(Now())
    {
      if ok {
        var next := (if id in sequences then sequences[id] else 0) + 1;
        broker := broker.(states := broker.states[id := next]);
        sequences := sequences[id := next];
      }
      done := ok;
    }

    /** Stage the states of a list, in order, until one publish fails. */
    method StageStates(ids: seq<string>, publishes: nat) returns (ok: bool)
      modifies this
      ensures Now() == PublishStates(old(Now()), ids, publishes) && (ok <==> publishes >= |ids|)
    {
      var i := 0;
      while i < |ids|
        invariant 0 <= i <= |ids| && i <= publishes
        invariant PublishStates(Now(), ids[i..], publishes - i) == PublishStates(old(Now()), ids, publishes)
      {
        assert ids[i..][0] == ids[i] && ids[i..][1..] == ids[i + 1..];
        var done := PublishOne(ids[i], i < publishes);
        if !done { return false; }
        i := i + 1;
      }
      ok := true;
    }

    /** Rebuild, and commit by publishing the manifest after every state it names. */
    method RebuildManifest(candidate: Candidate, republish: bool, publishes: nat)
      modifies this
      ensures Now() == Apply(old(Now()), Rebuild(candidate, republish, publishes))
    {
      hide PublishStates, RaisedBy;
      PublishedAll(Now(), candidate.ids, publishes);
      if manifest.Some? && manifest.value.body == candidate.body {
        if republish { var staged := StageStates(candidate.ids, publishes); }
        return;
      }
      var revision := if manifest.None? then 1 else manifest.value.revision + 1;
      var ok := StageStates(candidate.ids, publishes);
      if !ok || publishes == |candidate.ids| { return; }
      StagesPrefix(old(Now()), candidate.ids, publishes);
      var next := Manifest(revision, candidate.ids, candidate.body);
      broker := broker.(manifest := Some(next));
      manifest := Some(next);
    }

    method OnStateChanged(id: string, ok: bool)
      modifies this
      ensures Now() == Apply(old(Now()), StateChanged(id, ok))
    {
      if manifest.Some? && id in manifest.value.ids { var done := PublishOne(id, ok); }
    }
  }

  lemma {:induction false} PublishedAll(s: State, ids: seq<string>, publishes: nat)
    ensures publishes >= |ids| ==> PublishStates(s, ids, publishes) == PublishStates(s, ids, |ids|)
    decreases |ids|
  {
    if ids != [] && publishes > 0 { PublishedAll(PublishState(s, ids[0]), ids[1..], publishes - 1); }
  }
}
