/**
 * The config-entry handoff of an onboarded panel: whose panel it is, read from the stored entry, and
 * the order in which ownership, marker and journal become durable. The stored entry is always a
 * snapshot the in-memory one had at some earlier moment.
 */
module Handoff {
  import opened Common

  /** Every journaled field of a panel's owner, and of its MQTT transport. */
  datatype Identity = Identity(fingerprint: string, publicKey: string, host: string, username: string, password: string,
                               slug: string, components: set<string>)

  datatype Broker = Broker(host: string, port: int, tls: bool)

  datatype Subentry = Subentry(id: string, identity: Identity, marker: Option<Uuid>)

  /** Who publishes scenes: a placeholder of the onboarding transaction, nobody, or a panel. */
  datatype SceneOwner = Placeholder(transaction: Uuid) | Unassigned | Owner(id: string)

  datatype Entry = Entry(subentries: seq<Subentry>, sceneOwner: SceneOwner, broker: Broker)

  datatype Record = Record(transaction: Uuid, identity: Identity, broker: Broker)

  datatype Ownership = NotOwned | OwnedBy(id: string) | Mismatch

  // ----- whose panel is it -----

  function Marked(subentries: seq<Subentry>, r: Record): seq<Subentry> {
    if subentries == [] then []
    else Marked(subentries[..|subentries| - 1], r)
         + (if subentries[|subentries| - 1].marker == Some(r.transaction) then [subentries[|subentries| - 1]] else [])
  }

  function Matching(subentries: seq<Subentry>, r: Record): seq<Subentry> {
    if subentries == [] then []
    else Matching(subentries[..|subentries| - 1], r)
         + (if subentries[|subentries| - 1].identity == r.identity then [subentries[|subentries| - 1]] else [])
  }

  predicate AnyMarker(subentries: seq<Subentry>) { exists i :: 0 <= i < |subentries| && subentries[i].marker.Some? }

  predicate ForeignMarker(subentries: seq<Subentry>, r: Record) {
    exists i :: 0 <= i < |subentries| && subentries[i].marker.Some? && subentries[i].marker != Some(r.transaction)
  }

  predicate RealOwner(e: Entry) {
    e.sceneOwner.Owner? && exists i :: 0 <= i < |e.subentries| && e.subentries[i].id == e.sceneOwner.id
  }

  /** One exact owner, or none, or a refusal of anything ambiguous. */
  function Owned(e: Entry, r: Record): Ownership {
    var marked := Marked(e.subentries, r);
    var matching := Matching(e.subentries, r);
    if |marked| > 1 || |matching| > 1 then Mismatch
    else if |marked| == 1 then
      if |matching| == 0 || matching[0] != marked[0] || e.broker != r.broker || ForeignMarker(e.subentries, r)
         then Mismatch
      else OwnedBy(marked[0].id)
    else if AnyMarker(e.subentries) then Mismatch
    else if |matching| == 0 then NotOwned
    else if !RealOwner(e) || e.broker != r.broker then Mismatch
    else OwnedBy(matching[0].id)
  }

  /** One pass over the subentries collects the marked and the matching ones. */
  method OwnedSubentry(e: Entry, r: Record) returns (ownership: Ownership)
    ensures ownership == Owned(e, r)
  {
    var marked: seq<Subentry> := [];
    var matching: seq<Subentry> := [];
    var anyMarker := false;
    var i := 0;
    while i < |e.subentries|
      invariant 0 <= i <= |e.subentries|
      invariant marked == Marked(e.subentries[..i], r) && matching == Matching(e.subentries[..i], r)
      invariant anyMarker == AnyMarker(e.subentries[..i])
    {
      var s := e.subentries[i];
      assert e.subentries[..i + 1][..i] == e.subentries[..i] && e.subentries[..i + 1][i] == s;
      if s.marker.Some? {
        anyMarker := true;
        if s.marker == Some(r.transaction) { marked := marked + [s]; }
      }
      if s.identity == r.identity { matching := matching + [s]; }
      i := i + 1;
    }
    assert e.subentries[..i] == e.subentries;
    if |marked| > 1 || |matching| > 1 { return Mismatch; }
    if |marked| == 1 {
      if |matching| == 0 || matching[0] != marked[0] || e.broker != r.broker || ForeignMarker(e.subentries, r) {
        return Mismatch;
      }
      return OwnedBy(marked[0].id);
    }
    if anyMarker { return Mismatch; }
    if |matching| == 0 { return NotOwned; }
    if !RealOwner(e) || e.broker != r.broker { return Mismatch; }
    ownership := OwnedBy(matching[0].id);
  }

  /** What an owner means, read off the entry: one subentry has the identity, no other has a marker,
      and it is either marked or the scene owner is already a real panel. */
  predicate OwnerShape(e: Entry, r: Record, id: string) {
    && e.broker == r.broker
    && exists i :: 0 <= i < |e.subentries| && IsOwner(e, r, id, i)
  }

  predicate IsOwner(e: Entry, r: Record, id: string, i: nat)
    requires i < |e.subentries|
  {
    && e.subentries[i].id == id && e.subentries[i].identity == r.identity
    && (e.subentries[i].marker == Some(r.transaction) || (e.subentries[i].marker.None? && RealOwner(e)))
    && (forall j :: 0 <= j < |e.subentries| && j != i ==>
          e.subentries[j].identity != r.identity && e.subentries[j].marker.None?)
  }

  lemma {:induction false} OnlyOneMatches(subentries: seq<Subentry>, r: Record, i: nat)
    requires i < |subentries| && subentries[i].identity == r.identity
    requires forall j :: 0 <= j < |subentries| && j != i ==> subentries[j].identity != r.identity
    ensures Matching(subentries, r) == [subentries[i]]
  {
    var n := |subentries| - 1;
    if i == n { NoneMatch(subentries[..n], r); } else { OnlyOneMatches(subentries[..n], r, i); }
  }

  lemma {:induction false} NoneMatch(subentries: seq<Subentry>, r: Record)
    requires forall j :: 0 <= j < |subentries| ==> subentries[j].identity != r.identity
    ensures Matching(subentries, r) == []
  {
    if subentries != [] { NoneMatch(subentries[..|subentries| - 1], r); }
  }

  lemma {:induction false} OnlyOneMarked(subentries: seq<Subentry>, r: Record, i: nat)
    requires i < |subentries| && subentries[i].marker == Some(r.transaction)
    requires forall j :: 0 <= j < |subentries| && j != i ==> subentries[j].marker.None?
    ensures Marked(subentries, r) == [subentries[i]]
  {
    var n := |subentries| - 1;
    if i == n { NoneMarked(subentries[..n], r); } else { OnlyOneMarked(subentries[..n], r, i); }
  }

  lemma {:induction false} NoneMarked(subentries: seq<Subentry>, r: Record)
    requires forall j :: 0 <= j < |subentries| ==> subentries[j].marker.None?
    ensures Marked(subentries, r) == []
  {
    if subentries != [] { NoneMarked(subentries[..|subentries| - 1], r); }
  }

  /** A single match tells where it comes from. */
  lemma {:induction false} MatchingFrom(subentries: seq<Subentry>, r: Record)
    ensures |Matching(subentries, r)| == 1 ==>
              Matching(subentries, r)[0].identity == r.identity
              && exists i :: 0 <= i < |subentries| && subentries[i] == Matching(subentries, r)[0]
                             && forall j :: 0 <= j < |subentries| && j != i ==> subentries[j].identity != r.identity
    ensures |Matching(subentries, r)| == 0 ==>
              forall j :: 0 <= j < |subentries| ==> subentries[j].identity != r.identity
  {
    if subentries != [] {
      var n := |subentries| - 1;
      var front := subentries[..n];
      MatchingFrom(front, r);
      if |Matching(subentries, r)| == 1 {
        if subentries[n].identity == r.identity {
          assert Matching(front, r) == [];
        } else {
          var i :| 0 <= i < |front| && front[i] == Matching(front, r)[0]
                   && forall j :: 0 <= j < |front| && j != i ==> front[j].identity != r.identity;
          assert subentries[i] == front[i];
        }
      }
    }
  }

  lemma {:induction false} MarkedFrom(subentries: seq<Subentry>, r: Record)
    ensures |Marked(subentries, r)| == 1 ==>
              Marked(subentries, r)[0].marker == Some(r.transaction)
              && exists i :: 0 <= i < |subentries| && subentries[i] == Marked(subentries, r)[0]
                             && forall j :: 0 <= j < |subentries| && j != i ==>
                                  subentries[j].marker != Some(r.transaction)
    ensures |Marked(subentries, r)| == 0 ==>
              forall j :: 0 <= j < |subentries| ==> subentries[j].marker != Some(r.transaction)
  {
    if subentries != [] {
      var n := |subentries| - 1;
      var front := subentries[..n];
      MarkedFrom(front, r);
      if |Marked(subentries, r)| == 1 {
        if subentries[n].marker == Some(r.transaction) {
          assert Marked(front, r) == [];
        } else {
          var i :| 0 <= i < |front| && front[i] == Marked(front, r)[0]
                   && forall j :: 0 <= j < |front| && j != i ==> front[j].marker != Some(r.transaction);
          assert subentries[i] == front[i];
        }
      }
    }
  }

  /** An owner is reported exactly for an entry of that shape. */
  lemma OwnedMeaning(e: Entry, r: Record, id: string)
    ensures Owned(e, r) == OwnedBy(id) <==> OwnerShape(e, r, id)
  {
    if OwnerShape(e, r, id) { ShapeIsOwned(e, r, id); }
    if Owned(e, r) == OwnedBy(id) { OwnedIsShape(e, r, id); }
  }

  lemma ShapeIsOwned(e: Entry, r: Record, id: string)
    requires OwnerShape(e, r, id)
    ensures Owned(e, r) == OwnedBy(id)
  {
    var i :| 0 <= i < |e.subentries| && IsOwner(e, r, id, i);
    OnlyOneMatches(e.subentries, r, i);
    if e.subentries[i].marker.Some? { OnlyOneMarked(e.subentries, r, i); } else { NoneMarked(e.subentries, r); }
    hide Marked, Matching, RealOwner;
  }

  lemma OwnedIsShape(e: Entry, r: Record, id: string)
    requires Owned(e, r) == OwnedBy(id)
    ensures OwnerShape(e, r, id)
  {
    hide Marked, Matching, RealOwner;
    MatchingFrom(e.subentries, r);
    MarkedFrom(e.subentries, r);
    var matching := Matching(e.subentries, r);
    var marked := Marked(e.subentries, r);
    var i :| 0 <= i < |e.subentries| && e.subentries[i] == matching[0]
             && forall j :: 0 <= j < |e.subentries| && j != i ==> e.subentries[j].identity != r.identity;
    if |marked| == 1 {
      var k :| 0 <= k < |e.subentries| && e.subentries[k] == marked[0]
               && forall j :: 0 <= j < |e.subentries| && j != k ==> e.subentries[j].marker != Some(r.transaction);
      assert k == i;
    }
    assert IsOwner(e, r, id, i);
  }

  /** The panel counts as nobody's exactly when no subentry has its identity and none carries any marker;
      whatever is neither that nor an owner is refused. */
  lemma NotOwnedMeaning(e: Entry, r: Record)
    ensures Owned(e, r).NotOwned? <==>
              forall i :: 0 <= i < |e.subentries| ==>
                e.subentries[i].identity != r.identity && e.subentries[i].marker.None?
    ensures Owned(e, r).Mismatch? <==> !Owned(e, r).NotOwned? && forall id :: !OwnerShape(e, r, id)
  {
    NobodysIs(e, r);
    hide Owned, OwnerShape;
    forall id ensures Owned(e, r) == OwnedBy(id) <==> OwnerShape(e, r, id) { OwnedMeaning(e, r, id); }
  }

  lemma NobodysIs(e: Entry, r: Record)
    ensures Owned(e, r).NotOwned? <==>
              forall i :: 0 <= i < |e.subentries| ==>
                e.subentries[i].identity != r.identity && e.subentries[i].marker.None?
  {
    hide Marked, Matching, RealOwner;
    MatchingFrom(e.subentries, r);
    MarkedFrom(e.subentries, r);
    if forall i :: 0 <= i < |e.subentries| ==>
         e.subentries[i].identity != r.identity && e.subentries[i].marker.None?
    {
      NoneMatch(e.subentries, r);
      NoneMarked(e.subentries, r);
    }
  }

  // ----- the handoff -----

  datatype Journal = Pending | Committed | Cleared | RolledBack

  /** How far completing the handoff has come. */
  datatype Completion = NotStarted | MarkerRemoved | Persisted

  /** `flow` is whether the onboarding flow is still in progress; `ready` whether the panel's runtime is
      owned. Both, like the handoff itself, are lost in a crash. */
  datatype World = World(
    memory: Entry,
    durable: Entry,
    journal: Journal,
    handoff: bool,
    ready: bool,
    completion: Completion,
    flow: bool)

  datatype Step =
    | Save
    | Crash
    | Prepare(persisted: bool)
    | RuntimeReady
    | RemoveMarker
    | WaitPersisted(persisted: bool)
    | SaveCommitted
    | ClearJournal
    | OtherEdit(entry: Entry)
    | FlowEnds
    | Recover

  predicate FirstSubentry(e: Entry, id: string) { |e.subentries| == 1 && e.subentries[0].id == id }

  /** Give the onboarded panel the scene role where only a placeholder or nobody has it. */
  function Normalized(e: Entry, r: Record, id: string): Option<Entry> {
    if e.sceneOwner == Placeholder(r.transaction) || (e.sceneOwner.Unassigned? && FirstSubentry(e, id))
    then Some(e.(sceneOwner := Owner(id)))
    else if RealOwner(e) then Some(e)
    else None
  }

  function Unmarked(e: Entry, id: string): Entry {
    e.(subentries := seq(|e.subentries|, i requires 0 <= i < |e.subentries| =>
      if e.subentries[i].id == id then e.subentries[i].(marker := None) else e.subentries[i]))
  }

  /** Pending while the entry names an owner, or the flow still runs; otherwise gone. */
  predicate LookupPending(w: World, r: Record) {
    Owned(w.memory, r).OwnedBy? || (Owned(w.memory, r).NotOwned? && w.flow)
  }

  /** Edits of other panels leave the onboarded one, every marker and the transport alone, and never
      leave the scene role on a panel that is gone. */
  predicate EditsOthers(a: Entry, b: Entry, r: Record, id: string) {
    && b.broker == a.broker
    && (b.sceneOwner == a.sceneOwner || RealOwner(b)) && (RealOwner(a) ==> RealOwner(b))
    && (forall i :: 0 <= i < |a.subentries| && a.subentries[i].id == id ==>
          exists j :: 0 <= j < |b.subentries| && b.subentries[j] == a.subentries[i])
    && (forall j :: 0 <= j < |b.subentries| && b.subentries[j].id != id ==>
          b.subentries[j].marker.None? && b.subentries[j].identity != r.identity)
    && (forall j, k ::
          0 <= j < |b.subentries| && 0 <= k < |b.subentries| && b.subentries[j].id == b.subentries[k].id ==> j == k)
  }

  /** A restart that finds the journal committed clears it only where the panel itself has the scene role. */
  predicate ClearsAtRestart(e: Entry, id: string) {
    e.sceneOwner == Owner(id)
    && forall i :: 0 <= i < |e.subentries| && e.subentries[i].id == id ==> e.subentries[i].marker.None?
  }

  predicate Enabled(w: World, r: Record, id: string, step: Step) {
    match step
    case Prepare(_) => w.journal.Pending? && Owned(w.memory, r).OwnedBy? && !w.handoff
    case RuntimeReady => w.handoff
    case RemoveMarker => w.handoff && w.ready && w.completion.NotStarted? && w.journal.Pending?
    case WaitPersisted(_) => w.completion.MarkerRemoved?
    case SaveCommitted => w.completion.Persisted? && w.journal.Pending?
    case ClearJournal => w.journal.Committed? && (w.completion.Persisted? || ClearsAtRestart(w.memory, id))
    case OtherEdit(entry) => EditsOthers(w.memory, entry, r, id)
    case Recover => w.journal.Pending? && !LookupPending(w, r)
    case _ => true
  }

  function Next(w: World, r: Record, id: string, step: Step): World
    requires Enabled(w, r, id, step)
  {
    match step
    case Save => w.(durable := w.memory)
    case Crash => w.(memory := w.durable, handoff := false, ready := false, completion := NotStarted, flow := false)
    case Prepare(persisted) =>
      (match Normalized(w.memory, r, Owned(w.memory, r).id)
       case None => w
       case Some(entry) =>
         if entry == w.memory then w.(handoff := true)
         else if persisted then w.(memory := entry, durable := entry, handoff := true)
         else w.(memory := entry))
    case RuntimeReady => w.(ready := true)
    case RemoveMarker => w.(memory := Unmarked(w.memory, id), completion := MarkerRemoved)
    case WaitPersisted(persisted) =>
      if persisted then w.(durable := w.memory, completion := Persisted) else w.(completion := NotStarted)
    case SaveCommitted => w.(journal := Committed)
    case ClearJournal => w.(journal := Cleared, handoff := false, completion := NotStarted)
    case OtherEdit(entry) => w.(memory := entry)
    case FlowEnds => w.(flow := false)
    case Recover => w.(journal := RolledBack)
  }

  // ----- what holds in every crash state -----

  predicate DistinctIds(e: Entry) {
    forall i, j :: 0 <= i < |e.subentries| && 0 <= j < |e.subentries| && e.subentries[i].id == e.subentries[j].id ==>
      i == j
  }

  predicate NoMarker(e: Entry) { forall i :: 0 <= i < |e.subentries| ==> e.subentries[i].marker.None? }

  predicate Good(e: Entry, r: Record, id: string) { OwnerShape(e, r, id) && DistinctIds(e) }

  predicate Inv(w: World, r: Record, id: string) {
    && Good(w.memory, r, id) && Good(w.durable, r, id)
    && !w.journal.RolledBack?
    && (w.handoff ==> RealOwner(w.memory))
    && (!w.completion.NotStarted? ==> w.handoff && NoMarker(w.memory))
    && (w.completion.Persisted? ==> NoMarker(w.durable))
    && (w.journal.Committed? || w.journal.Cleared? ==> NoMarker(w.memory) && NoMarker(w.durable))
  }

  lemma UnmarkedIsGood(e: Entry, r: Record, id: string)
    requires Good(e, r, id) && RealOwner(e)
    ensures Good(Unmarked(e, id), r, id) && NoMarker(Unmarked(e, id)) && RealOwner(Unmarked(e, id))
  {
    var u := Unmarked(e, id);
    var i :| 0 <= i < |e.subentries| && IsOwner(e, r, id, i);
    var k :| 0 <= k < |e.subentries| && e.subentries[k].id == e.sceneOwner.id;
    assert u.subentries[k].id == e.sceneOwner.id;
    assert forall j :: 0 <= j < |u.subentries| ==>
             u.subentries[j].id == e.subentries[j].id && u.subentries[j].identity == e.subentries[j].identity;
    assert IsOwner(u, r, id, i);
  }

  lemma NormalizedIsGood(e: Entry, r: Record, id: string)
    requires Good(e, r, id) && Normalized(e, r, id).Some?
    ensures Good(Normalized(e, r, id).value, r, id) && RealOwner(Normalized(e, r, id).value)
    ensures NoMarker(e) ==> NoMarker(Normalized(e, r, id).value)
  {
    var n := Normalized(e, r, id).value;
    var i :| 0 <= i < |e.subentries| && IsOwner(e, r, id, i);
    assert n.subentries[i].id == id;
    assert RealOwner(n);
    assert IsOwner(n, r, id, i);
  }

  lemma OtherEditIsGood(a: Entry, b: Entry, r: Record, id: string)
    requires Good(a, r, id) && EditsOthers(a, b, r, id)
    ensures Good(b, r, id) && (RealOwner(a) ==> RealOwner(b)) && (NoMarker(a) ==> NoMarker(b))
  {
    hide RealOwner;
    var i :| 0 <= i < |a.subentries| && IsOwner(a, r, id, i);
    var j :| 0 <= j < |b.subentries| && b.subentries[j] == a.subentries[i];
    forall k | 0 <= k < |b.subentries| && k != j ensures b.subentries[k].id != id { assert b.subentries[j].id == id; }
    assert IsOwner(b, r, id, j);
  }

  /** Recovery starts no rollback while the invariant holds: the lookup always says pending. */
  lemma LookupIsPending(w: World, r: Record, id: string)
    requires Inv(w, r, id)
    ensures Owned(w.memory, r) == OwnedBy(id) && Owned(w.durable, r) == OwnedBy(id) && LookupPending(w, r)
  {
    hide OwnerShape, Owned, DistinctIds, NoMarker, RealOwner;
    OwnedMeaning(w.memory, r, id);
    OwnedMeaning(w.durable, r, id);
  }

  lemma StepKeeps(w: World, r: Record, id: string, step: Step)
    requires Inv(w, r, id) && Enabled(w, r, id, step)
    ensures Inv(Next(w, r, id, step), r, id)
  {
    hide Good, NoMarker, RealOwner, Owned, Normalized, Unmarked, EditsOthers;
    LookupIsPending(w, r, id);
    match step
    case Prepare(_) => if Normalized(w.memory, r, id).Some? { NormalizedIsGood(w.memory, r, id); }
    case RemoveMarker => UnmarkedIsGood(w.memory, r, id);
    case OtherEdit(entry) => OtherEditIsGood(w.memory, entry, r, id);
    case _ =>
  }

  ghost predicate Steps(w: World, v: World, r: Record, id: string) {
    exists step :: Enabled(w, r, id, step) && v == Next(w, r, id, step)
  }

  /** A run begins when the flow's subentry, with its marker, is stored. */
  ghost predicate Run(worlds: seq<World>, r: Record, id: string) {
    && |worlds| > 0
    && Good(worlds[0].memory, r, id) && worlds[0].durable == worlds[0].memory && worlds[0].journal.Pending?
    && !worlds[0].handoff && worlds[0].completion.NotStarted?
    && forall i :: 0 < i < |worlds| ==> Steps(worlds[i - 1], worlds[i], r, id)
  }

  lemma {:induction false} RunKeeps(worlds: seq<World>, r: Record, id: string, i: nat)
    requires Run(worlds, r, id) && i < |worlds|
    ensures Inv(worlds[i], r, id)
  {
    hide Enabled, Next, Good, NoMarker, RealOwner;
    if i > 0 {
      RunKeeps(worlds, r, id, i - 1);
      assert Steps(worlds[i - 1], worlds[i], r, id);
      var step :| Enabled(worlds[i - 1], r, id, step) && worlds[i] == Next(worlds[i - 1], r, id, step);
      StepKeeps(worlds[i - 1], r, id, step);
    }
  }

  /**
   * In every crash state of the handoff the stored entry, and the one in memory, name exactly the
   * journal's panel; the lookup says pending, so no recovery ever rolls the panel back; and once the
   * journal is committed the stored entry no longer carries the marker.
   */
  lemma HandoffIsSafe(worlds: seq<World>, r: Record, id: string, i: nat)
    requires Run(worlds, r, id) && i < |worlds|
    ensures Owned(worlds[i].memory, r) == OwnedBy(id) && Owned(worlds[i].durable, r) == OwnedBy(id)
    ensures LookupPending(worlds[i], r) && !Enabled(worlds[i], r, id, Recover) && !worlds[i].journal.RolledBack?
    ensures worlds[i].journal.Committed? || worlds[i].journal.Cleared? ==> NoMarker(worlds[i].durable)
  {
    hide Good, RealOwner, Owned, NoMarker;
    RunKeeps(worlds, r, id, i);
    LookupIsPending(worlds[i], r, id);
  }

  // ----- undisturbed runs -----

  /** Where a list of steps leads, if each can happen in turn. */
  function Play(w: World, r: Record, id: string, steps: seq<Step>): Option<World>
    decreases |steps|
  {
    if steps == [] then Some(w)
    else if Enabled(w, r, id, steps[0]) then Play(Next(w, r, id, steps[0]), r, id, steps[1..])
    else None
  }

  lemma PlayFirst(w: World, r: Record, id: string, step: Step, steps: seq<Step>)
    requires Enabled(w, r, id, step)
    ensures Play(w, r, id, [step] + steps) == Play(Next(w, r, id, step), r, id, steps)
  {
    assert ([step] + steps)[1..] == steps;
    hide Enabled, Next;
  }

  /** The handoff has a scene role to give or to leave: the placeholder of its own transaction, nobody's beside the
      only panel, or a real panel's. */
  predicate Settleable(e: Entry, r: Record, id: string) {
    || e.sceneOwner == Placeholder(r.transaction)
    || (e.sceneOwner == Unassigned && |e.subentries| == 1)
    || RealOwner(e)
  }

  /** The entry as onboarding leaves it: the panel's marker gone, and the scene role with a real panel. */
  predicate Settled(e: Entry, f: Entry, id: string) {
    && f.broker == e.broker && |f.subentries| == |e.subentries|
    && f.sceneOwner == (if e.sceneOwner.Owner? then e.sceneOwner else Owner(id))
    && forall i :: 0 <= i < |e.subentries| ==>
         f.subentries[i] == if e.subentries[i].id == id then e.subentries[i].(marker := None) else e.subentries[i]
  }

  /** A world in which the flow has just stored its subentry. */
  predicate Begun(w: World, r: Record, id: string) {
    Good(w.memory, r, id) && w.journal.Pending? && !w.handoff && w.completion.NotStarted?
  }

  lemma PrepareIs(w: World, r: Record, id: string)
    requires Begun(w, r, id)
    ensures Enabled(w, r, id, Prepare(true))
    ensures var p := Next(w, r, id, Prepare(true));
            && (p.handoff <==> Settleable(w.memory, r, id)) && (!p.handoff ==> p == w)
            && (p.handoff ==>
                  p == w.(memory := p.memory, durable := p.durable, handoff := true) && RealOwner(p.memory)
                  && p.memory == w.memory.(sceneOwner := if w.memory.sceneOwner.Owner? then w.memory.sceneOwner
                                                         else Owner(id)))
  {
    OwnedMeaning(w.memory, r, id);
    hide Owned;
    var i :| 0 <= i < |w.memory.subentries| && IsOwner(w.memory, r, id, i);
    if |w.memory.subentries| == 1 { assert w.memory.subentries[0].id == id; }
    if Normalized(w.memory, r, id).Some? { NormalizedIsGood(w.memory, r, id); }
  }

  /** Preparing starts the handoff exactly where the scene role can be settled. From there, undisturbed, the marker
      goes, the entry is stored without it, and the journal is committed and cleared. */
  lemma HandoffCompletes(w: World, r: Record, id: string)
    requires Begun(w, r, id)
    ensures Enabled(w, r, id, Prepare(true))
    ensures Next(w, r, id, Prepare(true)).handoff <==> Settleable(w.memory, r, id)
    ensures Settleable(w.memory, r, id) ==>
              var end := Play(w, r, id, [Prepare(true)] + ([RuntimeReady] + ([RemoveMarker] + ([WaitPersisted(true)]
                                          + ([Step.SaveCommitted] + ([Step.ClearJournal] + []))))));
              end.Some? && end.value.journal.Cleared? && !end.value.handoff
              && end.value.memory == end.value.durable && Settled(w.memory, end.value.memory, id)
  {
    hide Good, RealOwner, Play, Normalized, Owned;
    PrepareIs(w, r, id);
    if Settleable(w.memory, r, id) {
      var tail := [Step.SaveCommitted] + ([Step.ClearJournal] + []);
      var w1 := Next(w, r, id, Prepare(true));
      PlayFirst(w, r, id, Prepare(true), [RuntimeReady] + ([RemoveMarker] + ([WaitPersisted(true)] + tail)));
      StoredWithout(w1, r, id, tail);
      PlayFirst(Stored(w1, id), r, id, Step.SaveCommitted, [Step.ClearJournal] + []);
      var w5 := Stored(w1, id).(journal := Committed);
      PlayFirst(w5, r, id, Step.ClearJournal, []);
      PlayNothing(Next(w5, r, id, Step.ClearJournal), r, id);
    }
  }

  lemma PlayNothing(w: World, r: Record, id: string)
    ensures Play(w, r, id, []) == Some(w)
  {
  }

  /** The pending handoff once its marker is gone and that is on disk. */
  function Stored(w: World, id: string): World {
    var entry := Unmarked(w.memory, id);
    w.(memory := entry, durable := entry, ready := true, completion := Persisted)
  }

  lemma StoredWithout(w: World, r: Record, id: string, steps: seq<Step>)
    requires w.handoff && w.journal.Pending? && w.completion.NotStarted?
    ensures Play(w, r, id, [RuntimeReady] + ([RemoveMarker] + ([WaitPersisted(true)] + steps)))
         == Play(Stored(w, id), r, id, steps)
  {
    hide Play, Unmarked;
    var w2 := w.(ready := true);
    var w3 := w2.(memory := Unmarked(w.memory, id), completion := MarkerRemoved);
    PlayFirst(w, r, id, RuntimeReady, [RemoveMarker] + ([WaitPersisted(true)] + steps));
    PlayFirst(w2, r, id, RemoveMarker, [WaitPersisted(true)] + steps);
    PlayFirst(w3, r, id, WaitPersisted(true), steps);
  }

  /** A process that dies between committing the journal and clearing it: the restart clears it if and only if the
      onboarded panel has the scene role. Every further panel of a fleet, whose scene role stays with another, is
      left with a committed journal that the restart refuses. */
  lemma CommittedRestart(w: World, r: Record, id: string)
    requires Begun(w, r, id) && Settleable(w.memory, r, id)
    ensures var end := Play(w, r, id, [Prepare(true)] + ([RuntimeReady] + ([RemoveMarker] + ([WaitPersisted(true)]
                                        + ([Step.SaveCommitted] + ([Crash] + []))))));
            end.Some? && end.value.journal.Committed? && Settled(w.memory, end.value.memory, id)
            && (Enabled(end.value, r, id, Step.ClearJournal) <==>
                  !w.memory.sceneOwner.Owner? || w.memory.sceneOwner.id == id)
  {
    hide Good, RealOwner, Play, Normalized, Owned;
    PrepareIs(w, r, id);
    var tail := [Step.SaveCommitted] + ([Crash] + []);
    var w1 := Next(w, r, id, Prepare(true));
    PlayFirst(w, r, id, Prepare(true), [RuntimeReady] + ([RemoveMarker] + ([WaitPersisted(true)] + tail)));
    StoredWithout(w1, r, id, tail);
    PlayFirst(Stored(w1, id), r, id, Step.SaveCommitted, [Crash] + []);
    var w5 := Stored(w1, id).(journal := Committed);
    PlayFirst(w5, r, id, Crash, []);
    PlayNothing(Next(w5, r, id, Crash), r, id);
  }

  // ----- as it runs -----

  class FleetHandoff {
    const record: Record
    const panel: string
    var memory: Entry
    var durable: Entry
    var journal: Journal
    var pending: bool
    var ready: bool
    var completion: Completion
    var flow: bool

    constructor (record: Record, panel: string, entry: Entry)
      ensures this.record == record && this.panel == panel
      ensures Now() == World(entry, entry, Pending, false, false, NotStarted, true)
    {
      this.record, this.panel := record, panel;
      memory, durable, journal := entry, entry, Pending;
      pending, ready, completion, flow := false, false, NotStarted, true;
    }

    ghost function Now(): World
      reads this
    {
      World(memory, durable, journal, pending, ready, completion, flow)
    }

    /** Normalize the scene role and wait for it on disk before the handoff counts as pending. */
    method PrepareProvisioning(persisted: bool)
      requires Enabled(Now(), record, panel, Prepare(persisted))
      modifies this
      ensures Now() == Next(old(Now()), record, panel, Prepare(persisted))
      ensures pending ==> RealOwner(memory) && (memory != old(memory) ==> durable == memory)
    {
      var owner := OwnedSubentry(memory, record);
      var placeholder := memory.sceneOwner == Placeholder(record.transaction);
      var first := memory.sceneOwner.Unassigned? && FirstSubentry(memory, owner.id);
      if !placeholder && !first {
        if RealOwner(memory) { pending := true; }
        return;
      }
      OwnedMeaning(memory, record, owner.id);
      ghost var i :| 0 <= i < |memory.subentries| && IsOwner(memory, record, owner.id, i);
      memory := memory.(sceneOwner := Owner(owner.id));
      assert memory.subentries[i].id == memory.sceneOwner.id;
      if !persisted { return; }
      durable := memory;
      pending := true;
    }

    /** The panel's runtime is owned: drop its marker from the entry. */
    method DropMarker()
      requires Enabled(Now(), record, panel, RemoveMarker)
      modifies this
      ensures Now() == Next(old(Now()), record, panel, RemoveMarker)
    {
      memory := Unmarked(memory, panel);
      completion := MarkerRemoved;
    }

    /** Only an entry that is durably without the marker lets the commit go on. */
    method AwaitPersisted(persisted: bool)
      requires Enabled(Now(), record, panel, WaitPersisted(persisted))
      modifies this
      ensures Now() == Next(old(Now()), record, panel, WaitPersisted(persisted))
    {
      if persisted {
        durable := memory;
        completion := Persisted;
      } else {
        completion := NotStarted;
      }
    }

    method CommitJournal()
      requires Enabled(Now(), record, panel, Step.SaveCommitted)
      modifies this
      ensures Now() == Next(old(Now()), record, panel, Step.SaveCommitted)
    {
      journal := Committed;
    }

    method ForgetHandoff()
      requires Enabled(Now(), record, panel, Step.ClearJournal)
      modifies this
      ensures Now() == Next(old(Now()), record, panel, Step.ClearJournal)
    {
      journal := Cleared;
      pending, completion := false, NotStarted;
    }
  }
}
