/**
 * Health evidence after an activation: the observer folds messages into a session, and the session
 * holds evidence exactly when the trace says so.
 */
module PanelHealth {
  import opened Common

  datatype Availability = Online | Offline | Garbage

  /** A panel's metadata; `deployment` is None when it is missing or malformed. */
  datatype Metadata = Unreadable | Readable(version: string, deployment: Option<string>)

  /** A discovery announcement: not JSON, another device's, this device's but wrong, or right. */
  datatype Announcement = Malformed | Foreign | Wrong | Right

  datatype Content =
    | AvailabilityMessage(availability: Availability)
    | MetadataMessage(metadata: Metadata)
    | StateMessage(topic: string, readable: bool)
    | DiscoveryMessage(topic: string, announcement: Announcement)

  /** `own` when topic and filter are this panel's; `retain` and `at` as the broker delivered it. */
  datatype Message = Message(own: bool, retain: bool, at: int, content: Content)

  /** The candidate being watched, set at the stop-confirmed activation boundary. */
  datatype Expected = Expected(version: string, deployment: string, since: int)

  datatype Session = Session(
    online: bool,
    version: Option<string>,
    deployment: Option<string>,
    states: set<string>,
    discoveries: set<string>,
    error: Option<string>)

  const Cleared: Session := Session(false, None, None, {}, {}, None)

  predicate Fresh(m: Message, x: Expected) { m.own && !m.retain && m.at >= x.since }

  /** Only the first error of a session is kept. */
  function WithError(s: Session, code: string): Session { if s.error.None? then s.(error := Some(code)) else s }

  predicate OnCandidate(s: Session, x: Expected) { s.version == Some(x.version) && s.deployment == Some(x.deployment) }

  function HandleAvailability(s: Session, a: Availability): Session {
    match a
    case Online => Cleared.(online := true)
    case Offline => Cleared
    case Garbage => WithError(s, "panel_health_payload_invalid")
  }

  /** Metadata of another deployment is stale, and so is everything heard before it. */
  function HandleMetadata(s: Session, m: Metadata, x: Expected): Session {
    if !s.online then s
    else if m.Unreadable? then WithError(s, "panel_health_payload_invalid")
    else if m.deployment != Some(x.deployment) then Cleared
    else
      var known := s.(version := Some(m.version), deployment := m.deployment);
      if m.version != x.version then WithError(known, "panel_health_version_mismatch") else known
  }

  function HandleState(s: Session, topic: string, readable: bool, x: Expected): Session {
    if !s.online || !OnCandidate(s, x) then s
    else if !readable then WithError(s, "panel_health_payload_invalid")
    else s.(states := s.states + {topic})
  }

  function HandleDiscovery(s: Session, topic: string, a: Announcement, x: Expected): Session {
    if !s.online || !OnCandidate(s, x) then s
    else
      match a
      case Malformed => s
      case Foreign => s
      case Wrong => WithError(s, "panel_health_payload_invalid")
      case Right => s.(discoveries := s.discoveries + {topic})
  }

  function Handle(s: Session, m: Message, x: Expected): Session {
    if !Fresh(m, x) then s
    else
      match m.content
      case AvailabilityMessage(a) => HandleAvailability(s, a)
      case MetadataMessage(d) => HandleMetadata(s, d, x)
      case StateMessage(topic, readable) => HandleState(s, topic, readable, x)
      case DiscoveryMessage(topic, a) => HandleDiscovery(s, topic, a, x)
  }

  /** The session after the first `n` messages since activation. */
  function Heard(trace: seq<Message>, n: nat, x: Expected): Session
    requires n <= |trace|
  {
    if n == 0 then Cleared else Handle(Heard(trace, n - 1, x), trace[n - 1], x)
  }

  predicate HasEvidence(s: Session, x: Expected) {
    s.online && OnCandidate(s, x) && s.states != {} && s.discoveries != {}
  }

  // ----- the same, read off the trace -----

  predicate IsOnline(m: Message, x: Expected) { Fresh(m, x) && m.content == AvailabilityMessage(Online) }

  /** An availability change, or metadata of another deployment, ends whatever session there was. */
  predicate Resets(m: Message, x: Expected) {
    Fresh(m, x)
    && match m.content
       case AvailabilityMessage(a) => !a.Garbage?
       case MetadataMessage(d) => d.Readable? && d.deployment != Some(x.deployment)
       case _ => false
  }

  predicate OwnMetadata(m: Message, x: Expected) {
    Fresh(m, x) && m.content.MetadataMessage? && m.content.metadata.Readable?
      && m.content.metadata.deployment == Some(x.deployment)
  }

  predicate GoodState(m: Message, x: Expected) { Fresh(m, x) && m.content.StateMessage? && m.content.readable }

  predicate GoodDiscovery(m: Message, x: Expected) {
    Fresh(m, x) && m.content.DiscoveryMessage? && m.content.announcement.Right?
  }

  /** The panel came online at `o`, and nothing reset it before `n`. */
  predicate SessionFrom(trace: seq<Message>, o: nat, n: nat, x: Expected)
    requires n <= |trace|
  {
    o < n && IsOnline(trace[o], x) && forall k :: o < k < n ==> !Resets(trace[k], x)
  }

  /** At `n` the last own metadata since `o` was the candidate's version. */
  predicate Current(trace: seq<Message>, o: nat, n: nat, x: Expected)
    requires n <= |trace|
  {
    exists m :: o < m < n && OwnMetadata(trace[m], x) && trace[m].content.metadata.version == x.version
                && forall k :: m < k < n ==> !OwnMetadata(trace[k], x)
  }

  predicate StateSeen(trace: seq<Message>, o: nat, n: nat, x: Expected)
    requires n <= |trace|
  {
    exists i :: o < i < n && GoodState(trace[i], x) && Current(trace, o, i, x)
  }

  predicate DiscoverySeen(trace: seq<Message>, o: nat, n: nat, x: Expected)
    requires n <= |trace|
  {
    exists i :: o < i < n && GoodDiscovery(trace[i], x) && Current(trace, o, i, x)
  }

  predicate EvidenceFrom(trace: seq<Message>, o: nat, n: nat, x: Expected)
    requires n <= |trace|
  {
    SessionFrom(trace, o, n, x) && Current(trace, o, n, x) && StateSeen(trace, o, n, x) && DiscoverySeen(trace, o, n, x)
  }

  /** The whole specification, on the trace alone. */
  ghost predicate Evidenced(trace: seq<Message>, x: Expected) { exists o: nat :: EvidenceFrom(trace, o, |trace|, x) }

  // ----- the fold computes it -----

  /** The session agrees with the trace, for the session that came online at `o`. */
  predicate Agrees(s: Session, trace: seq<Message>, o: nat, n: nat, x: Expected)
    requires n <= |trace|
  {
    && s.online && SessionFrom(trace, o, n, x)
    && (s.deployment.Some? ==> s.deployment == Some(x.deployment))
    && (s.version.Some? <==> s.deployment.Some?)
    && (OnCandidate(s, x) <==> Current(trace, o, n, x))
    && (s.states != {} <==> StateSeen(trace, o, n, x))
    && (s.discoveries != {} <==> DiscoverySeen(trace, o, n, x))
  }

  ghost predicate Tracks(s: Session, trace: seq<Message>, n: nat, x: Expected)
    requires n <= |trace|
  {
    if s.online then exists o: nat :: Agrees(s, trace, o, n, x)
    else forall o: nat :: !SessionFrom(trace, o, n, x)
  }

  lemma CurrentStep(trace: seq<Message>, o: nat, n: nat, x: Expected)
    requires n < |trace| && o < n
    ensures Current(trace, o, n + 1, x) <==>
              if OwnMetadata(trace[n], x) then trace[n].content.metadata.version == x.version
                 else Current(trace, o, n, x)
  {
    if OwnMetadata(trace[n], x) {
      if Current(trace, o, n + 1, x) {
        var m :| o < m < n + 1 && OwnMetadata(trace[m], x) && trace[m].content.metadata.version == x.version
                 && forall k :: m < k < n + 1 ==> !OwnMetadata(trace[k], x);
        assert m == n;
      }
    } else {
      if Current(trace, o, n, x) {
        var m :| o < m < n && OwnMetadata(trace[m], x) && trace[m].content.metadata.version == x.version
                 && forall k :: m < k < n ==> !OwnMetadata(trace[k], x);
        assert forall k :: m < k < n + 1 ==> !OwnMetadata(trace[k], x);
      }
      if Current(trace, o, n + 1, x) {
        var m :| o < m < n + 1 && OwnMetadata(trace[m], x) && trace[m].content.metadata.version == x.version
                 && forall k :: m < k < n + 1 ==> !OwnMetadata(trace[k], x);
        assert forall k :: m < k < n ==> !OwnMetadata(trace[k], x);
      }
    }
  }

  lemma SeenStep(trace: seq<Message>, o: nat, n: nat, x: Expected)
    requires n < |trace| && o < n
    ensures StateSeen(trace, o, n + 1, x) <==>
              StateSeen(trace, o, n, x) || (GoodState(trace[n], x) && Current(trace, o, n, x))
    ensures DiscoverySeen(trace, o, n + 1, x) <==>
              DiscoverySeen(trace, o, n, x) || (GoodDiscovery(trace[n], x) && Current(trace, o, n, x))
    ensures SessionFrom(trace, o, n + 1, x) <==> SessionFrom(trace, o, n, x) && !Resets(trace[n], x)
  {
    hide Current, GoodState, GoodDiscovery, Resets, IsOnline;
  }

  lemma FreshStart(trace: seq<Message>, n: nat, x: Expected)
    requires n < |trace|
    ensures SessionFrom(trace, n, n + 1, x) <==> IsOnline(trace[n], x)
    ensures !Current(trace, n, n + 1, x) && !StateSeen(trace, n, n + 1, x) && !DiscoverySeen(trace, n, n + 1, x)
  {
  }

  /** A message that does not reset a session moves it along with the trace. */
  lemma OpenStep(s: Session, trace: seq<Message>, o: nat, n: nat, x: Expected)
    requires n < |trace| && Agrees(s, trace, o, n, x) && !Resets(trace[n], x)
    ensures Agrees(Handle(s, trace[n], x), trace, o, n + 1, x)
  {
    CurrentStep(trace, o, n, x);
    SeenStep(trace, o, n, x);
    hide Current, StateSeen, DiscoverySeen, SessionFrom;
  }

  lemma NoSessionYet(trace: seq<Message>, o: nat, n: nat, x: Expected)
    requires n < |trace| && !IsOnline(trace[n], x) && (Resets(trace[n], x) || !SessionFrom(trace, o, n, x))
    ensures !SessionFrom(trace, o, n + 1, x)
  {
  }

  lemma ClosedStep(s: Session, trace: seq<Message>, n: nat, next: nat, x: Expected)
    requires n < |trace| && next == n + 1 && !s.online && Tracks(s, trace, n, x) && !IsOnline(trace[n], x)
    ensures Tracks(Handle(s, trace[n], x), trace, next, x)
  {
    hide Current, StateSeen, DiscoverySeen, Agrees;
    forall o: nat ensures !SessionFrom(trace, o, next, x) { NoSessionYet(trace, o, n, x); }
  }

  lemma ResetStep(s: Session, trace: seq<Message>, n: nat, next: nat, x: Expected)
    requires n < |trace| && next == n + 1 && s.online && Resets(trace[n], x)
    ensures Tracks(Handle(s, trace[n], x), trace, next, x)
  {
    hide Current, StateSeen, DiscoverySeen, Agrees;
    if IsOnline(trace[n], x) {
      OnlineStep(s, trace, n, x);
    } else {
      forall o: nat ensures !SessionFrom(trace, o, next, x) { NoSessionYet(trace, o, n, x); }
    }
  }

  lemma {:induction false} FoldTracks(trace: seq<Message>, n: nat, x: Expected)
    requires n <= |trace|
    ensures Tracks(Heard(trace, n, x), trace, n, x)
  {
    hide Handle, Agrees, Resets, IsOnline;
    if n > 0 {
      FoldTracks(trace, n - 1, x);
      var s := Heard(trace, n - 1, x);
      var m := trace[n - 1];
      if s.online && !Resets(m, x) {
        var o: nat :| Agrees(s, trace, o, n - 1, x);
        OpenStep(s, trace, o, n - 1, x);
        AgreesOnline(Handle(s, m, x), trace, o, n, x);
      } else if s.online {
        ResetStep(s, trace, n - 1, n, x);
      } else if IsOnline(m, x) {
        OnlineStep(s, trace, n - 1, x);
      } else {
        ClosedStep(s, trace, n - 1, n, x);
      }
    }
  }

  lemma AgreesOnline(s: Session, trace: seq<Message>, o: nat, n: nat, x: Expected)
    requires n <= |trace| && Agrees(s, trace, o, n, x)
    ensures s.online && SessionFrom(trace, o, n, x)
  {
  }

  lemma OnlineStep(s: Session, trace: seq<Message>, n: nat, x: Expected)
    requires n < |trace| && IsOnline(trace[n], x)
    ensures Tracks(Handle(s, trace[n], x), trace, n + 1, x)
  {
    FreshStart(trace, n, x);
    assert Agrees(Handle(s, trace[n], x), trace, n, n + 1, x);
    hide Current, StateSeen, DiscoverySeen;
  }

  /** The incremental session holds evidence exactly when the trace does. */
  lemma EvidenceIsTheTrace(trace: seq<Message>, x: Expected)
    ensures HasEvidence(Heard(trace, |trace|, x), x) <==> Evidenced(trace, x)
  {
    hide Handle, Resets, IsOnline, Current, StateSeen, DiscoverySeen;
    var n := |trace|;
    var s := Heard(trace, n, x);
    FoldTracks(trace, n, x);
    if s.online {
      var o: nat :| Agrees(s, trace, o, n, x);
      if HasEvidence(s, x) { assert EvidenceFrom(trace, o, n, x); }
      if Evidenced(trace, x) {
        var p: nat :| EvidenceFrom(trace, p, n, x);
        OneSession(trace, o, p, n, x);
      }
    } else {
      forall p: nat ensures !EvidenceFrom(trace, p, n, x) { assert !SessionFrom(trace, p, n, x); }
    }
  }

  /** The session at any moment has one beginning. */
  lemma OneSession(trace: seq<Message>, o: nat, p: nat, n: nat, x: Expected)
    requires n <= |trace| && SessionFrom(trace, o, n, x) && SessionFrom(trace, p, n, x)
    ensures o == p
  {
    if o < p { assert Resets(trace[p], x); } else if p < o { assert Resets(trace[o], x); }
  }

  // ----- faults, read off the trace -----

  ghost predicate InSession(trace: seq<Message>, n: nat, x: Expected)
    requires n <= |trace|
  {
    exists o: nat :: SessionFrom(trace, o, n, x)
  }

  /** The panel last said that it runs the candidate. */
  ghost predicate OnRelease(trace: seq<Message>, n: nat, x: Expected)
    requires n <= |trace|
  {
    exists o: nat :: SessionFrom(trace, o, n, x) && Current(trace, o, n, x)
  }

  /** What is wrong with a message when it arrives: an availability nobody can read, at any time; metadata nobody
      can read or of another version, in a session; a state nobody can read and a wrong announcement, from a panel
      that runs the candidate. */
  ghost function FaultAt(trace: seq<Message>, i: nat, x: Expected): Option<string>
    requires i < |trace|
  {
    if !Fresh(trace[i], x) then None
    else
      match trace[i].content
      case AvailabilityMessage(a) => if a == Garbage then Some("panel_health_payload_invalid") else None
      case MetadataMessage(d) =>
        if !InSession(trace, i, x) then None
        else if d.Unreadable? then Some("panel_health_payload_invalid")
        else if d.deployment == Some(x.deployment) && d.version != x.version
        then Some("panel_health_version_mismatch") else None
      case StateMessage(_, readable) =>
        if OnRelease(trace, i, x) && !readable then Some("panel_health_payload_invalid") else None
      case DiscoveryMessage(_, a) =>
        if OnRelease(trace, i, x) && a == Wrong then Some("panel_health_payload_invalid") else None
  }

  /** A session that begins or ends takes its fault along; metadata of another deployment ends only a session. */
  ghost predicate ClearsAt(trace: seq<Message>, i: nat, x: Expected)
    requires i < |trace|
  {
    Resets(trace[i], x) && (trace[i].content.AvailabilityMessage? || InSession(trace, i, x))
  }

  /** The first fault since the last such moment. */
  ghost predicate FirstFault(trace: seq<Message>, n: nat, i: nat, x: Expected)
    requires n <= |trace|
  {
    && i < n && FaultAt(trace, i, x).Some?
    && (forall k :: i < k < n ==> !ClearsAt(trace, k, x))
    && (forall k :: 0 <= k < i && FaultAt(trace, k, x).Some? ==> exists c :: k < c < i && ClearsAt(trace, c, x))
  }

  lemma SessionIs(trace: seq<Message>, n: nat, x: Expected)
    requires n <= |trace|
    ensures Heard(trace, n, x).online <==> InSession(trace, n, x)
    ensures Heard(trace, n, x).online && OnCandidate(Heard(trace, n, x), x) <==> OnRelease(trace, n, x)
  {
    hide Handle, Heard, Resets, IsOnline, Current, StateSeen, DiscoverySeen;
    FoldTracks(trace, n, x);
    var s := Heard(trace, n, x);
    if s.online {
      var o: nat :| Agrees(s, trace, o, n, x);
      forall p: nat | SessionFrom(trace, p, n, x) ensures p == o { OneSession(trace, p, o, n, x); }
    }
  }

  /** What one message does to the fault that is kept. */
  lemma ErrorStep(trace: seq<Message>, n: nat, x: Expected)
    requires n < |trace|
    ensures Heard(trace, n + 1, x).error ==
              if ClearsAt(trace, n, x) then None
              else if Heard(trace, n, x).error.Some? then Heard(trace, n, x).error
              else FaultAt(trace, n, x)
  {
    SessionIs(trace, n, x);
    hide InSession, OnRelease;
  }

  lemma {:induction false} UnclearedHasFirst(trace: seq<Message>, n: nat, k: nat, x: Expected) returns (i: nat)
    requires k < n <= |trace| && FaultAt(trace, k, x).Some? && forall c :: k < c < n ==> !ClearsAt(trace, c, x)
    ensures FirstFault(trace, n, i, x)
  {
    hide FaultAt, ClearsAt;
    if forall j :: 0 <= j < k && FaultAt(trace, j, x).Some? ==> exists c :: j < c < k && ClearsAt(trace, c, x) {
      i := k;
    } else {
      var j :| 0 <= j < k && FaultAt(trace, j, x).Some? && forall c :: j < c < k ==> !ClearsAt(trace, c, x);
      if ClearsAt(trace, k, x) {
        NoFaultClears(trace, k, x);
        assert false;
      }
      i := UnclearedHasFirst(trace, n, j, x);
    }
  }

  lemma NoFaultClears(trace: seq<Message>, k: nat, x: Expected)
    requires k < |trace|
    ensures !(ClearsAt(trace, k, x) && FaultAt(trace, k, x).Some?)
  {
  }

  lemma FaultsExtend(trace: seq<Message>, m: nat, x: Expected)
    requires m < |trace| && !ClearsAt(trace, m, x)
    ensures forall i :: 0 <= i < m ==> (FirstFault(trace, m + 1, i, x) <==> FirstFault(trace, m, i, x))
    ensures FirstFault(trace, m + 1, m, x) <==>
              FaultAt(trace, m, x).Some? && forall i :: 0 <= i < m ==> !FirstFault(trace, m, i, x)
  {
    hide FaultAt, ClearsAt;
    if FaultAt(trace, m, x).Some? && forall i :: 0 <= i < m ==> !FirstFault(trace, m, i, x) {
      forall k | 0 <= k < m && FaultAt(trace, k, x).Some? ensures exists c :: k < c < m && ClearsAt(trace, c, x) {
        if forall c :: k < c < m ==> !ClearsAt(trace, c, x) { var i := UnclearedHasFirst(trace, m, k, x); }
      }
    }
  }

  lemma ClearedHasNone(trace: seq<Message>, m: nat, n: nat, x: Expected)
    requires m < |trace| && n == m + 1 && ClearsAt(trace, m, x)
    ensures forall i :: 0 <= i < n ==> !FirstFault(trace, n, i, x)
  {
    NoFaultClears(trace, m, x);
    hide FaultAt, ClearsAt;
  }

  /** The fault a session keeps is the first one since it began. */
  lemma {:induction false} ErrorIsTheTrace(trace: seq<Message>, n: nat, x: Expected)
    requires n <= |trace|
    ensures forall code :: Heard(trace, n, x).error == Some(code) <==>
              exists i :: 0 <= i < n && FirstFault(trace, n, i, x) && FaultAt(trace, i, x) == Some(code)
  {
    if n == 0 {
      assert Heard(trace, n, x) == Cleared;
    } else {
      hide Heard, FaultAt, ClearsAt, FirstFault;
      var m: nat := n - 1;
      ErrorIsTheTrace(trace, m, x);
      ErrorStep(trace, m, x);
      if ClearsAt(trace, m, x) {
        ClearedHasNone(trace, m, n, x);
      } else {
        FaultsExtend(trace, m, x);
        ErrorExtends(trace, m, x);
      }
    }
  }

  lemma ErrorExtends(trace: seq<Message>, m: nat, x: Expected)
    requires m < |trace|
    requires Heard(trace, m + 1, x).error ==
               if Heard(trace, m, x).error.Some? then Heard(trace, m, x).error else FaultAt(trace, m, x)
    requires forall code :: Heard(trace, m, x).error == Some(code) <==>
               exists i :: 0 <= i < m && FirstFault(trace, m, i, x) && FaultAt(trace, i, x) == Some(code)
    requires forall i :: 0 <= i < m ==> (FirstFault(trace, m + 1, i, x) <==> FirstFault(trace, m, i, x))
    requires FirstFault(trace, m + 1, m, x) <==>
               FaultAt(trace, m, x).Some? && forall i :: 0 <= i < m ==> !FirstFault(trace, m, i, x)
    requires forall i :: 0 <= i < m && FirstFault(trace, m, i, x) ==> FaultAt(trace, i, x).Some?
    ensures forall code :: Heard(trace, m + 1, x).error == Some(code) <==>
              exists i :: 0 <= i < m + 1 && FirstFault(trace, m + 1, i, x) && FaultAt(trace, i, x) == Some(code)
  {
    hide Heard, FaultAt, ClearsAt, FirstFault;
    forall code
      ensures Heard(trace, m + 1, x).error == Some(code) <==>
                exists i :: 0 <= i < m + 1 && FirstFault(trace, m + 1, i, x) && FaultAt(trace, i, x) == Some(code)
    {
      if Heard(trace, m, x).error == Some(code) {
        var i :| 0 <= i < m && FirstFault(trace, m, i, x) && FaultAt(trace, i, x) == Some(code);
        assert FirstFault(trace, m + 1, i, x);
      }
    }
  }

  // ----- the verdict -----

  /** Which topics were heard, and under which conditions. */
  predicate StateHeard(trace: seq<Message>, o: nat, n: nat, topic: string, x: Expected)
    requires n <= |trace|
  {
    exists i :: o < i < n && GoodState(trace[i], x) && trace[i].content.topic == topic && Current(trace, o, i, x)
  }

  predicate DiscoveryHeard(trace: seq<Message>, o: nat, n: nat, topic: string, x: Expected)
    requires n <= |trace|
  {
    exists i :: o < i < n && GoodDiscovery(trace[i], x) && trace[i].content.topic == topic && Current(trace, o, i, x)
  }

  lemma {:induction false} TopicsAreHeard(trace: seq<Message>, o: nat, n: nat, x: Expected)
    requires n <= |trace| && SessionFrom(trace, o, n, x)
    ensures forall topic :: topic in Heard(trace, n, x).states <==> StateHeard(trace, o, n, topic, x)
    ensures forall topic :: topic in Heard(trace, n, x).discoveries <==> DiscoveryHeard(trace, o, n, topic, x)
    decreases n
  {
    var m: nat := n - 1;
    if o == m {
    } else {
      TopicsAreHeard(trace, o, m, x);
      TopicsStep(trace, o, m, n, x);
    }
  }

  /** A good message of a panel that runs the candidate adds its topic. */
  lemma TopicsHandled(trace: seq<Message>, o: nat, m: nat, x: Expected)
    requires m < |trace| && SessionFrom(trace, o, m, x) && !Resets(trace[m], x)
    ensures var s, t := Heard(trace, m, x), Heard(trace, m + 1, x);
            && t.states == s.states + (if GoodState(trace[m], x) && Current(trace, o, m, x)
                                       then {trace[m].content.topic} else {})
            && t.discoveries == s.discoveries + (if GoodDiscovery(trace[m], x) && Current(trace, o, m, x)
                                                 then {trace[m].content.topic} else {})
  {
    SessionIs(trace, m, x);
    forall p: nat | SessionFrom(trace, p, m, x) ensures p == o { OneSession(trace, p, o, m, x); }
    hide Current, SessionFrom;
  }

  lemma TopicsStep(trace: seq<Message>, o: nat, m: nat, n: nat, x: Expected)
    requires m < |trace| && n == m + 1 && SessionFrom(trace, o, m, x) && !Resets(trace[m], x)
    requires forall topic :: topic in Heard(trace, m, x).states <==> StateHeard(trace, o, m, topic, x)
    requires forall topic :: topic in Heard(trace, m, x).discoveries <==> DiscoveryHeard(trace, o, m, topic, x)
    ensures forall topic :: topic in Heard(trace, n, x).states <==> StateHeard(trace, o, n, topic, x)
    ensures forall topic :: topic in Heard(trace, n, x).discoveries <==> DiscoveryHeard(trace, o, n, topic, x)
  {
    hide Heard, Handle, Current, GoodState, GoodDiscovery, Resets;
    TopicsHandled(trace, o, m, x);
    assert o < m;
  }

  /** What waiting comes to: a fault ends it, evidence without a fault ends it well, anything else goes on. */
  datatype Verdict = Pending | Faulty(code: string) | Healthy(stateTopic: string, discoveryTopic: string)

  /** Which one it is can be read off the trace. */
  lemma VerdictIsTheTrace(trace: seq<Message>, x: Expected)
    ensures var s, n := Heard(trace, |trace|, x), |trace|;
            && (s.error.None? && HasEvidence(s, x) <==>
                  Evidenced(trace, x) && forall i :: 0 <= i < n ==> !FirstFault(trace, n, i, x))
            && (forall code :: s.error == Some(code) <==>
                  exists i :: 0 <= i < n && FirstFault(trace, n, i, x) && FaultAt(trace, i, x) == Some(code))
  {
    hide Heard, FaultAt, HasEvidence, Evidenced;
    EvidenceIsTheTrace(trace, x);
    ErrorIsTheTrace(trace, |trace|, x);
  }

  // ----- as it runs -----

  class PanelHealthObserver {
    const expected: Expected
    var online: bool
    var version: Option<string>
    var deployment: Option<string>
    var states: set<string>
    var discoveries: set<string>
    var error: Option<string>

    constructor (x: Expected)
      ensures expected == x && Now() == Cleared
    {
      expected := x;
      online, version, deployment, states, discoveries, error := false, None, None, {}, {}, None;
    }

    function Now(): Session
      reads this
    {
      Session(online, version, deployment, states, discoveries, error)
    }

    method ClearSession()
      modifies this
      ensures Now() == Cleared
    {
      online, version, deployment, states, discoveries, error := false, None, None, {}, {}, None;
    }

    method SetError(code: string)
      modifies this
      ensures Now() == WithError(old(Now()), code)
    {
      if error.None? { error := Some(code); }
    }

    method OnAvailability(a: Availability)
      modifies this
      ensures Now() == HandleAvailability(old(Now()), a)
    {
      if a.Online? {
        ClearSession();
        online := true;
      } else if a.Offline? {
        ClearSession();
      } else {
        SetError("panel_health_payload_invalid");
      }
    }

    method OnMetadata(m: Metadata)
      modifies this
      ensures Now() == HandleMetadata(old(Now()), m, expected)
    {
      if !online { return; }
      if m.Unreadable? { SetError("panel_health_payload_invalid"); return; }
      if m.deployment != Some(expected.deployment) { ClearSession(); return; }
      version := Some(m.version);
      deployment := m.deployment;
      if m.version != expected.version { SetError("panel_health_version_mismatch"); }
    }

    method OnState(topic: string, readable: bool)
      modifies this
      ensures Now() == HandleState(old(Now()), topic, readable, expected)
    {
      if !online || version != Some(expected.version) || deployment != Some(expected.deployment) { return; }
      if !readable { SetError("panel_health_payload_invalid"); return; }
      states := states + {topic};
    }

    method OnDiscovery(topic: string, a: Announcement)
      modifies this
      ensures Now() == HandleDiscovery(old(Now()), topic, a, expected)
    {
      if !online || version != Some(expected.version) || deployment != Some(expected.deployment) { return; }
      match a {
        case Malformed =>
        case Foreign =>
        case Wrong => SetError("panel_health_payload_invalid");
        case Right => discoveries := discoveries + {topic};
      }
    }

    /** What the waiter finds when it looks. */
    method Poll() returns (verdict: Verdict)
      ensures verdict.Faulty? <==> error.Some?
      ensures verdict.Faulty? ==> error == Some(verdict.code)
      ensures verdict.Healthy? <==> error.None? && HasEvidence(Now(), expected)
      ensures verdict.Healthy? ==> verdict.stateTopic in states && verdict.discoveryTopic in discoveries
    {
      if error.Some? { return Faulty(error.value); }
      if !online || version != Some(expected.version) || deployment != Some(expected.deployment)
         || states == {} || discoveries == {} {
        return Pending;
      }
      var stateTopic :| stateTopic in states;
      var discoveryTopic :| discoveryTopic in discoveries;
      verdict := Healthy(stateTopic, discoveryTopic);
    }

    /** Any delivered message; only fresh ones of this panel reach a handler. */
    method OnMessage(m: Message)
      modifies this
      ensures Now() == Handle(old(Now()), m, expected)
    {
      if !m.own || m.retain || m.at < expected.since { return; }
      match m.content {
        case AvailabilityMessage(a) => OnAvailability(a);
        case MetadataMessage(d) => OnMetadata(d);
        case StateMessage(topic, readable) => OnState(topic, readable);
        case DiscoveryMessage(topic, a) => OnDiscovery(topic, a);
      }
    }
  }
}
