/**
 * Command idempotency: results are cached in creation order, by time and by number, and a command that
 * is no longer cached must still pass the freshness window. Times are milliseconds; the monotonic and
 * the wall clock are taken to advance together.
 */
module CommandCache {
  import opened Common

  const CACHE_LIMIT: nat := 1024
  const CACHE_TTL: int := 600000
  const COMMAND_TTL: int := 15000
  const FUTURE_SKEW: int := 5000

  /** How long a command may wait for the lifecycle lock before its result can expire ahead of it. */
  const WAIT_BOUND: int := CACHE_TTL - COMMAND_TTL - FUTURE_SKEW

  /** One byte-stable result; `serial` counts insertions. */
  datatype Entry = Entry(id: string, created: int, payload: string, serial: nat)

  /** A wire command. `valid` stands for every check but its age; `addressed` for naming an entity. */
  datatype Message = Message(id: Option<string>, issuedAt: int, valid: bool, addressed: bool)

  /** A command once it holds the command lock: when it got it, when it was decoded under the lifecycle
      lock, whether commands are accepted then, and the result text it would produce. */
  datatype Arrival = Arrival(message: Message, started: int, decoded: int, accepted: bool, result: string)

  datatype Call = Call(id: string, issuedAt: int, started: int, decoded: int, serial: nat)

  datatype Reply = Reply(id: string, payload: string, serial: nat)

  datatype State = State(entries: seq<Entry>, inserted: nat, now: int, calls: seq<Call>, replies: seq<Reply>)

  predicate Expired(e: Entry, now: int) { now - e.created > CACHE_TTL }

  /** Drop expired entries from the front, up to the first live one. */
  function Purged(entries: seq<Entry>, now: int): seq<Entry> {
    if entries != [] && Expired(entries[0], now) then Purged(entries[1..], now) else entries
  }

  function Evicted(entries: seq<Entry>): seq<Entry> {
    if |entries| > CACHE_LIMIT then Evicted(entries[1..]) else entries
  }

  function Find(entries: seq<Entry>, id: string): Option<Entry> {
    if entries == [] then None else if entries[0].id == id then Some(entries[0]) else Find(entries[1..], id)
  }

  /** Neither from too far ahead nor too old. */
  predicate Fresh(issuedAt: int, now: int) { issuedAt <= now + FUTURE_SKEW && now - issuedAt <= COMMAND_TTL }

  /** One command, start to end. */
  function Execute(s: State, a: Arrival): State {
    if !a.accepted then s.(now := a.started)
    else
      var purged := Purged(s.entries, a.started);
      var waiting := s.(entries := purged, now := a.started);
      var m := a.message;
      if m.id.None? then waiting
      else
        var cached := Find(purged, m.id.value);
        if cached.Some?
           then waiting.(replies := s.replies + [Reply(m.id.value, cached.value.payload, cached.value.serial)])
        else
          var calls := m.valid && m.addressed && Fresh(m.issuedAt, a.decoded);
          if !m.addressed then waiting
          else
            waiting.(entries := Evicted(purged + [Entry(m.id.value, a.started, a.result, s.inserted)]),
                     inserted := s.inserted + 1,
                     calls := if calls then s.calls + [Call(m.id.value, m.issuedAt, a.started, a.decoded, s.inserted)]
                       else s.calls,
                     replies := s.replies + [Reply(m.id.value, a.result, s.inserted)])
  }

  function ExecuteAll(s: State, stream: seq<Arrival>): State {
    if stream == [] then s else Execute(ExecuteAll(s, stream[..|stream| - 1]), stream[|stream| - 1])
  }

  const Empty: State := State([], 0, 0, [], [])

  /** Commands run one after another, and no clock runs backwards. */
  predicate Serial(stream: seq<Arrival>) {
    && (forall i :: 0 <= i < |stream| ==> 0 <= stream[i].started <= stream[i].decoded)
    && (forall i, j :: 0 <= i < j < |stream| ==> stream[i].decoded <= stream[j].started)
  }

  // ----- the cache -----

  /** Creation order, no key twice, and exactly the most recent insertions. */
  predicate Ordered(entries: seq<Entry>, inserted: nat, now: int) {
    && |entries| <= inserted
    && (forall i :: 0 <= i < |entries| ==> entries[i].serial == inserted - |entries| + i && entries[i].created <= now)
    && (forall i, j :: 0 <= i < j < |entries| ==>
          entries[i].created <= entries[j].created && entries[i].id != entries[j].id)
  }

  function Alive(entries: seq<Entry>, now: int): seq<Entry> {
    if entries == [] then [] else (if Expired(entries[0], now) then [] else [entries[0]]) + Alive(entries[1..], now)
  }

  lemma {:induction false} NoneExpired(entries: seq<Entry>, now: int)
    requires forall i :: 0 <= i < |entries| ==> !Expired(entries[i], now)
    ensures Alive(entries, now) == entries
  {
    if entries != [] { NoneExpired(entries[1..], now); }
  }

  /** Popping from the front until the first live entry removes exactly the expired ones. */
  lemma {:induction false} PurgeIsExact(entries: seq<Entry>, inserted: nat, now: int, later: int)
    requires Ordered(entries, inserted, now)
    ensures Purged(entries, later) == Alive(entries, later)
    ensures Ordered(Purged(entries, later), inserted, now)
  {
    if entries != [] {
      if Expired(entries[0], later) {
        PurgeIsExact(entries[1..], inserted, now, later);
      } else {
        NoneExpired(entries, later);
      }
    }
  }

  /** What purging keeps is a suffix, and everything it drops is expired. */
  lemma {:induction false} PurgeDrops(entries: seq<Entry>, now: int)
    ensures |Purged(entries, now)| <= |entries|
    ensures Purged(entries, now) == entries[|entries| - |Purged(entries, now)|..]
    ensures forall i :: 0 <= i < |entries| - |Purged(entries, now)| ==> Expired(entries[i], now)
  {
    if entries != [] && Expired(entries[0], now) {
      PurgeDrops(entries[1..], now);
      assert entries[1..][|entries| - 1 - |Purged(entries, now)|..] == entries[|entries| - |Purged(entries, now)|..];
    }
  }

  lemma DropDrop(entries: seq<Entry>, k: nat)
    requires k + 1 <= |entries|
    ensures entries[1..][k..] == entries[k + 1..]
  {
  }

  /** Eviction keeps exactly the newest entries, up to the limit. */
  lemma {:induction false} EvictDrops(entries: seq<Entry>)
    ensures Evicted(entries) == if |entries| > CACHE_LIMIT then entries[|entries| - CACHE_LIMIT..] else entries
    decreases |entries|
  {
    if |entries| > CACHE_LIMIT {
      var rest := entries[1..];
      EvictDrops(rest);
      DropDrop(entries, |entries| - 1 - CACHE_LIMIT);
      if |rest| <= CACHE_LIMIT { assert rest == entries[|entries| - CACHE_LIMIT..]; }
    }
  }

  lemma {:induction false} FindFinds(entries: seq<Entry>, id: string)
    ensures Find(entries, id).Some? ==> Find(entries, id).value in entries && Find(entries, id).value.id == id
    ensures Find(entries, id).None? ==> forall e :: e in entries ==> e.id != id
  {
    if entries != [] { FindFinds(entries[1..], id); }
  }

  /** Every result gone from the cache was outlived by a cacheful of newer ones, or by its time. */
  predicate Accounted(s: State, serial: nat, id: string, created: int) {
    || (exists e :: e in s.entries && e.serial == serial && e.id == id && e.created == created)
    || s.inserted >= serial + 1 + CACHE_LIMIT
    || s.now - created > CACHE_TTL
  }

  predicate CallSound(s: State, c: Call) {
    && c.serial < s.inserted && c.started <= s.now && c.started <= c.decoded
    && Fresh(c.issuedAt, c.decoded) && Accounted(s, c.serial, c.id, c.started)
  }

  predicate RepliesAgree(s: State) {
    && (forall e, r :: e in s.entries && r in s.replies && r.serial == e.serial ==>
          r.id == e.id && r.payload == e.payload)
    && (forall r :: r in s.replies ==> r.serial < s.inserted)
    && (forall r, q :: r in s.replies && q in s.replies && r.serial == q.serial ==> r == q)
  }

  predicate Sound(s: State) {
    && Ordered(s.entries, s.inserted, s.now) && |s.entries| <= CACHE_LIMIT
    && (forall c :: c in s.calls ==> CallSound(s, c))
    && RepliesAgree(s)
  }

  // ----- one command keeps all of it -----

  function AfterPurge(s: State, started: int): State { s.(entries := Purged(s.entries, started), now := started) }

  lemma PurgeAccounts(s: State, started: int, serial: nat, id: string, created: int)
    requires Accounted(s, serial, id, created) && s.now <= started
    ensures Accounted(AfterPurge(s, started), serial, id, created)
  {
    PurgeDrops(s.entries, started);
    var t := AfterPurge(s, started);
    if e :| e in s.entries && e.serial == serial && e.id == id && e.created == created {
      var i :| 0 <= i < |s.entries| && s.entries[i] == e;
      if i >= |s.entries| - |t.entries| {
        assert t.entries[i - (|s.entries| - |t.entries|)] == e;
        assert e in t.entries;
      }
    }
    hide Purged;
  }

  lemma PurgeKeeps(s: State, started: int)
    requires Sound(s) && s.now <= started
    ensures Sound(AfterPurge(s, started))
  {
    hide Purged, Accounted;
    var t := AfterPurge(s, started);
    PurgeIsExact(s.entries, s.inserted, s.now, started);
    PurgeDrops(s.entries, started);
    forall c | c in t.calls ensures CallSound(t, c) {
      assert CallSound(s, c);
      PurgeAccounts(s, started, c.serial, c.id, c.started);
    }
    assert RepliesAgree(t) by {
      forall e | e in t.entries ensures e in s.entries {}
    }
  }

  function Inserted(s: State, e: Entry): State { s.(entries := Evicted(s.entries + [e]), inserted := s.inserted + 1) }

  lemma InsertAccounts(s: State, e: Entry, serial: nat, id: string, created: int)
    requires Ordered(s.entries, s.inserted, s.now) && |s.entries| <= CACHE_LIMIT
    requires Accounted(s, serial, id, created)
    ensures Accounted(Inserted(s, e), serial, id, created)
  {
    EvictDrops(s.entries + [e]);
    var t := Inserted(s, e);
    if f :| f in s.entries && f.serial == serial && f.id == id && f.created == created {
      var i :| 0 <= i < |s.entries| && s.entries[i] == f;
      var all := s.entries + [e];
      assert all[i] == f;
      if |all| <= CACHE_LIMIT { assert f in t.entries; }
      else if i > 0 { assert t.entries[i - 1] == f; assert f in t.entries; }
    }
    hide Evicted;
  }

  lemma InsertOrders(s: State, e: Entry)
    requires Ordered(s.entries, s.inserted, s.now) && |s.entries| <= CACHE_LIMIT
    requires e.serial == s.inserted && e.created == s.now && (forall f :: f in s.entries ==> f.id != e.id)
    ensures Ordered(Inserted(s, e).entries, s.inserted + 1, s.now) && |Inserted(s, e).entries| <= CACHE_LIMIT
  {
    hide Evicted;
    EvictDrops(s.entries + [e]);
    var all := s.entries + [e];
    assert Ordered(all, s.inserted + 1, s.now);
  }

  lemma InsertReplies(s: State, e: Entry)
    requires RepliesAgree(s) && e.serial == s.inserted
    ensures RepliesAgree(Inserted(s, e))
  {
    hide Evicted, Accounted;
    InsertedIsThere(s, e);
  }

  lemma InsertCall(s: State, e: Entry, c: Call)
    requires Ordered(s.entries, s.inserted, s.now) && |s.entries| <= CACHE_LIMIT && CallSound(s, c)
    ensures CallSound(Inserted(s, e), c)
  {
    hide Evicted, Accounted, Ordered;
    InsertAccounts(s, e, c.serial, c.id, c.started);
  }

  lemma InsertKeeps(s: State, e: Entry)
    requires Sound(s) && e.serial == s.inserted && e.created == s.now && Find(s.entries, e.id).None?
    ensures Sound(Inserted(s, e))
    ensures Accounted(Inserted(s, e), e.serial, e.id, e.created)
  {
    hide Evicted, Accounted, Find, Ordered, CallSound, RepliesAgree;
    FindFinds(s.entries, e.id);
    InsertOrders(s, e);
    InsertReplies(s, e);
    InsertedIsThere(s, e);
    forall c | c in s.calls ensures CallSound(Inserted(s, e), c) { InsertCall(s, e, c); }
  }

  lemma InsertedIsThere(s: State, e: Entry)
    ensures |s.entries| <= CACHE_LIMIT ==>
              e in Inserted(s, e).entries && Accounted(Inserted(s, e), e.serial, e.id, e.created)
    ensures forall f :: f in Inserted(s, e).entries ==> f in s.entries || f == e
  {
    EvictDrops(s.entries + [e]);
    var t := Inserted(s, e);
    assert |s.entries| <= CACHE_LIMIT ==> t.entries[|t.entries| - 1] == e;
    hide Evicted;
  }

  lemma ReplyKeeps(s: State, r: Reply)
    requires Sound(s) && r.serial < s.inserted
    requires (exists e :: e in s.entries && e.serial == r.serial && e.id == r.id && e.payload == r.payload)
    ensures Sound(s.(replies := s.replies + [r]))
  {
    hide Accounted;
    var t := s.(replies := s.replies + [r]);
    forall c | c in t.calls ensures CallSound(t, c) { assert CallSound(s, c); SameAccount(s, t, c); }
  }

  lemma SameAccount(s: State, t: State, c: Call)
    requires t.entries == s.entries && t.inserted == s.inserted && t.now == s.now
    ensures Accounted(s, c.serial, c.id, c.started) == Accounted(t, c.serial, c.id, c.started)
  {
  }

  lemma CallKeeps(s: State, c: Call)
    requires Sound(s) && CallSound(s, c)
    ensures Sound(s.(calls := s.calls + [c]))
  {
    hide Accounted;
    var t := s.(calls := s.calls + [c]);
    forall d | d in t.calls ensures CallSound(t, d) { assert CallSound(s, d); SameAccount(s, t, d); }
  }

  lemma ExecuteKeeps(s: State, a: Arrival)
    requires Sound(s) && s.now <= a.started <= a.decoded
    ensures Sound(Execute(s, a)) && Execute(s, a).now == a.started
  {
    hide Purged, Evicted, Accounted, Sound, Find, CallSound;
    PurgeKeeps(s, a.started);
    LaterKeeps(s, a.started);
    var w := AfterPurge(s, a.started);
    var m := a.message;
    if a.accepted && m.id.Some? {
      var cached := Find(w.entries, m.id.value);
      if cached.Some? {
        FindFinds(w.entries, m.id.value);
        CachedSerial(w, cached.value);
        ReplyKeeps(w, Reply(m.id.value, cached.value.payload, cached.value.serial));
      } else if m.addressed {
        var e := Entry(m.id.value, a.started, a.result, s.inserted);
        InsertKeeps(w, e);
        SizeOf(w);
        InsertedIsThere(w, e);
        var t := Inserted(w, e);
        var r := Reply(m.id.value, a.result, s.inserted);
        ReplyKeeps(t, r);
        var u := t.(replies := t.replies + [r]);
        if m.valid && Fresh(m.issuedAt, a.decoded) {
          var c := Call(m.id.value, m.issuedAt, a.started, a.decoded, s.inserted);
          SameAccount(t, u, c);
          NewCallSound(u, c);
          CallKeeps(u, c);
        }
      }
    }
  }

  lemma SizeOf(s: State)
    requires Sound(s)
    ensures |s.entries| <= CACHE_LIMIT
  {
  }

  lemma NewCallSound(s: State, c: Call)
    requires c.serial < s.inserted && c.started <= s.now && c.started <= c.decoded && Fresh(c.issuedAt, c.decoded)
    requires Accounted(s, c.serial, c.id, c.started)
    ensures CallSound(s, c)
  {
  }

  lemma CachedSerial(s: State, e: Entry)
    requires Sound(s) && e in s.entries
    ensures e.serial < s.inserted
  {
  }

  lemma LaterKeeps(s: State, started: int)
    requires Sound(s) && s.now <= started
    ensures Sound(s.(now := started))
  {
    var t := s.(now := started);
    forall c | c in t.calls ensures CallSound(t, c) { assert CallSound(s, c); }
  }

  // ----- whole streams -----

  /** A second call for an id comes after a cacheful of newer results, or after the first one's time. */
  predicate CallsApart(s: State) {
    forall i, j :: 0 <= i < j < |s.calls| && s.calls[i].id == s.calls[j].id ==>
      s.calls[j].serial >= s.calls[i].serial + 1 + CACHE_LIMIT || s.calls[j].started - s.calls[i].started > CACHE_TTL
  }

  lemma NotCachedMeansGone(w: State, c: Call)
    requires Sound(w) && c in w.calls && Find(w.entries, c.id).None?
    ensures w.inserted >= c.serial + 1 + CACHE_LIMIT || w.now - c.started > CACHE_TTL
  {
    hide Find;
    assert CallSound(w, c);
    FindFinds(w.entries, c.id);
  }

  lemma ExecuteApart(s: State, a: Arrival)
    requires Sound(s) && s.now <= a.started <= a.decoded && CallsApart(s)
    ensures CallsApart(Execute(s, a))
  {
    hide Purged, Evicted, Accounted, Sound, Find;
    PurgeKeeps(s, a.started);
    var w := AfterPurge(s, a.started);
    var t := Execute(s, a);
    forall i, j | 0 <= i < j < |t.calls| && t.calls[i].id == t.calls[j].id
      ensures t.calls[j].serial >= t.calls[i].serial + 1 + CACHE_LIMIT
              || t.calls[j].started - t.calls[i].started > CACHE_TTL
    {
      if j == |s.calls| { NotCachedMeansGone(w, s.calls[i]); }
    }
  }

  lemma {:induction false} StreamSound(stream: seq<Arrival>)
    requires Serial(stream)
    ensures var s := ExecuteAll(Empty, stream);
            Sound(s) && CallsApart(s) && (stream != [] ==> s.now == stream[|stream| - 1].started)
  {
    hide Execute, Sound;
    if stream == [] {
      EmptySound();
    } else {
      var before := stream[..|stream| - 1];
      StreamSound(before);
      var s := ExecuteAll(Empty, before);
      ExecuteKeeps(s, stream[|stream| - 1]);
      ExecuteApart(s, stream[|stream| - 1]);
    }
  }

  lemma EmptySound()
    ensures Sound(Empty)
  {
  }

  /**
   * At most one service call per command id, for every stream: a second call comes only after 1024 newer
   * results were recorded, or after the cache time; and past the cache time only for an id sent again
   * with a new timestamp, or for a first command the lifecycle lock kept waiting longer than the bound.
   */
  lemma AtMostOneCall(stream: seq<Arrival>, i: nat, j: nat)
    requires Serial(stream)
    requires i < j < |ExecuteAll(Empty, stream).calls|
    requires ExecuteAll(Empty, stream).calls[i].id == ExecuteAll(Empty, stream).calls[j].id
    ensures var first, second := ExecuteAll(Empty, stream).calls[i], ExecuteAll(Empty, stream).calls[j];
            || second.serial >= first.serial + 1 + CACHE_LIMIT
            || (second.started - first.started > CACHE_TTL
                && (second.issuedAt == first.issuedAt ==> first.decoded - first.started > WAIT_BOUND))
  {
    hide ExecuteAll, Ordered, RepliesAgree, Accounted;
    StreamSound(stream);
    var s := ExecuteAll(Empty, stream);
    assert CallSound(s, s.calls[i]) && CallSound(s, s.calls[j]);
  }

  /** A valid, fresh command calls the service exactly when no live result is cached for its id. */
  lemma RunsUnlessCached(s: State, a: Arrival)
    requires Sound(s) && s.now <= a.started <= a.decoded && a.accepted
    requires a.message.id.Some? && a.message.valid && a.message.addressed && Fresh(a.message.issuedAt, a.decoded)
    ensures |Execute(s, a).calls| == |s.calls| + 1 || Execute(s, a).calls == s.calls
    ensures Execute(s, a).calls == s.calls <==>
              exists e :: e in s.entries && e.id == a.message.id.value && !Expired(e, a.started)
  {
    hide Evicted, Accounted, Purged, Find;
    var id := a.message.id.value;
    var p := Purged(s.entries, a.started);
    PurgeIsExact(s.entries, s.inserted, s.now, a.started);
    FindFinds(p, id);
    if e :| e in s.entries && e.id == id && !Expired(e, a.started) { AliveHas(s.entries, a.started, e); }
    if Find(p, id).Some? { AliveOnly(s.entries, a.started, Find(p, id).value); }
  }

  /** A result cached no longer than ten minutes before the command. */
  predicate Cached(s: State, a: Arrival, e: Entry) {
    e in s.entries && a.message.id == Some(e.id) && a.started - e.created <= 600000
  }

  /** Neither issued more than five seconds ahead nor more than fifteen seconds old when it is decoded. */
  predicate Timely(a: Arrival) {
    a.message.issuedAt - a.decoded <= 5000 && a.decoded - a.message.issuedAt <= 15000
  }

  /** Every accepted command that names an entity is answered: with the result cached for its id, or with its own,
      which is then the newest one cached; and the service is called in the second case alone, for a valid command
      in its window. Anything else is neither answered nor cached. */
  lemma ExecutionIs(s: State, a: Arrival)
    requires Sound(s) && s.now <= a.started <= a.decoded
    ensures var t := Execute(s, a);
            var known := a.accepted && a.message.id.Some?;
            var first := known && a.message.addressed && forall e :: e in s.entries ==> !Cached(s, a, e);
            && (forall e :: known && Cached(s, a, e) ==>
                  t.replies == s.replies + [Reply(e.id, e.payload, e.serial)] && t.calls == s.calls)
            && (first ==>
                  && t.replies == s.replies + [Reply(a.message.id.value, a.result, s.inserted)]
                  && t.inserted == s.inserted + 1 && t.entries != []
                  && t.entries[|t.entries| - 1] == Entry(a.message.id.value, a.started, a.result, s.inserted)
                  && t.calls == if !a.message.valid || !Timely(a) then s.calls
                       else s.calls
                            + [Call(a.message.id.value, a.message.issuedAt, a.started, a.decoded, s.inserted)])
            && (!first ==> t.calls == s.calls && t.inserted == s.inserted)
            && (!first && (!known || forall e :: e in s.entries ==> !Cached(s, a, e)) ==> t.replies == s.replies)
  {
    hide Evicted, Accounted, Purged, Find;
    if a.accepted && a.message.id.Some? {
      var p := Purged(s.entries, a.started);
      PurgeIsExact(s.entries, s.inserted, s.now, a.started);
      FindFinds(p, a.message.id.value);
      EvictDrops(p + [Entry(a.message.id.value, a.started, a.result, s.inserted)]);
      forall e | Cached(s, a, e) ensures Find(p, e.id) == Some(e) {
        AliveHas(s.entries, a.started, e);
        SameId(p, s.inserted, s.now, e, Find(p, e.id).value);
      }
      if Find(p, a.message.id.value).Some? { AliveOnly(s.entries, a.started, Find(p, a.message.id.value).value); }
    }
  }

  lemma {:induction false} AliveOnly(entries: seq<Entry>, now: int, e: Entry)
    requires e in Alive(entries, now)
    ensures e in entries && !Expired(e, now)
  {
    if Expired(entries[0], now) || e != entries[0] { AliveOnly(entries[1..], now, e); }
  }

  /** While a result is cached, the same command runs nothing and is answered with the same bytes. */
  lemma CachedAnswersRepeat(s: State, a: Arrival, r: Reply)
    requires Sound(s) && s.now <= a.started <= a.decoded && a.accepted && r in s.replies && a.message.id == Some(r.id)
    requires exists e :: e in s.entries && e.serial == r.serial && !Expired(e, a.started)
    ensures var t := Execute(s, a);
            t.calls == s.calls && t.inserted == s.inserted && t.replies == s.replies + [r]
  {
    hide Evicted, Accounted, Purged, Find;
    var e :| e in s.entries && e.serial == r.serial && !Expired(e, a.started);
    PurgeIsExact(s.entries, s.inserted, s.now, a.started);
    AliveHas(s.entries, a.started, e);
    var p := Purged(s.entries, a.started);
    FindFinds(p, r.id);
    assert e in p && e.id == r.id;
    var found := Find(p, r.id).value;
    SameId(p, s.inserted, s.now, e, found);
  }

  lemma {:induction false} AliveHas(entries: seq<Entry>, now: int, e: Entry)
    requires e in entries && !Expired(e, now)
    ensures e in Alive(entries, now)
  {
    if e != entries[0] { AliveHas(entries[1..], now, e); }
  }

  lemma SameId(entries: seq<Entry>, inserted: nat, now: int, e: Entry, f: Entry)
    requires Ordered(entries, inserted, now) && e in entries && f in entries && e.id == f.id
    ensures e == f
  {
    var i :| 0 <= i < |entries| && entries[i] == e;
    var j :| 0 <= j < |entries| && entries[j] == f;
    assert i == j;
  }

  /** The bound on the wait is exact: for every longer one, a replay of the same message runs again. */
  lemma SlowLockRunsTwice(id: string, result: string, start: nat, wait: int)
    requires wait > WAIT_BOUND
    ensures var issued := start + wait + FUTURE_SKEW;
            var m := Message(Some(id), issued, true, true);
            var again := issued + COMMAND_TTL;
            RunsTwice(Arrival(m, start, start + wait, true, result), Arrival(m, again, again, true, result))
  {
    var issued := start + wait + FUTURE_SKEW;
    var m := Message(Some(id), issued, true, true);
    var again := issued + COMMAND_TTL;
    ExpiredRunsAgain(id, Arrival(m, start, start + wait, true, result), Arrival(m, again, again, true, result));
  }

  /** So is the timestamp: an id sent again with a new one, past the cache time, runs again without any wait. */
  lemma ReusedIdRunsTwice(id: string, result: string, start: nat, gap: int)
    requires gap > CACHE_TTL
    ensures var first := Message(Some(id), start, true, true);
            var second := Message(Some(id), start + gap, true, true);
            RunsTwice(Arrival(first, start, start, true, result),
              Arrival(second, start + gap, start + gap, true, result))
  {
    var first := Message(Some(id), start, true, true);
    var second := Message(Some(id), start + gap, true, true);
    ExpiredRunsAgain(id, Arrival(first, start, start, true, result),
      Arrival(second, start + gap, start + gap, true, result));
  }

  /** Two commands, one after the other, each of which calls the service for the same id. */
  predicate RunsTwice(first: Arrival, second: Arrival) {
    var calls := ExecuteAll(Empty, [first, second]).calls;
    Serial([first, second]) && |calls| == 2 && calls[0].id == calls[1].id
  }

  lemma ExpiredRunsAgain(id: string, first: Arrival, second: Arrival)
    requires first.message.id == Some(id) && first.message.valid && first.message.addressed && first.accepted
    requires second.message.id == Some(id) && second.message.valid && second.message.addressed && second.accepted
    requires Fresh(first.message.issuedAt, first.decoded) && Fresh(second.message.issuedAt, second.decoded)
    requires 0 <= first.started <= first.decoded <= second.started <= second.decoded
    requires second.started - first.started > CACHE_TTL
    ensures RunsTwice(first, second)
  {
    hide Evicted;
    var stream := [first, second];
    var s := Execute(Empty, first);
    FirstCall(id, first);
    assert stream[..1] == [first] && [first][..0] == [];
    assert ExecuteAll(Empty, []) == Empty;
    assert ExecuteAll(Empty, [first]) == s;
    assert Purged(s.entries, second.started) == Purged(s.entries[1..], second.started) && s.entries[1..] == [];
    assert Find([], id) == None;
    assert ExecuteAll(Empty, stream) == Execute(s, second);
  }

  lemma FirstCall(id: string, a: Arrival)
    requires a.message.id == Some(id) && a.message.valid && a.message.addressed && a.accepted
             && Fresh(a.message.issuedAt, a.decoded)
    ensures var s := Execute(Empty, a);
            |s.calls| == 1 && s.calls[0].id == id && s.entries == [Entry(id, a.started, a.result, 0)]
  {
    var e := Entry(id, a.started, a.result, 0);
    assert Purged([], a.started) == [] && Find([], id) == None;
    assert [] + [e] == [e];
    EvictDrops([e]);
  }
}
