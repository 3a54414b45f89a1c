/** The control plane's command execution, with its results kept in an ordered cache. */
module CommandExecutor {
  import opened Common
  import opened CommandCache

  class CommandExecutor {
    var results: seq<Entry>
    var inserted: nat
    ghost var now: int
    ghost var calls: seq<Call>
    ghost var replies: seq<Reply>

    constructor ()
      ensures Now() == Empty
    {
      results := [];
      inserted, now, calls, replies := 0, 0, [], [];
    }

    ghost function Now(): State
      reads this
    {
      State(results, inserted, now, calls, replies)
    }

    /** Pop the oldest results until the oldest one is alive. */
    method PurgeResults(at: int)
      modifies this`results
      ensures results == Purged(old(results), at)
    {
      while results != []
        invariant Purged(results, at) == Purged(old(results), at)
        decreases |results|
      {
        if at - results[0].created <= CACHE_TTL { break; }
        results := results[1..];
      }
    }

    method Lookup(id: string) returns (found: Option<Entry>)
      ensures found == Find(results, id)
    {
      found := None;
      var i := 0;
      while i < |results|
        invariant 0 <= i <= |results|
        invariant Find(results, id) == Find(results[i..], id)
      {
        if results[i].id == id { return Some(results[i]); }
        assert results[i..][1..] == results[i + 1..];
        i := i + 1;
      }
    }

    /** Append a result and drop the oldest beyond the limit. */
    method Record(e: Entry)
      modifies this`results
      ensures results == Evicted(old(results) + [e])
    {
      results := results + [e];
      while |results| > CACHE_LIMIT
        invariant Evicted(results) == Evicted(old(results) + [e])
        decreases |results|
      {
        results := results[1..];
      }
    }

    /** One command under the command lock. */
    method ExecuteCommand(a: Arrival)
      modifies this
      ensures Now() == Execute(old(Now()), a)
    {
      hide Purged, Evicted, Find;
      now := a.started;
      if !a.accepted { return; }
      PurgeResults(a.started);
      if a.message.id.None? { return; }
      var id := a.message.id.value;
      var cached := Lookup(id);
      if cached.Some? {
        replies := replies + [Reply(id, cached.value.payload, cached.value.serial)];
        return;
      }
      if a.message.valid && a.message.addressed && Fresh(a.message.issuedAt, a.decoded) {
        calls := calls + [Call(id, a.message.issuedAt, a.started, a.decoded, inserted)];
      }
      if !a.message.addressed { return; }
      Record(Entry(id, a.started, a.result, inserted));
      replies := replies + [Reply(id, a.result, inserted)];
      inserted := inserted + 1;
    }
  }
}
