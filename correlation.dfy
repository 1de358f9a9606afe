/**
 * The in-memory invoice memory of index.js:36-55: a map from invoice id to the
 * channel that created it (last write wins), a queue of recent invoices pruned
 * to a 20-minute window, and a 7-day timer per `remember` that deletes the key.
 *
 * The clock is the explicit `now` argument (milliseconds, as `Date.now()`), and
 * the `setTimeout` callbacks are the `timers` field: pending deletions that
 * `Tick(now)` fires once their deadline has passed.
 */
module Correlation {
  import opened Js

  const RecentWindowMs := 20 * 60 * 1000
  const RetentionMs := 7 * 24 * 60 * 60 * 1000

  /** `{ id, channelId, ts }` in `recentInvoices`. */
  datatype RecentEntry = RecentEntry(id: string, channelId: string, ts: int)

  /** A pending `setTimeout(() => runtimeInvoiceMap.delete(key), ...)`. */
  datatype Expiry = Expiry(deadline: int, key: string)

  /** `entry.ts < Date.now() - RECENT_WINDOW_MS` */
  predicate Expired(e: RecentEntry, now: int)
  {
    e.ts < now - RecentWindowMs
  }

  /** The queue after `pruneRecent` at `now`: never longer, and never starting with an expired entry. */
  function Pruned(q: seq<RecentEntry>, now: int): (r: seq<RecentEntry>)
    ensures |r| <= |q|
    ensures |r| > 0 ==> !Expired(r[0], now)
  {
    if |q| > 0 && Expired(q[0], now) then Pruned(q[1..], now) else q
  }

  /**
   * Pruning drops exactly the leading expired entries: the rest is a suffix, in
   * its original order, that starts with an entry that has not expired (expired
   * entries further back stay).
   */
  lemma {:induction false} PrunedMeaning(q: seq<RecentEntry>, now: int)
    ensures |Pruned(q, now)| <= |q| && Pruned(q, now) == q[|q| - |Pruned(q, now)|..]
    ensures forall i :: 0 <= i < |q| - |Pruned(q, now)| ==> Expired(q[i], now)
    ensures |Pruned(q, now)| > 0 ==> !Expired(Pruned(q, now)[0], now)
  {
    if |q| > 0 && Expired(q[0], now) {
      PrunedMeaning(q[1..], now);
      var r := Pruned(q, now);
      assert q[1..][|q| - 1 - |r|..] == q[|q| - |r|..];
      forall i | 0 <= i < |q| - |r|
        ensures Expired(q[i], now)
      {
        if i > 0 {
          assert q[i] == q[1..][i - 1];
        }
      }
    }
  }

  /** Timestamps never decrease along the queue. */
  ghost predicate Chronological(q: seq<RecentEntry>)
  {
    forall i, j :: 0 <= i < j < |q| ==> q[i].ts <= q[j].ts
  }

  /** Dropping the oldest entry keeps a queue chronological. */
  lemma ChronologicalTail(q: seq<RecentEntry>)
    requires |q| > 0 && Chronological(q)
    ensures Chronological(q[1..])
  {
    forall i, j | 0 <= i < j < |q| - 1
      ensures q[1..][i].ts <= q[1..][j].ts
    {
      assert q[1..][i] == q[i + 1] && q[1..][j] == q[j + 1];
    }
  }

  /** On a chronological queue, pruning leaves only entries inside the window. */
  lemma {:induction false} PrunedWithinWindow(q: seq<RecentEntry>, now: int)
    requires Chronological(q)
    ensures Chronological(Pruned(q, now))
    ensures forall e :: e in Pruned(q, now) ==> now - RecentWindowMs <= e.ts
  {
    if |q| > 0 && Expired(q[0], now) {
      ChronologicalTail(q);
      PrunedWithinWindow(q[1..], now);
    } else {
      forall e | e in q
        ensures now - RecentWindowMs <= e.ts
      {
        var k :| 0 <= k < |q| && q[k] == e;
        assert q[0].ts <= q[k].ts;
      }
    }
  }

  /** A pushed entry that has not expired survives pruning as the newest entry. */
  lemma PrunedKeepsNewest(q: seq<RecentEntry>, now: int)
    requires |q| > 0 && !Expired(q[|q| - 1], now)
    ensures |Pruned(q, now)| > 0 && Pruned(q, now)[|Pruned(q, now)| - 1] == q[|q| - 1]
  {
    PrunedMeaning(q, now);
  }

  /** Pushing an entry no older than any queued one keeps the queue chronological. */
  lemma PushChronological(q: seq<RecentEntry>, e: RecentEntry)
    requires Chronological(q) && forall x :: x in q ==> x.ts <= e.ts
    ensures Chronological(q + [e])
  {
    var p := q + [e];
    forall i, j | 0 <= i < j < |p|
      ensures p[i].ts <= p[j].ts
    {
      if j == |q| {
        assert p[i] in q;
      }
    }
  }

  /**
   * When every push uses the current time, the queue that `remember` leaves is
   * chronological and holds only entries of the last 20 minutes.
   */
  lemma RememberKeepsWindow(q: seq<RecentEntry>, e: RecentEntry, now: int)
    requires Chronological(q) && forall x :: x in q ==> x.ts <= e.ts
    requires e.ts == now
    ensures Chronological(Pruned(q + [e], now))
    ensures forall x :: x in Pruned(q + [e], now) ==> now - RecentWindowMs <= x.ts
  {
    PushChronological(q, e);
    PrunedWithinWindow(q + [e], now);
  }

  /** The keys whose deletion timer is due at `now`. */
  function DueKeys(timers: seq<Expiry>, now: int): set<string>
  {
    if timers == [] then {}
    else
      var last := timers[|timers| - 1];
      var earlier := DueKeys(timers[..|timers| - 1], now);
      if last.deadline <= now then earlier + {last.key} else earlier
  }

  /** The timers still waiting at `now`, in the order they were set. */
  function Pending(timers: seq<Expiry>, now: int): seq<Expiry>
  {
    if timers == [] then []
    else
      var last := timers[|timers| - 1];
      var earlier := Pending(timers[..|timers| - 1], now);
      if now < last.deadline then earlier + [last] else earlier
  }

  /** A key is due exactly when one of its timers has reached its deadline. */
  lemma {:induction false} DueKeysMeaning(timers: seq<Expiry>, now: int)
    ensures forall k :: k in DueKeys(timers, now) <==>
              exists i :: 0 <= i < |timers| && timers[i].key == k && timers[i].deadline <= now
  {
    if timers != [] {
      var init := timers[..|timers| - 1];
      DueKeysMeaning(init, now);
      forall k
        ensures k in DueKeys(timers, now) <==>
                exists i :: 0 <= i < |timers| && timers[i].key == k && timers[i].deadline <= now
      {
        if exists i :: 0 <= i < |timers| && timers[i].key == k && timers[i].deadline <= now {
          var i :| 0 <= i < |timers| && timers[i].key == k && timers[i].deadline <= now;
          if i < |init| {
            assert init[i] == timers[i];
          }
        }
        if exists i :: 0 <= i < |init| && init[i].key == k && init[i].deadline <= now {
          var i :| 0 <= i < |init| && init[i].key == k && init[i].deadline <= now;
          assert timers[i] == init[i];
        }
      }
    }
  }

  /** Exactly the timers whose deadline is still ahead keep waiting. */
  lemma {:induction false} PendingMeaning(timers: seq<Expiry>, now: int)
    ensures forall t :: t in Pending(timers, now) <==> t in timers && now < t.deadline
  {
    if timers != [] {
      var init := timers[..|timers| - 1];
      PendingMeaning(init, now);
      assert timers == init + [timers[|timers| - 1]];
    }
  }

  /** Removing the keys of `due` and then `k` is removing `due + {k}`. */
  lemma RemoveOneMore(m: map<string, string>, due: set<string>, k: string)
    ensures (m - due) - {k} == m - (due + {k})
  {
  }

  /** One more timer in the list: it is due or it waits, and the earlier ones are as they were. */
  lemma TimerStep(timers: seq<Expiry>, t: Expiry, now: int)
    ensures DueKeys(timers + [t], now) == DueKeys(timers, now) + (if t.deadline <= now then {t.key} else {})
    ensures Pending(timers + [t], now) == Pending(timers, now) + (if now < t.deadline then [t] else [])
  {
    assert (timers + [t])[..|timers|] == timers;
  }

  lemma OneDueOneWaiting(a: Expiry, b: Expiry, now: int)
    requires a.deadline <= now < b.deadline
    ensures DueKeys([a, b], now) == {a.key}
    ensures Pending([a, b], now) == [b]
  {
    assert [a, b][..1] == [a];
    assert [a][..0] == [];
    assert Pending([a], now) == [];
    assert DueKeys([a], now) == {a.key};
  }

  /** `m.get(key) || null`: a missing key and an empty channel id both read as `null`. */
  function Get(m: map<string, string>, key: string): (r: Option<string>)
    ensures r.Some? <==> key in m && m[key] != ""
    ensures r.Some? ==> r.value == m[key]
  {
    if key in m then OrNull(Some(m[key])) else None
  }

  class Store {
    /** `runtimeInvoiceMap`: invoice id to channel id. */
    var invoiceMap: map<string, string>
    /** `recentInvoices`, oldest first. */
    var recent: seq<RecentEntry>
    /** The 7-day deletion timers not yet fired, in the order they were set. */
    var timers: seq<Expiry>

    constructor ()
      ensures invoiceMap == map[] && recent == [] && timers == []
    {
      invoiceMap := map[];
      recent := [];
      timers := [];
    }

    /**
     * No timer is overdue at `now`.  Node's event loop runs every timer callback
     * whose delay has elapsed before it runs a later callback, so every command
     * and every webhook request finds the store in this state.
     */
    predicate Settled(now: int)
      reads this
    {
      forall t :: t in timers ==> now < t.deadline
    }

    /** `runtimeInvoiceMap.get(key) || null` */
    function Lookup(key: string): (r: Option<string>)
      reads this
      ensures r.Some? <==> key in invoiceMap && invoiceMap[key] != ""
      ensures r.Some? ==> r.value == invoiceMap[key]
    {
      Get(invoiceMap, key)
    }

    /** `pruneRecent()`: shift expired entries off the front, stop at the first live one. */
    method PruneRecent(now: int)
      modifies this`recent
      ensures recent == Pruned(old(recent), now)
    {
      var cutoff := now - RecentWindowMs;
      while |recent| > 0 && recent[0].ts < cutoff
        invariant Pruned(recent, now) == Pruned(old(recent), now)
        decreases |recent|
      {
        recent := recent[1..];
      }
    }

    /**
     * `rememberInvoiceChannel(id, channelId)`: set the map entry, push onto the
     * recent queue and prune it, and start a 7-day deletion timer for `id`.
     */
    method Remember(id: string, channelId: string, now: int)
      requires Settled(now)
      modifies this
      ensures invoiceMap == old(invoiceMap)[id := channelId]
      ensures recent == Pruned(old(recent) + [RecentEntry(id, channelId, now)], now)
      ensures timers == old(timers) + [Expiry(now + RetentionMs, id)]
      // the new entry is never pruned, so it is the newest one
      ensures |recent| > 0 && recent[|recent| - 1] == RecentEntry(id, channelId, now)
      ensures Settled(now)
    {
      invoiceMap := invoiceMap[id := channelId];
      var entry := RecentEntry(id, channelId, now);
      ghost var pushed := recent + [entry];
      recent := recent + [entry];
      PruneRecent(now);
      timers := timers + [Expiry(now + RetentionMs, id)];
      PrunedKeepsNewest(pushed, now);
    }

    /**
     * The timers whose deadline has passed fire: each deletes its key, whatever
     * was written under that key since.  The recent queue is untouched.
     */
    method Tick(now: int)
      modifies this`invoiceMap, this`timers
      ensures invoiceMap == old(invoiceMap) - DueKeys(old(timers), now)
      ensures timers == Pending(old(timers), now)
      ensures recent == old(recent)
      ensures Settled(now)
    {
      var all := timers;
      var waiting: seq<Expiry> := [];
      var i := 0;
      while i < |all|
        invariant 0 <= i <= |all|
        invariant invoiceMap == old(invoiceMap) - DueKeys(all[..i], now)
        invariant waiting == Pending(all[..i], now)
      {
        var t := all[i];
        assert all[..i + 1] == all[..i] + [t];
        TimerStep(all[..i], t, now);
        if t.deadline <= now {
          RemoveOneMore(old(invoiceMap), DueKeys(all[..i], now), t.key);
          invoiceMap := invoiceMap - {t.key};
        } else {
          waiting := waiting + [t];
        }
        i := i + 1;
      }
      assert all[..|all|] == all;
      timers := waiting;
      PendingMeaning(all, now);
    }
  }

  /** Re-remembering an id overwrites its channel: the last write wins. */
  method LastWriteWins(id: string, first: string, second: string, t1: int, t2: int)
    returns (found: Option<string>)
    requires second != ""
    ensures found == Some(second)
  {
    var store := new Store();
    store.Remember(id, first, t1);
    store.Tick(t2);
    store.Remember(id, second, t2);
    found := store.Lookup(id);
  }

  /**
   * Seven days after its only `remember`, an id is gone from the map: the timer
   * has fired by then, so a lookup finds nothing.
   */
  method ForgottenAfterRetention(id: string, channelId: string, t0: int, now: int)
    returns (found: Option<string>)
    requires t0 + RetentionMs <= now
    ensures found == None
  {
    var store := new Store();
    store.Remember(id, channelId, t0);
    assert store.timers == [Expiry(t0 + RetentionMs, id)];
    DueKeysMeaning(store.timers, now);
    store.Tick(now);
    found := store.Lookup(id);
  }

  /**
   * The timer of an earlier `remember` deletes the key even though the id was
   * remembered again later, before the later write's own 7 days are up; the
   * recent queue still holds the later entry, and only the later timer waits.
   */
  method EarlierTimerDeletesRewrite(id: string, first: string, second: string, t1: int, t2: int)
    returns (found: Option<string>, newest: RecentEntry, waiting: seq<Expiry>)
    requires t1 < t2 < t1 + RetentionMs
    ensures found == None
    ensures newest == RecentEntry(id, second, t2)
    ensures waiting == [Expiry(t2 + RetentionMs, id)]
  {
    var a, b := Expiry(t1 + RetentionMs, id), Expiry(t2 + RetentionMs, id);
    var store := new Store();
    store.Remember(id, first, t1);
    assert store.timers == [a];
    store.Remember(id, second, t2);
    assert store.timers == [a, b];
    ghost var queue := store.recent;
    assert queue[|queue| - 1] == RecentEntry(id, second, t2);
    OneDueOneWaiting(a, b, t1 + RetentionMs);
    store.Tick(t1 + RetentionMs);
    assert id !in store.invoiceMap;
    assert store.recent == queue;
    found := store.Lookup(id);
    newest := store.recent[|store.recent| - 1];
    waiting := store.timers;
  }
}
