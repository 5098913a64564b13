/** The insertion-ordered, expiring, capped key maps behind every replay check:
    nonce windows (src/remote/http-util.ts) and the agent's table of accepted actions
    (src/remote/agent-cli.ts).

    A JavaScript `Map` iterates in insertion order, so a map is the sequence of its entries.
    Pruning deletes the entries whose expiry has been reached; the cap deletes the oldest entries. */
module ExpiringLog {
  datatype Entry = Entry(key: nat, expiresAt: int)

  predicate Has(w: seq<Entry>, key: nat) {
    exists i :: 0 <= i < |w| && w[i].key == key
  }

  predicate DistinctKeys(w: seq<Entry>) {
    forall i, j :: 0 <= i < j < |w| ==> w[i].key != w[j].key
  }

  /** What a prune at time `now` keeps: the entries expiring strictly later. */
  function Unexpired(w: seq<Entry>, now: int): (kept: seq<Entry>)
    ensures |kept| <= |w|
  {
    if w == [] then []
    else
      var last := w[|w| - 1];
      Unexpired(w[..|w| - 1], now) + (if last.expiresAt > now then [last] else [])
  }

  /** The newest `cap` entries. */
  function Newest(w: seq<Entry>, cap: nat): (kept: seq<Entry>)
    ensures |kept| <= cap
  {
    if |w| <= cap then w else w[|w| - cap..]
  }

  /** Pruning, then inserting a key that is not there, then trimming to the cap. */
  function Insert(w: seq<Entry>, key: nat, expiresAt: int, now: int, cap: nat): (r: seq<Entry>)
    ensures |r| <= cap
  {
    Newest(Unexpired(w, now) + [Entry(key, expiresAt)], cap)
  }

  lemma {:induction false} UnexpiredMembers(w: seq<Entry>, now: int)
    ensures forall e :: e in Unexpired(w, now) <==> e in w && e.expiresAt > now
  {
    if w != [] {
      UnexpiredMembers(w[..|w| - 1], now);
      assert w == w[..|w| - 1] + [w[|w| - 1]];
    }
  }

  lemma {:induction false} UnexpiredTwice(w: seq<Entry>, now: int)
    ensures Unexpired(Unexpired(w, now), now) == Unexpired(w, now)
  {
    if w != [] {
      var front := Unexpired(w[..|w| - 1], now);
      UnexpiredTwice(w[..|w| - 1], now);
      if w[|w| - 1].expiresAt > now {
        var kept := front + [w[|w| - 1]];
        assert Unexpired(w, now) == kept;
        assert kept[..|kept| - 1] == front;
      } else {
        assert Unexpired(w, now) == front;
      }
    }
  }

  lemma HasIff(w: seq<Entry>, key: nat)
    ensures Has(w, key) <==> exists e :: e in w && e.key == key
  {
    if Has(w, key) {
      var i :| 0 <= i < |w| && w[i].key == key;
      assert w[i] in w;
    }
  }

  lemma {:induction false} UnexpiredDistinct(w: seq<Entry>, now: int)
    requires DistinctKeys(w)
    ensures DistinctKeys(Unexpired(w, now))
  {
    if w != [] {
      var front := w[..|w| - 1];
      UnexpiredDistinct(front, now);
      UnexpiredMembers(front, now);
      var kept := Unexpired(front, now);
      forall i | 0 <= i < |kept| ensures kept[i].key != w[|w| - 1].key {
        assert kept[i] in front;
      }
    }
  }

  // ---------------------------------------------------------------------------------------------
  // What the map remembers of the full history of insertions.
  //
  // `log` is every insertion ever made. The map holds the log entries at the increasing positions
  // `pos`. Nothing unexpired is missing unless `cap` or more insertions came after it.
  // ---------------------------------------------------------------------------------------------

  ghost predicate Increasing(pos: seq<int>) {
    forall i, j :: 0 <= i < j < |pos| ==> pos[i] < pos[j]
  }

  ghost predicate Positions(w: seq<Entry>, pos: seq<int>, log: seq<Entry>) {
    && |w| == |pos|
    && (forall i :: 0 <= i < |pos| ==> 0 <= pos[i] < |log| && w[i] == log[pos[i]])
    && Increasing(pos)
  }

  ghost predicate Recent(k: int, log: seq<Entry>, now: int, cap: nat) {
    0 <= k < |log| && log[k].expiresAt > now && |log| - 1 - k < cap
  }

  ghost predicate Tracks(w: seq<Entry>, pos: seq<int>, log: seq<Entry>, now: int, cap: nat) {
    && Positions(w, pos, log)
    && (forall k :: Recent(k, log, now, cap) ==> k in pos)
  }

  /** The map `w` is what pruning and capping leave of the insertion history `log` at time `now`. */
  ghost predicate Remembers(w: seq<Entry>, log: seq<Entry>, now: int, cap: nat) {
    exists pos :: Tracks(w, pos, log, now, cap)
  }

  ghost predicate KeepsUnexpired(kept: seq<int>, pos: seq<int>, log: seq<Entry>, now: int) {
    && (forall i :: 0 <= i < |kept| ==> kept[i] in pos)
    && (forall i :: 0 <= i < |pos| && 0 <= pos[i] < |log| && log[pos[i]].expiresAt > now ==> pos[i] in kept)
  }

  lemma KeepLast(w: seq<Entry>, pos: seq<int>, log: seq<Entry>, now: int, front: seq<int>, n: nat)
    returns (kept: seq<int>)
    requires Positions(w, pos, log) && n + 1 == |w|
    requires Positions(Unexpired(w[..n], now), front, log)
    requires KeepsUnexpired(front, pos[..n], log, now)
    ensures Positions(Unexpired(w, now), kept, log)
    ensures KeepsUnexpired(kept, pos, log, now)
  {
    if w[n].expiresAt > now {
      forall i | 0 <= i < |front| ensures front[i] < pos[n] {
        assert front[i] in pos[..n];
      }
      kept := front + [pos[n]];
      assert Unexpired(w, now) == Unexpired(w[..n], now) + [w[n]];
      forall i | 0 <= i < |pos| && 0 <= pos[i] < |log| && log[pos[i]].expiresAt > now ensures pos[i] in kept {
        if i < n {
          assert pos[..n][i] in front;
        } else {
          assert kept[|front|] == pos[n];
        }
      }
    } else {
      kept := front;
      assert Unexpired(w, now) == Unexpired(w[..n], now);
      forall i | 0 <= i < |pos| && 0 <= pos[i] < |log| && log[pos[i]].expiresAt > now ensures pos[i] in kept {
        assert pos[..n][i] in front;
      }
    }
  }

  lemma {:induction false} UnexpiredPositions(w: seq<Entry>, pos: seq<int>, log: seq<Entry>, now: int)
    returns (kept: seq<int>)
    requires Positions(w, pos, log)
    ensures Positions(Unexpired(w, now), kept, log)
    ensures KeepsUnexpired(kept, pos, log, now)
    decreases |w|
  {
    if w == [] {
      kept := [];
    } else {
      var n := |w| - 1;
      kept := UnexpiredPositions(w[..n], pos[..n], log, now);
      kept := KeepLast(w, pos, log, now, kept, n);
    }
  }

  lemma PruneRemembers(w: seq<Entry>, log: seq<Entry>, before: int, now: int, cap: nat)
    requires Remembers(w, log, before, cap) && before <= now
    ensures Remembers(Unexpired(w, now), log, now, cap)
  {
    var pos :| Tracks(w, pos, log, before, cap);
    var kept := UnexpiredPositions(w, pos, log, now);
    forall k | Recent(k, log, now, cap) ensures k in kept {
      assert Recent(k, log, before, cap);
      var i :| 0 <= i < |pos| && pos[i] == k;
    }
    assert Tracks(Unexpired(w, now), kept, log, now, cap);
  }

  lemma AppendRemembers(w: seq<Entry>, log: seq<Entry>, e: Entry, now: int, cap: nat)
    requires Remembers(w, log, now, cap)
    ensures Remembers(w + [e], log + [e], now, cap)
  {
    var pos :| Tracks(w, pos, log, now, cap);
    var pos' := pos + [|log|];
    assert Positions(w + [e], pos', log + [e]);
    forall k | Recent(k, log + [e], now, cap) ensures k in pos' {
      if k < |log| {
        assert Recent(k, log, now, cap);
      } else {
        assert pos'[|pos|] == k;
      }
    }
    assert Tracks(w + [e], pos', log + [e], now, cap);
  }

  /** An element of an increasing sequence of positions has at least as many positions above it
      as it has elements after it. */
  lemma {:induction false} TailRoom(pos: seq<int>, i: nat, bound: nat)
    requires Increasing(pos) && i < |pos|
    requires forall j :: 0 <= j < |pos| ==> pos[j] < bound
    ensures bound - pos[i] >= |pos| - i
    decreases |pos| - i
  {
    if i + 1 < |pos| {
      TailRoom(pos, i + 1, bound);
    }
  }

  lemma CapRemembers(w: seq<Entry>, log: seq<Entry>, now: int, cap: nat)
    requires Remembers(w, log, now, cap)
    ensures Remembers(Newest(w, cap), log, now, cap)
  {
    var pos :| Tracks(w, pos, log, now, cap);
    if |w| > cap {
      var d := |w| - cap;
      var pos' := pos[d..];
      forall k | Recent(k, log, now, cap) ensures k in pos' {
        var i :| 0 <= i < |pos| && pos[i] == k;
        TailRoom(pos, i, |log|);
        assert pos'[i - d] == k;
      }
      assert Tracks(Newest(w, cap), pos', log, now, cap);
    }
  }

  /** One insertion keeps the map faithful to the longer history. */
  lemma InsertRemembers(w: seq<Entry>, log: seq<Entry>, key: nat, expiresAt: int, before: int, now: int, cap: nat)
    requires Remembers(w, log, before, cap) && before <= now
    ensures Remembers(Insert(w, key, expiresAt, now, cap), log + [Entry(key, expiresAt)], now, cap)
  {
    PruneRemembers(w, log, before, now, cap);
    AppendRemembers(Unexpired(w, now), log, Entry(key, expiresAt), now, cap);
    CapRemembers(Unexpired(w, now) + [Entry(key, expiresAt)], log + [Entry(key, expiresAt)], now, cap);
  }

  lemma RememberedIsHeld(w: seq<Entry>, log: seq<Entry>, k: nat, now: int, cap: nat)
    requires Remembers(w, log, now, cap)
    requires Recent(k, log, now, cap)
    ensures Has(w, log[k].key)
  {
    var pos :| Tracks(w, pos, log, now, cap);
    var i :| 0 <= i < |pos| && pos[i] == k;
    assert w[i] == log[k];
  }

  /** Nothing is held that was never inserted. */
  lemma HeldWasInserted(w: seq<Entry>, log: seq<Entry>, now: int, cap: nat, key: nat)
    requires Remembers(w, log, now, cap) && Has(w, key)
    ensures Has(log, key)
  {
    var pos :| Tracks(w, pos, log, now, cap);
    var i :| 0 <= i < |w| && w[i].key == key;
    assert log[pos[i]].key == key;
  }

  /** If an increasing sequence below `bound` holds every number from `p` on, those are its tail. */
  lemma {:induction false} WholeTail(pos: seq<int>, p: int, bound: int) returns (i: nat)
    requires Increasing(pos) && (forall j :: 0 <= j < |pos| ==> pos[j] < bound)
    requires p < bound && forall q :: p <= q < bound ==> q in pos
    ensures i < |pos| && pos[i] == p && |pos| - i >= bound - p
    decreases bound - p
  {
    assert p in pos;
    i :| 0 <= i < |pos| && pos[i] == p;
    if p + 1 < bound {
      var j := WholeTail(pos, p + 1, bound);
      assert i < j;
    }
  }

  /** The other half: once `cap` later insertions are all unexpired, they fill the map, and an earlier
      key that none of them repeats is gone, expired or not. */
  lemma CapForgets(w: seq<Entry>, log: seq<Entry>, k: nat, now: int, cap: nat)
    requires Remembers(w, log, now, cap) && |w| <= cap
    requires k + cap < |log|
    requires forall i :: |log| - cap <= i < |log| ==> log[i].expiresAt > now && log[i].key != log[k].key
    ensures !Has(w, log[k].key)
  {
    var pos :| Tracks(w, pos, log, now, cap);
    if cap > 0 {
      forall q | |log| - cap <= q < |log| ensures q in pos {
        assert Recent(q, log, now, cap);
      }
      var first := WholeTail(pos, |log| - cap, |log|);
      assert first == 0;
      forall i | 0 <= i < |w| ensures w[i].key != log[k].key {
        assert pos[0] <= pos[i];
      }
    }
  }
}

/** The nonce windows of src/remote/http-util.ts, updated in place. */
module NonceWindows {
  import opened ExpiringLog

  const NONCE_TTL_MS := 300_000
  const MAX_CONNECTION_NONCES: nat := 4096

  /** `Map.set`: a key that is present keeps its place and gets the new expiry. */
  function Put(w: seq<Entry>, key: nat, expiresAt: int): (r: seq<Entry>) {
    if Has(w, key) then
      seq(|w|, i requires 0 <= i < |w| => if w[i].key == key then Entry(key, expiresAt) else w[i])
    else w + [Entry(key, expiresAt)]
  }

  /** The window after `rememberNonce`. */
  function Remembered(w: seq<Entry>, nonce: nat, now: int): (r: seq<Entry>)
    ensures |r| <= MAX_CONNECTION_NONCES
    ensures !Has(Unexpired(w, now), nonce) ==>
              r == Insert(w, nonce, now + NONCE_TTL_MS, now, MAX_CONNECTION_NONCES)
  {
    Newest(Put(Unexpired(w, now), nonce, now + NONCE_TTL_MS), MAX_CONNECTION_NONCES)
  }

  class NonceWindow {
    var entries: seq<Entry>

    constructor ()
      ensures entries == []
    {
      entries := [];
    }

    method Prune(now: int)
      modifies this
      ensures entries == Unexpired(old(entries), now)
    {
      var all := entries;
      var kept: seq<Entry> := [];
      for i := 0 to |all|
        invariant all == old(entries)
        invariant kept == Unexpired(all[..i], now)
      {
        assert all[..i + 1][..i] == all[..i];
        if all[i].expiresAt > now {
          kept := kept + [all[i]];
        }
      }
      assert all[..|all|] == all;
      entries := kept;
    }

    method HasSeen(nonce: nat, now: int) returns (seen: bool)
      modifies this
      ensures entries == Unexpired(old(entries), now)
      ensures seen <==> exists e :: e in old(entries) && e.key == nonce && e.expiresAt > now
    {
      Prune(now);
      seen := false;
      for i := 0 to |entries|
        invariant entries == Unexpired(old(entries), now)
        invariant seen <==> Has(entries[..i], nonce)
      {
        assert entries[..i + 1] == entries[..i] + [entries[i]];
        if entries[i].key == nonce {
          seen := true;
          assert entries[..i + 1][i].key == nonce;
        } else if seen {
          var j :| 0 <= j < i && entries[..i][j].key == nonce;
          assert entries[..i + 1][j].key == nonce;
        }
      }
      assert entries[..|entries|] == entries;
      HasIff(entries, nonce);
      UnexpiredMembers(old(entries), now);
    }

    method Remember(nonce: nat, now: int)
      modifies this
      ensures entries == Remembered(old(entries), nonce, now)
    {
      Prune(now);
      entries := Put(entries, nonce, now + NONCE_TTL_MS);
      ghost var full := entries;
      while |entries| > MAX_CONNECTION_NONCES
        invariant |entries| <= |full|
        invariant entries == full[|full| - |entries|..]
        invariant |entries| >= MAX_CONNECTION_NONCES || entries == full
        decreases |entries|
      {
        entries := entries[1..];
      }
    }
  }
}
