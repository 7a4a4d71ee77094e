/** The in-memory conversation store: sessions keyed by id, kept in insertion order,
    expired after 24 hours without use and trimmed to at most 1000 by least recent use. */
module Sessions {
  import opened Types

  // ---------------------------------------------------------------------------
  // Sequences of keys
  // ---------------------------------------------------------------------------

  predicate Distinct(s: seq<string>) {
    forall i, j :: 0 <= i < j < |s| ==> s[i] != s[j]
  }

  /** The elements of `order` that belong to `keep`, in their order. */
  function Keep(order: seq<string>, keep: set<string>): (r: seq<string>)
    ensures forall k {:trigger k in r} :: k in r <==> k in order && k in keep
    ensures |r| <= |order|
  {
    if order == [] then []
    else
      var rest := Keep(order[1..], keep);
      assert forall k :: k in order <==> k == order[0] || k in order[1..];
      if order[0] in keep then [order[0]] + rest else rest
  }

  lemma {:induction false} KeepDistinct(order: seq<string>, keep: set<string>)
    requires Distinct(order)
    ensures Distinct(Keep(order, keep))
  {
    if order != [] {
      KeepDistinct(order[1..], keep);
      var rest := Keep(order[1..], keep);
      assert order[0] !in order[1..];
      assert order[0] !in rest;
    }
  }

  /** Filtering by a larger set first changes nothing. */
  lemma {:induction false} KeepKeep(order: seq<string>, a: set<string>, b: set<string>)
    requires b <= a
    ensures Keep(Keep(order, a), b) == Keep(order, b)
  {
    if order != [] {
      KeepKeep(order[1..], a, b);
    }
  }

  lemma {:induction false} KeepAll(order: seq<string>, keep: set<string>)
    requires forall k :: k in order ==> k in keep
    ensures Keep(order, keep) == order
  {
    if order != [] {
      KeepAll(order[1..], keep);
    }
  }

  lemma {:induction false} KeepAppend(a: seq<string>, b: seq<string>, keep: set<string>)
    ensures Keep(a + b, keep) == Keep(a, keep) + Keep(b, keep)
  {
    if a == [] {
      assert a + b == b;
    } else {
      assert (a + b)[1..] == a[1..] + b;
      KeepAppend(a[1..], b, keep);
    }
  }

  /** A sequence without repetitions has as many elements as its set. */
  lemma {:induction false} DistinctCard(s: seq<string>)
    requires Distinct(s)
    ensures |set k | k in s| == |s|
  {
    if s != [] {
      DistinctCard(s[1..]);
      assert (set k | k in s) == (set k | k in s[1..]) + {s[0]};
      assert s[0] !in s[1..];
    }
  }

  /** The position of `x` in `s`. */
  function IndexOf(s: seq<string>, x: string): (r: nat)
    requires x in s
    ensures r < |s| && s[r] == x
    ensures forall j :: 0 <= j < r ==> s[j] != x
  {
    if s[0] == x then 0 else 1 + IndexOf(s[1..], x)
  }

  lemma IndexOfDistinct(s: seq<string>, j: nat)
    requires Distinct(s) && j < |s|
    ensures IndexOf(s, s[j]) == j
  {
  }

  /** Filtering keeps the relative order of the elements that remain. */
  lemma {:induction false} KeepIndexOrder(o: seq<string>, keep: set<string>, a: string, b: string)
    requires a in Keep(o, keep) && b in Keep(o, keep)
    requires IndexOf(Keep(o, keep), a) < IndexOf(Keep(o, keep), b)
    ensures a in o && b in o && IndexOf(o, a) < IndexOf(o, b)
  {
    var k := Keep(o, keep);
    var rest := Keep(o[1..], keep);
    if o[0] == a {
    } else if o[0] == b {
    } else {
      assert a in o[1..] && b in o[1..];
      if o[0] in keep {
        assert k == [o[0]] + rest;
        assert k[1..] == rest;
        assert IndexOf(k, a) == 1 + IndexOf(rest, a);
        assert IndexOf(k, b) == 1 + IndexOf(rest, b);
      } else {
        assert k == rest;
      }
      KeepIndexOrder(o[1..], keep, a, b);
    }
  }

  lemma IndexOfAppend(s: seq<string>, x: string, y: string)
    requires y in s
    ensures y in s + [x] && IndexOf(s + [x], y) == IndexOf(s, y)
  {
    var r := IndexOf(s, y);
    assert (s + [x])[r] == y;
    assert forall j :: 0 <= j < r ==> (s + [x])[j] == s[j];
  }

  // ---------------------------------------------------------------------------
  // Sessions
  // ---------------------------------------------------------------------------

  /** A session expires once it has been idle for more than 24 hours. */
  predicate Expired(s: Session, now: nat) {
    now - s.lastUsed > SESSION_TIMEOUT_MS
  }

  function Unexpired(m: map<string, Session>, now: nat): map<string, Session> {
    map k | k in m && !Expired(m[k], now) :: m[k]
  }

  /** Session `a` goes before session `b` in least-recently-used order: used earlier,
      or used at the same time and inserted earlier. */
  ghost predicate Precedes(m: map<string, Session>, order: seq<string>, a: string, b: string) {
    && a in m && b in m && a in order && b in order
    && (|| m[a].lastUsed < m[b].lastUsed
        || (m[a].lastUsed == m[b].lastUsed && IndexOf(order, a) < IndexOf(order, b)))
  }

  function Min(a: nat, b: nat): nat {
    if a <= b then a else b
  }

  /** The sum of the lengths of the histories. */
  function SumMessages(list: seq<Session>): nat {
    if list == [] then 0 else |list[0].messages| + SumMessages(list[1..])
  }

  lemma {:induction false} SumMessagesAppend(a: seq<Session>, b: seq<Session>)
    ensures SumMessages(a + b) == SumMessages(a) + SumMessages(b)
  {
    if a == [] {
      assert a + b == b;
    } else {
      assert (a + b)[1..] == a[1..] + b;
      SumMessagesAppend(a[1..], b);
    }
  }

  lemma {:induction false} SumMessagesZero(list: seq<Session>)
    ensures SumMessages(list) == 0 <==> forall i :: 0 <= i < |list| ==> list[i].messages == []
  {
    if list != [] {
      SumMessagesZero(list[1..]);
      assert forall i :: 1 <= i < |list| ==> list[i] == list[1..][i - 1];
    }
  }

  /** Replacing one session of the list changes the sum by the difference of the lengths. */
  lemma SumMessagesUpdate(list: seq<Session>, i: nat, s: Session)
    requires i < |list|
    ensures SumMessages(list[i := s]) == SumMessages(list) - |list[i].messages| + |s.messages|
  {
    assert list == list[..i] + [list[i]] + list[i + 1..];
    assert list[i := s] == list[..i] + [s] + list[i + 1..];
    SumMessagesAppend(list[..i] + [list[i]], list[i + 1..]);
    SumMessagesAppend(list[..i], [list[i]]);
    SumMessagesAppend(list[..i] + [s], list[i + 1..]);
    SumMessagesAppend(list[..i], [s]);
  }

  /** Removing one session of the list lowers the sum by its length. */
  lemma SumMessagesRemove(list: seq<Session>, i: nat)
    requires i < |list|
    ensures SumMessages(list[..i] + list[i + 1..]) == SumMessages(list) - |list[i].messages|
  {
    assert list == list[..i] + [list[i]] + list[i + 1..];
    SumMessagesAppend(list[..i] + [list[i]], list[i + 1..]);
    SumMessagesAppend(list[..i], [list[i]]);
    SumMessagesAppend(list[..i], list[i + 1..]);
  }

  /** The earliest creation time in a non-empty list. */
  function MinCreated(list: seq<Session>): (r: int)
    requires list != []
    ensures forall i :: 0 <= i < |list| ==> r <= list[i].createdAt
    ensures exists i :: 0 <= i < |list| && list[i].createdAt == r
  {
    if |list| == 1 then list[0].createdAt
    else
      var m := MinCreated(list[1..]);
      assert forall i :: 1 <= i < |list| ==> list[i] == list[1..][i - 1];
      if list[0].createdAt <= m then list[0].createdAt else m
  }

  /** The latest creation time in a non-empty list. */
  function MaxCreated(list: seq<Session>): (r: int)
    requires list != []
    ensures forall i :: 0 <= i < |list| ==> list[i].createdAt <= r
    ensures exists i :: 0 <= i < |list| && list[i].createdAt == r
  {
    if |list| == 1 then list[0].createdAt
    else
      var m := MaxCreated(list[1..]);
      assert forall i :: 1 <= i < |list| ==> list[i] == list[1..][i - 1];
      if list[0].createdAt >= m then list[0].createdAt else m
  }

  datatype Stats = Stats(totalSessions: nat, totalMessages: nat, oldestSession: Option<int>, newestSession: Option<int>)

  // ---------------------------------------------------------------------------
  // The store as a pair of values
  // ---------------------------------------------------------------------------

  /** The sessions map and the insertion order name the same ids, each once; every
      session is filed under its own id; and none was used after `clock`. */
  ghost predicate Coherent(m: map<string, Session>, o: seq<string>, clock: int) {
    && Distinct(o)
    && (forall k :: k in o <==> k in m)
    && (forall k :: k in m ==> m[k].id == k && m[k].createdAt <= m[k].lastUsed <= clock)
  }

  lemma CoherentLength(m: map<string, Session>, o: seq<string>, clock: int)
    requires Coherent(m, o, clock)
    ensures |o| == |m|
  {
    DistinctCard(o);
    assert (set k | k in o) == m.Keys;
  }

  /** The sessions in the given order of ids. */
  function Listing(m: map<string, Session>, o: seq<string>): (list: seq<Session>)
    requires forall k :: k in o ==> k in m
    ensures |list| == |o|
    ensures forall i {:trigger list[i]} :: 0 <= i < |o| ==> list[i] == m[o[i]]
  {
    seq(|o|, i requires 0 <= i < |o| => m[o[i]])
  }

  /** The listing of a coherent store holds every session exactly once. */
  lemma ListingFacts(m: map<string, Session>, o: seq<string>, clock: int)
    requires Coherent(m, o, clock)
    ensures |Listing(m, o)| == |m|
    ensures forall i :: 0 <= i < |o| ==> Listing(m, o)[i].id in m && m[Listing(m, o)[i].id] == Listing(m, o)[i]
    ensures forall k :: k in m ==> k in o && Listing(m, o)[IndexOf(o, k)] == m[k]
    ensures forall i, j :: 0 <= i < j < |o| ==> Listing(m, o)[i].id != Listing(m, o)[j].id
  {
    CoherentLength(m, o, clock);
  }

  /** Entry `i` of the listing is the session filed under its own id. */
  lemma ListingEntry(m: map<string, Session>, o: seq<string>, clock: int, i: nat)
    requires Coherent(m, o, clock) && i < |o|
    ensures Listing(m, o)[i].id in m && m[Listing(m, o)[i].id] == Listing(m, o)[i]
  {
  }

  /** Every session appears in the listing, at the position of its id. */
  lemma ListingHas(m: map<string, Session>, o: seq<string>, clock: int, k: string)
    requires Coherent(m, o, clock) && k in m
    ensures k in o && Listing(m, o)[IndexOf(o, k)] == m[k]
  {
  }

  /** The earliest creation time of a coherent store, stated over its sessions. */
  lemma OldestOfStore(m: map<string, Session>, o: seq<string>, clock: int)
    requires Coherent(m, o, clock) && o != []
    ensures forall k :: k in m ==> MinCreated(Listing(m, o)) <= m[k].createdAt
    ensures exists k :: k in m && m[k].createdAt == MinCreated(Listing(m, o))
  {
    var list := Listing(m, o);
    forall k | k in m
      ensures MinCreated(list) <= m[k].createdAt
    {
      ListingHas(m, o, clock, k);
    }
    var i :| 0 <= i < |list| && list[i].createdAt == MinCreated(list);
    ListingEntry(m, o, clock, i);
  }

  /** The latest creation time of a coherent store, stated over its sessions. */
  lemma NewestOfStore(m: map<string, Session>, o: seq<string>, clock: int)
    requires Coherent(m, o, clock) && o != []
    ensures forall k :: k in m ==> m[k].createdAt <= MaxCreated(Listing(m, o))
    ensures exists k :: k in m && m[k].createdAt == MaxCreated(Listing(m, o))
  {
    var list := Listing(m, o);
    forall k | k in m
      ensures m[k].createdAt <= MaxCreated(list)
    {
      ListingHas(m, o, clock, k);
    }
    var i :| 0 <= i < |list| && list[i].createdAt == MaxCreated(list);
    ListingEntry(m, o, clock, i);
  }

  /** The message total of a coherent store is zero exactly when every history is empty. */
  lemma TotalOfStore(m: map<string, Session>, o: seq<string>, clock: int)
    requires Coherent(m, o, clock)
    ensures SumMessages(Listing(m, o)) == 0 <==> forall k :: k in m ==> m[k].messages == []
  {
    ListingFacts(m, o, clock);
    SumMessagesZero(Listing(m, o));
  }

  /** Filtering out the element at one position of a sequence without repetitions. */
  lemma {:induction false} KeepDropOne(o: seq<string>, i: nat, keep: set<string>)
    requires i < |o|
    requires o[i] !in keep
    requires forall j :: 0 <= j < |o| && j != i ==> o[j] in keep
    ensures Keep(o, keep) == o[..i] + o[i + 1..]
  {
    var t := o[1..];
    if i == 0 {
      forall k | k in t
        ensures k in keep
      {
        var j :| 0 <= j < |t| && t[j] == k;
        assert o[j + 1] == k;
      }
      KeepAll(t, keep);
    } else {
      assert o[0] in keep;
      forall j | 0 <= j < |t| && j != i - 1
        ensures t[j] in keep
      {
        assert t[j] == o[j + 1];
      }
      KeepDropOne(t, i - 1, keep);
      assert o[..i] == [o[0]] + t[..i - 1];
      assert o[i + 1..] == t[i..];
      assert Keep(o, keep) == [o[0]] + (t[..i - 1] + t[i..]);
    }
  }

  lemma ListingDropOne(m: map<string, Session>, o: seq<string>, i: nat)
    requires i < |o| && Distinct(o)
    requires forall k :: k in o ==> k in m
    ensures forall k :: k in o[..i] + o[i + 1..] ==> k in m - {o[i]}
    ensures Listing(m - {o[i]}, o[..i] + o[i + 1..]) == Listing(m, o)[..i] + Listing(m, o)[i + 1..]
  {
    var rest := o[..i] + o[i + 1..];
    assert forall j :: 0 <= j < |rest| ==> rest[j] == if j < i then o[j] else o[j + 1];
  }

  /** Deleting an id and its position leaves a coherent store. */
  lemma CoherentDrop(m: map<string, Session>, o: seq<string>, clock: int, id: string)
    requires Coherent(m, o, clock) && id in m
    ensures id in o
    ensures Keep(o, (m - {id}).Keys) == o[..IndexOf(o, id)] + o[IndexOf(o, id) + 1..]
    ensures Distinct(o[..IndexOf(o, id)] + o[IndexOf(o, id) + 1..])
    ensures forall k :: k in o[..IndexOf(o, id)] + o[IndexOf(o, id) + 1..] <==> k in m - {id}
    ensures forall k :: k in m - {id} ==> (m - {id})[k].id == k && (m - {id})[k].createdAt <= (m - {id})[k].lastUsed <= clock
  {
    var i := IndexOf(o, id);
    var m' := m - {id};
    assert m'.Keys == m.Keys - {id};
    forall j | 0 <= j < |o| && j != i
      ensures o[j] in m'.Keys
    {
      if j < i { assert o[j] != o[i]; } else { assert o[i] != o[j]; }
    }
    KeepDropOne(o, i, m'.Keys);
    KeepDistinct(o, m'.Keys);
    var o' := Keep(o, m'.Keys);
    assert o' == o[..i] + o[i + 1..];
    assert forall k :: k in o' <==> k in m';
  }

  /** Deleting an id removes its place from the listing. */
  lemma ListingDrop(m: map<string, Session>, o: seq<string>, clock: int, id: string)
    requires Coherent(m, o, clock) && id in m
    ensures id in o
    ensures Listing(m - {id}, o[..IndexOf(o, id)] + o[IndexOf(o, id) + 1..])
            == Listing(m, o)[..IndexOf(o, id)] + Listing(m, o)[IndexOf(o, id) + 1..]
  {
    ListingDropOne(m, o, IndexOf(o, id));
  }

  /** Deleting an id removes exactly its position from the order and keeps the store coherent. */
  lemma CoherentRemove(m: map<string, Session>, o: seq<string>, clock: int, id: string)
    requires Coherent(m, o, clock) && id in m
    ensures id in o
    ensures Keep(o, (m - {id}).Keys) == o[..IndexOf(o, id)] + o[IndexOf(o, id) + 1..]
    ensures Coherent(m - {id}, o[..IndexOf(o, id)] + o[IndexOf(o, id) + 1..], clock)
    ensures |m - {id}| == |m| - 1
    ensures Listing(m - {id}, o[..IndexOf(o, id)] + o[IndexOf(o, id) + 1..])
            == Listing(m, o)[..IndexOf(o, id)] + Listing(m, o)[IndexOf(o, id) + 1..]
  {
    CoherentDrop(m, o, clock, id);
    ListingDrop(m, o, clock, id);
  }

  /** One removal inside a pass over a snapshot `ids` of the order: the order stays the
      snapshot filtered by the live ids. */
  lemma RemoveFromFiltered(m: map<string, Session>, o: seq<string>, ids: seq<string>, clock: int, id: string)
    requires Coherent(m, o, clock) && id in m && o == Keep(ids, m.Keys)
    ensures Coherent(m - {id}, Keep(o, (m - {id}).Keys), clock)
    ensures Keep(o, (m - {id}).Keys) == Keep(ids, (m - {id}).Keys)
    ensures |m - {id}| == |m| - 1
  {
    CoherentRemove(m, o, clock, id);
    KeepKeep(ids, m.Keys, (m - {id}).Keys);
  }

  /** The state of the expiry sweep after visiting the first `i` ids of the snapshot `ids`:
      only sessions of the original store `m0` remain, unchanged; every unexpired one remains;
      no visited id is still present and expired; and the order is the snapshot filtered. */
  ghost predicate SweptPrefix(m0: map<string, Session>, m: map<string, Session>, o: seq<string>,
                              clock: int, ids: seq<string>, i: nat, now: nat)
  {
    && i <= |ids|
    && Coherent(m, o, clock)
    && (forall k :: k in m ==> k in m0 && m[k] == m0[k])
    && (forall k :: k in m0 && !Expired(m0[k], now) ==> k in m)
    && (forall j :: 0 <= j < i && ids[j] in m ==> !Expired(m[ids[j]], now))
    && o == Keep(ids, m.Keys)
  }

  lemma SweepStep(m0: map<string, Session>, m: map<string, Session>, o: seq<string>,
                  clock: int, ids: seq<string>, i: nat, now: nat)
    requires SweptPrefix(m0, m, o, clock, ids, i, now) && i < |ids|
    ensures ids[i] in m && Expired(m[ids[i]], now) ==>
              SweptPrefix(m0, m - {ids[i]}, Keep(o, (m - {ids[i]}).Keys), clock, ids, i + 1, now)
    ensures !(ids[i] in m && Expired(m[ids[i]], now)) ==>
              SweptPrefix(m0, m, o, clock, ids, i + 1, now)
  {
    var id := ids[i];
    if id in m && Expired(m[id], now) {
      RemoveFromFiltered(m, o, ids, clock, id);
    }
  }

  lemma SweepDone(m0: map<string, Session>, m: map<string, Session>, o: seq<string>,
                  clock: int, ids: seq<string>, now: nat)
    requires SweptPrefix(m0, m, o, clock, ids, |ids|, now)
    requires forall k :: k in m0 ==> k in ids
    ensures m == Unexpired(m0, now)
  {
    forall k | k in m0 && Expired(m0[k], now)
      ensures k !in m
    {
      var j := IndexOf(ids, k);
    }
  }

  /** The state of the capacity trim, starting from store `m0` with order `o0`: only
      sessions of `m0` remain, unchanged; no fewer than the capacity allows; and every
      removed session precedes every remaining one in least-recently-used order. */
  ghost predicate TrimmedFrom(m0: map<string, Session>, o0: seq<string>,
                              m: map<string, Session>, o: seq<string>, clock: int)
  {
    && Coherent(m, o, clock)
    && (forall k :: k in m ==> k in m0 && m[k] == m0[k])
    && Min(|m0|, MAX_SESSIONS) <= |m| <= |m0|
    && (forall r, k :: r in m0 && r !in m && k in m ==> Precedes(m0, o0, r, k))
    && o == Keep(o0, m.Keys)
  }

  /** Removing the least recently used session of an over-full store keeps the trim state. */
  lemma TrimStep(m0: map<string, Session>, o0: seq<string>,
                 m: map<string, Session>, o: seq<string>, clock: int, id: string)
    requires TrimmedFrom(m0, o0, m, o, clock) && |m| > MAX_SESSIONS
    requires id in m && forall k :: k in m && k != id ==> Precedes(m, o, id, k)
    ensures TrimmedFrom(m0, o0, m - {id}, Keep(o, (m - {id}).Keys), clock)
    ensures |m - {id}| < |m|
  {
    forall k | k in m && k != id
      ensures Precedes(m0, o0, id, k)
    {
      assert Precedes(m, o, id, k);
      if m[id].lastUsed == m[k].lastUsed {
        KeepIndexOrder(o0, m.Keys, id, k);
      }
    }
    RemoveFromFiltered(m, o, o0, clock, id);
  }

  /** What the clean-up promises about the store `m` and order `o` it leaves, given the
      store `m0` and order `o0` it started from: only unexpired sessions of `m0` remain,
      unchanged; as many as there are unexpired ones, up to the capacity; every unexpired
      session removed precedes every remaining one in least-recently-used order; and the
      remaining ids keep their relative order. */
  ghost predicate CleanedFrom(m0: map<string, Session>, o0: seq<string>,
                              m: map<string, Session>, o: seq<string>, now: nat)
  {
    && (forall k :: k in m ==> k in m0 && m[k] == m0[k] && !Expired(m0[k], now))
    && |m| == Min(|Unexpired(m0, now)|, MAX_SESSIONS)
    && (forall r, k :: r in m0 && !Expired(m0[r], now) && r !in m && k in m ==> Precedes(m0, o0, r, k))
    && o == Keep(o0, m.Keys)
  }

  /** The expiry sweep followed by the capacity trim meets the clean-up promise. */
  lemma SweepThenTrim(m0: map<string, Session>, o0: seq<string>, swept: map<string, Session>,
                      o1: seq<string>, m: map<string, Session>, o: seq<string>, clock: int, now: nat)
    requires swept == Unexpired(m0, now) && o1 == Keep(o0, swept.Keys)
    requires TrimmedFrom(swept, o1, m, o, clock) && |m| <= MAX_SESSIONS
    ensures CleanedFrom(m0, o0, m, o, now)
  {
    KeepKeep(o0, swept.Keys, m.Keys);
    forall r, k | r in m0 && !Expired(m0[r], now) && r !in m && k in m
      ensures Precedes(m0, o0, r, k)
    {
      assert r in swept && Precedes(swept, o1, r, k);
      if m0[r].lastUsed == m0[k].lastUsed {
        KeepIndexOrder(o0, swept.Keys, r, k);
      }
    }
  }

  /** Inserting an unexpired session under a new id adds one to the unexpired count. */
  lemma UnexpiredInsert(m0: map<string, Session>, s: Session, now: nat)
    requires s.id !in m0 && !Expired(s, now)
    ensures |Unexpired(m0[s.id := s], now)| == |Unexpired(m0, now)| + 1
  {
    assert Unexpired(m0[s.id := s], now) == Unexpired(m0, now)[s.id := s];
    assert s.id !in Unexpired(m0, now);
  }

  /** No older session precedes a new one that is the most recently used and the last inserted. */
  lemma NewestLast(m0: map<string, Session>, o0: seq<string>, clock: int, s: Session, k: string)
    requires Coherent(m0, o0, clock) && s.id !in m0 && clock <= s.lastUsed && k in m0
    ensures !Precedes(m0[s.id := s], o0 + [s.id], s.id, k)
  {
    IndexOfAppend(o0, s.id, k);
  }

  /** A new session that is the most recently used and the last inserted survives the
      clean-up: no older session precedes it, and the clean-up keeps at least one. */
  lemma NewestSurvives(m0: map<string, Session>, o0: seq<string>, clock: int, s: Session, now: nat,
                       m: map<string, Session>, o: seq<string>)
    requires Coherent(m0, o0, clock) && s.id !in m0 && clock <= now && s.lastUsed == now
    requires CleanedFrom(m0[s.id := s], o0 + [s.id], m, o, now)
    ensures s.id in m && m[s.id] == s
    ensures |m| == Min(|Unexpired(m0, now)| + 1, MAX_SESSIONS)
  {
    UnexpiredInsert(m0, s, now);
    assert |m| >= 1;
    var k :| k in m;
    if k != s.id {
      NewestLast(m0, o0, clock, s, k);
    }
  }

  /** Besides keeping the new session, the clean-up after an insertion treats the older
      sessions as it promises. */
  lemma InsertThenClean(m0: map<string, Session>, o0: seq<string>, clock: int, s: Session, now: nat,
                        m: map<string, Session>, o: seq<string>)
    requires Coherent(m0, o0, clock) && s.id !in m0 && clock <= now && s.lastUsed == now
    requires CleanedFrom(m0[s.id := s], o0 + [s.id], m, o, now)
    ensures forall k :: k in m && k != s.id ==> k in m0 && m[k] == m0[k] && !Expired(m0[k], now)
    ensures forall k :: k in m0 && Expired(m0[k], now) ==> k !in m
    ensures forall r, k :: r in m0 && !Expired(m0[r], now) && r !in m && k in m ==>
              m0[r].lastUsed <= m[k].lastUsed
  {
    var inserted, o1 := m0[s.id := s], o0 + [s.id];
    forall r, k | r in m0 && !Expired(m0[r], now) && r !in m && k in m
      ensures m0[r].lastUsed <= m[k].lastUsed
    {
      assert Precedes(inserted, o1, r, k);
    }
  }

  /** Counts and creation-time extremes of a list of sessions. */
  function StatsOf(list: seq<Session>): (st: Stats)
    ensures st.totalSessions == |list|
    ensures st.totalMessages == 0 <==> forall i :: 0 <= i < |list| ==> list[i].messages == []
    ensures st.oldestSession.None? <==> list == []
    ensures st.newestSession.None? <==> list == []
    ensures st.oldestSession.Some? ==>
              && (forall i :: 0 <= i < |list| ==> st.oldestSession.value <= list[i].createdAt)
              && (exists i :: 0 <= i < |list| && list[i].createdAt == st.oldestSession.value)
    ensures st.newestSession.Some? ==>
              && (forall i :: 0 <= i < |list| ==> list[i].createdAt <= st.newestSession.value)
              && (exists i :: 0 <= i < |list| && list[i].createdAt == st.newestSession.value)
  {
    SumMessagesZero(list);
    Stats(|list|, SumMessages(list),
          if list != [] then Some(MinCreated(list)) else None,
          if list != [] then Some(MaxCreated(list)) else None)
  }

  /** The expiry sweep of the clean-up: visits the ids in insertion order and deletes
      every session idle for longer than the timeout. */
  method SweepExpired(m0: map<string, Session>, o0: seq<string>, ghost clock: int, now: nat)
    returns (m: map<string, Session>, o: seq<string>)
    requires Coherent(m0, o0, clock)
    ensures Coherent(m, o, clock)
    ensures m == Unexpired(m0, now)
    ensures o == Keep(o0, m.Keys)
  {
    m, o := m0, o0;
    var ids := o0;
    var i := 0;
    KeepAll(o, m.Keys);
    while i < |ids|
      invariant SweptPrefix(m0, m, o, clock, ids, i, now)
    {
      var id := ids[i];
      SweepStep(m0, m, o, clock, ids, i, now);
      if id in m && Expired(m[id], now) {
        m := m - {id};
        o := Keep(o, m.Keys);
      }
      i := i + 1;
    }
    SweepDone(m0, m, o, clock, ids, now);
  }

  /** The capacity trim of the clean-up: while more than MAX_SESSIONS sessions remain,
      deletes the least recently used one. */
  method TrimToCapacity(m0: map<string, Session>, o0: seq<string>, ghost clock: int)
    returns (m: map<string, Session>, o: seq<string>)
    requires Coherent(m0, o0, clock)
    ensures TrimmedFrom(m0, o0, m, o, clock)
    ensures |m| <= MAX_SESSIONS
  {
    m, o := m0, o0;
    KeepAll(o, m.Keys);
    while |m| > MAX_SESSIONS
      invariant TrimmedFrom(m0, o0, m, o, clock)
      decreases |m|
    {
      CoherentLength(m, o, clock);
      var id := LeastRecentlyUsed(m, o);
      TrimStep(m0, o0, m, o, clock, id);
      m := m - {id};
      o := Keep(o, m.Keys);
    }
  }

  /** The id of the least recently used session, the earliest inserted among equals. */
  method LeastRecentlyUsed(m: map<string, Session>, o: seq<string>) returns (id: string)
    requires Distinct(o) && (forall k :: k in o <==> k in m) && o != []
    ensures id in m
    ensures forall k :: k in m && k != id ==> Precedes(m, o, id, k)
  {
    var best := 0;
    var i := 1;
    while i < |o|
      invariant 1 <= i <= |o| && best < i
      invariant forall j :: 0 <= j < i && j != best ==>
                  || m[o[best]].lastUsed < m[o[j]].lastUsed
                  || (m[o[best]].lastUsed == m[o[j]].lastUsed && best < j)
    {
      if m[o[i]].lastUsed < m[o[best]].lastUsed {
        best := i;
      }
      i := i + 1;
    }
    id := o[best];
    forall k | k in m && k != id
      ensures Precedes(m, o, id, k)
    {
      var j := IndexOf(o, k);
      IndexOfDistinct(o, best);
    }
  }

  /** Replacing a session by a later use of it keeps the store coherent and replaces
      its place in the listing. */
  lemma CoherentUpdate(m: map<string, Session>, o: seq<string>, clock: int, s: Session, now: int)
    requires Coherent(m, o, clock) && s.id in m && clock <= now && s.createdAt <= s.lastUsed <= now
    ensures s.id in o
    ensures Coherent(m[s.id := s], o, now)
    ensures Listing(m[s.id := s], o) == Listing(m, o)[IndexOf(o, s.id) := s]
  {
    var i := IndexOf(o, s.id);
    forall j | 0 <= j < |o| && j != i
      ensures o[j] != s.id
    {
    }
  }

  /** Filing a new session under a new id at the end of the order keeps the store coherent. */
  lemma CoherentInsert(m: map<string, Session>, o: seq<string>, clock: int, s: Session)
    requires Coherent(m, o, clock) && s.id !in m && s.createdAt <= s.lastUsed && clock <= s.lastUsed
    ensures Coherent(m[s.id := s], o + [s.id], s.lastUsed)
  {
    assert s.id !in o;
  }

  /** The statistics of a store: those of its sessions in insertion order. */
  function StoreStats(m: map<string, Session>, o: seq<string>): Stats
    requires forall k :: k in o ==> k in m
  {
    StatsOf(Listing(m, o))
  }

  /** Appending messages to a session raises the message total by their number. */
  lemma AppendRaisesTotal(m: map<string, Session>, o: seq<string>, clock: int, id: string,
                          messages: seq<Message>, now: int)
    requires Coherent(m, o, clock) && id in m && clock <= now
    ensures StoreStats(m[id := m[id].(messages := m[id].messages + messages, lastUsed := now)], o).totalMessages
            == StoreStats(m, o).totalMessages + |messages|
  {
    var s := m[id].(messages := m[id].messages + messages, lastUsed := now);
    CoherentUpdate(m, o, clock, s, now);
    SumMessagesUpdate(Listing(m, o), IndexOf(o, id), s);
  }

  /** Deleting a session lowers the message total by the length of its history. */
  lemma DeleteLowersTotal(m: map<string, Session>, o: seq<string>, clock: int, id: string)
    requires Coherent(m, o, clock) && id in m
    ensures forall k :: k in Keep(o, (m - {id}).Keys) ==> k in m - {id}
    ensures StoreStats(m - {id}, Keep(o, (m - {id}).Keys)).totalMessages
            == StoreStats(m, o).totalMessages - |m[id].messages|
  {
    CoherentRemove(m, o, clock, id);
    SumMessagesRemove(Listing(m, o), IndexOf(o, id));
  }

  /** The store `m`, `o` after opening session `id` at `now` in the store `m0`, `o0`: a live
      session is only touched (`lastUsed := now`); otherwise an empty session is filed and
      the clean-up runs, removing every expired session, keeping min(unexpired + 1, 1000)
      sessions unchanged, evicting only sessions used no later than any kept one, and
      keeping the insertion order of the rest. */
  ghost predicate OpenedFrom(m0: map<string, Session>, o0: seq<string>, id: string, now: nat,
                             m: map<string, Session>, o: seq<string>)
  {
    && id in m
    && (id in m0 ==>
          && m[id] == m0[id].(lastUsed := now)
          && m == m0[id := m[id]]
          && o == o0)
    && (id !in m0 ==>
          && m[id] == Session(id, [], now, now)
          && (forall k :: k in m && k != id ==> k in m0 && m[k] == m0[k] && !Expired(m0[k], now))
          && (forall k :: k in m0 && Expired(m0[k], now) ==> k !in m)
          && |m| == Min(|Unexpired(m0, now)| + 1, MAX_SESSIONS)
          && (forall r, k :: r in m0 && !Expired(m0[r], now) && r !in m && k in m ==> m0[r].lastUsed <= m[k].lastUsed)
          && o == Keep(o0 + [id], m.Keys))
  }

  /** Deleting an id, live or not, keeps a store coherent and never grows it. */
  lemma CoherentDelete(m: map<string, Session>, o: seq<string>, clock: int, id: string)
    requires Coherent(m, o, clock)
    ensures Coherent(m - {id}, Keep(o, (m - {id}).Keys), clock)
    ensures |m - {id}| <= |m|
  {
    if id in m {
      CoherentRemove(m, o, clock, id);
    } else {
      assert m - {id} == m;
      KeepAll(o, m.Keys);
    }
  }

  class ContextManager {
    /** The live sessions by id. */
    var sessions: map<string, Session>
    /** The ids in insertion order (the iteration order of the store). */
    var order: seq<string>
    /** The latest time the store has been told about. */
    ghost var clock: int

    ghost predicate WellFormed()
      reads this
    {
      Coherent(sessions, order, clock)
    }

    ghost predicate Valid()
      reads this
    {
      WellFormed() && |sessions| <= MAX_SESSIONS
    }

    constructor ()
      ensures Valid() && sessions == map[] && order == [] && clock == 0
    {
      sessions := map[];
      order := [];
      clock := 0;
    }

    /** Every live session, once each, in insertion order. */
    function GetAllSessions(): (list: seq<Session>)
      reads this
      requires WellFormed()
      ensures |list| == |sessions|
      ensures forall i :: 0 <= i < |list| ==> list[i].id in sessions && sessions[list[i].id] == list[i]
      ensures forall k :: k in sessions ==> exists i :: 0 <= i < |list| && list[i] == sessions[k]
      ensures forall i, j :: 0 <= i < j < |list| ==> list[i].id != list[j].id
    {
      ListingFacts(sessions, order, clock);
      Listing(sessions, order)
    }

    /** A copy of the history of a session, or no messages for an unknown id. */
    function GetHistory(sessionId: string): (history: seq<Message>)
      reads this
      ensures sessionId !in sessions ==> history == []
      ensures sessionId in sessions ==> history == sessions[sessionId].messages
    {
      if sessionId in sessions then sessions[sessionId].messages else []
    }

    /** Counts and creation-time extremes over the live sessions. */
    function GetStats(): (st: Stats)
      reads this
      requires WellFormed()
      ensures st.totalSessions == |sessions|
      ensures st.totalMessages == 0 <==> forall k :: k in sessions ==> sessions[k].messages == []
      ensures st.oldestSession.None? <==> |sessions| == 0
      ensures st.newestSession.None? <==> |sessions| == 0
      ensures st.oldestSession.Some? ==>
                && (forall k :: k in sessions ==> st.oldestSession.value <= sessions[k].createdAt)
                && (exists k :: k in sessions && sessions[k].createdAt == st.oldestSession.value)
      ensures st.newestSession.Some? ==>
                && (forall k :: k in sessions ==> sessions[k].createdAt <= st.newestSession.value)
                && (exists k :: k in sessions && sessions[k].createdAt == st.newestSession.value)
    {
      ListingFacts(sessions, order, clock);
      TotalOfStore(sessions, order, clock);
      if order != [] then
        OldestOfStore(sessions, order, clock);
        NewestOfStore(sessions, order, clock);
        StoreStats(sessions, order)
      else
        StoreStats(sessions, order)
    }

    /** Appends messages to a known session and marks it used; an unknown id changes nothing. */
    method AddMessages(sessionId: string, messages: seq<Message>, now: nat)
      requires Valid() && clock <= now
      modifies this
      ensures Valid() && order == old(order)
      ensures sessionId !in old(sessions) ==> sessions == old(sessions) && clock == old(clock)
      ensures sessionId in old(sessions) ==>
                sessions == old(sessions)[sessionId := old(sessions)[sessionId].(
                              messages := old(sessions)[sessionId].messages + messages, lastUsed := now)]
      ensures GetHistory(sessionId) == if sessionId in old(sessions) then old(GetHistory(sessionId)) + messages else []
    {
      if sessionId !in sessions {
        return;
      }
      var session := sessions[sessionId];
      session := session.(messages := session.messages + messages, lastUsed := now);
      CoherentUpdate(sessions, order, clock, session, now);
      sessions := sessions[sessionId := session];
      clock := now;
    }

    /** Removes a session; reports whether it existed. */
    method DeleteSession(sessionId: string) returns (deleted: bool)
      requires Valid()
      modifies this
      ensures Valid() && clock == old(clock)
      ensures deleted <==> sessionId in old(sessions)
      ensures sessions == old(sessions) - {sessionId}
      ensures order == Keep(old(order), sessions.Keys)
    {
      deleted := sessionId in sessions;
      var rest := sessions - {sessionId};
      var kept := Keep(order, rest.Keys);
      CoherentDelete(sessions, order, clock, sessionId);
      sessions, order := rest, kept;
    }

    /** The clean-up run after every creation: the expiry sweep, then the capacity trim. */
    method CleanOldSessions(now: nat)
      requires WellFormed()
      modifies this
      ensures Valid() && clock == old(clock)
      ensures CleanedFrom(old(sessions), old(order), sessions, order, now)
    {
      var m, o := SweepExpired(sessions, order, clock, now);
      ghost var swept, o1 := m, o;
      m, o := TrimToCapacity(m, o, clock);
      SweepThenTrim(sessions, order, swept, o1, m, o, clock, now);
      sessions, order := m, o;
    }

    /** Returns the live session with the given id after marking it used; otherwise creates
        an empty session under the given id (or a fresh one when none is given), stores it
        and runs the clean-up. `freshId` stands for the generated id. */
    method GetOrCreateSession(sessionId: Option<string>, now: nat, freshId: string) returns (session: Session)
      requires Valid() && clock <= now
      requires freshId !in sessions
      modifies this
      ensures Valid() && clock == now
      ensures session.id in sessions && sessions[session.id] == session
      ensures sessionId.Some? && sessionId.value != "" ==> session.id == sessionId.value
      ensures sessionId.None? || sessionId.value == "" ==> session.id == freshId
      ensures OpenedFrom(old(sessions), old(order), session.id, now, sessions, order)
    {
      if sessionId.Some? && sessionId.value != "" && sessionId.value in sessions {
        session := sessions[sessionId.value];
        session := session.(lastUsed := now);
        CoherentUpdate(sessions, order, clock, session, now);
        sessions := sessions[sessionId.value := session];
        clock := now;
        return;
      }
      var id := if sessionId.Some? && sessionId.value != "" then sessionId.value else freshId;
      session := Session(id, [], now, now);
      ghost var m0, o0, c0 := sessions, order, clock;
      CoherentInsert(sessions, order, clock, session);
      sessions := sessions[id := session];
      order := order + [id];
      clock := now;
      CleanOldSessions(now);
      NewestSurvives(m0, o0, c0, session, now, sessions, order);
      InsertThenClean(m0, o0, c0, session, now, sessions, order);
    }
  }
}
