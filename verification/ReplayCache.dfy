/**
 The agent's memory of request identifiers (agent/internal/replay/cache.go).

 The cache is a list of entries in order of use with a map pointing into it, both
 changed in place. What it answers is stated without either: an identifier counts
 as seen exactly when it was last observed less than the time to live ago and
 fewer than `capacity` distinct other identifiers were observed since.
 */
module ReplayCache {
  datatype Seen = Seen(id: string, at: int)

  // ---- what the history says --------------------------------------------

  predicate Observed(h: seq<Seen>, id: string)
  {
    h != [] && (h[|h| - 1].id == id || Observed(h[..|h| - 1], id))
  }

  function LastAt(h: seq<Seen>, id: string): int
    requires Observed(h, id)
  {
    if h[|h| - 1].id == id then h[|h| - 1].at else LastAt(h[..|h| - 1], id)
  }

  /** The distinct other identifiers observed after the last observation of this one. */
  function OthersSince(h: seq<Seen>, id: string): set<string>
  {
    if h == [] || h[|h| - 1].id == id then {} else OthersSince(h[..|h| - 1], id) + {h[|h| - 1].id}
  }

  predicate Fresh(h: seq<Seen>, id: string, now: int, ttl: int, capacity: nat)
  {
    Observed(h, id) && now - LastAt(h, id) < ttl && |OthersSince(h, id)| < capacity
  }

  /** A clock that does not run backwards. */
  ghost predicate Forward(h: seq<Seen>)
  {
    forall i, j :: 0 <= i < j < |h| ==> h[i].at <= h[j].at
  }

  // ---- the history in order of last use ---------------------------------

  function Without(s: seq<Seen>, id: string): seq<Seen>
  {
    if s == [] then []
    else if s[|s| - 1].id == id then Without(s[..|s| - 1], id)
    else Without(s[..|s| - 1], id) + [s[|s| - 1]]
  }

  /** Each identifier once, at its last observation, least recent first. */
  function Recent(h: seq<Seen>): seq<Seen>
  {
    if h == [] then [] else Without(Recent(h[..|h| - 1]), h[|h| - 1].id) + [h[|h| - 1]]
  }

  ghost predicate IdsOnce(s: seq<Seen>)
  {
    forall i, j :: 0 <= i < j < |s| ==> s[i].id != s[j].id
  }

  lemma {:induction false} WithoutMembers(s: seq<Seen>, id: string)
    ensures forall x :: x in Without(s, id) <==> x in s && x.id != id
  {
    if s != [] {
      WithoutMembers(s[..|s| - 1], id);
      assert s == s[..|s| - 1] + [s[|s| - 1]];
    }
  }

  lemma {:induction false} WithoutKeepsOrder(s: seq<Seen>, id: string)
    requires IdsOnce(s)
    ensures IdsOnce(Without(s, id))
    ensures Forward(s) ==> Forward(Without(s, id))
  {
    if s != [] {
      var rest, last := s[..|s| - 1], s[|s| - 1];
      assert s == rest + [last];
      WithoutKeepsOrder(rest, id);
      if last.id != id {
        WithoutMembers(rest, id);
        LaterEntry(Without(rest, id), rest, last);
      }
    }
  }

  /** What follows every entry of a list follows every entry of a part of it. */
  lemma LaterEntry(part: seq<Seen>, rest: seq<Seen>, last: Seen)
    requires forall x :: x in part ==> x in rest
    requires IdsOnce(rest + [last]) && IdsOnce(part)
    ensures IdsOnce(part + [last])
    ensures Forward(rest + [last]) && Forward(part) ==> Forward(part + [last])
  {
    var whole, joined := rest + [last], part + [last];
    forall i | 0 <= i < |part|
      ensures part[i].id != last.id
      ensures Forward(whole) ==> part[i].at <= last.at
    {
      assert part[i] in part && part[i] in rest;
      var k :| 0 <= k < |rest| && rest[k] == part[i];
      assert whole[k] == part[i] && whole[|rest|] == last;
    }
  }

  lemma {:induction false} WithoutSplits(a: seq<Seen>, b: seq<Seen>, id: string)
    ensures Without(a + b, id) == Without(a, id) + Without(b, id)
  {
    if b == [] {
      assert a + b == a;
    } else {
      var n := |b| - 1;
      assert (a + b)[..|a + b| - 1] == a + b[..n];
      WithoutSplits(a, b[..n], id);
    }
  }

  lemma {:induction false} WithoutAbsent(s: seq<Seen>, id: string)
    requires forall x :: x in s ==> x.id != id
    ensures Without(s, id) == s
  {
    if s != [] {
      WithoutAbsent(s[..|s| - 1], id);
      assert s == s[..|s| - 1] + [s[|s| - 1]];
    }
  }

  /** Taking out the one entry that carries an identifier. */
  lemma {:induction false} WithoutOne(s: seq<Seen>, p: nat)
    requires IdsOnce(s) && p < |s|
    ensures Without(s, s[p].id) == s[..p] + s[p + 1..]
  {
    var n := |s| - 1;
    var rest := s[..n];
    assert s == rest + [s[n]];
    if p == n {
      WithoutAbsent(rest, s[p].id);
    } else {
      WithoutOne(rest, p);
      assert rest[p + 1..] + [s[n]] == s[p + 1..];
      assert rest[..p] == s[..p];
    }
  }

  lemma {:induction false} RecentMembers(h: seq<Seen>)
    ensures forall x :: x in Recent(h) ==> x in h
  {
    if h != [] {
      RecentMembers(h[..|h| - 1]);
      WithoutMembers(Recent(h[..|h| - 1]), h[|h| - 1].id);
    }
  }

  lemma {:induction false} RecentIsOrdered(h: seq<Seen>)
    ensures IdsOnce(Recent(h))
    ensures Forward(h) ==> Forward(Recent(h))
  {
    hide Without;
    if h != [] {
      var before, last := h[..|h| - 1], h[|h| - 1];
      RecentIsOrdered(before);
      RecentMembers(before);
      WithoutKeepsOrder(Recent(before), last.id);
      WithoutMembers(Recent(before), last.id);
      PutInOrder(Without(Recent(before), last.id), before, last);
      assert h == before + [last];
    }
  }

  lemma PutInOrder(part: seq<Seen>, before: seq<Seen>, last: Seen)
    requires IdsOnce(part) && (Forward(before) ==> Forward(part))
    requires forall x :: x in part ==> x in before && x.id != last.id
    ensures IdsOnce(part + [last])
    ensures Forward(before + [last]) ==> Forward(part + [last])
  {
    hide IdsOnce, Forward;
    if Forward(before + [last]) {
      EarlierThanLast(before, last);
    }
    AddedLast(part, last);
  }

  lemma EarlierThanLast(before: seq<Seen>, last: Seen)
    requires Forward(before + [last])
    ensures Forward(before) && forall x :: x in before ==> x.at <= last.at
  {
    var whole := before + [last];
    assert whole[|before|] == last;
    assert forall i :: 0 <= i < |before| ==> whole[i] == before[i];
  }

  lemma AddedLast(part: seq<Seen>, last: Seen)
    requires IdsOnce(part) && forall x :: x in part ==> x.id != last.id
    ensures IdsOnce(part + [last])
    ensures Forward(part) && (forall x :: x in part ==> x.at <= last.at) ==> Forward(part + [last])
  {
  }

  /** A later observation of another identifier only takes entries out around it. */
  lemma StandsStill(s: seq<Seen>, p: nat, last: Seen) returns (j: nat)
    requires IdsOnce(s) && p < |s| && s[p].id != last.id
    ensures j == |Without(s[..p], last.id)|
    ensures Without(s, last.id) == Without(s[..p], last.id) + [s[p]] + Without(s[p + 1..], last.id)
  {
    assert s == s[..p] + ([s[p]] + s[p + 1..]);
    WithoutSplits(s[..p], [s[p]] + s[p + 1..], last.id);
    WithoutSplits([s[p]], s[p + 1..], last.id);
    assert Without([s[p]], last.id) == [s[p]];
    j := |Without(s[..p], last.id)|;
  }

  function IdsIn(s: seq<Seen>): set<string>
  {
    set x | x in s :: x.id
  }

  lemma {:induction false} IdsCount(s: seq<Seen>)
    requires IdsOnce(s)
    ensures |IdsIn(s)| == |s|
  {
    if s != [] {
      var rest := s[..|s| - 1];
      IdsCount(rest);
      assert s == rest + [s[|s| - 1]];
      assert IdsIn(s) == IdsIn(rest) + {s[|s| - 1].id};
      assert s[|s| - 1].id !in IdsIn(rest);
    }
  }

  lemma NewcomersCount(s: seq<Seen>, p: nat, last: Seen)
    requires IdsOnce(s) && p < |s| && s[p].id != last.id
    ensures var tail := Without(s[p + 1..], last.id) + [last];
      IdsIn(tail) == IdsIn(s[p + 1..]) + {last.id} && |IdsIn(tail)| == |tail|
  {
    var rest := s[p + 1..];
    var tail := Without(rest, last.id) + [last];
    WithoutMembers(rest, last.id);
    WithoutKeepsOrder(rest, last.id);
    assert IdsOnce(tail);
    IdsCount(tail);
    forall id
      ensures id in IdsIn(tail) <==> id in IdsIn(rest) + {last.id}
    {
      if id in IdsIn(rest) && id != last.id {
        var x :| x in rest && x.id == id;
        assert x in tail;
      }
      assert last in tail;
    }
  }
  /** Where an identifier stands in order of use says when it was seen and what came since. */
  lemma {:induction false} StandsAt(h: seq<Seen>, id: string) returns (j: nat)
    requires Observed(h, id)
    ensures j < |Recent(h)| && Recent(h)[j] == Seen(id, LastAt(h, id))
    ensures OthersSince(h, id) == IdsIn(Recent(h)[j + 1..])
    ensures |OthersSince(h, id)| == |Recent(h)| - 1 - j
  {
    hide Without, IdsOnce, IdsIn;
    var n := |h| - 1;
    var before, last := h[..n], h[n];
    var was := Recent(before);
    RecentIsOrdered(before);
    if last.id == id {
      j := |Recent(h)| - 1;
      assert Recent(h)[j + 1..] == [];
      NoIds();
    } else {
      var p := StandsAt(before, id);
      j := StandsStill(was, p, last);
      assert Recent(h)[j + 1..] == Without(was[p + 1..], last.id) + [last];
      NewcomersCount(was, p, last);
    }
  }

  lemma NoIds()
    ensures IdsIn([]) == {}
  {
  }

  /** Every entry stands for the last observation of its identifier. */
  lemma {:induction false} StandsForLast(h: seq<Seen>, x: Seen)
    requires x in Recent(h)
    ensures Observed(h, x.id) && LastAt(h, x.id) == x.at
  {
    if x != h[|h| - 1] {
      WithoutMembers(Recent(h[..|h| - 1]), h[|h| - 1].id);
      StandsForLast(h[..|h| - 1], x);
    }
  }

  // ---- what may have been forgotten -------------------------------------

  predicate Expired(x: Seen, now: int, ttl: int)
  {
    now - x.at >= ttl
  }

  /** The first `k` entries may be gone: each is too old or has `capacity` entries after it. */
  ghost predicate Forgettable(r: seq<Seen>, k: nat, now: int, ttl: int, capacity: nat)
  {
    k <= |r| && forall j :: 0 <= j < k ==> Expired(r[j], now, ttl) || |r| - 1 - j >= capacity
  }

  /** What is kept is the end of the history in order of use, and what is missing may be missing. */
  ghost predicate Remembers(kept: seq<Seen>, h: seq<Seen>, now: int, ttl: int, capacity: nat)
  {
    && |kept| <= |Recent(h)|
    && kept == Recent(h)[|Recent(h)| - |kept|..]
    && Forgettable(Recent(h), |Recent(h)| - |kept|, now, ttl, capacity)
  }

  /** Nothing that is kept is too old. */
  ghost predicate Swept(kept: seq<Seen>, now: int, ttl: int)
  {
    forall x :: x in kept ==> !Expired(x, now, ttl)
  }

  lemma NothingYet(now: int, ttl: int, capacity: nat)
    ensures Remembers([], [], now, ttl, capacity)
  {
  }

  lemma TimePasses(kept: seq<Seen>, h: seq<Seen>, clock: int, now: int, ttl: int, capacity: nat)
    requires Remembers(kept, h, clock, ttl, capacity) && clock <= now
    ensures Remembers(kept, h, now, ttl, capacity)
  {
  }

  /** The oldest entry may go when it is too old or one too many are kept. */
  lemma OldestGoes(kept: seq<Seen>, h: seq<Seen>, now: int, ttl: int, capacity: nat)
    requires Remembers(kept, h, now, ttl, capacity) && kept != []
    requires Expired(kept[0], now, ttl) || |kept| > capacity
    ensures Remembers(kept[1..], h, now, ttl, capacity)
  {
    hide Recent;
    var r := Recent(h);
    assert r[|r| - |kept|] == kept[0];
    assert r[|r| - |kept| + 1..] == kept[1..];
  }

  /** The list is in order of time, so a first entry young enough ends the sweep. */
  lemma FrontDecides(kept: seq<Seen>, h: seq<Seen>, now: int, ttl: int, capacity: nat)
    requires Remembers(kept, h, now, ttl, capacity) && Forward(h)
    requires kept == [] || !Expired(kept[0], now, ttl)
    ensures Swept(kept, now, ttl)
  {
    hide Recent;
    RecentIsOrdered(h);
    var r := Recent(h);
    forall x | x in kept
      ensures !Expired(x, now, ttl)
    {
      var i :| 0 <= i < |kept| && kept[i] == x;
      assert r[|r| - |kept| + i] == x && r[|r| - |kept|] == kept[0];
    }
  }

  /** After a sweep the identifiers kept are exactly the fresh ones. */
  lemma KeptIffFresh(kept: seq<Seen>, h: seq<Seen>, id: string, now: int, ttl: int, capacity: nat)
    requires Remembers(kept, h, now, ttl, capacity) && Swept(kept, now, ttl) && |kept| <= capacity
    ensures id in IdsIn(kept) <==> Fresh(h, id, now, ttl, capacity)
  {
    hide Recent, Observed, LastAt, OthersSince;
    var r := Recent(h);
    var k := |r| - |kept|;
    RecentIsOrdered(h);
    if Observed(h, id) {
      var j := StandsAt(h, id);
      assert k <= j ==> kept[j - k] == r[j];
      if id in IdsIn(kept) {
        var x :| x in kept && x.id == id;
        var i :| 0 <= i < |kept| && kept[i] == x;
        assert r[k + i] == x;
      }
    } else if id in IdsIn(kept) {
      var x :| x in kept && x.id == id;
      assert x in r;
      StandsForLast(h, x);
    }
  }

  /** No identifier is kept twice. */
  lemma KeptOnce(kept: seq<Seen>, h: seq<Seen>, now: int, ttl: int, capacity: nat)
    requires Remembers(kept, h, now, ttl, capacity)
    ensures IdsOnce(kept)
  {
    hide Recent;
    RecentIsOrdered(h);
    var r := Recent(h);
    assert forall i :: 0 <= i < |kept| ==> kept[i] == r[|r| - |kept| + i];
  }

  /** An entry that is kept moves to the end when it is observed again. */
  lemma MovesToTheEnd(r: seq<Seen>, k: nat, p: nat, now: int, ttl: int, capacity: nat)
    requires IdsOnce(r) && k <= p < |r| && Forgettable(r, k, now, ttl, capacity)
    ensures var s := Without(r, r[p].id) + [Seen(r[p].id, now)];
      && s == r[..p] + r[p + 1..] + [Seen(r[p].id, now)]
      && Forgettable(s, k, now, ttl, capacity)
  {
    hide Without;
    WithoutOne(r, p);
  }

  lemma SeenAgain(kept: seq<Seen>, h: seq<Seen>, p: nat, now: int, ttl: int, capacity: nat)
    requires Remembers(kept, h, now, ttl, capacity) && p < |kept|
    ensures Remembers(kept[..p] + kept[p + 1..] + [Seen(kept[p].id, now)],
      h + [Seen(kept[p].id, now)], now, ttl, capacity)
  {
    hide Without, Forgettable, IdsOnce, Forward;
    var r, last := Recent(h), Seen(kept[p].id, now);
    var k := |r| - |kept|;
    assert r[k + p] == kept[p];
    RecentIsOrdered(h);
    MovesToTheEnd(r, k, k + p, now, ttl, capacity);
    assert (h + [last])[..|h|] == h;
    assert (r[..k + p] + r[k + p + 1..] + [last])[k..] == kept[..p] + kept[p + 1..] + [last];
  }

  /** One that is not kept is added at the end, wherever among the forgotten ones it stood. */
  lemma JoinsTheEnd(r: seq<Seen>, k: nat, id: string, now: int, ttl: int, capacity: nat) returns (m: nat)
    requires IdsOnce(r) && Forgettable(r, k, now, ttl, capacity)
    requires forall j :: k <= j < |r| ==> r[j].id != id
    ensures var s := Without(r, id) + [Seen(id, now)];
      && Forgettable(s, m, now, ttl, capacity)
      && s[m..] == r[k..] + [Seen(id, now)]
  {
    hide Without;
    var last := Seen(id, now);
    if p :| 0 <= p < k && r[p].id == id {
      WithoutOne(r, p);
      m := k - 1;
      var s := r[..p] + r[p + 1..] + [last];
      assert s[m..] == r[k..] + [last];
      assert forall j :: p <= j < m ==> s[j] == r[j + 1];
    } else {
      WithoutAbsent(r, id);
      m := k;
      assert (r + [last])[m..] == r[k..] + [last];
    }
  }

  lemma SeenAnew(kept: seq<Seen>, h: seq<Seen>, id: string, now: int, ttl: int, capacity: nat)
    requires Remembers(kept, h, now, ttl, capacity) && id !in IdsIn(kept)
    ensures Remembers(kept + [Seen(id, now)], h + [Seen(id, now)], now, ttl, capacity)
  {
    hide Without, Forgettable, IdsOnce, Forward;
    var r, last := Recent(h), Seen(id, now);
    var k := |r| - |kept|;
    RecentIsOrdered(h);
    forall j | k <= j < |r|
      ensures r[j].id != id
    {
      assert r[j] == kept[j - k];
    }
    FitsWithin(r, k, now, ttl, capacity);
    var m := JoinsTheEnd(r, k, id, now, ttl, capacity);
    FitsWithin(Without(r, id) + [last], m, now, ttl, capacity);
    assert (h + [last])[..|h|] == h;
  }

  lemma FitsWithin(r: seq<Seen>, k: nat, now: int, ttl: int, capacity: nat)
    requires Forgettable(r, k, now, ttl, capacity)
    ensures k <= |r|
  {
  }

  // ---- the cache --------------------------------------------------------

  class Entry {
    const id: string
    var seenAt: int

    constructor (id: string, seenAt: int)
      ensures this.id == id && this.seenAt == seenAt
    {
      this.id := id;
      this.seenAt := seenAt;
    }
  }

  function Values(order: seq<Entry>): (r: seq<Seen>)
    reads order
    ensures |r| == |order|
    ensures forall i :: 0 <= i < |r| ==> r[i] == Seen(order[i].id, order[i].seenAt)
  {
    if order == [] then [] else [Seen(order[0].id, order[0].seenAt)] + Values(order[1..])
  }

  /** The list without one of its elements. */
  function Unlinked(order: seq<Entry>, element: Entry): seq<Entry>
  {
    if order == [] then [] else if order[0] == element then order[1..] else [order[0]] + Unlinked(order[1..], element)
  }

  lemma {:induction false} UnlinkedAt(order: seq<Entry>, p: nat)
    requires p < |order| && forall i :: 0 <= i < p ==> order[i] != order[p]
    ensures Unlinked(order, order[p]) == order[..p] + order[p + 1..]
  {
    if p > 0 {
      var rest := order[1..];
      UnlinkedAt(rest, p - 1);
      assert [order[0]] + rest[..p - 1] == order[..p];
      assert rest[p..] == order[p + 1..];
    }
  }

  ghost predicate NoRepeats(order: seq<Entry>)
  {
    forall i, j :: 0 <= i < j < |order| ==> order[i] != order[j]
  }

  /** The map points at exactly the elements of the list, each under its own identifier. */
  ghost predicate PointsInto(entries: map<string, Entry>, order: seq<Entry>)
  {
    && (forall x :: x in order ==> x.id in entries && entries[x.id] == x)
    && (forall id :: id in entries ==> entries[id] in order && entries[id].id == id)
    && NoRepeats(order)
  }

  lemma StillNoRepeats(order: seq<Entry>, p: nat)
    requires NoRepeats(order) && p < |order|
    ensures NoRepeats(order[..p] + order[p + 1..])
    ensures forall i :: 0 <= i < |order| && i != p ==> order[i] != order[p]
  {
    var rest := order[..p] + order[p + 1..];
    assert forall i :: 0 <= i < |rest| ==> rest[i] == order[if i < p then i else i + 1];
  }

  ghost predicate SameBut(rest: seq<Entry>, order: seq<Entry>, element: Entry)
  {
    (forall x :: x in rest ==> x in order && x != element) && (forall x :: x in order && x != element ==> x in rest)
  }

  lemma LeftOver(order: seq<Entry>, p: nat)
    requires p < |order| && forall i :: 0 <= i < |order| && i != p ==> order[i] != order[p]
    ensures SameBut(order[..p] + order[p + 1..], order, order[p])
  {
    var rest := order[..p] + order[p + 1..];
    forall x | x in order && x != order[p]
      ensures x in rest
    {
      var i :| 0 <= i < |order| && order[i] == x;
      assert x == rest[if i < p then i else i - 1];
    }
  }

  lemma TakenOut(order: seq<Entry>, p: nat)
    requires NoRepeats(order) && p < |order|
    ensures Unlinked(order, order[p]) == order[..p] + order[p + 1..]
    ensures NoRepeats(order[..p] + order[p + 1..])
    ensures SameBut(order[..p] + order[p + 1..], order, order[p])
  {
    hide NoRepeats, SameBut, Unlinked;
    StillNoRepeats(order, p);
    UnlinkedAt(order, p);
    LeftOver(order, p);
  }

  lemma Dropped(entries: map<string, Entry>, order: seq<Entry>, rest: seq<Entry>, element: Entry)
    requires PointsInto(entries, order) && element in order
    requires SameBut(rest, order, element) && NoRepeats(rest)
    ensures PointsInto(entries - {element.id}, rest)
  {
    hide NoRepeats;
  }

  lemma MovedToBack(entries: map<string, Entry>, order: seq<Entry>, p: nat)
    requires PointsInto(entries, order) && p < |order|
    ensures Unlinked(order, order[p]) == order[..p] + order[p + 1..]
    ensures PointsInto(entries, order[..p] + order[p + 1..] + [order[p]])
  {
    hide SameBut;
    TakenOut(order, p);
    PutBack(entries, order, order[..p] + order[p + 1..], order[p]);
  }

  lemma PutBack(entries: map<string, Entry>, order: seq<Entry>, rest: seq<Entry>, element: Entry)
    requires PointsInto(entries, order) && element in order
    requires SameBut(rest, order, element) && NoRepeats(rest)
    ensures PointsInto(entries, rest + [element])
  {
    hide NoRepeats;
    PutLast(rest, element);
  }

  lemma PushedBack(entries: map<string, Entry>, order: seq<Entry>, element: Entry)
    requires PointsInto(entries, order) && element.id !in entries
    ensures PointsInto(entries[element.id := element], order + [element])
  {
    hide NoRepeats;
    PutLast(order, element);
  }

  lemma PutLast(order: seq<Entry>, element: Entry)
    requires NoRepeats(order) && element !in order
    ensures NoRepeats(order + [element])
  {
  }

  class Cache {
    const ttl: int
    const capacity: nat
    var entries: map<string, Entry>
    var order: seq<Entry>
    /** Every observation so far, and the last time the clock was read. */
    ghost var history: seq<Seen>
    ghost var clock: int

    ghost predicate Linked()
      reads this`entries, this`order
    {
      PointsInto(entries, order)
    }

    ghost predicate Timely()
      reads this`history, this`clock
    {
      Forward(history) && forall x :: x in history ==> x.at <= clock
    }

    ghost predicate Valid()
      reads this, order
    {
      && capacity >= 1 && |order| <= capacity
      && Linked() && Timely()
      && Remembers(Values(order), history, clock, ttl, capacity)
    }

    constructor (capacity: int, ttl: int, ghost start: int)
      ensures Valid() && history == [] && order == [] && clock == start
      ensures this.ttl == ttl && this.capacity == if capacity < 1 then 1 else capacity
    {
      hide Remembers;
      this.ttl := ttl;
      this.capacity := if capacity < 1 then 1 else capacity;
      entries := map[];
      order := [];
      history := [];
      clock := start;
      NothingYet(start, ttl, if capacity < 1 then 1 else capacity);
      new;
      assert Values(order) == [];
    }

    method Remove(element: Entry)
      requires Linked() && element in order && element == order[0]
      modifies this`entries, this`order
      ensures Linked() && order == old(order)[1..]
    {
      hide NoRepeats, SameBut;
      TakenOut(order, 0);
      assert order[..0] + order[1..] == order[1..];
      Dropped(entries, order, order[1..], element);
      entries := entries - {element.id};
      order := Unlinked(order, element);
    }

    method RemoveOldest()
      requires Linked() && order != []
      modifies this`entries, this`order
      ensures Linked() && order == old(order)[1..]
    {
      if |order| > 0 {
        Remove(order[0]);
      }
    }

    /** Drops what is too old from the front, and with it everything that is too old. */
    method EvictExpired(now: int)
      requires Valid() && clock <= now
      modifies this`entries, this`order, this`clock
      ensures Valid() && clock == now && Swept(Values(order), now, ttl)
      ensures exists k :: 0 <= k <= |old(order)| && order == old(order)[k..]
    {
      hide Remembers, Linked, Recent, Swept, Values;
      TimePasses(Values(order), history, clock, now, ttl, capacity);
      clock := now;
      ghost var k := 0;
      while true
        invariant |order| <= capacity && Linked() && Timely()
        invariant Remembers(Values(order), history, now, ttl, capacity)
        invariant clock == now
        invariant 0 <= k <= |old(order)| && order == old(order)[k..]
        decreases |order|
      {
        if |order| == 0 || now - order[0].seenAt < ttl {
          FrontDecides(Values(order), history, now, ttl, capacity);
          break;
        }
        ghost var before := Values(order);
        OldestGoes(before, history, now, ttl, capacity);
        Remove(order[0]);
        assert Values(order) == before[1..];
        k := k + 1;
      }
    }

    /** With the list swept, looking an identifier up in the map decides whether it is fresh. */
    lemma LookupDecides(id: string)
      requires Valid() && Swept(Values(order), clock, ttl)
      ensures id in entries <==> Fresh(history, id, clock, ttl, capacity)
    {
      hide Remembers, Recent, Fresh, Swept;
      KeptIffFresh(Values(order), history, id, clock, ttl, capacity);
      var kept := Values(order);
      if id in entries {
        var i :| 0 <= i < |order| && order[i] == entries[id];
        assert kept[i] in kept && kept[i].id == id;
      }
    }

    lemma NotKept(id: string)
      requires Linked() && id !in entries
      ensures id !in IdsIn(Values(order))
    {
    }

    lemma Position(id: string) returns (p: nat)
      requires Linked() && id in entries
      ensures p < |order| && order[p] == entries[id] && entries[id].id == id
      ensures forall i :: 0 <= i < |order| && i != p ==> order[i] != order[p]
    {
      p :| 0 <= p < |order| && order[p] == entries[id];
    }

    /** The element of an identifier that is kept moves to the back with a new time. */
    method Refresh(id: string, now: int)
      requires Valid() && clock == now && id in entries
      modifies this`order, this`history, entries[id]
      ensures Valid() && history == old(history) + [Seen(id, now)]
    {
      hide Remembers, Recent, Values, PointsInto;
      var element := entries[id];
      ghost var p := Position(id);
      MovedToBack(entries, order, p);
      ghost var before := Values(order);
      SeenAgain(before, history, p, now, ttl, capacity);
      element.seenAt := now;
      order := Unlinked(order, element) + [element];
      history := history + [Seen(id, now)];
      assert Values(order) == before[..p] + before[p + 1..] + [Seen(id, now)];
    }

    method Add(id: string, now: int)
      requires Valid() && clock == now && id !in entries
      modifies this`entries, this`order, this`history
      ensures Valid() && history == old(history) + [Seen(id, now)]
      ensures forall x :: x in order ==> x in old(order) || fresh(x)
    {
      hide Remembers, Recent, Values, PointsInto;
      ghost var before := Values(order);
      NotKept(id);
      SeenAnew(before, history, id, now, ttl, capacity);
      var element := new Entry(id, now);
      PushedBack(entries, order, element);
      entries := entries[id := element];
      order := order + [element];
      history := history + [Seen(id, now)];
      assert Values(order) == before + [Seen(id, now)];
      while |order| > capacity
        invariant clock == now && history == old(history) + [Seen(id, now)]
        invariant Linked() && Remembers(Values(order), history, now, ttl, capacity)
        invariant forall x :: x in order ==> x in old(order) || fresh(x)
        decreases |order|
      {
        ghost var kept := Values(order);
        OldestGoes(kept, history, now, ttl, capacity);
        RemoveOldest();
        assert Values(order) == kept[1..];
      }
    }

    /** Records an identifier and reports whether it counted as seen before. */
    method Observe(id: string, now: int) returns (seen: bool)
      requires Valid() && clock <= now
      modifies this`entries, this`order, this`history, this`clock, order
      ensures Valid() && clock == now
      ensures seen <==> Fresh(old(history), id, now, ttl, capacity)
      ensures history == old(history) + [Seen(id, now)]
      ensures forall x :: x in order ==> x in old(order) || fresh(x)
    {
      hide Remembers, Recent, Values, Fresh, Timely;
      EvictExpired(now);
      LookupDecides(id);
      if id in entries {
        Refresh(id, now);
        return true;
      }
      Add(id, now);
      return false;
    }

    /** How many identifiers are remembered: as many as are fresh. */
    method Len(now: int) returns (n: nat)
      requires Valid() && clock <= now
      modifies this`entries, this`order, this`clock
      ensures Valid() && clock == now && n <= capacity
      ensures exists ids: set<string> :: |ids| == n && forall id :: id in ids <==>
        Fresh(history, id, now, ttl, capacity)
      ensures forall x :: x in order ==> x in old(order)
    {
      hide Remembers, Recent, Values, Fresh, Timely;
      EvictExpired(now);
      n := |order|;
      ghost var kept := Values(order);
      KeptOnce(kept, history, now, ttl, capacity);
      IdsCount(kept);
      forall id
        ensures id in IdsIn(kept) <==> Fresh(history, id, now, ttl, capacity)
      {
        KeptIffFresh(kept, history, id, now, ttl, capacity);
      }
    }
  }
}
