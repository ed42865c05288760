/** The registry of parked transactions as a value: what each operation answers and leaves. */
module StickySpec {
  import opened Common

  type Token = string

  datatype Item<T> = Item(live: T, expires: int)

  datatype Limits = Limits(max: nat, ttl: int)

  /** The counters of `Stats`, and counts of the exits it does not count. */
  datatype Counts = Counts(parked: nat, taken: nat, expired: nat, refused: nat, replaced: nat, dropped: nat, cleared: nat)

  datatype Reg<T> = Reg(items: map<Token, Item<T>>, counts: Counts)

  function Empty<T>(): Reg<T> {
    Reg(map[], Counts(0, 0, 0, 0, 0, 0, 0))
  }

  predicate Dead<T>(it: Item<T>, now: int) {
    now > it.expires
  }

  function ExpiredKeys<T>(items: map<Token, Item<T>>, now: int): set<Token> {
    set k | k in items && Dead(items[k], now)
  }

  function Unexpired<T>(items: map<Token, Item<T>>, now: int): map<Token, Item<T>> {
    map k | k in items && !Dead(items[k], now) :: items[k]
  }

  /** The entries a Park removes: the expired, and the one it replaces. */
  function ParkedOut<T>(l: Limits, items: map<Token, Item<T>>, rid: Token, now: int): set<Token> {
    ExpiredKeys(items, now) + if |Unexpired(items, now)| < l.max && rid in Unexpired(items, now) then {rid} else {}
  }

  function Swept<T>(r: Reg<T>, now: int): Reg<T> {
    Reg(Unexpired(r.items, now), r.counts.(expired := r.counts.expired + |ExpiredKeys(r.items, now)|))
  }

  datatype Op<T> =
    | Park(rid: Token, live: T, now: int)
    | Take(rid: Token, now: int)
    | Drop(rid: Token, now: int)
    | Sweep(now: int)
    | Close(now: int)

  datatype Result<T> = Parked(ok: bool) | Got(found: Option<T>) | Done

  /** Park, once the expired entries are gone. */
  function Admit<T>(l: Limits, r: Reg<T>, rid: Token, live: T, now: int): (Reg<T>, Result<T>) {
    if |r.items| >= l.max then (r.(counts := r.counts.(refused := r.counts.refused + 1)), Parked(false))
    else
      var replaced := if rid in r.items then 1 else 0;
      (Reg(r.items[rid := Item(live, now + l.ttl)],
           r.counts.(parked := r.counts.parked + 1, replaced := r.counts.replaced + replaced)), Parked(true))
  }

  /** The registry's own rule: expired entries stay until something touches them. */
  function Lazy<T>(l: Limits, r: Reg<T>, op: Op<T>): (Reg<T>, Result<T>) {
    match op
    case Park(rid, live, now) => Admit(l, Swept(r, now), rid, live, now)
    case Take(rid, now) =>
      if rid !in r.items then (r, Got(None))
      else if Dead(r.items[rid], now) then
        (Reg(r.items - {rid}, r.counts.(expired := r.counts.expired + 1)), Got(None))
      else (Reg(r.items - {rid}, r.counts.(taken := r.counts.taken + 1)), Got(Some(r.items[rid].live)))
    case Drop(rid, now) =>
      if rid !in r.items then (r, Done)
      else (Reg(r.items - {rid}, r.counts.(dropped := r.counts.dropped + 1)), Done)
    case Sweep(now) => (Swept(r, now), Done)
    case Close(now) => (Reg(map[], r.counts.(cleared := r.counts.cleared + |r.items|)), Done)
  }

  /** The reference: a plain map from which an entry is gone the instant its time has passed. */
  function Eager<T>(l: Limits, m: map<Token, Item<T>>, op: Op<T>): (map<Token, Item<T>>, Result<T>) {
    var live := Unexpired(m, op.now);
    match op
    case Park(rid, tx, now) =>
      if |live| >= l.max then (live, Parked(false)) else (live[rid := Item(tx, now + l.ttl)], Parked(true))
    case Take(rid, now) => if rid in live then (live - {rid}, Got(Some(live[rid].live))) else (live, Got(None))
    case Drop(rid, now) => (live - {rid}, Done)
    case Sweep(now) => (live, Done)
    case Close(now) => (map[], Done)
  }

  /** The answers of a whole run. */
  function LazyRun<T>(l: Limits, r: Reg<T>, ops: seq<Op<T>>): (out: (Reg<T>, seq<Result<T>>))
    ensures |out.1| == |ops|
    decreases |ops|
  {
    if ops == [] then (r, [])
    else
      var (r1, out) := Lazy(l, r, ops[0]);
      var (r2, outs) := LazyRun(l, r1, ops[1..]);
      (r2, [out] + outs)
  }

  function EagerRun<T>(l: Limits, m: map<Token, Item<T>>, ops: seq<Op<T>>): (out: (map<Token, Item<T>>, seq<Result<T>>))
    ensures |out.1| == |ops|
    decreases |ops|
  {
    if ops == [] then (m, [])
    else
      var (m1, out) := Eager(l, m, ops[0]);
      var (m2, outs) := EagerRun(l, m1, ops[1..]);
      (m2, [out] + outs)
  }

  ghost predicate ClockOrdered<T>(start: int, ops: seq<Op<T>>) {
    && (forall i :: 0 <= i < |ops| ==> start <= ops[i].now)
    && (forall i, j :: 0 <= i < j < |ops| ==> ops[i].now <= ops[j].now)
  }

  lemma LaterUnexpired<T>(items: map<Token, Item<T>>, now: int, later: int)
    requires now <= later
    ensures Unexpired(Unexpired(items, now), later) == Unexpired(items, later)
  {
  }

  lemma RemovedUnexpired<T>(items: map<Token, Item<T>>, rid: Token, now: int)
    ensures Unexpired(items - {rid}, now) == Unexpired(items, now) - {rid}
  {
  }

  lemma InsertedUnexpired<T>(a: map<Token, Item<T>>, b: map<Token, Item<T>>, rid: Token, it: Item<T>, now: int)
    requires Unexpired(a, now) == Unexpired(b, now)
    ensures Unexpired(a[rid := it], now) == Unexpired(b[rid := it], now)
  {
    assert forall k :: k in Unexpired(a, now) <==> k in Unexpired(b, now);
    var a', b' := Unexpired(a[rid := it], now), Unexpired(b[rid := it], now);
    forall k
      ensures k in a' <==> k in b'
      ensures k in a' ==> a'[k] == b'[k]
    {
      if k != rid {
        assert k in a' <==> k in Unexpired(a, now);
        assert k in b' <==> k in Unexpired(b, now);
        assert k in a' ==> Unexpired(a, now)[k] == Unexpired(b, now)[k];
      }
    }
  }

  /** One operation: equal answers, and the two stay equal once expired entries are ignored. */
  lemma LazyIsEager<T>(l: Limits, r: Reg<T>, m: map<Token, Item<T>>, op: Op<T>, start: int)
    requires start <= op.now && Unexpired(r.items, start) == Unexpired(m, start)
    ensures Lazy(l, r, op).1 == Eager(l, m, op).1
    ensures Unexpired(Lazy(l, r, op).0.items, op.now) == Unexpired(Eager(l, m, op).0, op.now)
  {
    LaterUnexpired(r.items, start, op.now);
    LaterUnexpired(m, start, op.now);
    LazyIsEagerAt(l, r, m, op);
  }

  lemma LazyIsEagerAt<T>(l: Limits, r: Reg<T>, m: map<Token, Item<T>>, op: Op<T>)
    requires Unexpired(r.items, op.now) == Unexpired(m, op.now)
    ensures Lazy(l, r, op).1 == Eager(l, m, op).1
    ensures Unexpired(Lazy(l, r, op).0.items, op.now) == Unexpired(Eager(l, m, op).0, op.now)
  {
    match op
    case Park(rid, tx, now) => ParkIsEager(l, r, m, rid, tx, now);
    case Take(rid, now) => TakeIsEager(l, r, m, rid, now);
    case Drop(rid, now) => DropIsEager(l, r, m, rid, now);
    case Sweep(now) => LaterUnexpired(m, now, now);
    case Close(_) =>
  }

  lemma ParkIsEager<T>(l: Limits, r: Reg<T>, m: map<Token, Item<T>>, rid: Token, tx: T, now: int)
    requires Unexpired(r.items, now) == Unexpired(m, now)
    ensures Lazy(l, r, Park(rid, tx, now)).1 == Eager(l, m, Park(rid, tx, now)).1
    ensures Lazy(l, r, Park(rid, tx, now)).0.items == Eager(l, m, Park(rid, tx, now)).0
  {
  }

  lemma TakeIsEager<T>(l: Limits, r: Reg<T>, m: map<Token, Item<T>>, rid: Token, now: int)
    requires Unexpired(r.items, now) == Unexpired(m, now)
    ensures Lazy(l, r, Take(rid, now)).1 == Eager(l, m, Take(rid, now)).1
    ensures Unexpired(Lazy(l, r, Take(rid, now)).0.items, now) == Unexpired(Eager(l, m, Take(rid, now)).0, now)
  {
    var live := Unexpired(m, now);
    LaterUnexpired(m, now, now);
    RemovedUnexpired(r.items, rid, now);
    RemovedUnexpired(live, rid, now);
    assert rid in live <==> rid in r.items && !Dead(r.items[rid], now);
    assert rid in live ==> live[rid] == r.items[rid];
    assert rid !in live ==> live - {rid} == live;
  }

  lemma DropIsEager<T>(l: Limits, r: Reg<T>, m: map<Token, Item<T>>, rid: Token, now: int)
    requires Unexpired(r.items, now) == Unexpired(m, now)
    ensures Unexpired(Lazy(l, r, Drop(rid, now)).0.items, now) == Unexpired(Eager(l, m, Drop(rid, now)).0, now)
  {
    var live := Unexpired(m, now);
    LaterUnexpired(m, now, now);
    RemovedUnexpired(live, rid, now);
    if rid in r.items {
      RemovedUnexpired(r.items, rid, now);
    } else {
      assert live - {rid} == live;
    }
  }

  /** Lazy expiry cannot be told from eager expiry in any run whose clock readings do not go
      back, although expired entries stay in the map until they are touched. */
  lemma {:induction false} LazyRunIsEager<T>(l: Limits, r: Reg<T>, m: map<Token, Item<T>>, ops: seq<Op<T>>, start: int)
    requires ClockOrdered(start, ops) && Unexpired(r.items, start) == Unexpired(m, start)
    ensures LazyRun(l, r, ops).1 == EagerRun(l, m, ops).1
    decreases |ops|
  {
    if ops != [] {
      LazyIsEager(l, r, m, ops[0], start);
      LazyRunIsEager(l, Lazy(l, r, ops[0]).0, Eager(l, m, ops[0]).0, ops[1..], ops[0].now);
    }
  }

  // ------------------------------------------------------------------ readings older than the lock

  /** An operation and the time it holds the lock. Only Park reads the clock before. */
  datatype Timed<T> = Timed(op: Op<T>, lock: int)

  ghost predicate LockOrdered<T>(start: int, ops: seq<Timed<T>>)
    decreases |ops|
  {
    ops == [] || (
      && start <= ops[0].lock
      && (if ops[0].op.Park? then ops[0].op.now <= ops[0].lock else ops[0].op.now == ops[0].lock)
      && LockOrdered(ops[0].lock, ops[1..]))
  }

  function Untimed<T>(ops: seq<Timed<T>>): seq<Op<T>>
    decreases |ops|
  {
    if ops == [] then [] else [ops[0].op] + Untimed(ops[1..])
  }

  /** The reference, with entries gone by the time each operation holds the lock. */
  function EagerTimed<T>(l: Limits, m: map<Token, Item<T>>, ops: seq<Timed<T>>): (outs: seq<Result<T>>)
    ensures |outs| == |ops|
    decreases |ops|
  {
    if ops == [] then []
    else
      var (m', out) := Eager(l, Unexpired(m, ops[0].lock), ops[0].op);
      [out] + EagerTimed(l, m', ops[1..])
  }

  /** A Park whose older reading still counts entries that have expired since, and is refused only
      because of them. */
  predicate StaleRefusal<T>(l: Limits, r: Reg<T>, t: Timed<T>) {
    t.op.Park? && |Unexpired(r.items, t.lock)| < l.max <= |Unexpired(r.items, t.op.now)|
  }

  predicate SomeStale<T>(l: Limits, r: Reg<T>, ops: seq<Timed<T>>)
    decreases |ops|
  {
    ops != [] && (StaleRefusal(l, r, ops[0]) || SomeStale(l, Lazy(l, r, ops[0].op).0, ops[1..]))
  }

  lemma FewerLater<T>(items: map<Token, Item<T>>, now: int, later: int)
    requires now <= later
    ensures |Unexpired(items, later)| <= |Unexpired(items, now)|
  {
    var a, b := Unexpired(items, later), Unexpired(items, now);
    assert b.Keys == a.Keys + (b.Keys - a.Keys);
  }

  lemma StillUnexpired<T>(items: map<Token, Item<T>>, now: int, later: int)
    requires now <= later
    ensures Unexpired(Unexpired(items, later), now) == Unexpired(items, later)
  {
  }

  /** A Park with any older reading answers as the reference does iff it is no stale refusal, and
      then leaves what the reference leaves. */
  lemma StaleParkDiffersIff<T>(l: Limits, r: Reg<T>, rid: Token, tx: T, now: int, lock: int)
    requires now <= lock
    ensures var m := Unexpired(r.items, lock);
      var op := Park(rid, tx, now);
      && (Lazy(l, r, op).1 == Eager(l, m, op).1 <==> !StaleRefusal(l, r, Timed(op, lock)))
      && (Lazy(l, r, op).1 == Eager(l, m, op).1 ==>
            Unexpired(Lazy(l, r, op).0.items, lock) == Unexpired(Eager(l, m, op).0, lock))
  {
    FewerLater(r.items, now, lock);
    StillUnexpired(r.items, now, lock);
    StaleLeaves(l, r, rid, Item(tx, now + l.ttl), now, lock);
  }

  lemma StaleLeaves<T>(l: Limits, r: Reg<T>, rid: Token, it: Item<T>, now: int, lock: int)
    requires now <= lock
    ensures Unexpired(Unexpired(r.items, now), lock) == Unexpired(Unexpired(r.items, lock), lock)
    ensures Unexpired(Unexpired(r.items, now)[rid := it], lock) == Unexpired(Unexpired(r.items, lock)[rid := it], lock)
  {
    LaterUnexpired(r.items, now, lock);
    LaterUnexpired(r.items, lock, lock);
    InsertedUnexpired(Unexpired(r.items, now), Unexpired(r.items, lock), rid, it, lock);
  }

  lemma TimedStep<T>(l: Limits, r: Reg<T>, m: map<Token, Item<T>>, t: Timed<T>, start: int)
    requires LockOrdered(start, [t]) && Unexpired(r.items, start) == Unexpired(m, start)
    ensures var m1 := Unexpired(m, t.lock);
      && (Lazy(l, r, t.op).1 == Eager(l, m1, t.op).1 <==> !StaleRefusal(l, r, t))
      && (Lazy(l, r, t.op).1 == Eager(l, m1, t.op).1 ==>
            Unexpired(Lazy(l, r, t.op).0.items, t.lock) == Unexpired(Eager(l, m1, t.op).0, t.lock))
  {
    LaterUnexpired(r.items, start, t.lock);
    LaterUnexpired(m, start, t.lock);
    var m1 := Unexpired(m, t.lock);
    if t.op.Park? {
      StaleParkDiffersIff(l, r, t.op.rid, t.op.live, t.op.now, t.lock);
    } else {
      LaterUnexpired(m, t.lock, t.lock);
      LazyIsEagerAt(l, r, m1, t.op);
    }
  }

  /** For every run in lock order, whatever older readings its Parks use: all answers are those of
      eager expiry iff no Park along the run is a stale refusal. */
  lemma {:induction false} TimedRunIsEagerIff<T>(l: Limits, r: Reg<T>, m: map<Token, Item<T>>, ops: seq<Timed<T>>, start: int)
    requires LockOrdered(start, ops) && Unexpired(r.items, start) == Unexpired(m, start)
    ensures LazyRun(l, r, Untimed(ops)).1 == EagerTimed(l, m, ops) <==> !SomeStale(l, r, ops)
    decreases |ops|
  {
    if ops != [] {
      var t := ops[0];
      TimedStep(l, r, m, t, start);
      var lazy, eager := Lazy(l, r, t.op), Eager(l, Unexpired(m, t.lock), t.op);
      assert Untimed(ops)[0] == t.op && Untimed(ops)[1..] == Untimed(ops[1..]);
      var lazies, eagers := LazyRun(l, lazy.0, Untimed(ops[1..])).1, EagerTimed(l, eager.0, ops[1..]);
      SameHead(lazy.1, lazies, eager.1, eagers);
      if lazy.1 == eager.1 {
        TimedRunIsEagerIff(l, lazy.0, eager.0, ops[1..], t.lock);
      }
    }
  }

  lemma SameHead<T>(x: T, xs: seq<T>, y: T, ys: seq<T>)
    ensures [x] + xs == [y] + ys <==> x == y && xs == ys
  {
    assert ([x] + xs)[1..] == xs && ([y] + ys)[1..] == ys;
    assert ([x] + xs)[0] == x && ([y] + ys)[0] == y;
  }

  /** Transaction 1 is parked at time 0 for 10; a Take locks at 11; then a Park that read the
      clock at 10, before it waited for the lock. */
  function StaleOps(): seq<Op<nat>> {
    [Park("a", 1, 0), Take("b", 11), Park("c", 2, 10)]
  }

  lemma StaleLazy(l: Limits, r: Reg<nat>)
    requires l == Limits(1, 10) && r.items == map[]
    ensures LazyRun(l, r, StaleOps()).1[2] == Parked(false)
  {
    var ops := StaleOps();
    var r1 := Lazy(l, r, ops[0]).0;
    assert Unexpired(r.items, 0) == map[];
    assert r1.items == map["a" := Item(1, 10)];
    var r2 := Lazy(l, r1, ops[1]).0;
    assert r2 == r1;
    assert Unexpired(r2.items, 10) == r2.items && |r2.items| == 1;
    assert ops[1..][1..] == [ops[2]];
    assert LazyRun(l, r2, [ops[2]]).1[0] == Parked(false);
    assert LazyRun(l, r1, ops[1..]).1[1] == LazyRun(l, r2, [ops[2]]).1[0];
  }

  lemma StaleEager(l: Limits)
    requires l == Limits(1, 10)
    ensures EagerRun(l, map[], StaleOps()).1[2] == Parked(true)
  {
    var ops := StaleOps();
    var m1 := Eager(l, map[], ops[0]).0;
    assert m1 == map["a" := Item(1, 10)];
    var m2 := Eager(l, m1, ops[1]).0;
    assert m2 == map[] && Unexpired(m2, 10) == map[];
    assert ops[1..][1..] == [ops[2]];
    assert EagerRun(l, m2, [ops[2]]).1[0] == Parked(true);
    assert EagerRun(l, m1, ops[1..]).1[1] == EagerRun(l, m2, [ops[2]]).1[0];
  }

  /** A run that shows the difference: its last Park is refused because of an entry that has expired
      by the time it holds the lock. */
  lemma StaleReadingDiffers(l: Limits)
    requires l == Limits(1, 10)
    ensures !ClockOrdered(0, StaleOps())
    ensures LazyRun(l, Empty(), StaleOps()).1 != EagerRun(l, map[], StaleOps()).1
  {
    StaleLazy(l, Empty());
    StaleEager(l);
    assert StaleOps()[2].now < StaleOps()[1].now;
  }

  // ------------------------------------------------------------------ capacity and conservation

  /** Every transaction ever parked is still here, was taken, expired, or left by an exit that
      `Stats` does not count. */
  ghost predicate Conserved<T>(l: Limits, r: Reg<T>) {
    && |r.items| <= l.max
    && r.counts.parked == |r.items| + r.counts.taken + r.counts.expired
                          + r.counts.replaced + r.counts.dropped + r.counts.cleared
  }

  lemma SplitByExpiry<T>(items: map<Token, Item<T>>, now: int)
    ensures |items| == |Unexpired(items, now)| + |ExpiredKeys(items, now)|
  {
    assert items.Keys == Unexpired(items, now).Keys + ExpiredKeys(items, now);
    assert Unexpired(items, now).Keys !! ExpiredKeys(items, now);
  }

  lemma Removed<T>(items: map<Token, Item<T>>, rid: Token)
    requires rid in items
    ensures |items - {rid}| == |items| - 1
  {
    assert (items - {rid}).Keys == items.Keys - {rid};
  }

  lemma Inserted<T>(items: map<Token, Item<T>>, rid: Token, it: Item<T>)
    ensures |items[rid := it]| == |items| + if rid in items then 0 else 1
  {
    assert items[rid := it].Keys == items.Keys + {rid};
  }

  /** Every operation keeps the capacity and the balance. */
  lemma ConservedStep<T>(l: Limits, r: Reg<T>, op: Op<T>)
    requires Conserved(l, r)
    ensures Conserved(l, Lazy(l, r, op).0)
  {
    match op
    case Park(rid, tx, now) => ConservedPark(l, r, rid, tx, now);
    case Take(rid, now) => if rid in r.items { Removed(r.items, rid); }
    case Drop(rid, now) => if rid in r.items { Removed(r.items, rid); }
    case Sweep(now) => SplitByExpiry(r.items, now);
    case Close(_) =>
  }

  lemma ConservedPark<T>(l: Limits, r: Reg<T>, rid: Token, tx: T, now: int)
    requires Conserved(l, r)
    ensures Conserved(l, Lazy(l, r, Park(rid, tx, now)).0)
  {
    SplitByExpiry(r.items, now);
    Inserted(Unexpired(r.items, now), rid, Item(tx, now + l.ttl));
  }

  lemma {:induction false} ConservedRun<T>(l: Limits, r: Reg<T>, ops: seq<Op<T>>)
    requires Conserved(l, r)
    ensures Conserved(l, LazyRun(l, r, ops).0)
    decreases |ops|
  {
    if ops != [] {
      ConservedStep(l, r, ops[0]);
      ConservedRun(l, Lazy(l, r, ops[0]).0, ops[1..]);
    }
  }

  /** Park refuses exactly when the unexpired entries fill the registry, even if the token is
      already among them, and a refusal loses nothing but expired entries. */
  lemma ParkRefuses<T>(l: Limits, r: Reg<T>, rid: Token, live: T, now: int)
    ensures var (r', out) := Lazy(l, r, Park(rid, live, now));
      var before := Unexpired(r.items, now);
      if |before| >= l.max then
        && out == Parked(false)
        && Unexpired(r'.items, now) == before
        && r'.counts.refused == r.counts.refused + 1 && r'.counts.parked == r.counts.parked
      else
        && out == Parked(true)
        && rid in r'.items && r'.items[rid] == Item(live, now + l.ttl)
        && r'.items - {rid} == before - {rid}
  {
  }
}
