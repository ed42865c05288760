/** The registry as code: a map updated under a mutex, one method per critical section together
    with the discards that follow it. `discarded` logs the transactions it discards; each method
    also hands them to its caller as `dead`, since what a discard does is the engine's business. */
module StickyRegistry {
  import opened Common
  import opened StickySpec

  /** `keys` lists the set `s`, in the order the map was walked. */
  ghost predicate Lists(keys: seq<Token>, s: set<Token>) {
    && (forall k :: k in keys <==> k in s)
    && |keys| == |s|
  }

  /** `dead` holds the transactions stored under `keys`, in the same order. */
  ghost predicate Carries<T>(items: map<Token, Item<T>>, keys: seq<Token>, dead: seq<T>) {
    && |dead| == |keys|
    && (forall i :: 0 <= i < |keys| ==> keys[i] in items && dead[i] == items[keys[i]].live)
  }

  lemma ListsOne(keys: seq<Token>, s: set<Token>, rid: Token)
    requires Lists(keys, s) && rid !in s
    ensures Lists(keys + [rid], s + {rid})
  {
  }

  lemma CarriesOne<T>(items: map<Token, Item<T>>, keys: seq<Token>, dead: seq<T>, rid: Token)
    requires Carries(items, keys, dead) && rid in items
    ensures Carries(items, keys + [rid], dead + [items[rid].live])
  {
  }

  lemma WithFormer<T>(items: map<Token, Item<T>>, gone: set<Token>, keys: seq<Token>, dead: seq<T>, rid: Token, also: bool)
    requires Lists(keys, gone) && Carries(items, keys, dead) && (also ==> rid in items && rid !in gone)
    ensures Lists(keys + (if also then [rid] else []), gone + if also then {rid} else {})
    ensures Carries(items, keys + (if also then [rid] else []), dead + if also then [items[rid].live] else [])
  {
    if also {
      ListsOne(keys, gone, rid);
      CarriesOne(items, keys, dead, rid);
    } else {
      assert keys + [] == keys && gone + {} == gone && dead + [] == dead;
    }
  }

  class Registry<T> {
    const limits: Limits
    var items: map<Token, Item<T>>
    var parked: nat
    var taken: nat
    var expired: nat
    var refused: nat
    ghost var replaced: nat
    ghost var dropped: nat
    ghost var cleared: nat
    ghost var discarded: seq<T>

    ghost function Model(): Reg<T>
      reads this
    {
      Reg(items, Counts(parked, taken, expired, refused, replaced, dropped, cleared))
    }

    constructor (limits: Limits)
      ensures Model() == Empty() && Conserved(limits, Model())
      ensures this.limits == limits && discarded == []
    {
      this.limits := limits;
      items, discarded := map[], [];
      parked, taken, expired, refused, replaced, dropped, cleared := 0, 0, 0, 0, 0, 0, 0;
    }

    /** Removes the expired entries and returns their transactions. */
    method Expire(now: int) returns (dead: seq<T>, ghost keys: seq<Token>)
      modifies this`items, this`expired
      ensures Model() == Swept(old(Model()), now)
      ensures Lists(keys, ExpiredKeys(old(items), now)) && Carries(old(items), keys, dead)
    {
      dead, keys := [], [];
      var before := items;
      var todo := items.Keys;
      ghost var gone: set<Token> := {};
      while todo != {}
        invariant todo <= before.Keys && gone <= ExpiredKeys(before, now) && gone !! todo
        invariant forall k :: k in ExpiredKeys(before, now) ==> k in gone || k in todo
        invariant items == before - gone
        invariant Lists(keys, gone) && Carries(before, keys, dead)
        modifies this`items
        decreases todo
      {
        var rid :| rid in todo;
        todo := todo - {rid};
        if now > items[rid].expires {
          ListsOne(keys, gone, rid);
          dead := dead + [items[rid].live];
          keys := keys + [rid];
          items := items - {rid};
          gone := gone + {rid};
        }
      }
      assert gone == ExpiredKeys(before, now);
      assert items == Unexpired(before, now);
      expired := expired + |dead|;
    }

    method Discard(dead: seq<T>)
      modifies this`discarded
      ensures discarded == old(discarded) + dead
    {
      var i := 0;
      while i < |dead|
        invariant 0 <= i <= |dead|
        invariant discarded == old(discarded) + dead[..i]
      {
        discarded := discarded + [dead[i]];
        i := i + 1;
      }
    }

    /** Stores an entry, moving out the transaction it replaced. */
    method Store(rid: Token, it: Item<T>) returns (former: seq<T>)
      modifies this`items, this`parked, this`replaced
      ensures items == old(items)[rid := it] && parked == old(parked) + 1
      ensures replaced == old(replaced) + if rid in old(items) then 1 else 0
      ensures former == if rid in old(items) then [old(items)[rid].live] else []
    {
      former := [];
      if rid in items {
        former := [items[rid].live];
        replaced := replaced + 1;
        items := items - {rid};
      }
      items := items[rid := it];
      parked := parked + 1;
    }

    /** The critical section of Park. */
    method ParkLocked(rid: Token, live: T, now: int) returns (ok: bool, dead: seq<T>, ghost keys: seq<Token>)
      modifies this`items, this`parked, this`expired, this`refused, this`replaced
      ensures (Model(), Parked(ok)) == Lazy(limits, old(Model()), StickySpec.Park(rid, live, now))
      ensures Lists(keys, ParkedOut(limits, old(items), rid, now))
      ensures Carries(old(items), keys, dead)
    {
      dead, keys := Expire(now);
      ghost var known := rid in items;
      var last;
      ok, last := Admit(rid, live, now);
      WithFormer(old(items), ExpiredKeys(old(items), now), keys, dead, rid, ok && known);
      dead := dead + last;
      keys := keys + if ok && known then [rid] else [];
    }

    /** The part of Park after the expired entries are gone. */
    method Admit(rid: Token, live: T, now: int) returns (ok: bool, former: seq<T>)
      modifies this`items, this`parked, this`refused, this`replaced
      ensures (Model(), Parked(ok)) == StickySpec.Admit(limits, old(Model()), rid, live, now)
      ensures former == if ok && rid in old(items) then [old(items)[rid].live] else []
    {
      ok, former := |items| < limits.max, [];
      if ok {
        former := Store(rid, Item(live, now + limits.ttl));
      } else {
        refused := refused + 1;
      }
    }

    /** Parks `live` under `rid`; discards every expired transaction and the one it replaced. */
    method Park(rid: Token, live: T, now: int) returns (ok: bool, ghost keys: seq<Token>, dead: seq<T>)
      requires Conserved(limits, Model())
      modifies this
      ensures (Model(), Parked(ok)) == Lazy(limits, old(Model()), StickySpec.Park(rid, live, now))
      ensures Conserved(limits, Model())
      ensures Lists(keys, ParkedOut(limits, old(items), rid, now))
      ensures Carries(old(items), keys, dead) && discarded == old(discarded) + dead
    {
      ConservedStep(limits, Model(), StickySpec.Park(rid, live, now));
      ok, dead, keys := ParkLocked(rid, live, now);
      Discard(dead);
    }

    /** Hands the transaction back at most once; an expired one is discarded instead. */
    method Take(rid: Token, now: int) returns (found: Option<T>, dead: seq<T>)
      requires Conserved(limits, Model())
      modifies this
      ensures (Model(), Got(found)) == Lazy(limits, old(Model()), StickySpec.Take(rid, now))
      ensures found.Some? <==> rid in old(items) && now <= old(items)[rid].expires
      ensures taken == old(taken) + if found.Some? then 1 else 0
      ensures expired == old(expired) + if rid in old(items) && found.None? then 1 else 0
      ensures Conserved(limits, Model()) && rid !in items
      ensures dead == (if rid in old(items) && found == None then [old(items)[rid].live] else [])
      ensures discarded == old(discarded) + dead
    {
      ConservedStep(limits, Model(), StickySpec.Take(rid, now));
      if rid !in items {
        return None, [];
      }
      var it := items[rid];
      items := items - {rid};
      if now > it.expires {
        expired := expired + 1;
        Discard([it.live]);
        return None, [it.live];
      }
      taken := taken + 1;
      return Some(it.live), [];
    }

    method Drop(rid: Token, ghost now: int) returns (dead: seq<T>)
      requires Conserved(limits, Model())
      modifies this
      ensures (Model(), Done) == Lazy(limits, old(Model()), StickySpec.Drop(rid, now))
      ensures Conserved(limits, Model()) && rid !in items
      ensures dead == (if rid in old(items) then [old(items)[rid].live] else [])
      ensures discarded == old(discarded) + dead
    {
      ConservedStep(limits, Model(), StickySpec.Drop(rid, now));
      dead := [];
      if rid in items {
        dead := [items[rid].live];
        items := items - {rid};
        dropped := dropped + 1;
        Discard(dead);
      }
    }

    method Sweep(now: int) returns (n: nat, ghost keys: seq<Token>, dead: seq<T>)
      requires Conserved(limits, Model())
      modifies this
      ensures (Model(), Done) == Lazy(limits, old(Model()), StickySpec.Sweep(now))
      ensures Conserved(limits, Model())
      ensures n == |ExpiredKeys(old(items), now)|
      ensures Lists(keys, ExpiredKeys(old(items), now)) && Carries(old(items), keys, dead) && discarded == old(discarded) + dead
    {
      ConservedStep(limits, Model(), StickySpec.Sweep(now));
      dead, keys := Expire(now);
      Discard(dead);
      n := |dead|;
    }

    method Close(ghost now: int) returns (ghost keys: seq<Token>, dead: seq<T>)
      requires Conserved(limits, Model())
      modifies this
      ensures (Model(), Done) == Lazy(limits, old(Model()), StickySpec.Close(now))
      ensures Conserved(limits, Model())
      ensures Lists(keys, old(items).Keys) && Carries(old(items), keys, dead) && discarded == old(discarded) + dead
    {
      ConservedStep(limits, Model(), StickySpec.Close(now));
      var before := items;
      items := map[];
      cleared := cleared + |before|;
      keys, dead := DiscardAll(before);
    }

    method DiscardAll(before: map<Token, Item<T>>) returns (ghost keys: seq<Token>, dead: seq<T>)
      modifies this`discarded
      ensures Lists(keys, before.Keys) && Carries(before, keys, dead) && discarded == old(discarded) + dead
    {
      keys, dead := [], [];
      var todo := before.Keys;
      ghost var gone: set<Token> := {};
      while todo != {}
        invariant gone + todo == before.Keys && gone !! todo
        invariant Lists(keys, gone) && Carries(before, keys, dead)
        invariant discarded == old(discarded) + dead
        decreases todo
      {
        var rid :| rid in todo;
        todo := todo - {rid};
        ListsOne(keys, gone, rid);
        CarriesOne(before, keys, dead, rid);
        keys := keys + [rid];
        gone := gone + {rid};
        dead := dead + [before[rid].live];
        Discard([before[rid].live]);
      }
      assert gone == before.Keys;
    }
  }
}
