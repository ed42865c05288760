/** Sets of kept transactions, told apart entry by entry. */
module KeptTransactions {
  import opened Common
  import opened EngineApply
  import opened StickySpec
  import opened StickyRegistry

  lemma {:induction false} ListsAreDistinct(keys: seq<Token>, s: set<Token>)
    requires Lists(keys, s)
    ensures forall i, j :: 0 <= i < j < |keys| ==> keys[i] != keys[j]
    decreases |keys|
  {
    if keys != [] {
      var init, last := keys[..|keys| - 1], keys[|keys| - 1];
      assert keys == init + [last];
      if last in init {
        FewerThan(init, s);
        assert false;
      }
      assert |s - {last}| == |s| - 1;
      ListsAreDistinct(init, s - {last});
    }
  }

  /** A sequence that covers a set is no shorter than it. */
  lemma {:induction false} FewerThan(keys: seq<Token>, s: set<Token>)
    requires forall k :: k in s ==> k in keys
    ensures |s| <= |keys|
  {
    if keys != [] {
      var last := keys[|keys| - 1];
      FewerThan(keys[..|keys| - 1], s - {last});
    } else {
      assert s == {};
    }
  }

  type Items = map<Token, Item<Live>>

  ghost function TxsOf(items: Items): set<Transaction> {
    set k | k in items :: items[k].live.tx
  }

  ghost function Txs(dead: seq<Live>): set<Transaction> {
    set i | 0 <= i < |dead| :: dead[i].tx
  }

  /** No transaction is stored twice. */
  ghost predicate OneEach(items: Items) {
    forall j, k :: j in items && k in items && j != k ==> items[j].live.tx != items[k].live.tx
  }

  ghost predicate Apart(dead: seq<Live>) {
    forall i, j :: 0 <= i < j < |dead| ==> dead[i].tx != dead[j].tx
  }

  /** The transactions of the entries removed are told apart from each other and from the rest. */
  lemma Leaving(before: Items, gone: set<Token>, keys: seq<Token>, dead: seq<Live>)
    requires OneEach(before) && gone <= before.Keys && Lists(keys, gone) && Carries(before, keys, dead)
    ensures Apart(dead) && OneEach(before - gone)
    ensures TxsOf(before) == TxsOf(before - gone) + Txs(dead) && TxsOf(before - gone) !! Txs(dead)
  {
    ListsAreDistinct(keys, gone);
    forall k | k in before && k !in gone
      ensures before[k].live.tx in TxsOf(before - gone)
    {
      assert k in before - gone && (before - gone)[k] == before[k];
    }
    forall t | t in TxsOf(before) && t !in TxsOf(before - gone)
      ensures t in Txs(dead)
    {
      var k :| k in before && before[k].live.tx == t;
      assert k in gone;
      var i :| 0 <= i < |keys| && keys[i] == k;
      assert dead[i].tx == t;
    }
    forall t | t in Txs(dead)
      ensures t in TxsOf(before) && t !in TxsOf(before - gone)
    {
      var i :| 0 <= i < |dead| && dead[i].tx == t;
      assert keys[i] in keys;
    }
  }

  lemma RemovingOne(before: Items, rid: Token)
    requires OneEach(before) && rid in before
    ensures OneEach(before - {rid}) && Apart([before[rid].live]) && Txs([before[rid].live]) == {before[rid].live.tx}
    ensures TxsOf(before) == TxsOf(before - {rid}) + {before[rid].live.tx} && before[rid].live.tx !in TxsOf(before - {rid})
  {
    var dead := [before[rid].live];
    assert dead[0].tx in Txs(dead);
    Leaving(before, {rid}, [rid], dead);
  }

  lemma Adding(items: Items, rid: Token, it: Item<Live>)
    requires OneEach(items) && rid !in items && it.live.tx !in TxsOf(items)
    ensures OneEach(items[rid := it]) && TxsOf(items[rid := it]) == TxsOf(items) + {it.live.tx}
  {
    var after := items[rid := it];
    assert forall k :: k in items ==> after[k] == items[k] && items[k].live.tx in TxsOf(items);
    assert after[rid].live.tx in TxsOf(after);
  }

  /** The entries after a Park. */
  ghost function AfterPark(l: Limits, before: Items, rid: Token, live: Live, now: int): Items {
    var left := before - ParkedOut(l, before, rid, now);
    if |Unexpired(before, now)| < l.max then left[rid := Item(live, now + l.ttl)] else left
  }

  lemma ParkItems(l: Limits, r: Reg<Live>, rid: Token, live: Live, now: int)
    ensures var (r', out) := Lazy(l, r, Park(rid, live, now));
      out == Parked(|Unexpired(r.items, now)| < l.max) && r'.items == AfterPark(l, r.items, rid, live, now)
  {
    AfterParkIs(l, r.items, rid, live, now);
  }

  lemma AfterParkIs(l: Limits, items: Items, rid: Token, live: Live, now: int)
    ensures AfterPark(l, items, rid, live, now) ==
            if |Unexpired(items, now)| < l.max then Unexpired(items, now)[rid := Item(live, now + l.ttl)] else Unexpired(items, now)
  {
    UnexpiredIsRest(items, now);
    if |Unexpired(items, now)| < l.max {
      ReplaceOne(items, ExpiredKeys(items, now), rid, Item(live, now + l.ttl), rid in Unexpired(items, now));
    } else {
      assert ExpiredKeys(items, now) + {} == ExpiredKeys(items, now);
    }
  }

  lemma UnexpiredIsRest(items: Items, now: int)
    ensures Unexpired(items, now) == items - ExpiredKeys(items, now)
  {
  }

  lemma ReplaceOne(items: Items, e: set<Token>, rid: Token, it: Item<Live>, also: bool)
    ensures (items - e)[rid := it] == (items - (e + if also then {rid} else {}))[rid := it]
  {
  }

  /** Where the transactions are after a Park. */
  lemma ParkMoves(l: Limits, before: Items, rid: Token, live: Live, now: int, keys: seq<Token>, dead: seq<Live>, after: Items)
    requires OneEach(before) && live.tx !in TxsOf(before) && after == AfterPark(l, before, rid, live, now)
    requires Lists(keys, ParkedOut(l, before, rid, now)) && Carries(before, keys, dead)
    ensures OneEach(after) && Apart(dead) && Txs(dead) <= TxsOf(before)
    ensures TxsOf(before) <= TxsOf(after) + Txs(dead) && TxsOf(after) !! Txs(dead)
    ensures if |Unexpired(before, now)| < l.max then live.tx in TxsOf(after) && TxsOf(after) <= TxsOf(before) + {live.tx}
            else TxsOf(after) <= TxsOf(before)
  {
    var gone := ParkedOut(l, before, rid, now);
    Leaving(before, gone, keys, dead);
    if |Unexpired(before, now)| < l.max {
      GoneOrNew(l, before, rid, now);
      Adding(before - gone, rid, Item(live, now + l.ttl));
    }
  }

  lemma GoneOrNew(l: Limits, before: Items, rid: Token, now: int)
    requires |Unexpired(before, now)| < l.max
    ensures rid in before ==> rid in ParkedOut(l, before, rid, now)
  {
  }

  /** Discards kept transactions, each once. */
  method DiscardEach(dead: seq<Live>)
    requires Apart(dead) && forall t :: t in Txs(dead) ==> t.open
    modifies Txs(dead)
    ensures forall t :: t in Txs(dead) ==> !t.open
  {
    for n := 0 to |dead|
      invariant forall i :: 0 <= i < n ==> !dead[i].tx.open
      invariant forall i :: n <= i < |dead| ==> dead[i].tx.open
    {
      Discard(dead[n]);
    }
  }
}
