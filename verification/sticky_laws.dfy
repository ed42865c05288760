/** What the registry does with one token, and what its counters count, over any run of operations. */
module StickyLaws {
  import opened Common
  import opened StickySpec

  // ------------------------------------------------------------------ one token

  /** The operation leaves an unexpired entry of `rid` alone. */
  predicate Spares<T>(op: Op<T>, rid: Token, expires: int) {
    && op.now <= expires && !op.Close?
    && (op.Park? || op.Take? || op.Drop? ==> op.rid != rid)
  }

  lemma SparedStep<T>(l: Limits, r: Reg<T>, op: Op<T>, rid: Token)
    requires rid in r.items && Spares(op, rid, r.items[rid].expires)
    ensures rid in Lazy(l, r, op).0.items && Lazy(l, r, op).0.items[rid] == r.items[rid]
  {
  }

  lemma {:induction false} SparedRun<T>(l: Limits, r: Reg<T>, ops: seq<Op<T>>, rid: Token)
    requires rid in r.items && forall i :: 0 <= i < |ops| ==> Spares(ops[i], rid, r.items[rid].expires)
    ensures rid in LazyRun(l, r, ops).0.items && LazyRun(l, r, ops).0.items[rid] == r.items[rid]
    decreases |ops|
  {
    if ops != [] {
      SparedStep(l, r, ops[0], rid);
      SparedRun(l, Lazy(l, r, ops[0]).0, ops[1..], rid);
    }
  }

  /** A token with no entry has none until it is parked. */
  lemma {:induction false} StaysAbsent<T>(l: Limits, r: Reg<T>, ops: seq<Op<T>>, rid: Token)
    requires rid !in r.items && forall i :: 0 <= i < |ops| ==> !(ops[i].Park? && ops[i].rid == rid)
    ensures rid !in LazyRun(l, r, ops).0.items
    decreases |ops|
  {
    if ops != [] {
      StaysAbsent(l, Lazy(l, r, ops[0]).0, ops[1..], rid);
    }
  }

  /** A parked transaction is handed back, whatever happens to other tokens in between, to the first
      Take within its time to live, the last instant included; after it, to none. */
  lemma ParkThenTake<T>(l: Limits, r: Reg<T>, rid: Token, tx: T, parked: int, ops: seq<Op<T>>, now: int)
    requires |Unexpired(r.items, parked)| < l.max
    requires forall i :: 0 <= i < |ops| ==> Spares(ops[i], rid, parked + l.ttl)
    ensures var r1 := Lazy(l, r, Park(rid, tx, parked)).0;
      var r2 := LazyRun(l, r1, ops).0;
      Lazy(l, r2, Take(rid, now)).1 == Got(if now <= parked + l.ttl then Some(tx) else None)
  {
    var r1 := Lazy(l, r, Park(rid, tx, parked)).0;
    SparedRun(l, r1, ops, rid);
  }

  /** What has been taken or dropped is gone: no later Take finds it unless it is parked again. */
  lemma TakenOnce<T>(l: Limits, r: Reg<T>, rid: Token, first: Op<T>, ops: seq<Op<T>>, now: int)
    requires (first.Take? || first.Drop?) && first.rid == rid
    requires forall i :: 0 <= i < |ops| ==> !(ops[i].Park? && ops[i].rid == rid)
    ensures Lazy(l, LazyRun(l, Lazy(l, r, first).0, ops).0, Take(rid, now)).1 == Got(None)
  {
    StaysAbsent(l, Lazy(l, r, first).0, ops, rid);
  }

  // ------------------------------------------------------------------ what the counters count

  function Found<T>(outs: seq<Result<T>>): nat {
    if outs == [] then 0 else Found(outs[..|outs| - 1]) + if outs[|outs| - 1].Got? && outs[|outs| - 1].found.Some? then 1 else 0
  }

  function Answered<T>(outs: seq<Result<T>>, ok: bool): nat {
    if outs == [] then 0 else Answered(outs[..|outs| - 1], ok) + if outs[|outs| - 1] == Parked(ok) then 1 else 0
  }

  lemma {:induction false} FoundFirst<T>(out: Result<T>, outs: seq<Result<T>>)
    ensures Found([out] + outs) == Found(outs) + if out.Got? && out.found.Some? then 1 else 0
  {
    var all := [out] + outs;
    if outs == [] {
      assert all[..0] == [];
    } else {
      assert all[..|all| - 1] == [out] + outs[..|outs| - 1];
      FoundFirst(out, outs[..|outs| - 1]);
    }
  }

  lemma {:induction false} AnsweredFirst<T>(out: Result<T>, outs: seq<Result<T>>, ok: bool)
    ensures Answered([out] + outs, ok) == Answered(outs, ok) + if out == Parked(ok) then 1 else 0
  {
    var all := [out] + outs;
    if outs == [] {
      assert all[..0] == [];
    } else {
      assert all[..|all| - 1] == [out] + outs[..|outs| - 1];
      AnsweredFirst(out, outs[..|outs| - 1], ok);
    }
  }

  lemma StepCounts<T>(l: Limits, r: Reg<T>, op: Op<T>)
    ensures var (r', out) := Lazy(l, r, op);
      && r'.counts.taken == r.counts.taken + (if out.Got? && out.found.Some? then 1 else 0)
      && r'.counts.parked == r.counts.parked + (if out == Parked(true) then 1 else 0)
      && r'.counts.refused == r.counts.refused + (if out == Parked(false) then 1 else 0)
  {
  }

  /** Over any run, the counters of `Stats` count its answers: `taken` the transactions handed back,
      `parked` the Parks that answered yes and `refused` those that answered no. */
  lemma {:induction false} CountersCountAnswers<T>(l: Limits, r: Reg<T>, ops: seq<Op<T>>)
    ensures var (r', outs) := LazyRun(l, r, ops);
      && r'.counts.taken == r.counts.taken + Found(outs)
      && r'.counts.parked == r.counts.parked + Answered(outs, true)
      && r'.counts.refused == r.counts.refused + Answered(outs, false)
    decreases |ops|
  {
    if ops != [] {
      var (r1, out) := Lazy(l, r, ops[0]);
      StepCounts(l, r, ops[0]);
      RestCounts(l, r1, out, ops[1..]);
      CountersCountAnswers(l, r1, ops[1..]);
    }
  }

  lemma RestCounts<T>(l: Limits, r: Reg<T>, out: Result<T>, ops: seq<Op<T>>)
    ensures var outs := LazyRun(l, r, ops).1;
      && Found([out] + outs) == Found(outs) + (if out.Got? && out.found.Some? then 1 else 0)
      && Answered([out] + outs, true) == Answered(outs, true) + (if out == Parked(true) then 1 else 0)
      && Answered([out] + outs, false) == Answered(outs, false) + (if out == Parked(false) then 1 else 0)
  {
    var outs := LazyRun(l, r, ops).1;
    FoundFirst(out, outs);
    AnsweredFirst(out, outs, true);
    AnsweredFirst(out, outs, false);
  }

  /** `expired` counts an entry found expired by a Take, and those a Sweep removes; nothing else does. */
  lemma ExpiredCounts<T>(l: Limits, r: Reg<T>, op: Op<T>)
    ensures var more := Lazy(l, r, op).0.counts.expired - r.counts.expired;
      match op
      case Park(_, _, now) => more == |ExpiredKeys(r.items, now)|
      case Sweep(now) => more == |ExpiredKeys(r.items, now)|
      case Take(rid, now) => more == if rid in r.items && now > r.items[rid].expires then 1 else 0
      case _ => more == 0
  {
  }
}
