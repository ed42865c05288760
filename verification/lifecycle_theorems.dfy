/** Every transaction is always held by exactly one owner, is closed once and never used after. */
module LifecycleTheorems {
  import opened Common
  import opened StickySpec
  import opened LifecycleMachine

  ghost predicate Owns(s: State, o: Owner, tx: Tx) {
    match o
    case Live(a) => a in s.acts && s.acts[a].live == Some(tx)
    case Doomed(a) => a in s.acts && tx in s.acts[a].doomed
    case Entry(token) => token in s.reg.items && s.reg.items[token].live == tx
    case Closed => tx in s.logs && Closing in s.logs[tx]
  }

  /** Each transaction has exactly one owner. */
  ghost predicate Owned(s: State) {
    && (forall o, tx :: Owns(s, o, tx) <==> tx in s.owner && s.owner[tx] == o)
    && s.owner.Keys == s.logs.Keys
  }

  /** What a goroutine may hold where it stands, and how often it has answered. */
  ghost predicate ShapeOf(me: Act) {
    && (me.kind.Req? || me.kind.Rsp? || me.pc == Start || me.pc == Finished)
    && (me.pc == Start || me.pc.Replying? || me.pc == Finished ==> me.live == None)
    && (me.pc.Began? || me.pc == Offering || me.pc == Responded ==> me.live.Some?)
    && (me.pc == Ready || me.pc == Offering ==> me.kind.Req? && (me.kind.keep.Some? <==> me.live.Some?))
    && (me.pc == Asking || me.pc == Responded ==> me.kind.Rsp?)
    && (me.pc == Responded ==> me.doomed == {})
    && me.replies == (if me.pc == Finished && (me.kind.Req? || me.kind.Rsp?) then 1 else 0)
    && (me.offered || me.pc == Replying(true) ==> me.kind.Req? && me.kind.keep.Some?)
  }

  /** What has been done to a transaction, by who holds it. */
  ghost predicate LogFits(s: State, tx: Tx, log: seq<TxOp>) {
    tx in s.owner &&
    match s.owner[tx]
    case Closed => log == [Opened, Request, Closing] || log == [Opened, Request, Respond, Closing]
    case Live(a) => log == if a in s.acts && s.acts[a].pc == Responded then [Opened, Request, Respond] else [Opened, Request]
    case _ => log == [Opened, Request]
  }

  ghost predicate Inv(l: Limits, s: State) {
    && Owned(s)
    && (forall a :: a in s.acts ==> ShapeOf(s.acts[a]))
    && (forall tx :: tx in s.logs ==> LogFits(s, tx, s.logs[tx]))
    && Conserved(l, s.reg)
  }

  ghost function Before(s: State, a: nat): Act {
    if a in s.acts then s.acts[a] else Act(Sweeper, Start, None, {}, 0, false)
  }

  // ------------------------------------------------------------------ lawful steps

  function AsSet(o: Option<Tx>): set<Tx> {
    if o.Some? then {o.value} else {}
  }

  /** The transactions whose entries a step removes or overwrites. */
  ghost function Outgoing(s: State, f: Effect): set<Tx> {
    set k | k in s.reg.items && (k !in f.reg.items || f.parked == Some(k)) :: s.reg.items[k].live
  }

  ghost predicate LawfulOps(s: State, f: Effect) {
    var was := Before(s, f.a);
    match f.touched
    case None => f.ops == []
    case Some(t) =>
      || (f.ops == [Opened, Request] && t !in s.logs && was.live == None)
      || (f.ops == [Closing] && (was.live == Some(t) || t in was.doomed))
      || (f.ops == [Respond] && was.live == Some(t) && f.me.live == Some(t))
  }

  /** Entries stay as they are, leave, or are the one this step parks. */
  ghost predicate LawfulEntries(s: State, f: Effect) {
    && (forall k :: k in f.reg.items && f.parked != Some(k) ==> k in s.reg.items && f.reg.items[k] == s.reg.items[k])
    && (f.parked.Some? ==>
          && f.touched == None && f.parked.value in f.reg.items && f.me.live == None
          && Before(s, f.a).live == Some(f.reg.items[f.parked.value].live))
  }

  /** The goroutine keeps what it holds unless it closes or parks it, and gains exactly what
      leaves the registry or what it opens. */
  ghost predicate LawfulHold(s: State, f: Effect) {
    var was := Before(s, f.a);
    var closed := if f.ops == [Closing] then AsSet(f.touched) else {};
    var made := if f.ops == [Opened, Request] then AsSet(f.touched) else {};
    var parked := if f.parked.Some? then AsSet(was.live) else {};
    && f.me.doomed == (was.doomed - closed) + (Outgoing(s, f) - AsSet(f.me.live))
    && (AsSet(f.me.live) == (AsSet(was.live) - closed - parked) + made
        || (f.touched == None && f.parked == None && was.live == None && AsSet(f.me.live) <= Outgoing(s, f)))
  }

  ghost predicate LawfulLog(s: State, f: Effect) {
    var was := Before(s, f.a);
    && (f.ops == [Respond] ==> was.pc != Responded)
    && (f.me.pc == Responded <==> f.ops == [Respond])
    && (was.pc == Responded ==> f.me.live == None && f.ops == [Closing])
  }

  /** Where a transaction was, as far as the step can tell. */
  lemma WasOwned(s: State, f: Effect, tx: Tx)
    requires Owned(s)
    ensures Owns(s, Closed, tx) <==> tx in s.owner && s.owner[tx] == Closed
    ensures tx in AsSet(Before(s, f.a).live) <==> tx in s.owner && s.owner[tx] == Live(f.a)
    ensures tx in Before(s, f.a).doomed <==> tx in s.owner && s.owner[tx] == Doomed(f.a)
    ensures tx in Outgoing(s, f) ==> tx in s.owner && s.owner[tx].Entry?
  {
    assert Owns(s, Closed, tx) <==> tx in s.owner && s.owner[tx] == Closed;
    assert Owns(s, Live(f.a), tx) <==> tx in s.owner && s.owner[tx] == Live(f.a);
    assert Owns(s, Doomed(f.a), tx) <==> tx in s.owner && s.owner[tx] == Doomed(f.a);
    if tx in Outgoing(s, f) {
      var k :| k in s.reg.items && (k !in f.reg.items || f.parked == Some(k)) && s.reg.items[k].live == tx;
      assert Owns(s, Entry(k), tx);
    }
  }

  lemma EntryKept(s: State, f: Effect, k: Token, tx: Tx)
    requires Owned(s) && LawfulOps(s, f) && LawfulEntries(s, f) && LawfulHold(s, f)
    ensures var s' := Perform(s, f); Owns(s', Entry(k), tx) <==> tx in s'.owner && s'.owner[tx] == Entry(k)
  {
    WasOwned(s, f, tx);
    assert Owns(s, Entry(k), tx) <==> tx in s.owner && s.owner[tx] == Entry(k);
    if tx in Outgoing(s, f) {
      OutgoingIs(s, f, k, tx);
    }
  }

  lemma OutgoingIs(s: State, f: Effect, k: Token, tx: Tx)
    requires Owned(s) && tx in Outgoing(s, f)
    ensures Owns(s, Entry(k), tx) ==> k !in f.reg.items || f.parked == Some(k)
  {
    var j :| j in s.reg.items && (j !in f.reg.items || f.parked == Some(j)) && s.reg.items[j].live == tx;
    assert Owns(s, Entry(j), tx);
  }

  lemma LiveKept(s: State, f: Effect, a: nat, tx: Tx)
    requires Owned(s) && LawfulOps(s, f) && LawfulEntries(s, f) && LawfulHold(s, f)
    ensures var s' := Perform(s, f); Owns(s', Live(a), tx) <==> tx in s'.owner && s'.owner[tx] == Live(a)
  {
    WasOwned(s, f, tx);
    assert Owns(s, Live(a), tx) <==> tx in s.owner && s.owner[tx] == Live(a);
    assert tx in AsSet(f.me.live) <==> f.me.live == Some(tx);
  }

  lemma DoomedKept(s: State, f: Effect, a: nat, tx: Tx)
    requires Owned(s) && LawfulOps(s, f) && LawfulEntries(s, f) && LawfulHold(s, f)
    ensures var s' := Perform(s, f); Owns(s', Doomed(a), tx) <==> tx in s'.owner && s'.owner[tx] == Doomed(a)
  {
    WasOwned(s, f, tx);
    assert Owns(s, Doomed(a), tx) <==> tx in s.owner && s.owner[tx] == Doomed(a);
    assert tx in AsSet(f.me.live) <==> f.me.live == Some(tx);
  }

  lemma ClosedKept(s: State, f: Effect, tx: Tx)
    requires Owned(s) && LawfulOps(s, f) && LawfulEntries(s, f) && LawfulHold(s, f)
    ensures var s' := Perform(s, f); Owns(s', Closed, tx) <==> tx in s'.owner && s'.owner[tx] == Closed
  {
    WasOwned(s, f, tx);
    assert tx in AsSet(f.me.live) <==> f.me.live == Some(tx);
  }

  lemma OwnsKept(s: State, f: Effect, o: Owner, tx: Tx)
    requires Owned(s) && LawfulOps(s, f) && LawfulEntries(s, f) && LawfulHold(s, f)
    ensures var s' := Perform(s, f); Owns(s', o, tx) <==> tx in s'.owner && s'.owner[tx] == o
  {
    match o
    case Entry(token) => EntryKept(s, f, token, tx);
    case Live(a) => LiveKept(s, f, a, tx);
    case Doomed(a) => DoomedKept(s, f, a, tx);
    case Closed => ClosedKept(s, f, tx);
  }

  lemma LogKept(s: State, f: Effect, tx: Tx)
    requires Owned(s) && LawfulOps(s, f) && LawfulEntries(s, f) && LawfulHold(s, f) && LawfulLog(s, f)
    requires tx in s.logs ==> LogFits(s, tx, s.logs[tx])
    ensures var s' := Perform(s, f); tx in s'.logs ==> LogFits(s', tx, s'.logs[tx])
  {
    if f.touched == Some(tx) {
      TouchedLog(s, f, tx);
    } else if tx in s.logs {
      UntouchedLog(s, f, tx);
    }
  }

  lemma TouchedLog(s: State, f: Effect, tx: Tx)
    requires Owned(s) && LawfulOps(s, f) && LawfulHold(s, f) && LawfulLog(s, f) && f.touched == Some(tx)
    requires tx in s.logs ==> LogFits(s, tx, s.logs[tx])
    ensures var s' := Perform(s, f); tx in s'.logs && LogFits(s', tx, s'.logs[tx])
  {
    WasOwned(s, f, tx);
    assert tx in AsSet(f.me.live) <==> f.me.live == Some(tx);
  }

  lemma UntouchedLog(s: State, f: Effect, tx: Tx)
    requires Owned(s) && LawfulOps(s, f) && LawfulEntries(s, f) && LawfulHold(s, f) && LawfulLog(s, f)
    requires f.touched != Some(tx) && tx in s.logs && LogFits(s, tx, s.logs[tx])
    ensures var s' := Perform(s, f); tx in s'.logs && LogFits(s', tx, s'.logs[tx])
  {
    WasOwned(s, f, tx);
    assert tx in AsSet(f.me.live) <==> f.me.live == Some(tx);
    if f.parked.Some? && f.parked.value in f.reg.items && f.reg.items[f.parked.value].live == tx {
      assert Before(s, f.a).live == Some(tx);
    }
  }

  lemma EffectKept(l: Limits, s: State, f: Effect)
    requires Inv(l, s) && LawfulOps(s, f) && LawfulEntries(s, f) && LawfulHold(s, f) && LawfulLog(s, f)
    requires ShapeOf(f.me) && Conserved(l, f.reg)
    ensures Inv(l, Perform(s, f))
  {
    var s' := Perform(s, f);
    forall o, tx
      ensures Owns(s', o, tx) <==> tx in s'.owner && s'.owner[tx] == o
    {
      OwnsKept(s, f, o, tx);
    }
    forall tx | tx in s'.logs
      ensures LogFits(s', tx, s'.logs[tx])
    {
      LogKept(s, f, tx);
    }
  }

  // ------------------------------------------------------------------ every step is lawful

  ghost predicate Lawful(s: State, f: Effect) {
    LawfulOps(s, f) && LawfulEntries(s, f) && LawfulHold(s, f) && LawfulLog(s, f) && ShapeOf(f.me)
  }

  ghost predicate UsesRegistry(e: Event) {
    e.ParkIt? || e.TakeIt? || e.DropIt? || e.SweepIt? || e.CloseAll?
  }

  lemma NothingLeaves(s: State, f: Effect)
    requires f.reg == s.reg && f.parked == None
    ensures Outgoing(s, f) == {}
  {
  }

  /** The steps that only touch the goroutine and its transaction. */
  lemma QuietShape(l: Limits, s: State, e: Event)
    requires Enabled(s, e) && !UsesRegistry(e) && (e.a in s.acts ==> ShapeOf(s.acts[e.a]))
    ensures ShapeOf(EffectOf(l, s, e).me)
  {
  }

  lemma QuietLog(l: Limits, s: State, e: Event)
    requires Enabled(s, e) && !UsesRegistry(e) && (e.a in s.acts ==> ShapeOf(s.acts[e.a]))
    ensures LawfulLog(s, EffectOf(l, s, e)) && LawfulOps(s, EffectOf(l, s, e))
  {
  }

  lemma QuietHold(l: Limits, s: State, e: Event)
    requires Enabled(s, e) && !UsesRegistry(e) && (e.a in s.acts ==> ShapeOf(s.acts[e.a]))
    requires e.Discard? && s.acts[e.a].live.Some? ==> s.acts[e.a].live.value != e.tx
    ensures LawfulHold(s, EffectOf(l, s, e))
  {
    var f := EffectOf(l, s, e);
    NothingLeaves(s, f);
    assert Outgoing(s, f) - AsSet(f.me.live) == {};
  }

  lemma LawfulQuiet(l: Limits, s: State, e: Event)
    requires Inv(l, s) && Enabled(s, e) && !UsesRegistry(e)
    ensures Lawful(s, EffectOf(l, s, e))
  {
    QuietShape(l, s, e);
    QuietLog(l, s, e);
    if e.Discard? && s.acts[e.a].live.Some? {
      assert Owns(s, Live(e.a), s.acts[e.a].live.value) && Owns(s, Doomed(e.a), e.tx);
    }
    QuietHold(l, s, e);
  }

  lemma ParkOutgoing(l: Limits, s: State, a: nat, me: Act, rid: Token, tx: Tx, now: int)
    ensures Outgoing(s, ParkEffect(l, s, a, me, rid, tx, now)) == Displaced(l, s.reg.items, rid, now)
  {
  }

  lemma ParkEntries(l: Limits, s: State, a: nat, rid: Token, tx: Tx, now: int)
    requires a in s.acts && s.acts[a].live == Some(tx)
    ensures LawfulEntries(s, ParkEffect(l, s, a, s.acts[a], rid, tx, now))
  {
  }

  lemma LawfulPark(l: Limits, s: State, a: nat, rid: Token, tx: Tx, now: int)
    requires Owned(s) && a in s.acts && ShapeOf(s.acts[a])
    requires s.acts[a].pc == Offering && s.acts[a].doomed == {} && s.acts[a].live == Some(tx)
    ensures Lawful(s, ParkEffect(l, s, a, s.acts[a], rid, tx, now))
  {
    ParkEntries(l, s, a, rid, tx, now);
    HeldIsNotStored(l, s, a, rid, tx, now);
    ParkOutgoing(l, s, a, s.acts[a], rid, tx, now);
    ParkHold(s, ParkEffect(l, s, a, s.acts[a], rid, tx, now), tx);
  }

  lemma ParkHold(s: State, f: Effect, tx: Tx)
    requires Before(s, f.a).doomed == {} && Before(s, f.a).live == Some(tx)
    requires f.touched == None && f.ops == [] && f.me.doomed == Outgoing(s, f) && tx !in Outgoing(s, f)
    requires f.me.live == if f.parked.Some? then None else Some(tx)
    ensures LawfulHold(s, f)
  {
  }

  lemma HeldIsNotStored(l: Limits, s: State, a: nat, rid: Token, tx: Tx, now: int)
    requires Owned(s) && a in s.acts && s.acts[a].live == Some(tx)
    ensures tx !in Displaced(l, s.reg.items, rid, now)
  {
    if tx in Displaced(l, s.reg.items, rid, now) {
      var k :| k in s.reg.items && s.reg.items[k].live == tx;
      assert Owns(s, Entry(k), tx) && Owns(s, Live(a), tx);
      assert false;
    }
  }

  lemma LawfulTake(l: Limits, s: State, a: nat, rid: Token, now: int)
    requires a in s.acts && ShapeOf(s.acts[a]) && s.acts[a].pc == Start && s.acts[a].kind.Rsp? && s.acts[a].doomed == {}
    ensures Lawful(s, TakeEffect(l, s, a, s.acts[a], rid, now))
  {
    var f := TakeEffect(l, s, a, s.acts[a], rid, now);
    assert Outgoing(s, f) == if rid in s.reg.items then {s.reg.items[rid].live} else {};
  }

  lemma LawfulRemove(l: Limits, s: State, a: nat, op: Op<Tx>)
    requires a in s.acts && ShapeOf(s.acts[a]) && s.acts[a].pc == Start && s.acts[a].doomed == {}
    requires !s.acts[a].kind.Req? && !s.acts[a].kind.Rsp? && (op.Drop? || op.Sweep? || op.Close?)
    ensures Lawful(s, RemoveEffect(l, s, a, s.acts[a], op))
  {
    var f := RemoveEffect(l, s, a, s.acts[a], op);
    assert Outgoing(s, f) == LeftBehind(s.reg.items, f.reg.items);
  }

  lemma LawfulRegistry(l: Limits, s: State, e: Event)
    requires Owned(s) && Enabled(s, e) && UsesRegistry(e) && ShapeOf(s.acts[e.a])
    ensures Lawful(s, EffectOf(l, s, e))
  {
    match e
    case ParkIt(a, now) => LawfulPark(l, s, a, s.acts[a].kind.keep.value, s.acts[a].live.value, now);
    case TakeIt(a, now) => LawfulTake(l, s, a, s.acts[a].kind.token.value, now);
    case DropIt(a, now) => LawfulRemove(l, s, a, Drop(s.acts[a].kind.rid, now));
    case SweepIt(a, now) => LawfulRemove(l, s, a, Sweep(now));
    case CloseAll(a, now) => LawfulRemove(l, s, a, Close(now));
  }

  lemma LawfulStep(l: Limits, s: State, e: Event)
    requires Inv(l, s) && Enabled(s, e)
    ensures Lawful(s, EffectOf(l, s, e))
  {
    if UsesRegistry(e) {
      LawfulRegistry(l, s, e);
    } else {
      LawfulQuiet(l, s, e);
    }
  }

  lemma RegistryConserved(l: Limits, s: State, e: Event)
    requires Conserved(l, s.reg) && Enabled(s, e)
    ensures Conserved(l, EffectOf(l, s, e).reg)
  {
    match e
    case ParkIt(a, now) => ConservedStep(l, s.reg, Park(s.acts[a].kind.keep.value, s.acts[a].live.value, now));
    case TakeIt(a, now) => ConservedStep(l, s.reg, Take(s.acts[a].kind.token.value, now));
    case DropIt(a, now) => ConservedStep(l, s.reg, Drop(s.acts[a].kind.rid, now));
    case SweepIt(a, now) => ConservedStep(l, s.reg, Sweep(now));
    case CloseAll(a, now) => ConservedStep(l, s.reg, Close(now));
    case _ =>
  }

  lemma InvStep(l: Limits, s: State, e: Event)
    requires Inv(l, s) && Enabled(s, e)
    ensures Inv(l, Next(l, s, e))
  {
    LawfulStep(l, s, e);
    RegistryConserved(l, s, e);
    EffectKept(l, s, EffectOf(l, s, e));
  }

  lemma {:induction false} InvRun(l: Limits, tr: seq<State>, es: seq<Event>, n: nat)
    requires IsRun(l, tr, es) && n < |tr|
    ensures Inv(l, tr[n])
  {
    if n > 0 {
      InvRun(l, tr, es, n - 1);
      InvStep(l, tr[n - 1], es[n - 1]);
      assert tr[n - 1 + 1] == Next(l, tr[n - 1], es[n - 1]);
    }
  }

  // ------------------------------------------------------------------ theorems

  /** Linear ownership: at every moment each transaction is held by exactly one goroutine, or is
      one registry entry, or is closed; and the registry stays within its capacity. */
  lemma SoleOwner(l: Limits, tr: seq<State>, es: seq<Event>, n: nat, tx: Tx)
    requires IsRun(l, tr, es) && n < |tr| && tx in tr[n].logs
    ensures exists o :: Owns(tr[n], o, tx) && forall o' :: Owns(tr[n], o', tx) ==> o' == o
    ensures |tr[n].reg.items| <= l.max
  {
    InvRun(l, tr, es, n);
    assert Owns(tr[n], tr[n].owner[tx], tx);
  }

  /** What has been done to a transaction is always a start of: opened, request phases, response
      phases at most once, closed once. Nothing follows the closing. */
  lemma OrderlyLife(l: Limits, tr: seq<State>, es: seq<Event>, n: nat, tx: Tx)
    requires IsRun(l, tr, es) && n < |tr| && tx in tr[n].logs
    ensures tr[n].logs[tx] in {[Opened, Request], [Opened, Request, Respond],
                               [Opened, Request, Closing], [Opened, Request, Respond, Closing]}
    ensures Owns(tr[n], Closed, tx) <==> tr[n].logs[tx][|tr[n].logs[tx]| - 1] == Closing
  {
    InvRun(l, tr, es, n);
    var s := tr[n];
    assert LogFits(s, tx, s.logs[tx]);
    assert Owns(s, Closed, tx) <==> s.owner[tx] == Closed;
  }

  /** Only the goroutine that holds a transaction does anything to it. */
  lemma OnlyOwnerActs(l: Limits, tr: seq<State>, es: seq<Event>, n: nat, tx: Tx)
    requires IsRun(l, tr, es) && n < |es| && tx in tr[n].logs
    requires tx in tr[n + 1].logs && tr[n + 1].logs[tx] != tr[n].logs[tx]
    ensures Owns(tr[n], Live(es[n].a), tx) || Owns(tr[n], Doomed(es[n].a), tx)
  {
    InvRun(l, tr, es, n);
    LawfulStep(l, tr[n], es[n]);
  }

  /** A request or a response is answered exactly once, when its handler finishes; releases and
      the registry's own work are never answered. */
  lemma OneReply(l: Limits, tr: seq<State>, es: seq<Event>, n: nat, a: nat)
    requires IsRun(l, tr, es) && n < |tr| && a in tr[n].acts
    ensures var me := tr[n].acts[a];
      && me.replies == (if me.pc == Finished && (me.kind.Req? || me.kind.Rsp?) then 1 else 0)
      && (me.offered ==> me.kind.Req? && me.kind.keep.Some?)
  {
    InvRun(l, tr, es, n);
  }

  /** An offer to continue is made exactly by the handler that has just parked its transaction. */
  lemma OfferMeansParked(l: Limits, s: State, a: nat, now: int)
    requires Inv(l, s) && Enabled(s, ParkIt(a, now))
    ensures var s' := Next(l, s, ParkIt(a, now));
      var rid, tx := s.acts[a].kind.keep.value, s.acts[a].live.value;
      if s'.acts[a].pc == Replying(true) then Owns(s', Entry(rid), tx) && s'.reg.items[rid].expires == now + l.ttl
      else s'.acts[a].pc == Dropping && Owns(s', Live(a), tx) && |Unexpired(s.reg.items, now)| >= l.max
  {
  }

  /** No leak: once every handler has finished and the registry is empty, all is closed. */
  lemma NothingLeaks(l: Limits, tr: seq<State>, es: seq<Event>, n: nat, tx: Tx)
    requires IsRun(l, tr, es) && n < |tr| && tx in tr[n].logs
    requires tr[n].reg.items == map[]
    requires forall a :: a in tr[n].acts ==> tr[n].acts[a].pc == Finished && tr[n].acts[a].doomed == {}
    ensures Owns(tr[n], Closed, tx)
  {
    InvRun(l, tr, es, n);
    assert Owns(tr[n], tr[n].owner[tx], tx);
  }

  /** No handler is ever stuck: until it has finished and discarded, one of its steps can run. */
  lemma AlwaysAStep(l: Limits, tr: seq<State>, es: seq<Event>, n: nat, a: nat)
    requires IsRun(l, tr, es) && n < |tr| && a in tr[n].acts
    requires tr[n].acts[a].pc != Finished || tr[n].acts[a].doomed != {}
    ensures exists e: Event :: e.a == a && Enabled(tr[n], e)
  {
    InvRun(l, tr, es, n);
    var s := tr[n];
    var me := s.acts[a];
    assert ShapeOf(me);
    var e;
    if me.doomed != {} {
      var tx :| tx in me.doomed;
      e := Discard(a, tx);
    } else {
      e := match me.pc
        case Start =>
          (match me.kind
           case Req(_) => AnswerEarly(a)
           case Rsp(token, _) => if token.Some? then TakeIt(a, 0) else NoToken(a)
           case Release(_) => DropIt(a, 0)
           case Sweeper => SweepIt(a, 0)
           case Closer => CloseAll(a, 0))
        case Began(ok) =>
          if !ok || me.kind == Req(None) then CloseLive(a) else if me.kind.Req? then Kept(a) else RunResponse(a)
        case Ready => Publish(a, true)
        case Offering => Refuse(a)
        case Asking => GiveUp(a)
        case Responded => CloseLive(a)
        case Dropping => CloseLive(a)
        case _ => Reply(a);
    }
    assert Enabled(s, e) && e.a == a;
  }
}
