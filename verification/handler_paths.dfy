/** The paths through the handler as runs of the ownership protocol. Each path of the handler's
    code names one of these; here each is a sequence of enabled steps, and what the sequence does
    to the registry and to the transaction is what the code's contract says of the path. */
module HandlerPaths {
  import opened Common
  import opened StickySpec
  import opened LifecycleMachine
  import opened LifecycleTheorems

  datatype RequestPath =
    | NotOpened                // answered before a transaction is opened
    | Failed                   // the engine fails, and closes it
    | NotKept(published: bool) // the engine closes it after the request phases
    | NotPublished             // kept, but the list writes fail
    | Refused                  // kept, but the verdict ends the request
    | Full                     // kept, but the registry is full
    | Stored                   // kept and parked

  datatype ResponsePath =
    | NotRun                   // answered before the response phases
    | Unanswerable             // nothing to resume and nothing rebuilt
    | RebuildFailed            // the engine fails on the request, and closes the transaction
    | Ran                      // resumed or rebuilt, run and closed

  /** The life of the transaction a request opens. */
  function LifeOf(path: RequestPath): seq<TxOp> {
    match path
    case NotOpened => []
    case Stored => [Opened, Request]
    case _ => [Opened, Request, Closing]
  }

  /** The life of the transaction a response opens, or what it adds to that of the one it resumes. */
  function LifeIn(path: ResponsePath, resumed: bool): seq<TxOp> {
    match path
    case NotRun => if resumed then [Closing] else []
    case Unanswerable => []
    case RebuildFailed => [Opened, Request, Closing]
    case Ran => if resumed then [Respond, Closing] else [Opened, Request, Respond, Closing]
  }

  /** What a request does to the registry. */
  function RequestReg<T>(l: Limits, r: Reg<T>, path: RequestPath, keep: Option<Token>, live: T, now: int): Reg<T> {
    if (path.Full? || path.Stored?) && keep.Some? then Lazy(l, r, Park(keep.value, live, now)).0 else r
  }

  /** What a response does to the registry. */
  function ResponseReg<T>(l: Limits, r: Reg<T>, token: Option<Token>, now: int): Reg<T> {
    if token.Some? then Lazy(l, r, Take(token.value, now)).0 else r
  }

  predicate PathFits<T>(l: Limits, r: Reg<T>, path: RequestPath, keep: Option<Token>, now: int) {
    match path
    case NotOpened => true
    case Failed => true
    case NotKept(_) => keep == None
    case NotPublished => keep.Some?
    case Refused => keep.Some?
    case Full => keep.Some? && |Unexpired(r.items, now)| >= l.max
    case Stored => keep.Some? && |Unexpired(r.items, now)| < l.max
  }

  predicate ResponseFits(path: ResponsePath, found: bool, require: bool) {
    match path
    case NotRun => true
    case Unanswerable => !found
    case RebuildFailed => !found && !require
    case Ran => found || !require
  }

  // ------------------------------------------------------------------ sequences of steps

  /** Each event is enabled where the ones before it have led. */
  ghost predicate Leads(l: Limits, s: State, es: seq<Event>, s': State)
    decreases |es|
  {
    if es == [] then s' == s
    else
      var last := es[|es| - 1];
      exists m :: Leads(l, s, es[..|es| - 1], m) && Enabled(m, last) && s' == Next(l, m, last)
  }

  lemma LeadsBy(l: Limits, s: State, es: seq<Event>, m: State, e: Event)
    requires Leads(l, s, es, m) && Enabled(m, e)
    ensures Leads(l, s, es + [e], Next(l, m, e))
  {
    var all := es + [e];
    assert all[..|all| - 1] == es && all[|all| - 1] == e;
    assert Leads(l, s, all[..|all| - 1], m);
  }

  /** The discards after a step of the registry, in any order. */
  lemma {:induction false} Discards(l: Limits, s0: State, before: seq<Event>, s: State, a: nat, ds: seq<Tx>)
    returns (es: seq<Event>, s': State)
    requires Leads(l, s0, before, s) && a in s.acts && Lists(ds, s.acts[a].doomed)
    ensures Leads(l, s0, es, s') && a in s'.acts && s'.acts[a] == s.acts[a].(doomed := {}) && s'.reg == s.reg
    ensures s'.logs == Closings(s.logs, s.acts[a].doomed)
    decreases |ds|
  {
    if ds == [] {
      NothingClosed(s.logs);
      es, s' := before, s;
    } else {
      var m := DiscardsOne(l, s0, before, s, a, ds);
      es, s' := Discards(l, s0, before + [Discard(a, ds[0])], m, a, ds[1..]);
      ClosingsInTwo(s.logs, m.logs, s.acts[a].doomed, ds[0]);
    }
  }

  lemma DiscardsOne(l: Limits, s0: State, before: seq<Event>, s: State, a: nat, ds: seq<Tx>) returns (m: State)
    requires Leads(l, s0, before, s) && a in s.acts && ds != [] && Lists(ds, s.acts[a].doomed)
    ensures Leads(l, s0, before + [Discard(a, ds[0])], m) && a in m.acts
    ensures m.acts[a] == s.acts[a].(doomed := s.acts[a].doomed - {ds[0]}) && Lists(ds[1..], m.acts[a].doomed)
    ensures m.reg == s.reg && m.logs == s.logs[ds[0] := Log(s.logs, ds[0]) + [Closing]]
  {
    var e := Discard(a, ds[0]);
    ListsTail(ds, s.acts[a].doomed);
    LeadsBy(l, s0, before, s, e);
    m := Next(l, s, e);
  }

  ghost predicate Lists(ds: seq<Tx>, ts: set<Tx>) {
    (forall t :: t in ds <==> t in ts) && forall i, j :: 0 <= i < j < |ds| ==> ds[i] != ds[j]
  }

  lemma ListsTail(ds: seq<Tx>, ts: set<Tx>)
    requires ds != [] && Lists(ds, ts)
    ensures ds[0] in ts && Lists(ds[1..], ts - {ds[0]})
  {
    assert ds == [ds[0]] + ds[1..];
    assert ds[0] in ds;
    forall t
      ensures t in ds[1..] <==> t in ts - {ds[0]}
    {
      assert t in ds <==> t == ds[0] || t in ds[1..];
    }
    assert forall i :: 0 <= i < |ds[1..]| ==> ds[1..][i] == ds[i + 1];
  }

  function Log(logs: map<Tx, seq<TxOp>>, t: Tx): seq<TxOp> {
    if t in logs then logs[t] else []
  }

  /** Logs with a set of transactions closed. */
  ghost function Closings(logs: map<Tx, seq<TxOp>>, ts: set<Tx>): map<Tx, seq<TxOp>> {
    map t | t in logs.Keys + ts :: if t in ts then Log(logs, t) + [Closing] else logs[t]
  }

  lemma ClosingsInTwo(logs: map<Tx, seq<TxOp>>, more: map<Tx, seq<TxOp>>, ts: set<Tx>, t: Tx)
    requires t in ts && more == logs[t := Log(logs, t) + [Closing]]
    ensures Closings(more, ts - {t}) == Closings(logs, ts)
  {
  }

  lemma NothingClosed(logs: map<Tx, seq<TxOp>>)
    ensures Closings(logs, {}) == logs
  {
  }

  lemma {:induction false} Listing(ts: set<Tx>) returns (ds: seq<Tx>)
    ensures Lists(ds, ts)
  {
    ds := [];
    if ts != {} {
      var t :| t in ts;
      var rest := Listing(ts - {t});
      ds := rest + [t];
    }
  }

  // ------------------------------------------------------------------ single steps

  /** Goroutine `a` has answered nothing yet and owes no discards. */
  ghost predicate Stands(s: State, a: nat, kind: Kind, pc: Pc, live: Option<Tx>) {
    a in s.acts && s.acts[a] == Act(kind, pc, live, {}, 0, false)
  }

  /** A finished handler's record. */
  ghost predicate Done(s: State, a: nat, kind: Kind, offered: bool) {
    a in s.acts && s.acts[a] == Act(kind, Finished, None, {}, 1, offered)
  }

  /** The run so far, and where it has led. */
  ghost predicate Comes(l: Limits, s: State, es: seq<Event>, m: State, reg: Reg<Tx>, logs: map<Tx, seq<TxOp>>) {
    Leads(l, s, es, m) && m.reg == reg && m.logs == logs
  }

  lemma Begins(l: Limits, s: State, a: nat, kind: Kind) returns (es: seq<Event>, s': State)
    requires a !in s.acts
    ensures Comes(l, s, es, s', s.reg, s.logs) && Stands(s', a, kind, Start, None)
  {
    LeadsBy(l, s, [], s, Spawn(a, kind));
    es, s' := [] + [Spawn(a, kind)], Next(l, s, Spawn(a, kind));
  }

  /** A step that only moves the goroutine on. */
  lemma Moves(l: Limits, s: State, es: seq<Event>, m: State, e: Event, kind: Kind, from: Pc, to: Pc, live: Option<Tx>)
    returns (fs: seq<Event>, s': State)
    requires Leads(l, s, es, m) && Stands(m, e.a, kind, from, live) && Enabled(m, e)
    requires EffectOf(l, m, e) == Quiet(m, e.a, m.acts[e.a].(pc := to))
    ensures Comes(l, s, fs, s', m.reg, m.logs) && Stands(s', e.a, kind, to, live)
  {
    LeadsBy(l, s, es, m, e);
    fs, s' := es + [e], Next(l, m, e);
  }

  lemma Opens(l: Limits, s: State, es: seq<Event>, m: State, a: nat, tx: Tx, ok: bool, kind: Kind, from: Pc)
    returns (fs: seq<Event>, s': State)
    requires Leads(l, s, es, m) && Stands(m, a, kind, from, None) && tx !in m.logs
    requires if kind.Req? then from == Start else kind.Rsp? && !kind.require && from == Asking
    ensures Comes(l, s, fs, s', m.reg, m.logs[tx := [Opened, Request]]) && Stands(s', a, kind, Began(ok), Some(tx))
  {
    LeadsBy(l, s, es, m, OpenTx(a, tx, ok));
    fs, s' := es + [OpenTx(a, tx, ok)], Next(l, m, OpenTx(a, tx, ok));
    assert [] + [Opened, Request] == [Opened, Request];
  }

  /** Closes what it holds, if anything. */
  lemma Closes(l: Limits, s: State, es: seq<Event>, m: State, a: nat, kind: Kind, from: Pc, live: Option<Tx>)
    returns (fs: seq<Event>, s': State)
    requires Leads(l, s, es, m) && Stands(m, a, kind, from, live) && (live.Some? ==> live.value in m.logs)
    requires from == Dropping || from == Responded || from == Began(false) || (from == Began(true) && kind == Req(None))
    ensures Comes(l, s, fs, s', m.reg, if live.Some? then m.logs[live.value := m.logs[live.value] + [Closing]] else m.logs)
    ensures Stands(s', a, kind, if from == Began(true) then Ready else Replying(false), None)
  {
    LeadsBy(l, s, es, m, CloseLive(a));
    fs, s' := es + [CloseLive(a)], Next(l, m, CloseLive(a));
  }

  lemma Responds(l: Limits, s: State, es: seq<Event>, m: State, a: nat, kind: Kind, from: Pc, tx: Tx)
    returns (fs: seq<Event>, s': State)
    requires Leads(l, s, es, m) && Stands(m, a, kind, from, Some(tx)) && tx in m.logs
    requires kind.Rsp? && (from == Asking || from == Began(true))
    ensures Comes(l, s, fs, s', m.reg, m.logs[tx := m.logs[tx] + [Respond]]) && Stands(s', a, kind, Responded, Some(tx))
  {
    LeadsBy(l, s, es, m, RunResponse(a));
    fs, s' := es + [RunResponse(a)], Next(l, m, RunResponse(a));
  }

  lemma Replies(l: Limits, s: State, es: seq<Event>, m: State, a: nat, kind: Kind, offer: bool)
    returns (fs: seq<Event>, s': State)
    requires Leads(l, s, es, m) && Stands(m, a, kind, Replying(offer), None)
    ensures Comes(l, s, fs, s', m.reg, m.logs) && Done(s', a, kind, offer)
  {
    LeadsBy(l, s, es, m, Reply(a));
    fs, s' := es + [Reply(a)], Next(l, m, Reply(a));
  }

  /** The discards a step of the registry has left to a goroutine. */
  lemma Cleans(l: Limits, s: State, es: seq<Event>, m: State, a: nat) returns (fs: seq<Event>, s': State)
    requires Leads(l, s, es, m) && a in m.acts
    ensures Comes(l, s, fs, s', m.reg, Closings(m.logs, m.acts[a].doomed))
    ensures a in s'.acts && s'.acts[a] == m.acts[a].(doomed := {})
  {
    var ds := Listing(m.acts[a].doomed);
    fs, s' := Discards(l, s, es, m, a, ds);
  }

  lemma Parks(l: Limits, s: State, es: seq<Event>, m: State, a: nat, rid: Token, tx: Tx, now: int)
    returns (fs: seq<Event>, s': State)
    requires Leads(l, s, es, m) && Stands(m, a, Req(Some(rid)), Offering, Some(tx))
    ensures Comes(l, s, fs, s', Lazy(l, m.reg, Park(rid, tx, now)).0, Closings(m.logs, Displaced(l, m.reg.items, rid, now)))
    ensures if |Unexpired(m.reg.items, now)| < l.max then Stands(s', a, Req(Some(rid)), Replying(true), None)
            else Stands(s', a, Req(Some(rid)), Dropping, Some(tx))
  {
    LeadsBy(l, s, es, m, ParkIt(a, now));
    var parked := Parked1(l, m, a, rid, tx, now);
    fs, s' := Cleans(l, s, es + [ParkIt(a, now)], parked, a);
  }

  lemma Parked1(l: Limits, m: State, a: nat, rid: Token, tx: Tx, now: int) returns (s': State)
    requires Stands(m, a, Req(Some(rid)), Offering, Some(tx))
    ensures Enabled(m, ParkIt(a, now)) && s' == Next(l, m, ParkIt(a, now))
    ensures s'.reg == Lazy(l, m.reg, Park(rid, tx, now)).0 && s'.logs == m.logs && a in s'.acts
    ensures var gone := Displaced(l, m.reg.items, rid, now);
      s'.acts[a] == if |Unexpired(m.reg.items, now)| < l.max then Act(Req(Some(rid)), Replying(true), None, gone, 0, false)
                    else Act(Req(Some(rid)), Dropping, Some(tx), gone, 0, false)
  {
    s' := Next(l, m, ParkIt(a, now));
  }

  lemma Takes(l: Limits, s: State, es: seq<Event>, m: State, a: nat, kind: Kind, rid: Token, now: int)
    returns (fs: seq<Event>, s': State)
    requires Leads(l, s, es, m) && kind.Rsp? && kind.token == Some(rid) && Stands(m, a, kind, Start, None)
    ensures var found := FoundIn<Tx>(m.reg, Some(rid), now);
      && Comes(l, s, fs, s', Lazy(l, m.reg, Take(rid, now)).0, Closings(m.logs, ExpiredOne(m.reg, Some(rid), now)))
      && Stands(s', a, kind, Asking, found)
  {
    LeadsBy(l, s, es, m, TakeIt(a, now));
    var taken := Taken1(l, m, a, kind, rid, now);
    fs, s' := Cleans(l, s, es + [TakeIt(a, now)], taken, a);
  }

  lemma Taken1(l: Limits, m: State, a: nat, kind: Kind, rid: Token, now: int) returns (s': State)
    requires kind.Rsp? && kind.token == Some(rid) && Stands(m, a, kind, Start, None)
    ensures Enabled(m, TakeIt(a, now)) && s' == Next(l, m, TakeIt(a, now))
    ensures s'.reg == Lazy(l, m.reg, Take(rid, now)).0 && s'.logs == m.logs && a in s'.acts
    ensures s'.acts[a] == Act(kind, Asking, FoundIn<Tx>(m.reg, Some(rid), now), ExpiredOne(m.reg, Some(rid), now), 0, false)
  {
    s' := Next(l, m, TakeIt(a, now));
  }

  /** The transaction a token finds, and the one it finds expired. */
  function FoundIn<T>(r: Reg<T>, token: Option<Token>, now: int): Option<T> {
    if token.Some? && token.value in r.items && !Dead(r.items[token.value], now) then Some(r.items[token.value].live) else None
  }

  function ExpiredOne(r: Reg<Tx>, token: Option<Token>, now: int): set<Tx> {
    if token.Some? && token.value in r.items && Dead(r.items[token.value], now) then {r.items[token.value].live} else {}
  }

  // ------------------------------------------------------------------ requests

  lemma EarlyRuns(l: Limits, s: State, a: nat, kind: Kind) returns (es: seq<Event>, s': State)
    requires a !in s.acts && (kind.Req? || kind.Rsp?)
    ensures Comes(l, s, es, s', s.reg, s.logs) && Done(s', a, kind, false)
  {
    es, s' := Begins(l, s, a, kind);
    es, s' := Moves(l, s, es, s', AnswerEarly(a), kind, Start, Replying(false), None);
    es, s' := Replies(l, s, es, s', a, kind, false);
  }

  lemma FailedRuns(l: Limits, s: State, a: nat, tx: Tx, keep: Option<Token>) returns (es: seq<Event>, s': State)
    requires a !in s.acts && tx !in s.logs
    ensures Comes(l, s, es, s', s.reg, s.logs[tx := LifeOf(Failed)]) && Done(s', a, Req(keep), false)
  {
    es, s' := Begins(l, s, a, Req(keep));
    es, s' := Opens(l, s, es, s', a, tx, false, Req(keep), Start);
    es, s' := Closes(l, s, es, s', a, Req(keep), Began(false), Some(tx));
    Updated(s.logs, tx, [Opened, Request], [Closing]);
    es, s' := Replies(l, s, es, s', a, Req(keep), false);
  }

  lemma Updated(logs: map<Tx, seq<TxOp>>, tx: Tx, ops: seq<TxOp>, more: seq<TxOp>)
    ensures logs[tx := ops][tx := logs[tx := ops][tx] + more] == logs[tx := ops + more]
    ensures [Opened, Request] + [Closing] == [Opened, Request, Closing]
  {
  }

  /** Without keeping: opened, run, closed. */
  lemma AppliedRuns(l: Limits, s: State, a: nat, tx: Tx) returns (es: seq<Event>, s': State)
    requires a !in s.acts && tx !in s.logs
    ensures Comes(l, s, es, s', s.reg, s.logs[tx := [Opened, Request, Closing]]) && Stands(s', a, Req(None), Ready, None)
  {
    es, s' := Begins(l, s, a, Req(None));
    es, s' := Opens(l, s, es, s', a, tx, true, Req(None), Start);
    es, s' := Closes(l, s, es, s', a, Req(None), Began(true), Some(tx));
    Updated(s.logs, tx, [Opened, Request], [Closing]);
  }

  lemma NotKeptRuns(l: Limits, s: State, a: nat, tx: Tx, published: bool) returns (es: seq<Event>, s': State)
    requires a !in s.acts && tx !in s.logs
    ensures Comes(l, s, es, s', s.reg, s.logs[tx := LifeOf(NotKept(published))]) && Done(s', a, Req(None), false)
  {
    es, s' := AppliedRuns(l, s, a, tx);
    es, s' := Moves(l, s, es, s', Publish(a, published), Req(None), Ready, Dropping, None);
    es, s' := Closes(l, s, es, s', a, Req(None), Dropping, None);
    es, s' := Replies(l, s, es, s', a, Req(None), false);
  }

  /** Up to the point where a kept transaction's list writes are published. */
  lemma KeptRuns(l: Limits, s: State, a: nat, tx: Tx, rid: Token, published: bool) returns (es: seq<Event>, s': State)
    requires a !in s.acts && tx !in s.logs
    ensures Comes(l, s, es, s', s.reg, s.logs[tx := [Opened, Request]])
    ensures Stands(s', a, Req(Some(rid)), if published then Offering else Dropping, Some(tx))
  {
    es, s' := Begins(l, s, a, Req(Some(rid)));
    es, s' := Opens(l, s, es, s', a, tx, true, Req(Some(rid)), Start);
    es, s' := Moves(l, s, es, s', Kept(a), Req(Some(rid)), Began(true), Ready, Some(tx));
    es, s' := Moves(l, s, es, s', Publish(a, published), Req(Some(rid)), Ready, if published then Offering else Dropping, Some(tx));
  }

  lemma DroppedRuns(l: Limits, s: State, a: nat, tx: Tx, rid: Token, published: bool) returns (es: seq<Event>, s': State)
    requires a !in s.acts && tx !in s.logs
    ensures Comes(l, s, es, s', s.reg, s.logs[tx := LifeOf(Refused)]) && Done(s', a, Req(Some(rid)), false)
  {
    es, s' := KeptRuns(l, s, a, tx, rid, published);
    if published {
      es, s' := Moves(l, s, es, s', Refuse(a), Req(Some(rid)), Offering, Dropping, Some(tx));
    }
    es, s' := Closes(l, s, es, s', a, Req(Some(rid)), Dropping, Some(tx));
    Updated(s.logs, tx, [Opened, Request], [Closing]);
    es, s' := Replies(l, s, es, s', a, Req(Some(rid)), false);
  }

  /** Up to a Park and the discards behind it. */
  lemma OfferedRuns(l: Limits, s: State, a: nat, tx: Tx, rid: Token, now: int) returns (es: seq<Event>, s': State)
    requires a !in s.acts && tx !in s.logs && tx !in Displaced(l, s.reg.items, rid, now)
    ensures Comes(l, s, es, s', Lazy(l, s.reg, Park(rid, tx, now)).0,
                  Closings(s.logs, Displaced(l, s.reg.items, rid, now))[tx := [Opened, Request]])
    ensures if |Unexpired(s.reg.items, now)| < l.max then Stands(s', a, Req(Some(rid)), Replying(true), None)
            else Stands(s', a, Req(Some(rid)), Dropping, Some(tx))
  {
    es, s' := KeptRuns(l, s, a, tx, rid, true);
    ClosingsAround(s.logs, Displaced(l, s.reg.items, rid, now), tx, [Opened, Request]);
    es, s' := Parks(l, s, es, s', a, rid, tx, now);
  }

  lemma StoredRuns(l: Limits, s: State, a: nat, tx: Tx, rid: Token, now: int) returns (es: seq<Event>, s': State)
    requires a !in s.acts && tx !in s.logs && tx !in Displaced(l, s.reg.items, rid, now)
    requires |Unexpired(s.reg.items, now)| < l.max
    ensures Comes(l, s, es, s', Lazy(l, s.reg, Park(rid, tx, now)).0,
                  Closings(s.logs, Displaced(l, s.reg.items, rid, now))[tx := LifeOf(Stored)])
    ensures Done(s', a, Req(Some(rid)), true)
  {
    es, s' := OfferedRuns(l, s, a, tx, rid, now);
    es, s' := Replies(l, s, es, s', a, Req(Some(rid)), true);
  }

  lemma FullRuns(l: Limits, s: State, a: nat, tx: Tx, rid: Token, now: int) returns (es: seq<Event>, s': State)
    requires a !in s.acts && tx !in s.logs && tx !in Displaced(l, s.reg.items, rid, now)
    requires |Unexpired(s.reg.items, now)| >= l.max
    ensures Comes(l, s, es, s', Lazy(l, s.reg, Park(rid, tx, now)).0,
                  Closings(s.logs, Displaced(l, s.reg.items, rid, now))[tx := LifeOf(Full)])
    ensures Done(s', a, Req(Some(rid)), false)
  {
    es, s' := OfferedRuns(l, s, a, tx, rid, now);
    es, s' := Closes(l, s, es, s', a, Req(Some(rid)), Dropping, Some(tx));
    Updated(Closings(s.logs, Displaced(l, s.reg.items, rid, now)), tx, [Opened, Request], [Closing]);
    es, s' := Replies(l, s, es, s', a, Req(Some(rid)), false);
  }

  lemma ClosingsAround(logs: map<Tx, seq<TxOp>>, ts: set<Tx>, tx: Tx, ops: seq<TxOp>)
    requires tx !in ts
    ensures Closings(logs[tx := ops], ts) == Closings(logs, ts)[tx := ops]
  {
  }

  lemma NotDisplaced(l: Limits, s: State, tx: Tx, rid: Token, now: int)
    requires Owned(s) && tx !in s.logs
    ensures tx !in Displaced(l, s.reg.items, rid, now)
  {
    if tx in Displaced(l, s.reg.items, rid, now) {
      var k :| k in s.reg.items && s.reg.items[k].live == tx;
      assert Owns(s, Entry(k), tx);
      assert false;
    }
  }

  /** The transactions a request path displaces. */
  function DisplacedBy(l: Limits, r: Reg<Tx>, path: RequestPath, keep: Option<Token>, now: int): set<Tx> {
    if (path.Full? || path.Stored?) && keep.Some? then Displaced(l, r.items, keep.value, now) else {}
  }

  /** Every request path is a run of the protocol. It ends with one reply, an offer exactly when the
      transaction is stored, the registry the path says, the life the path says for the transaction
      opened, everything displaced closed, and nothing else touched. */
  lemma RequestPathRuns(l: Limits, s: State, a: nat, tx: Tx, keep: Option<Token>, path: RequestPath, now: int)
    returns (es: seq<Event>, s': State)
    requires Owned(s) && a !in s.acts && tx !in s.logs && PathFits(l, s.reg, path, keep, now)
    ensures Leads(l, s, es, s') && Done(s', a, Req(keep), path.Stored?)
    ensures s'.reg == RequestReg(l, s.reg, path, keep, tx, now)
    ensures var logs := Closings(s.logs, DisplacedBy(l, s.reg, path, keep, now));
      s'.logs == if path.NotOpened? then logs else logs[tx := LifeOf(path)]
  {
    NothingClosed(s.logs);
    match path
    case NotOpened => es, s' := EarlyRuns(l, s, a, Req(keep));
    case Failed => es, s' := FailedRuns(l, s, a, tx, keep);
    case NotKept(published) => es, s' := NotKeptRuns(l, s, a, tx, published);
    case NotPublished => es, s' := DroppedRuns(l, s, a, tx, keep.value, false);
    case Refused => es, s' := DroppedRuns(l, s, a, tx, keep.value, true);
    case Full =>
      NotDisplaced(l, s, tx, keep.value, now);
      es, s' := FullRuns(l, s, a, tx, keep.value, now);
    case Stored =>
      NotDisplaced(l, s, tx, keep.value, now);
      es, s' := StoredRuns(l, s, a, tx, keep.value, now);
  }

  // ------------------------------------------------------------------ responses

  /** Up to the point where a response handler knows whether it has resumed. */
  lemma AskingRuns(l: Limits, s: State, a: nat, token: Option<Token>, require: bool, now: int)
    returns (es: seq<Event>, s': State)
    requires a !in s.acts
    ensures Comes(l, s, es, s', ResponseReg(l, s.reg, token, now), Closings(s.logs, ExpiredOne(s.reg, token, now)))
    ensures Stands(s', a, Rsp(token, require), Asking, FoundIn<Tx>(s.reg, token, now))
  {
    var kind := Rsp(token, require);
    es, s' := Begins(l, s, a, kind);
    if token.Some? {
      es, s' := Takes(l, s, es, s', a, kind, token.value, now);
    } else {
      es, s' := Moves(l, s, es, s', NoToken(a), kind, Start, Asking, None);
      NothingClosed(s.logs);
    }
  }

  lemma GaveUpRuns(l: Limits, s: State, es: seq<Event>, m: State, a: nat, kind: Kind, live: Option<Tx>)
    returns (fs: seq<Event>, s': State)
    requires Leads(l, s, es, m) && Stands(m, a, kind, Asking, live) && (live.Some? ==> live.value in m.logs)
    ensures Comes(l, s, fs, s', m.reg, if live.Some? then m.logs[live.value := m.logs[live.value] + [Closing]] else m.logs)
    ensures Done(s', a, kind, false)
  {
    fs, s' := Moves(l, s, es, m, GiveUp(a), kind, Asking, Dropping, live);
    fs, s' := Closes(l, s, fs, s', a, kind, Dropping, live);
    fs, s' := Replies(l, s, fs, s', a, kind, false);
  }

  lemma RanRuns(l: Limits, s: State, es: seq<Event>, m: State, a: nat, kind: Kind, from: Pc, tx: Tx)
    returns (fs: seq<Event>, s': State)
    requires Leads(l, s, es, m) && kind.Rsp? && (from == Asking || from == Began(true)) && Stands(m, a, kind, from, Some(tx)) && tx in m.logs
    ensures Comes(l, s, fs, s', m.reg, m.logs[tx := m.logs[tx] + [Respond, Closing]]) && Done(s', a, kind, false)
  {
    fs, s' := Responds(l, s, es, m, a, kind, from, tx);
    fs, s' := Closes(l, s, fs, s', a, kind, Responded, Some(tx));
    assert m.logs[tx] + [Respond] + [Closing] == m.logs[tx] + [Respond, Closing];
    assert m.logs[tx := m.logs[tx] + [Respond]][tx := m.logs[tx] + [Respond, Closing]] == m.logs[tx := m.logs[tx] + [Respond, Closing]];
    fs, s' := Replies(l, s, fs, s', a, kind, false);
  }

  lemma RebuildFailedRuns(l: Limits, s: State, es: seq<Event>, m: State, a: nat, kind: Kind, tx: Tx)
    returns (fs: seq<Event>, s': State)
    requires Leads(l, s, es, m) && kind.Rsp? && !kind.require && Stands(m, a, kind, Asking, None) && tx !in m.logs
    ensures Comes(l, s, fs, s', m.reg, m.logs[tx := [Opened, Request, Closing]]) && Done(s', a, kind, false)
  {
    fs, s' := Opens(l, s, es, m, a, tx, false, kind, Asking);
    fs, s' := Closes(l, s, fs, s', a, kind, Began(false), Some(tx));
    Updated(m.logs, tx, [Opened, Request], [Closing]);
    fs, s' := Replies(l, s, fs, s', a, kind, false);
  }

  lemma RebuiltRuns(l: Limits, s: State, es: seq<Event>, m: State, a: nat, kind: Kind, tx: Tx)
    returns (fs: seq<Event>, s': State)
    requires Leads(l, s, es, m) && kind.Rsp? && !kind.require && Stands(m, a, kind, Asking, None) && tx !in m.logs
    ensures Comes(l, s, fs, s', m.reg, m.logs[tx := [Opened, Request, Respond, Closing]]) && Done(s', a, kind, false)
  {
    fs, s' := Opens(l, s, es, m, a, tx, true, kind, Asking);
    fs, s' := RanRuns(l, s, fs, s', a, kind, Began(true), tx);
    UpdatedTwice(m.logs, tx);
  }

  lemma UpdatedTwice(logs: map<Tx, seq<TxOp>>, tx: Tx)
    ensures [Opened, Request] + [Respond, Closing] == [Opened, Request, Respond, Closing]
    ensures logs[tx := [Opened, Request]][tx := [Opened, Request, Respond, Closing]] == logs[tx := [Opened, Request, Respond, Closing]]
  {
  }

  /** The transaction a response path works on: the one it finds, or else `tx`, a new one. */
  function WorksOn(r: Reg<Tx>, token: Option<Token>, now: int, tx: Tx): Tx {
    var found := FoundIn<Tx>(r, token, now);
    if found.Some? then found.value else tx
  }

  /** The logs after a response path. */
  ghost function ResponseLogs(s: State, token: Option<Token>, path: ResponsePath, tx: Tx, now: int): map<Tx, seq<TxOp>> {
    var logs := Closings(s.logs, ExpiredOne(s.reg, token, now));
    var resumed := FoundIn<Tx>(s.reg, token, now).Some?;
    var t := WorksOn(s.reg, token, now, tx);
    if LifeIn(path, resumed) == [] then logs
    else logs[t := (if resumed && t in logs then logs[t] else []) + LifeIn(path, resumed)]
  }

  /** Every response path is a run of the protocol. It ends with one reply and no offer, the token's
      entry gone, the life the path says added to the transaction it worked on, an expired one
      closed, and nothing else touched. */
  lemma ResponsePathRuns(l: Limits, s: State, a: nat, tx: Tx, token: Option<Token>, require: bool, path: ResponsePath, now: int)
    returns (es: seq<Event>, s': State)
    requires Owned(s) && a !in s.acts && tx !in s.logs
    requires ResponseFits(path, FoundIn<Tx>(s.reg, token, now).Some?, require)
    ensures Leads(l, s, es, s') && Done(s', a, Rsp(token, require), false)
    ensures s'.reg == ResponseReg(l, s.reg, token, now) && s'.logs == ResponseLogs(s, token, path, tx, now)
  {
    var kind, found := Rsp(token, require), FoundIn<Tx>(s.reg, token, now);
    var logs := Closings(s.logs, ExpiredOne(s.reg, token, now));
    EntryIsLogged(s, token, now);
    es, s' := AskingRuns(l, s, a, token, require, now);
    assert found.Some? ==> found.value in logs && WorksOn(s.reg, token, now, tx) == found.value;
    assert [] + LifeIn(path, false) == LifeIn(path, false);
    match path
    case NotRun => es, s' := GaveUpRuns(l, s, es, s', a, kind, found);
    case Unanswerable =>
      es, s' := Moves(l, s, es, s', AnswerLost(a), kind, Asking, Replying(false), None);
      es, s' := Replies(l, s, es, s', a, kind, false);
    case RebuildFailed => es, s' := RebuildFailedRuns(l, s, es, s', a, kind, tx);
    case Ran =>
      if found.Some? {
        es, s' := RanRuns(l, s, es, s', a, kind, Asking, found.value);
      } else {
        es, s' := RebuiltRuns(l, s, es, s', a, kind, tx);
      }
  }

  /** A stored transaction has a log, and a new one is not stored. */
  lemma EntryIsLogged(s: State, token: Option<Token>, now: int)
    requires Owned(s)
    ensures forall k :: k in s.reg.items ==> s.reg.items[k].live in s.logs
    ensures forall t :: t in ExpiredOne(s.reg, token, now) ==> t in s.logs
  {
    forall k | k in s.reg.items
      ensures s.reg.items[k].live in s.logs
    {
      assert Owns(s, Entry(k), s.reg.items[k].live);
    }
  }

  /** A release is a run: the entry is dropped and its transaction closed, and nothing is answered. */
  lemma ReleaseRuns(l: Limits, s: State, a: nat, rid: Token, now: int) returns (es: seq<Event>, s': State)
    requires a !in s.acts
    ensures Leads(l, s, es, s') && a in s'.acts && s'.acts[a] == Act(Release(rid), Finished, None, {}, 0, false)
    ensures s'.reg == Lazy(l, s.reg, Drop(rid, now)).0
    ensures s'.logs == Closings(s.logs, if rid in s.reg.items then {s.reg.items[rid].live} else {})
  {
    es, s' := Begins(l, s, a, Release(rid));
    LeadsBy(l, s, es, s', DropIt(a, now));
    var dropped := Dropped(l, s', a, rid, now);
    es, s' := Cleans(l, s, es + [DropIt(a, now)], dropped, a);
  }

  lemma Dropped(l: Limits, m: State, a: nat, rid: Token, now: int) returns (s': State)
    requires Stands(m, a, Release(rid), Start, None)
    ensures Enabled(m, DropIt(a, now)) && s' == Next(l, m, DropIt(a, now))
    ensures s'.reg == Lazy(l, m.reg, Drop(rid, now)).0 && s'.logs == m.logs && a in s'.acts
    ensures s'.acts[a] == Act(Release(rid), Finished, None, if rid in m.reg.items then {m.reg.items[rid].live} else {}, 0, false)
  {
    s' := Next(l, m, DropIt(a, now));
    DroppedOne(l, m.reg, rid, now);
  }

  lemma DroppedOne(l: Limits, r: Reg<Tx>, rid: Token, now: int)
    ensures LeftBehind(r.items, Lazy(l, r, Drop(rid, now)).0.items) == if rid in r.items then {r.items[rid].live} else {}
  {
  }
}
