/** Driving a live transaction: the entry points of the engine package as code. A transaction may
    be used and closed only while it is open, so verification shows that no path uses it after
    closing it, or closes it twice. */
module EngineApply {
  import opened Common
  import opened EngineSpec

  class Transaction {
    const engine: Engine
    var log: seq<Call>
    var open: bool

    constructor (engine: Engine)
      ensures this.engine == engine && log == [] && open
    {
      this.engine, log, open := engine, [], true;
    }

    method Do(c: Call) returns (iv: Option<Intervention>, failed: bool)
      requires open && c != EngineSpec.Close
      modifies this`log
      ensures log == old(log) + [c]
      ensures iv == engine.intervenes(log) && failed == (MayFail(c) && engine.fails(log))
    {
      log := log + [c];
      iv, failed := engine.intervenes(log), MayFail(c) && engine.fails(log);
    }

    method Close()
      requires open
      modifies this
      ensures !open && log == old(log) + [EngineSpec.Close]
    {
      open, log := false, log + [EngineSpec.Close];
    }
  }

  /** A kept transaction. */
  datatype Live = Live(tx: Transaction, proto: string)

  lemma {:induction false} PlayedSafe(e: Engine, log: seq<Call>, script: seq<Call>)
    requires forall i :: 0 <= i < |script| ==> !MayFail(script[i])
    ensures Played(e, log, script) == (log + script, true)
    decreases |script|
  {
    if script != [] {
      assert log + script == (log + [script[0]]) + script[1..];
      PlayedSafe(e, log + [script[0]], script[1..]);
    }
  }

  /** How the body of a phase plays: an optional write, then the evaluation. */
  lemma PlayedBody(e: Engine, log: seq<Call>, write: seq<Call>, eval: Call)
    requires |write| <= 1
    ensures Played(e, log, write + [eval]) ==
      if write != [] && MayFail(write[0]) && e.fails(log + write) then (log + write, false)
      else (log + write + [eval], !(MayFail(eval) && e.fails(log + write + [eval])))
  {
    if write == [] {
      assert write + [eval] == [eval] && log + write == log;
      PlayedOne(e, log, eval);
    } else {
      PlayedConcat(e, log, write, [eval]);
      assert write == [write[0]];
      PlayedOne(e, log, write[0]);
      PlayedOne(e, log + write, eval);
    }
  }

  method AddHeaders(tx: Transaction, hs: seq<Header>, request: bool)
    requires tx.open
    modifies tx`log
    ensures tx.log == old(tx.log) + Headers(hs, request)
  {
    var i := 0;
    while i < |hs|
      invariant 0 <= i <= |hs|
      invariant tx.log == old(tx.log) + Headers(hs[..i], request)
    {
      var _, _ := tx.Do(if request then RequestHeader(hs[i]) else ResponseHeader(hs[i]));
      assert Headers(hs[..i + 1], request) == Headers(hs[..i], request) + [if request then RequestHeader(hs[i]) else ResponseHeader(hs[i])];
      i := i + 1;
    }
    assert hs[..i] == hs;
  }

  /** Writes the body if there is one, then evaluates it. */
  method DoBody(tx: Transaction, ghost write: seq<Call>, body: string, request: bool)
    returns (iv: Option<Intervention>, ok: bool)
    requires tx.open
    requires write == if |body| > 0 then [if request then WriteRequestBody(body) else WriteResponseBody(body)] else []
    modifies tx`log
    ensures (tx.log, ok) == Played(tx.engine, old(tx.log), write + [if request then RequestBody else ResponseBody])
    ensures ok ==> iv == tx.engine.intervenes(tx.log)
  {
    PlayedBody(tx.engine, tx.log, write, if request then RequestBody else ResponseBody);
    var failed := false;
    iv := None;
    if |body| > 0 {
      iv, failed := tx.Do(if request then WriteRequestBody(body) else WriteResponseBody(body));
      if failed {
        return None, false;
      }
    }
    iv, failed := tx.Do(if request then RequestBody else ResponseBody);
    ok := !failed;
  }

  /** A new transaction, up to its headers. */
  method BeginHeaders(e: Engine, i: Input) returns (t: Transaction, it: Option<Intervention>)
    ensures fresh(t) && t.engine == e && t.open && t.log == Phase1(i) && it == e.intervenes(Phase1(i))
  {
    t := new Transaction(e);
    var _, _ := t.Do(Connection(i.clientIP, i.clientPort, i.serverIP, i.serverPort));
    var _, _ := t.Do(Uri(RequestTarget(i.uri, i.args), i.verb, ProtocolVersion(i.version)));
    if i.host != "" {
      var _, _ := t.Do(ServerName(Hostname(i.host)));
    }
    AddHeaders(t, i.headers, true);
    var failed: bool;
    it, failed := t.Do(RequestHeaders);
    assert t.log == Phase1(i);
  }

  /** Opens a transaction and runs the request phases; on failure the transaction is closed.
      `made` names the transaction even when it failed. */
  method Begin(e: Engine, i: Input) returns (tx: Transaction?, it: Option<Intervention>, ghost made: Transaction?)
    ensures made == null <==> !e.opens(i.rid)
    ensures made != null ==> fresh(made) && made.engine == e
    ensures made == null ==> tx == null
    ensures made != null ==>
      var (calls, ok) := Played(e, [], RequestScript(i));
      && made.open == ok && tx == (if ok then made else null)
      && made.log == (if ok then calls else calls + [Close])
      && (ok ==> it == FirstOf(e.intervenes(Phase1(i)), e.intervenes(Phase1(i) + Phase2(i))))
  {
    if !e.opens(i.rid) {
      return null, None, null;
    }
    var t;
    t, it := BeginHeaders(e, i);
    made := t;
    PlayedSafe(e, [], Phase1(i));
    PlayedConcat(e, [], Phase1(i), Phase2(i));
    ghost var write := if |i.body| > 0 then [WriteRequestBody(i.body)] else [];
    var v, ok := DoBody(t, write, i.body, true);
    assert [] + Phase1(i) == Phase1(i) && Phase2(i) == write + [RequestBody];
    if !ok {
      t.Close();
      return null, None, made;
    }
    if v.Some? && it == None {
      it := v;
    }
    tx := t;
  }

  method MatchedPhases(all: seq<MatchedRule>, lo: int, hi: int) returns (out: seq<MatchedRule>)
    ensures out == InPhases(all, lo, hi)
  {
    out := [];
    var i := 0;
    while i < |all|
      invariant 0 <= i <= |all|
      invariant out == InPhases(all[..i], lo, hi)
    {
      assert all[..i + 1][..i] == all[..i];
      if lo <= all[i].phase <= hi {
        out := out + [all[i]];
      }
      i := i + 1;
    }
    assert all[..i] == all;
  }

  /** Runs the response phases and reports them; the caller closes the transaction. */
  method Finish(tx: Transaction, r: ResponseInput, proto: string) returns (out: Option<Outcome>)
    requires tx.open
    modifies tx`log
    ensures var (calls, ok) := Played(tx.engine, old(tx.log), ResponseScript(r, proto));
      if ok then tx.log == calls + [Logging] && out == Some(ResponseOutcome(tx.engine, old(tx.log), r, proto))
      else tx.log == calls && out == None
    ensures out.Some? ==> (out.value.score, out.value.threshold) == tx.engine.anomalyOutbound(tx.log)
  {
    ghost var before := tx.log;
    AddHeaders(tx, r.headers, false);
    var it, failed := tx.Do(ResponseHeaders(r.status, proto));
    assert tx.log == before + Phase3(r, proto);
    PlayedSafe(tx.engine, before, Phase3(r, proto));
    PlayedConcat(tx.engine, before, Phase3(r, proto), Phase4(r));
    ghost var write := if |r.body| > 0 then [WriteResponseBody(r.body)] else [];
    assert Phase4(r) == write + [ResponseBody];
    var v, ok := DoBody(tx, write, r.body, false);
    if !ok {
      return None;
    }
    if v.Some? && it == None {
      it := v;
    }
    var _, _ := tx.Do(Logging);
    var matched := MatchedPhases(tx.engine.matched(tx.log), 3, 4);
    var (score, threshold) := tx.engine.anomalyOutbound(tx.log);
    out := Some(Outcome(it, matched, score, threshold));
  }

  /** What `made` shows of a run. */
  ghost predicate Shows(ran: Ran, made: Transaction?, out: Option<Outcome>)
    reads made
  {
    match ran
    case NotOpened => made == null && out == None
    case Failed(calls) => made != null && !made.open && made.log == calls && out == None
    case Finished(calls, outcome) => made != null && made.log == calls && out == Some(outcome)
  }

  /** Request phase alone: whatever happens the transaction is closed. */
  method Apply(e: Engine, i: Input) returns (out: Option<Outcome>, ghost made: Transaction?)
    ensures made != null ==> fresh(made) && !made.open
    ensures Shows(Once(e, i), made, out)
    ensures out.Some? ==> (out.value.score, out.value.threshold) == e.anomaly(made.log[..|made.log| - 1])
  {
    OnceInSteps(e, i);
    var tx, it;
    tx, it, made := Begin(e, i);
    if tx == null {
      return None, made;
    }
    var _, _ := tx.Do(Logging);
    var matched := MatchedPhases(e.matched(tx.log), 1, 2);
    var (score, threshold) := e.anomaly(tx.log);
    out := Some(Outcome(it, matched, score, threshold));
    tx.Close();
  }

  lemma OnceInSteps(e: Engine, i: Input)
    ensures var (before, begun) := Played(e, [], RequestScript(i));
      Once(e, i) ==
        if !e.opens(i.rid) then NotOpened
        else if !begun then Failed(before + [Close])
        else Finished(before + [Logging] + [Close], RequestOutcome(e, i, before + [Logging]))
  {
    var before := Played(e, [], RequestScript(i)).0;
    assert (before + [Logging]) + [Close] == before + [Logging, Close];
  }

  /** Request phase, keeping the transaction open for the caller. */
  method ApplyKeep(e: Engine, i: Input) returns (out: Option<Outcome>, live: Option<Live>, ghost made: Transaction?)
    ensures made != null ==> fresh(made)
    ensures Shows(Keep(e, i), made, out)
    ensures out.Some? ==> (out.value.score, out.value.threshold) == e.anomaly(made.log)
    ensures live.Some? <==> out.Some?
    ensures live.Some? ==> made == live.value.tx && live.value.tx.open && live.value.tx.engine == e
                           && live.value.proto == ProtocolVersion(i.version)
  {
    var tx, it;
    tx, it, made := Begin(e, i);
    if tx == null {
      return None, None, made;
    }
    var matched := MatchedPhases(e.matched(tx.log), 1, 2);
    var (score, threshold) := e.anomaly(tx.log);
    out := Some(Outcome(it, matched, score, threshold));
    live := Some(Live(tx, ProtocolVersion(i.version)));
  }

  /** Response phase on a kept transaction, which it closes. */
  method Resume(live: Live, r: ResponseInput) returns (out: Option<Outcome>)
    requires live.tx.open
    modifies live.tx
    ensures !live.tx.open
    ensures Shows(Resumed(live.tx.engine, old(live.tx.log), live.proto, r), live.tx, out)
    ensures out.Some? ==> (out.value.score, out.value.threshold) == live.tx.engine.anomalyOutbound(live.tx.log[..|live.tx.log| - 1])
  {
    ghost var before := live.tx.log;
    out := Finish(live.tx, r, live.proto);
    live.tx.Close();
    ghost var calls := Played(live.tx.engine, before, ResponseScript(r, live.proto)).0;
    assert (calls + [Logging]) + [Close] == calls + [Logging, Close];
  }

  method Discard(live: Live)
    requires live.tx.open
    modifies live.tx
    ensures !live.tx.open && live.tx.log == old(live.tx.log) + [Close]
  {
    live.tx.Close();
  }

  /** Both phases on a transaction of its own, which it closes. */
  method ApplyResponse(e: Engine, i: Input, r: ResponseInput) returns (out: Option<Outcome>, ghost made: Transaction?)
    ensures made != null ==> fresh(made) && !made.open
    ensures Shows(Replayed(e, i, r), made, out)
    ensures out.Some? ==> (out.value.score, out.value.threshold) == e.anomalyOutbound(made.log[..|made.log| - 1])
  {
    ReplayInTwo(e, i, r);
    var tx, it;
    tx, it, made := Begin(e, i);
    if tx == null {
      return None, made;
    }
    out := Finish(tx, r, ProtocolVersion(i.version));
    tx.Close();
  }

  /** A replay, phase group by phase group. */
  lemma ReplayInTwo(e: Engine, i: Input, r: ResponseInput)
    ensures var (before, begun) := Played(e, [], RequestScript(i));
      var proto := ProtocolVersion(i.version);
      var (calls, ok) := Played(e, before, ResponseScript(r, proto));
      Replayed(e, i, r) ==
        if !e.opens(i.rid) then NotOpened
        else if !begun then Failed(before + [Close])
        else if !ok then Failed(calls + [Close])
        else Finished(calls + [Logging] + [Close], ResponseOutcome(e, before, r, proto))
  {
    ResumeIsReplay(e, i, r);
    var (before, begun) := Played(e, [], RequestScript(i));
    var (calls, ok) := Played(e, before, ResponseScript(r, ProtocolVersion(i.version)));
    assert (calls + [Logging]) + [Close] == calls + [Logging, Close];
  }

  /** The kept path end to end: ApplyKeep and then Resume do to one transaction what
      ApplyResponse does to its own. */
  method KeepThenResume(e: Engine, i: Input, r: ResponseInput) returns (out: Option<Outcome>, ghost made: Transaction?)
    ensures made != null ==> fresh(made) && !made.open
    ensures Shows(Replayed(e, i, r), made, out)
    ensures out.Some? ==> (out.value.score, out.value.threshold) == e.anomalyOutbound(made.log[..|made.log| - 1])
  {
    ResumeIsReplay(e, i, r);
    var live;
    out, live, made := ApplyKeep(e, i);
    if live.Some? {
      out := Resume(live.value, r);
    }
  }
}
