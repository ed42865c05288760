/** An engine transaction as the calls made on it. The engine itself is abstract: a
    deterministic transaction, whose answers depend only on the calls made so far. */
module EngineSpec {
  import opened Common

  type Header = (string, string)

  datatype Input = Input(
    rid: string, clientIP: string, clientPort: int, serverIP: string, serverPort: int,
    verb: string, uri: string, args: string, version: string, host: string,
    headers: seq<Header>, body: string)

  datatype ResponseInput = ResponseInput(status: int, headers: seq<Header>, body: string)

  datatype Intervention = Intervention(status: int, url: string, disruptive: bool, action: string, ruleID: int)

  datatype MatchedRule = MatchedRule(id: int, phase: int, message: string, tags: seq<string>)

  datatype Outcome = Outcome(
    intervention: Option<Intervention>, matched: seq<MatchedRule>, score: int, threshold: int)

  /** The state-changing calls of the Transaction interface. */
  datatype Call =
    | Connection(clientIP: string, clientPort: int, serverIP: string, serverPort: int)
    | Uri(target: string, verb: string, version: string)
    | ServerName(name: string)
    | RequestHeader(header: Header)
    | RequestHeaders
    | WriteRequestBody(data: string)
    | RequestBody
    | ResponseHeader(header: Header)
    | ResponseHeaders(status: int, proto: string)
    | WriteResponseBody(data: string)
    | ResponseBody
    | Logging
    | Close

  /** The answers of a deterministic engine, given all calls up to and including the last. */
  datatype Engine = Engine(
    opens: string -> bool,
    intervenes: seq<Call> -> Option<Intervention>,
    fails: seq<Call> -> bool,
    matched: seq<Call> -> seq<MatchedRule>,
    anomaly: seq<Call> -> (int, int),
    anomalyOutbound: seq<Call> -> (int, int))

  predicate MayFail(c: Call) {
    c.WriteRequestBody? || c.RequestBody? || c.WriteResponseBody? || c.ResponseBody?
  }

  // ------------------------------------------------------------------ small conversions

  function RequestTarget(uri: string, args: string): string {
    if args == "" then uri else uri + "?" + args
  }

  function ProtocolVersion(v: string): string {
    if v == "" then "1.1" else if "HTTP/" <= v then v[5..] else v
  }

  /** The index of the last `c` in `s`, or -1. */
  function LastIndex(s: string, c: char): (i: int)
    ensures -1 <= i < |s|
    ensures i >= 0 ==> s[i] == c
    ensures forall j :: i < j < |s| ==> s[j] != c
  {
    if s == "" then -1
    else if s[|s| - 1] == c then |s| - 1
    else LastIndex(s[..|s| - 1], c)
  }

  function Hostname(host: string): string {
    var i := LastIndex(host, ':');
    if i != -1 && ']' !in host[i..] then host[..i] else host
  }

  // ------------------------------------------------------------------ scripts

  function Headers(hs: seq<Header>, request: bool): seq<Call> {
    seq(|hs|, i requires 0 <= i < |hs| => if request then RequestHeader(hs[i]) else ResponseHeader(hs[i]))
  }

  /** The calls up to the evaluation of the request headers (phase 1). */
  function Phase1(i: Input): seq<Call> {
    [Connection(i.clientIP, i.clientPort, i.serverIP, i.serverPort),
     Uri(RequestTarget(i.uri, i.args), i.verb, ProtocolVersion(i.version))]
    + (if i.host != "" then [ServerName(Hostname(i.host))] else [])
    + Headers(i.headers, true) + [RequestHeaders]
  }

  function Phase2(i: Input): seq<Call> {
    (if |i.body| > 0 then [WriteRequestBody(i.body)] else []) + [RequestBody]
  }

  function Phase3(r: ResponseInput, proto: string): seq<Call> {
    Headers(r.headers, false) + [ResponseHeaders(r.status, proto)]
  }

  function Phase4(r: ResponseInput): seq<Call> {
    (if |r.body| > 0 then [WriteResponseBody(r.body)] else []) + [ResponseBody]
  }

  function RequestScript(i: Input): seq<Call> {
    Phase1(i) + Phase2(i)
  }

  function ResponseScript(r: ResponseInput, proto: string): seq<Call> {
    Phase3(r, proto) + Phase4(r)
  }

  /** Runs `script` on a transaction that has seen `log`, stopping after a call that fails. */
  function Played(e: Engine, log: seq<Call>, script: seq<Call>): (out: (seq<Call>, bool))
    ensures log <= out.0
    ensures out.1 ==> out.0 == log + script
    decreases |script|
  {
    if script == [] then (log, true)
    else
      var next := log + [script[0]];
      if MayFail(script[0]) && e.fails(next) then (next, false) else Played(e, next, script[1..])
  }

  lemma {:induction false} PlayedConcat(e: Engine, log: seq<Call>, a: seq<Call>, b: seq<Call>)
    ensures Played(e, log, a + b) == if Played(e, log, a).1 then Played(e, log + a, b) else Played(e, log, a)
    decreases |a|
  {
    if a == [] {
      assert a + b == b && log + a == log;
    } else {
      var next := log + [a[0]];
      assert (a + b)[1..] == a[1..] + b && log + a == next + a[1..];
      PlayedConcat(e, next, a[1..], b);
    }
  }

  /** A call that cannot fail is simply added. */
  lemma PlayedOne(e: Engine, log: seq<Call>, c: Call)
    ensures Played(e, log, [c]) == (log + [c], !(MayFail(c) && e.fails(log + [c])))
  {
    assert [c][1..] == [];
  }

  function FirstOf(a: Option<Intervention>, b: Option<Intervention>): Option<Intervention> {
    if a.Some? then a else b
  }

  /** The rules matched in phases lo to hi, in the engine's order. */
  function InPhases(all: seq<MatchedRule>, lo: int, hi: int): seq<MatchedRule> {
    if all == [] then []
    else
      var n := |all| - 1;
      InPhases(all[..n], lo, hi) + if lo <= all[n].phase <= hi then [all[n]] else []
  }

  lemma {:induction false} InPhasesMembers(all: seq<MatchedRule>, lo: int, hi: int)
    ensures forall m :: m in InPhases(all, lo, hi) <==> m in all && lo <= m.phase <= hi
  {
    if all != [] {
      var n := |all| - 1;
      assert all == all[..n] + [all[n]];
      InPhasesMembers(all[..n], lo, hi);
    }
  }

  // ------------------------------------------------------------------ what the entry points do

  /** The result of an entry point: the transaction's calls, and the outcome if it succeeded.
      `NotOpened` is the engine's refusal to open a transaction. */
  datatype Ran = NotOpened | Failed(calls: seq<Call>) | Finished(calls: seq<Call>, outcome: Outcome)

  function RequestOutcome(e: Engine, i: Input, calls: seq<Call>): Outcome {
    var p1 := Phase1(i);
    var (score, threshold) := e.anomaly(calls);
    Outcome(FirstOf(e.intervenes(p1), e.intervenes(p1 + Phase2(i))), InPhases(e.matched(calls), 1, 2), score, threshold)
  }

  function ResponseOutcome(e: Engine, log: seq<Call>, r: ResponseInput, proto: string): Outcome {
    var l3 := log + Phase3(r, proto);
    var l4 := l3 + Phase4(r);
    var calls := l4 + [Logging];
    var (score, threshold) := e.anomalyOutbound(calls);
    Outcome(FirstOf(e.intervenes(l3), e.intervenes(l4)), InPhases(e.matched(calls), 3, 4), score, threshold)
  }

  /** Request phase, transaction kept open. */
  function Keep(e: Engine, i: Input): Ran {
    if !e.opens(i.rid) then NotOpened
    else
      var (calls, ok) := Played(e, [], RequestScript(i));
      if ok then Finished(calls, RequestOutcome(e, i, calls)) else Failed(calls + [Close])
  }

  /** Request phase alone. */
  function Once(e: Engine, i: Input): Ran {
    match Keep(e, i)
    case Finished(calls, _) => Finished(calls + [Logging, Close], RequestOutcome(e, i, calls + [Logging]))
    case r => r
  }

  /** Response phase on a transaction that has seen `log`. */
  function Resumed(e: Engine, log: seq<Call>, proto: string, r: ResponseInput): Ran {
    var (calls, ok) := Played(e, log, ResponseScript(r, proto));
    if ok then Finished(calls + [Logging, Close], ResponseOutcome(e, log, r, proto)) else Failed(calls + [Close])
  }

  /** Both phases replayed from the two inputs: one script, stopped at the first failure. */
  function Replayed(e: Engine, i: Input, r: ResponseInput): Ran {
    var proto := ProtocolVersion(i.version);
    if !e.opens(i.rid) then NotOpened
    else
      var (calls, ok) := Played(e, [], RequestScript(i) + ResponseScript(r, proto) + [Logging]);
      if ok then Finished(calls + [Close], ResponseOutcome(e, RequestScript(i), r, proto)) else Failed(calls + [Close])
  }

  /** Resuming a kept transaction is replaying both phases: the same calls in the same order,
      the same outcome, and the same failures. */
  lemma ResumeIsReplay(e: Engine, i: Input, r: ResponseInput)
    ensures Replayed(e, i, r) == match Keep(e, i)
      case Finished(calls, _) => Resumed(e, calls, ProtocolVersion(i.version), r)
      case failure => failure
  {
    var proto := ProtocolVersion(i.version);
    var req, rsp := RequestScript(i), ResponseScript(r, proto);
    PlayedConcat(e, [], req + rsp, [Logging]);
    PlayedConcat(e, [], req, rsp);
    assert [] + req == req;
    assert [] + (req + rsp) == req + rsp;
    PlayedOne(e, req + rsp, Logging);
    assert (req + rsp + [Logging]) + [Close] == (req + rsp) + [Logging, Close];
  }

  /** Where a call stands in a transaction's life. */
  function Rank(c: Call): nat {
    match c
    case Connection(_, _, _, _) => 0
    case Uri(_, _, _) => 1
    case ServerName(_) => 2
    case RequestHeader(_) => 3
    case RequestHeaders => 4
    case WriteRequestBody(_) => 5
    case RequestBody => 6
    case ResponseHeader(_) => 7
    case ResponseHeaders(_, _) => 8
    case WriteResponseBody(_) => 9
    case ResponseBody => 10
    case Logging => 11
    case Close => 12
  }

  ghost predicate InPhaseOrder(calls: seq<Call>) {
    forall i, j :: 0 <= i < j < |calls| ==> Rank(calls[i]) <= Rank(calls[j])
  }

  ghost predicate OneClose(calls: seq<Call>) {
    && calls != [] && calls[|calls| - 1] == Close
    && (forall i :: 0 <= i < |calls| - 1 ==> calls[i] != Close)
  }

  /** In order, with all ranks in lo..hi. */
  ghost predicate Ranked(calls: seq<Call>, lo: int, hi: int) {
    && InPhaseOrder(calls)
    && (forall i :: 0 <= i < |calls| ==> lo <= Rank(calls[i]) <= hi)
  }

  lemma Stack(a: seq<Call>, b: seq<Call>, lo: int, mid: int, hi: int)
    requires Ranked(a, lo, mid) && Ranked(b, mid, hi) && lo <= mid <= hi
    ensures Ranked(a + b, lo, hi)
  {
  }

  lemma Phase1Order(i: Input)
    ensures Ranked(Phase1(i), 0, 4)
  {
    var a := [Connection(i.clientIP, i.clientPort, i.serverIP, i.serverPort),
              Uri(RequestTarget(i.uri, i.args), i.verb, ProtocolVersion(i.version))];
    var b := if i.host != "" then [ServerName(Hostname(i.host))] else [];
    assert Ranked(a, 0, 1) && Ranked(b, 1, 2);
    Stack(a, b, 0, 1, 2);
    Stack(a + b, Headers(i.headers, true), 0, 2, 3);
    Stack(a + b + Headers(i.headers, true), [RequestHeaders], 0, 3, 4);
  }

  lemma RequestOrder(i: Input)
    ensures Ranked(RequestScript(i), 0, 6)
  {
    Phase1Order(i);
    assert Ranked(Phase2(i), 4, 6);
    Stack(Phase1(i), Phase2(i), 0, 4, 6);
  }

  lemma ResponseOrder(r: ResponseInput, proto: string)
    ensures Ranked(ResponseScript(r, proto), 6, 10)
  {
    Stack(Headers(r.headers, false), [ResponseHeaders(r.status, proto)], 6, 7, 8);
    Stack(Phase3(r, proto), Phase4(r), 6, 8, 10);
  }

  lemma {:induction false} PlayedPrefix(e: Engine, log: seq<Call>, script: seq<Call>)
    ensures Played(e, log, script).0 <= log + script
    decreases |script|
  {
    if script != [] {
      assert log + script == (log + [script[0]]) + script[1..];
      PlayedPrefix(e, log + [script[0]], script[1..]);
    }
  }

  /** Whatever fails, a replayed or resumed transaction sees its calls in phase order and is
      closed exactly once, at the end. */
  lemma ReplayIsOrderly(e: Engine, i: Input, r: ResponseInput)
    ensures Replayed(e, i, r) != NotOpened ==> InPhaseOrder(Replayed(e, i, r).calls) && OneClose(Replayed(e, i, r).calls)
  {
    var proto := ProtocolVersion(i.version);
    var both := RequestScript(i) + ResponseScript(r, proto);
    var calls := Played(e, [], both + [Logging]).0;
    RequestOrder(i);
    ResponseOrder(r, proto);
    Stack(RequestScript(i), ResponseScript(r, proto), 0, 6, 10);
    Stack(both, [Logging], 0, 10, 11);
    PlayedPrefix(e, [], both + [Logging]);
    assert [] + (both + [Logging]) == both + [Logging];
    ClosedPrefix(both + [Logging], calls);
  }

  lemma ClosedPrefix(all: seq<Call>, calls: seq<Call>)
    requires Ranked(all, 0, 11) && calls <= all
    ensures InPhaseOrder(calls + [Close]) && OneClose(calls + [Close])
  {
    assert forall i :: 0 <= i < |calls| ==> calls[i] == all[i];
    Stack(calls, [Close], 0, 11, 12);
  }

  /** The two phases report disjoint match lists, each complete for its phases. */
  lemma MatchesAreSplit(e: Engine, i: Input, r: ResponseInput, m: MatchedRule)
    requires Keep(e, i).Finished? && Replayed(e, i, r).Finished?
    ensures !(m in Keep(e, i).outcome.matched && m in Replayed(e, i, r).outcome.matched)
    ensures m in Keep(e, i).outcome.matched <==> m in e.matched(Keep(e, i).calls) && 1 <= m.phase <= 2
    ensures var calls := Replayed(e, i, r).calls;
      m in Replayed(e, i, r).outcome.matched <==> m in e.matched(calls[..|calls| - 1]) && 3 <= m.phase <= 4
  {
    InPhasesMembers(e.matched(Keep(e, i).calls), 1, 2);
    ReplayedInFull(e, i, r);
    InPhasesMembers(e.matched(BothScripts(i, r)), 3, 4);
  }

  function BothScripts(i: Input, r: ResponseInput): seq<Call> {
    RequestScript(i) + ResponseScript(r, ProtocolVersion(i.version)) + [Logging]
  }

  lemma ReplayedInFull(e: Engine, i: Input, r: ResponseInput)
    requires Replayed(e, i, r).Finished?
    ensures Replayed(e, i, r).calls[..|Replayed(e, i, r).calls| - 1] == BothScripts(i, r)
    ensures Replayed(e, i, r).outcome.matched == InPhases(e.matched(BothScripts(i, r)), 3, 4)
  {
    var all := BothScripts(i, r);
    PlayedAll(e, [], all);
    assert [] + all == all;
    WithoutLast(all, Close);
    ResponseMatches(e, RequestScript(i), r, ProtocolVersion(i.version));
  }

  lemma WithoutLast(calls: seq<Call>, last: Call)
    ensures (calls + [last])[..|calls + [last]| - 1] == calls
  {
  }

  lemma ResponseMatches(e: Engine, log: seq<Call>, r: ResponseInput, proto: string)
    ensures ResponseOutcome(e, log, r, proto).matched == InPhases(e.matched(log + ResponseScript(r, proto) + [Logging]), 3, 4)
  {
    assert log + Phase3(r, proto) + Phase4(r) == log + (Phase3(r, proto) + Phase4(r));
  }

  /** A script that does not fail is made in full. */
  lemma {:induction false} PlayedAll(e: Engine, log: seq<Call>, script: seq<Call>)
    requires Played(e, log, script).1
    ensures Played(e, log, script).0 == log + script
    decreases |script|
  {
    if script == [] {
      assert log + script == log;
    } else {
      assert log + script == (log + [script[0]]) + script[1..];
      PlayedAll(e, log + [script[0]], script[1..]);
    }
  }
}
