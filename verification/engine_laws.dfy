/** What a transaction is told and what its outcome reports, call by call: the laws a run of the
    engine obeys, said of the message's own fields and of the positions of the calls. */
module EngineLaws {
  import opened Common
  import opened EngineSpec
  import opened Sequences

  // ------------------------------------------------------------------ small conversions

  /** The version named without its protocol; 1.1 if none is named. */
  predicate NamesVersion(v: string, proto: string) {
    if v == "" then proto == "1.1"
    else if "HTTP/" <= v then v == "HTTP/" + proto
    else proto == v
  }

  lemma VersionIsNamed(v: string)
    ensures NamesVersion(v, ProtocolVersion(v))
  {
  }

  /** A host without its port: what follows the last colon is one unless it holds a bracket. */
  lemma HostnameDropsPort(name: string, port: string)
    requires ':' !in port && ']' !in port
    ensures Hostname(name + ":" + port) == name
  {
    var host := name + ":" + port;
    var i := LastIndex(host, ':');
    assert host[|name|] == ':' && i >= |name|;
    assert forall j :: |name| < j < |host| ==> host[j] == port[j - |name| - 1];
    assert host[i..] == ":" + port;
  }

  lemma HostnameKeepsName(host: string)
    requires ':' !in host || (exists i :: 0 <= i < |host| && host[i] == ']' && ':' !in host[i..])
    ensures Hostname(host) == host
  {
    var i := LastIndex(host, ':');
    if i != -1 {
      var k :| 0 <= k < |host| && host[k] == ']' && ':' !in host[k..];
      assert forall j :: k <= j < |host| ==> host[k..][j - k] == host[j];
      assert host[i..][k - i] == ']';
    }
  }

  // ------------------------------------------------------------------ what the engine is told

  /** The number of calls up to the evaluation of the request headers, and of the request body. */
  function HeadersEnd(h: Input): nat {
    (if h.host == "" then 2 else 3) + |h.headers| + 1
  }

  function RequestEnd(h: Input, body: string): nat {
    HeadersEnd(h) + if body == "" then 1 else 2
  }

  /** The calls begin by telling the whole request: the connection, the target, the server, each
      header in order, and the body if there is one. */
  ghost predicate TellsRequest(h: Input, body: string, calls: seq<Call>) {
    var n := HeadersEnd(h);
    && |calls| >= RequestEnd(h, body)
    && calls[0] == Connection(h.clientIP, h.clientPort, h.serverIP, h.serverPort)
    && calls[1].Uri? && calls[1].verb == h.verb && NamesVersion(h.version, calls[1].version)
    && calls[1].target == (if h.args == "" then h.uri else h.uri + "?" + h.args)
    && (h.host != "" ==> calls[2] == ServerName(Hostname(h.host)))
    && (forall k :: 0 <= k < |h.headers| ==> calls[n - 1 - |h.headers| + k] == RequestHeader(h.headers[k]))
    && calls[n - 1] == RequestHeaders
    && (body != "" ==> calls[n] == WriteRequestBody(body))
    && calls[RequestEnd(h, body) - 1] == RequestBody
  }

  function ResponseHeadersEnd(from: nat, headers: seq<Header>): nat {
    from + |headers| + 1
  }

  function ResponseEnd(from: nat, headers: seq<Header>, body: string): nat {
    ResponseHeadersEnd(from, headers) + if body == "" then 1 else 2
  }

  /** From call `from` on the calls tell the whole response, and end there but for the closing: each
      header in order, the status, and the body if there is one. */
  ghost predicate TellsResponse(status: int, headers: seq<Header>, body: string, from: nat, calls: seq<Call>) {
    var n, end := ResponseHeadersEnd(from, headers), ResponseEnd(from, headers, body);
    && |calls| == end + 2
    && (forall k :: 0 <= k < |headers| ==> calls[from + k] == ResponseHeader(headers[k]))
    && calls[n - 1].ResponseHeaders? && calls[n - 1].status == status
    && (body != "" ==> calls[n] == WriteResponseBody(body))
    && calls[end - 1] == ResponseBody && calls[end] == Logging && calls[end + 1] == Close
  }

  lemma ScriptTells(i: Input)
    ensures TellsRequest(i, i.body, RequestScript(i))
    ensures |Phase1(i)| == HeadersEnd(i) && |RequestScript(i)| == RequestEnd(i, i.body)
  {
    var host := if i.host != "" then [ServerName(Hostname(i.host))] else [];
    var start := [Connection(i.clientIP, i.clientPort, i.serverIP, i.serverPort),
                  Uri(RequestTarget(i.uri, i.args), i.verb, ProtocolVersion(i.version))] + host;
    assert Phase1(i) == start + Headers(i.headers, true) + [RequestHeaders];
    assert |start| == HeadersEnd(i) - 1 - |i.headers|;
    VersionIsNamed(i.version);
  }

  /** Whatever is called next, what has been told stays told. */
  lemma StaysTold(h: Input, body: string, calls: seq<Call>, all: seq<Call>)
    requires TellsRequest(h, body, calls) && calls <= all
    ensures TellsRequest(h, body, all)
  {
  }

  lemma KeepRuns(e: Engine, i: Input)
    requires Keep(e, i).Finished?
    ensures Keep(e, i) == Finished(RequestScript(i), RequestOutcome(e, i, RequestScript(i)))
  {
    assert [] + RequestScript(i) == RequestScript(i);
  }

  lemma OnceRuns(e: Engine, i: Input)
    requires Once(e, i).Finished?
    ensures Once(e, i) == Finished(RequestScript(i) + [Logging, Close], RequestOutcome(e, i, RequestScript(i) + [Logging]))
  {
    KeepRuns(e, i);
  }

  /** A request phase that finishes has told the engine the whole request. */
  lemma KeepTells(e: Engine, i: Input)
    requires Keep(e, i).Finished?
    ensures TellsRequest(i, i.body, Keep(e, i).calls) && |Keep(e, i).calls| == RequestEnd(i, i.body)
  {
    KeepRuns(e, i);
    ScriptTells(i);
  }

  lemma OnceTells(e: Engine, i: Input)
    requires Once(e, i).Finished?
    ensures TellsRequest(i, i.body, Once(e, i).calls)
  {
    OnceRuns(e, i);
    ScriptTells(i);
    StaysTold(i, i.body, RequestScript(i), Once(e, i).calls);
  }

  lemma ResponseScriptTells(log: seq<Call>, r: ResponseInput, proto: string)
    ensures TellsResponse(r.status, r.headers, r.body, |log|, log + ResponseScript(r, proto) + [Logging, Close])
    ensures |log + Phase3(r, proto)| == ResponseHeadersEnd(|log|, r.headers)
    ensures |log + ResponseScript(r, proto)| == ResponseEnd(|log|, r.headers, r.body)
  {
    assert Phase3(r, proto) == Headers(r.headers, false) + [ResponseHeaders(r.status, proto)];
  }

  /** A resumed response phase that finishes has told the engine the whole response, after all that
      the kept transaction had seen. */
  lemma ResumedTells(e: Engine, log: seq<Call>, proto: string, r: ResponseInput)
    requires Resumed(e, log, proto, r).Finished?
    ensures log <= Resumed(e, log, proto, r).calls
    ensures TellsResponse(r.status, r.headers, r.body, |log|, Resumed(e, log, proto, r).calls)
  {
    ResponseScriptTells(log, r, proto);
  }

  lemma InTwo(e: Engine, i: Input, r: ResponseInput)
    requires Replayed(e, i, r).Finished?
    ensures Keep(e, i).Finished?
    ensures Replayed(e, i, r) == Resumed(e, Keep(e, i).calls, ProtocolVersion(i.version), r)
  {
    ResumeIsReplay(e, i, r);
  }

  /** A replay that finishes has told the engine the whole request and then the whole response. */
  lemma ReplayedTells(e: Engine, i: Input, r: ResponseInput)
    requires Replayed(e, i, r).Finished?
    ensures TellsRequest(i, i.body, Replayed(e, i, r).calls)
    ensures TellsResponse(r.status, r.headers, r.body, RequestEnd(i, i.body), Replayed(e, i, r).calls)
  {
    InTwo(e, i, r);
    KeepTells(e, i);
    ResumedTells(e, Keep(e, i).calls, ProtocolVersion(i.version), r);
    StaysTold(i, i.body, Keep(e, i).calls, Replayed(e, i, r).calls);
  }

  // ------------------------------------------------------------------ what an outcome reports

  /** `out` reports the intervention of the evaluation that ends at call n if there was one, and
      otherwise that of the evaluation that ends at call m. */
  predicate Reports(e: Engine, out: Outcome, calls: seq<Call>, n: nat, m: nat)
    requires n <= m <= |calls|
  {
    out.intervention == if e.intervenes(calls[..n]).Some? then e.intervenes(calls[..n]) else e.intervenes(calls[..m])
  }

  lemma ReportsOn(e: Engine, i: Input, out: Outcome, all: seq<Call>)
    requires RequestScript(i) <= all
    requires out.intervention == FirstOf(e.intervenes(Phase1(i)), e.intervenes(RequestScript(i)))
    ensures |all| >= RequestEnd(i, i.body) && Reports(e, out, all, HeadersEnd(i), RequestEnd(i, i.body))
  {
    ScriptTells(i);
    assert all[..|RequestScript(i)|] == RequestScript(i);
    assert all[..HeadersEnd(i)] == Phase1(i);
  }

  /** A request phase reports the request's anomaly score, read once all its calls are made, and its
      first intervention. */
  lemma KeepReports(e: Engine, i: Input)
    requires Keep(e, i).Finished?
    ensures var Finished(calls, out) := Keep(e, i);
      && |calls| == RequestEnd(i, i.body) && (out.score, out.threshold) == e.anomaly(calls)
      && Reports(e, out, calls, HeadersEnd(i), RequestEnd(i, i.body))
  {
    KeepRuns(e, i);
    ScriptTells(i);
    ReportsOn(e, i, Keep(e, i).outcome, RequestScript(i));
  }

  /** So does one that is not kept, before its transaction is closed. */
  lemma OnceReports(e: Engine, i: Input)
    requires Once(e, i).Finished?
    ensures var Finished(calls, out) := Once(e, i);
      && |calls| == RequestEnd(i, i.body) + 2 && (out.score, out.threshold) == e.anomaly(calls[..|calls| - 1])
      && Reports(e, out, calls, HeadersEnd(i), RequestEnd(i, i.body))
  {
    OnceRuns(e, i);
    ScriptTells(i);
    var all := RequestScript(i) + [Logging, Close];
    assert all[..|all| - 1] == RequestScript(i) + [Logging];
    ReportsOn(e, i, Once(e, i).outcome, all);
  }

  /** A resumed response phase reports the response's anomaly score, and the first intervention of its
      own evaluations. */
  lemma ResumedReports(e: Engine, log: seq<Call>, proto: string, r: ResponseInput)
    requires Resumed(e, log, proto, r).Finished?
    ensures var Finished(calls, out) := Resumed(e, log, proto, r);
      && |calls| == ResponseEnd(|log|, r.headers, r.body) + 2
      && (out.score, out.threshold) == e.anomalyOutbound(calls[..|calls| - 1])
      && Reports(e, out, calls, ResponseHeadersEnd(|log|, r.headers), ResponseEnd(|log|, r.headers, r.body))
  {
    var l3, l4 := log + Phase3(r, proto), log + ResponseScript(r, proto);
    ResponseScriptTells(log, r, proto);
    assert l3 + Phase4(r) == l4;
    var all := l4 + [Logging, Close];
    assert all[..|l3|] == l3 && all[..|l4|] == l4 && all[..|all| - 1] == l4 + [Logging];
  }

  /** So does a replay. */
  lemma ReplayReports(e: Engine, i: Input, r: ResponseInput)
    requires Replayed(e, i, r).Finished?
    ensures var Finished(calls, out) := Replayed(e, i, r);
      var from := RequestEnd(i, i.body);
      && |calls| == ResponseEnd(from, r.headers, r.body) + 2
      && (out.score, out.threshold) == e.anomalyOutbound(calls[..|calls| - 1])
      && Reports(e, out, calls, ResponseHeadersEnd(from, r.headers), ResponseEnd(from, r.headers, r.body))
  {
    InTwo(e, i, r);
    KeepTells(e, i);
    ResumedReports(e, Keep(e, i).calls, ProtocolVersion(i.version), r);
  }

  /** The matches reported are those of the phases, as often as they occur and in the engine's order. */
  lemma {:induction false} MatchesInOrder(all: seq<MatchedRule>, lo: int, hi: int)
    ensures Subsequence(InPhases(all, lo, hi), all)
    ensures forall m :: multiset(InPhases(all, lo, hi))[m] == if lo <= m.phase <= hi then multiset(all)[m] else 0
  {
    if all != [] {
      var n := |all| - 1;
      var init, m := all[..n], all[n];
      assert all == init + [m];
      MatchesInOrder(init, lo, hi);
      SubsequencePush(InPhases(init, lo, hi), init, m);
      assert InPhases(init, lo, hi) + [] == InPhases(init, lo, hi);
    }
  }
}
