/** The request and response phases as code: the handler on real transactions and the real
    registry. What the message, the configuration and the network decide comes as arguments. A
    transaction can be used and closed only while it is open, so verification shows that no path
    of either phase uses one after closing it, closes one twice, or drops one it still holds. Each
    call also names the path it took, and does to the registry and the transaction what that path
    of the ownership protocol does. */
module HandlerPhases {
  import opened Common
  import opened EngineSpec
  import opened EngineApply
  import opened EngineLaws
  import opened StickySpec
  import opened StickyRegistry
  import opened KeptTransactions
  import opened HandlerReplies
  import HandlerPaths
  import LifecycleMachine
  import PriorLedger
  import VerdictReply

  /** A rebuilt transaction is played from the request without its body, so it sees what the kept
      one saw exactly when the request had none. */
  lemma RebuildSeesTheRequest(i: Input)
    ensures RequestScript(i.(body := "")) == RequestScript(i) <==> i.body == ""
  {
    var j := i.(body := "");
    assert Phase1(j) == Phase1(i);
    assert |RequestScript(i)| == |Phase1(i)| + |Phase2(i)|;
    if i.body == "" {
      assert j == i;
    } else {
      assert |Phase2(j)| == 1 && |Phase2(i)| == 2;
    }
  }

  /** Resuming a kept transaction and rebuilding one come to the same if the request has no body. */
  lemma ResumeOrRebuild(e: Engine, i: Input, r: ResponseInput)
    requires Keep(e, i).Finished? && i.body == ""
    ensures Resumed(e, Keep(e, i).calls, ProtocolVersion(i.version), r) == Replayed(e, i.(body := ""), r)
  {
    ResumeIsReplay(e, i, r);
    assert i.(body := "") == i;
  }

  /** A transaction has the life the path says: opened or not, closed or not. */
  ghost predicate Lived(tx: Transaction?, life: seq<LifecycleMachine.TxOp>)
    reads tx
  {
    if life == [] then tx == null else tx != null && (tx.open <==> LifecycleMachine.Closing !in life)
  }

  /** A run of the request phase that finishes has told the engine the whole message, body included. */
  lemma ToldTheRequest(e: Engine, msg: Message, log: seq<Call>)
    requires RanOn(e, msg).Finished? && RanOn(e, msg).calls <= log
    ensures TellsRequest(msg.head, msg.body.data, log)
  {
    var i := InputOf(msg);
    RanTells(e, i, msg.token.Some?);
    StaysTold(i, i.body, RanOn(e, msg).calls, log);
    OfTheMessage(msg.head, msg.body.data, log);
  }

  lemma JudgedIsTold(p: Policy, e: Engine, msg: Message, published: bool, ans: Answer, made: Transaction?)
    requires Follows(p, RanOn(e, msg), msg.prior, Some(msg.fill), msg.head.clientIP, published, ans)
    requires RanOn(e, msg).Finished? ==> made != null && RanOn(e, msg).calls <= made.log
    ensures Unjudged(ans) || (made != null && TellsRequest(msg.head, msg.body.data, made.log))
  {
    if RanOn(e, msg).Finished? {
      ToldTheRequest(e, msg, made.log);
    }
  }

  lemma EarlyIsUnjudged(p: Policy, resumed: bool, known: bool, msg: ResponseMessage)
    ensures EarlyResponse(p, resumed, known, msg).Some? ==> Unjudged(Bare(EarlyResponse(p, resumed, known, msg).value))
  {
  }

  lemma RanTells(e: Engine, i: Input, keep: bool)
    requires (if keep then Keep(e, i) else Once(e, i)).Finished?
    ensures TellsRequest(i, i.body, (if keep then Keep(e, i) else Once(e, i)).calls)
  {
    if keep {
      KeepTells(e, i);
    } else {
      OnceTells(e, i);
    }
  }

  lemma OfTheMessage(head: Input, body: string, log: seq<Call>)
    requires TellsRequest(head.(body := body), body, log)
    ensures TellsRequest(head, body, log)
  {
  }

  class Handler {
    const sticky: Registry<Live>
    const policy: Policy

    constructor (sticky: Registry<Live>, policy: Policy)
      ensures this.sticky == sticky && this.policy == policy
    {
      this.sticky, this.policy := sticky, policy;
    }

    ghost function Stored(): set<Transaction>
      reads sticky
    {
      TxsOf(sticky.items)
    }

    /** Each stored transaction is open and stored once. */
    ghost predicate Valid()
      reads sticky, Stored()
    {
      && Conserved(sticky.limits, sticky.Model())
      && OneEach(sticky.items)
      && (forall t :: t in Stored() ==> t.open)
    }

    /** Park and the discards behind it: whatever leaves the registry is closed. */
    method ParkLive(rid: Token, live: Live, now: int) returns (ok: bool)
      requires Valid() && live.tx.open && live.tx !in Stored()
      modifies sticky, Stored()
      ensures Valid() && live.tx.open && live.tx.log == old(live.tx.log)
      ensures (sticky.Model(), Parked(ok)) == Lazy(sticky.limits, old(sticky.Model()), Park(rid, live, now))
      ensures ok <==> |Unexpired(old(sticky.items), now)| < sticky.limits.max
      ensures live.tx in Stored() <==> ok
      ensures Stored() <= old(Stored()) + {live.tx}
      ensures forall t :: t in old(Stored()) && t !in Stored() ==> !t.open
    {
      var dead;
      ok, dead := ParkEntry(rid, live, now);
      DiscardRest(dead);
    }

    /** The registry's part of it. */
    method ParkEntry(rid: Token, live: Live, now: int) returns (ok: bool, dead: seq<Live>)
      requires Conserved(sticky.limits, sticky.Model()) && OneEach(sticky.items) && live.tx !in Stored()
      modifies sticky
      ensures Conserved(sticky.limits, sticky.Model()) && OneEach(sticky.items)
      ensures (sticky.Model(), Parked(ok)) == Lazy(sticky.limits, old(sticky.Model()), Park(rid, live, now))
      ensures ok <==> |Unexpired(old(sticky.items), now)| < sticky.limits.max
      ensures Apart(dead) && Txs(dead) <= old(Stored())
      ensures old(Stored()) <= Stored() + Txs(dead) && Stored() !! Txs(dead)
      ensures Stored() <= old(Stored()) + {live.tx} && (live.tx in Stored() <==> ok)
    {
      ghost var keys;
      ok, keys, dead := ParkItem(rid, live, now);
      ParkMoves(sticky.limits, old(sticky.items), rid, live, now, keys, dead, sticky.items);
    }

    method ParkItem(rid: Token, live: Live, now: int) returns (ok: bool, ghost keys: seq<Token>, dead: seq<Live>)
      requires Conserved(sticky.limits, sticky.Model())
      modifies sticky
      ensures Conserved(sticky.limits, sticky.Model())
      ensures (sticky.Model(), Parked(ok)) == Lazy(sticky.limits, old(sticky.Model()), Park(rid, live, now))
      ensures ok <==> |Unexpired(old(sticky.items), now)| < sticky.limits.max
      ensures sticky.items == AfterPark(sticky.limits, old(sticky.items), rid, live, now)
      ensures Lists(keys, ParkedOut(sticky.limits, old(sticky.items), rid, now)) && Carries(old(sticky.items), keys, dead)
    {
      ParkItems(sticky.limits, sticky.Model(), rid, live, now);
      ok, keys, dead := sticky.Park(rid, live, now);
    }

    /** The kept transaction a token finds. */
    ghost function Found(token: Option<Token>, now: int): (live: Option<Live>)
      reads sticky
      ensures live.Some? ==> live.value.tx in Stored()
    {
      HandlerPaths.FoundIn(sticky.Model(), token, now)
    }

    /** Hands a stored transaction over, if it is still there. */
    method ResumeState(token: Option<Token>, now: int) returns (live: Option<Live>)
      requires Valid()
      modifies sticky, Stored()
      ensures Valid() && Stored() <= old(Stored())
      ensures live == old(Found(token, now))
      ensures sticky.Model() == HandlerPaths.ResponseReg(sticky.limits, old(sticky.Model()), token, now)
      ensures token.Some? ==> token.value !in sticky.items
      ensures live.Some? ==> live.value.tx.open && live.value.tx.log == old(live.value.tx.log)
      ensures live.Some? ==> live.value.tx in old(Stored()) && live.value.tx !in Stored()
      ensures forall t :: t in old(Stored()) && t !in Stored() ==> !t.open || (live.Some? && t == live.value.tx)
    {
      if token == None {
        return None;
      }
      live := ResumeToken(token.value, now);
    }

    method ResumeToken(rid: Token, now: int) returns (live: Option<Live>)
      requires Valid()
      modifies sticky, Stored()
      ensures Valid() && Stored() <= old(Stored()) && rid !in sticky.items
      ensures live == old(Found(Some(rid), now))
      ensures sticky.Model() == Lazy(sticky.limits, old(sticky.Model()), Take(rid, now)).0
      ensures live.Some? ==> live.value.tx.open && live.value.tx.log == old(live.value.tx.log)
      ensures live.Some? ==> live.value.tx in old(Stored()) && live.value.tx !in Stored()
      ensures forall t :: t in old(Stored()) && t !in Stored() ==> !t.open || (live.Some? && t == live.value.tx)
    {
      var dead;
      live, dead := TakeEntry(rid, now);
      DiscardRest(dead);
    }

    /** Discards what has left the registry; what is still there stays open. */
    method DiscardRest(dead: seq<Live>)
      requires Conserved(sticky.limits, sticky.Model()) && OneEach(sticky.items)
      requires Apart(dead) && Stored() !! Txs(dead) && forall t :: t in Stored() || t in Txs(dead) ==> t.open
      modifies Txs(dead)
      ensures Valid() && forall t :: t in Txs(dead) ==> !t.open
    {
      DiscardEach(dead);
    }

    /** The registry's part of it. */
    method TakeEntry(rid: Token, now: int) returns (live: Option<Live>, dead: seq<Live>)
      requires Conserved(sticky.limits, sticky.Model()) && OneEach(sticky.items)
      modifies sticky
      ensures Conserved(sticky.limits, sticky.Model()) && OneEach(sticky.items) && rid !in sticky.items
      ensures live == old(Found(Some(rid), now))
      ensures sticky.Model() == Lazy(sticky.limits, old(sticky.Model()), Take(rid, now)).0
      ensures Apart(dead) && Txs(dead) <= old(Stored()) && Stored() <= old(Stored()) && Stored() !! Txs(dead)
      ensures live.Some? ==> live.value.tx in old(Stored()) && live.value.tx !in Stored() && dead == []
      ensures old(Stored()) <= Stored() + Txs(dead) + if live.Some? then {live.value.tx} else {}
    {
      ghost var before := sticky.items;
      live, dead := sticky.Take(rid, now);
      if rid in before {
        RemovingOne(before, rid);
      }
    }

    method ReleaseState(token: Token, ghost now: int)
      requires Valid()
      modifies sticky, Stored()
      ensures Valid() && token !in sticky.items && Stored() <= old(Stored())
      ensures sticky.Model() == Lazy(sticky.limits, old(sticky.Model()), Drop(token, now)).0
      ensures forall t :: t in old(Stored()) && t !in Stored() ==> !t.open
    {
      var dead := DropEntry(token, now);
      DiscardRest(dead);
    }

    /** The registry's part of it. */
    method DropEntry(rid: Token, ghost now: int) returns (dead: seq<Live>)
      requires Conserved(sticky.limits, sticky.Model()) && OneEach(sticky.items)
      modifies sticky
      ensures Conserved(sticky.limits, sticky.Model()) && OneEach(sticky.items) && rid !in sticky.items
      ensures sticky.Model() == Lazy(sticky.limits, old(sticky.Model()), Drop(rid, now)).0
      ensures Apart(dead) && Txs(dead) <= old(Stored()) && Stored() <= old(Stored()) && Stored() !! Txs(dead)
      ensures old(Stored()) <= Stored() + Txs(dead)
    {
      ghost var before := sticky.items;
      dead := sticky.Drop(rid, now);
      if rid in before {
        RemovingOne(before, rid);
      }
    }

    /** Parks a kept transaction and offers to continue on it, or closes it. */
    method OfferContinue(token: Token, reply: VerdictReply.Reply, live: Live, now: int)
      returns (offered: bool, ghost path: HandlerPaths.RequestPath)
      requires Valid() && live.tx.open && live.tx !in Stored()
      modifies sticky, Stored(), live.tx
      ensures Valid()
      ensures path == if EndsRequest(reply) then HandlerPaths.Refused
                      else if |Unexpired(old(sticky.items), now)| < sticky.limits.max then HandlerPaths.Stored
                      else HandlerPaths.Full
      ensures sticky.Model() == HandlerPaths.RequestReg(sticky.limits, old(sticky.Model()), path, Some(token), live, now)
      ensures (offered <==> path.Stored?) && (live.tx in Stored() <==> offered) && Lived(live.tx, HandlerPaths.LifeOf(path))
      ensures live.tx.log == old(live.tx.log) + if offered then [] else [EngineSpec.Close]
      ensures Stored() <= old(Stored()) + {live.tx}
      ensures forall t :: t in old(Stored()) && t !in Stored() ==> !t.open
    {
      if EndsRequest(reply) {
        Discard(live);
        return false, HandlerPaths.Refused;
      }
      offered, path := ParkOrClose(token, live, now);
    }

    method ParkOrClose(token: Token, live: Live, now: int) returns (offered: bool, ghost path: HandlerPaths.RequestPath)
      requires Valid() && live.tx.open && live.tx !in Stored()
      modifies sticky, Stored(), live.tx
      ensures Valid()
      ensures path == if |Unexpired(old(sticky.items), now)| < sticky.limits.max then HandlerPaths.Stored else HandlerPaths.Full
      ensures sticky.Model() == Lazy(sticky.limits, old(sticky.Model()), Park(token, live, now)).0
      ensures offered <==> path.Stored?
      ensures (live.tx in Stored() <==> offered) && (live.tx.open <==> offered)
      ensures live.tx.log == old(live.tx.log) + if offered then [] else [EngineSpec.Close]
      ensures Stored() <= old(Stored()) + {live.tx}
      ensures forall t :: t in old(Stored()) && t !in Stored() ==> !t.open
    {
      offered := ParkLive(token, live, now);
      path := if offered then HandlerPaths.Stored else HandlerPaths.Full;
      if !offered {
        Discard(live);
      }
    }

    /** Runs the request phases, keeping the transaction if the message wants to resume. */
    method RunRequest(e: Engine, i: Input, keep: bool)
      returns (out: Option<Outcome>, live: Option<Live>, ghost made: Transaction?)
      ensures made != null ==> fresh(made)
      ensures Shows(if keep then Keep(e, i) else Once(e, i), made, out)
      ensures live.Some? <==> keep && out.Some?
      ensures live.Some? ==> made == live.value.tx && made.open && made.engine == e && live.value.proto == ProtocolVersion(i.version)
      ensures live == None && made != null ==> !made.open
    {
      if keep {
        out, live, made := ApplyKeep(e, i);
      } else {
        out, made := Apply(e, i);
        live := None;
      }
    }

    /** The registry after a request whose transaction, if kept, is `made`. */
    ghost predicate RequestLeaves(before: Reg<Live>, msg: Message, path: HandlerPaths.RequestPath, made: Transaction?, now: int)
      reads sticky
    {
      if path.Full? || path.Stored? then
        && made != null && msg.token.Some?
        && sticky.Model() == HandlerPaths.RequestReg(sticky.limits, before, path, msg.token,
                                                     Live(made, ProtocolVersion(msg.head.version)), now)
      else sticky.Model() == before
    }

    /** The request phase. The transaction it opens, `made`, is closed on every path but one: it is
        stored under the token the message named exactly when the reply offers to continue. */
    method Inspect(eng: Option<Engine>, msg: Message, published: bool, now: int)
      returns (ans: Answer, scaling: Option<VerdictReply.Scaling>, ghost made: Transaction?, ghost path: HandlerPaths.RequestPath)
      requires Valid()
      modifies sticky, Stored()
      ensures Valid() && (made != null ==> fresh(made)) && Lived(made, HandlerPaths.LifeOf(path))
      ensures (ans.offered <==> path.Stored?) && (made != null ==> (made in Stored() <==> ans.offered))
      ensures Stored() <= old(Stored()) + if made == null then {} else {made}
      ensures forall t :: t in old(Stored()) && t !in Stored() ==> !t.open
      ensures HandlerPaths.PathFits(sticky.limits, old(sticky.Model()), path, msg.token, now)
      ensures RequestLeaves(old(sticky.Model()), msg, path, made, now)
      ensures AnswersRequest(policy, eng, msg, published, ans)
      ensures Unjudged(ans) || (made != null && TellsRequest(msg.head, msg.body.data, made.log))
      ensures ans.offered <==>
        && Early(policy, eng.Some?, msg) == None && RanOn(eng.value, msg).Finished? && published && msg.token.Some?
        && ans.reply.verdict != VerdictReply.Deny && ans.reply.verdict != VerdictReply.Redirect && |Unexpired(old(sticky.items), now)| < sticky.limits.max
      ensures ans.offered ==>
        && made != null && eng.Some? && made.engine == eng.value
        && Keep(eng.value, InputOf(msg)).Finished? && made.log == Keep(eng.value, InputOf(msg)).calls
      ensures ans.reply.verdict == VerdictReply.Score && scaling.Some? ==> ans.reply.score == Some(scaling.value.scaled)
    {
      if eng == None {
        return Bare(ErrorReply(CodeUnknownProfile)), None, null, HandlerPaths.NotOpened;
      }
      var skip, percent, _ := PriorLedger.Evaluate(msg.prior, policy.rules);
      if skip {
        return Bare(SkippedReply), None, null, HandlerPaths.NotOpened;
      }
      if BodyError(msg.body).Some? {
        return Bare(ErrorReply(BodyError(msg.body).value)), None, null, HandlerPaths.NotOpened;
      }
      ans, scaling, made, path := Carry(eng.value, percent, msg, published, now);
      JudgedIsTold(policy, eng.value, msg, published, ans, made);
    }

    /** The request phase once nothing ends it early. */
    method Carry(e: Engine, percent: int, msg: Message, published: bool, now: int)
      returns (ans: Answer, scaling: Option<VerdictReply.Scaling>, ghost made: Transaction?, ghost path: HandlerPaths.RequestPath)
      requires Valid() && percent == PriorLedger.Percent(policy.rules, msg.prior)
      modifies sticky, Stored()
      ensures Valid() && (made != null ==> fresh(made)) && Lived(made, HandlerPaths.LifeOf(path))
      ensures (ans.offered <==> path.Stored?) && (made != null ==> (made in Stored() <==> ans.offered))
      ensures Stored() <= old(Stored()) + if made == null then {} else {made}
      ensures forall t :: t in old(Stored()) && t !in Stored() ==> !t.open
      ensures HandlerPaths.PathFits(sticky.limits, old(sticky.Model()), path, msg.token, now)
      ensures RequestLeaves(old(sticky.Model()), msg, path, made, now)
      ensures Follows(policy, RanOn(e, msg), msg.prior, Some(msg.fill), msg.head.clientIP, published, ans)
      ensures RanOn(e, msg).Finished? ==> made != null && RanOn(e, msg).calls <= made.log
      ensures ans.offered <==>
        && RanOn(e, msg).Finished? && published && msg.token.Some?
        && !EndsRequest(ans.reply) && |Unexpired(old(sticky.items), now)| < sticky.limits.max
      ensures ans.offered ==>
        made != null && made.engine == e && Keep(e, InputOf(msg)).Finished? && made.log == Keep(e, InputOf(msg)).calls
      ensures ans.reply.verdict == VerdictReply.Score && scaling.Some? ==> ans.reply.score == Some(scaling.value.scaled)
    {
      var out, live;
      out, live, made := RunRequest(e, InputOf(msg), msg.token.Some?);
      StaysValid();
      if out == None {
        path := if made == null then HandlerPaths.NotOpened else HandlerPaths.Failed;
        return Bare(ErrorReply(CodeInternalError)), None, made, path;
      }
      ans, scaling, path := Conclude(out.value, live, percent, msg, published, now);
    }

    /** The request phase from the engine's outcome on. */
    method Conclude(out: Outcome, live: Option<Live>, percent: int, msg: Message, published: bool, now: int)
      returns (ans: Answer, scaling: Option<VerdictReply.Scaling>, ghost path: HandlerPaths.RequestPath)
      requires Valid()
      requires live.Some? <==> msg.token.Some?
      requires live.Some? ==> live.value.tx.open && live.value.tx !in Stored()
      modifies sticky, Stored(), if live.Some? then {live.value.tx} else {}
      ensures Valid() && (ans.offered <==> path.Stored?)
      ensures if live.Some? then
          && (live.value.tx in Stored() <==> ans.offered) && Lived(live.value.tx, HandlerPaths.LifeOf(path))
          && !path.NotOpened? && !path.Failed? && !path.NotKept?
          && sticky.Model() == HandlerPaths.RequestReg(sticky.limits, old(sticky.Model()), path, msg.token, live.value, now)
        else path.NotKept? && sticky.Model() == old(sticky.Model())
      ensures HandlerPaths.PathFits(sticky.limits, old(sticky.Model()), path, msg.token, now)
      ensures Stored() <= old(Stored()) + if live.Some? then {live.value.tx} else {}
      ensures forall t :: t in old(Stored()) && t !in Stored() ==> !t.open
      ensures live.Some? ==> live.value.tx.log == old(live.value.tx.log) + if ans.offered then [] else [EngineSpec.Close]
      ensures ans.offered <==>
        && published && live.Some? && !EndsRequest(ans.reply) && |Unexpired(old(sticky.items), now)| < sticky.limits.max
      ensures exists j :: Judged(policy, out, percent, Some(msg.fill), msg.head.clientIP, j) && ans == Answered(j, published, ans.offered)
      ensures ans.reply.verdict == VerdictReply.Score && scaling.Some? ==> ans.reply.score == Some(scaling.value.scaled)
    {
      var j;
      j, scaling := Judge(policy, out, percent, Some(msg.fill), msg.head.clientIP);
      var offered := false;
      path := HandlerPaths.NotKept(published);
      if live.Some? {
        if published {
          offered, path := OfferContinue(msg.token.value, j.reply, live.value, now);
        } else {
          Discard(live.value);
          path := HandlerPaths.NotPublished;
        }
      }
      ans := Answered(j, published, offered);
    }

    /** Resumes the kept transaction, or rebuilds one; either is closed. */
    method RunResponse(live: Option<Live>, eng: Option<Engine>, msg: ResponseMessage)
      returns (out: Option<Outcome>, ghost made: Transaction?)
      requires if live.Some? then live.value.tx.open else eng.Some?
      modifies if live.Some? then {live.value.tx} else {}
      ensures live.Some? ==> !live.value.tx.open && made == null
      ensures made != null ==> fresh(made) && !made.open
      ensures live == None && out.Some? ==> made != null
      ensures Shows(RanFrom(live, old(LogOf(live)), eng, msg), if live.Some? then live.value.tx else made, out)
      ensures out.Some? ==> Logs(RanFrom(live, old(LogOf(live)), eng, msg), EndLog(live, made))
    {
      if live.Some? {
        out := Resume(live.value, ResponseOf(msg));
        made := null;
      } else {
        out, made := ApplyResponse(eng.value, msg.head.(body := ""), ResponseOf(msg));
      }
    }

    ghost function LogOf(live: Option<Live>): seq<Call>
      reads if live.Some? then {live.value.tx} else {}
    {
      if live.Some? then live.value.tx.log else []
    }

    /** The run finished, with these calls. */
    ghost predicate Logs(ran: Ran, log: seq<Call>) {
      ran.Finished? && ran.calls == log
    }

    /** The calls on the transaction that was resumed, or on the one made. */
    ghost function EndLog(live: Option<Live>, made: Transaction?): seq<Call>
      reads if live.Some? then {live.value.tx} else {}, made
    {
      if live.Some? then live.value.tx.log else if made != null then made.log else []
    }

    /** The engine has been told the whole response, after what a kept transaction had seen or after
        the request without its body. */
    ghost predicate ToldResponse(live: Option<Live>, seen: seq<Call>, msg: ResponseMessage, log: seq<Call>) {
      if live.Some? then
        seen <= log && TellsResponse(msg.status, msg.headers, msg.body.data, |seen|, log)
      else
        TellsRequest(msg.head, "", log) && TellsResponse(msg.status, msg.headers, msg.body.data, RequestEnd(msg.head, ""), log)
    }

    lemma ToldTheResponse(live: Option<Live>, seen: seq<Call>, eng: Option<Engine>, msg: ResponseMessage)
      requires RanFrom(live, seen, eng, msg).Finished?
      ensures ToldResponse(live, seen, msg, RanFrom(live, seen, eng, msg).calls)
    {
      if live.Some? {
        ResumedTells(live.value.tx.engine, seen, live.value.proto, ResponseOf(msg));
      } else {
        ReplayedTells(eng.value, msg.head.(body := ""), ResponseOf(msg));
        OfTheMessage(msg.head, "", RanFrom(live, seen, eng, msg).calls);
      }
    }

    /** The run of the response phases, on a kept transaction that has seen `log` or on a rebuilt
        one. */
    ghost function RanFrom(live: Option<Live>, log: seq<Call>, eng: Option<Engine>, msg: ResponseMessage): Ran {
      if live.Some? then Resumed(live.value.tx.engine, log, live.value.proto, ResponseOf(msg))
      else if eng == None then NotOpened
      else Replayed(eng.value, msg.head.(body := ""), ResponseOf(msg))
    }

    /** What a response handler ends with, having found `live` with `log` (or nothing): its path, the
        life of the transaction it made, its answer and its record. */
    ghost predicate Responded(live: Option<Live>, log: seq<Call>, eng: Option<Engine>, msg: ResponseMessage, published: bool,
                              ans: Answer, scaling: Option<VerdictReply.Scaling>, made: Transaction?, path: HandlerPaths.ResponsePath)
      reads made
    {
      && HandlerPaths.ResponseFits(path, live.Some?, msg.require)
      && Lived(made, if live.Some? then [] else HandlerPaths.LifeIn(path, false))
      && !ans.offered
      && AnswersResponse(policy, live.Some?, RanFrom(live, log, eng, msg), eng.Some?, msg, published, ans)
      && (ans.reply.verdict == VerdictReply.Score && scaling.Some? ==> ans.reply.score == Some(scaling.value.scaled))
    }

    /** The response phase. The transaction it resumes leaves the registry and is closed on every
        path, and so is the one it rebuilds; the reply is that of the run, or of what ends it early. */
    method InspectResponse(eng: Option<Engine>, msg: ResponseMessage, published: bool, now: int)
      returns (ans: Answer, scaling: Option<VerdictReply.Scaling>, ghost made: Transaction?, ghost path: HandlerPaths.ResponsePath)
      requires Valid()
      modifies sticky, Stored()
      ensures Valid() && Stored() <= old(Stored())
      ensures sticky.Model() == HandlerPaths.ResponseReg(sticky.limits, old(sticky.Model()), msg.token, now)
      ensures forall t :: t in old(Stored()) && t !in Stored() ==> !t.open
      ensures made != null ==> fresh(made)
      ensures Responded(old(Found(msg.token, now)), old(LogOf(Found(msg.token, now))), eng, msg, published, ans, scaling, made, path)
      ensures Unjudged(ans) ||
        ToldResponse(old(Found(msg.token, now)), old(LogOf(Found(msg.token, now))), msg, EndLog(old(Found(msg.token, now)), made))
    {
      var live := ResumeState(msg.token, now);
      ans, scaling, made, path := RespondApart(live, eng, msg, published, old(Stored()));
    }

    /** Working on a transaction that is not stored leaves the registry alone, and closes the one
        of those stored before that was still open. */
    method RespondApart(live: Option<Live>, eng: Option<Engine>, msg: ResponseMessage, published: bool,
                        ghost before: set<Transaction>)
      returns (ans: Answer, scaling: Option<VerdictReply.Scaling>, ghost made: Transaction?, ghost path: HandlerPaths.ResponsePath)
      requires forall t :: t in before && t !in Stored() ==> !t.open || (live.Some? && t == live.value.tx)
      requires Valid() && (live.Some? ==> live.value.tx.open && live.value.tx !in Stored())
      modifies if live.Some? then {live.value.tx} else {}
      ensures Valid() && Stored() == old(Stored()) && sticky.Model() == old(sticky.Model())
      ensures forall t :: t in before && t !in Stored() ==> !t.open
      ensures made != null ==> fresh(made)
      ensures Responded(live, old(LogOf(live)), eng, msg, published, ans, scaling, made, path)
      ensures Unjudged(ans) || ToldResponse(live, old(LogOf(live)), msg, EndLog(live, made))
    {
      ans, scaling, made, path := RespondWhole(live, eng, msg, published);
      StaysValid();
    }

    /** With the registry and what it stores as they were, everything about it is. */
    twostate lemma StaysValid()
      requires old(Valid()) && unchanged(sticky) && forall t :: t in old(Stored()) ==> t.open == old(t.open)
      ensures Valid() && Stored() == old(Stored()) && sticky.Model() == old(sticky.Model())
    {
    }

    method RespondWhole(live: Option<Live>, eng: Option<Engine>, msg: ResponseMessage, published: bool)
      returns (ans: Answer, scaling: Option<VerdictReply.Scaling>, ghost made: Transaction?, ghost path: HandlerPaths.ResponsePath)
      requires live.Some? ==> live.value.tx.open
      modifies if live.Some? then {live.value.tx} else {}
      ensures (live.Some? ==> !live.value.tx.open) && (made != null ==> fresh(made))
      ensures Responded(live, old(LogOf(live)), eng, msg, published, ans, scaling, made, path)
      ensures Unjudged(ans) || ToldResponse(live, old(LogOf(live)), msg, EndLog(live, made))
    {
      ans, scaling, made, path := Respond(live, eng, msg, published);
      EarlyIsUnjudged(policy, live.Some?, eng.Some?, msg);
      if !Unjudged(ans) {
        ToldTheResponse(live, old(LogOf(live)), eng, msg);
      }
    }

    /** The response phase once the handler knows whether it has resumed. */
    method Respond(live: Option<Live>, eng: Option<Engine>, msg: ResponseMessage, published: bool)
      returns (ans: Answer, scaling: Option<VerdictReply.Scaling>, ghost made: Transaction?, ghost path: HandlerPaths.ResponsePath)
      requires live.Some? ==> live.value.tx.open
      modifies if live.Some? then {live.value.tx} else {}
      ensures live.Some? ==> !live.value.tx.open
      ensures made != null ==> fresh(made)
      ensures HandlerPaths.ResponseFits(path, live.Some?, msg.require)
      ensures Lived(made, if live.Some? then [] else HandlerPaths.LifeIn(path, false))
      ensures !ans.offered
      ensures AnswersResponse(policy, live.Some?, RanFrom(live, old(LogOf(live)), eng, msg), eng.Some?, msg, published, ans)
      ensures EarlyResponse(policy, live.Some?, eng.Some?, msg) == None ==>
        Unjudged(ans) || Logs(RanFrom(live, old(LogOf(live)), eng, msg), EndLog(live, made))
      ensures ans.reply.verdict == VerdictReply.Score && scaling.Some? ==> ans.reply.score == Some(scaling.value.scaled)
    {
      var skip, percent, _ := PriorLedger.Evaluate(msg.prior, policy.rules);
      if skip {
        if live.Some? {
          Discard(live.value);
        }
        return Bare(SkippedReply), None, null, HandlerPaths.NotRun;
      }
      if live == None && msg.require {
        return Bare(LostReply(policy.opts)), None, null, HandlerPaths.Unanswerable;
      }
      if live == None && eng == None {
        return Bare(ErrorReply(CodeUnknownProfile)), None, null, HandlerPaths.Unanswerable;
      }
      if BodyError(msg.body).Some? {
        if live.Some? {
          Discard(live.value);
        }
        return Bare(ErrorReply(BodyError(msg.body).value)), None, null, HandlerPaths.NotRun;
      }
      ans, scaling, made, path := RespondRun(live, eng, percent, msg, published);
    }

    /** The response phase once nothing ends it early. */
    method RespondRun(live: Option<Live>, eng: Option<Engine>, percent: int, msg: ResponseMessage, published: bool)
      returns (ans: Answer, scaling: Option<VerdictReply.Scaling>, ghost made: Transaction?, ghost path: HandlerPaths.ResponsePath)
      requires if live.Some? then live.value.tx.open else eng.Some? && !msg.require
      requires percent == PriorLedger.Percent(policy.rules, msg.prior)
      modifies if live.Some? then {live.value.tx} else {}
      ensures live.Some? ==> !live.value.tx.open
      ensures made != null ==> fresh(made)
      ensures HandlerPaths.ResponseFits(path, live.Some?, msg.require)
      ensures Lived(made, if live.Some? then [] else HandlerPaths.LifeIn(path, false))
      ensures !ans.offered
      ensures Follows(policy, RanFrom(live, old(LogOf(live)), eng, msg), msg.prior, None, msg.head.clientIP, published, ans)
      ensures Unjudged(ans) || Logs(RanFrom(live, old(LogOf(live)), eng, msg), EndLog(live, made))
      ensures ans.reply.verdict == VerdictReply.Score && scaling.Some? ==> ans.reply.score == Some(scaling.value.scaled)
    {
      var out;
      out, made := RunResponse(live, eng, msg);
      path := if live.Some? then HandlerPaths.Ran
              else if made == null then HandlerPaths.Unanswerable
              else if Played(eng.value, [], RequestScript(msg.head.(body := ""))).1 then HandlerPaths.Ran
              else HandlerPaths.RebuildFailed;
      if out == None {
        return Bare(ErrorReply(CodeInternalError)), None, made, path;
      }
      var j;
      j, scaling := Judge(policy, out.value, percent, None, msg.head.clientIP);
      ans := Answered(j, published, false);
    }
  }
}
