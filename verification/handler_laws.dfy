/** What the handler answers, case by case, in the order the cases are tried and with the codes that
    go out. */
module HandlerLaws {
  import opened Common
  import opened EngineSpec
  import opened HandlerReplies
  import opened VerdictReply
  import PolicyFire
  import PolicyRows
  import PriorLedger

  predicate Errs(ans: Answer, code: string) {
    ans == Answer(Reply(Error, None, Some(code), None, None), [], [], false)
  }

  /** A run of the engine that finished is answered with what its outcome deserves under the sum its
      neighbours asked for, with the asks and list writes of the rows that fire; failing to publish the
      list writes turns the answer into an error without asks. A run that did not finish is an error. */
  ghost predicate Concludes(p: Policy, ran: Ran, prior: seq<PriorLedger.PriorVerdict>, fill: Option<int>, addr: string,
                            published: bool, ans: Answer)
  {
    if !ran.Finished? then Errs(ans, "MODSEC_INTERNAL_ERROR")
    else
      var opts := p.opts.(scalePercent := PriorLedger.Percent(p.rules, prior));
      exists reply :: Deserved(p.machine, ran.outcome, opts, reply)
        && ans.bans == BansOf(p, ran.outcome, reply, fill, addr)
        && if published then ans.reply == reply && ans.actions == ActionsOf(p, ran.outcome, reply, fill)
           else ans.reply == Reply(Error, None, Some("MODSEC_GEO_UNAVAILABLE"), None, None) && ans.actions == []
  }

  lemma FollowsConcludes(p: Policy, ran: Ran, prior: seq<PriorLedger.PriorVerdict>, fill: Option<int>, addr: string,
                         published: bool, ans: Answer)
    requires Follows(p, ran, prior, fill, addr, published, ans)
    ensures Concludes(p, ran, prior, fill, addr, published, ans)
  {
    if ran.Finished? {
      var j :| Judged(p, ran.outcome, PriorLedger.Percent(p.rules, prior), fill, addr, j) && ans == Answered(j, published, ans.offered);
      assert Deserved(p.machine, ran.outcome, p.opts.(scalePercent := PriorLedger.Percent(p.rules, prior)), j.reply);
    }
  }

  /** The answer to a request: an unknown profile comes first, then a neighbour's skip, then a body that
      is unavailable, then one that is truncated, and only then the engine. */
  lemma RequestAnswers(p: Policy, eng: Option<Engine>, msg: Message, published: bool, ans: Answer)
    requires AnswersRequest(p, eng, msg, published, ans)
    ensures
      if eng == None then Errs(ans, "MODSEC_UNKNOWN_PROFILE")
      else if PriorLedger.Skip(p.rules, PriorLedger.Flatten(msg.prior)) then
        ans == Answer(Reply(Allow, None, Some("MODSEC_SKIPPED"), None, None), [], [], false)
      else if msg.body.unavailable != "" then Errs(ans, "MODSEC_BODY_UNAVAILABLE")
      else if msg.body.truncated then Errs(ans, "MODSEC_BODY_TRUNCATED")
      else Concludes(p, RanOn(eng.value, msg), msg.prior, Some(msg.fill), msg.head.clientIP, published, ans)
  {
    if Early(p, eng.Some?, msg) == None {
      FollowsConcludes(p, RanOn(eng.value, msg), msg.prior, Some(msg.fill), msg.head.clientIP, published, ans);
    }
  }

  /** The answer to a response: a neighbour's skip comes first, then a kept transaction that was lost
      though it was required, then an unknown profile if one has to be rebuilt, then the body. */
  lemma ResponseAnswers(p: Policy, resumed: bool, ran: Ran, known: bool, msg: ResponseMessage, published: bool, ans: Answer)
    requires AnswersResponse(p, resumed, ran, known, msg, published, ans)
    ensures
      if PriorLedger.Skip(p.rules, PriorLedger.Flatten(msg.prior)) then
        ans == Answer(Reply(Allow, None, Some("MODSEC_SKIPPED"), None, None), [], [], false)
      else if !resumed && msg.require then
        ans == Answer(Reply(Deny, None, Some("MODSEC_RESUME_LOST"), Some(StatusName(p.opts, 0)), None), [], [], false)
      else if !resumed && !known then Errs(ans, "MODSEC_UNKNOWN_PROFILE")
      else if msg.body.unavailable != "" then Errs(ans, "MODSEC_BODY_UNAVAILABLE")
      else if msg.body.truncated then Errs(ans, "MODSEC_BODY_TRUNCATED")
      else Concludes(p, ran, msg.prior, None, msg.head.clientIP, published, ans)
  {
    if EarlyResponse(p, resumed, known, msg) == None {
      FollowsConcludes(p, ran, msg.prior, None, msg.head.clientIP, published, ans);
    }
  }

  /** What triggers a row when a message is judged: its reply, by verdict, score and matched rules, and
      for a request the fill of the queue it was taken from. A row is given the reply's own code. */
  lemma RowsTriggered(p: Policy, out: Outcome, reply: Reply, fill: int, e: PolicyRows.Entry)
    ensures VerdictTrigger(out, reply)(e).Some? <==>
      PolicyFire.TriggeredBy(e, reply.verdict, if reply.score.Some? then reply.score.value else 0, out.matched)
    ensures VerdictTrigger(out, reply)(e).Some? && e.row.on != "rule" && reply.reason.Some? ==>
      VerdictTrigger(out, reply)(e) == reply.reason
    ensures FillTrigger(fill)(e) ==
      if e.row.on == "overload" && e.row.at.Some? && e.row.at.value < 100 && fill >= e.row.at.value then Some("MODSEC_QUEUE_LIMIT") else None
  {
    PolicyFire.TriggeredRows(e, reply.verdict, ScoreOf(reply), out.matched, CodeOf(reply));
  }

  /** What a request carries: for each row in order its ask, or its list write if there is an address,
      the rows its reply triggers first and then those the fill does. A response fires no overload row. */
  lemma RowsFired(p: Policy, out: Outcome, reply: Reply, fill: int, addr: string)
    ensures var t, u := VerdictTrigger(out, reply), FillTrigger(fill);
      && ActionsOf(p, out, reply, None) == Sent(p.entries, t)
      && ActionsOf(p, out, reply, Some(fill)) == Sent(p.entries, t) + Sent(p.entries, u)
      && BansOf(p, out, reply, None, addr) == Written(p.entries, t, addr)
      && BansOf(p, out, reply, Some(fill), addr) == Written(p.entries, t, addr) + Written(p.entries, u, addr)
  {
    var t := VerdictTrigger(out, reply);
    ActionsAreSent(p.entries, t);
    ActionsAreSent(p.entries, FillTrigger(fill));
    BansAreWritten(p.entries, t, addr);
    BansAreWritten(p.entries, FillTrigger(fill), addr);
    assert ActionsOf(p, out, reply, None) == PolicyFire.Actions(p.entries, t);
    assert BansOf(p, out, reply, None, addr) == PolicyFire.Bans(p.entries, t, addr);
  }

  /** What one row sends: its ask if it is triggered and asks. */
  function AskOf(e: PolicyRows.Entry, t: PolicyFire.Trigger): seq<PolicyFire.Action> {
    if t(e).Some? && e.row.verb != "" then [PolicyFire.Ask(e.row, t(e).value)] else []
  }

  /** What one row writes: its list write if it is triggered, asks nothing, and there is an address. */
  function WriteOf(e: PolicyRows.Entry, t: PolicyFire.Trigger, addr: string): seq<PolicyFire.Ban> {
    if t(e).Some? && e.row.verb == "" && addr != "" then [PolicyFire.BanOf(e.row, addr, t(e).value)] else []
  }

  /** All that the rows give, from the first row on. */
  function Gathered<T>(entries: seq<PolicyRows.Entry>, give: PolicyRows.Entry -> seq<T>): seq<T> {
    if entries == [] then [] else give(entries[0]) + Gathered(entries[1..], give)
  }

  function Sent(entries: seq<PolicyRows.Entry>, t: PolicyFire.Trigger): seq<PolicyFire.Action> {
    Gathered(entries, (e: PolicyRows.Entry) => AskOf(e, t))
  }

  function Written(entries: seq<PolicyRows.Entry>, t: PolicyFire.Trigger, addr: string): seq<PolicyFire.Ban> {
    Gathered(entries, (e: PolicyRows.Entry) => WriteOf(e, t, addr))
  }

  lemma {:induction false} GatheredLast<T>(init: seq<PolicyRows.Entry>, e: PolicyRows.Entry, give: PolicyRows.Entry -> seq<T>)
    ensures Gathered(init + [e], give) == Gathered(init, give) + give(e)
  {
    var all := init + [e];
    if init == [] {
      assert all == [e] && all[1..] == [];
    } else {
      assert all[0] == init[0] && all[1..] == init[1..] + [e];
      GatheredLast(init[1..], e, give);
    }
  }

  lemma {:induction false} ActionsAreSent(entries: seq<PolicyRows.Entry>, t: PolicyFire.Trigger)
    ensures PolicyFire.Actions(entries, t) == Sent(entries, t)
  {
    if entries != [] {
      var n := |entries| - 1;
      assert entries == entries[..n] + [entries[n]];
      ActionsAreSent(entries[..n], t);
      GatheredLast(entries[..n], entries[n], (e: PolicyRows.Entry) => AskOf(e, t));
    }
  }

  lemma {:induction false} BansAreWritten(entries: seq<PolicyRows.Entry>, t: PolicyFire.Trigger, addr: string)
    ensures PolicyFire.Bans(entries, t, addr) == Written(entries, t, addr)
  {
    if entries != [] {
      var n := |entries| - 1;
      assert entries == entries[..n] + [entries[n]];
      BansAreWritten(entries[..n], t, addr);
      GatheredLast(entries[..n], entries[n], (e: PolicyRows.Entry) => WriteOf(e, t, addr));
    }
  }
}
