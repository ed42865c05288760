/** What the handler answers: the replies that end a phase early, the verdict of an engine outcome
    under the neighbours' percentage, and the asks and list writes of the policy rows that fire. */
module HandlerReplies {
  import opened Common
  import opened EngineSpec
  import opened VerdictReply
  import BodyLoader
  import PolicyFire
  import PolicyRows
  import PriorLedger
  import ScoreArithmetic

  const CodeInternalError := "MODSEC_INTERNAL_ERROR"
  const CodeUnknownProfile := "MODSEC_UNKNOWN_PROFILE"
  const CodeBodyUnavailable := "MODSEC_BODY_UNAVAILABLE"
  const CodeBodyTruncated := "MODSEC_BODY_TRUNCATED"
  const CodeResumeLost := "MODSEC_RESUME_LOST"
  const CodeSkipped := "MODSEC_SKIPPED"
  const CodeGeoUnavailable := "MODSEC_GEO_UNAVAILABLE"
  const ReasonQueueLimit := "MODSEC_QUEUE_LIMIT"

  /** What a handler is configured with for a profile. */
  datatype Policy = Policy(
    machine: ScoreArithmetic.Machine, opts: Options,
    rules: seq<PriorLedger.Rule>, entries: seq<PolicyRows.Entry>)

  /** A reply with the asks it carries, the list writes handed to publishing, and whether it offers
      to continue. */
  datatype Answer = Answer(reply: Reply, actions: seq<PolicyFire.Action>, bans: seq<PolicyFire.Ban>, offered: bool)

  /** A request message: the engine input but for the body, the loaded body, the neighbours'
      verdicts, the token to keep the transaction under if it wants to resume, and the fill of the
      queue when it was taken. */
  datatype Message = Message(
    head: Input, body: BodyLoader.Body, prior: seq<PriorLedger.PriorVerdict>, token: Option<string>, fill: int)

  /** A response message; `head` is the request snapshot a rebuild starts from. */
  datatype ResponseMessage = ResponseMessage(
    token: Option<string>, require: bool, head: Input, status: int, headers: seq<Header>, body: BodyLoader.Body,
    prior: seq<PriorLedger.PriorVerdict>)

  function ResponseOf(msg: ResponseMessage): ResponseInput {
    ResponseInput(msg.status, msg.headers, msg.body.data)
  }

  function InputOf(msg: Message): Input {
    msg.head.(body := msg.body.data)
  }

  function RanOn(e: Engine, msg: Message): Ran {
    if msg.token.Some? then Keep(e, InputOf(msg)) else Once(e, InputOf(msg))
  }

  function ErrorReply(code: string): Reply {
    Reply(Error, None, Some(code), None, None)
  }

  const SkippedReply := Reply(Allow, None, Some(CodeSkipped), None, None)

  function LostReply(opts: Options): Reply {
    Reply(Deny, None, Some(CodeResumeLost), Some(StatusName(opts, 0)), None)
  }

  /** An answer that carries nothing but the reply. */
  function Bare(reply: Reply): Answer {
    Answer(reply, [], [], false)
  }

  function BodyError(b: BodyLoader.Body): Option<string> {
    if b.unavailable != "" then Some(CodeBodyUnavailable)
    else if b.truncated then Some(CodeBodyTruncated)
    else None
  }

  function CodeOf(r: Reply): string {
    if r.reason.Some? then r.reason.value else ""
  }

  function ScoreOf(r: Reply): int {
    if r.score.Some? then r.score.value else 0
  }

  predicate EndsRequest(r: Reply) {
    r.verdict == Deny || r.verdict == Redirect
  }

  predicate Skipped(p: Policy, prior: seq<PriorLedger.PriorVerdict>) {
    PriorLedger.Skip(p.rules, PriorLedger.Flatten(prior))
  }

  /** What ends the request phase before the engine runs. */
  function Early(p: Policy, known: bool, msg: Message): Option<Reply> {
    if !known then Some(ErrorReply(CodeUnknownProfile))
    else if Skipped(p, msg.prior) then Some(SkippedReply)
    else if BodyError(msg.body).Some? then Some(ErrorReply(BodyError(msg.body).value))
    else None
  }

  /** What ends the response phase before the engine runs. */
  function EarlyResponse(p: Policy, resumed: bool, known: bool, msg: ResponseMessage): Option<Reply> {
    if Skipped(p, msg.prior) then Some(SkippedReply)
    else if !resumed && msg.require then Some(LostReply(p.opts))
    else if !resumed && !known then Some(ErrorReply(CodeUnknownProfile))
    else if BodyError(msg.body).Some? then Some(ErrorReply(BodyError(msg.body).value))
    else None
  }

  // The rows that fire.

  function VerdictTrigger(out: Outcome, reply: Reply): PolicyFire.Trigger {
    PolicyFire.VerdictTrigger(reply.verdict, ScoreOf(reply), out.matched, CodeOf(reply))
  }

  function FillTrigger(fill: int): PolicyFire.Trigger {
    PolicyFire.OverloadTrigger(fill, false, ReasonQueueLimit)
  }

  /** With a fill, as for a request, the overload rows fire after those of the verdict. */
  function ActionsOf(p: Policy, out: Outcome, reply: Reply, fill: Option<int>): seq<PolicyFire.Action> {
    PolicyFire.Actions(p.entries, VerdictTrigger(out, reply)) +
    if fill.Some? then PolicyFire.Actions(p.entries, FillTrigger(fill.value)) else []
  }

  function BansOf(p: Policy, out: Outcome, reply: Reply, fill: Option<int>, addr: string): seq<PolicyFire.Ban> {
    PolicyFire.Bans(p.entries, VerdictTrigger(out, reply), addr) +
    if fill.Some? then PolicyFire.Bans(p.entries, FillTrigger(fill.value), addr) else []
  }

  /** Judging an outcome, with everything that goes into the answer. */
  datatype Judgement = Judgement(reply: Reply, actions: seq<PolicyFire.Action>, bans: seq<PolicyFire.Ban>)

  ghost predicate Judged(p: Policy, out: Outcome, percent: int, fill: Option<int>, addr: string, j: Judgement) {
    && Deserved(p.machine, out, p.opts.(scalePercent := percent), j.reply)
    && j.actions == ActionsOf(p, out, j.reply, fill)
    && j.bans == BansOf(p, out, j.reply, fill, addr)
  }

  /** The answer given once the list writes have been handed to publishing: a failure replaces the
      reply and drops the asks. */
  function Answered(j: Judgement, published: bool, offered: bool): Answer {
    if published then Answer(j.reply, j.actions, j.bans, offered)
    else Answer(ErrorReply(CodeGeoUnavailable), [], j.bans, offered)
  }

  /** The answer that goes with a run of the engine and the publishing of its list writes. */
  ghost predicate Follows(p: Policy, ran: Ran, prior: seq<PriorLedger.PriorVerdict>, fill: Option<int>, addr: string,
                          published: bool, ans: Answer)
  {
    match ran
    case Finished(_, out) =>
      exists j :: Judged(p, out, PriorLedger.Percent(p.rules, prior), fill, addr, j) && ans == Answered(j, published, ans.offered)
    case _ => ans == Bare(ErrorReply(CodeInternalError))
  }

  /** The answer to a request, but for the offer. */
  ghost predicate AnswersRequest(p: Policy, eng: Option<Engine>, msg: Message, published: bool, ans: Answer) {
    var early := Early(p, eng.Some?, msg);
    if early.Some? then ans == Bare(early.value)
    else Follows(p, RanOn(eng.value, msg), msg.prior, Some(msg.fill), msg.head.clientIP, published, ans)
  }

  /** The answer to a response. */
  ghost predicate AnswersResponse(p: Policy, resumed: bool, ran: Ran, known: bool, msg: ResponseMessage, published: bool, ans: Answer) {
    var early := EarlyResponse(p, resumed, known, msg);
    if early.Some? then ans == Bare(early.value)
    else Follows(p, ran, msg.prior, None, msg.head.clientIP, published, ans)
  }

  /** The record agrees with the reply. */
  predicate Recorded(percent: int, reply: Reply, scaling: Option<Scaling>) {
    && (scaling.Some? <==> percent != 0)
    && (reply.verdict == Score && scaling.Some? ==> reply.score == Some(scaling.value.scaled))
  }

  /** The answers given without judging a message: an error, a neighbour's skip, or a lost resume. They
      carry no asks and no list writes. */
  predicate Unjudged(ans: Answer) {
    && ans.actions == [] && ans.bans == [] && !ans.offered
    && match ans.reply.verdict
       case Error => ans.reply.reason in {
         Some("MODSEC_UNKNOWN_PROFILE"), Some("MODSEC_BODY_UNAVAILABLE"), Some("MODSEC_BODY_TRUNCATED"), Some("MODSEC_INTERNAL_ERROR")}
       case Allow => ans.reply.reason == Some("MODSEC_SKIPPED")
       case Deny => ans.reply.reason == Some("MODSEC_RESUME_LOST")
       case _ => false
  }

  /** Judges an outcome under the percentage the neighbours asked for, and fires the rows. */
  method Judge(p: Policy, out: Outcome, percent: int, fill: Option<int>, addr: string)
    returns (j: Judgement, scaling: Option<Scaling>)
    ensures Judged(p, out, percent, fill, addr, j) && Recorded(percent, j.reply, scaling)
  {
    var reply := From(p.machine, out, p.opts.(scalePercent := percent));
    scaling := ApplyAsk(p.machine, percent, out);
    var fired;
    if fill.Some? {
      fired := PolicyFire.FireRequest(p.entries, reply.verdict, ScoreOf(reply), out.matched, fill.value, addr,
                                      CodeOf(reply), ReasonQueueLimit);
    } else {
      fired := PolicyFire.Fire(p.entries, reply.verdict, ScoreOf(reply), out.matched, addr, CodeOf(reply));
    }
    j := Judgement(reply, fired.actions, fired.bans);
  }

  /** A message the pool sheds is answered without the engine and without the registry: its parked
      transaction, if any, stays where it is. Only a request turned away by a full queue fires the
      overload rows, all of them; failing to publish their list writes does not change the reply. */
  method Shed(p: Policy, request: bool, code: string, fill: int, addr: string) returns (ans: Answer)
    ensures ans.reply == ErrorReply(code) && !ans.offered
    ensures var t := PolicyFire.OverloadTrigger(fill, true, code);
      if code == ReasonQueueLimit && request
      then ans.actions == PolicyFire.Actions(p.entries, t) && ans.bans == PolicyFire.Bans(p.entries, t, addr)
      else ans == Bare(ErrorReply(code))
  {
    if code == ReasonQueueLimit && request {
      var fired := PolicyFire.FireOverload(p.entries, fill, true, addr, code);
      return Answer(ErrorReply(code), fired.actions, fired.bans, false);
    }
    return Bare(ErrorReply(code));
  }

  /** With a loaded policy every ask and every list write of an answer, to a request or a response,
      is sound. */
  lemma AnswersAreSound(p: Policy, out: Outcome, percent: int, fill: Option<int>, addr: string, j: Judgement)
    requires PolicyRows.AllLoaded(p.entries) && Judged(p, out, percent, fill, addr, j)
    ensures forall k :: 0 <= k < |j.actions| ==> PolicyFire.SoundAction(j.actions[k])
    ensures forall k :: 0 <= k < |j.bans| ==> PolicyFire.SoundBan(j.bans[k])
  {
    var t := VerdictTrigger(out, j.reply);
    PolicyFire.ActionsAreSound(p.entries, t);
    PolicyFire.BansAreSound(p.entries, t, addr);
    if fill.Some? {
      PolicyFire.ActionsAreSound(p.entries, FillTrigger(fill.value));
      PolicyFire.BansAreSound(p.entries, FillTrigger(fill.value), addr);
    }
  }

  /** When the asks of a denied or redirected request, and of such a response, only write records. */
  lemma DenyAnswers(p: Policy, out: Outcome, reply: Reply, fill: int)
    requires PolicyRows.AllLoaded(p.entries) && EndsRequest(reply)
    ensures PolicyFire.OnlyRecords(ActionsOf(p, out, reply, Some(fill))) <==>
            forall i :: 0 <= i < |p.entries| ==>
              !PolicyFire.AsksMoreByRule(p.entries[i], out.matched) && !PolicyFire.AsksMoreByOverload(p.entries[i], fill)
    ensures PolicyFire.OnlyRecords(ActionsOf(p, out, reply, None)) <==>
            forall i :: 0 <= i < |p.entries| ==> !PolicyFire.AsksMoreByRule(p.entries[i], out.matched)
  {
    PolicyFire.RequestDenyOnlyRecords(p.entries, reply.verdict, ScoreOf(reply), out.matched, fill, CodeOf(reply), ReasonQueueLimit);
    PolicyFire.DenyOnlyRecords(p.entries, reply.verdict, ScoreOf(reply), out.matched, CodeOf(reply));
    assert ActionsOf(p, out, reply, None) == PolicyFire.Actions(p.entries, VerdictTrigger(out, reply));
  }
}
