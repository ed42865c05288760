/** From an engine outcome to the reply and its audit record. */
module VerdictReply {
  import opened Common
  import opened EngineSpec
  import opened RuleFilter
  import opened ScoreArithmetic

  datatype Decisive = Decisive(ranges: Ranges, tags: set<string>)

  datatype StatusMap = StatusMap(byStatus: map<int, string>, fallback: string)

  datatype Options = Options(statusMap: Option<StatusMap>, decisive: Decisive, scalePercent: int)

  datatype Verdict = Allow | Deny | Redirect | Score | Error

  datatype Reply = Reply(
    verdict: Verdict, score: Option<int>, reason: Option<string>,
    response: Option<string>, url: Option<string>)

  const CodeAnomaly := "CRS_ANOMALY"
  const CodeRuleMatched := "CRS_RULE"
  const CodeRedirect := "CRS_REDIRECT"
  const CodeScoreRange := "MODSEC_SCORE_RANGE"

  const Builtin := StatusMap(map[403 := "blocked", 406 := "blocked", 400 := "malformed"], "blocked")

  function StatusName(opt: Options, status: int): string {
    var m := if opt.statusMap.Some? then opt.statusMap.value else Builtin;
    if status in m.byStatus then m.byStatus[status] else m.fallback
  }

  predicate IsDecisive(d: Decisive, r: MatchedRule) {
    Has(d.ranges, r.id) || exists i :: 0 <= i < |r.tags| && r.tags[i] in d.tags
  }

  predicate DecisiveHit(d: Decisive, matched: seq<MatchedRule>) {
    exists i :: 0 <= i < |matched| && IsDecisive(d, matched[i])
  }

  predicate Disrupted(out: Outcome) {
    out.intervention.Some? && out.intervention.value.disruptive
  }

  predicate Blocks(action: string) {
    action == "deny" || action == "block" || action == "drop"
  }

  const Allowed := Reply(Allow, None, None, None, None)

  method WithScore(reply: Reply, score: int) returns (r: Option<Reply>)
    ensures r.Some? <==> 0 <= score <= 100
    ensures r.Some? ==> r.value == reply.(verdict := Score, score := Some(score))
  {
    if score < 0 || score > 100 {
      return None;
    }
    return Some(reply.(verdict := Score, score := Some(score)));
  }

  /** The verdict an outcome deserves, with its score, reason, response and redirection: the exact
      condition of each verdict and all that goes with it. */
  ghost predicate Deserved(m: Machine, out: Outcome, opt: Options, reply: Reply) {
    && (reply.verdict == Redirect <==>
          Disrupted(out) && out.intervention.value.action == "redirect" && out.intervention.value.url != "")
    && (reply.verdict == Deny <==>
          if Disrupted(out) then Blocks(out.intervention.value.action) else DecisiveHit(opt.decisive, out.matched))
    && (reply.verdict == Score <==>
          !Disrupted(out) && !DecisiveHit(opt.decisive, out.matched) && out.score > 0)
    && reply.verdict != Error
    && match reply.verdict {
      case Redirect => reply == Reply(Redirect, None, Some(CodeRedirect), None, Some(out.intervention.value.url))
      case Deny =>
        var status := if Disrupted(out) then out.intervention.value.status else 0;
        reply == Reply(Deny, None, Some(CodeRuleMatched), Some(StatusName(opt, status)), None)
      case Score =>
        var score := ScaleScore(m, Calibrate(m, out.score, out.threshold), opt.scalePercent);
        reply == Reply(Score, Some(score), Some(CodeAnomaly), None, None)
      case _ => reply == Allowed
    }
  }

  /** Replies with the verdict deserved. The score is always in range, whatever the machine's floats
      do, so no reply carries the range error and every reply can be marshalled. */
  method From(m: Machine, out: Outcome, opt: Options) returns (reply: Reply)
    ensures Deserved(m, out, opt, reply) && reply.reason != Some(CodeScoreRange)
    ensures reply.score.Some? ==> 0 <= reply.score.value <= 100
  {
    reply := Allowed;
    if Disrupted(out) {
      reply := FromIntervention(reply, out.intervention.value, opt);
      return;
    }
    var hit := FindDecisive(out.matched, opt.decisive);
    if hit {
      return reply.(verdict := Deny, reason := Some(CodeRuleMatched), response := Some(StatusName(opt, 0)));
    }
    if out.score > 0 {
      var score := ScaleScore(m, Calibrate(m, out.score, out.threshold), opt.scalePercent);
      var scored := WithScore(reply, score);
      if scored.None? {
        return reply.(reason := Some(CodeScoreRange));
      }
      return scored.value.(reason := Some(CodeAnomaly));
    }
  }

  /** An outcome deserves one reply. */
  lemma DeservedIsUnique(m: Machine, out: Outcome, opt: Options, a: Reply, b: Reply)
    requires Deserved(m, out, opt, a) && Deserved(m, out, opt, b)
    ensures a == b
  {
  }

  /** A matched rule is decisive by its id, if one of the ranges covers it, or by one of its tags. */
  lemma DecisiveByIdOrTag(d: Decisive, r: MatchedRule)
    ensures IsDecisive(d, r) <==>
      || (exists k :: 0 <= k < |d.ranges| && d.ranges[k].0 <= r.id <= d.ranges[k].1)
      || (exists t :: t in d.tags && t in r.tags)
  {
    if t :| t in d.tags && t in r.tags {
      var i :| 0 <= i < |r.tags| && r.tags[i] == t;
    }
  }

  /** The reply from the outcome's own fields. A disruptive intervention alone decides: a redirect with
      a target redirects, deny, block and drop deny with the name of its status, and any other action
      passes. Without one a decisive rule denies, and otherwise a positive anomaly score scores. */
  lemma ReplyDecides(m: Machine, out: Outcome, opt: Options, reply: Reply)
    requires Deserved(m, out, opt, reply)
    ensures var iv := out.intervention;
      var decisive := exists i :: 0 <= i < |out.matched| && IsDecisive(opt.decisive, out.matched[i]);
      if iv.Some? && iv.value.disruptive then
        if iv.value.action == "redirect" && iv.value.url != "" then
          reply == Reply(Redirect, None, Some("CRS_REDIRECT"), None, Some(iv.value.url))
        else if iv.value.action in {"deny", "block", "drop"} then
          reply == Reply(Deny, None, Some("CRS_RULE"), Some(StatusName(opt, iv.value.status)), None)
        else reply == Reply(Allow, None, None, None, None)
      else if decisive then reply == Reply(Deny, None, Some("CRS_RULE"), Some(StatusName(opt, 0)), None)
      else if out.score > 0 then
        reply.verdict == Score && reply.reason == Some("CRS_ANOMALY") && reply.response == None && reply.url == None
      else reply == Reply(Allow, None, None, None, None)
  {
    assert DecisiveHit(opt.decisive, out.matched) <==>
      exists i :: 0 <= i < |out.matched| && IsDecisive(opt.decisive, out.matched[i]);
  }

  /** The name of a status: the configured one, or the configured fallback; with nothing configured
      400 is malformed and every other status blocked. */
  lemma StatusNames(opt: Options, status: int)
    ensures opt.statusMap == None ==> StatusName(opt, status) == (if status == 400 then "malformed" else "blocked")
    ensures opt.statusMap.Some? ==>
      && (status in opt.statusMap.value.byStatus ==> StatusName(opt, status) == opt.statusMap.value.byStatus[status])
      && (status !in opt.statusMap.value.byStatus ==> StatusName(opt, status) == opt.statusMap.value.fallback)
  {
  }

  method FromIntervention(reply: Reply, iv: Intervention, opt: Options) returns (r: Reply)
    ensures iv.action == "redirect" && iv.url != "" ==>
            r == reply.(verdict := Redirect, url := Some(iv.url), reason := Some(CodeRedirect))
    ensures Blocks(iv.action) ==>
            r == reply.(verdict := Deny, response := Some(StatusName(opt, iv.status)), reason := Some(CodeRuleMatched))
    ensures !Blocks(iv.action) && (iv.action != "redirect" || iv.url == "") ==> r == reply
  {
    match iv.action
    case "redirect" =>
      if iv.url == "" {
        return reply;
      }
      return reply.(verdict := Redirect, url := Some(iv.url), reason := Some(CodeRedirect));
    case "deny" | "block" | "drop" =>
      return reply.(verdict := Deny, response := Some(StatusName(opt, iv.status)), reason := Some(CodeRuleMatched));
    case _ =>
      return reply;
  }

  method FindDecisive(matched: seq<MatchedRule>, d: Decisive) returns (found: bool)
    ensures found == DecisiveHit(d, matched)
  {
    if d.ranges == [] && d.tags == {} {
      return false;
    }
    for i := 0 to |matched|
      invariant forall j :: 0 <= j < i ==> !IsDecisive(d, matched[j])
    {
      if IsDecisive(d, matched[i]) {
        return true;
      }
    }
    return false;
  }

  /** What the audit record says about scaling. */
  datatype Scaling = Scaling(percent: int, raw: int, scaled: int)

  method ApplyAsk(m: Machine, percent: int, out: Outcome) returns (scaling: Option<Scaling>)
    ensures scaling.Some? <==> percent != 0
    ensures scaling.Some? ==>
            var raw := Calibrate(m, out.score, out.threshold);
            scaling.value == Scaling(percent, raw, ScaleScore(m, raw, percent))
  {
    if percent == 0 {
      return None;
    }
    var raw := Calibrate(m, out.score, out.threshold);
    return Some(Scaling(percent, raw, ScaleScore(m, raw, percent)));
  }

  /** The reply and its record agree: the audited scaled score is the score of a score reply, a
      record without scaling means the reply carries the calibrated score itself, and a raise
      (or cut) recorded never took the reply below (or above) the raw score. */
  method Judge(m: Machine, out: Outcome, opt: Options, percent: int) returns (reply: Reply, scaling: Option<Scaling>)
    requires Rounds(m.fl) && out.score <= Exact && -100 <= percent <= 900
    ensures reply.verdict == Score && scaling.Some? ==> reply.score == Some(scaling.value.scaled)
    ensures reply.verdict == Score && scaling.None? ==> reply.score == Some(Calibrate(m, out.score, out.threshold))
    ensures scaling.Some? <==> percent != 0
    ensures scaling.Some? ==> 0 <= scaling.value.raw <= 100 && 0 <= scaling.value.scaled <= 100
    ensures scaling.Some? && percent > 0 ==> scaling.value.scaled >= scaling.value.raw
    ensures scaling.Some? && percent < 0 ==> scaling.value.scaled <= scaling.value.raw
  {
    reply := From(m, out, opt.(scalePercent := percent));
    scaling := ApplyAsk(m, percent, out);
    CalibrateRange(m, out.score, out.threshold);
    ScaleRange(m, Calibrate(m, out.score, out.threshold), percent);
    ScaleDirection(m, Calibrate(m, out.score, out.threshold), percent);
  }

  /** The score of a reply, from anomaly score to answer, is monotone in the anomaly score and in
      the percentage neighbours ask for. */
  lemma ReplyScoreMonotone(m: Machine, a: int, b: int, threshold: int, p: int, q: int)
    requires Rounds(m.fl) && a <= b <= Exact && -100 <= p <= q <= 900
    ensures ScaleScore(m, Calibrate(m, a, threshold), p) <= ScaleScore(m, Calibrate(m, b, threshold), q)
  {
    var t := EffectiveThreshold(threshold);
    CalibrateMonotone(m, a, b, t, t);
    CalibrateRange(m, b, threshold);
    ScaleMonotone(m, Calibrate(m, a, threshold), Calibrate(m, b, threshold), p, q);
  }

  // Evidence is cut on a UTF-8 boundary.

  type Byte = b: int | 0 <= b < 256

  predicate RuneStart(b: Byte) {
    !(0x80 <= b < 0xC0)
  }

  /** The length a rune's first byte announces; 0 for a byte that starts none. */
  function RuneLength(b: Byte): nat {
    if b < 0x80 then 1
    else if b < 0xC0 then 0
    else if b < 0xE0 then 2
    else if b < 0xF0 then 3
    else if b < 0xF8 then 4
    else 0
  }

  predicate WholeRunes(s: seq<Byte>) {
    s == [] ||
    var n := RuneLength(s[0]);
    && 0 < n <= |s|
    && (forall i :: 1 <= i < n ==> !RuneStart(s[i]))
    && WholeRunes(s[n..])
  }

  /** The longest prefix of at most max bytes that ends where a rune starts. */
  method Clip(s: seq<Byte>, max: nat) returns (r: seq<Byte>)
    ensures r <= s && |r| <= max
    ensures |s| <= max ==> r == s
    ensures |r| < |s| && r != [] ==> RuneStart(s[|r|])
    ensures forall k :: |r| < k <= max && k < |s| ==> !RuneStart(s[k])
  {
    if |s| <= max {
      return s;
    }
    var cut := max;
    while cut > 0 && !RuneStart(s[cut])
      invariant 0 <= cut <= max
      invariant forall k :: cut < k <= max ==> !RuneStart(s[k])
    {
      cut := cut - 1;
    }
    return s[..cut];
  }

  /** Cutting well-formed text where a rune starts leaves well-formed text. */
  lemma {:induction false} CutKeepsRunes(s: seq<Byte>, k: nat)
    requires WholeRunes(s) && k <= |s| && (k < |s| ==> RuneStart(s[k]))
    ensures WholeRunes(s[..k])
    decreases |s|
  {
    if k > 0 {
      var n := RuneLength(s[0]);
      assert k >= n;
      assert s[n..][..k - n] == s[..k][n..];
      CutKeepsRunes(s[n..], k - n);
    }
  }

  /** A run of continuation bytes in well-formed text is at most three long. */
  lemma {:induction false} ShortRuns(s: seq<Byte>, k: nat, c: nat)
    requires WholeRunes(s) && k + c <= |s|
    requires forall i :: k <= i < k + c ==> !RuneStart(s[i])
    ensures c <= 3
    decreases |s|
  {
    if c > 0 {
      var n := RuneLength(s[0]);
      if k >= n {
        ShortRuns(s[n..], k - n, c);
      } else {
        assert s[n..] != [] ==> RuneStart(s[n..][0]);
        assert k + c <= n;
      }
    }
  }

  /** Clipping well-formed text gives well-formed text and gives up at most three bytes of room. */
  method ClipText(s: seq<Byte>, max: nat) returns (r: seq<Byte>)
    requires WholeRunes(s)
    ensures WholeRunes(r) && r <= s && |r| <= max
    ensures r == s || max - 3 <= |r|
  {
    r := Clip(s, max);
    if r != s {
      assert r == s[..|r|];
      CutKeepsRunes(s, |r|);
      ShortRuns(s, |r| + 1, max - |r|);
    }
  }
}
