/** What the policy rows promise, said without the code that fires them: which verdicts, scores and
    fills trigger a row, on which rules it fires, and which asks and list writes can be written. */
module PolicyLaws {
  import opened Common
  import opened EngineSpec
  import opened PolicyFire
  import opened PolicyRows
  import opened RuleFilter
  import opened Sequences
  import opened Text
  import VerdictReply

  // Score rows.

  /** A score row fires at its threshold iff it is not a `below` row. */
  lemma ScoreRowAtThreshold(e: Entry, a: int, matched: seq<MatchedRule>, code: string)
    requires e.row.on == "score" && e.row.at == Some(a) && !e.row.eq
    ensures VerdictTrigger(VerdictReply.Score, a, matched, code)(e) == if e.row.below then None else Some(code)
  {
  }

  predicate FiresAt(e: Entry, score: int, matched: seq<MatchedRule>, code: string) {
    VerdictTrigger(VerdictReply.Score, score, matched, code)(e).Some?
  }

  /** A row that is not `below` and fires at a score fires at every higher one; a `below` row fires at
      every lower one; an `eq` row fires at its threshold alone. */
  lemma ScoreRowIsMonotone(e: Entry, low: int, high: int, matched: seq<MatchedRule>, code: string)
    requires e.row.on == "score" && low <= high
    ensures !e.row.below && !e.row.eq && FiresAt(e, low, matched, code) ==> FiresAt(e, high, matched, code)
    ensures e.row.below && !e.row.eq && FiresAt(e, high, matched, code) ==> FiresAt(e, low, matched, code)
    ensures e.row.eq ==> (FiresAt(e, low, matched, code) <==> e.row.at == Some(low))
  {
  }

  // Rule rows.

  /** A loaded `on: rule` row lets through exactly the findings whose id one of its written ranges
      covers, if it has ranges, and that carry one of its tags, if it has tags. */
  lemma RulePasses(e: Entry, r: MatchedRule)
    requires Loaded(e) && e.row.on == "rule"
    ensures Passes(e, r) <==>
      && r.message != ""
      && (e.row.rules == [] || exists i :: 0 <= i < |e.row.rules| && Listed(e.row.rules[i], r.id))
      && (e.row.tags == [] || exists t :: t in e.row.tags && t in r.tags)
  {
    CompiledFilter(e);
    if Passes(e, r) {
      PassesMeansListed(e, r);
    }
    if i :| 0 <= i < |e.row.rules| && Listed(e.row.rules[i], r.id) {
      RangesCover(e.row.rules);
      assert e.ranges[i].0 <= r.id <= e.ranges[i].1;
    }
    if t :| t in e.row.tags && t in r.tags {
      var j :| 0 <= j < |e.row.tags| && e.row.tags[j] == t;
      var i :| 0 <= i < |r.tags| && r.tags[i] == t;
      assert r.tags[i] == e.row.tags[j];
    }
  }

  /** It fires whatever the verdict, with the code of the first rule it lets through. */
  lemma RuleRowFires(e: Entry, verdict: VerdictReply.Verdict, score: int, matched: seq<MatchedRule>, code: string, i: nat)
    requires e.row.on == "rule" && i < |matched| && matched[i].id >= 0
    requires Passes(e, matched[i]) && forall j :: 0 <= j < i ==> !Passes(e, matched[j])
    ensures VerdictTrigger(verdict, score, matched, code)(e) == Some("CRS_RULE_" + Decimal(matched[i].id))
  {
    HitIsFirst(e, matched);
  }

  // Overload rows.

  /** Without a shed an overload row fires from its threshold on, and one at a full queue never. */
  lemma OverloadRowFires(e: Entry, fill: int, code: string)
    requires e.row.on == "overload"
    ensures OverloadTrigger(fill, true, code)(e) == Some(code)
    ensures e.row.at == None || e.row.at.value >= 100 ==> OverloadTrigger(fill, false, code)(e) == None
    ensures e.row.at.Some? && e.row.at.value < 100 ==>
      OverloadTrigger(e.row.at.value, false, code)(e) == Some(code) && OverloadTrigger(e.row.at.value - 1, false, code)(e) == None
  {
  }

  /** No other row answers to an overload, and an overload row answers to no verdict. */
  lemma OnlyOverloadRows(e: Entry, fill: int, shed: bool, verdict: VerdictReply.Verdict, score: int, matched: seq<MatchedRule>, code: string)
    ensures e.row.on != "overload" ==> OverloadTrigger(fill, shed, code)(e) == None
    ensures e.row.on == "overload" ==> VerdictTrigger(verdict, score, matched, code)(e) == None
  {
  }

  // Which triggers are accepted.

  /** A trigger is accepted iff it is known, and a threshold and a side stand where they mean
      something: a score row has a threshold that is not negative and at most one side, an overload
      row one within the queue's percent or none, and no other row has either. */
  lemma TriggerAccepted(o: Row)
    ensures TriggerFlaw(o).None? <==>
      && o.on in {"deny", "allow", "rule", "score", "overload"}
      && (o.at.Some? ==> o.on in {"score", "overload"})
      && (o.below || o.eq ==> o.on == "score") && !(o.below && o.eq)
      && (o.on == "score" ==> o.at.Some? && o.at.value >= 0)
      && (o.on == "overload" && o.at.Some? ==> 25 <= o.at.value <= 100)
  {
  }

  /** A filter is accepted iff a rule row has one and no other row does, its ranges parse, and its tags
      are neither empty, nor long, nor padded, nor hold control characters. */
  lemma FilterAccepted(o: Row)
    ensures FilterFlaw(o).None? <==>
      && (o.on == "rule" <==> o.rules != [] || o.tags != [])
      && RangesOf(o.rules).Some? && forall t :: t in o.tags ==> !BadTag(t)
  {
    if t :| t in o.tags && BadTag(t) {
      var i :| 0 <= i < |o.tags| && o.tags[i] == t;
    }
    assert forall i :: 0 <= i < |o.tags| ==> o.tags[i] in o.tags;
  }

  /** An accepted row does one thing, ask or write a list, and its code, if it has one, is well formed. */
  lemma AcceptedShape(o: Row)
    requires Flaw(o).None?
    ensures o.verb == "" <==> o.list != ""
    ensures o.code == "" || IsCode(o.code)
    ensures TriggerFlaw(o).None? && FilterFlaw(o).None?
  {
  }

  // What can be written.

  const Blank := Row(
    "allow", None, false, false, [], [], "", "", "", "", None, None, "", "", "",
    None, None, None, [], "", "", "", "", "")

  /** A row that asks for `a` on an allow. */
  function AskRow(a: Action): Row {
    Blank.(to := a.to, verb := a.verb, apply := a.apply, phase := a.phase, delta := Some(a.delta), value := Some(a.value),
           counter := a.counter, group := a.group, setting := a.setting, headers := a.headers, args := a.args, body := a.body,
           words := a.words, marker := a.marker, ttl := InSeconds(a.ttl), code := a.code)
  }

  /** A row that makes the list write `b` on an allow. */
  function ListRow(b: Ban): Row {
    Blank.(list := b.dataset, write := b.write, ttl := InSeconds(Some(b.ttl)), code := b.reason)
  }

  function InSeconds(ttl: Option<int>): string {
    if ttl.Some? && ttl.value >= 0 then Decimal(ttl.value) + "s" else ""
  }

  lemma SecondsRead(o: Row, ttl: Option<int>)
    requires o.ttl == InSeconds(ttl) && (ttl.Some? ==> 0 < ttl.value < IntLimit)
    ensures ParseTTL(o.ttl) == Some(if ttl.Some? then ttl.value else 0)
    ensures Seconds(o) == if ttl.Some? then ttl.value else 0
  {
    if ttl.Some? {
      TTLRoundTrip(ttl.value, 's');
      assert InSeconds(ttl) == Decimal(ttl.value) + ['s'];
    } else {
      assert ToLower("") == "";
    }
  }

  lemma CanonicalIsFixed(words: seq<string>)
    requires words == [] || Canonical(words)
    ensures CanonicalWhen(words) == Some(words)
  {
    PlainWords();
    WordsOfKnown(words);
    assert |"allow"| != |"deny"|;
    var allow, deny := if "allow" in words then ["allow"] else [], if "deny" in words then ["deny"] else [];
    assert Distinct(words) && allow + deny == words;
  }

  lemma AuditRowAccepted(a: Action)
    requires SoundAction(a) && (a.ttl.Some? ==> a.ttl.value < IntLimit) && AuditVerb(a.verb)
    ensures AuditFlaw(AskRow(a)).None?
  {
    SecondsRead(AskRow(a), a.ttl);
    CanonicalIsFixed(a.words);
  }

  lemma AskRowFits(a: Action)
    requires SoundAction(a) && (AuditVerb(a.verb) ==> AuditFlaw(AskRow(a)).None?)
    ensures AskFlaw(AskRow(a)).None? && Asks(AskRow(a))
  {
    AskRowObjects(a);
    assert a.apply != "" && Axis(AskRow(a)) == a.apply;
  }

  lemma AskRowObjects(a: Action)
    requires SoundAction(a) && (AuditVerb(a.verb) ==> AuditFlaw(AskRow(a)).None?)
    ensures ObjectFlaw(AskRow(a)).None?
  {
  }

  lemma AskRowAccepted(a: Action)
    requires SoundAction(a) && IsCode(a.code) && (a.ttl.Some? ==> a.ttl.value < IntLimit)
    ensures Loaded(Entry(AskRow(a), [])) && Asks(AskRow(a))
  {
    if AuditVerb(a.verb) {
      AuditRowAccepted(a);
    }
    AskRowFits(a);
  }

  lemma OneRow(e: Entry, t: Trigger, addr: string)
    ensures Actions([e], t) == if t(e).Some? && Asks(e.row) then [Ask(e.row, t(e).value)] else []
    ensures Bans([e], t, addr) == if t(e).Some? && !Asks(e.row) && addr != "" then [BanOf(e.row, addr, t(e).value)] else []
  {
    assert [e][..0] == [];
  }

  lemma AskOfRow(a: Action, code: string)
    requires SoundAction(a) && IsCode(a.code) && (a.ttl.Some? ==> a.ttl.value < IntLimit)
    ensures Ask(AskRow(a), code) == a
  {
    var o := AskRow(a);
    SecondsRead(o, a.ttl);
    CanonicalIsFixed(a.words);
    assert Axis(o) == a.apply && Reason(o, code) == a.code;
  }

  /** Every sound ask can be asked for: some accepted row sends it, as it is, on an allow and on nothing
      else. */
  lemma AnySoundAsk(a: Action, matched: seq<MatchedRule>, code: string)
    requires SoundAction(a) && IsCode(a.code) && (a.ttl.Some? ==> a.ttl.value < IntLimit)
    ensures var e := Entry(AskRow(a), []);
      && Loaded(e)
      && (forall verdict, score :: Actions([e], VerdictTrigger(verdict, score, matched, code)) ==
            if verdict == VerdictReply.Allow then [a] else [])
  {
    AskRowAccepted(a);
    AskOfRow(a, code);
    var e := Entry(AskRow(a), []);
    forall verdict, score
      ensures Actions([e], VerdictTrigger(verdict, score, matched, code)) == if verdict == VerdictReply.Allow then [a] else []
    {
      OneRow(e, VerdictTrigger(verdict, score, matched, code), "");
    }
  }

  /** Every sound list write can be written too. */
  lemma AnySoundBan(b: Ban, matched: seq<MatchedRule>, code: string)
    requires SoundBan(b) && IsCode(b.reason) && b.ttl < IntLimit
    ensures var e := Entry(ListRow(b), []);
      && Loaded(e)
      && (forall verdict, score :: Bans([e], VerdictTrigger(verdict, score, matched, code), b.addr) ==
            if verdict == VerdictReply.Allow then [b] else [])
  {
    SecondsRead(ListRow(b), Some(b.ttl));
    var e := Entry(ListRow(b), []);
    assert ListFlaw(ListRow(b)).None?;
    forall verdict, score
      ensures Bans([e], VerdictTrigger(verdict, score, matched, code), b.addr) == if verdict == VerdictReply.Allow then [b] else []
    {
      OneRow(e, VerdictTrigger(verdict, score, matched, code), b.addr);
    }
  }

  /** What a row leaves out: a list write goes to the address, an ask carries the trigger's code, and no
      delta or value is none. */
  lemma Defaults(o: Row, addr: string, code: string)
    ensures o.write == "" ==> BanOf(o, addr, code).write == "addr"
    ensures o.code == "" ==> Ask(o, code).code == code && BanOf(o, addr, code).reason == code
    ensures o.delta == None ==> Ask(o, code).delta == 0
    ensures o.value == None ==> Ask(o, code).value == 0
    ensures Flaw(o).None? && Asks(o) && o.apply == "" ==>
      Ask(o, code).apply == (if o.verb == "reauth" then "session" else "request")
  {
    if Flaw(o).None? && Asks(o) {
      AcceptedVerb(o);
    }
  }
}
