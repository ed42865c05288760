/** What fires: the asks and list writes of the policy rows a verdict, a rule or an overload
    triggers. */
module PolicyFire {
  import opened Common
  import opened EngineSpec
  import opened PolicyRows
  import opened RuleFilter
  import opened Text
  import VerdictReply

  datatype Action = Action(
    to: string, verb: string, apply: string, phase: string, code: string,
    delta: int, value: int, counter: string, marker: string, group: string, setting: string,
    ttl: Option<int>, words: seq<string>,
    headers: Option<ObjectSpec>, args: Option<ObjectSpec>, body: Option<ObjectSpec>)

  datatype Ban = Ban(dataset: string, write: string, addr: string, ttl: int, reason: string)

  datatype Fired = Fired(actions: seq<Action>, bans: seq<Ban>, names: seq<string>)

  /** Whether a row is triggered, and with which code. */
  type Trigger = Entry -> Option<string>

  // Triggers.

  predicate Matches(o: Row, verdict: VerdictReply.Verdict, score: int) {
    match o.on
    case "allow" => verdict == VerdictReply.Allow
    case "deny" => verdict == VerdictReply.Deny || verdict == VerdictReply.Redirect
    case "score" =>
      && verdict == VerdictReply.Score && o.at.Some?
      && if o.eq then score == o.at.value else if o.below then score < o.at.value else score >= o.at.value
    case _ => false
  }

  predicate Passes(e: Entry, r: MatchedRule) {
    && IsFinding(r)
    && (e.row.rules != [] ==> Has(e.ranges, r.id))
    && (e.row.tags != [] ==> Tagged(r, e.row.tags))
  }

  /** The first matched rule a row's filter lets through. */
  function Hit(e: Entry, matched: seq<MatchedRule>): Option<MatchedRule> {
    if matched == [] then None
    else if Passes(e, matched[0]) then Some(matched[0])
    else Hit(e, matched[1..])
  }

  lemma {:induction false} HitIsFirst(e: Entry, matched: seq<MatchedRule>)
    ensures Hit(e, matched).None? <==> forall i :: 0 <= i < |matched| ==> !Passes(e, matched[i])
    ensures Hit(e, matched).Some? ==>
              exists i :: 0 <= i < |matched| && Passes(e, matched[i]) && Hit(e, matched) == Some(matched[i]) &&
                          forall j :: 0 <= j < i ==> !Passes(e, matched[j])
  {
    if matched != [] && !Passes(e, matched[0]) {
      var rest := matched[1..];
      HitIsFirst(e, rest);
      assert forall i :: 1 <= i < |matched| ==> matched[i] == rest[i - 1];
      if Hit(e, rest).Some? {
        var i :| 0 <= i < |rest| && Passes(e, rest[i]) && Hit(e, rest) == Some(rest[i]) &&
                 forall j :: 0 <= j < i ==> !Passes(e, rest[j]);
        assert matched[i + 1] == rest[i];
        assert forall j :: 1 <= j < i + 1 ==> !Passes(e, matched[j]);
      }
    }
  }

  /** A loaded `on: rule` row fires on a rule only if one of its written ranges covers the rule's
      id (if it has ranges) and the rule carries one of its tags (if it has tags). */
  lemma HitMeansListed(e: Entry, matched: seq<MatchedRule>)
    requires Loaded(e) && e.row.on == "rule" && Hit(e, matched).Some?
    ensures var r := Hit(e, matched).value;
      && r in matched && r.message != ""
      && (e.row.rules == [] || exists i :: 0 <= i < |e.row.rules| && Listed(e.row.rules[i], r.id))
      && (e.row.tags == [] || exists t :: t in e.row.tags && t in r.tags)
  {
    HitIsFirst(e, matched);
    CompiledFilter(e);
    PassesMeansListed(e, Hit(e, matched).value);
  }

  lemma PassesMeansListed(e: Entry, r: MatchedRule)
    requires RangesOf(e.row.rules) == Some(e.ranges) && Passes(e, r)
    ensures e.row.rules == [] || exists i :: 0 <= i < |e.row.rules| && Listed(e.row.rules[i], r.id)
    ensures e.row.tags == [] || exists t :: t in e.row.tags && t in r.tags
  {
    if e.row.rules != [] {
      RangesCover(e.row.rules);
      var i :| 0 <= i < |e.ranges| && e.ranges[i].0 <= r.id <= e.ranges[i].1;
      assert Cut(e.row.rules[i]) == Some(e.ranges[i]);
      assert Listed(e.row.rules[i], r.id);
    }
    if e.row.tags != [] {
      var i, j :| 0 <= i < |r.tags| && 0 <= j < |e.row.tags| && r.tags[i] == e.row.tags[j];
      assert e.row.tags[j] in e.row.tags && e.row.tags[j] in r.tags;
    }
  }

  lemma CompiledFilter(e: Entry)
    requires Loaded(e) && e.row.on == "rule"
    ensures RangesOf(e.row.rules) == Some(e.ranges)
  {
    assert FilterFlaw(e.row).None?;
  }

  predicate Listed(item: string, id: int) {
    Cut(item).Some? && Cut(item).value.0 <= id <= Cut(item).value.1
  }

  function Itoa(n: int): string {
    if n < 0 then "-" + Decimal(-n) else Decimal(n)
  }

  function RuleCode(id: int): string {
    "CRS_RULE_" + Itoa(id)
  }

  function VerdictTrigger(verdict: VerdictReply.Verdict, score: int, matched: seq<MatchedRule>, code: string): Trigger {
    (e: Entry) =>
      if e.row.on == "rule" then
        var hit := Hit(e, matched);
        if hit.Some? then Some(RuleCode(hit.value.id)) else None
      else if Matches(e.row, verdict, score) then Some(code)
      else None
  }

  /** The fill from which a row fires; the full queue only fires on a shed. */
  predicate OverloadFires(at: Option<int>, fill: int, shed: bool) {
    shed || (OverloadAt(at) < AtMax && fill >= OverloadAt(at))
  }

  function OverloadTrigger(fill: int, shed: bool, code: string): Trigger {
    (e: Entry) => if e.row.on == "overload" && OverloadFires(e.row.at, fill, shed) then Some(code) else None
  }

  // Firing.

  function Reason(o: Row, code: string): string {
    if o.code != "" then o.code else code
  }

  function Name(o: Row): string {
    if Asks(o) then o.verb else o.list
  }

  function Ask(o: Row, code: string): Action {
    var archives := o.verb == "archive" && o.setting == "on";
    var canonical := CanonicalWhen(o.words);
    Action(o.to, o.verb, Axis(o), o.phase, Reason(o, code),
           if o.delta.Some? then o.delta.value else 0,
           if o.value.Some? then o.value.value else 0,
           o.counter, o.marker, o.group, o.setting,
           if archives && Seconds(o) > 0 then Some(Seconds(o)) else None,
           if archives && o.words != [] && canonical.Some? then canonical.value else [],
           o.headers, o.args, o.body)
  }

  function BanOf(o: Row, addr: string, code: string): Ban {
    Ban(o.list, Subject(o), addr, Seconds(o), Reason(o, code))
  }

  predicate Fires(e: Entry, trigger: Trigger, addr: string) {
    trigger(e).Some? && (Asks(e.row) || addr != "")
  }

  /** The positions of the rows that fire. */
  function FiredRows(entries: seq<Entry>, trigger: Trigger, addr: string): seq<nat> {
    if entries == [] then []
    else
      var n := |entries| - 1;
      FiredRows(entries[..n], trigger, addr) + if Fires(entries[n], trigger, addr) then [n] else []
  }

  function Actions(entries: seq<Entry>, trigger: Trigger): seq<Action> {
    if entries == [] then []
    else
      var e := entries[|entries| - 1];
      Actions(entries[..|entries| - 1], trigger) +
      if trigger(e).Some? && Asks(e.row) then [Ask(e.row, trigger(e).value)] else []
  }

  function Bans(entries: seq<Entry>, trigger: Trigger, addr: string): seq<Ban> {
    if entries == [] then []
    else
      var e := entries[|entries| - 1];
      Bans(entries[..|entries| - 1], trigger, addr) +
      if trigger(e).Some? && !Asks(e.row) && addr != "" then [BanOf(e.row, addr, trigger(e).value)] else []
  }

  function Names(entries: seq<Entry>, rows: seq<nat>): seq<string>
    requires forall k :: 0 <= k < |rows| ==> rows[k] < |entries|
  {
    seq(|rows|, k requires 0 <= k < |rows| => Name(entries[rows[k]].row))
  }

  /** The rows that fire, each once, in order. */
  ghost predicate RowsThatFire(entries: seq<Entry>, trigger: Trigger, addr: string, rows: seq<nat>) {
    && (forall k :: 0 <= k < |rows| ==> rows[k] < |entries| && Fires(entries[rows[k]], trigger, addr))
    && (forall j, k :: 0 <= j < k < |rows| ==> rows[j] < rows[k])
    && (forall i :: 0 <= i < |entries| && Fires(entries[i], trigger, addr) ==> i in rows)
  }

  lemma {:induction false} FiredRowsAre(entries: seq<Entry>, trigger: Trigger, addr: string)
    ensures RowsThatFire(entries, trigger, addr, FiredRows(entries, trigger, addr))
    ensures |FiredRows(entries, trigger, addr)| == |Actions(entries, trigger)| + |Bans(entries, trigger, addr)|
  {
    if entries != [] {
      var n := |entries| - 1;
      FiredRowsAre(entries[..n], trigger, addr);
      OneMoreRow(entries, n, trigger, addr, FiredRows(entries[..n], trigger, addr));
    }
  }

  lemma OneMoreRow(entries: seq<Entry>, n: nat, trigger: Trigger, addr: string, rows: seq<nat>)
    requires n == |entries| - 1 && RowsThatFire(entries[..n], trigger, addr, rows)
    ensures RowsThatFire(entries, trigger, addr, rows + if Fires(entries[n], trigger, addr) then [n] else [])
  {
    var init, more := entries[..n], rows + if Fires(entries[n], trigger, addr) then [n] else [];
    assert forall k :: 0 <= k < |rows| ==> more[k] == rows[k] && init[rows[k]] == entries[rows[k]];
    forall i | 0 <= i < |entries| && Fires(entries[i], trigger, addr)
      ensures i in more
    {
      if i < n {
        assert init[i] == entries[i] && i in rows;
      } else {
        assert more[|rows|] == n;
      }
    }
  }

  /** The loop behind Fire and FireOverload. */
  method Run(entries: seq<Entry>, trigger: Trigger, addr: string) returns (out: Fired)
    ensures out.actions == Actions(entries, trigger) && out.bans == Bans(entries, trigger, addr)
    ensures RowsThatFire(entries, trigger, addr, FiredRows(entries, trigger, addr))
    ensures out.names == Names(entries, FiredRows(entries, trigger, addr))
    ensures |out.names| == |out.actions| + |out.bans|
  {
    out := Fired([], [], []);
    FiredRowsAre(entries, trigger, addr);
    for i := 0 to |entries|
      invariant out.actions == Actions(entries[..i], trigger) && out.bans == Bans(entries[..i], trigger, addr)
      invariant out.names == NamesUpTo(entries, i, trigger, addr)
    {
      EffectsStep(entries, i, trigger, addr);
      NamesStep(entries, i, trigger, addr);
      var e := entries[i];
      var code := trigger(e);
      if code.None? {
        continue;
      }
      if Asks(e.row) {
        out := out.(actions := out.actions + [Ask(e.row, code.value)], names := out.names + [Name(e.row)]);
        continue;
      }
      if addr == "" {
        continue;
      }
      out := out.(bans := out.bans + [BanOf(e.row, addr, code.value)], names := out.names + [Name(e.row)]);
    }
    assert entries[..|entries|] == entries;
  }

  lemma EffectsStep(entries: seq<Entry>, n: nat, trigger: Trigger, addr: string)
    requires n < |entries|
    ensures var e := entries[n];
      && Actions(entries[..n + 1], trigger) ==
           Actions(entries[..n], trigger) + (if trigger(e).Some? && Asks(e.row) then [Ask(e.row, trigger(e).value)] else [])
      && Bans(entries[..n + 1], trigger, addr) ==
           Bans(entries[..n], trigger, addr) + (if trigger(e).Some? && !Asks(e.row) && addr != "" then [BanOf(e.row, addr, trigger(e).value)] else [])
  {
    assert entries[..n + 1][..n] == entries[..n];
  }

  function NamesUpTo(entries: seq<Entry>, n: nat, trigger: Trigger, addr: string): seq<string>
    requires n <= |entries|
  {
    FiredRowsAre(entries[..n], trigger, addr);
    Names(entries[..n], FiredRows(entries[..n], trigger, addr))
  }

  lemma NamesStep(entries: seq<Entry>, n: nat, trigger: Trigger, addr: string)
    requires n < |entries|
    ensures NamesUpTo(entries, n + 1, trigger, addr) ==
            NamesUpTo(entries, n, trigger, addr) + if Fires(entries[n], trigger, addr) then [Name(entries[n].row)] else []
  {
    var init, next := entries[..n], entries[..n + 1];
    assert next[..n] == init && next[n] == entries[n];
    FiredRowsAre(init, trigger, addr);
    FiredRowsAre(next, trigger, addr);
    NamesOfMore(init, next, FiredRows(init, trigger, addr), if Fires(entries[n], trigger, addr) then [n] else []);
  }

  lemma NamesOfMore(init: seq<Entry>, next: seq<Entry>, rows: seq<nat>, more: seq<nat>)
    requires init <= next
    requires forall k :: 0 <= k < |rows| ==> rows[k] < |init|
    requires forall k :: 0 <= k < |more| ==> more[k] < |next|
    ensures Names(next, rows + more) == Names(init, rows) + Names(next, more)
  {
  }

  /** The rows a verdict triggers, told from the verdict's side: an allow those on allow, a deny or a
      redirect those on deny, a score those on score that it reaches, and any verdict the rule rows
      that some matched rule passes. */
  ghost predicate TriggeredBy(e: Entry, verdict: VerdictReply.Verdict, score: int, matched: seq<MatchedRule>) {
    || (e.row.on == "rule" && exists i :: 0 <= i < |matched| && Passes(e, matched[i]))
    || match verdict
       case Allow => e.row.on == "allow"
       case Deny | Redirect => e.row.on == "deny"
       case Score => e.row.on == "score" && e.row.at.Some? && Reached(e.row, score - e.row.at.value)
       case Error => false
  }

  /** A score lies `over` above a row's threshold. */
  predicate Reached(o: Row, over: int) {
    if o.eq then over == 0 else o.below == (over < 0)
  }

  lemma TriggeredRows(e: Entry, verdict: VerdictReply.Verdict, score: int, matched: seq<MatchedRule>, code: string)
    ensures VerdictTrigger(verdict, score, matched, code)(e).Some? <==> TriggeredBy(e, verdict, score, matched)
  {
    HitIsFirst(e, matched);
  }

  method Fire(entries: seq<Entry>, verdict: VerdictReply.Verdict, score: int, matched: seq<MatchedRule>, addr: string, code: string)
    returns (out: Fired)
    ensures var trigger := VerdictTrigger(verdict, score, matched, code);
      && out.actions == Actions(entries, trigger) && out.bans == Bans(entries, trigger, addr)
      && |out.names| == |FiredRows(entries, trigger, addr)| == |out.actions| + |out.bans|
      && (forall e :: e in entries ==> (trigger(e).Some? <==> TriggeredBy(e, verdict, score, matched)))
  {
    forall e | e in entries
      ensures VerdictTrigger(verdict, score, matched, code)(e).Some? <==> TriggeredBy(e, verdict, score, matched)
    {
      TriggeredRows(e, verdict, score, matched, code);
    }
    FiredRowsAre(entries, VerdictTrigger(verdict, score, matched, code), addr);
    out := Run(entries, VerdictTrigger(verdict, score, matched, code), addr);
  }

  method FireOverload(entries: seq<Entry>, fill: int, shed: bool, addr: string, code: string) returns (out: Fired)
    ensures var trigger := OverloadTrigger(fill, shed, code);
      && out.actions == Actions(entries, trigger) && out.bans == Bans(entries, trigger, addr)
      && |out.names| == |FiredRows(entries, trigger, addr)| == |out.actions| + |out.bans|
  {
    FiredRowsAre(entries, OverloadTrigger(fill, shed, code), addr);
    out := Run(entries, OverloadTrigger(fill, shed, code), addr);
  }

  /** A request's outcomes: what its verdict fires, then what the queue's fill fires. No row fires
      twice, so there are never more effects than rows. */
  method FireRequest(entries: seq<Entry>, verdict: VerdictReply.Verdict, score: int, matched: seq<MatchedRule>,
                     fill: int, addr: string, code: string, overloadCode: string)
    returns (out: Fired)
    ensures var t, u := VerdictTrigger(verdict, score, matched, code), OverloadTrigger(fill, false, overloadCode);
      && out.actions == Actions(entries, t) + Actions(entries, u)
      && out.bans == Bans(entries, t, addr) + Bans(entries, u, addr)
    ensures |out.names| == |out.actions| + |out.bans| <= |entries|
  {
    out := Fire(entries, verdict, score, matched, addr, code);
    var more := FireOverload(entries, fill, false, addr, overloadCode);
    VerdictAndOverloadAreDisjoint(entries, verdict, score, matched, fill, false, code, overloadCode);
    OnceOverall(entries, VerdictTrigger(verdict, score, matched, code), OverloadTrigger(fill, false, overloadCode), addr);
    out := Fired(out.actions + more.actions, out.bans + more.bans, out.names + more.names);
  }

  predicate Disjoint(entries: seq<Entry>, t: Trigger, u: Trigger) {
    forall i :: 0 <= i < |entries| ==> t(entries[i]).None? || u(entries[i]).None?
  }

  /** Triggers that share no row fire each row at most once between them. */
  lemma {:induction false} OnceOverall(entries: seq<Entry>, t: Trigger, u: Trigger, addr: string)
    requires Disjoint(entries, t, u)
    ensures |FiredRows(entries, t, addr)| + |FiredRows(entries, u, addr)| <= |entries|
    ensures forall i :: !(i in FiredRows(entries, t, addr) && i in FiredRows(entries, u, addr))
  {
    if entries != [] {
      var n := |entries| - 1;
      OnceOverall(entries[..n], t, u, addr);
      FiredRowsAre(entries, t, addr);
      FiredRowsAre(entries, u, addr);
    }
  }

  /** No row answers both to a verdict and to an overload. */
  lemma VerdictAndOverloadAreDisjoint(entries: seq<Entry>, verdict: VerdictReply.Verdict, score: int, matched: seq<MatchedRule>,
                                      fill: int, shed: bool, code: string, overloadCode: string)
    ensures Disjoint(entries, VerdictTrigger(verdict, score, matched, code), OverloadTrigger(fill, shed, overloadCode))
  {
  }

  // Soundness.

  /** What the gateway may rely on in an ask: a known verb on an axis it takes, everything the verb
      needs, and nothing only another verb may have. */
  predicate SoundAction(a: Action) {
    && a.verb in Verbs && a.apply in Verbs[a.verb]
    && (a.verb == "threshold" ==> a.delta != 0)
    && (a.verb == "note" || a.verb == "score" ==> a.value != 0)
    && -100 <= a.delta <= 900 && -100 <= a.value <= 100
    && TargetFits(a.verb, a.to) && PhaseFits(a.verb, a.phase, a.apply)
    && CounterFits(a.verb, a.counter) && GroupFits(a.verb, a.group) && MarkerFits(a.verb, a.marker)
    && SettingFits(a.verb, a.setting)
    && ObjectsFit(a.verb, a.setting, a.apply, a.headers, a.args, a.body)
    && (a.ttl.Some? ==> a.verb == "archive" && a.setting == "on" && a.ttl.value > 0)
    && (a.words != [] ==> a.verb == "archive" && a.setting == "on" && Canonical(a.words))
  }

  predicate Canonical(words: seq<string>) {
    words == ["allow"] || words == ["deny"] || words == ["allow", "deny"]
  }

  lemma WhenIsSmall(words: seq<string>)
    requires words != [] && CanonicalWhen(words).Some?
    ensures Canonical(CanonicalWhen(words).value)
  {
    assert Words(words)[0] in Words(words);
  }

  predicate SoundBan(b: Ban) {
    && b.ttl > 0 && b.addr != "" && IsName(b.dataset)
    && b.write in {"addr", "net", "net_all", "asn"}
  }

  lemma {:induction false} ActionsAreSound(entries: seq<Entry>, trigger: Trigger)
    requires AllLoaded(entries)
    ensures forall k :: 0 <= k < |Actions(entries, trigger)| ==> SoundAction(Actions(entries, trigger)[k])
  {
    if entries != [] {
      var e := entries[|entries| - 1];
      ActionsAreSound(entries[..|entries| - 1], trigger);
      assert Loaded(e);
      if trigger(e).Some? && Asks(e.row) {
        AskIsSound(e.row, trigger(e).value);
      }
    }
  }

  lemma AskIsSound(o: Row, code: string)
    requires Flaw(o).None? && Asks(o)
    ensures SoundAction(Ask(o, code))
  {
    AcceptedVerb(o);
    AcceptedAsk(o);
    if o.words != [] && CanonicalWhen(o.words).Some? {
      WhenIsSmall(o.words);
    }
  }

  lemma {:induction false} BansAreSound(entries: seq<Entry>, trigger: Trigger, addr: string)
    requires AllLoaded(entries)
    ensures forall k :: 0 <= k < |Bans(entries, trigger, addr)| ==> SoundBan(Bans(entries, trigger, addr)[k])
  {
    if entries != [] {
      var e := entries[|entries| - 1];
      BansAreSound(entries[..|entries| - 1], trigger, addr);
      assert Loaded(e);
      if !Asks(e.row) {
        AcceptedList(e.row);
      }
    }
  }

  /** On a deny or redirect the asks a verdict fires only write records, iff no `on: rule` row that
      hits asks for more: the check of `on: deny` rows does not cover `on: rule` rows. These are
      all the asks of a response or a frame. */
  lemma DenyOnlyRecords(entries: seq<Entry>, verdict: VerdictReply.Verdict, score: int, matched: seq<MatchedRule>, code: string)
    requires AllLoaded(entries) && (verdict == VerdictReply.Deny || verdict == VerdictReply.Redirect)
    ensures OnlyRecords(Actions(entries, VerdictTrigger(verdict, score, matched, code)))
            <==> forall i :: 0 <= i < |entries| ==> !AsksMoreByRule(entries[i], matched)
  {
    var t := VerdictTrigger(verdict, score, matched, code);
    ActionsComeFromRows(entries, t);
    forall i | 0 <= i < |entries|
      ensures AsksMore(entries[i], t) <==> AsksMoreByRule(entries[i], matched)
    {
      assert Loaded(entries[i]);
      AsksMoreOnDeny(entries[i], verdict, score, matched, code);
    }
  }

  predicate AsksMoreByOverload(e: Entry, fill: int) {
    e.row.on == "overload" && Asks(e.row) && !RecordVerb(e.row.verb) && OverloadFires(e.row.at, fill, false)
  }

  /** A request sends the asks of overload rows as well, whatever its verdict: on a deny or redirect
      its asks only write records, iff neither an `on: rule` row that hits nor an `on: overload`
      row at the queue's fill asks for more. */
  lemma RequestDenyOnlyRecords(entries: seq<Entry>, verdict: VerdictReply.Verdict, score: int, matched: seq<MatchedRule>,
                               fill: int, code: string, overloadCode: string)
    requires AllLoaded(entries) && (verdict == VerdictReply.Deny || verdict == VerdictReply.Redirect)
    ensures OnlyRecords(Actions(entries, VerdictTrigger(verdict, score, matched, code)) +
                        Actions(entries, OverloadTrigger(fill, false, overloadCode)))
            <==> forall i :: 0 <= i < |entries| ==>
                   !AsksMoreByRule(entries[i], matched) && !AsksMoreByOverload(entries[i], fill)
  {
    RecordsConcat(Actions(entries, VerdictTrigger(verdict, score, matched, code)),
                  Actions(entries, OverloadTrigger(fill, false, overloadCode)));
    DenyOnlyRecords(entries, verdict, score, matched, code);
    OverloadOnlyRecords(entries, fill, overloadCode);
  }

  lemma OverloadOnlyRecords(entries: seq<Entry>, fill: int, code: string)
    ensures OnlyRecords(Actions(entries, OverloadTrigger(fill, false, code)))
            <==> forall i :: 0 <= i < |entries| ==> !AsksMoreByOverload(entries[i], fill)
  {
    var u := OverloadTrigger(fill, false, code);
    ActionsComeFromRows(entries, u);
    assert forall i :: 0 <= i < |entries| ==> (AsksMore(entries[i], u) <==> AsksMoreByOverload(entries[i], fill));
  }

  lemma AsksMoreOnDeny(e: Entry, verdict: VerdictReply.Verdict, score: int, matched: seq<MatchedRule>, code: string)
    requires Loaded(e) && (verdict == VerdictReply.Deny || verdict == VerdictReply.Redirect)
    ensures AsksMore(e, VerdictTrigger(verdict, score, matched, code)) <==> AsksMoreByRule(e, matched)
  {
    if e.row.on == "deny" && Asks(e.row) {
      AcceptedVerb(e.row);
    }
  }

  predicate OnlyRecords(actions: seq<Action>) {
    forall k :: 0 <= k < |actions| ==> RecordVerb(actions[k].verb)
  }

  predicate AsksMore(e: Entry, t: Trigger) {
    t(e).Some? && Asks(e.row) && !RecordVerb(e.row.verb)
  }

  predicate AsksMoreByRule(e: Entry, matched: seq<MatchedRule>) {
    e.row.on == "rule" && Asks(e.row) && !RecordVerb(e.row.verb) && Hit(e, matched).Some?
  }

  /** The verbs that fire are those of the triggered rows that ask. */
  lemma {:induction false} ActionsComeFromRows(entries: seq<Entry>, t: Trigger)
    ensures OnlyRecords(Actions(entries, t)) <==> forall i :: 0 <= i < |entries| ==> !AsksMore(entries[i], t)
  {
    if entries != [] {
      var n := |entries| - 1;
      var init, e := entries[..n], entries[n];
      ActionsComeFromRows(init, t);
      assert entries == init + [e];
      var last := if t(e).Some? && Asks(e.row) then [Ask(e.row, t(e).value)] else [];
      RecordsConcat(Actions(init, t), last);
      assert OnlyRecords(last) <==> !AsksMore(e, t);
    }
  }

  lemma RecordsConcat(a: seq<Action>, b: seq<Action>)
    ensures OnlyRecords(a + b) <==> OnlyRecords(a) && OnlyRecords(b)
  {
    assert forall k :: 0 <= k < |b| ==> (a + b)[|a| + k] == b[k];
    assert forall k :: 0 <= k < |a| ==> (a + b)[k] == a[k];
  }

  /** A row that shows it: a challenge asked by an `on: rule` row goes out with a deny. */
  lemma RuleRowAsksOnDeny() returns (e: Entry, r: MatchedRule)
    ensures Loaded(e)
    ensures AsksMoreByRule(e, [r])
    ensures !OnlyRecords(Actions([e], VerdictTrigger(VerdictReply.Deny, 0, [r], "CRS_RULE")))
  {
    e, r := Entry(ChallengeRow, []), MatchedRule(942100, 2, "SQL injection", ["sqli"]);
    ChallengeRowLoaded();
    assert r.tags[0] == e.row.tags[0];
    assert Passes(e, r);
    assert AsksMore([e][0], VerdictTrigger(VerdictReply.Deny, 0, [r], "CRS_RULE"));
    ActionsComeFromRows([e], VerdictTrigger(VerdictReply.Deny, 0, [r], "CRS_RULE"));
  }

  const ChallengeRow := Row(
    "rule", None, false, false, [], ["sqli"], "", "challenge", "", "", None, None, "", "", "",
    None, None, None, [], "", "", "", "", "")

  lemma ChallengeRowLoaded()
    ensures Loaded(Entry(ChallengeRow, []))
  {
    TrimNothing("sqli");
    assert !BadTag("sqli");
  }

  /** And one by overload: with the queue 60 percent full, a challenge at 50 goes out with a deny
      although no rule has matched. */
  lemma OverloadRowAsksOnDeny() returns (e: Entry)
    ensures Loaded(e)
    ensures !AsksMoreByRule(e, []) && AsksMoreByOverload(e, 60)
    ensures !OnlyRecords(Actions([e], OverloadTrigger(60, false, "MODSEC_QUEUE_LIMIT")))
  {
    e := Entry(BusyRow, []);
    BusyRowLoaded();
    assert AsksMore([e][0], OverloadTrigger(60, false, "MODSEC_QUEUE_LIMIT"));
    ActionsComeFromRows([e], OverloadTrigger(60, false, "MODSEC_QUEUE_LIMIT"));
  }

  const BusyRow := Row(
    "overload", Some(50), false, false, [], [], "", "challenge", "", "", None, None, "", "", "",
    None, None, None, [], "", "", "", "", "")

  lemma BusyRowLoaded()
    ensures Loaded(Entry(BusyRow, []))
  {
  }

  // Thresholds.

  /** A score row and its `below` twin split the scores between them. */
  lemma ScoreRowsSplit(o: Row, score: int)
    requires o.on == "score" && o.at.Some? && !o.eq
    ensures Matches(o.(below := true), VerdictReply.Score, score) <==> !Matches(o.(below := false), VerdictReply.Score, score)
  {
  }

  /** The threshold of a row that names none is a full queue. */
  function OverloadAt(at: Option<int>): int {
    if at.Some? then at.value else AtMax
  }

  /** A fuller queue, or a shed, never silences a row; without a shed only a threshold below a full
      queue fires. */
  lemma OverloadIsMonotone(at: Option<int>, fill: int, more: int, shed: bool)
    requires fill <= more && OverloadFires(at, fill, shed)
    ensures OverloadFires(at, more, shed) && OverloadFires(at, fill, true)
    ensures !shed ==> at.Some? && at.value < AtMax
  {
  }

  /** On a shed every row fires; without one an accepted row fires at some fill of the queue iff its
      threshold is below a full one. */
  lemma OverloadFiresIff(at: Option<int>)
    requires !OutOf(at, AtMin, AtMax)
    ensures (exists fill :: 0 <= fill <= 100 && OverloadFires(at, fill, false)) <==> OverloadAt(at) < AtMax
    ensures forall fill :: OverloadFires(at, fill, true)
  {
    if OverloadAt(at) < AtMax {
      assert OverloadFires(at, OverloadAt(at), false);
    }
  }
}
