/** Policy rows: what a row says, which rows are accepted, and what an accepted row promises. */
module PolicyRows {
  import opened Common
  import opened EngineSpec
  import opened RuleFilter
  import opened Sequences
  import opened Text

  datatype ObjectSpec = ObjectSpec(setting: string, limit: int, source: string)

  /** One row of the outcomes list, as it is written. */
  datatype Row = Row(
    on: string, at: Option<int>, below: bool, eq: bool,
    rules: seq<string>, tags: seq<string>,
    to: string, verb: string, apply: string, phase: string,
    delta: Option<int>, value: Option<int>, counter: string, group: string, setting: string,
    headers: Option<ObjectSpec>, args: Option<ObjectSpec>, body: Option<ObjectSpec>,
    words: seq<string>, marker: string,
    list: string, write: string, ttl: string, code: string)

  /** A row with the ranges compiled from its rules. */
  datatype Entry = Entry(row: Row, ranges: Ranges)

  const Verbs: map<string, seq<string>> := map[
    "challenge" := ["request"],
    "threshold" := ["request"],
    "skip" := ["request"],
    "mutate" := ["request"],
    "reauth" := ["session"],
    "note" := ["request", "ip", "asn", "session"],
    "active" := ["request", "conn"],
    "passive" := ["request", "conn"],
    "off" := ["request", "conn"],
    "vote" := ["request", "conn"],
    "audit" := ["request", "response"],
    "archive" := ["request", "response"],
    "mark" := ["request"],
    "score" := ["request"]]

  predicate AuditVerb(verb: string) { verb == "audit" || verb == "archive" }

  predicate RecordVerb(verb: string) { AuditVerb(verb) || verb == "mark" || verb == "score" }

  predicate ControlVerb(verb: string) {
    verb == "active" || verb == "passive" || verb == "off" || verb == "vote"
  }

  predicate Asks(o: Row) { o.verb != "" }

  function Subject(o: Row): string {
    if o.write == "" then "addr" else o.write
  }

  function Axis(o: Row): string {
    if o.apply != "" then o.apply
    else if o.verb in Verbs && (|Verbs[o.verb]| == 1 || AuditVerb(o.verb)) then Verbs[o.verb][0]
    else ""
  }

  // Time to live.

  function ParseTTL(raw: string): (r: Option<int>)
    ensures r.Some? ==> r.value >= 0
  {
    var s := TrimSpace(ToLower(raw));
    if s == "" then Some(0)
    else
      var unit := UnitOf(s[|s| - 1]);
      var n := Atoi(TrimSpace(if unit > 0 then s[..|s| - 1] else s));
      if n.None? || n.value < 0 then None else Some(n.value * if unit > 0 then unit else 1)
  }

  /** Seconds in a unit; 0 for a character that is none. */
  function UnitOf(c: char): nat {
    match c
    case 's' => 1
    case 'm' => 60
    case 'h' => 3600
    case 'd' => 86400
    case _ => 0
  }

  function Seconds(o: Row): int {
    var n := ParseTTL(o.ttl);
    if n.Some? then n.value else 0
  }

  /** A written time to live reads back, in any unit and either case. */
  lemma TTLRoundTrip(n: nat, unit: char)
    requires n < IntLimit && UnitOf(LowerChar(unit)) > 0
    ensures ParseTTL(Decimal(n) + [unit]) == Some(n * UnitOf(LowerChar(unit)))
    ensures ParseTTL(Decimal(n)) == Some(n)
  {
    var d := Decimal(n);
    var u := LowerChar(unit);
    DecimalDigits(n);
    TrimNothing(d);
    TrimNothing(d + [u]);
    assert ToLower(d) == d;
    assert ToLower(d + [unit]) == d + [u];
    ReadsUnit(d + [unit], n, d, u);
    AtoiDecimal(n);
    DigitIsNoUnit(d[|d| - 1]);
    ReadsPlain(d, n);
  }

  /** Seconds, minutes, hours and days; any other character is no unit. */
  lemma Units(c: char)
    ensures UnitOf(LowerChar(c)) == match c
      case 's' | 'S' => 1
      case 'm' | 'M' => 60
      case 'h' | 'H' => 60 * 60
      case 'd' | 'D' => 24 * 60 * 60
      case _ => 0
  {
  }

  lemma ReadsUnit(raw: string, n: nat, d: string, u: char)
    requires n < IntLimit && d == Decimal(n) && UnitOf(u) > 0 && TrimSpace(d) == d
    requires TrimSpace(ToLower(raw)) == d + [u]
    ensures ParseTTL(raw) == Some(n * UnitOf(u))
  {
    var s := d + [u];
    assert s[|s| - 1] == u && s[..|s| - 1] == d;
    AtoiDecimal(n);
  }

  lemma ReadsPlain(raw: string, n: nat)
    requires raw != "" && UnitOf(raw[|raw| - 1]) == 0 && Atoi(raw) == Some(n)
    requires TrimSpace(ToLower(raw)) == raw && TrimSpace(raw) == raw
    ensures ParseTTL(raw) == Some(n)
  {
  }

  lemma DigitIsNoUnit(c: char)
    requires IsDigit(c)
    ensures UnitOf(c) == 0
  {
  }

  // The archive's `when` words.

  function Word(w: string): string {
    ToLower(TrimSpace(w))
  }

  function Words(words: seq<string>): seq<string> {
    seq(|words|, i requires 0 <= i < |words| => Word(words[i]))
  }

  predicate KnownWord(w: string) { w == "allow" || w == "deny" }

  /** Each of allow and deny at most once, in a fixed order. */
  function CanonicalWhen(words: seq<string>): Option<seq<string>> {
    var names := Words(words);
    if Distinct(names) && forall i :: 0 <= i < |names| ==> KnownWord(names[i]) then
      Some((if "allow" in names then ["allow"] else []) + if "deny" in names then ["deny"] else [])
    else None
  }

  method CheckArchiveWhen(words: seq<string>) returns (r: Option<seq<string>>)
    ensures r == CanonicalWhen(words)
  {
    var seen: set<string> := {};
    for i := 0 to |words|
      invariant Distinct(Words(words[..i]))
      invariant forall j :: 0 <= j < i ==> KnownWord(Words(words)[j])
      invariant forall w :: w in seen <==> w in Words(words[..i])
    {
      var name := Word(words[i]);
      assert Words(words)[i] == name;
      assert Words(words[..i + 1]) == Words(words[..i]) + [name];
      if !KnownWord(name) {
        return None;
      }
      if name in seen {
        var j :| 0 <= j < i && Words(words[..i])[j] == name;
        assert Words(words)[j] == Words(words)[i];
        return None;
      }
      seen := seen + {name};
    }
    assert words[..|words|] == words;
    assert forall w :: w in Words(words) ==> KnownWord(w);
    var out := [];
    if "allow" in seen {
      out := ["allow"];
    }
    if "deny" in seen {
      out := out + ["deny"];
    }
    assert out == (if "allow" in Words(words) then ["allow"] else []) + if "deny" in Words(words) then ["deny"] else [];
    return Some(out);
  }

  /** The canonical form names the same words and is its own canonical form. */
  lemma WhenIsCanonical(words: seq<string>)
    requires CanonicalWhen(words).Some?
    ensures forall w :: w in CanonicalWhen(words).value <==> w in Words(words)
    ensures CanonicalWhen(CanonicalWhen(words).value) == CanonicalWhen(words)
  {
    var r := CanonicalWhen(words).value;
    assert forall w :: w in Words(words) ==> KnownWord(w);
    PlainWords();
    WordsOfKnown(r);
  }

  lemma PlainWords()
    ensures Word("allow") == "allow" && Word("deny") == "deny"
  {
    assert TrimSpace("allow") == "allow" && TrimSpace("deny") == "deny";
    assert ToLower("allow") == "allow" && ToLower("deny") == "deny";
  }

  lemma WordsOfKnown(r: seq<string>)
    requires Word("allow") == "allow" && Word("deny") == "deny" && forall i :: 0 <= i < |r| ==> KnownWord(r[i])
    ensures Words(r) == r
  {
    assert |Words(r)| == |r| && forall i :: 0 <= i < |r| ==> Words(r)[i] == r[i];
  }

  // Validation.

  predicate NameChar(c: char) {
    'A' <= c <= 'Z' || 'a' <= c <= 'z' || IsDigit(c) || c == '.' || c == '_' || c == '-'
  }

  predicate IsName(s: string) {
    && s != ""
    && s[0] !in {'.', '_', '-'}
    && forall i :: 0 <= i < |s| ==> NameChar(s[i])
  }

  predicate IsCode(s: string) {
    && 1 <= |s| <= 64
    && 'A' <= s[0] <= 'Z'
    && forall i :: 0 <= i < |s| ==> 'A' <= s[i] <= 'Z' || IsDigit(s[i]) || s[i] == '_'
  }

  predicate Control(c: char) { c as int < 0x20 || c as int == 0x7f }

  predicate BadTag(tag: string) {
    || tag == "" || |tag| > 128 || TrimSpace(tag) != tag
    || exists i :: 0 <= i < |tag| && Control(tag[i])
  }

  predicate BadMarker(marker: string) {
    || marker == "" || |marker| > 128
    || (exists i :: 0 <= i < |marker| && Control(marker[i]))
    || marker[0] == ' ' || marker[|marker| - 1] == ' '
  }

  predicate BadSpec(o: Option<ObjectSpec>) {
    o.Some? && (
      || o.value.setting !in {"", "on", "off"}
      || o.value.limit < 0
      || o.value.source !in {"", "store", "original"})
  }

  predicate OutOf(x: Option<int>, lo: int, hi: int) {
    x.Some? && !(lo <= x.value <= hi)
  }

  predicate Zero(x: Option<int>) {
    x.None? || x.value == 0
  }

  const AtMin := 25
  const AtMax := 100

  /** The complaint about a row's trigger, if any. */
  function TriggerFlaw(o: Row): Option<string> {
    match o.on
    case "deny" | "allow" | "rule" =>
      if o.at.Some? then Some("at is only for on: score or overload")
      else if o.below || o.eq then Some("below and eq are only for on: score")
      else None
    case "overload" =>
      if OutOf(o.at, AtMin, AtMax) then Some("at is out of the queue's percent")
      else if o.below || o.eq then Some("below and eq are only for on: score")
      else None
    case "score" =>
      if o.at.None? then Some("on: score needs at")
      else if o.at.value < 0 then Some("at must not be negative")
      else if o.below && o.eq then Some("below and eq are mutually exclusive")
      else None
    case _ => Some("unknown on")
  }

  function FilterFlaw(o: Row): Option<string> {
    if o.on != "rule" then
      if o.rules != [] || o.tags != [] then Some("rules and tags are only for on: rule") else None
    else if o.rules == [] && o.tags == [] then Some("on: rule needs rules or tags")
    else if RangesOf(o.rules).None? then Some("invalid rule id or range")
    else if exists i :: 0 <= i < |o.tags| && BadTag(o.tags[i]) then Some("bad tag")
    else None
  }

  function PhaseFlaw(verb: string, phase: string, apply: string): Option<string> {
    if phase == "" then None
    else if !ControlVerb(verb) then Some("phase is only for active, passive, vote and off")
    else if phase !in {"request", "response", "frame"} then Some("unknown phase")
    else if apply == "conn" && phase != "frame" then Some("apply conn needs phase frame")
    else None
  }

  function ListFlaw(o: Row): Option<string> {
    if o.list == "" then Some("neither do nor list")
    else if !IsName(o.list) then Some("bad dataset name")
    else if Subject(o) !in {"addr", "net", "net_all", "asn"} then Some("unknown write")
    else if ParseTTL(o.ttl).None? then Some("bad ttl")
    else if ParseTTL(o.ttl).value <= 0 then Some("list needs ttl")
    else None
  }

  function AskFlaw(o: Row): Option<string> {
    if o.on == "deny" && !RecordVerb(o.verb) then Some("deny ends the phase")
    else if o.verb !in Verbs then Some("unknown verb")
    else if o.apply != "" && o.apply !in Verbs[o.verb] then Some("verb does not take apply")
    else if o.apply == "" && |Verbs[o.verb]| != 1 && !AuditVerb(o.verb) then Some("verb needs apply")
    else if OutOf(o.delta, -100, 900) then Some("delta is out of range")
    else if OutOf(o.value, -100, 100) then Some("value is out of range")
    else if o.verb == "threshold" && Zero(o.delta) then Some("threshold needs a non-zero delta")
    else if o.verb == "note" && Zero(o.value) then Some("note needs a non-zero value")
    else if o.verb == "score" && Named(o) then Some("score takes no to")
    else if o.verb == "score" && Zero(o.value) then Some("score needs a non-zero value")
    else if ControlVerb(o.verb) && !Named(o) then Some("verb needs to")
    else
      var phase := PhaseFlaw(o.verb, o.phase, Axis(o));
      if phase.Some? then phase else ObjectFlaw(o)
  }

  predicate Named(o: Row) {
    o.to != "" && o.to != "*"
  }

  predicate HasObjects(o: Row) {
    o.words != [] || o.headers.Some? || o.args.Some? || o.body.Some?
  }

  function ObjectFlaw(o: Row): Option<string> {
    if o.counter != "" && o.verb != "note" then Some("counter is only for note")
    else if o.counter != "" && !IsName(o.counter) then Some("bad counter name")
    else if o.verb == "mutate" && o.group == "" then Some("mutate needs a group")
    else if o.verb == "mutate" && !IsName(o.group) then Some("bad group name")
    else if o.verb == "mutate" && o.setting !in {"on", "off"} then Some("mutate needs set")
    else if o.verb != "mutate" && o.group != "" then Some("group is only for mutate")
    else if o.verb == "mark" && Named(o) then Some("mark takes no to")
    else if o.verb == "mark" && BadMarker(o.marker) then Some("bad marker")
    else if o.verb != "mark" && o.marker != "" then Some("marker is only for mark")
    else if AuditVerb(o.verb) then AuditFlaw(o)
    else if HasObjects(o) then Some("when, headers, args and body are only for audit and archive")
    else if o.verb != "mutate" && o.setting != "" then Some("set is only for mutate, audit and archive")
    else None
  }

  function AuditFlaw(o: Row): Option<string> {
    if Named(o) then Some("verb takes no to")
    else if o.setting !in {"on", "off"} then Some("verb needs set")
    else if o.setting == "off" && (Seconds(o) != 0 || HasObjects(o)) then Some("ttl, when and objects are only for set on")
    else if o.verb == "audit" && (Seconds(o) != 0 || o.words != []) then Some("ttl and when are only for archive")
    else if CanonicalWhen(o.words).None? then Some("bad when")
    else if o.apply == "response" && o.args.Some? then Some("args has no meaning for the response record")
    else if BadSpec(o.headers) || BadSpec(o.args) || BadSpec(o.body) then Some("bad object")
    else None
  }

  function Flaw(o: Row): Option<string> {
    var trigger := TriggerFlaw(o);
    var filter := FilterFlaw(o);
    if trigger.Some? then trigger
    else if filter.Some? then filter
    else if o.code != "" && !IsCode(o.code) then Some("bad code")
    else if Asks(o) && o.list != "" then Some("do and list are mutually exclusive")
    else if Asks(o) then AskFlaw(o)
    else ListFlaw(o)
  }

  function Compiled(e: Entry): Entry {
    e.(ranges := if RangesOf(e.row.rules).Some? then RangesOf(e.row.rules).value else [])
  }

  /** An entry as a loaded policy holds it. */
  predicate Loaded(e: Entry) {
    Flaw(e.row).None? && e == Compiled(e)
  }

  predicate AllLoaded(entries: seq<Entry>) {
    forall i :: 0 <= i < |entries| ==> Loaded(entries[i])
  }

  /** A policy is loaded iff all its rows are accepted; loading changes nothing but the ranges. */
  method Load(entries: seq<Entry>) returns (r: Option<seq<Entry>>)
    ensures r.Some? <==> forall i :: 0 <= i < |entries| ==> Flaw(entries[i].row).None?
    ensures r.Some? ==> |r.value| == |entries| && AllLoaded(r.value)
    ensures r.Some? ==> forall i :: 0 <= i < |entries| ==> r.value[i].row == entries[i].row
  {
    var out := entries;
    for i := 0 to |entries|
      invariant |out| == |entries|
      invariant forall j :: 0 <= j < i ==> Loaded(out[j])
      invariant forall j :: 0 <= j < |entries| ==> out[j].row == entries[j].row
    {
      if Flaw(out[i].row).Some? {
        return None;
      }
      out := out[i := Compiled(out[i])];
    }
    return Some(out);
  }

  // What an accepted row promises.

  /** An accepted ask has a known verb and an axis that verb takes; on a deny it only writes
      records. */
  lemma AcceptedVerb(o: Row)
    requires Flaw(o).None? && Asks(o)
    ensures AskFlaw(o).None? && o.verb in Verbs && Axis(o) in Verbs[o.verb]
    ensures o.on == "deny" ==> RecordVerb(o.verb)
  {
    assert |Verbs[o.verb]| >= 1;
  }

  // What a verb needs, and no other verb may have.

  predicate SettingFits(verb: string, setting: string) {
    if verb == "mutate" || AuditVerb(verb) then setting == "on" || setting == "off" else setting == ""
  }

  predicate GroupFits(verb: string, group: string) {
    if verb == "mutate" then IsName(group) else group == ""
  }

  predicate MarkerFits(verb: string, marker: string) {
    if verb == "mark" then !BadMarker(marker) else marker == ""
  }

  predicate CounterFits(verb: string, counter: string) {
    counter == "" || (verb == "note" && IsName(counter))
  }

  predicate PhaseFits(verb: string, phase: string, axis: string) {
    phase == "" || (
      && ControlVerb(verb) && (phase == "request" || phase == "response" || phase == "frame")
      && (axis == "conn" ==> phase == "frame"))
  }

  /** Objects go with an audit or archive that is set on; a response record has no arguments. */
  predicate ObjectsFit(verb: string, setting: string, apply: string,
                       headers: Option<ObjectSpec>, args: Option<ObjectSpec>, body: Option<ObjectSpec>)
  {
    && (headers.Some? || args.Some? || body.Some? ==> AuditVerb(verb) && setting == "on")
    && !BadSpec(headers) && !BadSpec(args) && !BadSpec(body)
    && (apply == "response" ==> args == None)
  }

  /** Control asks name a target; asks that write the route's own record or score do not. */
  predicate TargetFits(verb: string, to: string) {
    var named := to != "" && to != "*";
    (ControlVerb(verb) ==> named) && (RecordVerb(verb) ==> !named)
  }

  /** An accepted ask carries what its verb needs and nothing another verb needs. */
  lemma AcceptedAsk(o: Row)
    requires Flaw(o).None? && Asks(o)
    ensures o.verb == "threshold" ==> !Zero(o.delta)
    ensures o.verb == "note" || o.verb == "score" ==> !Zero(o.value)
    ensures !OutOf(o.delta, -100, 900) && !OutOf(o.value, -100, 100)
    ensures TargetFits(o.verb, o.to) && PhaseFits(o.verb, o.phase, Axis(o))
    ensures CounterFits(o.verb, o.counter) && GroupFits(o.verb, o.group) && MarkerFits(o.verb, o.marker)
    ensures SettingFits(o.verb, o.setting)
    ensures ObjectsFit(o.verb, o.setting, Axis(o), o.headers, o.args, o.body)
    ensures HasObjects(o) ==> AuditVerb(o.verb) && o.setting == "on"
  {
    AcceptedVerb(o);
    AcceptedValues(o);
    AcceptedNames(o);
    AcceptedObjects(o);
  }

  lemma AcceptedValues(o: Row)
    requires AskFlaw(o).None?
    ensures o.verb == "threshold" ==> !Zero(o.delta)
    ensures o.verb == "note" || o.verb == "score" ==> !Zero(o.value)
    ensures !OutOf(o.delta, -100, 900) && !OutOf(o.value, -100, 100)
    ensures ObjectFlaw(o).None? && PhaseFits(o.verb, o.phase, Axis(o))
    ensures ControlVerb(o.verb) ==> Named(o)
    ensures o.verb == "score" ==> !Named(o)
    ensures o.verb in Verbs && (o.apply != "" ==> o.apply in Verbs[o.verb])
  {
  }

  lemma AcceptedNames(o: Row)
    requires AskFlaw(o).None?
    ensures CounterFits(o.verb, o.counter) && GroupFits(o.verb, o.group) && MarkerFits(o.verb, o.marker)
    ensures SettingFits(o.verb, o.setting) && TargetFits(o.verb, o.to)
  {
    AcceptedValues(o);
    RecordTarget(o);
  }

  lemma RecordTarget(o: Row)
    requires ObjectFlaw(o).None?
    ensures o.verb == "mark" || AuditVerb(o.verb) ==> !Named(o)
  {
  }

  lemma AcceptedObjects(o: Row)
    requires AskFlaw(o).None?
    ensures HasObjects(o) ==> AuditVerb(o.verb) && o.setting == "on"
    ensures ObjectsFit(o.verb, o.setting, Axis(o), o.headers, o.args, o.body)
  {
    AcceptedValues(o);
    if AuditVerb(o.verb) {
      assert AuditFlaw(o).None?;
      assert Verbs[o.verb][0] == "request";
    }
  }

  /** A connection-wide ask is tied to the frame phase iff its row names a phase at all: the check
      skips an empty phase. */
  lemma ConnAsksAndPhase(o: Row)
    requires Flaw(o).None? && Asks(o) && Axis(o) == "conn"
    ensures o.phase == "frame" <==> o.phase != ""
  {
    AcceptedAsk(o);
  }

  /** A row that shows it: accepted, connection-wide, and without a phase. */
  lemma ConnAskWithoutPhase()
    ensures Flaw(SwitchRow).None? && Asks(SwitchRow) && Axis(SwitchRow) == "conn" && SwitchRow.phase == ""
  {
  }

  const SwitchRow := Row(
    "allow", None, false, false, [], [], "x", "active", "conn", "", None, None, "", "", "",
    None, None, None, [], "", "", "", "", "")

  lemma AcceptedList(o: Row)
    requires Flaw(o).None? && !Asks(o)
    ensures Seconds(o) > 0 && IsName(o.list)
    ensures Subject(o) in {"addr", "net", "net_all", "asn"}
  {
  }
}
