/** The ledger of neighbours' signals: which of their actions a profile's rules take, and what
    they add up to. */
module PriorLedger {
  import opened Common

  const AnyInspector := "*"
  const PercentMin := -100
  const PercentMax := 900

  datatype Rule = Rule(from: string, accept: seq<string>, apply: seq<string>, codes: seq<string>)

  datatype Action = Action(verb: string, apply: string, code: string, delta: int, value: int)

  datatype PriorVerdict = PriorVerdict(inspector: string, actions: seq<Action>)

  /** One action with its sender. */
  datatype Delivery = Delivery(from: string, act: Action)

  datatype Outcome = Outcome(
    from: string, verb: string, apply: string, code: string, delta: int, value: int,
    took: int, applied: bool)

  function Scope(a: Action): string {
    if a.apply == "" then "request" else a.apply
  }

  predicate Accepts(r: Rule, d: Delivery) {
    && r.from == d.from
    && d.act.verb in r.accept
    && (r.apply == [] || Scope(d.act) in r.apply)
    && (r.codes == [] || d.act.code in r.codes)
  }

  predicate Counts(verb: string) { verb == "threshold" || verb == "skip" }

  // What the rules make of the actions, as sums.

  function Total<T(!new)>(s: seq<T>, f: T -> int): int {
    if s == [] then 0 else Total(s[..|s| - 1], f) + f(s[|s| - 1])
  }

  function Takers(rules: seq<Rule>, d: Delivery): int {
    Total(rules, (r: Rule) => if Accepts(r, d) then 1 else 0)
  }

  function Took(rules: seq<Rule>, d: Delivery): int {
    if d.act.verb == "threshold" then Takers(rules, d) * d.act.delta else 0
  }

  predicate Skips(rules: seq<Rule>, d: Delivery) {
    d.act.verb == "skip" && Takers(rules, d) > 0
  }

  function OutcomeOf(rules: seq<Rule>, d: Delivery): Outcome {
    Outcome(d.from, d.act.verb, Scope(d.act), d.act.code, d.act.delta, d.act.value,
            Took(rules, d), Counts(d.act.verb) && Takers(rules, d) > 0)
  }

  function Deliveries(v: PriorVerdict): seq<Delivery> {
    seq(|v.actions|, i requires 0 <= i < |v.actions| => Delivery(v.inspector, v.actions[i]))
  }

  function Flatten(entries: seq<PriorVerdict>): seq<Delivery> {
    if entries == [] then [] else Flatten(entries[..|entries| - 1]) + Deliveries(entries[|entries| - 1])
  }

  function Outcomes(rules: seq<Rule>, ds: seq<Delivery>): seq<Outcome> {
    seq(|ds|, i requires 0 <= i < |ds| => OutcomeOf(rules, ds[i]))
  }

  function Clamp(n: int): int {
    if n < PercentMin then PercentMin else if n > PercentMax then PercentMax else n
  }

  function Sum(rules: seq<Rule>, ds: seq<Delivery>): int {
    Total(ds, (d: Delivery) => Took(rules, d))
  }

  function Percent(rules: seq<Rule>, entries: seq<PriorVerdict>): int {
    Clamp(Sum(rules, Flatten(entries)))
  }

  predicate Skip(rules: seq<Rule>, ds: seq<Delivery>) {
    exists i :: 0 <= i < |ds| && Skips(rules, ds[i])
  }

  /** A rule takes an action from the sender it names, with a verb it accepts, on an axis it applies to
      and with a code it knows; no axes, or no codes, is any, and an action that names no axis is on
      the request. */
  lemma AcceptsMeans(r: Rule, d: Delivery)
    ensures Accepts(r.(apply := [], codes := []), d) <==> r.from == d.from && exists i :: 0 <= i < |r.accept| && r.accept[i] == d.act.verb
    ensures Accepts(r, d) <==> Accepts(r.(apply := []), d) && Accepts(r.(codes := []), d)
    ensures r.codes != [] ==>
      (Accepts(r.(apply := []), d) <==> Accepts(r.(apply := [], codes := []), d) && exists i :: 0 <= i < |r.codes| && r.codes[i] == d.act.code)
    ensures r.apply != [] && d.act.apply != "" ==>
      (Accepts(r.(codes := []), d) <==> Accepts(r.(apply := [], codes := []), d) && exists i :: 0 <= i < |r.apply| && r.apply[i] == d.act.apply)
    ensures d.act.apply == "" ==> (Accepts(r, d) <==> Accepts(r, d.(act := d.act.(apply := "request"))))
  {
  }

  /** The positions of the rules that take an action. */
  ghost function Takes(rules: seq<Rule>, d: Delivery): set<nat> {
    set i: nat | i < |rules| && Accepts(rules[i], d)
  }

  lemma OneMoreTaker(init: seq<Rule>, r: Rule, d: Delivery)
    ensures |Takes(init + [r], d)| == |Takes(init, d)| + if Accepts(r, d) then 1 else 0
  {
    assert Takes(init + [r], d) == Takes(init, d) + if Accepts(r, d) then {|init|} else {};
  }

  /** The rules that take an action are counted one by one. */
  lemma {:induction false} TakersAreCounted(rules: seq<Rule>, d: Delivery)
    ensures Takers(rules, d) == |Takes(rules, d)|
  {
    if rules != [] {
      var n := |rules| - 1;
      assert rules == rules[..n] + [rules[n]];
      TakersAreCounted(rules[..n], d);
      OneMoreTaker(rules[..n], rules[n], d);
    }
  }

  /** The percentage is kept between its bounds: inside them it is the sum itself. */
  lemma PercentIsClamped(rules: seq<Rule>, entries: seq<PriorVerdict>)
    ensures var sum := Sum(rules, Flatten(entries));
      && (-100 <= sum <= 900 ==> Percent(rules, entries) == sum)
      && (sum < -100 ==> Percent(rules, entries) == -100) && (sum > 900 ==> Percent(rules, entries) == 900)
  {
  }

  /** The accumulator the source calls Ask. */
  class Ledger {
    var skip: bool
    var percent: int
    var outcomes: seq<Outcome>

    constructor ()
      ensures !skip && percent == 0 && outcomes == []
    {
      skip, percent, outcomes := false, 0, [];
    }

    /** One rule takes one action. */
    method Take(act: Action, out: Outcome) returns (r: Outcome)
      modifies this`skip, this`percent
      ensures skip == (old(skip) || act.verb == "skip")
      ensures percent == old(percent) + (if act.verb == "threshold" then act.delta else 0)
      ensures r == if Counts(act.verb)
                   then out.(applied := true, took := out.took + if act.verb == "threshold" then act.delta else 0)
                   else out
    {
      match act.verb
      case "skip" =>
        skip := true;
        r := out.(applied := true);
      case "threshold" =>
        percent := percent + act.delta;
        r := out.(applied := true, took := out.took + act.delta);
      case _ =>
        r := out;
    }

    /** Every rule that accepts an action takes it; one outcome is recorded. */
    method Deliver(from: string, act: Action, rules: seq<Rule>)
      modifies this
      ensures percent == old(percent) + Took(rules, Delivery(from, act))
      ensures skip == (old(skip) || Skips(rules, Delivery(from, act)))
      ensures outcomes == old(outcomes) + [OutcomeOf(rules, Delivery(from, act))]
    {
      ghost var d := Delivery(from, act);
      var out := Outcome(from, act.verb, Scope(act), act.code, act.delta, act.value, 0, false);
      for i := 0 to |rules|
        invariant 0 <= Takers(rules[..i], d)
        invariant percent == old(percent) + Took(rules[..i], d)
        invariant skip == (old(skip) || Skips(rules[..i], d))
        invariant out == OutcomeOf(rules[..i], d) && outcomes == old(outcomes)
      {
        TakersStep(rules, i, d);
        if rules[i].from != from {
          continue;
        }
        if act.verb !in rules[i].accept || !(rules[i].apply == [] || Scope(act) in rules[i].apply) ||
           !(rules[i].codes == [] || act.code in rules[i].codes) {
          continue;
        }
        out := Take(act, out);
      }
      assert rules[..|rules|] == rules;
      outcomes := outcomes + [out];
    }

    /** The actions of one verdict. */
    method DeliverAll(v: PriorVerdict, rules: seq<Rule>)
      modifies this
      ensures percent == old(percent) + Sum(rules, Deliveries(v))
      ensures skip == (old(skip) || Skip(rules, Deliveries(v)))
      ensures outcomes == old(outcomes) + Outcomes(rules, Deliveries(v))
    {
      ghost var ds := Deliveries(v);
      for i := 0 to |v.actions|
        invariant percent == old(percent) + Sum(rules, ds[..i])
        invariant skip == (old(skip) || Skip(rules, ds[..i]))
        invariant outcomes == old(outcomes) + Outcomes(rules, ds[..i])
      {
        SumStep(rules, ds, i);
        SkipStep(rules, ds, i);
        Deliver(v.inspector, v.actions[i], rules);
      }
      assert ds[..|ds|] == ds;
    }
  }

  /** One outcome for each delivered action, in order; the percentage is the clamped sum of what
      the outcomes took, and the inspection is skipped iff an applied outcome says so. */
  method Evaluate(entries: seq<PriorVerdict>, rules: seq<Rule>) returns (skip: bool, percent: int, outcomes: seq<Outcome>)
    ensures outcomes == Outcomes(rules, Flatten(entries))
    ensures percent == Percent(rules, entries) == Clamp(Total(outcomes, (o: Outcome) => o.took))
    ensures skip <==> exists i :: 0 <= i < |outcomes| && outcomes[i].verb == "skip" && outcomes[i].applied
    ensures skip == Skip(rules, Flatten(entries))
    ensures PercentMin <= percent <= PercentMax
  {
    var a := new Ledger();
    for n := 0 to |entries|
      invariant a.percent == Sum(rules, Flatten(entries[..n]))
      invariant a.skip == Skip(rules, Flatten(entries[..n]))
      invariant a.outcomes == Outcomes(rules, Flatten(entries[..n]))
    {
      assert entries[..n + 1][..n] == entries[..n];
      SumConcat(rules, Flatten(entries[..n]), Deliveries(entries[n]));
      SkipConcat(rules, Flatten(entries[..n]), Deliveries(entries[n]));
      OutcomesConcat(rules, Flatten(entries[..n]), Deliveries(entries[n]));
      a.DeliverAll(entries[n], rules);
    }
    assert entries[..|entries|] == entries;
    if a.percent < PercentMin {
      a.percent := PercentMin;
    }
    if a.percent > PercentMax {
      a.percent := PercentMax;
    }
    SumOfOutcomes(rules, Flatten(entries));
    SkipOfOutcomes(rules, Flatten(entries));
    return a.skip, a.percent, a.outcomes;
  }

  lemma TakersStep(rules: seq<Rule>, i: nat, d: Delivery)
    requires i < |rules|
    ensures Takers(rules[..i + 1], d) == Takers(rules[..i], d) + if Accepts(rules[i], d) then 1 else 0
    ensures Took(rules[..i + 1], d) ==
            Took(rules[..i], d) + if Accepts(rules[i], d) && d.act.verb == "threshold" then d.act.delta else 0
  {
    assert rules[..i + 1][..i] == rules[..i];
    assert (Takers(rules[..i], d) + 1) * d.act.delta == Takers(rules[..i], d) * d.act.delta + d.act.delta;
  }

  lemma SumStep(rules: seq<Rule>, ds: seq<Delivery>, i: nat)
    requires i < |ds|
    ensures Sum(rules, ds[..i + 1]) == Sum(rules, ds[..i]) + Took(rules, ds[i])
  {
    assert ds[..i + 1][..i] == ds[..i];
  }

  lemma SkipStep(rules: seq<Rule>, ds: seq<Delivery>, i: nat)
    requires i < |ds|
    ensures Skip(rules, ds[..i + 1]) <==> Skip(rules, ds[..i]) || Skips(rules, ds[i])
  {
    assert ds[..i + 1] == ds[..i] + [ds[i]];
    SkipConcat(rules, ds[..i], [ds[i]]);
    assert Skip(rules, [ds[i]]) <==> Skips(rules, [ds[i]][0]);
  }

  lemma SumConcat(rules: seq<Rule>, a: seq<Delivery>, b: seq<Delivery>)
    ensures Sum(rules, a + b) == Sum(rules, a) + Sum(rules, b)
  {
    TotalConcat(a, b, (d: Delivery) => Took(rules, d));
  }

  lemma SkipConcat(rules: seq<Rule>, a: seq<Delivery>, b: seq<Delivery>)
    ensures Skip(rules, a + b) <==> Skip(rules, a) || Skip(rules, b)
  {
    if Skip(rules, a) {
      var i :| 0 <= i < |a| && Skips(rules, a[i]);
      assert (a + b)[i] == a[i];
    }
    if Skip(rules, b) {
      var i :| 0 <= i < |b| && Skips(rules, b[i]);
      assert (a + b)[|a| + i] == b[i];
    }
  }

  lemma OutcomesConcat(rules: seq<Rule>, a: seq<Delivery>, b: seq<Delivery>)
    ensures Outcomes(rules, a + b) == Outcomes(rules, a) + Outcomes(rules, b)
  {
  }

  lemma {:induction false} TotalConcat<T(!new)>(a: seq<T>, b: seq<T>, f: T -> int)
    ensures Total(a + b, f) == Total(a, f) + Total(b, f)
  {
    if b == [] {
      assert a + b == a;
    } else {
      assert (a + b)[..|a + b| - 1] == a + b[..|b| - 1];
      TotalConcat(a, b[..|b| - 1], f);
    }
  }

  lemma {:induction false} SumOfOutcomes(rules: seq<Rule>, ds: seq<Delivery>)
    ensures Total(Outcomes(rules, ds), (o: Outcome) => o.took) == Sum(rules, ds)
  {
    if ds != [] {
      var init := ds[..|ds| - 1];
      assert Outcomes(rules, ds)[..|ds| - 1] == Outcomes(rules, init);
      SumOfOutcomes(rules, init);
    }
  }

  lemma SkipOfOutcomes(rules: seq<Rule>, ds: seq<Delivery>)
    ensures var outcomes := Outcomes(rules, ds);
      Skip(rules, ds) <==> exists i :: 0 <= i < |outcomes| && outcomes[i].verb == "skip" && outcomes[i].applied
  {
    var outcomes := Outcomes(rules, ds);
    assert forall i :: 0 <= i < |ds| ==> (Skips(rules, ds[i]) <==> outcomes[i].verb == "skip" && outcomes[i].applied);
    if Skip(rules, ds) {
      var i :| 0 <= i < |ds| && Skips(rules, ds[i]);
      assert outcomes[i].verb == "skip";
    }
  }

  // Order does not matter.

  /** The last of s has a place in any permutation of s. */
  lemma Pull<T>(s: seq<T>, t: seq<T>) returns (init: seq<T>, x: T, a: seq<T>, b: seq<T>)
    requires multiset(s) == multiset(t) && s != []
    ensures s == init + [x] && t == a + ([x] + b)
    ensures multiset(init) == multiset(a + b)
  {
    init, x := s[..|s| - 1], s[|s| - 1];
    assert s == init + [x];
    InMiddle(init, [], x);
    assert x in multiset(t);
    var k :| 0 <= k < |t| && t[k] == x;
    a, b := t[..k], t[k + 1..];
    InMiddle(a, b, x);
    assert t == a + ([x] + b);
    assert init + [] == init && init + ([x] + []) == s;
    Cancel(multiset(init), multiset(a + b), multiset{x});
  }

  lemma InMiddle<T>(a: seq<T>, b: seq<T>, x: T)
    ensures multiset(a + ([x] + b)) == multiset(a + b) + multiset{x}
  {
  }

  lemma Cancel<T>(a: multiset<T>, b: multiset<T>, c: multiset<T>)
    requires a + c == b + c
    ensures a == b
  {
    assert a == (a + c) - c && b == (b + c) - c;
  }

  lemma {:induction false} TotalPermutes<T(!new)>(s: seq<T>, t: seq<T>, f: T -> int)
    requires multiset(s) == multiset(t)
    ensures Total(s, f) == Total(t, f)
    decreases |s|
  {
    SameSize(s, t);
    if s != [] {
      var init, x, a, b := Pull(s, t);
      TotalPermutes(init, a + b, f);
      TotalConcat(init, [x], f);
      TotalConcat(a, b, f);
      TotalConcat(a, [x] + b, f);
      TotalConcat([x], b, f);
    }
  }

  lemma SameSize<T>(s: seq<T>, t: seq<T>)
    requires multiset(s) == multiset(t)
    ensures |s| == |t|
  {
    assert |multiset(s)| == |s| && |multiset(t)| == |t|;
  }

  lemma {:induction false} FlattenConcat(a: seq<PriorVerdict>, b: seq<PriorVerdict>)
    ensures Flatten(a + b) == Flatten(a) + Flatten(b)
  {
    if b == [] {
      assert a + b == a;
    } else {
      assert (a + b)[..|a + b| - 1] == a + b[..|b| - 1];
      FlattenConcat(a, b[..|b| - 1]);
    }
  }

  lemma {:induction false} FlattenPermutes(s: seq<PriorVerdict>, t: seq<PriorVerdict>)
    requires multiset(s) == multiset(t)
    ensures multiset(Flatten(s)) == multiset(Flatten(t))
    decreases |s|
  {
    SameSize(s, t);
    if s != [] {
      var init, x, a, b := Pull(s, t);
      FlattenPermutes(init, a + b);
      FlattenConcat(init, [x]);
      FlattenConcat(a, b);
      FlattenConcat(a, [x] + b);
      FlattenConcat([x], b);
    }
  }

  /** The percentage and the skip depend only on which actions were sent by whom and on which
      rules there are: not on the order of the verdicts, of the actions, or of the rules, nor on
      how the actions are spread over verdicts. */
  lemma OrderDoesNotMatter(e1: seq<PriorVerdict>, e2: seq<PriorVerdict>, r1: seq<Rule>, r2: seq<Rule>)
    requires multiset(Flatten(e1)) == multiset(Flatten(e2)) && multiset(r1) == multiset(r2)
    ensures Percent(r1, e1) == Percent(r2, e2)
    ensures Skip(r1, Flatten(e1)) <==> Skip(r2, Flatten(e2))
  {
    var f, g := Flatten(e1), Flatten(e2);
    forall d: Delivery
      ensures Takers(r1, d) == Takers(r2, d)
    {
      TotalPermutes(r1, r2, (r: Rule) => if Accepts(r, d) then 1 else 0);
    }
    SameRulesSameSum(r1, r2, f);
    TotalPermutes(f, g, (d: Delivery) => Took(r2, d));
    SkipPermutes(r1, r2, f, g);
    SkipPermutes(r2, r1, g, f);
  }

  lemma VerdictOrderDoesNotMatter(e1: seq<PriorVerdict>, e2: seq<PriorVerdict>, rules: seq<Rule>)
    requires multiset(e1) == multiset(e2)
    ensures Percent(rules, e1) == Percent(rules, e2)
    ensures Skip(rules, Flatten(e1)) <==> Skip(rules, Flatten(e2))
  {
    FlattenPermutes(e1, e2);
    OrderDoesNotMatter(e1, e2, rules, rules);
  }

  lemma {:induction false} SameRulesSameSum(r1: seq<Rule>, r2: seq<Rule>, ds: seq<Delivery>)
    requires forall d :: Takers(r1, d) == Takers(r2, d)
    ensures Sum(r1, ds) == Sum(r2, ds)
  {
    if ds != [] {
      SameRulesSameSum(r1, r2, ds[..|ds| - 1]);
      assert Took(r1, ds[|ds| - 1]) == Took(r2, ds[|ds| - 1]);
    }
  }

  lemma SkipPermutes(r1: seq<Rule>, r2: seq<Rule>, f: seq<Delivery>, g: seq<Delivery>)
    requires forall d :: Takers(r1, d) == Takers(r2, d)
    requires multiset(f) == multiset(g)
    ensures Skip(r1, f) ==> Skip(r2, g)
  {
    if Skip(r1, f) {
      var i :| 0 <= i < |f| && Skips(r1, f[i]);
      assert f[i] in multiset(f);
      assert f[i] in multiset(g);
      var j :| 0 <= j < |g| && g[j] == f[i];
      assert Skips(r2, g[j]);
    }
  }

  // Which rules may be loaded.

  function RuleFlaw(r: Rule): Option<string> {
    if r.from == "" then Some("from is empty")
    else if r.accept == [] then Some("accept is required")
    else if exists i :: 0 <= i < |r.accept| && !Counts(r.accept[i]) then Some("verb is not ours to apply")
    else if exists i :: 0 <= i < |r.apply| && r.apply[i] != "request" then Some("axis never occurs")
    else if r.from == AnyInspector then Some("a named sender is needed")
    else None
  }

  predicate Loaded(rules: seq<Rule>) {
    forall i :: 0 <= i < |rules| ==> RuleFlaw(rules[i]).None?
  }

  lemma {:induction false} TakersExist(rules: seq<Rule>, d: Delivery)
    ensures 0 <= Takers(rules, d) <= |rules|
    ensures Takers(rules, d) > 0 <==> exists i :: 0 <= i < |rules| && Accepts(rules[i], d)
  {
    if rules != [] {
      var init := rules[..|rules| - 1];
      TakersExist(init, d);
      assert forall i :: 0 <= i < |init| ==> init[i] == rules[i];
    }
  }

  /** With loaded rules an outcome is applied iff some rule accepts the action; only threshold and
      skip ever are, only from a sender a rule names, and a threshold counts once for each rule. */
  lemma LoadedRulesApply(rules: seq<Rule>, d: Delivery)
    requires Loaded(rules)
    ensures OutcomeOf(rules, d).applied <==> exists i :: 0 <= i < |rules| && Accepts(rules[i], d)
    ensures OutcomeOf(rules, d).applied ==>
              Counts(d.act.verb) && exists i :: 0 <= i < |rules| && rules[i].from == d.from != AnyInspector
    ensures OutcomeOf(rules, d).took != 0 ==> OutcomeOf(rules, d).applied && d.act.verb == "threshold"
  {
    TakersExist(rules, d);
    if Takers(rules, d) > 0 {
      var i :| 0 <= i < |rules| && Accepts(rules[i], d);
      assert RuleFlaw(rules[i]).None?;
      assert rules[i].from == d.from != AnyInspector;
      var k :| 0 <= k < |rules[i].accept| && rules[i].accept[k] == d.act.verb;
      assert Counts(rules[i].accept[k]);
    } else {
      assert Takers(rules, d) * d.act.delta == 0;
    }
  }

  /** Senders no rule names have no influence at all. */
  lemma {:induction false} StrangersDoNotCount(rules: seq<Rule>, ds: seq<Delivery>, strangers: seq<Delivery>)
    requires forall i, j :: 0 <= i < |strangers| && 0 <= j < |rules| ==> strangers[i].from != rules[j].from
    ensures Sum(rules, ds + strangers) == Sum(rules, ds)
    ensures Skip(rules, ds + strangers) <==> Skip(rules, ds)
  {
    if strangers == [] {
      assert ds + strangers == ds;
    } else {
      var n := |strangers| - 1;
      var all := ds + strangers;
      TakersExist(rules, strangers[n]);
      assert Takers(rules, strangers[n]) == 0;
      assert all[..|all| - 1] == ds + strangers[..n];
      assert all[..|all|] == all;
      StrangersDoNotCount(rules, ds, strangers[..n]);
      SumStep(rules, all, |all| - 1);
      SkipStep(rules, all, |all| - 1);
    }
  }
}
