/** Rule id ranges and the filters that use them. */
module RuleFilter {
  import opened Common
  import opened EngineSpec
  import opened Text

  type Ranges = seq<(int, int)>

  predicate Has(rs: Ranges, id: int) {
    exists i :: 0 <= i < |rs| && rs[i].0 <= id <= rs[i].1
  }

  predicate IsFinding(r: MatchedRule) {
    r.message != ""
  }

  predicate Tagged(r: MatchedRule, tags: seq<string>) {
    exists i, j :: 0 <= i < |r.tags| && 0 <= j < |tags| && r.tags[i] == tags[j]
  }

  /** One item: a number, or two around the first hyphen. */
  function CutRange(item: string): (r: Option<(int, int)>)
    ensures r.Some? ==> 0 <= r.value.0 <= r.value.1
  {
    var at := IndexOf(item, '-');
    if at < |item| then
      var lo, hi := Atoi(item[..at]), Atoi(item[at + 1..]);
      if lo.None? || hi.None? || lo.value < 0 || lo.value > hi.value then None
      else Some((lo.value, hi.value))
    else
      var v := Atoi(item);
      if v.None? || v.value < 0 then None else Some((v.value, v.value))
  }

  function Cut(item: string): Option<(int, int)> {
    CutRange(TrimSpace(item))
  }

  method ParseRanges(items: seq<string>) returns (r: Option<Ranges>)
    ensures r == RangesOf(items)
  {
    var out: Ranges := [];
    for i := 0 to |items|
      invariant RangesOf(items[..i]) == Some(out)
    {
      assert items[..i + 1][..i] == items[..i];
      var cut := Cut(items[i]);
      if cut.None? {
        FailsEarly(items, i + 1);
        return None;
      }
      out := out + [cut.value];
    }
    assert items[..|items|] == items;
    return Some(out);
  }

  function RangesOf(items: seq<string>): Option<Ranges> {
    if items == [] then Some([])
    else
      var init, cut := RangesOf(items[..|items| - 1]), Cut(items[|items| - 1]);
      if init.None? || cut.None? then None else Some(init.value + [cut.value])
  }

  lemma {:induction false} FailsEarly(items: seq<string>, n: nat)
    requires n <= |items| && RangesOf(items[..n]).None?
    ensures RangesOf(items).None?
    decreases |items|
  {
    if n == |items| {
      assert items[..n] == items;
    } else {
      assert items[..|items| - 1][..n] == items[..n];
      FailsEarly(items[..|items| - 1], n);
    }
  }

  /** A list of ranges is accepted iff each item is, and then covers exactly what its items do. */
  lemma {:induction false} RangesCover(items: seq<string>)
    ensures RangesOf(items).Some? <==> forall i :: 0 <= i < |items| ==> Cut(items[i]).Some?
    ensures RangesOf(items).Some? ==> Covers(items, RangesOf(items).value)
  {
    if items != [] {
      var init, last := items[..|items| - 1], items[|items| - 1];
      RangesCover(init);
      assert items == init + [last];
      assert (forall i :: 0 <= i < |items| ==> Cut(items[i]).Some?) <==>
             (forall i :: 0 <= i < |init| ==> Cut(init[i]).Some?) && Cut(last).Some?;
    }
  }

  ghost predicate Covers(items: seq<string>, rs: Ranges) {
    |rs| == |items| && forall i :: 0 <= i < |items| ==> Cut(items[i]) == Some(rs[i])
  }

  /** A written range reads back as its two ends. */
  lemma RangeRoundTrip(lo: nat, hi: nat)
    requires lo <= hi < IntLimit
    ensures RangesOf([Decimal(lo) + "-" + Decimal(hi)]) == Some([(lo, hi)])
  {
    var l, h := Decimal(lo), Decimal(hi);
    var item := l + "-" + h;
    Ends(l, lo);
    Ends(h, hi);
    TrimNothing(item);
    IndexOfFirst(item, '-', |l|);
    assert item[..|l|] == l && item[|l| + 1..] == h;
    Single(item);
  }

  /** A written number reads back as the range of itself alone. */
  lemma NumberRoundTrip(n: nat)
    requires n < IntLimit
    ensures RangesOf([Decimal(n)]) == Some([(n, n)])
  {
    Ends(Decimal(n), n);
    TrimNothing(Decimal(n));
    NoIndex(Decimal(n), '-');
    Single(Decimal(n));
  }

  lemma Ends(s: string, n: nat)
    requires n < IntLimit && s == Decimal(n)
    ensures s != "" && AllDigits(s) && IsDigit(s[0]) && IsDigit(s[|s| - 1]) && Atoi(s) == Some(n)
  {
    DecimalDigits(n);
    AtoiDecimal(n);
  }

  lemma Single(item: string)
    requires Cut(item).Some?
    ensures RangesOf([item]) == Some([Cut(item).value])
  {
    RangesCover([item]);
    assert RangesOf([item]).value == [Cut(item).value];
  }
}
