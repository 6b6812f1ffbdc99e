/** The pricing engine (backend/services/pricingService.js): duration times
    the court's base price, times the product of the multipliers of the
    active rules that apply, plus equipment and coach charges and 18% tax.
    Prices are exact reals. */
module Pricing {
  import opened Wrappers
  import opened JsStrings
  import opened TimeUtils
  import opened Models
  import opened EquipmentModel

  const TaxRate: real := 0.18

  // ---------------------------------------------------------------------
  // Rule applicability
  // ---------------------------------------------------------------------

  /** Some range holds the "HH:MM" time, both bounds inclusive, compared as
      strings. */
  predicate InSomeTimeRange(bookingTime: string, ranges: seq<TimeRange>) {
    exists k :: 0 <= k < |ranges| && !StrLt(bookingTime, ranges[k].startTime) && !StrLt(ranges[k].endTime, bookingTime)
  }

  /** Some range holds the UTC date of the instant, both bounds inclusive. */
  predicate InSomeDateRange(cal: Calendar, t: int, ranges: seq<DateRange>) {
    exists k :: 0 <= k < |ranges| && cal.utcDay(ranges[k].startDate) <= cal.utcDay(t) <= cal.utcDay(ranges[k].endDate)
  }

  /** What `isRuleApplicable` decides: every non-empty facet of the rule's
      conditions matches the court and the booking's start. */
  predicate RuleApplies(rule: PricingRule, court: Court, cal: Calendar, bookingDate: int) {
    var c := rule.conditions;
    && (|c.courtTypes| == 0 || court.courtType in c.courtTypes)
    && (|c.daysOfWeek| == 0 || GetDayOfWeek(cal, bookingDate) in c.daysOfWeek)
    && (|c.timeRanges| == 0 || InSomeTimeRange(GetTimeString(cal, bookingDate), c.timeRanges))
    && (|c.dateRanges| == 0 || InSomeDateRange(cal, bookingDate, c.dateRanges))
  }

  /** `isRuleApplicable`: checks the facets in turn, scanning the time and
      date ranges until one holds the booking's start. */
  method IsRuleApplicable(rule: PricingRule, court: Court, cal: Calendar, bookingDate: int) returns (applies: bool)
    ensures applies == RuleApplies(rule, court, cal, bookingDate)
  {
    var conditions := rule.conditions;
    if |conditions.courtTypes| > 0 && court.courtType !in conditions.courtTypes {
      return false;
    }
    var dayOfWeek := GetDayOfWeek(cal, bookingDate);
    if |conditions.daysOfWeek| > 0 && dayOfWeek !in conditions.daysOfWeek {
      return false;
    }
    if |conditions.timeRanges| > 0 {
      var bookingTime := GetTimeString(cal, bookingDate);
      var inTimeRange := false;
      var i := 0;
      while i < |conditions.timeRanges|
        invariant 0 <= i <= |conditions.timeRanges|
        invariant forall k :: 0 <= k < i ==>
          StrLt(bookingTime, conditions.timeRanges[k].startTime) || StrLt(conditions.timeRanges[k].endTime, bookingTime)
      {
        var range := conditions.timeRanges[i];
        if !StrLt(bookingTime, range.startTime) && !StrLt(range.endTime, bookingTime) {
          inTimeRange := true;
          break;
        }
        i := i + 1;
      }
      if !inTimeRange {
        return false;
      }
    }
    if |conditions.dateRanges| > 0 {
      var bookingDateOnly := cal.utcDay(bookingDate);
      var inDateRange := false;
      var i := 0;
      while i < |conditions.dateRanges|
        invariant 0 <= i <= |conditions.dateRanges|
        invariant forall k :: 0 <= k < i ==>
          !(cal.utcDay(conditions.dateRanges[k].startDate) <= bookingDateOnly <= cal.utcDay(conditions.dateRanges[k].endDate))
      {
        var startDate := cal.utcDay(conditions.dateRanges[i].startDate);
        var endDate := cal.utcDay(conditions.dateRanges[i].endDate);
        if bookingDateOnly >= startDate && bookingDateOnly <= endDate {
          inDateRange := true;
          break;
        }
        i := i + 1;
      }
      if !inDateRange {
        return false;
      }
    }
    return true;
  }

  /** A rule whose conditions are all empty applies to every booking. */
  lemma UnrestrictedRuleApplies(rule: PricingRule, court: Court, cal: Calendar, t: int)
    requires rule.conditions == Conditions([], [], [], [])
    ensures RuleApplies(rule, court, cal, t)
  {
  }

  /** With "HH:MM" bounds, a one-range time facet matches exactly when the
      start's minute of the day lies between them, both ends included (unlike
      `isTimeInRange`, whose end is exclusive). */
  lemma TimeFacetInclusive(cal: Calendar, t: int, lo: MinuteOfDay, hi: MinuteOfDay)
    ensures InSomeTimeRange(GetTimeString(cal, t), [TimeRange(TimeString(lo), TimeString(hi))])
            <==> lo <= cal.minuteOfDay(t) <= hi
  {
    var ranges := [TimeRange(TimeString(lo), TimeString(hi))];
    var m := cal.minuteOfDay(t);
    TimeStringOrder(m, lo);
    TimeStringOrder(hi, m);
    if lo <= m <= hi {
      assert !StrLt(GetTimeString(cal, t), ranges[0].startTime) && !StrLt(ranges[0].endTime, GetTimeString(cal, t));
    }
  }

  // ---------------------------------------------------------------------
  // The rule query: active rules, highest priority first
  // ---------------------------------------------------------------------

  /** `{ isActive: true }`, in store order. */
  function ActiveRules(rules: seq<PricingRule>): (r: seq<PricingRule>)
    ensures forall k :: 0 <= k < |r| ==> r[k].isActive
    decreases |rules|
  {
    if |rules| == 0 then []
    else ActiveRules(rules[..|rules| - 1]) + (if rules[|rules| - 1].isActive then [rules[|rules| - 1]] else [])
  }

  /** No active rule is left out of the query's result. */
  lemma {:induction false} ActiveRulesKeepsEvery(rules: seq<PricingRule>)
    ensures forall x :: x in rules && x.isActive ==> x in ActiveRules(rules)
    decreases |rules|
  {
    if |rules| > 0 {
      ActiveRulesKeepsEvery(rules[..|rules| - 1]);
      assert rules == rules[..|rules| - 1] + [rules[|rules| - 1]];
    }
  }

  predicate PriorityDescending(rs: seq<PricingRule>) {
    forall i, j :: 0 <= i < j < |rs| ==> rs[i].priority >= rs[j].priority
  }

  /** Places `r` after every rule of at least its priority. */
  function InsertByPriority(r: PricingRule, ranked: seq<PricingRule>): seq<PricingRule>
    decreases |ranked|
  {
    if |ranked| == 0 then [r]
    else if ranked[0].priority >= r.priority then [ranked[0]] + InsertByPriority(r, ranked[1..])
    else [r] + ranked
  }

  /** `.sort({ priority: -1 })`, stable: rules of equal priority keep their
      store order. */
  function SortByPriority(rules: seq<PricingRule>): seq<PricingRule>
    decreases |rules|
  {
    if |rules| == 0 then []
    else InsertByPriority(rules[|rules| - 1], SortByPriority(rules[..|rules| - 1]))
  }

  lemma {:induction false} InsertByPriorityPermutes(r: PricingRule, ranked: seq<PricingRule>)
    ensures multiset(InsertByPriority(r, ranked)) == multiset(ranked) + multiset{r}
    decreases |ranked|
  {
    if |ranked| > 0 && ranked[0].priority >= r.priority {
      InsertByPriorityPermutes(r, ranked[1..]);
      assert ranked == [ranked[0]] + ranked[1..];
    }
  }

  /** A rule in front of a descending list whose every priority is at most
      its own keeps the list descending. */
  lemma ConsDescending(h: PricingRule, tail: seq<PricingRule>)
    requires PriorityDescending(tail)
    requires PrioritiesAtMost(tail, h.priority)
    ensures PriorityDescending([h] + tail)
  {
    var whole := [h] + tail;
    forall i, j | 0 <= i < j < |whole| ensures whole[i].priority >= whole[j].priority {
      assert whole[j] == tail[j - 1];
      if i > 0 {
        assert whole[i] == tail[i - 1];
      }
    }
  }

  predicate PrioritiesAtMost(rs: seq<PricingRule>, b: int) {
    forall k :: 0 <= k < |rs| ==> rs[k].priority <= b
  }

  /** Inserting never raises the highest priority present. */
  lemma {:induction false} InsertByPriorityBounded(r: PricingRule, ranked: seq<PricingRule>, b: int)
    requires r.priority <= b && PrioritiesAtMost(ranked, b)
    ensures PrioritiesAtMost(InsertByPriority(r, ranked), b)
    decreases |ranked|
  {
    if |ranked| > 0 && ranked[0].priority >= r.priority {
      var tail := InsertByPriority(r, ranked[1..]);
      InsertByPriorityBounded(r, ranked[1..], b);
      var out := [ranked[0]] + tail;
      forall k | 0 <= k < |out| ensures out[k].priority <= b {
        if k > 0 {
          assert out[k] == tail[k - 1];
        }
      }
    } else if |ranked| > 0 {
      var out := [r] + ranked;
      forall k | 0 <= k < |out| ensures out[k].priority <= b {
        if k > 0 {
          assert out[k] == ranked[k - 1];
        }
      }
    }
  }

  lemma {:induction false} InsertByPrioritySorted(r: PricingRule, ranked: seq<PricingRule>)
    requires PriorityDescending(ranked)
    ensures PriorityDescending(InsertByPriority(r, ranked))
    decreases |ranked|
  {
    if |ranked| > 0 {
      var h := ranked[0];
      var rest := ranked[1..];
      assert forall k :: 0 <= k < |rest| ==> rest[k] == ranked[k + 1];
      if h.priority >= r.priority {
        InsertByPrioritySorted(r, rest);
        InsertByPriorityBounded(r, rest, h.priority);
        ConsDescending(h, InsertByPriority(r, rest));
      } else {
        assert ranked == [h] + rest;
        assert PrioritiesAtMost(ranked, h.priority);
        ConsDescending(r, ranked);
      }
    }
  }

  /** The sorted rules are a permutation of the input, highest priority first. */
  lemma {:induction false} SortByPriorityCorrect(rules: seq<PricingRule>)
    ensures PriorityDescending(SortByPriority(rules))
    ensures multiset(SortByPriority(rules)) == multiset(rules)
    decreases |rules|
  {
    if |rules| > 0 {
      var prefix := rules[..|rules| - 1];
      SortByPriorityCorrect(prefix);
      InsertByPrioritySorted(rules[|rules| - 1], SortByPriority(prefix));
      InsertByPriorityPermutes(rules[|rules| - 1], SortByPriority(prefix));
      assert rules == prefix + [rules[|rules| - 1]];
    }
  }

  /** Rules that are all active are all returned, in order. */
  lemma {:induction false} AllActiveKept(rules: seq<PricingRule>)
    requires forall k :: 0 <= k < |rules| ==> rules[k].isActive
    ensures ActiveRules(rules) == rules
    decreases |rules|
  {
    if |rules| > 0 {
      AllActiveKept(rules[..|rules| - 1]);
      assert rules[..|rules| - 1] + [rules[|rules| - 1]] == rules;
    }
  }

  /** A rule of lower priority than all ranked ones goes last. */
  lemma {:induction false} InsertLowest(r: PricingRule, ranked: seq<PricingRule>)
    requires forall k :: 0 <= k < |ranked| ==> ranked[k].priority >= r.priority
    ensures InsertByPriority(r, ranked) == ranked + [r]
    decreases |ranked|
  {
    if |ranked| > 0 {
      InsertLowest(r, ranked[1..]);
      assert ranked == [ranked[0]] + ranked[1..];
    }
  }

  /** Rules already ranked by priority keep their order. */
  lemma {:induction false} SortKeepsRanked(rules: seq<PricingRule>)
    requires PriorityDescending(rules)
    ensures SortByPriority(rules) == rules
    decreases |rules|
  {
    if |rules| > 0 {
      var n := |rules| - 1;
      SortKeepsRanked(rules[..n]);
      InsertLowest(rules[n], rules[..n]);
      assert rules[..n] + [rules[n]] == rules;
    }
  }

  // ---------------------------------------------------------------------
  // Rule stacking
  // ---------------------------------------------------------------------

  /** The rules that `keep` accepts, in the same order. */
  function Filter(rules: seq<PricingRule>, keep: PricingRule -> bool): (r: seq<PricingRule>)
    ensures forall k :: 0 <= k < |r| ==> keep(r[k])
    decreases |rules|
  {
    if |rules| == 0 then []
    else Filter(rules[..|rules| - 1], keep) + (if keep(rules[|rules| - 1]) then [rules[|rules| - 1]] else [])
  }

  /** Applicability to one booking, as a predicate on rules. */
  function AppliesTo(court: Court, cal: Calendar, t: int): PricingRule -> bool {
    rule => RuleApplies(rule, court, cal, t)
  }

  /** The rules of `rules` that apply to the booking, in the same order. */
  function Applicable(rules: seq<PricingRule>, court: Court, cal: Calendar, t: int): (r: seq<PricingRule>)
    ensures forall k :: 0 <= k < |r| ==> RuleApplies(r[k], court, cal, t)
  {
    Filter(rules, AppliesTo(court, cal, t))
  }

  /** No rule that passes the test is left out. */
  lemma {:induction false} FilterKeepsEvery(rules: seq<PricingRule>, keep: PricingRule -> bool)
    ensures forall x :: x in rules && keep(x) ==> x in Filter(rules, keep)
    decreases |rules|
  {
    if |rules| > 0 {
      FilterKeepsEvery(rules[..|rules| - 1], keep);
      assert rules == rules[..|rules| - 1] + [rules[|rules| - 1]];
    }
  }

  /** No rule that applies to the booking is left out. */
  lemma ApplicableKeepsEvery(rules: seq<PricingRule>, court: Court, cal: Calendar, t: int)
    ensures forall x :: x in rules && RuleApplies(x, court, cal, t) ==> x in Applicable(rules, court, cal, t)
  {
    FilterKeepsEvery(rules, AppliesTo(court, cal, t));
  }

  /** Multiplication of prices and multipliers. A named function, so that
      equal products are recognised as equal without arithmetic. */
  function Mul(a: real, b: real): real {
    a * b
  }

  /** The product of the rules' multipliers; 1 for no rules. */
  function Product(rules: seq<PricingRule>): real
    decreases |rules|
  {
    if |rules| == 0 then 1.0 else Mul(Product(rules[..|rules| - 1]), rules[|rules| - 1].multiplier)
  }

  lemma ProductSnoc(rules: seq<PricingRule>, r: PricingRule)
    ensures Product(rules + [r]) == Mul(Product(rules), r.multiplier)
  {
    assert (rules + [r])[..|rules|] == rules;
  }

  lemma FilterStepKept(rules: seq<PricingRule>, keep: PricingRule -> bool)
    requires |rules| > 0 && keep(rules[|rules| - 1])
    ensures Filter(rules, keep) == Filter(rules[..|rules| - 1], keep) + [rules[|rules| - 1]]
    ensures Product(Filter(rules, keep)) == Mul(Product(Filter(rules[..|rules| - 1], keep)), rules[|rules| - 1].multiplier)
  {
    ProductSnoc(Filter(rules[..|rules| - 1], keep), rules[|rules| - 1]);
  }

  lemma FilterStepDropped(rules: seq<PricingRule>, keep: PricingRule -> bool)
    requires |rules| > 0 && !keep(rules[|rules| - 1])
    ensures Filter(rules, keep) == Filter(rules[..|rules| - 1], keep)
  {
    var prefix := Filter(rules[..|rules| - 1], keep);
    assert Filter(rules, keep) == prefix + [];
    assert prefix + [] == prefix;
  }

  /** Filtering a list with one more rule at the end. */
  lemma FilterSnoc(init: seq<PricingRule>, x: PricingRule, keep: PricingRule -> bool)
    ensures Filter(init + [x], keep) == Filter(init, keep) + (if keep(x) then [x] else [])
  {
    assert (init + [x])[..|init|] == init;
  }

  /** A filter that keeps every rule returns the rules unchanged. */
  lemma {:induction false} FilterAllKept(rules: seq<PricingRule>, keep: PricingRule -> bool)
    requires forall k :: 0 <= k < |rules| ==> keep(rules[k])
    ensures Filter(rules, keep) == rules
    decreases |rules|
  {
    if |rules| > 0 {
      FilterAllKept(rules[..|rules| - 1], keep);
      FilterStepKept(rules, keep);
      assert rules[..|rules| - 1] + [rules[|rules| - 1]] == rules;
    }
  }

  /** Proof step of `FilterPermutation`: removing the element that matches
      the last of `a` keeps two permutations permutations. */
  lemma RemoveMatching(a: seq<PricingRule>, b: seq<PricingRule>, j: nat)
    requires multiset(a) == multiset(b) && |a| > 0
    requires j < |b| && b[j] == a[|a| - 1]
    ensures multiset(a[..|a| - 1]) == multiset(b[..j] + b[j + 1..])
  {
    var n := |a| - 1;
    assert a == a[..n] + [a[n]];
    assert multiset(a) == multiset(a[..n]) + multiset{a[n]};
    assert b == b[..j] + [b[j]] + b[j + 1..];
    assert multiset(b) == multiset(b[..j]) + multiset{b[j]} + multiset(b[j + 1..]);
    var rest := b[..j] + b[j + 1..];
    assert multiset(rest) == multiset(b[..j]) + multiset(b[j + 1..]);
    forall x ensures multiset(a[..n])[x] == multiset(rest)[x] {
      assert multiset(a)[x] == multiset(a[..n])[x] + multiset{a[n]}[x];
      assert multiset(b)[x] == multiset(rest)[x] + multiset{b[j]}[x];
    }
    assert multiset(a[..n]) == multiset(rest);
  }

  /** Proof step of `KeptBesideKept`: the last two factors commute. */
  lemma MulSwap(p: real, f: real, g: real)
    ensures Mul(Mul(p, f), g) == Mul(Mul(p, g), f)
  {
  }

  lemma {:induction false} FilterRemoveKeptProduct(rules: seq<PricingRule>, j: nat, keep: PricingRule -> bool)
    requires j < |rules| && keep(rules[j])
    ensures Product(Filter(rules, keep)) == Mul(Product(Filter(rules[..j] + rules[j + 1..], keep)), rules[j].multiplier)
    decreases |rules|
  {
    var n := |rules| - 1;
    if j == n {
      assert rules[..j] + rules[j + 1..] == rules[..n];
      FilterStepKept(rules, keep);
    } else {
      FilterRemoveKeptProduct(rules[..n], j, keep);
      FilterRemoveKeptProductStep(rules, j, keep);
    }
  }

  /** Proof step of `FilterRemoveKeptProduct`: its inductive step, for a
      removed rule before the last one, given the shorter list's case. */
  lemma FilterRemoveKeptProductStep(rules: seq<PricingRule>, j: nat, keep: PricingRule -> bool)
    requires j < |rules| - 1 && keep(rules[j])
    requires var c := rules[..|rules| - 1];
      Product(Filter(c, keep)) == Mul(Product(Filter(c[..j] + c[j + 1..], keep)), rules[j].multiplier)
    ensures Product(Filter(rules, keep)) == Mul(Product(Filter(rules[..j] + rules[j + 1..], keep)), rules[j].multiplier)
  {
    var n := |rules| - 1;
    var rest := rules[..j] + rules[j + 1..];
    var c := rules[..n];
    var cRest := c[..j] + c[j + 1..];
    assert rest[..|rest| - 1] == cRest && rest[|rest| - 1] == rules[n];
    if keep(rules[n]) {
      KeptBesideKept(rules, rest, cRest, keep, Product(Filter(cRest, keep)), rules[j].multiplier);
    } else {
      FilterStepDropped(rules, keep);
      FilterStepDropped(rest, keep);
    }
  }

  /** Proof step of `FilterRemoveKeptProductStep`: a kept last rule multiplies
      both products by its multiplier. */
  lemma KeptBesideKept(rules: seq<PricingRule>, rest: seq<PricingRule>, cRest: seq<PricingRule>,
                       keep: PricingRule -> bool, p: real, f: real)
    requires |rules| > 0 && |rest| > 0 && keep(rules[|rules| - 1])
    requires rest[..|rest| - 1] == cRest && rest[|rest| - 1] == rules[|rules| - 1]
    requires p == Product(Filter(cRest, keep))
    requires Product(Filter(rules[..|rules| - 1], keep)) == Mul(p, f)
    ensures Product(Filter(rules, keep)) == Mul(Product(Filter(rest, keep)), f)
  {
    var g := rules[|rules| - 1].multiplier;
    FilterStepKept(rules, keep);
    FilterStepKept(rest, keep);
    assert Product(Filter(rules, keep)) == Mul(Mul(p, f), g);
    assert Product(Filter(rest, keep)) == Mul(p, g);
    MulSwap(p, f, g);
  }

  lemma {:induction false} FilterRemoveKeptMultiset(rules: seq<PricingRule>, j: nat, keep: PricingRule -> bool)
    requires j < |rules| && keep(rules[j])
    ensures multiset(Filter(rules, keep)) == multiset(Filter(rules[..j] + rules[j + 1..], keep)) + multiset{rules[j]}
    decreases |rules|
  {
    var n := |rules| - 1;
    var x := rules[n];
    var c := rules[..n];
    var rest := rules[..j] + rules[j + 1..];
    assert rules == c + [x];
    FilterSnoc(c, x, keep);
    if j == n {
      assert rest == c;
    } else {
      FilterRemoveKeptMultiset(c, j, keep);
      var cRest := c[..j] + c[j + 1..];
      assert rest == cRest + [x];
      FilterSnoc(cRest, x, keep);
    }
  }

  /** Taking a kept rule out of the input takes it out of the filtered
      rules and its multiplier out of their product. */
  lemma FilterRemoveKept(rules: seq<PricingRule>, j: nat, keep: PricingRule -> bool)
    requires j < |rules| && keep(rules[j])
    ensures Product(Filter(rules, keep)) == Mul(Product(Filter(rules[..j] + rules[j + 1..], keep)), rules[j].multiplier)
    ensures multiset(Filter(rules, keep)) == multiset(Filter(rules[..j] + rules[j + 1..], keep)) + multiset{rules[j]}
  {
    FilterRemoveKeptProduct(rules, j, keep);
    FilterRemoveKeptMultiset(rules, j, keep);
  }

  lemma {:induction false} FilterRemoveDropped(rules: seq<PricingRule>, j: nat, keep: PricingRule -> bool)
    requires j < |rules| && !keep(rules[j])
    ensures Filter(rules, keep) == Filter(rules[..j] + rules[j + 1..], keep)
    decreases |rules|
  {
    var n := |rules| - 1;
    var x := rules[n];
    var c := rules[..n];
    var rest := rules[..j] + rules[j + 1..];
    assert rules == c + [x];
    FilterSnoc(c, x, keep);
    if j == n {
      assert rest == c;
    } else {
      FilterRemoveDropped(c, j, keep);
      var cRest := c[..j] + c[j + 1..];
      assert rest == cRest + [x];
      FilterSnoc(cRest, x, keep);
    }
  }

  /** Filtering commutes with permutation, and the product of the kept
      multipliers does not depend on the order. */
  lemma {:induction false} FilterPermutation(a: seq<PricingRule>, b: seq<PricingRule>, keep: PricingRule -> bool)
    requires multiset(a) == multiset(b)
    ensures Product(Filter(a, keep)) == Product(Filter(b, keep))
    ensures multiset(Filter(a, keep)) == multiset(Filter(b, keep))
    decreases |a|
  {
    if |a| == 0 {
      assert |b| == |multiset(b)| == 0;
    } else {
      var n := |a| - 1;
      assert a[n] in multiset(b);
      var j :| 0 <= j < |b| && b[j] == a[n];
      RemoveMatching(a, b, j);
      FilterPermutation(a[..n], b[..j] + b[j + 1..], keep);
      if keep(a[n]) {
        FilterRemoveKept(b, j, keep);
        FilterStepKept(a, keep);
      } else {
        FilterRemoveDropped(b, j, keep);
        FilterStepDropped(a, keep);
      }
    }
  }

  /** Stacking is order-independent: ranking the rules does not change which
      of them apply or the product of their multipliers. */
  lemma StackingOrderIndependent(a: seq<PricingRule>, b: seq<PricingRule>, court: Court, cal: Calendar, t: int)
    requires multiset(a) == multiset(b)
    ensures Product(Applicable(a, court, cal, t)) == Product(Applicable(b, court, cal, t))
    ensures multiset(Applicable(a, court, cal, t)) == multiset(Applicable(b, court, cal, t))
  {
    FilterPermutation(a, b, AppliesTo(court, cal, t));
  }

  /** Filtering keeps elements of the input and keeps an order by priority. */
  lemma {:induction false} FilterIsSubsequence(rules: seq<PricingRule>, keep: PricingRule -> bool)
    ensures forall x :: x in Filter(rules, keep) ==> x in rules
    ensures PriorityDescending(rules) ==> PriorityDescending(Filter(rules, keep))
    decreases |rules|
  {
    if |rules| > 0 {
      var n := |rules| - 1;
      var prefix := rules[..n];
      FilterIsSubsequence(prefix, keep);
      assert forall x :: x in prefix ==> x in rules;
      if keep(rules[n]) {
        FilterStepKept(rules, keep);
        if PriorityDescending(rules) {
          var out := Filter(rules, keep);
          var pout := Filter(prefix, keep);
          forall i, j | 0 <= i < j < |out| ensures out[i].priority >= out[j].priority {
            if j == |pout| {
              assert out[i] == pout[i] && pout[i] in prefix;
              var i' :| 0 <= i' < n && prefix[i'] == pout[i];
            } else {
              assert out[i] == pout[i] && out[j] == pout[j];
            }
          }
        }
      } else {
        FilterStepDropped(rules, keep);
      }
    }
  }

  /** `appliedRules` entries. */
  function Describe(rules: seq<PricingRule>): (r: seq<AppliedRule>)
    ensures |r| == |rules|
    ensures forall k :: 0 <= k < |r| ==> r[k] == AppliedRule(rules[k].name, rules[k].multiplier, rules[k].description)
    decreases |rules|
  {
    if |rules| == 0 then []
    else Describe(rules[..|rules| - 1]) + [AppliedRule(rules[|rules| - 1].name, rules[|rules| - 1].multiplier, rules[|rules| - 1].description)]
  }

  /** The product of the multipliers listed in `appliedRules`. */
  function AppliedProduct(applied: seq<AppliedRule>): real
    decreases |applied|
  {
    if |applied| == 0 then 1.0 else Mul(AppliedProduct(applied[..|applied| - 1]), applied[|applied| - 1].multiplier)
  }

  lemma {:induction false} AppliedProductOfDescribe(rules: seq<PricingRule>)
    ensures AppliedProduct(Describe(rules)) == Product(rules)
    decreases |rules|
  {
    if |rules| > 0 {
      AppliedProductOfDescribe(rules[..|rules| - 1]);
      assert Describe(rules)[..|rules| - 1] == Describe(rules[..|rules| - 1]);
    }
  }

  // ---------------------------------------------------------------------
  // Equipment and coach charges
  // ---------------------------------------------------------------------

  datatype EquipmentDetail = EquipmentDetail(name: string, quantity: int, pricePerHour: real, totalPrice: real)

  datatype CoachDetail = CoachDetail(name: string, pricePerHour: real, totalPrice: real)

  /** `pricePerHour * quantity * durationHours` for a requested item that
      exists, 0 for one that does not. */
  function ItemCharge(equipment: map<EquipmentId, Equipment>, item: EquipmentRequest, durationHours: real): real {
    if item.equipmentId in equipment
    then Mul(Mul(equipment[item.equipmentId].pricePerHour, item.quantity as real), durationHours)
    else 0.0
  }

  /** `equipmentPrice`: the charges of the requested items, summed. */
  function EquipmentPrice(equipment: map<EquipmentId, Equipment>, items: seq<EquipmentRequest>, durationHours: real): real
    decreases |items|
  {
    if |items| == 0 then 0.0
    else EquipmentPrice(equipment, items[..|items| - 1], durationHours) + ItemCharge(equipment, items[|items| - 1], durationHours)
  }

  /** `equipmentDetails`: one entry per requested item that exists. */
  function EquipmentDetails(equipment: map<EquipmentId, Equipment>, items: seq<EquipmentRequest>, durationHours: real): seq<EquipmentDetail>
    decreases |items|
  {
    if |items| == 0 then []
    else
      var item := items[|items| - 1];
      EquipmentDetails(equipment, items[..|items| - 1], durationHours)
        + (if item.equipmentId in equipment
           then [EquipmentDetail(equipment[item.equipmentId].name, item.quantity, equipment[item.equipmentId].pricePerHour,
                                 ItemCharge(equipment, item, durationHours))]
           else [])
  }

  /** The requested items that exist, in request order. */
  function ExistingItems(equipment: map<EquipmentId, Equipment>, items: seq<EquipmentRequest>): (r: seq<EquipmentRequest>)
    ensures |r| <= |items|
    ensures forall k :: 0 <= k < |r| ==> r[k].equipmentId in equipment
    decreases |items|
  {
    if |items| == 0 then []
    else
      ExistingItems(equipment, items[..|items| - 1])
        + (if items[|items| - 1].equipmentId in equipment then [items[|items| - 1]] else [])
  }

  /** Items that no longer exist are skipped: the price and the details are
      those of the existing items alone, one detail for each of them. */
  lemma {:induction false} MissingEquipmentSkipped(equipment: map<EquipmentId, Equipment>, items: seq<EquipmentRequest>, durationHours: real)
    ensures var kept := ExistingItems(equipment, items);
      && EquipmentPrice(equipment, items, durationHours) == EquipmentPrice(equipment, kept, durationHours)
      && EquipmentDetails(equipment, items, durationHours) == EquipmentDetails(equipment, kept, durationHours)
      && |EquipmentDetails(equipment, items, durationHours)| == |kept|
    decreases |items|
  {
    if |items| > 0 {
      var prefix := items[..|items| - 1];
      var last := items[|items| - 1];
      MissingEquipmentSkipped(equipment, prefix, durationHours);
      var keptPrefix := ExistingItems(equipment, prefix);
      var kept := ExistingItems(equipment, items);
      if last.equipmentId in equipment {
        assert kept == keptPrefix + [last];
        assert kept[..|kept| - 1] == keptPrefix;
        assert kept[|kept| - 1] == last;
      } else {
        assert kept == keptPrefix;
        assert EquipmentDetails(equipment, items, durationHours) == EquipmentDetails(equipment, prefix, durationHours) + [];
      }
    }
  }

  /** When none of the requested items exists the equipment price is 0 and
      there are no details. */
  lemma {:induction false} AllEquipmentMissing(equipment: map<EquipmentId, Equipment>, items: seq<EquipmentRequest>, durationHours: real)
    requires forall k :: 0 <= k < |items| ==> items[k].equipmentId !in equipment
    ensures EquipmentPrice(equipment, items, durationHours) == 0.0
    ensures EquipmentDetails(equipment, items, durationHours) == []
    decreases |items|
  {
    if |items| > 0 {
      AllEquipmentMissing(equipment, items[..|items| - 1], durationHours);
    }
  }

  /** `coachPrice` and `coachDetails`: the coach's rate times the duration
      when a coach is requested and exists, otherwise 0 and none. */
  function CoachCharge(coaches: map<CoachId, Coach>, coachId: Option<CoachId>, durationHours: real): (real, Option<CoachDetail>) {
    if coachId.Some? && coachId.value in coaches then
      var coach := coaches[coachId.value];
      (Mul(coach.pricePerHour, durationHours), Some(CoachDetail(coach.name, coach.pricePerHour, Mul(coach.pricePerHour, durationHours))))
    else (0.0, None)
  }

  // ---------------------------------------------------------------------
  // The quote
  // ---------------------------------------------------------------------

  datatype Breakdown = Breakdown(
    courtBasePrice: real,
    courtMultiplier: real,
    courtPrice: real,
    equipmentPrice: real,
    coachPrice: real,
    subtotal: real,
    tax: real,
    totalPrice: real,
    durationHours: real,
    appliedRules: seq<AppliedRule>,
    equipmentDetails: seq<EquipmentDetail>,
    coachDetails: Option<CoachDetail>)

  /** The price `calculateTotalPrice` computes. The multiplier is stated over
      the active rules in store order; the loop in `CalculateTotalPrice`
      multiplies them in priority order, which gives the same product. */
  function Quote(courts: map<CourtId, Court>, equipment: map<EquipmentId, Equipment>, coaches: map<CoachId, Coach>,
                 rules: seq<PricingRule>, cal: Calendar, req: ResourceRequest): Result<Breakdown>
  {
    var d := CalculateDurationInHours(req.startTime, req.endTime);
    if d <= 0.0 then Failure("Invalid booking duration")
    else if req.courtId !in courts then Failure("Court not found")
    else
      var court := courts[req.courtId];
      var base := Mul(court.basePrice, d);
      var active := ActiveRules(rules);
      var multiplier := Product(Applicable(active, court, cal, req.startTime));
      var applied := Describe(Applicable(SortByPriority(active), court, cal, req.startTime));
      var courtPrice := Mul(base, multiplier);
      var equipmentPrice := EquipmentPrice(equipment, req.equipment, d);
      var coach := CoachCharge(coaches, req.coachId, d);
      var subtotal := courtPrice + equipmentPrice + coach.0;
      var tax := Mul(subtotal, TaxRate);
      Success(Breakdown(base, multiplier, courtPrice, equipmentPrice, coach.0, subtotal, tax, subtotal + tax, d,
                        applied, EquipmentDetails(equipment, req.equipment, d), coach.1))
  }

  /** The error cases: a non-positive duration, then a missing court; no price
      is produced for either. */
  lemma QuoteFailures(courts: map<CourtId, Court>, equipment: map<EquipmentId, Equipment>, coaches: map<CoachId, Coach>,
                      rules: seq<PricingRule>, cal: Calendar, req: ResourceRequest)
    ensures Quote(courts, equipment, coaches, rules, cal, req).Failure? <==>
            !ValidateTimeRange(req.startTime, req.endTime) || req.courtId !in courts
    ensures !ValidateTimeRange(req.startTime, req.endTime) ==>
            Quote(courts, equipment, coaches, rules, cal, req) == Failure("Invalid booking duration")
    ensures ValidateTimeRange(req.startTime, req.endTime) && req.courtId !in courts ==>
            Quote(courts, equipment, coaches, rules, cal, req) == Failure("Court not found")
  {
    ValidIffPositiveDuration(req.startTime, req.endTime);
  }

  /** A successful quote describes the requested coach exactly when that
      coach exists, at the coach's hourly price. */
  lemma QuoteCoachDetails(courts: map<CourtId, Court>, equipment: map<EquipmentId, Equipment>, coaches: map<CoachId, Coach>,
                          rules: seq<PricingRule>, cal: Calendar, req: ResourceRequest)
    requires Quote(courts, equipment, coaches, rules, cal, req).Success?
    ensures var d := Quote(courts, equipment, coaches, rules, cal, req).value.coachDetails;
      && (d.Some? <==> req.coachId.Some? && req.coachId.value in coaches)
      && (d.Some? ==> d.value.name == coaches[req.coachId.value].name
                      && d.value.pricePerHour == coaches[req.coachId.value].pricePerHour)
  {
  }

  /** The arithmetic of a successful quote: base and court price, the
      breakdown's sum, 18% tax, and the total as 1.18 times the subtotal. */
  lemma QuoteArithmetic(courts: map<CourtId, Court>, equipment: map<EquipmentId, Equipment>, coaches: map<CoachId, Coach>,
                        rules: seq<PricingRule>, cal: Calendar, req: ResourceRequest)
    requires Quote(courts, equipment, coaches, rules, cal, req).Success?
    ensures var b := Quote(courts, equipment, coaches, rules, cal, req).value;
      && b.durationHours == (req.endTime - req.startTime) as real / 3600000.0
      && b.courtBasePrice == courts[req.courtId].basePrice * b.durationHours
      && b.courtPrice == b.courtBasePrice * b.courtMultiplier
      && b.subtotal == b.courtPrice + b.equipmentPrice + b.coachPrice
      && b.tax == 0.18 * b.subtotal
      && b.totalPrice == b.subtotal + b.tax
      && b.totalPrice == 1.18 * b.subtotal
      && b.coachPrice == (if req.coachId.Some? && req.coachId.value in coaches
                          then coaches[req.coachId.value].pricePerHour * b.durationHours else 0.0)
  {
  }

  /** The applicable rules of the ranked query, listed as `appliedRules`
      lists them: highest priority first, each active and applicable, every
      active applicable rule present, and the same multiset as the
      applicable rules in store order. */
  lemma RankedApplicable(rules: seq<PricingRule>, court: Court, cal: Calendar, t: int)
    ensures var listed := Applicable(SortByPriority(ActiveRules(rules)), court, cal, t);
      && PriorityDescending(listed)
      && multiset(listed) == multiset(Applicable(ActiveRules(rules), court, cal, t))
      && (forall k :: 0 <= k < |listed| ==> listed[k].isActive && RuleApplies(listed[k], court, cal, t))
      && (forall x :: x in rules && x.isActive && RuleApplies(x, court, cal, t) ==> x in listed)
  {
    var active := ActiveRules(rules);
    var sorted := SortByPriority(active);
    var listed := Applicable(sorted, court, cal, t);
    SortByPriorityCorrect(active);
    FilterIsSubsequence(sorted, AppliesTo(court, cal, t));
    StackingOrderIndependent(sorted, active, court, cal, t);
    forall k | 0 <= k < |listed| ensures listed[k].isActive {
      assert listed[k] in sorted;
      assert listed[k] in multiset(active);
    }
    ActiveRulesKeepsEvery(rules);
    ApplicableKeepsEvery(active, court, cal, t);
    forall x | x in rules && x.isActive && RuleApplies(x, court, cal, t) ensures x in listed {
      assert x in multiset(Applicable(active, court, cal, t));
    }
  }

  /** `courtMultiplier` is the product of the multipliers `appliedRules`
      lists; `appliedRules` describes exactly the active applicable rules
      (as a multiset, and each such rule at least once), highest priority
      first; with none it is empty and the multiplier is 1. */
  lemma QuoteRules(courts: map<CourtId, Court>, equipment: map<EquipmentId, Equipment>, coaches: map<CoachId, Coach>,
                   rules: seq<PricingRule>, cal: Calendar, req: ResourceRequest)
    requires Quote(courts, equipment, coaches, rules, cal, req).Success?
    ensures var b := Quote(courts, equipment, coaches, rules, cal, req).value;
      var court := courts[req.courtId];
      exists listed: seq<PricingRule> ::
        && b.appliedRules == Describe(listed)
        && PriorityDescending(listed)
        && multiset(listed) == multiset(Applicable(ActiveRules(rules), court, cal, req.startTime))
        && (forall k :: 0 <= k < |listed| ==> listed[k].isActive && RuleApplies(listed[k], court, cal, req.startTime))
        && (forall x :: x in rules && x.isActive && RuleApplies(x, court, cal, req.startTime) ==> x in listed)
        && b.courtMultiplier == AppliedProduct(b.appliedRules)
        && (listed == [] ==> b.courtMultiplier == 1.0)
  {
    var court := courts[req.courtId];
    var active := ActiveRules(rules);
    var listed := Applicable(SortByPriority(active), court, cal, req.startTime);
    RankedApplicable(rules, court, cal, req.startTime);
    SortByPriorityCorrect(active);
    StackingOrderIndependent(SortByPriority(active), active, court, cal, req.startTime);
    AppliedProductOfDescribe(listed);
    var b := Quote(courts, equipment, coaches, rules, cal, req).value;
    assert b.appliedRules == Describe(listed);
  }

  /** The quote assembled from what the loops of `CalculateTotalPrice`
      compute: the multiplier over the ranked rules and the equipment sums. */
  lemma QuoteOfLoopResults(courts: map<CourtId, Court>, equipment: map<EquipmentId, Equipment>, coaches: map<CoachId, Coach>,
                           rules: seq<PricingRule>, cal: Calendar, req: ResourceRequest,
                           multiplier: real, applied: seq<AppliedRule>, equipmentPrice: real, details: seq<EquipmentDetail>)
    requires CalculateDurationInHours(req.startTime, req.endTime) > 0.0 && req.courtId in courts
    requires multiplier == Product(Applicable(SortByPriority(ActiveRules(rules)), courts[req.courtId], cal, req.startTime))
    requires applied == Describe(Applicable(SortByPriority(ActiveRules(rules)), courts[req.courtId], cal, req.startTime))
    requires equipmentPrice == EquipmentPrice(equipment, req.equipment, CalculateDurationInHours(req.startTime, req.endTime))
    requires details == EquipmentDetails(equipment, req.equipment, CalculateDurationInHours(req.startTime, req.endTime))
    ensures var d := CalculateDurationInHours(req.startTime, req.endTime);
      var courtPrice := Mul(Mul(courts[req.courtId].basePrice, d), multiplier);
      var coach := CoachCharge(coaches, req.coachId, d);
      var subtotal := courtPrice + equipmentPrice + coach.0;
      Quote(courts, equipment, coaches, rules, cal, req)
      == Success(Breakdown(Mul(courts[req.courtId].basePrice, d), multiplier, courtPrice, equipmentPrice, coach.0,
                           subtotal, Mul(subtotal, TaxRate), subtotal + Mul(subtotal, TaxRate), d,
                           applied, details, coach.1))
  {
    var active := ActiveRules(rules);
    SortByPriorityCorrect(active);
    StackingOrderIndependent(SortByPriority(active), active, courts[req.courtId], cal, req.startTime);
  }

  // ---------------------------------------------------------------------
  // calculateTotalPrice and getPriceEstimate
  // ---------------------------------------------------------------------

  /** The first loop of `calculateTotalPrice`: walks the ranked rules,
      multiplying in and describing every one that applies to the booking. */
  method ApplyPricingRules(pricingRules: seq<PricingRule>, court: Court, cal: Calendar, t: int)
    returns (courtMultiplier: real, appliedRules: seq<AppliedRule>)
    ensures courtMultiplier == Product(Applicable(pricingRules, court, cal, t))
    ensures appliedRules == Describe(Applicable(pricingRules, court, cal, t))
  {
    courtMultiplier := 1.0;
    appliedRules := [];
    for i := 0 to |pricingRules|
      invariant courtMultiplier == Product(Applicable(pricingRules[..i], court, cal, t))
      invariant appliedRules == Describe(Applicable(pricingRules[..i], court, cal, t))
    {
      var rule := pricingRules[i];
      assert pricingRules[..i + 1][..i] == pricingRules[..i];
      var applies := IsRuleApplicable(rule, court, cal, t);
      if applies {
        FilterStepKept(pricingRules[..i + 1], AppliesTo(court, cal, t));
        courtMultiplier := Mul(courtMultiplier, rule.multiplier);
        appliedRules := appliedRules + [AppliedRule(rule.name, rule.multiplier, rule.description)];
      } else {
        FilterStepDropped(pricingRules[..i + 1], AppliesTo(court, cal, t));
      }
    }
    assert pricingRules[..|pricingRules|] == pricingRules;
  }

  /** The second loop of `calculateTotalPrice`: prices every requested item
      that exists, skipping unknown ids. */
  method PriceEquipment(equipment: map<EquipmentId, Equipment>, items: seq<EquipmentRequest>, durationHours: real)
    returns (equipmentPrice: real, equipmentDetails: seq<EquipmentDetail>)
    ensures equipmentPrice == EquipmentPrice(equipment, items, durationHours)
    ensures equipmentDetails == EquipmentDetails(equipment, items, durationHours)
  {
    equipmentPrice := 0.0;
    equipmentDetails := [];
    for i := 0 to |items|
      invariant equipmentPrice == EquipmentPrice(equipment, items[..i], durationHours)
      invariant equipmentDetails == EquipmentDetails(equipment, items[..i], durationHours)
    {
      var item := items[i];
      assert items[..i + 1][..i] == items[..i];
      if item.equipmentId in equipment {
        var equipmentItem := equipment[item.equipmentId];
        var itemPrice := Mul(Mul(equipmentItem.pricePerHour, item.quantity as real), durationHours);
        equipmentPrice := equipmentPrice + itemPrice;
        equipmentDetails := equipmentDetails + [EquipmentDetail(equipmentItem.name, item.quantity, equipmentItem.pricePerHour, itemPrice)];
      }
    }
    assert items[..|items|] == items;
  }

  /** `calculateTotalPrice`: the duration and court checks, the loop over the
      sorted active rules, the loop over the requested equipment, the coach
      charge and the tax. */
  method CalculateTotalPrice(courts: map<CourtId, Court>, equipment: map<EquipmentId, Equipment>, coaches: map<CoachId, Coach>,
                             rules: seq<PricingRule>, cal: Calendar, req: ResourceRequest)
    returns (r: Result<Breakdown>)
    ensures r == Quote(courts, equipment, coaches, rules, cal, req)
  {
    var durationHours := CalculateDurationInHours(req.startTime, req.endTime);
    if durationHours <= 0.0 {
      return Failure("Invalid booking duration");
    }
    if req.courtId !in courts {
      return Failure("Court not found");
    }
    var court := courts[req.courtId];
    var courtBasePrice := Mul(court.basePrice, durationHours);

    var pricingRules := SortByPriority(ActiveRules(rules));
    var courtMultiplier, appliedRules := ApplyPricingRules(pricingRules, court, cal, req.startTime);
    var courtPrice := Mul(courtBasePrice, courtMultiplier);

    var equipmentPrice, equipmentDetails := PriceEquipment(equipment, req.equipment, durationHours);

    var coachPrice := 0.0;
    var coachDetails: Option<CoachDetail> := None;
    if req.coachId.Some? && req.coachId.value in coaches {
      var coach := coaches[req.coachId.value];
      coachPrice := Mul(coach.pricePerHour, durationHours);
      coachDetails := Some(CoachDetail(coach.name, coach.pricePerHour, coachPrice));
    }

    var subtotal := courtPrice + equipmentPrice + coachPrice;
    var tax := Mul(subtotal, TaxRate);
    var totalPrice := subtotal + tax;

    assert (coachPrice, coachDetails) == CoachCharge(coaches, req.coachId, durationHours);
    QuoteOfLoopResults(courts, equipment, coaches, rules, cal, req, courtMultiplier, appliedRules, equipmentPrice, equipmentDetails);
    r := Success(Breakdown(courtBasePrice, courtMultiplier, courtPrice, equipmentPrice, coachPrice, subtotal, tax, totalPrice,
                           durationHours, appliedRules, equipmentDetails, coachDetails));
  }

  /** `getPriceEstimate` returns what `calculateTotalPrice` returns, so the
      estimate shown before booking is the price a booking stores. */
  method GetPriceEstimate(courts: map<CourtId, Court>, equipment: map<EquipmentId, Equipment>, coaches: map<CoachId, Coach>,
                          rules: seq<PricingRule>, cal: Calendar, req: ResourceRequest)
    returns (r: Result<Breakdown>)
    ensures r == Quote(courts, equipment, coaches, rules, cal, req)
  {
    r := CalculateTotalPrice(courts, equipment, coaches, rules, cal, req);
  }

  // ---------------------------------------------------------------------
  // The seed data as a worked example
  // ---------------------------------------------------------------------

  const PeakHours := PricingRule("Peak Hours Premium", "50% increase during peak hours (6 PM - 9 PM)", PeakHour, 1.5,
                                 Conditions([], [], [TimeRange("18:00", "21:00")], []), 10, true)
  const WeekendSurcharge := PricingRule("Weekend Surcharge", "30% increase on weekends", Weekend, 1.3,
                                        Conditions([], [0, 6], [], []), 5, true)
  const IndoorCourtPremium := PricingRule("Indoor Court Premium", "20% premium for indoor courts", RuleType.IndoorPremium, 1.2,
                                     Conditions([Indoor], [], [], []), 3, true)
  const EarlyBird := PricingRule("Early Bird Discount", "15% discount for early morning bookings", Custom, 0.85,
                                 Conditions([], [], [TimeRange("06:00", "09:00")], []), 8, true)
  const SeedRules := [PeakHours, WeekendSurcharge, IndoorCourtPremium, EarlyBird]
  const IndoorCourt1 := Court("Indoor Court 1", Indoor, "Badminton", 50.0, true, 1,
                              "Premium indoor badminton court with wooden flooring")

  /** Indoor Court 1 on a Saturday from 18:00 to 20:00, no equipment or
      coach: peak, weekend and indoor rules stack to 2.34, the court costs
      234, the tax 42.12 and the total 276.12; the early-bird rule does not
      apply, and the applied rules are listed by priority. */
  lemma SeedSaturdayEvening(cal: Calendar, t: int)
    requires cal.weekday(t) == 6 && cal.minuteOfDay(t) == 18 * 60
    ensures var q := Quote(map[0 := IndoorCourt1], map[], map[], SeedRules, cal, ResourceRequest(0, t, t + 2 * MsPerHour, [], None));
      && q.Success?
      && q.value.durationHours == 2.0
      && q.value.courtMultiplier == 2.34
      && q.value.courtPrice == 234.0
      && q.value.tax == 42.12
      && q.value.totalPrice == 276.12
      && q.value.appliedRules == [AppliedRule(PeakHours.name, 1.5, PeakHours.description),
                                  AppliedRule(WeekendSurcharge.name, 1.3, WeekendSurcharge.description),
                                  AppliedRule(IndoorCourtPremium.name, 1.2, IndoorCourtPremium.description)]
  {
    SeedStoreOrder(cal, t);
    SeedRanked(cal, t);
    var applicable := [PeakHours, WeekendSurcharge, IndoorCourtPremium];
    assert Describe(applicable) == [AppliedRule(PeakHours.name, 1.5, PeakHours.description),
                                    AppliedRule(WeekendSurcharge.name, 1.3, WeekendSurcharge.description),
                                    AppliedRule(IndoorCourtPremium.name, 1.2, IndoorCourtPremium.description)];
    assert CalculateDurationInHours(t, t + 2 * MsPerHour) == 2.0;
  }

  /** In store order the peak, weekend and indoor rules apply, and their
      multipliers stack to 2.34. */
  lemma SeedStoreOrder(cal: Calendar, t: int)
    requires cal.weekday(t) == 6 && cal.minuteOfDay(t) == 18 * 60
    ensures Applicable(ActiveRules(SeedRules), IndoorCourt1, cal, t) == [PeakHours, WeekendSurcharge, IndoorCourtPremium]
    ensures Product([PeakHours, WeekendSurcharge, IndoorCourtPremium]) == 2.34
  {
    var keep := AppliesTo(IndoorCourt1, cal, t);
    SeedApplicability(cal, t);
    var applicable := [PeakHours, WeekendSurcharge, IndoorCourtPremium];
    AllActiveKept(SeedRules);
    FilterStepDropped(SeedRules, keep);
    assert SeedRules[..3] == applicable;
    FilterAllKept(applicable, keep);
    ProductSnoc([PeakHours, WeekendSurcharge], IndoorCourtPremium);
    assert [PeakHours, WeekendSurcharge] + [IndoorCourtPremium] == applicable;
    ProductSnoc([PeakHours], WeekendSurcharge);
    assert [PeakHours] + [WeekendSurcharge] == [PeakHours, WeekendSurcharge];
    ProductSnoc([], PeakHours);
    assert [] + [PeakHours] == [PeakHours];
  }

  /** Ranked by priority, the early-bird rule comes second. */
  lemma SeedSorted()
    ensures SortByPriority(ActiveRules(SeedRules)) == [PeakHours, EarlyBird, WeekendSurcharge, IndoorCourtPremium]
  {
    AllActiveKept(SeedRules);
    var applicable := [PeakHours, WeekendSurcharge, IndoorCourtPremium];
    assert SeedRules[..3] == applicable;
    SortKeepsRanked(applicable);
    assert InsertByPriority(EarlyBird, [IndoorCourtPremium]) == [EarlyBird, IndoorCourtPremium];
    assert [WeekendSurcharge, IndoorCourtPremium][1..] == [IndoorCourtPremium];
    assert InsertByPriority(EarlyBird, [WeekendSurcharge, IndoorCourtPremium]) == [EarlyBird, WeekendSurcharge, IndoorCourtPremium];
    assert applicable[1..] == [WeekendSurcharge, IndoorCourtPremium];
  }

  /** Filtering four rules of which only the second is refused. */
  lemma FilterDropsSecond(a: PricingRule, b: PricingRule, c: PricingRule, d: PricingRule, keep: PricingRule -> bool)
    requires keep(a) && !keep(b) && keep(c) && keep(d)
    ensures Filter([a, b, c, d], keep) == [a, c, d]
  {
    var empty: seq<PricingRule> := [];
    FilterSnoc(empty, a, keep);
    assert empty + [a] == [a];
    FilterSnoc([a], b, keep);
    FilterSnoc([a, b], c, keep);
    FilterSnoc([a, b, c], d, keep);
    assert [a] + [b] == [a, b] && [a, b] + [c] == [a, b, c] && [a, b, c] + [d] == [a, b, c, d];
  }

  /** Ranked by priority the early-bird rule comes second, and filtering the
      ranked rules leaves the peak, weekend and indoor rules in that order. */
  lemma SeedRanked(cal: Calendar, t: int)
    requires cal.weekday(t) == 6 && cal.minuteOfDay(t) == 18 * 60
    ensures SortByPriority(ActiveRules(SeedRules)) == [PeakHours, EarlyBird, WeekendSurcharge, IndoorCourtPremium]
    ensures Applicable([PeakHours, EarlyBird, WeekendSurcharge, IndoorCourtPremium], IndoorCourt1, cal, t)
            == [PeakHours, WeekendSurcharge, IndoorCourtPremium]
  {
    SeedSorted();
    SeedApplicability(cal, t);
    FilterDropsSecond(PeakHours, EarlyBird, WeekendSurcharge, IndoorCourtPremium, AppliesTo(IndoorCourt1, cal, t));
  }

  /** Which seed rules apply on a Saturday at 18:00 at an indoor court. */
  lemma SeedApplicability(cal: Calendar, t: int)
    requires cal.weekday(t) == 6 && cal.minuteOfDay(t) == 18 * 60
    ensures var keep := AppliesTo(IndoorCourt1, cal, t);
      keep(PeakHours) && keep(WeekendSurcharge) && keep(IndoorCourtPremium) && !keep(EarlyBird)
  {
    PeakApplies(cal, t);
    EarlyBirdDoesNotApply(cal, t);
    assert RuleApplies(WeekendSurcharge, IndoorCourt1, cal, t);
    assert RuleApplies(IndoorCourtPremium, IndoorCourt1, cal, t);
  }

  /** Proof steps of `PeakApplies` and `EarlyBirdDoesNotApply`: the bounds of
      the seed rules' time ranges, rendered. */
  lemma SixAm() ensures TimeString(6 * 60) == "06:00" { }
  lemma NineAm() ensures TimeString(9 * 60) == "09:00" { }
  lemma SixPm() ensures TimeString(18 * 60) == "18:00" { }
  lemma NinePm() ensures TimeString(21 * 60) == "21:00" { }

  lemma PeakApplies(cal: Calendar, t: int)
    requires cal.minuteOfDay(t) == 18 * 60
    ensures RuleApplies(PeakHours, IndoorCourt1, cal, t)
  {
    SixPm();
    NinePm();
    TimeFacetInclusive(cal, t, 18 * 60, 21 * 60);
  }

  lemma EarlyBirdDoesNotApply(cal: Calendar, t: int)
    requires cal.minuteOfDay(t) == 18 * 60
    ensures !RuleApplies(EarlyBird, IndoorCourt1, cal, t)
  {
    SixAm();
    NineAm();
    TimeFacetInclusive(cal, t, 6 * 60, 9 * 60);
  }
}
