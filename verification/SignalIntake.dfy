/** How the wire list reaches the engine: its order is forgotten, and a day sees only what was effective by then. */
module SignalIntake {
  import opened Claims
  import opened Ledger
  import opened SignalProjection
  import Sorting

  lemma {:induction false} CollectConcat(
      a: seq<WireSignal>, b: seq<WireSignal>, defaultHorizon: int, minConfidence: real, universe: set<Symbol>)
    ensures var (ca, cb) := (Collect(a, defaultHorizon, minConfidence, universe),
            Collect(b, defaultHorizon, minConfidence, universe));
            var both := Collect(a + b, defaultHorizon, minConfidence, universe);
            && (both.Signals? <==> ca.Signals? && cb.Signals?)
            && (both.Signals? ==> both.signals == ca.signals + cb.signals)
  {
    hide Resolve;
    if |b| == 0 {
      assert a + b == a;
    } else {
      assert (a + b)[..|a + b| - 1] == a + b[..|b| - 1];
      CollectConcat(a, b[..|b| - 1], defaultHorizon, minConfidence, universe);
    }
  }

  lemma CollectWithout(
      raw: seq<WireSignal>, k: nat, defaultHorizon: int, minConfidence: real, universe: set<Symbol>)
    requires k < |raw|
    ensures var one := Collect([raw[k]], defaultHorizon, minConfidence, universe);
            var rest := Collect(Sorting.Without(raw, k), defaultHorizon, minConfidence, universe);
            var all := Collect(raw, defaultHorizon, minConfidence, universe);
            && (all.Signals? <==> one.Signals? && rest.Signals?)
            && (all.Signals? ==> multiset(all.signals) == multiset(one.signals) + multiset(rest.signals))
  {
    hide Collect;
    assert raw == (raw[..k] + [raw[k]]) + raw[k + 1..];
    CollectConcat(raw[..k], [raw[k]], defaultHorizon, minConfidence, universe);
    CollectConcat(raw[..k] + [raw[k]], raw[k + 1..], defaultHorizon, minConfidence, universe);
    CollectConcat(raw[..k], raw[k + 1..], defaultHorizon, minConfidence, universe);
  }

  /** Whether a list is refused, and what it holds otherwise, do not depend on its order. */
  lemma {:induction false} CollectForgetsOrder(
      a: seq<WireSignal>, b: seq<WireSignal>, defaultHorizon: int, minConfidence: real, universe: set<Symbol>)
    requires multiset(a) == multiset(b)
    ensures var (ca, cb) := (Collect(a, defaultHorizon, minConfidence, universe),
            Collect(b, defaultHorizon, minConfidence, universe));
            && (ca.Signals? <==> cb.Signals?)
            && (ca.Signals? ==> multiset(ca.signals) == multiset(cb.signals))
  {
    hide Collect;
    Sorting.SameMembers(a, b);
    if |a| == 0 {
      assert a == b;
    } else {
      assert a[0] in b;
      var k :| 0 <= k < |b| && b[k] == a[0];
      Sorting.WithoutDropsOne(a, 0);
      Sorting.WithoutDropsOne(b, k);
      CollectForgetsOrder(Sorting.Without(a, 0), Sorting.Without(b, k), defaultHorizon, minConfidence, universe);
      CollectWithout(a, 0, defaultHorizon, minConfidence, universe);
      CollectWithout(b, k, defaultHorizon, minConfidence, universe);
    }
  }

  predicate IsVisible(item: WireSignal, day: int) {
    item.effectiveAt.Some? && DayOf(item.effectiveAt.value) <= day
  }

  /** The items of the wire list whose claims are effective by a day. */
  function Visible(raw: seq<WireSignal>, day: int): seq<WireSignal> {
    if |raw| == 0 then []
    else
      var before, last := Visible(raw[..|raw| - 1], day), raw[|raw| - 1];
      if IsVisible(last, day) then before + [last] else before
  }

  lemma {:induction false} VisibleCounts(raw: seq<WireSignal>, day: int, item: WireSignal)
    ensures multiset(Visible(raw, day))[item] == if IsVisible(item, day) then multiset(raw)[item] else 0
  {
    if |raw| > 0 {
      assert raw == raw[..|raw| - 1] + [raw[|raw| - 1]];
      VisibleCounts(raw[..|raw| - 1], day, item);
    }
  }

  lemma {:induction false} EffectiveCounts(signals: seq<ClaimSignal>, day: int, s: ClaimSignal)
    ensures multiset(EffectiveBy(signals, day))[s] == if s.effective <= day then multiset(signals)[s] else 0
  {
    if |signals| > 0 {
      assert signals == signals[..|signals| - 1] + [signals[|signals| - 1]];
      EffectiveCounts(signals[..|signals| - 1], day, s);
    }
  }

  lemma EffectiveForgetsOrder(a: seq<ClaimSignal>, b: seq<ClaimSignal>, day: int)
    requires multiset(a) == multiset(b)
    ensures multiset(EffectiveBy(a, day)) == multiset(EffectiveBy(b, day))
  {
    hide EffectiveBy;
    forall s ensures multiset(EffectiveBy(a, day))[s] == multiset(EffectiveBy(b, day))[s] {
      EffectiveCounts(a, day, s);
      EffectiveCounts(b, day, s);
    }
  }

  /** Collecting what is visible is the same as seeing what was collected. */
  lemma {:induction false} VisibleIsEffective(
      raw: seq<WireSignal>, defaultHorizon: int, minConfidence: real, universe: set<Symbol>, day: int)
    requires Collect(raw, defaultHorizon, minConfidence, universe).Signals?
    ensures Collect(Visible(raw, day), defaultHorizon, minConfidence, universe)
         == Signals(EffectiveBy(Collect(raw, defaultHorizon, minConfidence, universe).signals, day))
  {
    hide Resolve, DayOf, IsVisible;
    if |raw| > 0 {
      var front, last := raw[..|raw| - 1], raw[|raw| - 1];
      VisibleIsEffective(front, defaultHorizon, minConfidence, universe, day);
      var before := Collect(front, defaultHorizon, minConfidence, universe).signals;
      var resolved := Resolve(last, defaultHorizon, minConfidence, universe);
      if resolved.Kept? {
        KeptWhenEffective(last, defaultHorizon, minConfidence, universe, day);
        EffectiveAppend(before, resolved.signal, day);
      }
      if IsVisible(last, day) {
        CollectAppend(Visible(front, day), last, defaultHorizon, minConfidence, universe);
      }
      hide EffectiveBy;
    }
  }

  /** A kept item is visible exactly while its signal is effective. */
  lemma KeptWhenEffective(
      item: WireSignal, defaultHorizon: int, minConfidence: real, universe: set<Symbol>, day: int)
    requires Resolve(item, defaultHorizon, minConfidence, universe).Kept?
    ensures IsVisible(item, day) <==>
              Resolve(item, defaultHorizon, minConfidence, universe).signal.effective <= day
  {
    hide Text.Trim, DayOf;
  }

  lemma EffectiveAppend(before: seq<ClaimSignal>, last: ClaimSignal, day: int)
    ensures EffectiveBy(before + [last], day)
         == EffectiveBy(before, day) + (if last.effective <= day then [last] else [])
  {
    assert (before + [last])[..|before|] == before;
  }

  lemma CollectAppend(
      before: seq<WireSignal>, last: WireSignal, defaultHorizon: int, minConfidence: real, universe: set<Symbol>)
    requires Collect(before, defaultHorizon, minConfidence, universe).Signals?
    ensures Collect(before + [last], defaultHorizon, minConfidence, universe)
         == match Resolve(last, defaultHorizon, minConfidence, universe)
            case Dropped => Collect(before, defaultHorizon, minConfidence, universe)
            case Kept(signal) => Signals(Collect(before, defaultHorizon, minConfidence, universe).signals + [signal])
            case Refused(reason) => Rejected(reason)
  {
    hide Resolve;
    assert (before + [last])[..|before|] == before;
  }

  /** Normalised lists of wire lists that show the same by a day show the same by that day. */
  lemma SameVisibleSameEffective(
      a: seq<WireSignal>, b: seq<WireSignal>, defaultHorizon: int, minConfidence: real, universe: set<Symbol>, day: int)
    requires multiset(Visible(a, day)) == multiset(Visible(b, day))
    requires Normalize(a, defaultHorizon, minConfidence, universe).Signals?
    requires Normalize(b, defaultHorizon, minConfidence, universe).Signals?
    ensures multiset(EffectiveBy(Normalize(a, defaultHorizon, minConfidence, universe).signals, day))
         == multiset(EffectiveBy(Normalize(b, defaultHorizon, minConfidence, universe).signals, day))
  {
    hide Collect, EffectiveBy, Visible;
    VisibleIsEffective(a, defaultHorizon, minConfidence, universe, day);
    VisibleIsEffective(b, defaultHorizon, minConfidence, universe, day);
    CollectForgetsOrder(Visible(a, day), Visible(b, day), defaultHorizon, minConfidence, universe);
    var ca := Collect(a, defaultHorizon, minConfidence, universe).signals;
    var cb := Collect(b, defaultHorizon, minConfidence, universe).signals;
    Sorting.SortKeepsElements(ca, SignalLe);
    Sorting.SortKeepsElements(cb, SignalLe);
    EffectiveForgetsOrder(Sorting.Sort(ca, SignalLe), ca, day);
    EffectiveForgetsOrder(Sorting.Sort(cb, SignalLe), cb, day);
  }

  /** A stored claim within the ranges extraction validates. */
  predicate ValidClaim(claim: StoredClaim) {
    && 0.0 <= claim.confidence <= 1.0
    && (claim.horizonDays.Some? ==> claim.horizonDays.value >= 1)
  }

  /** The engine never refuses a run over signals the projection built. */
  lemma ProjectedSignalsAreTaken(
      claims: seq<StoredClaim>, listed: seq<string>, cutoff: int,
      defaultHorizon: int, minConfidence: real, universe: set<Symbol>)
    requires (forall c :: c in claims ==> ValidClaim(c)) && defaultHorizon >= 1
    ensures Normalize(Projected(claims, listed, cutoff), defaultHorizon, minConfidence, universe).Signals?
  {
    hide Projected, SymbolsOf;
    var signals := Projected(claims, listed, cutoff);
    ProjectionIsExact(claims, listed, cutoff);
    forall w | w in signals ensures !Resolve(w, defaultHorizon, minConfidence, universe).Refused? {
      var k :| FirstToSpeak(claims, k, w.symbol, (set s | s in listed), cutoff) && w == SignalFor(claims[k], w.symbol);
      assert ValidClaim(claims[k]);
      SymbolsAreNamed(claims[k]);
    }
    NothingRefused(signals, defaultHorizon, minConfidence, universe);
  }

  lemma {:induction false} NothingRefused(
      raw: seq<WireSignal>, defaultHorizon: int, minConfidence: real, universe: set<Symbol>)
    requires forall w :: w in raw ==> !Resolve(w, defaultHorizon, minConfidence, universe).Refused?
    ensures Collect(raw, defaultHorizon, minConfidence, universe).Signals?
  {
    hide Resolve;
    if |raw| > 0 {
      assert raw[|raw| - 1] in raw;
      NothingRefused(raw[..|raw| - 1], defaultHorizon, minConfidence, universe);
    }
  }

  /** The same claims among those effective before second `end`. */
  ghost predicate SameBefore(claims: seq<StoredClaim>, others: seq<StoredClaim>, end: int) {
    forall c: StoredClaim :: c.effectiveAt < end ==> (c in claims <==> c in others)
  }

  /** Research that becomes effective later does not show in what the projection holds for an earlier time. */
  lemma LaterResearchIsInvisible(
      claims: seq<StoredClaim>, others: seq<StoredClaim>, universe: seq<string>, cutoff: int, end: int)
    requires DistinctIds(claims) && DistinctIds(others) && SameBefore(claims, others, end)
    ensures forall w: WireSignal :: w.effectiveAt.Some? && w.effectiveAt.value < end ==>
              multiset(Projected(claims, universe, cutoff))[w] == multiset(Projected(others, universe, cutoff))[w]
  {
    hide Projected, SymbolsOf;
    ProjectionHasNoTwins(claims, universe, cutoff);
    ProjectionHasNoTwins(others, universe, cutoff);
    forall w: WireSignal | w.effectiveAt.Some? && w.effectiveAt.value < end
      ensures multiset(Projected(claims, universe, cutoff))[w] == multiset(Projected(others, universe, cutoff))[w]
    {
      EarlierOnOneSide(claims, others, universe, cutoff, end, w);
      EarlierOnOneSide(others, claims, universe, cutoff, end, w);
    }
  }

  lemma EarlierOnOneSide(
      claims: seq<StoredClaim>, others: seq<StoredClaim>, universe: seq<string>, cutoff: int, end: int, w: WireSignal)
    requires DistinctIds(claims) && DistinctIds(others) && SameBefore(claims, others, end)
    requires w.effectiveAt.Some? && w.effectiveAt.value < end
    ensures w in Projected(claims, universe, cutoff) ==> w in Projected(others, universe, cutoff)
  {
    hide Projected, SymbolsOf;
    ProjectionIsTheCrossProduct(claims, universe, cutoff, w);
    ProjectionIsTheCrossProduct(others, universe, cutoff, w);
  }

  lemma ProjectionHasNoTwins(claims: seq<StoredClaim>, universe: seq<string>, cutoff: int)
    ensures var p := Projected(claims, universe, cutoff); forall w :: multiset(p)[w] == if w in p then 1 else 0
  {
    hide Projected;
    ProjectionIsExact(claims, universe, cutoff);
    WireOrder();
    Sorting.DistinctMultiset(Projected(claims, universe, cutoff));
  }
}
