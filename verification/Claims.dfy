/** Research claims as the engine sees them: resolved to live windows, grouped per day and netted. */
module Claims {
  import opened Ledger
  import opened Options
  import Reals
  import Sorting
  import Text

  /** A signal as it arrives; `effectiveAt` is in UTC seconds since 1970, `None` when it does not parse. */
  datatype WireSignal = WireSignal(
    claimId: string, symbol: string, direction: string, confidence: real,
    effectiveAt: Option<int>, horizonDays: Option<int>)

  /** One accepted claim with its signed confidence and its live window of day numbers, `expires` exclusive. */
  datatype ClaimSignal = ClaimSignal(claimId: string, symbol: Symbol, score: real, effective: int, expires: int)

  /** The part of a live claim that reaches a score or a candidate. */
  datatype Evidence = Evidence(claimId: string, contribution: real)

  datatype Resolution = Dropped | Kept(signal: ClaimSignal) | Refused(reason: string)

  const SECONDS_PER_DAY := 86400
  const EPOCH_DAY := 719163

  function DayOf(seconds: int): int {
    EPOCH_DAY + seconds / SECONDS_PER_DAY
  }

  function Resolve(item: WireSignal, defaultHorizon: int, minConfidence: real, universe: set<Symbol>): Resolution {
    if item.direction != "positive" && item.direction != "negative" then Dropped
    else
      var symbol := Text.Trim(item.symbol);
      if symbol == "" then Refused("claim signal is missing a symbol")
      else if symbol !in universe then Dropped
      else if !(0.0 <= item.confidence <= 1.0) then Refused("claim signal confidence must be in [0, 1]")
      else if item.confidence < minConfidence then Dropped
      else
        var horizon := if item.horizonDays.None? || item.horizonDays.value == 0 then defaultHorizon
                       else item.horizonDays.value;
        if horizon < 1 then Refused("claim signal horizon_days must be >= 1")
        else if item.effectiveAt.None? then Refused("invalid claim signal timestamp")
        else
          var score := if item.direction == "positive" then item.confidence else -item.confidence;
          var effective := DayOf(item.effectiveAt.value);
          Kept(ClaimSignal(item.claimId, symbol, score, effective, effective + horizon))
  }

  /** Days are counted in UTC from 1 January 1970, whole days before it included. */
  lemma DaysAreCountedFromTheEpoch(seconds: int)
    ensures DayOf(0) == 719163
    ensures DayOf(seconds + 86400) == DayOf(seconds) + 1
    ensures 0 <= seconds - (DayOf(seconds) - 719163) * 86400 < 86400
  {
  }

  /**
   * Which items are kept, with what window and sign: directed, tradable after trimming, with a confidence in [0, 1]
   * that reaches the floor, a horizon of at least a day (its own, or the default when it has none), and a timestamp.
   */
  lemma KeptItems(item: WireSignal, defaultHorizon: int, minConfidence: real, universe: set<Symbol>)
    ensures var own := item.horizonDays.Some? && item.horizonDays.value != 0;
            var horizon := if own then item.horizonDays.value else defaultHorizon;
            var symbol := Text.Trim(item.symbol);
            var resolved := Resolve(item, defaultHorizon, minConfidence, universe);
            && (resolved.Kept? <==>
                  && (item.direction == "positive" || item.direction == "negative")
                  && symbol != "" && symbol in universe
                  && 0.0 <= item.confidence <= 1.0 && minConfidence <= item.confidence
                  && horizon >= 1 && item.effectiveAt.Some?)
            && (resolved.Kept? ==>
                  && resolved.signal.claimId == item.claimId && resolved.signal.symbol == symbol
                  && resolved.signal.effective == DayOf(item.effectiveAt.value)
                  && resolved.signal.expires == resolved.signal.effective + horizon
                  && resolved.signal.score
                       == if item.direction == "positive" then item.confidence else -item.confidence)
  {
    hide Text.Trim, DayOf;
  }

  /** Which items refuse the run: directed ones without a symbol, and tradable ones with a confidence out of range, or
      that reach the floor with an invalid horizon or timestamp. Everything else that is not kept is dropped. */
  lemma RefusedItems(item: WireSignal, defaultHorizon: int, minConfidence: real, universe: set<Symbol>)
    ensures var own := item.horizonDays.Some? && item.horizonDays.value != 0;
            var horizon := if own then item.horizonDays.value else defaultHorizon;
            var symbol := Text.Trim(item.symbol);
            Resolve(item, defaultHorizon, minConfidence, universe).Refused? <==>
              && (item.direction == "positive" || item.direction == "negative")
              && (symbol == ""
                  || (symbol in universe
                      && (item.confidence < 0.0 || item.confidence > 1.0
                          || (item.confidence >= minConfidence && (horizon < 1 || item.effectiveAt.None?)))))
  {
    hide Text.Trim, DayOf;
  }

  datatype Normalized = Signals(signals: seq<ClaimSignal>) | Rejected(reason: string)

  /** Everything the wire list resolves to before sorting; the first refused item rejects the run. */
  function Collect(raw: seq<WireSignal>, defaultHorizon: int, minConfidence: real, universe: set<Symbol>): Normalized {
    if |raw| == 0 then Signals([])
    else
      var before := Collect(raw[..|raw| - 1], defaultHorizon, minConfidence, universe);
      if before.Rejected? then before
      else
        match Resolve(raw[|raw| - 1], defaultHorizon, minConfidence, universe)
        case Dropped => before
        case Kept(signal) => Signals(before.signals + [signal])
        case Refused(reason) => Rejected(reason)
  }

  // The total sort key

  datatype SignalKey = SignalKey(symbol: Symbol, effective: int, claimId: string, score: real)

  function KeyOf(s: ClaimSignal): SignalKey {
    SignalKey(s.symbol, s.effective, s.claimId, s.score)
  }

  predicate KeyLe(a: SignalKey, b: SignalKey) {
    if a.symbol != b.symbol then Text.Less(a.symbol, b.symbol)
    else if a.effective != b.effective then a.effective < b.effective
    else if a.claimId != b.claimId then Text.Less(a.claimId, b.claimId)
    else a.score <= b.score
  }

  predicate SignalLe(a: ClaimSignal, b: ClaimSignal) {
    KeyLe(KeyOf(a), KeyOf(b))
  }

  lemma KeyLeIsATotalOrder()
    ensures Sorting.TotalPreorder(KeyLe) && Sorting.Antisymmetric(KeyLe)
    ensures Sorting.TotalPreorder(SignalLe)
  {
    Text.LessIsStrictTotalOrder();
  }

  function Normalize(raw: seq<WireSignal>, defaultHorizon: int, minConfidence: real,
      universe: set<Symbol>): Normalized {
    var collected := Collect(raw, defaultHorizon, minConfidence, universe);
    if collected.Rejected? then collected else Signals(Sorting.Sort(collected.signals, SignalLe))
  }

  /** Normalised signals are listed by symbol, then effective day, then claim, then score. */
  lemma NormalizedIsListedInOrder(
      raw: seq<WireSignal>, defaultHorizon: int, minConfidence: real, universe: set<Symbol>, i: nat, j: nat)
    requires Normalize(raw, defaultHorizon, minConfidence, universe).Signals?
    requires i < j < |Normalize(raw, defaultHorizon, minConfidence, universe).signals|
    ensures var a := Normalize(raw, defaultHorizon, minConfidence, universe).signals[i];
            var b := Normalize(raw, defaultHorizon, minConfidence, universe).signals[j];
            || Text.Less(a.symbol, b.symbol)
            || (a.symbol == b.symbol
                && (|| a.effective < b.effective
                    || (a.effective == b.effective
                        && (Text.Less(a.claimId, b.claimId) || (a.claimId == b.claimId && a.score <= b.score)))))
  {
    KeyLeIsATotalOrder();
    Sorting.SortIsSorted(Collect(raw, defaultHorizon, minConfidence, universe).signals, SignalLe);
    hide Collect, Text.Less;
    var signals := Normalize(raw, defaultHorizon, minConfidence, universe).signals;
    assert SignalLe(signals[i], signals[j]);
  }

  method NormalizeSignals(raw: seq<WireSignal>, defaultHorizon: int, minConfidence: real, universe: seq<Symbol>)
    returns (r: Normalized)
    ensures r == Normalize(raw, defaultHorizon, minConfidence, set s | s in universe)
  {
    var tradable := set s | s in universe;
    var signals: seq<ClaimSignal> := [];
    for i := 0 to |raw|
      invariant Collect(raw[..i], defaultHorizon, minConfidence, tradable) == Signals(signals)
    {
      assert raw[..i + 1][..i] == raw[..i];
      match Resolve(raw[i], defaultHorizon, minConfidence, tradable) {
        case Dropped =>
        case Kept(signal) => signals := signals + [signal];
        case Refused(reason) =>
          RejectionStands(raw, i + 1, defaultHorizon, minConfidence, tradable);
          return Rejected(reason);
      }
    }
    assert raw[..|raw|] == raw;
    r := Signals(Sorting.Sort(signals, SignalLe));
  }

  lemma {:induction false} RejectionStands(
      raw: seq<WireSignal>, n: nat, defaultHorizon: int, minConfidence: real, universe: set<Symbol>)
    requires n <= |raw| && Collect(raw[..n], defaultHorizon, minConfidence, universe).Rejected?
    ensures Collect(raw, defaultHorizon, minConfidence, universe)
         == Collect(raw[..n], defaultHorizon, minConfidence, universe)
    decreases |raw|
  {
    if n == |raw| {
      assert raw[..n] == raw;
    } else {
      assert raw[..|raw| - 1][..n] == raw[..n];
      RejectionStands(raw[..|raw| - 1], n, defaultHorizon, minConfidence, universe);
    }
  }

  // Live claims

  predicate Live(s: ClaimSignal, day: int) {
    s.effective <= day < s.expires
  }

  function LiveFor(signals: seq<ClaimSignal>, day: int, symbol: Symbol): seq<ClaimSignal> {
    if |signals| == 0 then []
    else
      var before, last := LiveFor(signals[..|signals| - 1], day, symbol), signals[|signals| - 1];
      if Live(last, day) && last.symbol == symbol then before + [last] else before
  }

  /** A symbol's live claims are exactly its signals whose window holds the day. */
  lemma {:induction false} LiveForIsExact(signals: seq<ClaimSignal>, day: int, symbol: Symbol)
    ensures forall s :: s in LiveFor(signals, day, symbol) <==>
              s in signals && s.symbol == symbol && s.effective <= day < s.expires
  {
    if |signals| > 0 {
      LiveForIsExact(signals[..|signals| - 1], day, symbol);
      assert forall s :: s in signals <==> s in signals[..|signals| - 1] || s == signals[|signals| - 1];
    }
  }

  function EvidenceOf(signals: seq<ClaimSignal>): (evidence: seq<Evidence>)
    ensures |evidence| == |signals|
  {
    seq(|signals|, i requires 0 <= i < |signals| => Evidence(signals[i].claimId, signals[i].score))
  }

  /** A symbol's live claims on a day, in the engine's sorted order. */
  function Active(signals: seq<ClaimSignal>, day: int, symbol: Symbol): seq<Evidence> {
    EvidenceOf(LiveFor(signals, day, symbol))
  }

  function ActiveGroups(signals: seq<ClaimSignal>, day: int): map<Symbol, seq<Evidence>> {
    map s | s in (set x | x in signals :: x.symbol) && Active(signals, day, s) != [] :: Active(signals, day, s)
  }

  lemma {:induction false} LiveForHasSymbol(signals: seq<ClaimSignal>, day: int, symbol: Symbol)
    ensures LiveFor(signals, day, symbol) != [] ==> exists x :: x in signals && x.symbol == symbol
  {
    if |signals| > 0 {
      LiveForHasSymbol(signals[..|signals| - 1], day, symbol);
      assert signals[|signals| - 1] in signals;
      assert forall x :: x in signals[..|signals| - 1] ==> x in signals;
    }
  }

  /** The groups hold exactly the symbols with something live, each with its own claims in order. */
  lemma GroupsAreActive(signals: seq<ClaimSignal>, day: int, symbol: Symbol)
    ensures symbol in ActiveGroups(signals, day) <==> Active(signals, day, symbol) != []
    ensures symbol in ActiveGroups(signals, day) ==> ActiveGroups(signals, day)[symbol] == Active(signals, day, symbol)
  {
    LiveForHasSymbol(signals, day, symbol);
  }

  /** What one signal adds to its symbol's live claims. */
  function IfLive(signal: ClaimSignal, day: int): seq<Evidence> {
    if signal.effective <= day < signal.expires then [Evidence(signal.claimId, signal.score)] else []
  }

  lemma ActiveStep(signals: seq<ClaimSignal>, i: nat, day: int, symbol: Symbol)
    requires i < |signals|
    ensures Active(signals[..i + 1], day, symbol)
         == Active(signals[..i], day, symbol) + (if signals[i].symbol == symbol then IfLive(signals[i], day) else [])
  {
    assert signals[..i + 1][..i] == signals[..i];
  }

  method ActiveClaims(signals: seq<ClaimSignal>, day: int) returns (active: map<Symbol, seq<Evidence>>)
    ensures active == ActiveGroups(signals, day)
  {
    active := map[];
    for i := 0 to |signals|
      invariant forall s :: s in active <==> Active(signals[..i], day, s) != []
      invariant forall s :: s in active ==> active[s] == Active(signals[..i], day, s)
    {
      var signal := signals[i];
      forall s ensures Active(signals[..i + 1], day, s)
                    == Active(signals[..i], day, s) + (if signal.symbol == s then IfLive(signal, day) else [])
      {
        ActiveStep(signals, i, day, s);
      }
      if signal.effective <= day < signal.expires {
        var group := if signal.symbol in active then active[signal.symbol] else [];
        active := active[signal.symbol := group + [Evidence(signal.claimId, signal.score)]];
      }
    }
    assert signals[..|signals|] == signals;
    forall s ensures s in active <==> s in ActiveGroups(signals, day)
             ensures s in active ==> active[s] == ActiveGroups(signals, day)[s]
    {
      GroupsAreActive(signals, day, s);
    }
    hide Active, ActiveGroups;
  }

  function Clamp(x: real): real {
    Reals.Max(-1.0, Reals.Min(1.0, x))
  }

  function Net(evidence: seq<Evidence>): real {
    if |evidence| == 0 then 0.0 else Net(evidence[..|evidence| - 1]) + evidence[|evidence| - 1].contribution
  }

  function ClaimScores(active: map<Symbol, seq<Evidence>>): map<Symbol, real> {
    map s | s in active :: Clamp(Net(active[s]))
  }

  /** The support a selection reads for a symbol. */
  function SupportOf(scores: map<Symbol, real>, symbol: Symbol): real {
    if symbol in scores then scores[symbol] else 0.0
  }

  /** A symbol's support is the clamped sum of its own live claims, zero when it has none. */
  lemma SupportIsClampedNet(signals: seq<ClaimSignal>, day: int, symbol: Symbol)
    ensures SupportOf(ClaimScores(ActiveGroups(signals, day)), symbol) == Clamp(Net(Active(signals, day, symbol)))
    ensures -1.0 <= SupportOf(ClaimScores(ActiveGroups(signals, day)), symbol) <= 1.0
  {
    GroupsAreActive(signals, day, symbol);
  }

  // What a day can see

  /** The signals a day at or before `day` could possibly read. */
  function EffectiveBy(signals: seq<ClaimSignal>, day: int): seq<ClaimSignal> {
    if |signals| == 0 then []
    else
      var before, last := EffectiveBy(signals[..|signals| - 1], day), signals[|signals| - 1];
      if last.effective <= day then before + [last] else before
  }

  lemma {:induction false} LiveSeesOnlyEffective(signals: seq<ClaimSignal>, day: int, cut: int, symbol: Symbol)
    requires day <= cut
    ensures LiveFor(EffectiveBy(signals, cut), day, symbol) == LiveFor(signals, day, symbol)
  {
    if |signals| > 0 {
      var front, last := signals[..|signals| - 1], signals[|signals| - 1];
      LiveSeesOnlyEffective(front, day, cut, symbol);
      if last.effective <= cut {
        assert (EffectiveBy(front, cut) + [last])[..|EffectiveBy(front, cut)|] == EffectiveBy(front, cut);
      }
    }
  }

  lemma {:induction false} LiveConcat(a: seq<ClaimSignal>, b: seq<ClaimSignal>, day: int, symbol: Symbol)
    ensures LiveFor(a + b, day, symbol) == LiveFor(a, day, symbol) + LiveFor(b, day, symbol)
  {
    if |b| == 0 {
      assert a + b == a;
    } else {
      assert (a + b)[..|a + b| - 1] == a + b[..|b| - 1];
      LiveConcat(a, b[..|b| - 1], day, symbol);
    }
  }

  lemma LiveWithout(signals: seq<ClaimSignal>, k: nat, day: int, symbol: Symbol)
    requires k < |signals|
    ensures multiset(LiveFor(signals, day, symbol))
         == multiset(LiveFor(Sorting.Without(signals, k), day, symbol))
            + (if Live(signals[k], day) && signals[k].symbol == symbol then multiset{signals[k]} else multiset{})
  {
    assert signals == signals[..k] + ([signals[k]] + signals[k + 1..]);
    LiveConcat(signals[..k], [signals[k]] + signals[k + 1..], day, symbol);
    LiveConcat([signals[k]], signals[k + 1..], day, symbol);
    LiveConcat(signals[..k], signals[k + 1..], day, symbol);
    assert LiveFor([signals[k]], day, symbol)
        == if Live(signals[k], day) && signals[k].symbol == symbol then [signals[k]] else [];
  }

  lemma {:induction false} LiveForgetsOrder(a: seq<ClaimSignal>, b: seq<ClaimSignal>, day: int, symbol: Symbol)
    requires multiset(a) == multiset(b)
    ensures multiset(LiveFor(a, day, symbol)) == multiset(LiveFor(b, day, symbol))
  {
    Sorting.SameMembers(a, b);
    if |a| > 0 {
      assert a[0] in b;
      var k :| 0 <= k < |b| && b[k] == a[0];
      Sorting.WithoutDropsOne(a, 0);
      Sorting.WithoutDropsOne(b, k);
      LiveForgetsOrder(Sorting.Without(a, 0), Sorting.Without(b, k), day, symbol);
      LiveWithout(a, 0, day, symbol);
      LiveWithout(b, k, day, symbol);
    }
  }

  lemma {:induction false} LiveKeepsSorted(signals: seq<ClaimSignal>, day: int, symbol: Symbol)
    requires Sorting.Sorted(signals, SignalLe)
    ensures Sorting.Sorted(LiveFor(signals, day, symbol), SignalLe)
    ensures forall x :: x in LiveFor(signals, day, symbol) ==> x in signals
  {
    if |signals| > 0 {
      var front, last := signals[..|signals| - 1], signals[|signals| - 1];
      LiveKeepsSorted(front, day, symbol);
      forall x | x in LiveFor(front, day, symbol) ensures SignalLe(x, last) {
        var k :| 0 <= k < |front| && front[k] == x;
        assert signals[k] == x;
      }
    }
  }

  function Keys(signals: seq<ClaimSignal>): (keys: seq<SignalKey>)
    ensures |keys| == |signals|
  {
    seq(|signals|, i requires 0 <= i < |signals| => KeyOf(signals[i]))
  }

  lemma {:induction false} KeysForgetOrder(a: seq<ClaimSignal>, b: seq<ClaimSignal>)
    requires multiset(a) == multiset(b)
    ensures multiset(Keys(a)) == multiset(Keys(b))
  {
    hide Keys;
    Sorting.SameMembers(a, b);
    if |a| == 0 {
      assert a == b;
    } else {
      assert a[0] in b;
      var k :| 0 <= k < |b| && b[k] == a[0];
      Sorting.WithoutDropsOne(a, 0);
      Sorting.WithoutDropsOne(b, k);
      KeysForgetOrder(Sorting.Without(a, 0), Sorting.Without(b, k));
      KeysWithout(a, 0);
      KeysWithout(b, k);
    }
  }

  lemma KeysWithout(a: seq<ClaimSignal>, k: nat)
    requires k < |a|
    ensures multiset(Keys(a)) == multiset(Keys(Sorting.Without(a, k))) + multiset{KeyOf(a[k])}
  {
    var left, right := a[..k], a[k + 1..];
    assert Keys(Sorting.Without(a, k)) == Keys(left) + Keys(right);
    assert Keys(a) == Keys(left) + [KeyOf(a[k])] + Keys(right);
  }

  /** Sorted lists that agree, as collections, on what was effective by `cut` show every earlier day the same
      claims in the same order, even where two entries differ only in how long they stay live. */
  lemma SameEffectiveSameActive(a: seq<ClaimSignal>, b: seq<ClaimSignal>, cut: int, day: int, symbol: Symbol)
    requires Sorting.Sorted(a, SignalLe) && Sorting.Sorted(b, SignalLe)
    requires multiset(EffectiveBy(a, cut)) == multiset(EffectiveBy(b, cut)) && day <= cut
    ensures Active(a, day, symbol) == Active(b, day, symbol)
  {
    var la, lb := LiveFor(a, day, symbol), LiveFor(b, day, symbol);
    LiveSeesOnlyEffective(a, day, cut, symbol);
    LiveSeesOnlyEffective(b, day, cut, symbol);
    LiveForgetsOrder(EffectiveBy(a, cut), EffectiveBy(b, cut), day, symbol);
    LiveKeepsSorted(a, day, symbol);
    LiveKeepsSorted(b, day, symbol);
    KeysForgetOrder(la, lb);
    KeyLeIsATotalOrder();
    KeysSorted(la);
    KeysSorted(lb);
    Sorting.SortedIsUnique(Keys(la), Keys(lb), KeyLe);
    forall i | 0 <= i < |la| ensures EvidenceOf(la)[i] == EvidenceOf(lb)[i] {
      assert Keys(la)[i] == Keys(lb)[i];
    }
  }

  lemma KeysSorted(signals: seq<ClaimSignal>)
    requires Sorting.Sorted(signals, SignalLe)
    ensures Sorting.Sorted(Keys(signals), KeyLe)
  {
    forall i, j | 0 <= i < j < |signals| ensures KeyLe(Keys(signals)[i], Keys(signals)[j]) {
      assert SignalLe(signals[i], signals[j]);
    }
  }
}
