/** Which research claims become trading signals: the projection of claims onto the strategy's universe. */
module SignalProjection {
  import opened Claims
  import opened Options
  import Sorting
  import Text

  /** A persisted claim; `effectiveAt` is in UTC seconds since 1970. */
  datatype StoredClaim = StoredClaim(
    id: string, ticker: Option<string>, direction: string, text: string, evidenceQuote: string,
    horizonDays: Option<int>, confidence: real, effectiveAt: int, validationStatus: string)

  /** A recurring research theme with the words that reveal it and its long-only proxies. */
  datatype Theme = Theme(name: string, keywords: seq<string>, symbols: seq<string>)

  const MACRO_THEMES: seq<Theme> := [
    Theme("rates", ["rate", "treasur", "yield", "duration", "fed", "bond"], ["IEF", "TLT"]),
    Theme("oil", ["oil", "crude", "opec", "brent", "wti", "energy"], ["USO", "XLE"]),
    Theme("dollar", ["dollar", "currency", "fx", "euro", "yen"], ["UUP"]),
    Theme("credit", ["credit", "spread", "high yield", "investment grade", "hybrid"], ["LQD", "HYG"]),
    Theme("equities", ["equit", "stock", "s&p", "earnings"], ["SPY"])
  ]

  // Themes

  function LowerChar(c: char): char {
    if 'A' <= c <= 'Z' then c + ('a' - 'A') else c
  }

  function Lower(s: string): (lower: string)
    ensures |lower| == |s|
  {
    seq(|s|, i requires 0 <= i < |s| => LowerChar(s[i]))
  }

  predicate ReadsAt(s: string, word: string, i: nat) {
    i + |word| <= |s| && s[i..i + |word|] == word
  }

  predicate Contains(s: string, word: string) {
    exists i: nat | i <= |s| :: ReadsAt(s, word, i)
  }

  predicate Mentions(text: string, theme: Theme) {
    exists word | word in theme.keywords :: Contains(text, word)
  }

  function Mentioned(text: string, themes: seq<Theme>): (matched: seq<Theme>)
    ensures forall theme :: theme in matched <==> theme in themes && Mentions(text, theme)
  {
    if |themes| == 0 then []
    else
      var before, last := Mentioned(text, themes[..|themes| - 1]), themes[|themes| - 1];
      if Mentions(text, last) then before + [last] else before
  }

  /** `a` comes before `b` in the table. */
  ghost predicate Precedes(themes: seq<Theme>, a: Theme, b: Theme) {
    exists i, j :: 0 <= i < j < |themes| && themes[i] == a && themes[j] == b
  }

  ghost predicate InTableOrder(themes: seq<Theme>, listed: seq<Theme>) {
    forall i, j :: 0 <= i < j < |listed| ==> Precedes(themes, listed[i], listed[j])
  }

  lemma PrecedesWithin(front: seq<Theme>, last: Theme, a: Theme, b: Theme)
    requires Precedes(front, a, b) || (a in front && b == last)
    ensures Precedes(front + [last], a, b)
  {
    var themes := front + [last];
    if Precedes(front, a, b) {
      var i, j :| 0 <= i < j < |front| && front[i] == a && front[j] == b;
      assert themes[i] == a && themes[j] == b;
    } else {
      var i :| 0 <= i < |front| && front[i] == a;
      assert themes[i] == a && themes[|front|] == b;
    }
  }

  lemma OneMoreInOrder(front: seq<Theme>, last: Theme, listed: seq<Theme>)
    requires InTableOrder(front, listed) && forall theme :: theme in listed ==> theme in front
    ensures InTableOrder(front + [last], listed) && InTableOrder(front + [last], listed + [last])
  {
    hide Precedes;
    var longer := listed + [last];
    forall i, j | 0 <= i < j < |longer| ensures Precedes(front + [last], longer[i], longer[j]) {
      assert listed[i] in listed;
      assert j < |listed| ==> Precedes(front, listed[i], listed[j]);
      PrecedesWithin(front, last, longer[i], longer[j]);
    }
    forall i, j | 0 <= i < j < |listed| ensures Precedes(front + [last], listed[i], listed[j]) {
      assert longer[i] == listed[i] && longer[j] == listed[j];
    }
  }

  /** Mentioned themes keep the order of the table, one for one. */
  lemma {:induction false} MentionedKeepTableOrder(text: string, themes: seq<Theme>)
    ensures InTableOrder(themes, Mentioned(text, themes))
  {
    hide Mentions, InTableOrder;
    if |themes| == 0 {
      NothingListed(themes);
    } else {
      var front, last := themes[..|themes| - 1], themes[|themes| - 1];
      MentionedKeepTableOrder(text, front);
      OneMoreInOrder(front, last, Mentioned(text, front));
      assert themes == front + [last];
    }
  }

  lemma NothingListed(themes: seq<Theme>)
    ensures InTableOrder(themes, [])
  {
  }

  lemma TableListsEachThemeOnce(i: nat, j: nat)
    requires i < j < |MACRO_THEMES|
    ensures MACRO_THEMES[i].name != MACRO_THEMES[j].name
  {
    assert i in {0, 1, 2, 3} && j in {1, 2, 3, 4};
  }

  function TextOf(claim: StoredClaim): string {
    Lower(claim.text + " " + claim.evidenceQuote)
  }

  method ClaimThemes(claim: StoredClaim) returns (matched: seq<Theme>)
    ensures matched == Mentioned(TextOf(claim), MACRO_THEMES)
    ensures forall theme :: theme in matched <==> theme in MACRO_THEMES && Raises(claim, theme)
    ensures InTableOrder(MACRO_THEMES, matched) && NamesDiffer(matched)
  {
    hide Contains, InTableOrder, NamesDiffer;
    var lower := Lower(claim.text + " " + claim.evidenceQuote);
    matched := [];
    for t := 0 to |MACRO_THEMES|
      invariant matched == Mentioned(lower, MACRO_THEMES[..t])
    {
      var theme := MACRO_THEMES[t];
      assert MACRO_THEMES[..t + 1][..t] == MACRO_THEMES[..t];
      var found := false;
      for w := 0 to |theme.keywords|
        invariant !found && forall v :: 0 <= v < w ==> !Contains(lower, theme.keywords[v])
      {
        if Contains(lower, theme.keywords[w]) {
          found := true;
          break;
        }
      }
      assert found <==> Mentions(lower, theme);
      if found {
        matched := matched + [theme];
      }
    }
    assert MACRO_THEMES[..|MACRO_THEMES|] == MACRO_THEMES;
    RaisedInTableOrder(claim);
  }

  ghost predicate NamesDiffer(listed: seq<Theme>) {
    forall i, j :: 0 <= i < j < |listed| ==> listed[i].name != listed[j].name
  }

  lemma OrderedNamesDiffer(listed: seq<Theme>)
    requires InTableOrder(MACRO_THEMES, listed)
    ensures NamesDiffer(listed)
  {
    hide Precedes;
    forall i, j | 0 <= i < j < |listed| ensures listed[i].name != listed[j].name {
      PrecedingNameDiffers(listed[i], listed[j]);
    }
  }

  lemma PrecedingNameDiffers(a: Theme, b: Theme)
    requires Precedes(MACRO_THEMES, a, b)
    ensures a.name != b.name
  {
    var i, j :| 0 <= i < j < |MACRO_THEMES| && MACRO_THEMES[i] == a && MACRO_THEMES[j] == b;
    TableListsEachThemeOnce(i, j);
  }

  lemma RaisedInTableOrder(claim: StoredClaim)
    ensures var matched := Mentioned(TextOf(claim), MACRO_THEMES);
            && (forall theme :: theme in matched <==> theme in MACRO_THEMES && Raises(claim, theme))
            && InTableOrder(MACRO_THEMES, matched) && NamesDiffer(matched)
  {
    hide Mentions, Raises, TextOf, InTableOrder, NamesDiffer;
    forall theme ensures Mentions(TextOf(claim), theme) <==> Raises(claim, theme) {
      MentionsWhatIsRaised(claim, theme);
    }
    MentionedKeepTableOrder(TextOf(claim), MACRO_THEMES);
    OrderedNamesDiffer(Mentioned(TextOf(claim), MACRO_THEMES));
  }

  // Symbols

  function Proxies(themes: seq<Theme>): (symbols: seq<string>)
    ensures forall s :: s in symbols <==> exists theme :: theme in themes && s in theme.symbols
  {
    if |themes| == 0 then []
    else
      var last := themes[|themes| - 1];
      assert forall theme :: theme in themes <==> theme in themes[..|themes| - 1] || theme == last;
      Proxies(themes[..|themes| - 1]) + last.symbols
  }

  predicate NamesATicker(claim: StoredClaim) {
    claim.ticker.Some? && Text.Trim(claim.ticker.value) != ""
  }

  /** A claim's ticker when it names one, otherwise the proxies of the themes its text mentions. */
  function SymbolsOf(claim: StoredClaim): seq<string> {
    if NamesATicker(claim) then [Text.Trim(claim.ticker.value)]
    else Proxies(Mentioned(TextOf(claim), MACRO_THEMES))
  }

  method ClaimSymbols(claim: StoredClaim) returns (symbols: seq<string>)
    ensures symbols == SymbolsOf(claim)
  {
    if claim.ticker.Some? && Text.Trim(claim.ticker.value) != "" {
      return [Text.Trim(claim.ticker.value)];
    }
    symbols := [];
    var themes := ClaimThemes(claim);
    for t := 0 to |themes|
      invariant symbols == Proxies(themes[..t])
    {
      assert themes[..t + 1][..t] == themes[..t];
      symbols := symbols + themes[t].symbols;
    }
    assert themes[..|themes|] == themes;
  }

  lemma ThemesNameTheirProxies()
    ensures forall theme, s :: theme in MACRO_THEMES && s in theme.symbols ==> Text.StartsInInk(s)
  {
    forall theme, s | theme in MACRO_THEMES && s in theme.symbols ensures Text.StartsInInk(s) {
      var k :| 0 <= k < |MACRO_THEMES| && MACRO_THEMES[k] == theme;
      assert k in {0, 1, 2, 3, 4};
    }
  }

  /** A claim never speaks to a blank symbol. */
  lemma SymbolsAreNamed(claim: StoredClaim)
    ensures forall s :: s in SymbolsOf(claim) ==> Text.StartsInInk(s) && Text.Trim(s) != ""
  {
    hide Mentions;
    ThemesNameTheirProxies();
    if NamesATicker(claim) {
      Text.TrimFindsInk(claim.ticker.value);
    }
    hide SymbolsOf;
    forall s | s in SymbolsOf(claim) ensures Text.StartsInInk(s) && Text.Trim(s) != "" {
      Text.TrimFindsInk(s);
    }
  }

  /** The word stands at that place of the text, letter case of the text aside. */
  ghost predicate SaysAt(raw: string, word: string, i: nat) {
    && i + |word| <= |raw|
    && forall k {:trigger word[k]} :: 0 <= k < |word| ==>
         word[k] == if 'A' <= raw[i + k] <= 'Z' then raw[i + k] + 32 as char else raw[i + k]
  }

  lemma ReadsWhatIsSaid(raw: string, word: string, i: nat)
    ensures ReadsAt(Lower(raw), word, i) <==> SaysAt(raw, word, i)
  {
    if i + |word| <= |raw| {
      var found := Lower(raw)[i..i + |word|];
      forall k | 0 <= k < |word| ensures found[k] == LowerChar(raw[i + k]) {
        assert found[k] == Lower(raw)[i + k];
      }
      assert SaysAt(raw, word, i) ==> found == word;
    }
  }

  /** A theme of which the text or the quote says some keyword. */
  ghost predicate Raises(claim: StoredClaim, theme: Theme) {
    exists word, i: nat :: word in theme.keywords && SaysAt(claim.text + " " + claim.evidenceQuote, word, i)
  }

  lemma MentionsWhatIsRaised(claim: StoredClaim, theme: Theme)
    ensures Mentions(TextOf(claim), theme) <==> Raises(claim, theme)
  {
    var raw := claim.text + " " + claim.evidenceQuote;
    forall word, i: nat ensures ReadsAt(Lower(raw), word, i) <==> SaysAt(raw, word, i) {
      ReadsWhatIsSaid(raw, word, i);
    }
    hide ReadsAt, SaysAt, Lower;
    if Mentions(TextOf(claim), theme) {
      var word :| word in theme.keywords && Contains(TextOf(claim), word);
      var i: nat :| i <= |TextOf(claim)| && ReadsAt(TextOf(claim), word, i);
      assert SaysAt(raw, word, i);
    }
    if Raises(claim, theme) {
      var word, i: nat :| word in theme.keywords && SaysAt(raw, word, i);
      assert ReadsAt(Lower(raw), word, i);
      ReadsWithin(Lower(raw), word, i);
      assert Contains(TextOf(claim), word);
    }
  }

  lemma ReadsWithin(s: string, word: string, i: nat)
    requires ReadsAt(s, word, i)
    ensures i <= |s|
  {
  }

  /** A claim speaks to its own trimmed ticker, and only without one to the proxies of the themes it raises. */
  lemma SymbolsAreExact(claim: StoredClaim, symbol: string)
    ensures var ticker := if claim.ticker.Some? then Text.Trim(claim.ticker.value) else "";
            symbol in SymbolsOf(claim) <==>
              if ticker != "" then symbol == ticker
              else exists theme :: theme in MACRO_THEMES && symbol in theme.symbols && Raises(claim, theme)
  {
    forall theme ensures Mentions(TextOf(claim), theme) <==> Raises(claim, theme) {
      MentionsWhatIsRaised(claim, theme);
    }
    hide Mentions, Raises, TextOf, Text.Trim, MACRO_THEMES;
  }

  // Projection

  /** Accepted by a human, with a direction, and readable by the cutoff. */
  predicate Passes(claim: StoredClaim, cutoff: int) {
    claim.validationStatus == "accepted" && claim.direction != "neutral" && claim.effectiveAt <= cutoff
  }

  /** The claim should reach the engine as a signal on this symbol. */
  predicate Speaks(claim: StoredClaim, symbol: string, tradable: set<string>, cutoff: int) {
    Passes(claim, cutoff) && symbol in SymbolsOf(claim) && symbol in tradable
  }

  function SignalFor(claim: StoredClaim, symbol: string): WireSignal {
    WireSignal(claim.id, symbol, claim.direction, claim.confidence, Some(claim.effectiveAt), claim.horizonDays)
  }

  predicate Seen(signals: seq<WireSignal>, id: string, symbol: string) {
    exists w | w in signals :: w.claimId == id && w.symbol == symbol
  }

  /** What one claim adds to the signals gathered before it. */
  function Emit(claim: StoredClaim, symbols: seq<string>, tradable: set<string>,
      before: seq<WireSignal>): seq<WireSignal> {
    if |symbols| == 0 then before
    else
      var now, symbol := Emit(claim, symbols[..|symbols| - 1], tradable, before), symbols[|symbols| - 1];
      if symbol in tradable && !Seen(now, claim.id, symbol) then now + [SignalFor(claim, symbol)] else now
  }

  function Gathered(claims: seq<StoredClaim>, tradable: set<string>, cutoff: int): seq<WireSignal> {
    if |claims| == 0 then []
    else
      var before, claim := Gathered(claims[..|claims| - 1], tradable, cutoff), claims[|claims| - 1];
      if Passes(claim, cutoff) then Emit(claim, SymbolsOf(claim), tradable, before) else before
  }

  /** By symbol, then effective time, then claim. */
  predicate WireLess(a: WireSignal, b: WireSignal) {
    if a.symbol != b.symbol then Text.Less(a.symbol, b.symbol)
    else if a.effectiveAt != b.effectiveAt then
      a.effectiveAt.None? || (b.effectiveAt.Some? && a.effectiveAt.value < b.effectiveAt.value)
    else Text.Less(a.claimId, b.claimId)
  }

  predicate WireLe(a: WireSignal, b: WireSignal) {
    !WireLess(b, a)
  }

  function Projected(claims: seq<StoredClaim>, universe: seq<string>, cutoff: int): seq<WireSignal> {
    Sorting.Sort(Gathered(claims, (set s | s in universe), cutoff), WireLe)
  }

  method BuildSignals(claims: seq<StoredClaim>, universe: seq<string>, cutoff: int) returns (signals: seq<WireSignal>)
    ensures signals == Projected(claims, universe, cutoff)
  {
    var tradable := set s | s in universe;
    signals := [];
    var seen: set<(string, string)> := {};
    for c := 0 to |claims|
      invariant signals == Gathered(claims[..c], tradable, cutoff)
      invariant forall id, symbol :: (id, symbol) in seen <==> Seen(signals, id, symbol)
    {
      var claim := claims[c];
      assert claims[..c + 1][..c] == claims[..c];
      if claim.validationStatus != "accepted" || claim.direction == "neutral" {
        continue;
      }
      if claim.effectiveAt > cutoff {
        continue;
      }
      var symbols := ClaimSymbols(claim);
      ghost var before := signals;
      for s := 0 to |symbols|
        invariant signals == Emit(claim, symbols[..s], tradable, before)
        invariant forall id, symbol :: (id, symbol) in seen <==> Seen(signals, id, symbol)
      {
        assert symbols[..s + 1][..s] == symbols[..s];
        if symbols[s] !in tradable {
          continue;
        }
        var key := (claim.id, symbols[s]);
        if key in seen {
          continue;
        }
        seen := seen + {key};
        signals := signals + [SignalFor(claim, symbols[s])];
      }
      assert symbols[..|symbols|] == symbols;
    }
    assert claims[..|claims|] == claims;
    signals := Sorting.Sort(signals, WireLe);
  }

  // What the projection contains

  lemma {:induction false} EmitAdds(claim: StoredClaim, symbols: seq<string>, tradable: set<string>,
      before: seq<WireSignal>)
    ensures forall w :: w in Emit(claim, symbols, tradable, before) <==>
              w in before
              || (w.symbol in symbols && w.symbol in tradable && !Seen(before, claim.id, w.symbol)
                  && w == SignalFor(claim, w.symbol))
  {
    if |symbols| > 0 {
      var front, symbol := symbols[..|symbols| - 1], symbols[|symbols| - 1];
      EmitAdds(claim, front, tradable, before);
      var now := Emit(claim, front, tradable, before);
      assert forall s :: s in symbols <==> s in front || s == symbol;
      assert symbol in tradable && Seen(now, claim.id, symbol) && !Seen(before, claim.id, symbol) ==>
        SignalFor(claim, symbol) in now;
      assert SignalFor(claim, symbol) in now ==> Seen(now, claim.id, symbol);
    }
  }

  ghost predicate OnePerPair(signals: seq<WireSignal>) {
    forall i, j :: 0 <= i < j < |signals| ==>
      signals[i].claimId != signals[j].claimId || signals[i].symbol != signals[j].symbol
  }

  lemma {:induction false} EmitKeepsPairs(claim: StoredClaim, symbols: seq<string>, tradable: set<string>,
      before: seq<WireSignal>)
    requires OnePerPair(before)
    ensures OnePerPair(Emit(claim, symbols, tradable, before))
  {
    if |symbols| > 0 {
      var now := Emit(claim, symbols[..|symbols| - 1], tradable, before);
      EmitKeepsPairs(claim, symbols[..|symbols| - 1], tradable, before);
      forall i | 0 <= i < |now| && !Seen(now, claim.id, symbols[|symbols| - 1])
        ensures now[i].claimId != claim.id || now[i].symbol != symbols[|symbols| - 1]
      {
        assert now[i] in now;
      }
    }
  }

  /** Claim `k` is the first with its identifier to speak to the symbol. */
  ghost predicate FirstToSpeak(claims: seq<StoredClaim>, k: int, symbol: string, tradable: set<string>, cutoff: int) {
    && 0 <= k < |claims|
    && Speaks(claims[k], symbol, tradable, cutoff)
    && forall j :: 0 <= j < k && claims[j].id == claims[k].id ==> !Speaks(claims[j], symbol, tradable, cutoff)
  }

  ghost predicate Expected(w: WireSignal, claims: seq<StoredClaim>, tradable: set<string>, cutoff: int) {
    exists k :: FirstToSpeak(claims, k, w.symbol, tradable, cutoff) && w == SignalFor(claims[k], w.symbol)
  }

  /** Some claim with this identifier speaks to the symbol. */
  ghost predicate Spoken(claims: seq<StoredClaim>, id: string, symbol: string, tradable: set<string>, cutoff: int) {
    exists k :: 0 <= k < |claims| && claims[k].id == id && Speaks(claims[k], symbol, tradable, cutoff)
  }

  lemma {:induction false} GatheredIsExact(claims: seq<StoredClaim>, tradable: set<string>, cutoff: int)
    ensures forall w :: w in Gathered(claims, tradable, cutoff) <==> Expected(w, claims, tradable, cutoff)
    ensures OnePerPair(Gathered(claims, tradable, cutoff))
    ensures forall id, s :: Seen(Gathered(claims, tradable, cutoff), id, s) <==> Spoken(claims, id, s, tradable, cutoff)
  {
    hide SymbolsOf;
    if |claims| > 0 {
      var front, claim := claims[..|claims| - 1], claims[|claims| - 1];
      GatheredIsExact(front, tradable, cutoff);
      EmitAdds(claim, SymbolsOf(claim), tradable, Gathered(front, tradable, cutoff));
      EmitKeepsPairs(claim, SymbolsOf(claim), tradable, Gathered(front, tradable, cutoff));
      GatheredGrows(claims, tradable, cutoff);
    }
  }

  lemma GatheredGrows(claims: seq<StoredClaim>, tradable: set<string>, cutoff: int)
    requires |claims| > 0
    requires var front := claims[..|claims| - 1];
             && (forall w :: w in Gathered(front, tradable, cutoff) <==> Expected(w, front, tradable, cutoff))
             && (forall id, s ::
                   Seen(Gathered(front, tradable, cutoff), id, s) <==> Spoken(front, id, s, tradable, cutoff))
    requires var before := Gathered(claims[..|claims| - 1], tradable, cutoff);
             var claim := claims[|claims| - 1];
             forall w :: w in Emit(claim, SymbolsOf(claim), tradable, before) <==>
               w in before
               || (w.symbol in SymbolsOf(claim) && w.symbol in tradable && !Seen(before, claim.id, w.symbol)
                   && w == SignalFor(claim, w.symbol))
    ensures forall w :: w in Gathered(claims, tradable, cutoff) <==> Expected(w, claims, tradable, cutoff)
    ensures forall id, s :: Seen(Gathered(claims, tradable, cutoff), id, s) <==> Spoken(claims, id, s, tradable, cutoff)
  {
    hide SymbolsOf, Emit;
    var n := |claims| - 1;
    var front, claim := claims[..n], claims[n];
    var before, now := Gathered(front, tradable, cutoff), Gathered(claims, tradable, cutoff);
    forall w ensures w in now <==> Expected(w, claims, tradable, cutoff) {
      ExpectedGrows(w, claims, tradable, cutoff);
    }
    forall id, s ensures Seen(now, id, s) <==> Spoken(claims, id, s, tradable, cutoff) {
      assert Spoken(claims, id, s, tradable, cutoff) <==>
             Spoken(front, id, s, tradable, cutoff) || (claim.id == id && Speaks(claim, s, tradable, cutoff));
      assert claim.id == id && Speaks(claim, s, tradable, cutoff) && !Seen(before, id, s) ==>
          SignalFor(claim, s) in now;
    }
  }

  lemma ExpectedGrows(w: WireSignal, claims: seq<StoredClaim>, tradable: set<string>, cutoff: int)
    requires |claims| > 0
    ensures var front, claim := claims[..|claims| - 1], claims[|claims| - 1];
            Expected(w, claims, tradable, cutoff) <==>
            || Expected(w, front, tradable, cutoff)
            || (&& Speaks(claim, w.symbol, tradable, cutoff) && w == SignalFor(claim, w.symbol)
                && !Spoken(front, claim.id, w.symbol, tradable, cutoff))
  {
    hide Speaks;
    var n := |claims| - 1;
    var front := claims[..n];
    if Expected(w, front, tradable, cutoff) {
      var k :| FirstToSpeak(front, k, w.symbol, tradable, cutoff) && w == SignalFor(front[k], w.symbol);
      assert FirstToSpeak(claims, k, w.symbol, tradable, cutoff);
    }
    if Expected(w, claims, tradable, cutoff) {
      var k :| FirstToSpeak(claims, k, w.symbol, tradable, cutoff) && w == SignalFor(claims[k], w.symbol);
      if k < n {
        assert FirstToSpeak(front, k, w.symbol, tradable, cutoff);
      }
    }
    if Speaks(claims[n], w.symbol, tradable, cutoff) && !Spoken(front, claims[n].id, w.symbol, tradable, cutoff)
       && w == SignalFor(claims[n], w.symbol) {
      forall j | 0 <= j < n && claims[j].id == claims[n].id ensures !Speaks(claims[j], w.symbol, tradable, cutoff) {
        assert front[j] == claims[j];
      }
      assert FirstToSpeak(claims, n, w.symbol, tradable, cutoff);
    }
  }

  // The order of the result

  lemma WireOrder()
    ensures Sorting.StrictOrder(WireLess) && Sorting.TotalPreorder(WireLe)
  {
    Text.LessIsStrictTotalOrder();
  }

  /**
   * The projection holds exactly the accepted, directed claims effective by the cutoff, each on every symbol it
   * speaks to inside the universe (of claims that share an identifier, the first); strictly sorted by symbol,
   * effective time and claim.
   */
  lemma ProjectionIsExact(claims: seq<StoredClaim>, universe: seq<string>, cutoff: int)
    ensures forall w :: w in Projected(claims, universe, cutoff) <==>
              Expected(w, claims, (set s | s in universe), cutoff)
    ensures Sorting.Ascending(Projected(claims, universe, cutoff), WireLess)
  {
    var tradable := set s | s in universe;
    var gathered, projected := Gathered(claims, tradable, cutoff), Projected(claims, universe, cutoff);
    hide Gathered, Expected;
    GatheredIsExact(claims, tradable, cutoff);
    WireOrder();
    Sorting.SortKeepsElements(gathered, WireLe);
    Sorting.SortIsSorted(gathered, WireLe);
    Sorting.SameMembers(gathered, projected);
    var pair := (w: WireSignal) => (w.claimId, w.symbol);
    Sorting.DistinctKeysForgetOrder(gathered, projected, pair);
    forall i, j | 0 <= i < j < |projected| ensures WireLess(projected[i], projected[j]) {
      assert pair(projected[i]) != pair(projected[j]);
      DifferentPairsCompare(projected[i], projected[j]);
    }
  }

  /** Signals are listed by symbol, those of one symbol by time, and those of one time by claim. */
  lemma SignalsAreListedInOrder(claims: seq<StoredClaim>, universe: seq<string>, cutoff: int, i: nat, j: nat)
    requires i < j < |Projected(claims, universe, cutoff)|
    ensures var a, b := Projected(claims, universe, cutoff)[i], Projected(claims, universe, cutoff)[j];
            && a.effectiveAt.Some? && b.effectiveAt.Some?
            && (Text.Less(a.symbol, b.symbol)
                || (a.symbol == b.symbol && a.effectiveAt.value < b.effectiveAt.value)
                || (a.symbol == b.symbol && a.effectiveAt == b.effectiveAt && Text.Less(a.claimId, b.claimId)))
  {
    ProjectionIsExact(claims, universe, cutoff);
    NothingPassesTheCutoff(claims, universe, cutoff);
    hide Projected, Expected;
    var signals := Projected(claims, universe, cutoff);
    assert signals[i] in signals && signals[j] in signals;
    assert WireLess(signals[i], signals[j]);
  }

  lemma DifferentPairsCompare(a: WireSignal, b: WireSignal)
    requires a.claimId != b.claimId || a.symbol != b.symbol
    ensures WireLess(a, b) || WireLess(b, a)
  {
    Text.LessTotal(a.symbol, b.symbol);
    Text.LessTotal(a.claimId, b.claimId);
  }

  ghost predicate DistinctIds(claims: seq<StoredClaim>) {
    forall i, j :: 0 <= i < j < |claims| ==> claims[i].id != claims[j].id
  }

  /** Claim by claim and field by field, what a projected signal says. */
  ghost predicate Carries(w: WireSignal, claim: StoredClaim) {
    && w.claimId == claim.id && w.direction == claim.direction && w.confidence == claim.confidence
    && w.effectiveAt == Some(claim.effectiveAt) && w.horizonDays == claim.horizonDays
  }

  /**
   * With one claim per identifier it is the full cross product of claims with their tradable symbols: accepted by a
   * human, not neutral, effective by the cutoff.
   */
  lemma ProjectionIsTheCrossProduct(claims: seq<StoredClaim>, universe: seq<string>, cutoff: int, w: WireSignal)
    requires DistinctIds(claims)
    ensures w in Projected(claims, universe, cutoff) <==>
              exists claim :: claim in claims && claim.validationStatus == "accepted" && claim.direction != "neutral"
                              && claim.effectiveAt <= cutoff && w.symbol in SymbolsOf(claim) && w.symbol in universe
                              && Carries(w, claim)
  {
    hide Projected, SymbolsOf;
    var tradable := set s | s in universe;
    ProjectionIsExact(claims, universe, cutoff);
    if claim :| claim in claims && claim.validationStatus == "accepted" && claim.direction != "neutral"
                && claim.effectiveAt <= cutoff && w.symbol in SymbolsOf(claim) && w.symbol in universe
                && Carries(w, claim) {
      var k :| 0 <= k < |claims| && claims[k] == claim;
      assert FirstToSpeak(claims, k, w.symbol, tradable, cutoff);
      assert Expected(w, claims, tradable, cutoff);
    }
  }

  /** The look-ahead gate: every projected signal was effective by the cutoff, whatever the claims' identifiers. */
  lemma NothingPassesTheCutoff(claims: seq<StoredClaim>, universe: seq<string>, cutoff: int)
    ensures forall w :: w in Projected(claims, universe, cutoff) ==>
              w.effectiveAt.Some? && w.effectiveAt.value <= cutoff && w.direction != "neutral" && w.symbol in universe
  {
    hide Projected, SymbolsOf;
    ProjectionIsExact(claims, universe, cutoff);
  }

  /** Claims effective after the cutoff do not reach the projection at all. */
  lemma ResearchAfterTheCutoffIsIgnored(
      claims: seq<StoredClaim>, others: seq<StoredClaim>, universe: seq<string>, cutoff: int)
    requires DistinctIds(claims) && DistinctIds(others)
    requires forall c: StoredClaim :: c.effectiveAt <= cutoff ==> (c in claims <==> c in others)
    ensures Projected(claims, universe, cutoff) == Projected(others, universe, cutoff)
  {
    hide Projected, SymbolsOf;
    ProjectionIsExact(claims, universe, cutoff);
    ProjectionIsExact(others, universe, cutoff);
    forall w ensures w in Projected(claims, universe, cutoff) <==> w in Projected(others, universe, cutoff) {
      ProjectionIsTheCrossProduct(claims, universe, cutoff, w);
      ProjectionIsTheCrossProduct(others, universe, cutoff, w);
    }
    WireOrder();
    Sorting.AscendingIsUnique(Projected(claims, universe, cutoff), Projected(others, universe, cutoff), WireLess);
  }

  /** Neither the order of the claims nor that of the universe reaches the signals. */
  lemma ProjectionForgetsOrder(
      claims: seq<StoredClaim>, others: seq<StoredClaim>, universe: seq<string>, listed: seq<string>, cutoff: int)
    requires DistinctIds(claims) && multiset(claims) == multiset(others)
    requires forall s :: s in universe <==> s in listed
    ensures Projected(claims, universe, cutoff) == Projected(others, listed, cutoff)
  {
    hide Projected, SymbolsOf;
    Sorting.SameMembers(claims, others);
    Sorting.DistinctKeysForgetOrder(claims, others, (c: StoredClaim) => c.id);
    ProjectionIsExact(claims, universe, cutoff);
    ProjectionIsExact(others, listed, cutoff);
    forall w ensures w in Projected(claims, universe, cutoff) <==> w in Projected(others, listed, cutoff) {
      ProjectionIsTheCrossProduct(claims, universe, cutoff, w);
      ProjectionIsTheCrossProduct(others, listed, cutoff, w);
    }
    WireOrder();
    Sorting.AscendingIsUnique(Projected(claims, universe, cutoff), Projected(others, listed, cutoff), WireLess);
  }
}
