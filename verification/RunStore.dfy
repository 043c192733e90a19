/** Backtest runs and their stored rankings: the checks a result must pass and the transactions that write it. */
module RunStore {
  import opened Calendar
  import opened Claims
  import opened Drift
  import opened Options
  import Sorting

  type RunId = nat

  datatype BacktestResult = BacktestResult(
    summary: string, equityCurveCsv: string, checksum: string, engineVersion: string, candidates: CandidateSet)

  /** One row of backtest_runs; the last four columns are null until a result is committed. */
  datatype RunRow = RunRow(
    strategyId: string, status: string, summary: string,
    artifactKey: Option<string>, checksum: Option<string>, engineVersion: Option<string>)

  /** One row of portfolio_candidates with its candidate_claims. */
  datatype CandidateRow = CandidateRow(
    strategyId: string, symbol: string, rank: int, weight: real, score: real, momentum: real, momentumRank: real,
    claimSupport: real, asOf: Date, claims: map<string, real>)

  /** A run with its ranking: what a reader of one run sees. */
  datatype Book = Book(row: RunRow, candidates: seq<CandidateRow>)

  function NewRun(strategyId: string): RunRow {
    RunRow(strategyId, "queued", "{}", None, None, None)
  }

  predicate KnownStatus(status: string) {
    status in {"queued", "running", "completed", "failed"}
  }

  predicate InProgress(row: RunRow) {
    row.status in {"queued", "running"}
  }

  // The checks on a proposed ranking

  datatype Fault = MissingAsOf | MissingSymbol(index: nat) | WrongRank(index: nat) | NonPositiveWeight(symbol: string)

  /** Dated when it proposes anything, every position named, densely ranked from one, and held long. */
  predicate Acceptable(ranking: CandidateSet) {
    ranking.positions != [] ==>
      && ranking.asOf.Some?
      && forall i :: 0 <= i < |ranking.positions| ==> PositionFault(ranking, i).None?
  }

  function PositionFault(ranking: CandidateSet, i: nat): Option<Fault>
    requires i < |ranking.positions|
  {
    var p := ranking.positions[i];
    if p.symbol == "" then Some(MissingSymbol(i))
    else if p.rank != i + 1 then Some(WrongRank(i))
    else if p.weight <= 0.0 then Some(NonPositiveWeight(p.symbol))
    else None
  }

  /** The contract of a proposed ranking, written out. */
  lemma AcceptableMeans(ranking: CandidateSet)
    ensures Acceptable(ranking) <==>
              |ranking.positions| == 0
              || (&& ranking.asOf.Some?
                  && forall i :: 0 <= i < |ranking.positions| ==>
                       && |ranking.positions[i].symbol| > 0 && ranking.positions[i].rank == i + 1
                       && ranking.positions[i].weight > 0.0)
  {
    forall i | 0 <= i < |ranking.positions|
      ensures PositionFault(ranking, i).None? <==>
                && |ranking.positions[i].symbol| > 0 && ranking.positions[i].rank == i + 1
                && ranking.positions[i].weight > 0.0
    {
    }
  }

  method Validate(ranking: CandidateSet) returns (fault: Option<Fault>)
    ensures fault.None? <==> Acceptable(ranking)
    ensures fault.None? <==>
              || |ranking.positions| == 0
              || (&& ranking.asOf.Some?
                  && forall i :: 0 <= i < |ranking.positions| ==>
                       && |ranking.positions[i].symbol| > 0 && ranking.positions[i].rank == i + 1
                       && ranking.positions[i].weight > 0.0)
    ensures fault.Some? && fault != Some(MissingAsOf) ==>
              exists i :: 0 <= i < |ranking.positions| && fault == PositionFault(ranking, i)
                          && forall j :: 0 <= j < i ==> PositionFault(ranking, j).None?
    ensures fault == Some(MissingAsOf) <==> ranking.positions != [] && ranking.asOf.None?
  {
    AcceptableMeans(ranking);
    if ranking.positions == [] {
      return None;
    }
    if ranking.asOf.None? {
      return Some(MissingAsOf);
    }
    for i := 0 to |ranking.positions|
      invariant forall j :: 0 <= j < i ==> PositionFault(ranking, j).None?
    {
      var p := ranking.positions[i];
      if p.symbol == "" {
        return PositionFault(ranking, i);
      }
      if p.rank != i + 1 {
        return PositionFault(ranking, i);
      }
      if p.weight <= 0.0 {
        return PositionFault(ranking, i);
      }
    }
    fault := None;
  }

  function SymbolsOf(ranking: CandidateSet): (symbols: seq<string>)
    ensures |symbols| == |ranking.positions|
    ensures forall i :: 0 <= i < |symbols| ==> symbols[i] == ranking.positions[i].symbol
  {
    seq(|ranking.positions|, i requires 0 <= i < |ranking.positions| => ranking.positions[i].symbol)
  }

  method Symbols(ranking: CandidateSet) returns (symbols: seq<string>)
    ensures symbols == SymbolsOf(ranking)
  {
    symbols := [];
    for i := 0 to |ranking.positions|
      invariant symbols == SymbolsOf(ranking)[..i]
    {
      symbols := symbols + [ranking.positions[i].symbol];
    }
  }

  // The universe guard

  /** What `required` names and `available` lacks, each once, as `required` first lists it. */
  function Missing(required: seq<string>, available: seq<string>): seq<string> {
    if |required| == 0 then []
    else
      var before, last := Missing(required[..|required| - 1], available), required[|required| - 1];
      if last in available || last in before then before else before + [last]
  }

  function FirstAt(xs: seq<string>, s: string): (at: nat)
    requires s in xs
    ensures at < |xs| && xs[at] == s
    ensures forall k :: 0 <= k < at ==> xs[k] != s
  {
    if xs[0] == s then 0 else FirstAt(xs[1..], s) + 1
  }

  lemma FirstAtIsUnique(xs: seq<string>, ys: seq<string>, s: string)
    requires s in xs && xs <= ys
    ensures s in ys && FirstAt(xs, s) == FirstAt(ys, s)
  {
    var a := FirstAt(xs, s);
    assert ys[a] == xs[a];
  }

  /** Exactly the missing names, none twice, in the order they first appear; none when everything is covered. */
  lemma {:induction false} MissingIsExact(required: seq<string>, available: seq<string>)
    ensures forall s :: s in Missing(required, available) <==> s in required && s !in available
    ensures Sorting.Distinct(Missing(required, available))
    ensures forall i, j :: 0 <= i < j < |Missing(required, available)| ==>
              FirstAt(required, Missing(required, available)[i]) < FirstAt(required, Missing(required, available)[j])
  {
    if |required| > 0 {
      var front, last := required[..|required| - 1], required[|required| - 1];
      MissingIsExact(front, available);
      var before := Missing(front, available);
      assert forall s :: s in required <==> s in front || s == last;
      var now := Missing(required, available);
      forall i, j | 0 <= i < j < |now| ensures FirstAt(required, now[i]) < FirstAt(required, now[j]) {
        assert now[i] in before;
        FirstAtIsUnique(front, required, now[i]);
        if j < |before| {
          assert now[j] in before;
          FirstAtIsUnique(front, required, now[j]);
        } else {
          assert now[j] == last && last !in front;
          assert forall k :: 0 <= k < |front| ==> front[k] == required[k] && front[k] in front;
        }
      }
    }
  }

  lemma {:induction false} CoveredMissesNothing(required: seq<string>, available: seq<string>)
    requires forall s :: s in required ==> s in available
    ensures Missing(required, available) == []
  {
    if |required| > 0 {
      CoveredMissesNothing(required[..|required| - 1], available);
    }
  }

  method MissingSymbols(required: seq<string>, available: seq<string>) returns (missing: seq<string>)
    ensures missing == Missing(required, available)
  {
    var present := set s | s in available;
    missing := [];
    var seen: set<string> := {};
    for i := 0 to |required|
      invariant missing == Missing(required[..i], available)
      invariant seen == set s | s in missing
    {
      assert required[..i + 1][..i] == required[..i];
      var symbol := required[i];
      if symbol in present {
        continue;
      }
      if symbol in seen {
        continue;
      }
      seen := seen + {symbol};
      missing := missing + [symbol];
    }
    assert required[..|required|] == required;
  }

  // The rows a result becomes

  /** A claim listed twice keeps its first contribution. */
  function ClaimsOf(evidence: seq<Evidence>): map<string, real> {
    if |evidence| == 0 then map[]
    else
      var before, last := ClaimsOf(evidence[..|evidence| - 1]), evidence[|evidence| - 1];
      if last.claimId in before then before else before[last.claimId := last.contribution]
  }

  /** The claims stored for a position are those listed, each under the contribution listed first. */
  lemma {:induction false} ClaimsKeepTheFirst(evidence: seq<Evidence>, i: nat)
    requires i < |evidence| && forall j :: 0 <= j < i ==> evidence[j].claimId != evidence[i].claimId
    ensures evidence[i].claimId in ClaimsOf(evidence)
    ensures ClaimsOf(evidence)[evidence[i].claimId] == evidence[i].contribution
  {
    if i < |evidence| - 1 {
      ClaimsKeepTheFirst(evidence[..|evidence| - 1], i);
    } else if evidence[i].claimId in ClaimsOf(evidence[..i]) {
      ClaimsAreListed(evidence[..i], evidence[i].claimId);
    }
  }

  lemma {:induction false} ClaimsAreListed(evidence: seq<Evidence>, id: string)
    requires id in ClaimsOf(evidence)
    ensures exists j :: 0 <= j < |evidence| && evidence[j].claimId == id
  {
    var n := |evidence| - 1;
    if evidence[n].claimId != id {
      ClaimsAreListed(evidence[..n], id);
      var j :| 0 <= j < n && evidence[..n][j].claimId == id;
      assert evidence[j].claimId == id;
    }
  }

  method AttributeClaims(evidence: seq<Evidence>) returns (claims: map<string, real>)
    ensures claims == ClaimsOf(evidence)
  {
    claims := map[];
    for i := 0 to |evidence|
      invariant claims == ClaimsOf(evidence[..i])
    {
      assert evidence[..i + 1][..i] == evidence[..i];
      if evidence[i].claimId !in claims {
        claims := claims[evidence[i].claimId := evidence[i].contribution];
      }
    }
    assert evidence[..|evidence|] == evidence;
  }

  function RowOf(strategyId: string, asOf: Date, p: Candidate): CandidateRow {
    CandidateRow(strategyId, p.symbol, p.rank, p.weight, p.score, p.momentum, p.momentumRank, p.claimSupport, asOf,
                 ClaimsOf(p.evidence))
  }

  function RowsOf(strategyId: string, ranking: CandidateSet): (rows: seq<CandidateRow>)
    requires Acceptable(ranking)
    ensures |rows| == |ranking.positions|
    ensures forall i :: 0 <= i < |rows| ==> rows[i] == RowOf(strategyId, ranking.asOf.value, ranking.positions[i])
  {
    seq(|ranking.positions|, i requires 0 <= i < |ranking.positions| =>
      RowOf(strategyId, ranking.asOf.value, ranking.positions[i]))
  }

  function FinishedRow(row: RunRow, result: BacktestResult, key: string): RunRow {
    RunRow(row.strategyId, "completed", if result.summary == "" then "{}" else result.summary,
           Some(key), Some(result.checksum), Some(result.engineVersion))
  }

  /** A ranking an in-progress run takes: it passes the checks, and the unique key on (run, symbol) holds. */
  predicate Committable(ranking: CandidateSet) {
    Acceptable(ranking) && Sorting.Distinct(SymbolsOf(ranking))
  }

  /** The committed state of a result, or nothing when it is refused: the run and its ranking land together. */
  function Committed(book: Book, result: BacktestResult, key: string): Option<Book> {
    if InProgress(book.row) && Committable(result.candidates) then
      Some(Book(FinishedRow(book.row, result, key), RowsOf(book.row.strategyId, result.candidates)))
    else None
  }

  lemma NoneRepeated(symbols: seq<string>)
    ensures Sorting.Distinct(symbols[..0])
  {
  }

  lemma OneMoreSymbol(symbols: seq<string>, i: nat)
    requires i < |symbols| && Sorting.Distinct(symbols[..i])
    ensures Sorting.Distinct(symbols[..i + 1]) <==> symbols[i] !in symbols[..i]
    ensures symbols[i] in symbols[..i] ==> !Sorting.Distinct(symbols)
  {
  }

  function RowSymbols(rows: seq<CandidateRow>): (symbols: seq<string>)
    ensures |symbols| == |rows|
  {
    seq(|rows|, i requires 0 <= i < |rows| => rows[i].symbol)
  }

  /** A commit advances exactly a queued or running run, and stores every position column for column. */
  lemma CommittedMeans(book: Book, result: BacktestResult, key: string)
    ensures Committed(book, result, key).Some? <==>
              (book.row.status == "queued" || book.row.status == "running") && Committable(result.candidates)
    ensures Committed(book, result, key).Some? ==>
              var (now, ps) := (Committed(book, result, key).value, result.candidates.positions);
              && now.row.status == "completed" && now.row.strategyId == book.row.strategyId
              && now.row.checksum == Some(result.checksum) && now.row.engineVersion == Some(result.engineVersion)
              && now.row.artifactKey == Some(key)
              && now.row.summary == (if |result.summary| == 0 then "{}" else result.summary)
              && |now.candidates| == |ps|
              && forall k :: 0 <= k < |ps| ==>
                   var row := now.candidates[k];
                   && row.strategyId == book.row.strategyId && Some(row.asOf) == result.candidates.asOf
                   && row.symbol == ps[k].symbol && row.rank == ps[k].rank && row.weight == ps[k].weight
                   && row.score == ps[k].score && row.momentum == ps[k].momentum
                   && row.momentumRank == ps[k].momentumRank && row.claimSupport == ps[k].claimSupport
                   && row.claims == ClaimsOf(ps[k].evidence)
  {
    hide ClaimsOf, PositionFault, Sorting.Distinct;
  }

  datatype StoreError = InvalidStatus | NotFound | InvalidRanking(fault: Fault) | NotInProgress | DuplicateSymbol

  /** The store's view of both tables. */
  class Runs {
    var runs: map<RunId, RunRow>
    var candidates: map<RunId, seq<CandidateRow>>

    constructor ()
      ensures runs == map[] && candidates == map[]
    {
      runs, candidates := map[], map[];
    }

    function BookOf(id: RunId): Book
      reads this
      requires id in runs
    {
      Book(runs[id], if id in candidates then candidates[id] else [])
    }

    method SetBacktestStatus(id: RunId, status: string) returns (error: Option<StoreError>)
      modifies this`runs
      ensures error == Some(InvalidStatus) <==> status !in {"queued", "running", "completed", "failed"}
      ensures error == Some(NotFound) <==> KnownStatus(status) && id !in old(runs)
      ensures error.None? ==> runs == old(runs)[id := old(runs)[id].(status := status)]
      ensures error.Some? ==> runs == old(runs) && (KnownStatus(status) ==> id !in runs)
    {
      if !KnownStatus(status) {
        return Some(InvalidStatus);
      }
      if id !in runs {
        return Some(NotFound);
      }
      runs := runs[id := runs[id].(status := status)];
      error := None;
    }

    /** Replaces the run's rows one insert at a time; a symbol already inserted violates the unique key. */
    method InsertCandidates(id: RunId, strategyId: string, ranking: CandidateSet) returns (ok: bool)
      requires Acceptable(ranking)
      modifies this`candidates
      ensures ok <==> Sorting.Distinct(SymbolsOf(ranking))
      ensures ok ==> candidates == old(candidates)[id := RowsOf(strategyId, ranking)]
    {
      hide ClaimsOf, PositionFault, Sorting.Distinct;
      NoneRepeated(SymbolsOf(ranking));
      candidates := candidates[id := []];
      for i := 0 to |ranking.positions|
        invariant candidates == old(candidates)[id := RowsOf(strategyId, ranking)[..i]]
        invariant Sorting.Distinct(SymbolsOf(ranking)[..i])
      {
        var p := ranking.positions[i];
        var rows := RowsOf(strategyId, ranking);
        assert SymbolsOf(ranking)[..i] == RowSymbols(rows[..i]);
        OneMoreSymbol(SymbolsOf(ranking), i);
        if p.symbol in RowSymbols(candidates[id]) {
          return false;
        }
        var claims := AttributeClaims(p.evidence);
        var row := CandidateRow(strategyId, p.symbol, p.rank, p.weight, p.score, p.momentum, p.momentumRank,
                                p.claimSupport, ranking.asOf.value, claims);
        candidates := candidates[id := candidates[id] + [row]];
        assert rows[..i + 1] == rows[..i] + [rows[i]];
      }
      assert RowsOf(strategyId, ranking)[..|ranking.positions|] == RowsOf(strategyId, ranking);
      assert SymbolsOf(ranking)[..|ranking.positions|] == SymbolsOf(ranking);
      ok := true;
    }

    /** One transaction: either the run and its whole ranking are written, or neither table changes. */
    method CompleteBacktest(id: RunId, result: BacktestResult, artifactKey: string) returns (error: Option<StoreError>)
      modifies this
      ensures error.None? <==> id in old(runs) && Committed(old(BookOf(id)), result, artifactKey).Some?
      ensures error.None? ==> id in runs && Some(BookOf(id)) == Committed(old(BookOf(id)), result, artifactKey)
      ensures error.None? ==> runs - {id} == old(runs) - {id} && candidates - {id} == old(candidates) - {id}
      ensures error.Some? ==> runs == old(runs) && candidates == old(candidates)
      ensures error == Some(NotInProgress) ==> id !in runs || !InProgress(runs[id])
    {
      var fault := Validate(result.candidates);
      if fault.Some? {
        return Some(InvalidRanking(fault.value));
      }
      var runsBefore, candidatesBefore := runs, candidates;
      if id !in runs || !InProgress(runs[id]) {
        return Some(NotInProgress);
      }
      var summary := if result.summary == "" then "{}" else result.summary;
      runs := runs[id := runs[id].(status := "completed", summary := summary, artifactKey := Some(artifactKey),
                                   checksum := Some(result.checksum), engineVersion := Some(result.engineVersion))];
      var inserted := InsertCandidates(id, runs[id].strategyId, result.candidates);
      if !inserted {
        runs, candidates := runsBefore, candidatesBefore;
        return Some(DuplicateSymbol);
      }
      error := None;
    }
  }
}
