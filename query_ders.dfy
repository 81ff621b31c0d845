/** The grouped calculators `TPairLogitError::CalcDersForQueries` and
    `TQueryRmseError::CalcDersForQueries` (catboost/libs/algo/error_functions.h). Each query
    owns the documents [Begin, End) and writes the slice of `ders` that starts at
    Begin - start, where start is the Begin of the first query of the call. The source runs
    the queries with `NPar::ParallelFor`; since the slices are disjoint, the model runs them
    one after the other. */
module QueryDers {
  import opened Wrappers
  import opened Derivatives

  /** `TCompetitor`: a document of the same query, by its index inside the query, that lost
      to the current one, and the weight of that pair. */
  datatype Competitor = Competitor(id: int, weight: real)

  /** The fields of `TQueryInfo` the calculators read (catboost/libs/data_types/query.h is
      not part of this model): the document range and, per document, its competitors. */
  datatype QueryInfo = QueryInfo(begin: int, end: int, competitors: seq<seq<Competitor>>)

  function Size(q: QueryInfo): int
  {
    q.end - q.begin
  }

  /** The query's documents lie inside a buffer of `n` objects. */
  predicate QueryInRange(q: QueryInfo, n: int)
  {
    0 <= q.begin <= q.end <= n
  }

  /** The query lies inside a buffer of `n` objects and every competitor id names a document
      of the query. */
  predicate QueryWellFormed(q: QueryInfo, n: int)
  {
    QueryInRange(q, n) && Size(q) <= |q.competitors|
    && forall j, m :: 0 <= j < Size(q) && 0 <= m < |q.competitors[j]| ==> 0 <= q.competitors[j][m].id < Size(q)
  }

  /** The queries [qs, qe) are well formed, in order and pairwise disjoint, and their slices
      fit in a `ders` buffer of length `dersLength` counted from the first query's Begin. */
  predicate QueriesFit(queriesInfo: seq<QueryInfo>, qs: int, qe: int, n: int, dersLength: int)
  {
    0 <= qs < qe <= |queriesInfo|
    && (forall q :: qs <= q < qe ==> QueryInRange(queriesInfo[q], n))
    && (forall q1, q2 :: qs <= q1 < q2 < qe ==> queriesInfo[q1].end <= queriesInfo[q2].begin)
    && queriesInfo[qe - 1].end - queriesInfo[qs].begin <= dersLength
  }

  function ZeroDers(n: nat): (r: seq<Ders>)
    ensures |r| == n && forall i :: 0 <= i < n ==> r[i] == Ders(0.0, 0.0, 0.0)
  {
    seq(n, _ => Ders(0.0, 0.0, 0.0))
  }

  // ---------------------------------------------------------------- PairLogit

  /** Every pair probability of the query has a nonzero denominator. */
  predicate PairsInDomain(expApproxes: seq<real>, q: QueryInfo)
    requires QueryWellFormed(q, |expApproxes|)
  {
    forall j, m :: 0 <= j < Size(q) && 0 <= m < |q.competitors[j]| ==>
      expApproxes[q.competitors[j][m].id + q.begin] + expApproxes[j + q.begin] != 0.0
  }

  /** p = e_c / (e_c + e_w): the probability that the competitor beats the winner. */
  function PairProb(expApproxes: seq<real>, q: QueryInfo, winner: int, m: int): real
    requires QueryWellFormed(q, |expApproxes|) && PairsInDomain(expApproxes, q)
    requires 0 <= winner < Size(q) && 0 <= m < |q.competitors[winner]|
  {
    var c := q.competitors[winner][m];
    expApproxes[c.id + q.begin] / (expApproxes[c.id + q.begin] + expApproxes[winner + q.begin])
  }

  /** The Der1 contribution w * p of one pair. */
  function PairDer1(w: real, p: real): real
  {
    w * p
  }

  /** The Der2 contribution w * p * (p - 1) of one pair. */
  function PairDer2(w: real, p: real): real
  {
    w * p * (p - 1.0)
  }

  /** The slice with a added to Der1 and b added to Der2 of entry i. */
  function Bump(s: seq<Ders>, i: int, a: real, b: real): (r: seq<Ders>)
    requires 0 <= i < |s|
    ensures |r| == |s|
  {
    s[i := s[i].(der1 := s[i].der1 + a, der2 := s[i].der2 + b)]
  }

  /** The query's slice and the winner's two running sums after its first m competitors. */
  datatype WinnerState = WinnerState(slice: seq<Ders>, winnerDer: real, winnerSecondDer: real)

  function CompetitorsStep(expApproxes: seq<real>, q: QueryInfo, winner: int, m: int, slice: seq<Ders>): (r: WinnerState)
    requires QueryWellFormed(q, |expApproxes|) && PairsInDomain(expApproxes, q)
    requires 0 <= winner < Size(q) && 0 <= m <= |q.competitors[winner]| && |slice| == Size(q)
    ensures |r.slice| == |slice|
  {
    if m == 0 then WinnerState(slice, 0.0, 0.0)
    else
      var st := CompetitorsStep(expApproxes, q, winner, m - 1, slice);
      var c := q.competitors[winner][m - 1];
      var p := PairProb(expApproxes, q, winner, m - 1);
      WinnerState(Bump(st.slice, c.id, -PairDer1(c.weight, p), PairDer2(c.weight, p)),
                  st.winnerDer + PairDer1(c.weight, p),
                  st.winnerSecondDer + PairDer2(c.weight, p))
  }

  /** One winner: its competitors lose w * p each, and the winner gains the sums. */
  function WinnerStep(expApproxes: seq<real>, q: QueryInfo, winner: int, slice: seq<Ders>): (r: seq<Ders>)
    requires QueryWellFormed(q, |expApproxes|) && PairsInDomain(expApproxes, q)
    requires 0 <= winner < Size(q) && |slice| == Size(q)
    ensures |r| == |slice|
  {
    var st := CompetitorsStep(expApproxes, q, winner, |q.competitors[winner]|, slice);
    Bump(st.slice, winner, st.winnerDer, st.winnerSecondDer)
  }

  /** The query's slice after zero-filling and its first k winners. */
  function DocsStep(expApproxes: seq<real>, q: QueryInfo, k: int): (r: seq<Ders>)
    requires QueryWellFormed(q, |expApproxes|) && PairsInDomain(expApproxes, q)
    requires 0 <= k <= Size(q)
    ensures |r| == Size(q)
  {
    if k == 0 then ZeroDers(Size(q))
    else WinnerStep(expApproxes, q, k - 1, DocsStep(expApproxes, q, k - 1))
  }

  /** The derivatives PairLogit writes for one query. */
  function PairLogitSlice(expApproxes: seq<real>, q: QueryInfo): (r: seq<Ders>)
    requires QueryWellFormed(q, |expApproxes|) && PairsInDomain(expApproxes, q)
    ensures |r| == Size(q)
  {
    DocsStep(expApproxes, q, Size(q))
  }

  /** `Fill(dersData, dersData + size, TDers{0, 0, 0})`. */
  method FillZero(ders: array<Ders>, offset: int, size: int)
    requires 0 <= offset && 0 <= size && offset + size <= ders.Length
    modifies ders
    ensures forall k :: offset <= k < offset + size ==> ders[k] == ZeroDers(size)[k - offset]
    ensures forall k :: 0 <= k < ders.Length && !(offset <= k < offset + size) ==> ders[k] == old(ders[k])
  {
    for i := 0 to size
      invariant forall k :: offset <= k < offset + i ==> ders[k] == Ders(0.0, 0.0, 0.0)
      invariant forall k :: 0 <= k < ders.Length && !(offset <= k < offset + i) ==> ders[k] == old(ders[k])
    {
      ders[offset + i] := Ders(0.0, 0.0, 0.0);
    }
  }

  /** `ders[i].Der1 += a; ders[i].Der2 += b` for entry i of the slice that starts at `offset`. */
  method BumpAt(ders: array<Ders>, offset: int, size: int, i: int, a: real, b: real)
    requires 0 <= offset && 0 <= i < size && offset + size <= ders.Length
    modifies ders
    ensures ders[offset .. offset + size] == Bump(old(ders[offset .. offset + size]), i, a, b)
    ensures forall k :: 0 <= k < ders.Length && !(offset <= k < offset + size) ==> ders[k] == old(ders[k])
  {
    ders[offset + i] := ders[offset + i].(der1 := ders[offset + i].der1 + a);
    ders[offset + i] := ders[offset + i].(der2 := ders[offset + i].der2 + b);
    assert ders[offset .. offset + size] == Bump(old(ders[offset .. offset + size]), i, a, b);
  }

  /** One iteration of the `docId` loop: the competitors of the winner, then the winner. */
  method ApplyWinner(expApproxes: seq<real>, q: QueryInfo, docId: int, ders: array<Ders>, offset: int)
    requires QueryWellFormed(q, |expApproxes|) && PairsInDomain(expApproxes, q)
    requires q.begin <= docId < q.end
    requires 0 <= offset && offset + Size(q) <= ders.Length
    modifies ders
    ensures ders[offset .. offset + Size(q)] == WinnerStep(expApproxes, q, docId - q.begin, old(ders[offset .. offset + Size(q)]))
    ensures forall k :: 0 <= k < ders.Length && !(offset <= k < offset + Size(q)) ==> ders[k] == old(ders[k])
  {
    var size := Size(q);
    var winner := docId - q.begin;
    ghost var before := ders[offset .. offset + size];
    var winnerDer := 0.0;
    var winnerSecondDer := 0.0;
    var competitors := q.competitors[winner];
    for m := 0 to |competitors|
      invariant var st := CompetitorsStep(expApproxes, q, winner, m, before);
                winnerDer == st.winnerDer && winnerSecondDer == st.winnerSecondDer
                && ders[offset .. offset + size] == st.slice
      invariant forall k :: 0 <= k < ders.Length && !(offset <= k < offset + size) ==> ders[k] == old(ders[k])
    {
      var competitor := competitors[m];
      var p := expApproxes[competitor.id + q.begin] / (expApproxes[competitor.id + q.begin] + expApproxes[docId]);
      assert p == PairProb(expApproxes, q, winner, m);
      winnerDer := winnerDer + PairDer1(competitor.weight, p);
      winnerSecondDer := winnerSecondDer + PairDer2(competitor.weight, p);
      BumpAt(ders, offset, size, competitor.id, -PairDer1(competitor.weight, p), PairDer2(competitor.weight, p));
    }
    BumpAt(ders, offset, size, winner, winnerDer, winnerSecondDer);
  }

  /** The body of the `ParallelFor` of `TPairLogitError::CalcDersForQueries` for one query,
      whose slice starts at `offset` in `ders`. */
  method PairLogitQuery(expApproxes: seq<real>, q: QueryInfo, ders: array<Ders>, offset: int)
    requires QueryWellFormed(q, |expApproxes|) && PairsInDomain(expApproxes, q)
    requires 0 <= offset && offset + Size(q) <= ders.Length
    modifies ders
    ensures ders[offset .. offset + Size(q)] == PairLogitSlice(expApproxes, q)
    ensures forall k :: 0 <= k < ders.Length && !(offset <= k < offset + Size(q)) ==> ders[k] == old(ders[k])
  {
    var size := Size(q);
    assert q.begin <= q.end;
    FillZero(ders, offset, size);
    for docId := q.begin to q.end
      invariant ders[offset .. offset + size] == DocsStep(expApproxes, q, docId - q.begin)
      invariant forall k :: 0 <= k < ders.Length && !(offset <= k < offset + size) ==> ders[k] == old(ders[k])
    {
      ApplyWinner(expApproxes, q, docId, ders, offset);
    }
  }

  /** `after` differs from `before` at most inside [lo, hi). */
  predicate WritesWithin(after: seq<Ders>, before: seq<Ders>, lo: int, hi: int)
  {
    |after| == |before| && forall k :: 0 <= k < |after| && !(lo <= k < hi) ==> after[k] == before[k]
  }

  /** A write confined to [writeLo, writeHi) keeps every slice that ends before it. */
  lemma SliceKept(before: seq<Ders>, after: seq<Ders>, lo: int, hi: int, writeLo: int, writeHi: int)
    requires 0 <= lo <= hi <= writeLo && hi <= |after|
    requires WritesWithin(after, before, writeLo, writeHi)
    ensures after[lo .. hi] == before[lo .. hi]
  {
  }

  /** Index k of `ders` lies in the slice of one of the queries [qs, qi). */
  predicate Covered(queriesInfo: seq<QueryInfo>, qs: int, qi: int, start: int, k: int)
    requires 0 <= qs <= qi <= |queriesInfo|
  {
    exists q :: qs <= q < qi && queriesInfo[q].begin - start <= k < queriesInfo[q].end - start
  }

  /** The queries [qs, qi) hold in `s` the slices `wanted` lists for them. */
  predicate SlicesWritten(s: seq<Ders>, queriesInfo: seq<QueryInfo>, qs: int, qi: int, start: int,
                          wanted: seq<seq<Ders>>)
    requires 0 <= qs <= qi <= |queriesInfo| && qi <= |wanted|
  {
    forall q :: qs <= q < qi ==>
      0 <= queriesInfo[q].begin - start <= queriesInfo[q].end - start <= |s|
      && s[queriesInfo[q].begin - start .. queriesInfo[q].end - start] == wanted[q]
  }

  /** Every entry of `s` outside the slices of the queries [qs, qi) still holds its value in
      `original`. */
  predicate Untouched(s: seq<Ders>, original: seq<Ders>, queriesInfo: seq<QueryInfo>, qs: int, qi: int, start: int)
    requires 0 <= qs <= qi <= |queriesInfo|
  {
    |s| == |original| && forall k :: 0 <= k < |s| && !Covered(queriesInfo, qs, qi, start, k) ==> s[k] == original[k]
  }

  /** The queries [qs, qe) are in order and disjoint. */
  predicate Ordered(queriesInfo: seq<QueryInfo>, qs: int, qe: int)
    requires 0 <= qs <= qe <= |queriesInfo|
  {
    forall q1, q2 :: qs <= q1 < q2 < qe ==> queriesInfo[q1].end <= queriesInfo[q2].begin
  }

  /** Query i's slice, counted from `start`, lies inside a buffer of length n. */
  predicate SliceFits(q: QueryInfo, start: int, n: int)
  {
    0 <= q.begin - start <= q.end - start <= n
  }

  /** Fitting queries are ordered, and each one's slice lies inside the buffer. */
  lemma QueriesFitSlices(queriesInfo: seq<QueryInfo>, qs: int, qe: int, n: int, dersLength: int)
    requires QueriesFit(queriesInfo, qs, qe, n, dersLength)
    ensures Ordered(queriesInfo, qs, qe)
    ensures forall q :: qs <= q < qe ==>
              0 <= queriesInfo[q].begin - queriesInfo[qs].begin <= queriesInfo[q].end - queriesInfo[qs].begin <= dersLength
  {
    forall q | qs <= q < qe
      ensures 0 <= queriesInfo[q].begin - queriesInfo[qs].begin <= queriesInfo[q].end - queriesInfo[qs].begin <= dersLength
    {
      assert queriesInfo[q].end <= queriesInfo[qe - 1].end;
    }
  }

  /** One iteration of a query loop: writing query qi's slice, and nothing outside it, keeps
      the slices of the earlier (disjoint) queries and the entries no query covers. */
  lemma QueryStep(before: seq<Ders>, after: seq<Ders>, original: seq<Ders>, queriesInfo: seq<QueryInfo>,
                  qs: int, qi: int, qe: int, start: int, wanted: seq<seq<Ders>>)
    requires 0 <= qs <= qi < qe <= |queriesInfo| && |wanted| == qe
    requires Ordered(queriesInfo, qs, qe)
    requires SliceFits(queriesInfo[qi], start, |after|)
    requires SlicesWritten(before, queriesInfo, qs, qi, start, wanted)
    requires Untouched(before, original, queriesInfo, qs, qi, start)
    requires after[queriesInfo[qi].begin - start .. queriesInfo[qi].end - start] == wanted[qi]
    requires WritesWithin(after, before, queriesInfo[qi].begin - start, queriesInfo[qi].end - start)
    ensures SlicesWritten(after, queriesInfo, qs, qi + 1, start, wanted)
    ensures Untouched(after, original, queriesInfo, qs, qi + 1, start)
  {
    forall q | qs <= q < qi
      ensures after[queriesInfo[q].begin - start .. queriesInfo[q].end - start] == wanted[q]
    {
      SliceKept(before, after, queriesInfo[q].begin - start, queriesInfo[q].end - start,
                queriesInfo[qi].begin - start, queriesInfo[qi].end - start);
    }
  }

  /** An entry of query qi's slice lies in no slice of the earlier queries. */
  lemma UncoveredBeforeQuery(queriesInfo: seq<QueryInfo>, qs: int, qi: int, qe: int, start: int, k: int)
    requires 0 <= qs <= qi < qe <= |queriesInfo|
    requires Ordered(queriesInfo, qs, qe)
    requires queriesInfo[qi].begin - start <= k
    ensures !Covered(queriesInfo, qs, qi, start, k)
  {
    forall earlier | qs <= earlier < qi
      ensures !(queriesInfo[earlier].begin - start <= k < queriesInfo[earlier].end - start)
    {
      assert queriesInfo[earlier].end <= queriesInfo[qi].begin;
    }
  }

  /** Before query qi is processed, its slice still holds the original entries. */
  lemma QuerySliceUntouched(before: seq<Ders>, original: seq<Ders>, queriesInfo: seq<QueryInfo>,
                            qs: int, qi: int, qe: int, start: int)
    requires 0 <= qs <= qi < qe <= |queriesInfo|
    requires Ordered(queriesInfo, qs, qe)
    requires SliceFits(queriesInfo[qi], start, |before|)
    requires Untouched(before, original, queriesInfo, qs, qi, start)
    ensures before[queriesInfo[qi].begin - start .. queriesInfo[qi].end - start]
            == original[queriesInfo[qi].begin - start .. queriesInfo[qi].end - start]
  {
    forall k | queriesInfo[qi].begin - start <= k < queriesInfo[qi].end - start
      ensures before[k] == original[k]
    {
      UncoveredBeforeQuery(queriesInfo, qs, qi, qe, start, k);
    }
  }

  /** The slices PairLogit writes for the queries [qs, qe), indexed by query. */
  ghost function PairLogitSlices(expApproxes: seq<real>, queriesInfo: seq<QueryInfo>, qs: int, qe: int): (r: seq<seq<Ders>>)
    requires 0 <= qs < qe <= |queriesInfo|
    requires forall q :: qs <= q < qe ==> QueryWellFormed(queriesInfo[q], |expApproxes|)
    requires forall q :: qs <= q < qe ==> PairsInDomain(expApproxes, queriesInfo[q])
    ensures |r| == qe
    ensures forall q :: qs <= q < qe ==> r[q] == PairLogitSlice(expApproxes, queriesInfo[q])
  {
    seq(qe, i requires 0 <= i < qe => if i < qs then [] else PairLogitSlice(expApproxes, queriesInfo[i]))
  }

  /** `PairLogitQuery` on the slice [lo, hi) of `ders`, stated against a given `target`. */
  method PairLogitQueryAt(expApproxes: seq<real>, q: QueryInfo, ders: array<Ders>, lo: int, hi: int,
                          ghost target: seq<Ders>)
    requires QueryWellFormed(q, |expApproxes|) && PairsInDomain(expApproxes, q)
    requires 0 <= lo && hi == lo + Size(q) && hi <= ders.Length
    requires target == PairLogitSlice(expApproxes, q)
    modifies ders
    ensures ders[..][lo .. hi] == target
    ensures WritesWithin(ders[..], old(ders[..]), lo, hi)
  {
    PairLogitQuery(expApproxes, q, ders, lo);
  }

  /** One iteration of the query loop of `TPairLogitError::CalcDersForQueries`. */
  method PairLogitQueryInLoop(expApproxes: seq<real>, queriesInfo: seq<QueryInfo>, qs: int, qi: int, qe: int,
                              start: int, ders: array<Ders>, ghost original: seq<Ders>, ghost wanted: seq<seq<Ders>>)
    requires 0 <= qs <= qi < qe <= |queriesInfo| && |wanted| == qe
    requires Ordered(queriesInfo, qs, qe)
    requires QueryWellFormed(queriesInfo[qi], |expApproxes|) && PairsInDomain(expApproxes, queriesInfo[qi])
    requires SliceFits(queriesInfo[qi], start, ders.Length)
    requires wanted[qi] == PairLogitSlice(expApproxes, queriesInfo[qi])
    requires SlicesWritten(ders[..], queriesInfo, qs, qi, start, wanted)
    requires Untouched(ders[..], original, queriesInfo, qs, qi, start)
    modifies ders
    ensures SlicesWritten(ders[..], queriesInfo, qs, qi + 1, start, wanted)
    ensures Untouched(ders[..], original, queriesInfo, qs, qi + 1, start)
  {
    var q := queriesInfo[qi];
    ghost var before := ders[..];
    PairLogitQueryAt(expApproxes, q, ders, q.begin - start, q.end - start, wanted[qi]);
    QueryStep(before, ders[..], original, queriesInfo, qs, qi, qe, start, wanted);
  }

  /** `TPairLogitError::CalcDersForQueries`: fails unless the query range is nonempty, then
      writes every query's slice. */
  method PairLogitDersForQueries(queryStartIndex: int, queryEndIndex: int, expApproxes: seq<real>,
                                 queriesInfo: seq<QueryInfo>, ders: array<Ders>)
    returns (r: Outcome<DerError>)
    requires queryStartIndex < queryEndIndex ==>
               QueriesFit(queriesInfo, queryStartIndex, queryEndIndex, |expApproxes|, ders.Length)
               && (forall q :: queryStartIndex <= q < queryEndIndex ==> QueryWellFormed(queriesInfo[q], |expApproxes|))
               && forall q :: queryStartIndex <= q < queryEndIndex ==> PairsInDomain(expApproxes, queriesInfo[q])
    modifies ders
    ensures r.Fail? <==> queryStartIndex >= queryEndIndex
    ensures r.Fail? ==> ders[..] == old(ders[..])
    ensures r.Pass? ==>
      var start := queriesInfo[queryStartIndex].begin;
      forall q :: queryStartIndex <= q < queryEndIndex ==>
        ders[queriesInfo[q].begin - start .. queriesInfo[q].end - start] == PairLogitSlice(expApproxes, queriesInfo[q])
    ensures r.Pass? ==>
      forall k :: 0 <= k < ders.Length && !Covered(queriesInfo, queryStartIndex, queryEndIndex, queriesInfo[queryStartIndex].begin, k) ==>
        ders[k] == old(ders[k])
  {
    if queryStartIndex >= queryEndIndex {
      return Fail(EmptyQueryRange);
    }
    var start := queriesInfo[queryStartIndex].begin;
    ghost var original := ders[..];
    ghost var wanted := PairLogitSlices(expApproxes, queriesInfo, queryStartIndex, queryEndIndex);
    QueriesFitSlices(queriesInfo, queryStartIndex, queryEndIndex, |expApproxes|, ders.Length);
    for queryIndex := queryStartIndex to queryEndIndex
      invariant SlicesWritten(ders[..], queriesInfo, queryStartIndex, queryIndex, start, wanted)
      invariant Untouched(ders[..], original, queriesInfo, queryStartIndex, queryIndex, start)
    {
      PairLogitQueryInLoop(expApproxes, queriesInfo, queryStartIndex, queryIndex, queryEndIndex, start, ders, original, wanted);
    }
    return Pass;
  }

  // ---------------------------------------------------------------- PairLogit properties

  /** The sum of Der1 over a slice. */
  function SumDer1(s: seq<Ders>): real
  {
    if |s| == 0 then 0.0 else SumDer1(s[..|s| - 1]) + s[|s| - 1].der1
  }

  lemma {:induction false} SumDer1Update(s: seq<Ders>, i: int, v: Ders)
    requires 0 <= i < |s|
    ensures SumDer1(s[i := v]) == SumDer1(s) - s[i].der1 + v.der1
    decreases |s|
  {
    var t := s[i := v];
    if i < |s| - 1 {
      assert t[..|t| - 1] == s[..|s| - 1][i := v];
      SumDer1Update(s[..|s| - 1], i, v);
    } else {
      assert t[..|t| - 1] == s[..|s| - 1];
    }
  }

  lemma SumDer1Zero(n: nat)
    ensures SumDer1(ZeroDers(n)) == 0.0
  {
    if n > 0 {
      assert ZeroDers(n)[..n - 1] == ZeroDers(n - 1);
      SumDer1Zero(n - 1);
    }
  }

  /** What the competitors lose, the winner's running sum holds. */
  lemma {:induction false} CompetitorsKeepSum(expApproxes: seq<real>, q: QueryInfo, winner: int, m: int, slice: seq<Ders>)
    requires QueryWellFormed(q, |expApproxes|) && PairsInDomain(expApproxes, q)
    requires 0 <= winner < Size(q) && 0 <= m <= |q.competitors[winner]| && |slice| == Size(q)
    ensures var st := CompetitorsStep(expApproxes, q, winner, m, slice);
            SumDer1(st.slice) + st.winnerDer == SumDer1(slice)
  {
    if m > 0 {
      CompetitorsKeepSum(expApproxes, q, winner, m - 1, slice);
      var st := CompetitorsStep(expApproxes, q, winner, m - 1, slice);
      var c := q.competitors[winner][m - 1];
      var p := PairProb(expApproxes, q, winner, m - 1);
      var lost, curvature := PairDer1(c.weight, p), PairDer2(c.weight, p);
      assert CompetitorsStep(expApproxes, q, winner, m, slice)
             == WinnerState(Bump(st.slice, c.id, -lost, curvature), st.winnerDer + lost, st.winnerSecondDer + curvature);
      BumpSum(st.slice, c.id, -lost, curvature);
    }
  }

  lemma WinnerKeepsSum(expApproxes: seq<real>, q: QueryInfo, winner: int, slice: seq<Ders>)
    requires QueryWellFormed(q, |expApproxes|) && PairsInDomain(expApproxes, q)
    requires 0 <= winner < Size(q) && |slice| == Size(q)
    ensures SumDer1(WinnerStep(expApproxes, q, winner, slice)) == SumDer1(slice)
  {
    var st := CompetitorsStep(expApproxes, q, winner, |q.competitors[winner]|, slice);
    CompetitorsKeepSum(expApproxes, q, winner, |q.competitors[winner]|, slice);
    BumpSum(st.slice, winner, st.winnerDer, st.winnerSecondDer);
  }

  /** Adding a to one entry's Der1 (and anything to its Der2) adds a to the sum. */
  lemma BumpSum(s: seq<Ders>, i: int, a: real, b: real)
    requires 0 <= i < |s|
    ensures SumDer1(Bump(s, i, a, b)) == SumDer1(s) + a
  {
    SumDer1Update(s, i, s[i].(der1 := s[i].der1 + a, der2 := s[i].der2 + b));
  }

  lemma {:induction false} DocsKeepZeroSum(expApproxes: seq<real>, q: QueryInfo, k: int)
    requires QueryWellFormed(q, |expApproxes|) && PairsInDomain(expApproxes, q)
    requires 0 <= k <= Size(q)
    ensures SumDer1(DocsStep(expApproxes, q, k)) == 0.0
  {
    if k == 0 {
      SumDer1Zero(Size(q));
    } else {
      DocsKeepZeroSum(expApproxes, q, k - 1);
      WinnerKeepsSum(expApproxes, q, k - 1, DocsStep(expApproxes, q, k - 1));
    }
  }

  /** Every pair adds +w*p to the winner and -w*p to the competitor, so Der1 sums to zero
      over each query. */
  lemma PairLogitDer1SumsToZero(expApproxes: seq<real>, q: QueryInfo)
    requires QueryWellFormed(q, |expApproxes|) && PairsInDomain(expApproxes, q)
    ensures SumDer1(PairLogitSlice(expApproxes, q)) == 0.0
  {
    DocsKeepZeroSum(expApproxes, q, Size(q));
  }

  /** The exponents of the query's documents are positive (they are `exp` of an approx). */
  predicate PositiveExps(expApproxes: seq<real>, q: QueryInfo)
    requires QueryWellFormed(q, |expApproxes|)
  {
    forall j :: q.begin <= j < q.end ==> expApproxes[j] > 0.0
  }

  predicate NonnegativePairWeights(q: QueryInfo)
    requires Size(q) <= |q.competitors|
  {
    forall j, m :: 0 <= j < Size(q) && 0 <= m < |q.competitors[j]| ==> q.competitors[j][m].weight >= 0.0
  }

  /** Every Der2 of the slice is nonpositive and every Der3 is zero. */
  predicate CurvatureNonpositive(s: seq<Ders>)
  {
    forall i :: 0 <= i < |s| ==> s[i].der2 <= 0.0 && s[i].der3 == 0.0
  }

  lemma PairProbInUnit(expApproxes: seq<real>, q: QueryInfo, winner: int, m: int)
    requires QueryWellFormed(q, |expApproxes|) && PositiveExps(expApproxes, q)
    requires 0 <= winner < Size(q) && 0 <= m < |q.competitors[winner]|
    ensures PairsInDomain(expApproxes, q)
    ensures 0.0 < PairProb(expApproxes, q, winner, m) < 1.0
  {
    forall j, m2 | 0 <= j < Size(q) && 0 <= m2 < |q.competitors[j]|
      ensures expApproxes[q.competitors[j][m2].id + q.begin] + expApproxes[j + q.begin] != 0.0
    {
      assert expApproxes[q.competitors[j][m2].id + q.begin] > 0.0 && expApproxes[j + q.begin] > 0.0;
    }
    var c := q.competitors[winner][m];
    UnitFraction(expApproxes[c.id + q.begin], expApproxes[winner + q.begin]);
  }

  lemma UnitFraction(a: real, b: real)
    requires a > 0.0 && b > 0.0
    ensures 0.0 < a / (a + b) < 1.0
  {
  }

  lemma PairDer2Nonpositive(w: real, p: real)
    requires w >= 0.0 && 0.0 < p < 1.0
    ensures PairDer2(w, p) <= 0.0
  {
    NonnegTimesNegative(w * p, p - 1.0);
  }

  lemma NonnegTimesNegative(a: real, b: real)
    requires a >= 0.0 && b < 0.0
    ensures a * b <= 0.0
  {
  }

  lemma {:induction false} CompetitorsKeepCurvature(expApproxes: seq<real>, q: QueryInfo, winner: int, m: int, slice: seq<Ders>)
    requires QueryWellFormed(q, |expApproxes|) && PositiveExps(expApproxes, q) && PairsInDomain(expApproxes, q)
    requires NonnegativePairWeights(q)
    requires 0 <= winner < Size(q) && 0 <= m <= |q.competitors[winner]| && |slice| == Size(q)
    requires CurvatureNonpositive(slice)
    ensures var st := CompetitorsStep(expApproxes, q, winner, m, slice);
            CurvatureNonpositive(st.slice) && st.winnerSecondDer <= 0.0
  {
    if m > 0 {
      CompetitorsKeepCurvature(expApproxes, q, winner, m - 1, slice);
      var c := q.competitors[winner][m - 1];
      PairProbInUnit(expApproxes, q, winner, m - 1);
      PairDer2Nonpositive(c.weight, PairProb(expApproxes, q, winner, m - 1));
    }
  }

  lemma {:induction false} DocsKeepCurvature(expApproxes: seq<real>, q: QueryInfo, k: int)
    requires QueryWellFormed(q, |expApproxes|) && PositiveExps(expApproxes, q) && PairsInDomain(expApproxes, q)
    requires NonnegativePairWeights(q)
    requires 0 <= k <= Size(q)
    ensures CurvatureNonpositive(DocsStep(expApproxes, q, k))
  {
    if k > 0 {
      var before := DocsStep(expApproxes, q, k - 1);
      DocsKeepCurvature(expApproxes, q, k - 1);
      CompetitorsKeepCurvature(expApproxes, q, k - 1, |q.competitors[k - 1]|, before);
    }
  }

  /** With positive exponents and nonnegative pair weights every Der2 PairLogit writes is
      nonpositive (each pair adds w * p * (p - 1) with 0 < p < 1 to both documents), and every
      Der3 is the zero of the fill. */
  lemma PairLogitCurvatureNonpositive(expApproxes: seq<real>, q: QueryInfo)
    requires QueryWellFormed(q, |expApproxes|) && PositiveExps(expApproxes, q)
    requires NonnegativePairWeights(q)
    ensures PairsInDomain(expApproxes, q)
    ensures CurvatureNonpositive(PairLogitSlice(expApproxes, q))
  {
    if Size(q) > 0 && |q.competitors[0]| > 0 {
      PairProbInUnit(expApproxes, q, 0, 0);
    } else {
      PairsInDomainWhenPositive(expApproxes, q);
    }
    DocsKeepCurvature(expApproxes, q, Size(q));
  }

  lemma PairsInDomainWhenPositive(expApproxes: seq<real>, q: QueryInfo)
    requires QueryWellFormed(q, |expApproxes|) && PositiveExps(expApproxes, q)
    ensures PairsInDomain(expApproxes, q)
  {
    forall j, m | 0 <= j < Size(q) && 0 <= m < |q.competitors[j]|
      ensures expApproxes[q.competitors[j][m].id + q.begin] + expApproxes[j + q.begin] != 0.0
    {
      assert expApproxes[q.competitors[j][m].id + q.begin] > 0.0 && expApproxes[j + q.begin] > 0.0;
    }
  }

  // ---------------------------------------------------------------- QueryRMSE

  /** The buffers cover the documents [0, n): weights are either empty or per document. */
  predicate InputsCover(approxes: seq<real>, targets: seq<real>, weights: seq<real>, n: int)
  {
    n <= |approxes| && n <= |targets| && (|weights| == 0 || n <= |weights|)
  }

  /** `weights.empty() ? 1 : weights[docId]`. */
  function WeightOf(weights: seq<real>, docId: int): real
    requires |weights| == 0 || 0 <= docId < |weights|
  {
    if |weights| == 0 then 1.0 else weights[docId]
  }

  /** The weighted sum of target - approx over the documents [begin, begin + k). */
  function QuerySum(approxes: seq<real>, targets: seq<real>, weights: seq<real>, begin: int, k: int): real
    requires 0 <= begin && 0 <= k && InputsCover(approxes, targets, weights, begin + k)
  {
    if k == 0 then 0.0
    else QuerySum(approxes, targets, weights, begin, k - 1)
         + Weighted(targets[begin + k - 1] - approxes[begin + k - 1], WeightOf(weights, begin + k - 1))
  }

  /** The total weight of the documents [begin, begin + k). */
  function QueryCount(weights: seq<real>, begin: int, k: int): real
    requires 0 <= begin && 0 <= k && (|weights| == 0 || begin + k <= |weights|)
  {
    if k == 0 then 0.0 else QueryCount(weights, begin, k - 1) + WeightOf(weights, begin + k - 1)
  }

  /** The query average: the weighted mean of target - approx, or 0 when the total weight is
      not positive. */
  function QueryAvrg(approxes: seq<real>, targets: seq<real>, weights: seq<real>, begin: int, count: int): (r: real)
    requires 0 <= begin && 0 <= count && InputsCover(approxes, targets, weights, begin + count)
    ensures QueryCount(weights, begin, count) > 0.0 ==>
              Weighted(r, QueryCount(weights, begin, count)) == QuerySum(approxes, targets, weights, begin, count)
    ensures QueryCount(weights, begin, count) <= 0.0 ==> r == 0.0
  {
    var queryCount := QueryCount(weights, begin, count);
    var querySum := QuerySum(approxes, targets, weights, begin, count);
    if queryCount > 0.0 then QuotientTimesDivisor(querySum, queryCount); querySum / queryCount else 0.0
  }

  lemma QuotientTimesDivisor(s: real, c: real)
    requires c != 0.0
    ensures Weighted(s / c, c) == s
  {
  }

  /** `TQueryRmseError::CalcQueryAvrg`. */
  method CalcQueryAvrg(start: int, count: int, approxes: seq<real>, targets: seq<real>, weights: seq<real>)
    returns (queryAvrg: real)
    requires 0 <= start && 0 <= count && InputsCover(approxes, targets, weights, start + count)
    ensures queryAvrg == QueryAvrg(approxes, targets, weights, start, count)
  {
    var querySum := 0.0;
    var queryCount := 0.0;
    for docId := start to start + count
      invariant querySum == QuerySum(approxes, targets, weights, start, docId - start)
      invariant queryCount == QueryCount(weights, start, docId - start)
    {
      var w := if |weights| == 0 then 1.0 else weights[docId];
      querySum := querySum + Weighted(targets[docId] - approxes[docId], w);
      queryCount := queryCount + w;
    }
    queryAvrg := 0.0;
    if queryCount > 0.0 {
      queryAvrg := querySum / queryCount;
    }
  }

  /** The derivatives of document docId: Der1 = target - approx - queryAvrg and Der2 = -1,
      both times the weight when weights are given; Der3 keeps its value. */
  function QueryRmseDer(approxes: seq<real>, targets: seq<real>, weights: seq<real>, docId: int,
                        queryAvrg: real, into: Ders): (r: Ders)
    requires 0 <= docId && InputsCover(approxes, targets, weights, docId + 1)
    ensures r.der3 == into.der3
  {
    var d := into.(der1 := targets[docId] - approxes[docId] - queryAvrg, der2 := -1.0);
    if |weights| == 0 then d
    else d.(der1 := Weighted(d.der1, weights[docId]), der2 := Weighted(d.der2, weights[docId]))
  }

  /** The slice QueryRMSE writes for one query at `offset` of a buffer that held `held`. */
  function QueryRmseSlice(approxes: seq<real>, targets: seq<real>, weights: seq<real>, q: QueryInfo,
                          held: seq<Ders>, offset: int): (r: seq<Ders>)
    requires QueryInRange(q, |approxes|) && InputsCover(approxes, targets, weights, q.end)
    requires 0 <= offset && offset + Size(q) <= |held|
    ensures |r| == Size(q)
  {
    var avrg := QueryAvrg(approxes, targets, weights, q.begin, Size(q));
    seq(Size(q), i requires 0 <= i < Size(q) && QueryInRange(q, |approxes|) && InputsCover(approxes, targets, weights, q.end)
                            && offset + Size(q) <= |held|
                 => QueryRmseDer(approxes, targets, weights, q.begin + i, avrg, held[offset + i]))
  }

  /** Entry i of a query's slice is the derivative of document Begin + i, centred on the
      query's weighted average and written over the entry it held. */
  lemma QueryRmseSliceEntries(approxes: seq<real>, targets: seq<real>, weights: seq<real>, q: QueryInfo,
                              held: seq<Ders>, offset: int)
    requires QueryInRange(q, |approxes|) && InputsCover(approxes, targets, weights, q.end)
    requires 0 <= offset && offset + Size(q) <= |held|
    ensures forall i :: 0 <= i < Size(q) ==>
              QueryRmseSlice(approxes, targets, weights, q, held, offset)[i]
              == QueryRmseDer(approxes, targets, weights, q.begin + i,
                              QueryAvrg(approxes, targets, weights, q.begin, Size(q)), held[offset + i])
  {
  }

  /** The slice depends on the buffer only through the entries it overwrites. */
  lemma QueryRmseSliceFrame(approxes: seq<real>, targets: seq<real>, weights: seq<real>, q: QueryInfo,
                            held: seq<Ders>, other: seq<Ders>, offset: int)
    requires QueryInRange(q, |approxes|) && InputsCover(approxes, targets, weights, q.end)
    requires 0 <= offset && offset + Size(q) <= |held| && offset + Size(q) <= |other|
    requires held[offset .. offset + Size(q)] == other[offset .. offset + Size(q)]
    ensures QueryRmseSlice(approxes, targets, weights, q, held, offset)
            == QueryRmseSlice(approxes, targets, weights, q, other, offset)
  {
    QueryRmseSliceEntries(approxes, targets, weights, q, held, offset);
    QueryRmseSliceEntries(approxes, targets, weights, q, other, offset);
    forall k | offset <= k < offset + Size(q)
      ensures held[k] == other[k]
    {
      assert held[offset .. offset + Size(q)][k - offset] == other[offset .. offset + Size(q)][k - offset];
    }
  }

  /** The body of the `ParallelFor` of `TQueryRmseError::CalcDersForQueries` for one query,
      whose slice starts at `offset` in `ders`. */
  method QueryRmseQuery(approxes: seq<real>, targets: seq<real>, weights: seq<real>, q: QueryInfo,
                        ders: array<Ders>, offset: int)
    requires QueryInRange(q, |approxes|) && InputsCover(approxes, targets, weights, q.end)
    requires 0 <= offset && offset + Size(q) <= ders.Length
    modifies ders
    ensures ders[offset .. offset + Size(q)] == QueryRmseSlice(approxes, targets, weights, q, old(ders[..]), offset)
    ensures forall k :: 0 <= k < ders.Length && !(offset <= k < offset + Size(q)) ==> ders[k] == old(ders[k])
  {
    var querySize := q.end - q.begin;
    var avrg := CalcQueryAvrg(q.begin, querySize, approxes, targets, weights);
    for docId := q.begin to q.end
      invariant forall k :: 0 <= k < ders.Length ==>
                  ders[k] == if offset <= k < offset + (docId - q.begin)
                             then QueryRmseDer(approxes, targets, weights, k - offset + q.begin, avrg, old(ders[k]))
                             else old(ders[k])
    {
      var i := offset + (docId - q.begin);
      ders[i] := ders[i].(der1 := targets[docId] - approxes[docId] - avrg);
      ders[i] := ders[i].(der2 := -1.0);
      if |weights| != 0 {
        ders[i] := ders[i].(der1 := Weighted(ders[i].der1, weights[docId]));
        ders[i] := ders[i].(der2 := Weighted(ders[i].der2, weights[docId]));
      }
    }
    QueryRmseSliceEntries(approxes, targets, weights, q, old(ders[..]), offset);
    assert ders[offset .. offset + Size(q)] == QueryRmseSlice(approxes, targets, weights, q, old(ders[..]), offset);
  }

  /** The slices QueryRMSE writes for the queries [qs, qe) over a buffer that held
      `original`, counted from `start`, indexed by query. */
  ghost function QueryRmseSlices(approxes: seq<real>, targets: seq<real>, weights: seq<real>,
                                 queriesInfo: seq<QueryInfo>, qs: int, qe: int, start: int,
                                 original: seq<Ders>): (r: seq<seq<Ders>>)
    requires 0 <= qs < qe <= |queriesInfo| && InputsCover(approxes, targets, weights, |approxes|)
    requires forall i :: qs <= i < qe ==> QueryInRange(queriesInfo[i], |approxes|)
    requires forall i :: qs <= i < qe ==> 0 <= queriesInfo[i].begin - start <= queriesInfo[i].end - start <= |original|
    ensures |r| == qe
    ensures forall i :: qs <= i < qe ==>
              r[i] == QueryRmseSlice(approxes, targets, weights, queriesInfo[i], original, queriesInfo[i].begin - start)
  {
    seq(qe, i requires 0 <= i < qe =>
              if i < qs then []
              else QueryRmseSlice(approxes, targets, weights, queriesInfo[i], original, queriesInfo[i].begin - start))
  }

  /** Every query of [qs, qe) holds in `s`, counted from `start`, the slice QueryRMSE writes
      for it over a buffer that held `held`. */
  ghost predicate QueryRmseWritten(approxes: seq<real>, targets: seq<real>, weights: seq<real>,
                                   queriesInfo: seq<QueryInfo>, qs: int, qe: int, start: int,
                                   s: seq<Ders>, held: seq<Ders>)
    requires 0 <= qs <= qe <= |queriesInfo| && InputsCover(approxes, targets, weights, |approxes|)
    requires forall i :: qs <= i < qe ==> QueryInRange(queriesInfo[i], |approxes|)
    requires forall i :: qs <= i < qe ==> 0 <= queriesInfo[i].begin - start <= queriesInfo[i].end - start <= |held|
    requires |s| == |held|
  {
    forall q :: qs <= q < qe ==>
      s[queriesInfo[q].begin - start .. queriesInfo[q].end - start]
      == QueryRmseSlice(approxes, targets, weights, queriesInfo[q], held, queriesInfo[q].begin - start)
  }

  /** Slices written as `QueryRmseSlices` lists them are the queries' QueryRMSE slices. */
  lemma QueryRmseSlicesWritten(approxes: seq<real>, targets: seq<real>, weights: seq<real>,
                               queriesInfo: seq<QueryInfo>, qs: int, qe: int, start: int,
                               original: seq<Ders>, s: seq<Ders>, wanted: seq<seq<Ders>>)
    requires 0 <= qs < qe <= |queriesInfo| && InputsCover(approxes, targets, weights, |approxes|)
    requires forall i :: qs <= i < qe ==> QueryInRange(queriesInfo[i], |approxes|)
    requires forall i :: qs <= i < qe ==> 0 <= queriesInfo[i].begin - start <= queriesInfo[i].end - start <= |original|
    requires wanted == QueryRmseSlices(approxes, targets, weights, queriesInfo, qs, qe, start, original)
    requires SlicesWritten(s, queriesInfo, qs, qe, start, wanted) && |s| == |original|
    ensures QueryRmseWritten(approxes, targets, weights, queriesInfo, qs, qe, start, s, original)
  {
  }

  /** `QueryRmseQuery` on the slice [lo, hi) of `ders`, whose entries are those of `held`,
      stated against a given `target`. */
  method QueryRmseQueryAt(approxes: seq<real>, targets: seq<real>, weights: seq<real>, q: QueryInfo,
                          ders: array<Ders>, lo: int, hi: int, ghost held: seq<Ders>, ghost target: seq<Ders>)
    requires QueryInRange(q, |approxes|) && InputsCover(approxes, targets, weights, |approxes|)
    requires 0 <= lo && hi == lo + Size(q) && hi <= ders.Length && |held| == ders.Length
    requires ders[..][lo .. hi] == held[lo .. hi]
    requires target == QueryRmseSlice(approxes, targets, weights, q, held, lo)
    modifies ders
    ensures ders[..][lo .. hi] == target
    ensures WritesWithin(ders[..], old(ders[..]), lo, hi)
  {
    QueryRmseSliceFrame(approxes, targets, weights, q, ders[..], held, lo);
    QueryRmseQuery(approxes, targets, weights, q, ders, lo);
  }

  /** One iteration of the query loop of `TQueryRmseError::CalcDersForQueries`. */
  method QueryRmseQueryInLoop(approxes: seq<real>, targets: seq<real>, weights: seq<real>, queriesInfo: seq<QueryInfo>,
                              qs: int, qi: int, qe: int, start: int, ders: array<Ders>,
                              ghost original: seq<Ders>, ghost wanted: seq<seq<Ders>>)
    requires 0 <= qs <= qi < qe <= |queriesInfo| && |original| == ders.Length
    requires Ordered(queriesInfo, qs, qe) && InputsCover(approxes, targets, weights, |approxes|)
    requires forall i :: qs <= i < qe ==> QueryInRange(queriesInfo[i], |approxes|)
    requires forall i :: qs <= i < qe ==> 0 <= queriesInfo[i].begin - start <= queriesInfo[i].end - start <= |original|
    requires wanted == QueryRmseSlices(approxes, targets, weights, queriesInfo, qs, qe, start, original)
    requires SlicesWritten(ders[..], queriesInfo, qs, qi, start, wanted)
    requires Untouched(ders[..], original, queriesInfo, qs, qi, start)
    modifies ders
    ensures SlicesWritten(ders[..], queriesInfo, qs, qi + 1, start, wanted)
    ensures Untouched(ders[..], original, queriesInfo, qs, qi + 1, start)
  {
    var q := queriesInfo[qi];
    assert SliceFits(q, start, ders.Length);
    ghost var before := ders[..];
    QuerySliceUntouched(before, original, queriesInfo, qs, qi, qe, start);
    QueryRmseQueryAt(approxes, targets, weights, q, ders, q.begin - start, q.end - start, original, wanted[qi]);
    QueryStep(before, ders[..], original, queriesInfo, qs, qi, qe, start, wanted);
  }

  /** `TQueryRmseError::CalcDersForQueries`: every query's slice, relative to the first
      query's Begin, holds the centred residuals of that query. */
  method QueryRmseDersForQueries(queryStartIndex: int, queryEndIndex: int, approxes: seq<real>,
                                 targets: seq<real>, weights: seq<real>, queriesInfo: seq<QueryInfo>,
                                 ders: array<Ders>)
    requires 0 <= queryStartIndex < |queriesInfo|
    requires queryStartIndex < queryEndIndex ==>
               QueriesFit(queriesInfo, queryStartIndex, queryEndIndex, |approxes|, ders.Length)
               && InputsCover(approxes, targets, weights, |approxes|)
    modifies ders
    ensures queryStartIndex < queryEndIndex ==>
              QueryRmseWritten(approxes, targets, weights, queriesInfo, queryStartIndex, queryEndIndex,
                               queriesInfo[queryStartIndex].begin, ders[..], old(ders[..]))
    ensures forall k :: 0 <= k < ders.Length
                        && !Covered(queriesInfo, queryStartIndex, if queryEndIndex < queryStartIndex then queryStartIndex else queryEndIndex,
                                    queriesInfo[queryStartIndex].begin, k) ==>
              ders[k] == old(ders[k])
  {
    if queryEndIndex <= queryStartIndex {
      // the parallel loop over an empty range writes nothing
      return;
    }
    var start := queriesInfo[queryStartIndex].begin;
    ghost var original := ders[..];
    QueriesFitSlices(queriesInfo, queryStartIndex, queryEndIndex, |approxes|, ders.Length);
    ghost var wanted := QueryRmseSlices(approxes, targets, weights, queriesInfo, queryStartIndex, queryEndIndex, start, original);
    for queryIndex := queryStartIndex to queryEndIndex
      invariant SlicesWritten(ders[..], queriesInfo, queryStartIndex, queryIndex, start, wanted)
      invariant Untouched(ders[..], original, queriesInfo, queryStartIndex, queryIndex, start)
    {
      QueryRmseQueryInLoop(approxes, targets, weights, queriesInfo, queryStartIndex, queryIndex, queryEndIndex, start,
                           ders, original, wanted);
    }
    QueryRmseSlicesWritten(approxes, targets, weights, queriesInfo, queryStartIndex, queryEndIndex, start,
                           original, ders[..], wanted);
  }

  lemma SumDer1Step(s: seq<Ders>, k: int)
    requires 0 <= k < |s|
    ensures SumDer1(s[..k + 1]) == SumDer1(s[..k]) + s[k].der1
  {
    assert s[..k + 1][..k] == s[..k];
  }

  lemma CenteredStep(x: real, s: real, avg: real, c: real, r: real, w: real)
    requires x == s - Weighted(avg, c)
    ensures x + Weighted(r - avg, w) == (s + Weighted(r, w)) - Weighted(avg, c + w)
  {
  }

  /** Der1 of entry i: the weighted residual of document Begin + i, centred on `avrg`. */
  lemma QueryRmseDer1At(approxes: seq<real>, targets: seq<real>, weights: seq<real>,
                        q: QueryInfo, held: seq<Ders>, offset: int, i: int)
    requires QueryInRange(q, |approxes|) && InputsCover(approxes, targets, weights, q.end)
    requires 0 <= offset && offset + Size(q) <= |held|
    requires 0 <= i < Size(q)
    ensures QueryRmseSlice(approxes, targets, weights, q, held, offset)[i].der1
            == Weighted(targets[q.begin + i] - approxes[q.begin + i] - QueryAvrg(approxes, targets, weights, q.begin, Size(q)),
                        WeightOf(weights, q.begin + i))
  {
    QueryRmseSliceEntries(approxes, targets, weights, q, held, offset);
  }

  lemma {:induction false} QueryRmsePrefixSum(approxes: seq<real>, targets: seq<real>, weights: seq<real>,
                                              q: QueryInfo, held: seq<Ders>, offset: int, k: int)
    requires QueryInRange(q, |approxes|) && InputsCover(approxes, targets, weights, q.end)
    requires 0 <= offset && offset + Size(q) <= |held|
    requires 0 <= k <= Size(q)
    ensures var avrg := QueryAvrg(approxes, targets, weights, q.begin, Size(q));
            SumDer1(QueryRmseSlice(approxes, targets, weights, q, held, offset)[..k])
            == QuerySum(approxes, targets, weights, q.begin, k) - Weighted(avrg, QueryCount(weights, q.begin, k))
  {
    var avrg := QueryAvrg(approxes, targets, weights, q.begin, Size(q));
    var slice := QueryRmseSlice(approxes, targets, weights, q, held, offset);
    if k > 0 {
      var d := q.begin + (k - 1);
      var w := WeightOf(weights, d);
      var r := targets[d] - approxes[d];
      QueryRmsePrefixSum(approxes, targets, weights, q, held, offset, k - 1);
      SumDer1Step(slice, k - 1);
      QueryRmseDer1At(approxes, targets, weights, q, held, offset, k - 1);
      assert QuerySum(approxes, targets, weights, q.begin, k)
             == QuerySum(approxes, targets, weights, q.begin, k - 1) + Weighted(r, w);
      assert QueryCount(weights, q.begin, k) == QueryCount(weights, q.begin, k - 1) + w;
      CenteredStep(SumDer1(slice[..k - 1]), QuerySum(approxes, targets, weights, q.begin, k - 1), avrg,
                   QueryCount(weights, q.begin, k - 1), r, w);
    } else {
      assert slice[..0] == [];
    }
  }


  /** With a positive total weight, QueryRMSE's Der1 sums to zero over the query: the
      weighted residuals are centred on their weighted mean. */
  lemma QueryRmseDer1SumsToZero(approxes: seq<real>, targets: seq<real>, weights: seq<real>,
                                q: QueryInfo, held: seq<Ders>, offset: int)
    requires QueryInRange(q, |approxes|) && InputsCover(approxes, targets, weights, q.end)
    requires 0 <= offset && offset + Size(q) <= |held|
    requires QueryCount(weights, q.begin, Size(q)) > 0.0
    ensures SumDer1(QueryRmseSlice(approxes, targets, weights, q, held, offset)) == 0.0
  {
    var slice := QueryRmseSlice(approxes, targets, weights, q, held, offset);
    QueryRmsePrefixSum(approxes, targets, weights, q, held, offset, Size(q));
    assert slice[..Size(q)] == slice;
  }
}
