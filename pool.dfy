/** `Roster.analyze_champion_pool` (lolalytics_scraper/roster.py:195-405): for a pool
    of champions of one role, the best and second-best counter-pick against every
    valid opponent of that role, the opponents' normalised pick rates, what each pool
    champion contributes, and which champions outside the pool would add the most. */
module PoolAnalysis {
  import opened Util
  import opened Dict
  import opened Snapshot
  import opened ChampionData
  import opened RosterFilter
  import opened BlindPick
  import opened RosterTable

  // ---------------------------------------------------------------------------
  // Best and second-best counter-pick (roster.py:196-222)
  // ---------------------------------------------------------------------------

  /** `all(champion.role == role for champion in champion_pool)`. */
  predicate SameRole(pool: seq<Champion>, role: Role) {
    forall i :: 0 <= i < |pool| ==> pool[i].role == role
  }

  /** `[champion for champion in champion_pool if champion is not opponent]`. */
  function CounterpickPool(pool: seq<Champion>, opponent: Champion): seq<Champion> {
    Filter(pool, (c: Champion) => c != opponent)
  }

  /** Descending by the normalized rate against `opponent`, absent rates last. */
  function NormKey(opponent: Champion): Champion -> Option<real> {
    (c: Champion) => Negated(NormalizedMatchupWinRate(c, opponent))
  }

  lemma NormKeyOf(opponent: Champion, c: Champion)
    ensures NormKey(opponent)(c) == Negated(NormalizedMatchupWinRate(c, opponent))
  {
  }

  /** `opponent_win_rates`: a Series keyed by the counter-pick pool (so each member
      once, in first-occurrence order) sorted by normalized rate, highest first. */
  function Ranked(pool: seq<Champion>, opponent: Champion): (r: seq<Champion>)
    ensures SortedBy(r, NormKey(opponent))
    ensures Distinct(r)
    ensures forall c :: c in r <==> c in pool && c != opponent
  {
    var counterpicks := CounterpickPool(pool, opponent);
    var keys := Dedup(counterpicks);
    FilterMembers(pool, (c: Champion) => c != opponent);
    DedupMembers(counterpicks);
    SortByMembers(keys, NormKey(opponent));
    DistinctPermutation(keys, SortBy(keys, NormKey(opponent)));
    SortBy(keys, NormKey(opponent))
  }

  /** `a - b` on possibly absent values. */
  function Minus(a: Option<real>, b: Option<real>): Option<real> {
    if a.Some? && b.Some? then Some(a.value - b.value) else None
  }

  /** `a * b` with `b` possibly absent. */
  function Times(a: real, b: Option<real>): Option<real> {
    if b.Some? then Some(a * b.value) else None
  }

  /** The `matchups[opponent]` record, without the two `N` columns. */
  datatype Matchup = Matchup(
    opponent: Champion,
    pickRate: real,
    best: Champion,
    bestWinRate: Option<real>,
    second: Option<Champion>,
    secondWinRate: Option<real>,
    improvement: Option<real>)

  /** roster.py:204-222 for one opponent. `index[0]` fails on an empty counter-pick
      pool, and `index[1]` fails when the pool lists two or more champions but they
      are all the same one. */
  function MatchupOf(pool: seq<Champion>, opponent: Champion): Result<Matchup> {
    var ranked := Ranked(pool, opponent);
    var wantSecond := |CounterpickPool(pool, opponent)| > 1;
    if ranked == [] || (wantSecond && |ranked| < 2) then Err(IndexError)
    else
      var best := ranked[0];
      var second := if wantSecond then Some(ranked[1]) else None;
      var bestRate := NormalizedMatchupWinRate(best, opponent);
      var secondRate := if wantSecond then NormalizedMatchupWinRate(ranked[1], opponent) else None;
      Ok(Matchup(opponent, PickRate(opponent), best, bestRate, second, secondRate, Minus(bestRate, secondRate)))
  }

  /** Both `index[0]` and `index[1]` of a sorted sequence come no later, by key, than every other element. */
  lemma {:induction false} SortedSecondLeast<T>(s: seq<T>, key: T -> Option<real>, x: T)
    requires SortedBy(s, key) && Distinct(s) && |s| >= 2 && x in s && x != s[0]
    ensures !KeyLt(key(x), key(s[1]))
  {
    var j :| 0 <= j < |s| && s[j] == x;
    if j != 1 {
      assert !KeyLt(key(s[j]), key(s[1]));
    }
  }

  /** A counter-pick ranked first (second) has a rate at least that of every rated
      member (every rated member but the first). */
  lemma {:induction false} RankedHeadBeats(pool: seq<Champion>, opponent: Champion, c: Champion, i: int)
    requires i == 0 || i == 1
    requires i < |Ranked(pool, opponent)|
    requires c in pool && c != opponent && NormalizedMatchupWinRate(c, opponent).Some?
    requires i == 1 ==> c != Ranked(pool, opponent)[0]
    ensures NormalizedMatchupWinRate(Ranked(pool, opponent)[i], opponent).Some?
    ensures NormalizedMatchupWinRate(c, opponent).value <= NormalizedMatchupWinRate(Ranked(pool, opponent)[i], opponent).value
  {
    var ranked := Ranked(pool, opponent);
    if i == 0 {
      SortedHeadLeast(ranked, NormKey(opponent), c);
    } else {
      SortedSecondLeast(ranked, NormKey(opponent), c);
    }
    NormKeyOf(opponent, c);
    NormKeyOf(opponent, ranked[i]);
  }

  /** What roster.py:204-222 promises for one opponent: the best counter-pick is a
      pool member other than the opponent with the highest rate (absent rates rank
      last); a second best exists exactly when the counter-pick pool has more than
      one entry, and it is the best of the rest; the improvement is their difference,
      never negative. */
  lemma {:induction false} MatchupOfProperties(pool: seq<Champion>, opponent: Champion)
    requires MatchupOf(pool, opponent).Ok?
    ensures var m := MatchupOf(pool, opponent).value;
      m.opponent == opponent && m.pickRate == PickRate(opponent) &&
      m.best in pool && m.best != opponent &&
      m.bestWinRate == NormalizedMatchupWinRate(m.best, opponent) &&
      (forall c :: c in pool && c != opponent && NormalizedMatchupWinRate(c, opponent).Some? ==>
         m.bestWinRate.Some? && NormalizedMatchupWinRate(c, opponent).value <= m.bestWinRate.value) &&
      (m.second.Some? <==> |CounterpickPool(pool, opponent)| > 1) &&
      (m.second.Some? ==>
         m.second.value in pool && m.second.value != opponent && m.second.value != m.best &&
         m.secondWinRate == NormalizedMatchupWinRate(m.second.value, opponent) &&
         forall c :: c in pool && c != opponent && c != m.best && NormalizedMatchupWinRate(c, opponent).Some? ==>
           m.secondWinRate.Some? && NormalizedMatchupWinRate(c, opponent).value <= m.secondWinRate.value) &&
      (m.second.None? ==> m.secondWinRate.None?) &&
      m.improvement == Minus(m.bestWinRate, m.secondWinRate) &&
      (m.improvement.Some? ==> m.improvement.value >= 0.0)
  {
    var ranked := Ranked(pool, opponent);
    var m := MatchupOf(pool, opponent).value;
    assert ranked[0] in ranked;
    forall c | c in pool && c != opponent && NormalizedMatchupWinRate(c, opponent).Some?
      ensures m.bestWinRate.Some? && NormalizedMatchupWinRate(c, opponent).value <= m.bestWinRate.value
    {
      RankedHeadBeats(pool, opponent, c, 0);
    }
    if m.second.Some? {
      assert ranked[1] in ranked;
      forall c | c in pool && c != opponent && c != m.best && NormalizedMatchupWinRate(c, opponent).Some?
        ensures m.secondWinRate.Some? && NormalizedMatchupWinRate(c, opponent).value <= m.secondWinRate.value
      {
        RankedHeadBeats(pool, opponent, c, 1);
      }
      if m.secondWinRate.Some? {
        RankedHeadBeats(pool, opponent, ranked[1], 0);
      }
    }
  }

  /** `index[0]` fails exactly when the pool holds nothing but the opponent, and
      `index[1]` exactly when it lists several entries that are all one champion. */
  lemma {:induction false} MatchupOfFails(pool: seq<Champion>, opponent: Champion)
    ensures MatchupOf(pool, opponent).Err? <==>
      (forall c :: c in pool ==> c == opponent) ||
      (|CounterpickPool(pool, opponent)| > 1 &&
       forall c, d :: c in pool && d in pool && c != opponent && d != opponent ==> c == d)
    ensures MatchupOf(pool, opponent).Err? ==> MatchupOf(pool, opponent).error == IndexError
  {
    var ranked := Ranked(pool, opponent);
    if |ranked| >= 2 {
      assert ranked[0] in ranked && ranked[1] in ranked && ranked[0] != ranked[1];
    } else if |ranked| == 1 {
      assert ranked[0] in ranked;
      forall c, d | c in pool && d in pool && c != opponent && d != opponent ensures c == d {
        assert c in ranked && d in ranked;
      }
    }
  }

  /** The outcome of roster.py:204-254 for each opponent, in opponent order. */
  function MatchupOutcomes(pool: seq<Champion>, opponents: seq<Champion>): (r: seq<Result<Matchup>>)
    ensures |r| == |opponents|
    ensures forall i :: 0 <= i < |opponents| ==> r[i] == MatchupOf(pool, opponents[i])
  {
    if opponents == [] then []
    else MatchupOutcomes(pool, opponents[..|opponents| - 1]) + [MatchupOf(pool, opponents[|opponents| - 1])]
  }

  /** The `matchups` dict: one record per opponent, in opponent order, or the first
      failing opponent's exception. */
  function MatchupRows(pool: seq<Champion>, opponents: seq<Champion>): Result<seq<Matchup>> {
    Collect(MatchupOutcomes(pool, opponents))
  }

  /** The loop fails exactly when some opponent does, with that opponent's exception,
      and otherwise records every opponent's match-up. */
  lemma {:induction false} MatchupRowsPointwise(pool: seq<Champion>, opponents: seq<Champion>)
    ensures MatchupRows(pool, opponents).Ok? <==> forall i :: 0 <= i < |opponents| ==> MatchupOf(pool, opponents[i]).Ok?
    ensures MatchupRows(pool, opponents).Ok? ==>
      |MatchupRows(pool, opponents).value| == |opponents| &&
      forall i :: 0 <= i < |opponents| ==> MatchupRows(pool, opponents).value[i] == MatchupOf(pool, opponents[i]).value
    ensures MatchupRows(pool, opponents).Err? ==>
      exists k :: 0 <= k < |opponents| && MatchupOf(pool, opponents[k]).Err? &&
        MatchupRows(pool, opponents).error == MatchupOf(pool, opponents[k]).error
  {
    CollectPointwise(MatchupOutcomes(pool, opponents));
  }

  /** roster.py:202-254: the loop over the valid opponents. */
  method CollectMatchups(pool: seq<Champion>, opponents: seq<Champion>) returns (r: Result<seq<Matchup>>)
    ensures r == MatchupRows(pool, opponents)
  {
    ghost var outcomes := MatchupOutcomes(pool, opponents);
    var matchups: seq<Matchup> := [];
    for i := 0 to |opponents|
      invariant Collect(outcomes[..i]) == Ok(matchups)
    {
      var m := MatchupOf(pool, opponents[i]);
      CollectStep(outcomes, i, matchups);
      if m.Err? {
        return Err(m.error);
      }
      matchups := matchups + [m.value];
    }
    WholeSlice(outcomes);
    return Ok(matchups);
  }

  // ---------------------------------------------------------------------------
  // The match-up table (roster.py:256-268)
  // ---------------------------------------------------------------------------

  /** A row of `matchups_df`: the opponent's record, its share of the opponents'
      pick rates, and `Matchup Win Rate vs Baseline Impact`. */
  datatype Row = Row(matchup: Matchup, share: real, impact: Option<real>)

  function PickRateOf(m: Matchup): real {
    m.pickRate
  }

  function ShareOf(r: Row): real {
    r.share
  }

  /** `Opponent Pick Rate * Best Counterpick Win Rate`; pandas' sum skips an absent product. */
  function BestWinShare(r: Row): real {
    Times(r.share, r.matchup.bestWinRate).GetOr(0.0)
  }

  /** roster.py:260: each opponent's pick rate over their total. */
  function Shares(ms: seq<Matchup>, total: real): (r: seq<Row>)
    requires total > 0.0
    ensures |r| == |ms|
    ensures forall i :: 0 <= i < |ms| ==> r[i] == Row(ms[i], ms[i].pickRate / total, None)
  {
    if ms == [] then []
    else Shares(ms[..|ms| - 1], total) + [Row(ms[|ms| - 1], ms[|ms| - 1].pickRate / total, None)]
  }

  /** roster.py:264-267: each row's impact against the given mean best rate. */
  function WithImpact(rows: seq<Row>, mean: real): (r: seq<Row>)
    ensures |r| == |rows|
    ensures forall i :: 0 <= i < |rows| ==>
      r[i] == rows[i].(impact := Times(rows[i].share, Minus(rows[i].matchup.bestWinRate, Some(mean))))
  {
    if rows == [] then []
    else
      var last := rows[|rows| - 1];
      WithImpact(rows[..|rows| - 1], mean) + [last.(impact := Times(last.share, Minus(last.matchup.bestWinRate, Some(mean))))]
  }

  /** `mean_win_rate` (roster.py:263): the share-weighted best counter-pick rate. */
  function MeanBestWinRate(rows: seq<Row>): real {
    SumOf(rows, BestWinShare)
  }

  /** The table before its final sort, in opponent order. */
  function ImpactRows(ms: seq<Matchup>): (r: seq<Row>)
    requires SumOf(ms, PickRateOf) > 0.0
    ensures |r| == |ms|
    ensures forall i :: 0 <= i < |ms| ==>
      r[i].matchup == ms[i] && r[i].share == ms[i].pickRate / SumOf(ms, PickRateOf)
  {
    var shared := Shares(ms, SumOf(ms, PickRateOf));
    WithImpact(shared, MeanBestWinRate(shared))
  }

  /** The impact column compares each row's best rate with the mean of the table's
      own shares and best rates. */
  lemma {:induction false} ImpactAgainstMean(ms: seq<Matchup>)
    requires SumOf(ms, PickRateOf) > 0.0
    ensures var r := ImpactRows(ms);
      forall i :: 0 <= i < |r| ==>
        r[i].impact == Times(r[i].share, Minus(r[i].matchup.bestWinRate, Some(MeanBestWinRate(r))))
  {
    var shared := Shares(ms, SumOf(ms, PickRateOf));
    SumOfPointwise(shared, BestWinShare, ImpactRows(ms), BestWinShare);
  }

  /** Ascending impact, absent impacts last. */
  function ImpactKey(): Row -> Option<real> {
    (r: Row) => r.impact
  }

  /** `matchups_df` after roster.py:268: the rows re-ordered by impact. */
  function MatchupTable(ms: seq<Matchup>): (r: seq<Row>)
    requires SumOf(ms, PickRateOf) > 0.0
    ensures SortedBy(r, ImpactKey())
    ensures multiset(r) == multiset(ImpactRows(ms))
  {
    SortBy(ImpactRows(ms), ImpactKey())
  }

  /** Every row of the table comes from one opponent's record and carries its pick
      rate over the total; every opponent has a row. */
  lemma {:induction false} MatchupTableRows(ms: seq<Matchup>)
    requires SumOf(ms, PickRateOf) > 0.0
    ensures |MatchupTable(ms)| == |ms|
    ensures forall r :: r in MatchupTable(ms) <==> r in ImpactRows(ms)
  {
    SortByMembers(ImpactRows(ms), ImpactKey());
  }

  /** Each opponent's pick rate over the total: these sum to 1. */
  lemma {:induction false} SharesSumToOne(ms: seq<Matchup>, total: real)
    requires total > 0.0 && total == SumOf(ms, PickRateOf)
    ensures SumOf(Shares(ms, total), ShareOf) == 1.0
  {
    SumOfDivided(ms, PickRateOf, Shares(ms, total), ShareOf, total);
    assert total / total == 1.0;
  }

  lemma {:induction false} ImpactRowsSharesSumToOne(ms: seq<Matchup>)
    requires SumOf(ms, PickRateOf) > 0.0
    ensures SumOf(ImpactRows(ms), ShareOf) == 1.0
  {
    var shared := Shares(ms, SumOf(ms, PickRateOf));
    SharesSumToOne(ms, SumOf(ms, PickRateOf));
    SumOfPointwise(shared, ShareOf, ImpactRows(ms), ShareOf);
  }

  /** After roster.py:260 the opponent pick rates sum to 1, in whatever order. */
  lemma {:induction false} MatchupTableSharesSumToOne(ms: seq<Matchup>)
    requires SumOf(ms, PickRateOf) > 0.0
    ensures SumOf(MatchupTable(ms), ShareOf) == 1.0
  {
    ImpactRowsSharesSumToOne(ms);
    SumOfPermutation(ImpactRows(ms), MatchupTable(ms), ShareOf);
  }

  /** Positive pick rates give every row a positive share. */
  lemma {:induction false} MatchupTableSharesPositive(ms: seq<Matchup>)
    requires forall i :: 0 <= i < |ms| ==> ms[i].pickRate > 0.0
    requires SumOf(ms, PickRateOf) > 0.0
    ensures forall r :: r in MatchupTable(ms) ==> r.share > 0.0
  {
    var rows := ImpactRows(ms);
    MatchupTableRows(ms);
    forall r | r in MatchupTable(ms) ensures r.share > 0.0 {
      var i :| 0 <= i < |rows| && rows[i] == r;
      ShareOfPositive(ms[i].pickRate, SumOf(ms, PickRateOf));
    }
  }

  lemma ShareOfPositive(p: real, total: real)
    requires p > 0.0 && total > 0.0
    ensures p / total > 0.0
  {
  }

  // ---------------------------------------------------------------------------
  // What each pool champion contributes (roster.py:270-336)
  // ---------------------------------------------------------------------------

  function BestIs(c: Champion): Row -> bool {
    (r: Row) => r.matchup.best == c
  }

  /** `counterpick_matchups`: the rows where `c` is the best counter-pick. */
  function Countered(rows: seq<Row>, c: Champion): seq<Row> {
    Filter(rows, BestIs(c))
  }

  /** `Counterpick Rate`: the share of opponents `c` is picked against. */
  function CounterpickRate(rows: seq<Row>, c: Champion): real {
    SumOf(Countered(rows, c), ShareOf)
  }

  function HasSecond(): Row -> bool {
    (r: Row) => r.matchup.secondWinRate.Some?
  }

  /** `Opponent Pick Rate * (best - second)`; pandas' sum skips an absent product. */
  function GainOverSecond(r: Row): real {
    Times(r.share, Minus(r.matchup.bestWinRate, r.matchup.secondWinRate)).GetOr(0.0)
  }

  /** roster.py:307-310: `c` is within one point of the best counter-pick; a
      comparison with an absent rate is false. */
  predicate NearBest(c: Champion, r: Row) {
    var mine := NormalizedMatchupWinRate(c, r.matchup.opponent);
    r.matchup.bestWinRate.Some? && mine.Some? && r.matchup.bestWinRate.value - 0.01 <= mine.value
  }

  function NearBestOf(c: Champion): Row -> bool {
    (r: Row) => NearBest(c, r)
  }

  /** `Within 1% Counterpick Rate`. */
  function NearBestRate(rows: seq<Row>, c: Champion): real {
    SumOf(Filter(rows, NearBestOf(c)), ShareOf)
  }

  /** A row of `champion_pool_results`; the absent values are pandas' NA. The best
      bans are the first three entries of the ban table (champion, rate with that
      ban), the numbers behind the report strings. */
  datatype PoolRow = PoolRow(
    counterpickRate: real,
    nearBestRate: real,
    counterpickWinRate: Option<real>,
    marginal: Option<real>,
    marginalPerMatch: Option<real>,
    overBase: Option<real>,
    blindBase: Option<real>,
    bestBans: seq<BanEntry>)

  /** roster.py:272-329 for `c`, given its blind-pick rate and ban table. */
  function PoolFigures(rows: seq<Row>, c: Champion, blind: Option<real>, bans: seq<BanEntry>): PoolRow {
    var mine := Countered(rows, c);
    var rate := SumOf(mine, ShareOf);
    var near := NearBestRate(rows, c);
    if rate > 0.0 then
      var winRate := SumOf(mine, BestWinShare) / rate;
      var marginal := SumOf(Filter(mine, HasSecond()), GainOverSecond);
      PoolRow(rate, near, Some(winRate), Some(marginal), Some(marginal / rate), Some(winRate - RawWinRate(c)), blind, Take3(bans))
    else
      PoolRow(rate, near, None, None, None, None, blind, Take3(bans))
  }

  function PoolRowOf(rows: seq<Row>, c: Champion, roster: seq<Champion>, n: nat): PoolRow {
    PoolFigures(rows, c, BlindValue(c, roster, n, None), BanTable(c, roster, n))
  }

  /** Rates are never negative and improvements over the second best never are. */
  predicate Wellformed(rows: seq<Row>) {
    forall i :: 0 <= i < |rows| ==>
      rows[i].share >= 0.0 &&
      (rows[i].matchup.bestWinRate.Some? && rows[i].matchup.secondWinRate.Some? ==>
         rows[i].matchup.bestWinRate.value >= rows[i].matchup.secondWinRate.value)
  }

  lemma MulNonNegative(a: real, b: real)
    requires a >= 0.0 && b >= 0.0
    ensures a * b >= 0.0
  {
  }

  lemma DivNonNegative(a: real, b: real)
    requires a >= 0.0 && b > 0.0
    ensures a / b >= 0.0
  {
  }

  /** Every row's gain over the second best is non-negative. */
  lemma {:induction false} GainOverSecondNonNegative(rows: seq<Row>)
    requires Wellformed(rows)
    ensures forall r :: r in rows ==> GainOverSecond(r) >= 0.0
  {
    forall r | r in rows ensures GainOverSecond(r) >= 0.0 {
      var j :| 0 <= j < |rows| && rows[j] == r;
      if r.matchup.bestWinRate.Some? && r.matchup.secondWinRate.Some? {
        MulNonNegative(r.share, r.matchup.bestWinRate.value - r.matchup.secondWinRate.value);
      }
    }
  }

  lemma {:induction false} MarginalNonNegative(rows: seq<Row>, c: Champion)
    requires Wellformed(rows)
    ensures SumOf(Filter(Countered(rows, c), HasSecond()), GainOverSecond) >= 0.0
  {
    var mine := Countered(rows, c);
    var seconds := Filter(mine, HasSecond());
    GainOverSecondNonNegative(rows);
    FilterMembers(rows, BestIs(c));
    FilterMembers(mine, HasSecond());
    assert forall i :: 0 <= i < |seconds| ==> seconds[i] in rows;
    SumOfNonNegative(seconds, GainOverSecond);
  }

  /** What roster.py:272-304 promises: the figures are defined exactly when `c` is
      the counter-pick somewhere; both rates lie between 0 and the total share;
      the counter-pick win rate is the share-weighted mean best rate of those rows,
      and the marginal improvement is never negative. */
  lemma {:induction false} PoolFiguresProperties(rows: seq<Row>, c: Champion, blind: Option<real>, bans: seq<BanEntry>)
    requires Wellformed(rows)
    ensures var p := PoolFigures(rows, c, blind, bans);
      p.counterpickRate == CounterpickRate(rows, c) &&
      0.0 <= p.counterpickRate <= SumOf(rows, ShareOf) &&
      0.0 <= p.nearBestRate <= SumOf(rows, ShareOf) &&
      (p.counterpickWinRate.Some? <==> p.counterpickRate > 0.0) &&
      (p.counterpickWinRate.Some? ==>
         p.counterpickWinRate.value * p.counterpickRate == SumOf(Countered(rows, c), BestWinShare) &&
         p.marginal.Some? && p.marginal.value >= 0.0 &&
         p.marginalPerMatch.Some? && p.marginalPerMatch.value >= 0.0 &&
         p.overBase == Some(p.counterpickWinRate.value - RawWinRate(c))) &&
      (p.counterpickWinRate.None? ==> p.marginal.None? && p.marginalPerMatch.None? && p.overBase.None?) &&
      p.blindBase == blind && p.bestBans == Take3(bans)
  {
    PoolFiguresBounds(rows, c, blind, bans);
    if CounterpickRate(rows, c) > 0.0 {
      PoolFiguresCounted(rows, c, blind, bans);
    } else {
      PoolFiguresUncounted(rows, c, blind, bans);
    }
  }

  lemma PoolFiguresBounds(rows: seq<Row>, c: Champion, blind: Option<real>, bans: seq<BanEntry>)
    requires Wellformed(rows)
    ensures var p := PoolFigures(rows, c, blind, bans);
      p.counterpickRate == CounterpickRate(rows, c) &&
      0.0 <= p.counterpickRate <= SumOf(rows, ShareOf) &&
      0.0 <= p.nearBestRate <= SumOf(rows, ShareOf) &&
      p.blindBase == blind && p.bestBans == Take3(bans)
  {
    var p := PoolFigures(rows, c, blind, bans);
    assert p.counterpickRate == CounterpickRate(rows, c) && p.nearBestRate == NearBestRate(rows, c);
    assert forall i :: 0 <= i < |rows| ==> ShareOf(rows[i]) >= 0.0;
    SumOfFilterAtMost(rows, BestIs(c), ShareOf);
    SumOfFilterAtMost(rows, NearBestOf(c), ShareOf);
  }

  lemma PoolFiguresCounted(rows: seq<Row>, c: Champion, blind: Option<real>, bans: seq<BanEntry>)
    requires Wellformed(rows) && CounterpickRate(rows, c) > 0.0
    ensures var p := PoolFigures(rows, c, blind, bans);
      p.counterpickWinRate.Some? &&
      p.counterpickWinRate.value * p.counterpickRate == SumOf(Countered(rows, c), BestWinShare) &&
      p.marginal.Some? && p.marginal.value >= 0.0 &&
      p.marginalPerMatch.Some? && p.marginalPerMatch.value >= 0.0 &&
      p.overBase == Some(p.counterpickWinRate.value - RawWinRate(c))
  {
    CountedWinRate(rows, c, blind, bans);
    CountedMarginal(rows, c, blind, bans);
    CountedFigures(rows, c, blind, bans);
  }

  /** The counter-pick win rate is the mean of the best rates weighted by share. */
  lemma CountedWinRate(rows: seq<Row>, c: Champion, blind: Option<real>, bans: seq<BanEntry>)
    requires CounterpickRate(rows, c) > 0.0
    ensures var p := PoolFigures(rows, c, blind, bans);
      p.counterpickWinRate.Some? &&
      p.counterpickWinRate.value * p.counterpickRate == SumOf(Countered(rows, c), BestWinShare)
  {
    CountedFigures(rows, c, blind, bans);
    DivTimes(SumOf(Countered(rows, c), BestWinShare), CounterpickRate(rows, c));
  }

  /** Both marginal figures are present and never negative. */
  lemma CountedMarginal(rows: seq<Row>, c: Champion, blind: Option<real>, bans: seq<BanEntry>)
    requires Wellformed(rows) && CounterpickRate(rows, c) > 0.0
    ensures var p := PoolFigures(rows, c, blind, bans);
      p.marginal.Some? && p.marginal.value >= 0.0 &&
      p.marginalPerMatch.Some? && p.marginalPerMatch.value >= 0.0
  {
    CountedFigures(rows, c, blind, bans);
    MarginalNonNegative(rows, c);
    DivNonNegative(SumOf(Filter(Countered(rows, c), HasSecond()), GainOverSecond), CounterpickRate(rows, c));
  }

  /** The row PoolFigures builds when `c` is counted somewhere. */
  lemma CountedFigures(rows: seq<Row>, c: Champion, blind: Option<real>, bans: seq<BanEntry>)
    requires CounterpickRate(rows, c) > 0.0
    ensures var mine := Countered(rows, c);
      var rate := CounterpickRate(rows, c);
      var win := SumOf(mine, BestWinShare) / rate;
      var marginal := SumOf(Filter(mine, HasSecond()), GainOverSecond);
      PoolFigures(rows, c, blind, bans) ==
        PoolRow(rate, NearBestRate(rows, c), Some(win), Some(marginal), Some(marginal / rate),
                Some(win - RawWinRate(c)), blind, Take3(bans))
  {
  }

  lemma PoolFiguresUncounted(rows: seq<Row>, c: Champion, blind: Option<real>, bans: seq<BanEntry>)
    requires CounterpickRate(rows, c) <= 0.0
    ensures var p := PoolFigures(rows, c, blind, bans);
      p.counterpickWinRate.None? && p.marginal.None? && p.marginalPerMatch.None? && p.overBase.None?
  {
  }

  lemma DivTimes(a: real, b: real)
    requires b > 0.0
    ensures a / b * b == a
  {
  }

  function PoolRowFor(rows: seq<Row>, roster: seq<Champion>, n: nat): Champion -> PoolRow {
    (c: Champion) => PoolRowOf(rows, c, roster, n)
  }

  /** `champion_pool_results` before its sort: one dict assignment per pool champion,
      so one entry per distinct champion, in first-occurrence order. */
  function PoolResults(rows: seq<Row>, pool: seq<Champion>, roster: seq<Champion>, n: nat): (r: seq<(Champion, PoolRow)>)
    ensures Keys(r) == Dedup(pool)
    ensures forall i :: 0 <= i < |r| ==> r[i].1 == PoolRowOf(rows, r[i].0, roster, n)
  {
    TabulateShape(pool, PoolRowFor(rows, roster, n));
    Tabulate(pool, PoolRowFor(rows, roster, n))
  }

  /** roster.py:270-329. */
  method CollectPoolResults(rows: seq<Row>, pool: seq<Champion>, roster: seq<Champion>, n: nat)
    returns (results: seq<(Champion, PoolRow)>)
    ensures results == PoolResults(rows, pool, roster, n)
  {
    ghost var f := PoolRowFor(rows, roster, n);
    results := [];
    for i := 0 to |pool|
      invariant results == Tabulate(pool[..i], f)
    {
      var c := pool[i];
      var blind := BlindExpectedWinRate(c, roster, n, None);
      PrefixStep(pool, i);
      assert f(c) == PoolFigures(rows, c, blind, BanTable(c, roster, n));
      results := Put(results, c, PoolFigures(rows, c, blind, BanTable(c, roster, n)));
    }
    WholeSlice(pool);
  }

  // ---------------------------------------------------------------------------
  // The counter-pick rates partition the opponents (roster.py:260, 271-274)
  // ---------------------------------------------------------------------------

  function CounterpickRates(rows: seq<Row>): Champion -> real {
    (c: Champion) => CounterpickRate(rows, c)
  }

  lemma {:induction false} CounterpickRateAppend(rows: seq<Row>, x: Row, c: Champion)
    ensures CounterpickRate(rows + [x], c) == CounterpickRate(rows, c) + Spot(x.matchup.best, x.share)(c)
  {
    FilterAppend(rows, x, BestIs(c));
    if x.matchup.best == c {
      SumOfConcat(Countered(rows, c), [x], ShareOf);
      SumOfSingle(x, ShareOf);
    } else {
      assert Countered(rows + [x], c) == Countered(rows, c);
    }
  }

  lemma {:induction false} CounterpickRatesStep(keys: seq<Champion>, rows: seq<Row>, x: Row)
    ensures SumOf(keys, CounterpickRates(rows + [x])) ==
      SumOf(keys, CounterpickRates(rows)) + SumOf(keys, Spot(x.matchup.best, x.share))
  {
    forall i | 0 <= i < |keys|
      ensures CounterpickRates(rows + [x])(keys[i]) == CounterpickRates(rows)(keys[i]) + Spot(x.matchup.best, x.share)(keys[i])
    {
      CounterpickRateAppend(rows, x, keys[i]);
    }
    SumOfAdd(keys, CounterpickRates(rows), Spot(x.matchup.best, x.share), CounterpickRates(rows + [x]));
  }

  /** Each opponent's share goes to exactly one of the champions, its best
      counter-pick, so over distinct champions covering every best counter-pick the
      counter-pick rates add up to the total share. */
  lemma {:induction false} CounterpickRatesPartition(keys: seq<Champion>, rows: seq<Row>)
    requires Distinct(keys)
    requires forall i :: 0 <= i < |rows| ==> rows[i].matchup.best in keys
    ensures SumOf(keys, CounterpickRates(rows)) == SumOf(rows, ShareOf)
  {
    if rows == [] {
      SumOfZero(keys, CounterpickRates(rows));
    } else {
      var init, x := rows[..|rows| - 1], rows[|rows| - 1];
      assert rows == init + [x];
      CounterpickRatesPartition(keys, init);
      CounterpickRatesStep(keys, init, x);
      SpotSum(keys, x.matchup.best, x.share);
    }
  }

  // ---------------------------------------------------------------------------
  // Champions that would add the most (roster.py:338-403)
  // ---------------------------------------------------------------------------

  /** roster.py:345-346: the candidate's raw rate against the row's opponent beats
      the best counter-pick's; a comparison with an absent rate is false. */
  predicate Improves(cand: Champion, r: Row) {
    var raw := RawMatchupWinRate(cand, r.matchup.opponent);
    raw.Some? && r.matchup.bestWinRate.Some? && raw.value > r.matchup.bestWinRate.value
  }

  function ImprovesOn(cand: Champion): Row -> bool {
    (r: Row) => Improves(cand, r)
  }

  /** `improvement_matchups`. */
  function Improving(rows: seq<Row>, cand: Champion): seq<Row> {
    Filter(rows, ImprovesOn(cand))
  }

  /** The candidate's raw rate minus the best counter-pick's, in an improving row. */
  function Gain(cand: Champion, r: Row): real {
    if Improves(cand, r) then RawMatchupWinRate(cand, r.matchup.opponent).value - r.matchup.bestWinRate.value else 0.0
  }

  function GainShare(cand: Champion): Row -> real {
    (r: Row) => r.share * Gain(cand, r)
  }

  /** `Opponent Pick Rate * raw rate`; pandas' sum skips an absent product. */
  function RawWinShare(cand: Champion): Row -> real {
    (r: Row) => Times(r.share, RawMatchupWinRate(cand, r.matchup.opponent)).GetOr(0.0)
  }

  /** Descending by share-weighted gain (roster.py:367-370). */
  function GainKey(cand: Champion): Row -> Option<real> {
    (r: Row) => Some(-(Gain(cand, r) * r.share))
  }

  /** Each row's opponent with the candidate's gain against it: the numbers behind
      `Biggest Impact Against`. */
  function GainsAgainst(cand: Champion, rows: seq<Row>): (r: seq<(Champion, real)>)
    ensures |r| == |rows|
    ensures forall i :: 0 <= i < |rows| ==> r[i] == (rows[i].matchup.opponent, Gain(cand, rows[i]))
  {
    if rows == [] then []
    else GainsAgainst(cand, rows[..|rows| - 1]) + [(rows[|rows| - 1].matchup.opponent, Gain(cand, rows[|rows| - 1]))]
  }

  /** A row of `candidate_champions`. */
  datatype CandidateRow = CandidateRow(
    counterpickRate: real,
    counterpickWinRate: real,
    marginal: real,
    marginalPerMatch: real,
    overBase: real,
    biggestImpact: seq<(Champion, real)>,
    blindBase: Option<real>,
    bestBans: seq<BanEntry>)

  /** roster.py:345-398 for `cand`, given its blind-pick rate and ban table. */
  function CandidateFigures(rows: seq<Row>, cand: Champion, blind: Option<real>, bans: seq<BanEntry>): CandidateRow {
    var better := Improving(rows, cand);
    var rate := SumOf(better, ShareOf);
    if rate > 0.0 then
      var winRate := SumOf(better, RawWinShare(cand)) / rate;
      var marginal := SumOf(better, GainShare(cand));
      var impact := GainsAgainst(cand, Take3(SortBy(better, GainKey(cand))));
      CandidateRow(rate, winRate, marginal, marginal / rate, winRate - RawWinRate(cand), impact, blind, Take3(bans))
    else
      CandidateRow(rate, 0.0, 0.0, 0.0, 0.0, [], blind, Take3(bans))
  }

  function CandidateRowOf(rows: seq<Row>, cand: Champion, roster: seq<Champion>, n: nat): CandidateRow {
    CandidateFigures(rows, cand, BlindValue(cand, roster, n, None), BanTable(cand, roster, n))
  }

  /** A candidate that improves on no match-up gets zeros and no opponents. */
  lemma {:induction false} CandidateWithoutImprovement(rows: seq<Row>, cand: Champion, blind: Option<real>, bans: seq<BanEntry>)
    requires forall i :: 0 <= i < |rows| ==> !Improves(cand, rows[i])
    ensures CandidateFigures(rows, cand, blind, bans) == CandidateRow(0.0, 0.0, 0.0, 0.0, 0.0, [], blind, Take3(bans))
  {
    FilterNone(rows, ImprovesOn(cand));
  }

  lemma MulPositive(a: real, b: real)
    requires a > 0.0 && b > 0.0
    ensures a * b > 0.0
  {
  }

  /** With every opponent picked, the candidate is counter-picked exactly when it
      improves on some match-up, never more than the total share; its marginal
      improvement is then positive, and it names at most three opponents, each one it
      improves against, by a positive gain. */
  lemma {:induction false} CandidateFiguresProperties(rows: seq<Row>, cand: Champion, blind: Option<real>, bans: seq<BanEntry>)
    requires forall i :: 0 <= i < |rows| ==> rows[i].share > 0.0
    ensures var p := CandidateFigures(rows, cand, blind, bans);
      p.counterpickRate == SumOf(Improving(rows, cand), ShareOf) &&
      (p.counterpickRate > 0.0 <==> exists i :: 0 <= i < |rows| && Improves(cand, rows[i])) &&
      0.0 <= p.counterpickRate <= SumOf(rows, ShareOf) &&
      (p.counterpickRate > 0.0 ==>
         p.marginal > 0.0 && p.marginalPerMatch > 0.0 &&
         p.overBase == p.counterpickWinRate - RawWinRate(cand) &&
         |p.biggestImpact| <= 3 &&
         forall k :: 0 <= k < |p.biggestImpact| ==> ImpactEntry(rows, cand, p.biggestImpact[k])) &&
      p.blindBase == blind && p.bestBans == Take3(bans)
  {
    var better := Improving(rows, cand);
    assert forall i :: 0 <= i < |rows| ==> ShareOf(rows[i]) > 0.0;
    SumOfFilterPositive(rows, ImprovesOn(cand), ShareOf);
    SumOfFilterAtMost(rows, ImprovesOn(cand), ShareOf);
    var rate := SumOf(better, ShareOf);
    if rate > 0.0 {
      FilterMembers(rows, ImprovesOn(cand));
      ImprovingGains(rows, cand);
      SumOfPositive(better, GainShare(cand));
      var marginal := SumOf(better, GainShare(cand));
      DivPositive(marginal, rate);
      ImpactFromImproving(rows, cand);
    }
  }

  lemma DivPositive(a: real, b: real)
    requires a > 0.0 && b > 0.0
    ensures a / b > 0.0
  {
  }

  /** In an improving row the gain is positive, and so is its share-weighted gain. */
  lemma {:induction false} ImprovingGains(rows: seq<Row>, cand: Champion)
    requires forall i :: 0 <= i < |rows| ==> rows[i].share > 0.0
    ensures var better := Improving(rows, cand);
      forall i :: 0 <= i < |better| ==>
        (Improves(cand, better[i]) && Gain(cand, better[i]) > 0.0 && GainShare(cand)(better[i]) > 0.0)
  {
    var better := Improving(rows, cand);
    FilterMembers(rows, ImprovesOn(cand));
    forall i | 0 <= i < |better|
      ensures Improves(cand, better[i]) && Gain(cand, better[i]) > 0.0 && GainShare(cand)(better[i]) > 0.0
    {
      assert better[i] in rows;
      var j :| 0 <= j < |rows| && rows[j] == better[i];
      MulPositive(better[i].share, Gain(cand, better[i]));
    }
  }

  /** `e` is the opponent of a row the candidate improves on, with its gain there. */
  predicate ImpactEntry(rows: seq<Row>, cand: Champion, e: (Champion, real)) {
    exists i :: 0 <= i < |rows| && Improves(cand, rows[i]) &&
      e == (rows[i].matchup.opponent, Gain(cand, rows[i])) && Gain(cand, rows[i]) > 0.0
  }

  /** `Biggest Impact Against` names improving rows' opponents only. */
  lemma {:induction false} ImpactFromImproving(rows: seq<Row>, cand: Champion)
    requires forall i :: 0 <= i < |rows| ==> rows[i].share > 0.0
    ensures var impact := GainsAgainst(cand, Take3(SortBy(Improving(rows, cand), GainKey(cand))));
      |impact| <= 3 &&
      forall k :: 0 <= k < |impact| ==> ImpactEntry(rows, cand, impact[k])
  {
    var better := Improving(rows, cand);
    var sorted := SortBy(better, GainKey(cand));
    var top := Take3(sorted);
    var impact := GainsAgainst(cand, top);
    SortByMembers(better, GainKey(cand));
    FilterMembers(rows, ImprovesOn(cand));
    ImprovingGains(rows, cand);
    forall k | 0 <= k < |impact|
      ensures ImpactEntry(rows, cand, impact[k])
    {
      assert top[k] == sorted[k];
      assert top[k] in better;
      var b :| 0 <= b < |better| && better[b] == top[k];
      assert top[k] in rows;
      var i :| 0 <= i < |rows| && rows[i] == top[k];
      assert impact[k] == (rows[i].matchup.opponent, Gain(cand, rows[i]));
    }
  }

  function NotIn(pool: seq<Champion>): Champion -> bool {
    (c: Champion) => c !in pool
  }

  function CandidateRowFor(rows: seq<Row>, roster: seq<Champion>, n: nat): Champion -> CandidateRow {
    (c: Champion) => CandidateRowOf(rows, c, roster, n)
  }

  /** The champions `candidate_champions` holds: the opponents outside the pool,
      each once, in first-occurrence order. */
  function CandidateKeys(opponents: seq<Champion>, pool: seq<Champion>): (r: seq<Champion>)
    ensures Distinct(r)
    ensures forall c :: c in r <==> c in opponents && c !in pool
  {
    FilterMembers(opponents, NotIn(pool));
    DedupMembers(Filter(opponents, NotIn(pool)));
    Dedup(Filter(opponents, NotIn(pool)))
  }

  /** `candidate_champions` before its sort: a dict assignment per opponent outside
      the pool. */
  function Candidates(rows: seq<Row>, opponents: seq<Champion>, pool: seq<Champion>, roster: seq<Champion>, n: nat)
    : (r: seq<(Champion, CandidateRow)>)
    ensures Keys(r) == CandidateKeys(opponents, pool)
    ensures forall i :: 0 <= i < |r| ==> r[i].1 == CandidateRowOf(rows, r[i].0, roster, n)
  {
    var keys := Filter(opponents, NotIn(pool));
    var f := CandidateRowFor(rows, roster, n);
    TabulateShape(keys, f);
    Tabulate(keys, f)
  }

  /** roster.py:339-398. */
  method CollectCandidates(rows: seq<Row>, opponents: seq<Champion>, pool: seq<Champion>, roster: seq<Champion>, n: nat)
    returns (results: seq<(Champion, CandidateRow)>)
    ensures results == Candidates(rows, opponents, pool, roster, n)
  {
    ghost var f := CandidateRowFor(rows, roster, n);
    results := [];
    for i := 0 to |opponents|
      invariant results == Tabulate(Filter(opponents[..i], NotIn(pool)), f)
    {
      var c := opponents[i];
      TabulateFilterStep(opponents, i, NotIn(pool), f);
      if c in pool {
        continue;
      }
      var blind := BlindExpectedWinRate(c, roster, n, None);
      assert f(c) == CandidateFigures(rows, c, blind, BanTable(c, roster, n));
      results := Put(results, c, CandidateFigures(rows, c, blind, BanTable(c, roster, n)));
    }
    WholeSlice(opponents);
  }

  // ---------------------------------------------------------------------------
  // The whole analysis (roster.py:195-405)
  // ---------------------------------------------------------------------------

  /** `self.get_valid_champions(role)` with the default thresholds: the opponents of
      the pool's lane, and also its candidate additions. */
  function LaneOpponents(roster: seq<Champion>, role: Role): (r: seq<Champion>)
    ensures forall c :: c in r <==> c in roster && IsValid(c, Some(role), DefaultMinRoleAssignment, DefaultMinPickRate)
  {
    ValidChampions(roster, Some(role), DefaultMinRoleAssignment, DefaultMinPickRate)
  }

  /** A valid opponent is picked at least 0.5% of the time, so every recorded
      match-up has a positive pick rate and their total is positive: the
      normalisation at roster.py:260 never divides by zero. */
  lemma {:induction false} MatchupPickRatesPositive(pool: seq<Champion>, roster: seq<Champion>, role: Role)
    requires MatchupRows(pool, LaneOpponents(roster, role)).Ok?
    ensures var ms := MatchupRows(pool, LaneOpponents(roster, role)).value;
      |ms| == |LaneOpponents(roster, role)| &&
      (forall i :: 0 <= i < |ms| ==> ms[i].pickRate > 0.0) &&
      (ms != [] ==> SumOf(ms, PickRateOf) > 0.0)
  {
    var opponents := LaneOpponents(roster, role);
    var ms := MatchupRows(pool, opponents).value;
    MatchupRowsPointwise(pool, opponents);
    forall i | 0 <= i < |ms| ensures PickRateOf(ms[i]) > 0.0 {
      assert opponents[i] in opponents;
      MatchupOfProperties(pool, opponents[i]);
    }
    SumOfPositive(ms, PickRateOf);
  }

  type PoolEntry = (Champion, PoolRow)
  type CandidateEntry = (Champion, CandidateRow)

  /** `sort_values(by="Marginal Win Rate Improvement", ascending=False)`. */
  function PoolKey(): PoolEntry -> Option<real> {
    (e: PoolEntry) => Negated(e.1.marginal)
  }

  /** `sort_values(by="Counterpick Rate", ascending=False)`. */
  function CandidateKey(): CandidateEntry -> Option<real> {
    (e: CandidateEntry) => Some(-e.1.counterpickRate)
  }

  /** The three tables `analyze_champion_pool` returns. */
  datatype Report = Report(pool: seq<PoolEntry>, matchups: seq<Row>, candidates: seq<CandidateEntry>)

  /** `analyze_champion_pool(champion_pool, n)` on a roster whose `champions` are
      `roster`. `champion_pool[0]` fails on an empty pool, the role check raises
      AssertionError, an opponent without a counter-pick raises IndexError, and with
      no valid opponent the table has no `Opponent Pick Rate` column. */
  function Analysis(roster: seq<Champion>, pool: seq<Champion>, n: nat): Result<Report> {
    if pool == [] then Err(IndexError)
    else if !SameRole(pool, pool[0].role) then Err(AssertionError)
    else
      var opponents := LaneOpponents(roster, pool[0].role);
      var ms :- MatchupRows(pool, opponents);
      MatchupPickRatesPositive(pool, roster, pool[0].role);
      if ms == [] then Err(KeyError("Opponent Pick Rate"))
      else
        var rows := MatchupTable(ms);
        Ok(Report(
          SortBy(PoolResults(rows, pool, roster, n), PoolKey()),
          rows,
          SortBy(Candidates(rows, opponents, pool, roster, n), CandidateKey())))
  }

  /** When the analysis fails, and with which exception. */
  lemma {:induction false} AnalysisOutcome(roster: seq<Champion>, pool: seq<Champion>, n: nat)
    ensures pool == [] ==> Analysis(roster, pool, n) == Err(IndexError)
    ensures pool != [] && !SameRole(pool, pool[0].role) ==> Analysis(roster, pool, n) == Err(AssertionError)
    ensures pool != [] && SameRole(pool, pool[0].role) ==>
      var opponents := LaneOpponents(roster, pool[0].role);
      (opponents == [] ==> Analysis(roster, pool, n) == Err(KeyError("Opponent Pick Rate"))) &&
      (Analysis(roster, pool, n).Ok? <==>
         opponents != [] && forall i :: 0 <= i < |opponents| ==> MatchupOf(pool, opponents[i]).Ok?) &&
      (opponents != [] && Analysis(roster, pool, n).Err? ==>
         Analysis(roster, pool, n) == Err(IndexError) &&
         exists i :: 0 <= i < |opponents| && MatchupOf(pool, opponents[i]).Err?)
  {
    if pool != [] && SameRole(pool, pool[0].role) {
      LaneOutcome(roster, pool, n);
    }
  }

  /** The outcome for a pool of one lane, decided by its opponents' match-ups. */
  lemma LaneOutcome(roster: seq<Champion>, pool: seq<Champion>, n: nat)
    requires pool != [] && SameRole(pool, pool[0].role)
    ensures var opponents := LaneOpponents(roster, pool[0].role);
      (opponents == [] ==> Analysis(roster, pool, n) == Err(KeyError("Opponent Pick Rate"))) &&
      (Analysis(roster, pool, n).Ok? <==>
         opponents != [] && forall i :: 0 <= i < |opponents| ==> MatchupOf(pool, opponents[i]).Ok?) &&
      (opponents != [] && Analysis(roster, pool, n).Err? ==>
         Analysis(roster, pool, n) == Err(IndexError) &&
         exists i :: 0 <= i < |opponents| && MatchupOf(pool, opponents[i]).Err?)
  {
    var opponents := LaneOpponents(roster, pool[0].role);
    MatchupRowsPointwise(pool, opponents);
    if MatchupRows(pool, opponents).Ok? {
      MatchupPickRatesPositive(pool, roster, pool[0].role);
    } else {
      var k :| 0 <= k < |opponents| && MatchupOf(pool, opponents[k]).Err? &&
        MatchupRows(pool, opponents).error == MatchupOf(pool, opponents[k]).error;
      MatchupOfFails(pool, opponents[k]);
    }
  }

  /** A successful analysis is the three tables built from the opponents' records. */
  lemma {:induction false} AnalysisUnfold(roster: seq<Champion>, pool: seq<Champion>, n: nat)
    requires Analysis(roster, pool, n).Ok?
    ensures pool != [] && SameRole(pool, pool[0].role)
    ensures var opponents := LaneOpponents(roster, pool[0].role);
      MatchupRows(pool, opponents).Ok? &&
      var ms := MatchupRows(pool, opponents).value;
      ms != [] && SumOf(ms, PickRateOf) > 0.0 &&
      Analysis(roster, pool, n).value == Report(
        SortBy(PoolResults(MatchupTable(ms), pool, roster, n), PoolKey()),
        MatchupTable(ms),
        SortBy(Candidates(MatchupTable(ms), opponents, pool, roster, n), CandidateKey()))
  {
    MatchupPickRatesPositive(pool, roster, pool[0].role);
  }

  /** Every recorded match-up is the record `MatchupOf` gives for one of `opponents`. */
  lemma {:induction false} RecordsOrigin(pool: seq<Champion>, opponents: seq<Champion>)
    requires MatchupRows(pool, opponents).Ok?
    ensures var ms := MatchupRows(pool, opponents).value;
      |ms| == |opponents| &&
      forall m :: m in ms ==> m.opponent in opponents && MatchupOf(pool, m.opponent) == Ok(m)
  {
    var ms := MatchupRows(pool, opponents).value;
    MatchupRowsPointwise(pool, opponents);
    forall m | m in ms ensures m.opponent in opponents && MatchupOf(pool, m.opponent) == Ok(m) {
      var i :| 0 <= i < |ms| && ms[i] == m;
      assert opponents[i] in opponents;
      MatchupOfProperties(pool, opponents[i]);
    }
  }

  /** Every row of the table holds one of the records it was built from. */
  lemma {:induction false} TableRowsFromRecords(ms: seq<Matchup>)
    requires SumOf(ms, PickRateOf) > 0.0
    ensures |MatchupTable(ms)| == |ms|
    ensures forall r :: r in MatchupTable(ms) ==> r.matchup in ms
  {
    var impact := ImpactRows(ms);
    MatchupTableRows(ms);
    forall r | r in MatchupTable(ms) ensures r.matchup in ms {
      var i :| 0 <= i < |impact| && impact[i] == r;
      assert ms[i] in ms;
    }
  }

  /** The table built from the records of `opponents`: one row per opponent, holding
      that opponent's record; positive shares summing to 1; best rates never below
      second-best ones; best counter-picks from the pool. */
  lemma {:induction false} TableProperties(pool: seq<Champion>, opponents: seq<Champion>)
    requires MatchupRows(pool, opponents).Ok?
    requires var ms := MatchupRows(pool, opponents).value;
      SumOf(ms, PickRateOf) > 0.0 && forall i :: 0 <= i < |ms| ==> ms[i].pickRate > 0.0
    ensures var rows := MatchupTable(MatchupRows(pool, opponents).value);
      |rows| == |opponents| &&
      SumOf(rows, ShareOf) == 1.0 &&
      Wellformed(rows) &&
      forall r :: r in rows ==>
        r.share > 0.0 && r.matchup.opponent in opponents && MatchupOf(pool, r.matchup.opponent) == Ok(r.matchup) &&
        r.matchup.best in pool
  {
    var ms := MatchupRows(pool, opponents).value;
    var rows := MatchupTable(ms);
    RecordsOrigin(pool, opponents);
    TableRowsFromRecords(ms);
    MatchupTableSharesSumToOne(ms);
    MatchupTableSharesPositive(ms);
    forall r | r in rows ensures r.matchup.best in pool &&
      (r.matchup.bestWinRate.Some? && r.matchup.secondWinRate.Some? ==>
         r.matchup.bestWinRate.value >= r.matchup.secondWinRate.value)
    {
      MatchupOfProperties(pool, r.matchup.opponent);
    }
    assert Wellformed(rows) by {
      forall i | 0 <= i < |rows| ensures rows[i] in rows {
      }
    }
  }

  /** The match-up table of a successful analysis: one row per valid opponent,
      holding that opponent's record, ordered by impact; the opponent shares are
      positive and sum to 1, and every best counter-pick is a pool champion. */
  lemma {:induction false} AnalysisMatchups(roster: seq<Champion>, pool: seq<Champion>, n: nat)
    requires Analysis(roster, pool, n).Ok?
    ensures pool != []
    ensures var rows := Analysis(roster, pool, n).value.matchups;
      var opponents := LaneOpponents(roster, pool[0].role);
      |rows| == |opponents| &&
      SortedBy(rows, ImpactKey()) &&
      SumOf(rows, ShareOf) == 1.0 &&
      Wellformed(rows) &&
      forall r :: r in rows ==>
        r.share > 0.0 && r.matchup.opponent in opponents && MatchupOf(pool, r.matchup.opponent) == Ok(r.matchup) &&
        r.matchup.best in pool
  {
    AnalysisUnfold(roster, pool, n);
    MatchupPickRatesPositive(pool, roster, pool[0].role);
    TableProperties(pool, LaneOpponents(roster, pool[0].role));
  }

  /** The pool table, once sorted, still holds each pool champion once with its
      figures, and its counter-pick rates add up as before. */
  lemma SortedPoolResults(rows: seq<Row>, pool: seq<Champion>, roster: seq<Champion>, n: nat)
    ensures var r := SortBy(PoolResults(rows, pool, roster, n), PoolKey());
      SortedBy(r, PoolKey()) && IsDict(r) &&
      (forall c :: c in Keys(r) <==> c in pool) &&
      (forall e :: e in r ==> e.1 == PoolRowOf(rows, e.0, roster, n)) &&
      SumOf(Keys(r), CounterpickRates(rows)) == SumOf(Dedup(pool), CounterpickRates(rows))
  {
    SortedPoolShape(rows, pool, roster, n);
    SortedPoolSum(rows, pool, roster, n);
  }

  lemma SortedPoolShape(rows: seq<Row>, pool: seq<Champion>, roster: seq<Champion>, n: nat)
    ensures var r := SortBy(PoolResults(rows, pool, roster, n), PoolKey());
      IsDict(r) && (forall c :: c in Keys(r) <==> c in pool) &&
      (forall e :: e in r ==> e.1 == PoolRowOf(rows, e.0, roster, n))
  {
    SortedTableShape(pool, PoolResults(rows, pool, roster, n), PoolRowFor(rows, roster, n));
  }

  /** The same for any table with those keys whose rows are a function of the champion. */
  lemma SortedTableShape(pool: seq<Champion>, t: seq<(Champion, PoolRow)>, f: Champion -> PoolRow)
    requires Keys(t) == Dedup(pool)
    requires forall i :: 0 <= i < |t| ==> t[i].1 == f(t[i].0)
    ensures var r := SortBy(t, PoolKey());
      IsDict(r) && (forall c :: c in Keys(r) <==> c in pool) &&
      (forall e :: e in r ==> e.1 == f(e.0))
  {
    var r := SortBy(t, PoolKey());
    ReorderedEntries(t, r);
    forall e | e in r ensures e.1 == f(e.0) {
      var i :| 0 <= i < |t| && t[i] == e;
    }
    DedupMembers(pool);
    forall c ensures c in Keys(r) <==> c in pool {
      assert c in Keys(r) <==> c in Keys(t);
    }
  }

  lemma SortedPoolSum(rows: seq<Row>, pool: seq<Champion>, roster: seq<Champion>, n: nat)
    ensures SumOf(Keys(SortBy(PoolResults(rows, pool, roster, n), PoolKey())), CounterpickRates(rows)) ==
      SumOf(Dedup(pool), CounterpickRates(rows))
  {
    var t := PoolResults(rows, pool, roster, n);
    KeysSumPermutation(t, SortBy(t, PoolKey()), CounterpickRates(rows));
  }

  /** The pool table of a successful analysis: each distinct pool champion once,
      ordered by marginal improvement, with the figures roster.py:270-329 computes
      for it from the match-up table; every opponent counts towards exactly one pool
      champion, so the counter-pick rates sum to 1. */
  lemma {:induction false} AnalysisPool(roster: seq<Champion>, pool: seq<Champion>, n: nat)
    requires Analysis(roster, pool, n).Ok?
    ensures var rep := Analysis(roster, pool, n).value;
      SortedBy(rep.pool, PoolKey()) && IsDict(rep.pool) &&
      (forall c :: c in Keys(rep.pool) <==> c in pool) &&
      (forall e :: e in rep.pool ==> e.1 == PoolRowOf(rep.matchups, e.0, roster, n)) &&
      SumOf(Keys(rep.pool), CounterpickRates(rep.matchups)) == 1.0
  {
    AnalysisUnfold(roster, pool, n);
    MatchupPickRatesPositive(pool, roster, pool[0].role);
    var opponents := LaneOpponents(roster, pool[0].role);
    var rows := MatchupTable(MatchupRows(pool, opponents).value);
    TableProperties(pool, opponents);
    SortedPoolResults(rows, pool, roster, n);
    DedupMembers(pool);
    forall i | 0 <= i < |rows| ensures rows[i].matchup.best in Dedup(pool) {
      assert rows[i] in rows;
    }
    CounterpickRatesPartition(Dedup(pool), rows);
  }

  /** With every opponent picked, a candidate is counter-picked exactly when it beats
      the best counter-pick against some opponent. */
  lemma {:induction false} CandidateCounterpicked(rows: seq<Row>, cand: Champion, roster: seq<Champion>, n: nat)
    requires forall r :: r in rows ==> r.share > 0.0
    ensures CandidateRowOf(rows, cand, roster, n).counterpickRate > 0.0 <==> exists r :: r in rows && Improves(cand, r)
  {
    assert forall i :: 0 <= i < |rows| ==> rows[i] in rows;
    CandidateFiguresProperties(rows, cand, BlindValue(cand, roster, n, None), BanTable(cand, roster, n));
    if exists r :: r in rows && Improves(cand, r) {
      var r :| r in rows && Improves(cand, r);
      var i :| 0 <= i < |rows| && rows[i] == r;
    }
  }

  /** The candidate table, once sorted, still holds each candidate once with its
      figures. */
  lemma {:induction false} SortedCandidates(
    rows: seq<Row>, opponents: seq<Champion>, pool: seq<Champion>, roster: seq<Champion>, n: nat)
    ensures var r := SortBy(Candidates(rows, opponents, pool, roster, n), CandidateKey());
      SortedBy(r, CandidateKey()) && IsDict(r) &&
      (forall c :: c in Keys(r) <==> c in opponents && c !in pool) &&
      (forall e :: e in r ==> e.1 == CandidateRowOf(rows, e.0, roster, n))
  {
    var t := Candidates(rows, opponents, pool, roster, n);
    SortedDict(t, CandidateKey(), CandidateRowFor(rows, roster, n));
  }

  /** The candidate table of a successful analysis: every valid champion of the lane
      outside the pool, once, most often the better counter-pick first, with the
      figures roster.py:340-398 computes for it; it is a better counter-pick
      somewhere exactly when its counter-pick rate is positive. */
  lemma {:induction false} AnalysisCandidates(roster: seq<Champion>, pool: seq<Champion>, n: nat)
    requires Analysis(roster, pool, n).Ok?
    ensures pool != []
    ensures var rep := Analysis(roster, pool, n).value;
      var opponents := LaneOpponents(roster, pool[0].role);
      SortedBy(rep.candidates, CandidateKey()) && IsDict(rep.candidates) &&
      (forall c :: c in Keys(rep.candidates) <==> c in opponents && c !in pool) &&
      forall e :: e in rep.candidates ==>
        e.1 == CandidateRowOf(rep.matchups, e.0, roster, n) &&
        (e.1.counterpickRate > 0.0 <==> exists r :: r in rep.matchups && Improves(e.0, r))
  {
    AnalysisUnfold(roster, pool, n);
    MatchupPickRatesPositive(pool, roster, pool[0].role);
    var opponents := LaneOpponents(roster, pool[0].role);
    var rows := MatchupTable(MatchupRows(pool, opponents).value);
    TableProperties(pool, opponents);
    SortedCandidates(rows, opponents, pool, roster, n);
    var cands := SortBy(Candidates(rows, opponents, pool, roster, n), CandidateKey());
    forall e | e in cands
      ensures e.1.counterpickRate > 0.0 <==> exists r :: r in rows && Improves(e.0, r)
    {
      CandidateCounterpicked(rows, e.0, roster, n);
    }
  }

  /** `Roster.analyze_champion_pool` as the code is meant to run, with the loops of
      roster.py:202-254, 270-329 and 338-398. */
  method AnalyzeChampionPool(roster: Roster, pool: seq<Champion>, n: nat) returns (r: Result<Report>)
    requires roster.Valid()
    ensures r == Analysis(roster.Champions(), pool, n)
  {
    if pool == [] {
      return Err(IndexError);
    }
    var role := pool[0].role;
    if !SameRole(pool, role) {
      return Err(AssertionError);
    }
    var champions := roster.Champions();
    var opponents := LaneOpponents(champions, role);
    var matchups := CollectMatchups(pool, opponents);
    if matchups.Err? {
      return Err(matchups.error);
    }
    var ms := matchups.value;
    MatchupPickRatesPositive(pool, champions, role);
    if ms == [] {
      return Err(KeyError("Opponent Pick Rate"));
    }
    var rows := MatchupTable(ms);
    var results := CollectPoolResults(rows, pool, champions, n);
    var candidates := CollectCandidates(rows, opponents, pool, champions, n);
    return Ok(Report(SortBy(results, PoolKey()), rows, SortBy(candidates, CandidateKey())));
  }

  // ---------------------------------------------------------------------------
  // roster.py:213 and 217 as written
  // ---------------------------------------------------------------------------

  /** The code as written: after ranking the first opponent's counter-picks it reads
      `opponent_champion.normalized_matchup_N`, an attribute no Champion has, so once
      the pool and the lane have passed their checks the call always raises. */
  function AnalysisAsWritten(roster: seq<Champion>, pool: seq<Champion>, n: nat): Result<Report> {
    if pool == [] then Err(IndexError)
    else if !SameRole(pool, pool[0].role) then Err(AssertionError)
    else
      var opponents := LaneOpponents(roster, pool[0].role);
      if opponents == [] then Err(KeyError("Opponent Pick Rate"))
      else if Ranked(pool, opponents[0]) == [] then Err(IndexError)
      else Err(AttributeError("normalized_matchup_N"))
  }

  /** As written, no input gets a report, and every input for which the intended
      analysis reports raises AttributeError instead. */
  lemma {:induction false} AsWrittenNeverReports(roster: seq<Champion>, pool: seq<Champion>, n: nat)
    ensures AnalysisAsWritten(roster, pool, n).Err?
    ensures Analysis(roster, pool, n).Ok? ==>
      AnalysisAsWritten(roster, pool, n) == Err(AttributeError("normalized_matchup_N"))
  {
    if Analysis(roster, pool, n).Ok? {
      LaneOutcome(roster, pool, n);
      var opponents := LaneOpponents(roster, pool[0].role);
      assert MatchupOf(pool, opponents[0]).Ok?;
    }
  }

  /** Two different valid champions of one lane. */
  predicate ValidPair(pool: seq<Champion>) {
    |pool| == 2 && pool[0] != pool[1] && pool[0].role == pool[1].role &&
    IsValid(pool[0], Some(pool[0].role), DefaultMinRoleAssignment, DefaultMinPickRate) &&
    IsValid(pool[1], Some(pool[0].role), DefaultMinRoleAssignment, DefaultMinPickRate)
  }

  /** Both champions of such a lane are valid opponents. */
  lemma {:induction false} PairOpponents(pool: seq<Champion>)
    requires ValidPair(pool)
    ensures LaneOpponents(pool, pool[0].role) == pool
    ensures SameRole(pool, pool[0].role)
  {
    var a, b := pool[0], pool[1];
    ValidChampionsAppend([a], [b], Some(a.role), DefaultMinRoleAssignment, DefaultMinPickRate);
    ValidChampionsSingle(a, Some(a.role), DefaultMinRoleAssignment, DefaultMinPickRate);
    ValidChampionsSingle(b, Some(a.role), DefaultMinRoleAssignment, DefaultMinPickRate);
    assert pool == [a] + [b];
  }

  /** The counter-pick pool against one champion of a pair is the other. */
  lemma {:induction false} PairCounterpicks(pool: seq<Champion>)
    requires |pool| == 2 && pool[0] != pool[1]
    ensures CounterpickPool(pool, pool[0]) == [pool[1]]
    ensures CounterpickPool(pool, pool[1]) == [pool[0]]
  {
    var a, b := pool[0], pool[1];
    assert pool == [a] + [b];
    assert [a] == [] + [a];
    FilterAppend([], a, (c: Champion) => c != a);
    FilterAppend([a], b, (c: Champion) => c != a);
    FilterAppend([], a, (c: Champion) => c != b);
    FilterAppend([a], b, (c: Champion) => c != b);
  }

  /** Against either of two different champions, the other is the one counter-pick. */
  lemma {:induction false} PairMatchups(pool: seq<Champion>)
    requires |pool| == 2 && pool[0] != pool[1]
    ensures MatchupOf(pool, pool[0]).Ok? && MatchupOf(pool, pool[1]).Ok?
  {
    PairCounterpicks(pool);
    MatchupOfFails(pool, pool[0]);
    MatchupOfFails(pool, pool[1]);
    assert pool[0] in pool && pool[1] in pool;
  }

  /** Two different valid champions of one lane, forming both the pool and the
      roster, each the other's only counter-pick: the intended analysis reports, the
      code as written raises AttributeError. */
  lemma {:induction false} TwoChampionPool(pool: seq<Champion>, n: nat)
    requires ValidPair(pool)
    ensures Analysis(pool, pool, n).Ok?
    ensures AnalysisAsWritten(pool, pool, n) == Err(AttributeError("normalized_matchup_N"))
  {
    PairOpponents(pool);
    PairMatchups(pool);
    var opponents := LaneOpponents(pool, pool[0].role);
    assert forall i :: 0 <= i < |opponents| ==> MatchupOf(pool, opponents[i]).Ok? by {
      forall i | 0 <= i < |opponents| ensures MatchupOf(pool, opponents[i]).Ok? {
        assert i == 0 || i == 1;
      }
    }
    AnalysisOutcome(pool, pool, n);
    AsWrittenNeverReports(pool, pool, n);
  }

  /** A Top champion picked 10% of the time and played in its lane 90% of the time,
      with no match-up records. */
  function SampleChampion(id: int): Champion {
    var none: map<int, MatchupRecord> := map[];
    Champion(id, Top, 100, 50.0, 10.0, 50.0, 90.0, EnemyTables(none, none, none, none, none))
  }

  /** Two such champions make a pool `TwoChampionPool` applies to. */
  lemma SampleChampionsQualify()
    ensures ValidPair([SampleChampion(1), SampleChampion(2)])
  {
  }
}
