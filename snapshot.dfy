/** The shape of one champion-role statistics record of a snapshot, as the
    analytics provider delivers it and as the loader and the Champion read it,
    and the expansion of raw `[enemy_id, matches, wins, _]` tuples into
    match-up records (champion.py:40-43, load_data.py:163-166). */
module Snapshot {
  import opened Util

  /** The five lanes; the source names them "top", "jungle", "middle", "bottom", "support". */
  datatype Role = Top | Jungle | Middle | Bottom | Support

  /** The order in which both loops over `enemy_<role>` fields visit the roles. */
  const Roles: seq<Role> := [Top, Jungle, Middle, Bottom, Support]

  /** Every lane is visited. */
  lemma AllRoles(role: Role)
    ensures role in Roles
  {
    match role
    case Top =>
    case Jungle =>
    case Middle =>
    case Bottom =>
    case Support =>
  }

  /** One raw match-up tuple; the fourth element is carried but never read. */
  datatype RawMatchup = RawMatchup(enemyId: int, matches: nat, wins: nat, unused: int)

  /** `{"matches": m, "wins": w, "win_rate": r}` */
  datatype MatchupRecord = MatchupRecord(matches: nat, wins: nat, winRate: real)

  /** An `enemy_<role>` field: still a list of raw tuples, or already a dict of records. */
  datatype EnemyField = Tuples(rows: seq<RawMatchup>) | Records(table: map<int, MatchupRecord>)

  /** The `header` object: lane, sample size `n`, win rate `wr` and pick rate `pr` (both x100). */
  datatype Header = Header(lane: Role, n: nat, wr: real, pr: real)

  /** A champion-role statistics record. Absent JSON keys are `None` (or, for the
      `enemy_<role>` fields and `nav.lanes`, keys missing from the map). */
  datatype Blob = Blob(
    header: Option<Header>,
    n: Option<nat>,
    analysed: Option<nat>,
    pr: Option<real>,
    avgWinRate: Option<real>,
    lanes: map<Role, real>,
    enemies: map<Role, EnemyField>)

  /** A record whose win rate is its wins over its (non-zero) matches. */
  predicate Consistent(m: MatchupRecord) {
    m.matches > 0 && m.winRate == m.wins as real / m.matches as real
  }

  /** The record a raw tuple becomes. */
  function RecordOf(t: RawMatchup): MatchupRecord
    requires t.matches > 0
  {
    MatchupRecord(t.matches, t.wins, t.wins as real / t.matches as real)
  }

  /** True when no later tuple repeats the enemy id of `rows[i]` (the dict
      comprehension keeps the last tuple for each id). */
  ghost predicate LastFor(rows: seq<RawMatchup>, i: int) {
    0 <= i < |rows| && forall j :: i < j < |rows| ==> rows[j].enemyId != rows[i].enemyId
  }

  /** `{id: {"matches": m, "wins": w, "win_rate": w / m} for id, m, w, _ in rows}`.
      Python raises ZeroDivisionError on a tuple with zero matches. */
  function ExpandTuples(rows: seq<RawMatchup>): (r: Result<map<int, MatchupRecord>>)
    ensures r.Ok? <==> forall i :: 0 <= i < |rows| ==> rows[i].matches > 0
    ensures r.Err? ==> r.error == ZeroDivisionError
  {
    if rows == [] then Ok(map[])
    else
      var init := rows[..|rows| - 1];
      var t := rows[|rows| - 1];
      var prefix :- ExpandTuples(init);
      if t.matches == 0 then Err(ZeroDivisionError) else Ok(prefix[t.enemyId := RecordOf(t)])
  }

  /** The enemy ids the tuples mention. */
  function EnemyIds(rows: seq<RawMatchup>): set<int> {
    if rows == [] then {} else EnemyIds(rows[..|rows| - 1]) + {rows[|rows| - 1].enemyId}
  }

  lemma {:induction false} EnemyIdsMembers(rows: seq<RawMatchup>)
    ensures forall id :: id in EnemyIds(rows) <==> exists i :: 0 <= i < |rows| && rows[i].enemyId == id
  {
    if rows != [] {
      var init := rows[..|rows| - 1];
      EnemyIdsMembers(init);
      assert forall i :: 0 <= i < |init| ==> init[i] == rows[i];
    }
  }

  /** The expansion has one record per enemy id the tuples mention, and every
      record's win rate is its wins over its matches. */
  lemma {:induction false} ExpandTuplesKeys(rows: seq<RawMatchup>)
    requires ExpandTuples(rows).Ok?
    ensures ExpandTuples(rows).value.Keys == EnemyIds(rows)
    ensures forall id :: id in ExpandTuples(rows).value ==> Consistent(ExpandTuples(rows).value[id])
  {
    if rows != [] {
      ExpandTuplesKeys(rows[..|rows| - 1]);
      assert Consistent(RecordOf(rows[|rows| - 1]));
    }
  }

  /** Each enemy id's record is built from the last tuple carrying that id. */
  lemma {:induction false} ExpandTuplesLastWins(rows: seq<RawMatchup>, i: int)
    requires ExpandTuples(rows).Ok? && LastFor(rows, i)
    ensures rows[i].enemyId in ExpandTuples(rows).value
    ensures ExpandTuples(rows).value[rows[i].enemyId] == RecordOf(rows[i])
  {
    var init := rows[..|rows| - 1];
    if i < |init| {
      assert init[i] == rows[i];
      assert LastFor(init, i);
      ExpandTuplesLastWins(init, i);
    }
  }

  /** The unused fourth tuple element has no influence on the expansion. */
  lemma {:induction false} ExpandIgnoresUnused(rows: seq<RawMatchup>, other: seq<RawMatchup>)
    requires |rows| == |other|
    requires forall i :: 0 <= i < |rows| ==>
      rows[i].enemyId == other[i].enemyId && rows[i].matches == other[i].matches && rows[i].wins == other[i].wins
    ensures ExpandTuples(rows) == ExpandTuples(other)
  {
    if rows != [] {
      ExpandIgnoresUnused(rows[..|rows| - 1], other[..|other| - 1]);
    }
  }

  /** With wins never above matches, every expanded win rate is a probability. */
  lemma {:induction false} ExpandedRatesInUnit(rows: seq<RawMatchup>)
    requires forall i :: 0 <= i < |rows| ==> rows[i].wins <= rows[i].matches
    requires ExpandTuples(rows).Ok?
    ensures forall id :: id in ExpandTuples(rows).value ==> 0.0 <= ExpandTuples(rows).value[id].winRate <= 1.0
  {
    if rows != [] {
      var t := rows[|rows| - 1];
      ExpandedRatesInUnit(rows[..|rows| - 1]);
      assert t.wins as real <= t.matches as real;
      assert 0.0 <= RecordOf(t).winRate <= 1.0;
    }
  }
}
