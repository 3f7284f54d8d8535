/** A champion in one role and the metrics derived from its statistics record
    (lolalytics_scraper/champion.py:30-131). The blind-pick simulation is in
    module BlindPick. A champion never changes once built, so it is a value;
    its back-reference to the roster is modelled by passing the roster's
    `champions` tuple to the metrics that need it. */
module ChampionData {
  import opened Util
  import opened Snapshot

  /** The five `enemy_<role>` dicts of a formatted record. */
  datatype EnemyTables = EnemyTables(
    top: map<int, MatchupRecord>,
    jungle: map<int, MatchupRecord>,
    middle: map<int, MatchupRecord>,
    bottom: map<int, MatchupRecord>,
    support: map<int, MatchupRecord>)
  {
    function Get(role: Role): map<int, MatchupRecord> {
      match role
      case Top => top
      case Jungle => jungle
      case Middle => middle
      case Bottom => bottom
      case Support => support
    }
  }

  /** A champion-role with the fields its accessors read: `header.lane`,
      `header.n`, `header.wr`, `header.pr`, `avgWinRate`, `nav.lanes[lane]`
      and the formatted `enemy_<role>` dicts. */
  datatype Champion = Champion(
    id: int,
    role: Role,
    n: nat,
    wr: real,
    pr: real,
    avgWinRate: real,
    laneShare: real,
    enemies: EnemyTables)

  function RoleName(role: Role): string {
    match role
    case Top => "top"
    case Jungle => "jungle"
    case Middle => "middle"
    case Bottom => "bottom"
    case Support => "support"
  }

  // ---------------------------------------------------------------------------
  // Construction: `_format_lolaytic_data` and `__init__`
  // ---------------------------------------------------------------------------

  /** One step of champion.py:39-43: a field that is not yet a dict is expanded,
      a dict is left as it is. */
  function FormatField(f: EnemyField): Result<EnemyField> {
    match f
    case Records(_) => Ok(f)
    case Tuples(rows) =>
      var table :- ExpandTuples(rows);
      Ok(Records(table))
  }

  /** The loop of champion.py:38-43 run over `roles`; a missing field raises KeyError. */
  function FormatRoles(enemies: map<Role, EnemyField>, roles: seq<Role>): Result<map<Role, EnemyField>> {
    if roles == [] then Ok(enemies)
    else
      var done :- FormatRoles(enemies, roles[..|roles| - 1]);
      var role := roles[|roles| - 1];
      if role !in done then Err(KeyError("enemy_" + RoleName(role)))
      else
        var f :- FormatField(done[role]);
        Ok(done[role := f])
  }

  /** The record after `_format_lolaytic_data`. */
  function FormattedData(data: Blob): Result<Blob> {
    var enemies :- FormatRoles(data.enemies, Roles);
    Ok(data.(enemies := enemies))
  }

  /** An error in a prefix of the loop is the error of the whole loop. */
  lemma {:induction false} FormatRolesErrorPersists(enemies: map<Role, EnemyField>, roles: seq<Role>, i: nat)
    requires i <= |roles| && FormatRoles(enemies, roles[..i]).Err?
    ensures FormatRoles(enemies, roles) == FormatRoles(enemies, roles[..i])
  {
    if i < |roles| {
      assert roles[..|roles| - 1][..i] == roles[..i];
      FormatRolesErrorPersists(enemies, roles[..|roles| - 1], i);
    } else {
      assert roles[..i] == roles;
    }
  }

  /** champion.py:37-43, rewriting the record's `enemy_<role>` fields one role at a time. */
  method FormatLolalyticData(data: Blob) returns (r: Result<Blob>)
    ensures r == FormattedData(data)
  {
    var enemies := data.enemies;
    for i := 0 to |Roles|
      invariant FormatRoles(data.enemies, Roles[..i]) == Ok(enemies)
    {
      var role := Roles[i];
      ghost var before := enemies;
      assert Roles[..i + 1][..i] == Roles[..i] && Roles[..i + 1][i] == role;
      if role !in enemies {
        FormatRolesErrorPersists(data.enemies, Roles, i + 1);
        return Err(KeyError("enemy_" + RoleName(role)));
      }
      var field := enemies[role];
      if field.Tuples? {
        var table := ExpandTuples(field.rows);
        if table.Err? {
          FormatRolesErrorPersists(data.enemies, Roles, i + 1);
          return Err(table.error);
        }
        assert FormatField(field) == Ok(Records(table.value));
        enemies := enemies[role := Records(table.value)];
      } else {
        assert FormatField(field) == Ok(field);
        assert before[role := field] == before;
      }
    }
    assert Roles[..|Roles|] == Roles;
    return Ok(data.(enemies := enemies));
  }

  /** Field by field: over distinct roles the loop succeeds exactly when every role
      is present and expands, and then each role's field is its formatted self while
      every other field is untouched. */
  lemma {:induction false} FormatRolesPointwise(enemies: map<Role, EnemyField>, roles: seq<Role>)
    requires Distinct(roles)
    ensures FormatRoles(enemies, roles).Ok? <==>
      forall k :: 0 <= k < |roles| ==> roles[k] in enemies && FormatField(enemies[roles[k]]).Ok?
    ensures FormatRoles(enemies, roles).Ok? ==>
      var out := FormatRoles(enemies, roles).value;
      out.Keys == enemies.Keys &&
      (forall role :: role in enemies && role !in roles ==> out[role] == enemies[role]) &&
      (forall role :: role in enemies && role in roles ==> out[role] == FormatField(enemies[role]).value)
  {
    if roles != [] {
      var init := roles[..|roles| - 1];
      var role := roles[|roles| - 1];
      assert Distinct(init);
      assert role !in init;
      assert forall k :: 0 <= k < |init| ==> init[k] == roles[k];
      FormatRolesPointwise(enemies, init);
    }
  }

  /** A formatted record has every `enemy_<role>` field, each a dict. */
  predicate AllFormatted(enemies: map<Role, EnemyField>) {
    forall role :: role in enemies.Keys ==> enemies[role].Records?
  }

  /** champion.py:37-43 as a whole: it fails exactly when a field is missing or a raw
      tuple has zero matches; otherwise raw fields become their expansion, dict fields
      stay as they were, and all five fields are dicts afterwards. */
  lemma FormattedDataShape(data: Blob)
    ensures FormattedData(data).Ok? <==>
      forall role :: role in Roles ==> role in data.enemies && FormatField(data.enemies[role]).Ok?
    ensures FormattedData(data).Ok? ==>
      var out := FormattedData(data).value;
      out == data.(enemies := out.enemies) &&
      (forall role :: role in Roles ==> role in out.enemies && out.enemies[role].Records?) &&
      (forall role :: role in Roles && data.enemies[role].Records? ==> out.enemies[role] == data.enemies[role]) &&
      (forall role :: role in Roles && data.enemies[role].Tuples? ==>
         out.enemies[role] == Records(ExpandTuples(data.enemies[role].rows).value))
  {
    FormatRolesPointwise(data.enemies, Roles);
    forall role ensures role in Roles {
      AllRoles(role);
    }
    var allOk := forall role :: role in Roles ==> role in data.enemies && FormatField(data.enemies[role]).Ok?;
    if allOk {
      forall k | 0 <= k < |Roles| ensures Roles[k] in data.enemies && FormatField(data.enemies[Roles[k]]).Ok? {
        assert Roles[k] in Roles;
      }
      var out := FormattedData(data).value;
      assert out.enemies == FormatRoles(data.enemies, Roles).value;
    } else {
      var role :| role in Roles && !(role in data.enemies && FormatField(data.enemies[role]).Ok?);
      var k :| 0 <= k < |Roles| && Roles[k] == role;
      assert FormatRoles(data.enemies, Roles).Err?;
    }
  }

  /** A second formatting changes nothing: fields that are already dicts are left untouched. */
  lemma FormatIdempotent(data: Blob)
    requires FormattedData(data).Ok?
    ensures FormattedData(FormattedData(data).value) == FormattedData(data)
  {
    var once := FormattedData(data).value;
    FormattedDataShape(data);
    FormattedDataShape(once);
    FormatRolesPointwise(once.enemies, Roles);
    var twice := FormattedData(once).value;
    assert twice.enemies == once.enemies;
  }

  /** The five tables of a formatted record. */
  function TablesOf(enemies: map<Role, EnemyField>): EnemyTables
    requires forall role :: role in Roles ==> role in enemies && enemies[role].Records?
  {
    EnemyTables(enemies[Top].table, enemies[Jungle].table, enemies[Middle].table,
                enemies[Bottom].table, enemies[Support].table)
  }

  /** `Champion(id, data, roster)`: formats the record and reads the fields the
      accessors use. The source reads `avgWinRate` and `nav.lanes[lane]` only when an
      accessor first needs them; here a record missing them is rejected up front. */
  function ChampionOf(id: int, data: Blob): Result<Champion> {
    var formatted :- FormattedData(data);
    if formatted.header.None? then Err(KeyError("header"))
    else if formatted.avgWinRate.None? then Err(KeyError("avgWinRate"))
    else
      var h := formatted.header.value;
      if h.lane !in formatted.lanes then Err(KeyError(RoleName(h.lane)))
      else
        FormattedDataShape(data);
        Ok(Champion(id, h.lane, h.n, h.wr, h.pr, formatted.avgWinRate.value, formatted.lanes[h.lane],
                    TablesOf(formatted.enemies)))
  }

  /** Construction succeeds exactly when formatting does and the header, `avgWinRate`
      and the header lane's share are present; the Champion then carries the given
      id, the header's lane, sample size and rates, and the formatted match-up tables. */
  lemma ChampionOfFields(id: int, data: Blob)
    ensures ChampionOf(id, data).Ok? <==>
      FormattedData(data).Ok? && data.header.Some? && data.avgWinRate.Some? && data.header.value.lane in data.lanes
    ensures ChampionOf(id, data).Ok? ==>
      var c := ChampionOf(id, data).value;
      var h := data.header.value;
      c.id == id && c.role == h.lane && c.n == h.n && c.wr == h.wr && c.pr == h.pr &&
      c.avgWinRate == data.avgWinRate.value && c.laneShare == data.lanes[h.lane] &&
      forall role :: role in Roles ==>
        role in FormattedData(data).value.enemies &&
        Records(c.enemies.Get(role)) == FormattedData(data).value.enemies[role]
  {
    FormattedDataShape(data);
  }

  /** champion.py:31-35 followed by the read of `champion.role` in roster.py:31. */
  method NewChampion(id: int, data: Blob) returns (r: Result<Champion>)
    ensures r == ChampionOf(id, data)
  {
    FormattedDataShape(data);
    var formatted := FormatLolalyticData(data);
    if formatted.Err? {
      return Err(formatted.error);
    }
    var d := formatted.value;
    if d.header.None? {
      return Err(KeyError("header"));
    }
    if d.avgWinRate.None? {
      return Err(KeyError("avgWinRate"));
    }
    var h := d.header.value;
    if h.lane !in d.lanes {
      return Err(KeyError(RoleName(h.lane)));
    }
    return Ok(Champion(id, h.lane, h.n, h.wr, h.pr, d.avgWinRate.value, d.lanes[h.lane], TablesOf(d.enemies)));
  }

  // ---------------------------------------------------------------------------
  // Accessors (champion.py:57-73)
  // ---------------------------------------------------------------------------

  function RawWinRate(c: Champion): real {
    c.wr / 100.0
  }

  /** The raw win rate with the tier's baseline shifted to one half. */
  function RankNormalizedWinRate(c: Champion): (r: real)
    ensures c.avgWinRate == 50.0 ==> r == RawWinRate(c)
    ensures c.wr == c.avgWinRate ==> r == 0.5
    ensures r - 0.5 == RawWinRate(c) - c.avgWinRate / 100.0
  {
    RawWinRate(c) - (c.avgWinRate / 100.0 - 0.5)
  }

  /** How often this champion-role is picked. */
  function PickRate(c: Champion): real {
    c.pr / 100.0
  }

  /** How often, when this champion is picked, it plays this role. */
  function RoleAssignment(c: Champion): real {
    c.laneShare / 100.0
  }

  /** Two champions of one snapshot share its average win rate, so rank normalisation
      keeps the difference between their raw win rates. */
  lemma RankNormalizationKeepsGaps(a: Champion, b: Champion)
    requires a.avgWinRate == b.avgWinRate
    ensures RankNormalizedWinRate(a) - RankNormalizedWinRate(b) == RawWinRate(a) - RawWinRate(b)
  {
  }

  // ---------------------------------------------------------------------------
  // Match-up metrics (champion.py:81-131)
  // ---------------------------------------------------------------------------

  /** `enemy_<opponent.role>[opponent.id]`, if recorded. */
  function MatchupWith(c: Champion, opponent: Champion): Option<MatchupRecord> {
    var table := c.enemies.Get(opponent.role);
    if opponent.id in table then Some(table[opponent.id]) else None
  }

  /** The recorded win rate against `opponent`; absent (NaN) when there is no entry. */
  function RawMatchupWinRate(c: Champion, opponent: Champion): (r: Option<real>)
    ensures r.Some? <==> opponent.id in c.enemies.Get(opponent.role)
    ensures r.Some? ==> r.value == c.enemies.Get(opponent.role)[opponent.id].winRate
  {
    var m := MatchupWith(c, opponent);
    if m.Some? then Some(m.value.winRate) else None
  }

  /** The average of the two viewpoints `raw(c, o)` and `1 - raw(o, c)`; absent if either is. */
  function NormalizedMatchupWinRate(c: Champion, opponent: Champion): (r: Option<real>)
    ensures r.Some? <==> RawMatchupWinRate(c, opponent).Some? && RawMatchupWinRate(opponent, c).Some?
  {
    var mine := RawMatchupWinRate(c, opponent);
    var theirs := RawMatchupWinRate(opponent, c);
    if mine.Some? && theirs.Some? then Some((mine.value + (1.0 - theirs.value)) / 2.0) else None
  }

  /** Seen from both sides, the normalized match-up rates are complementary. */
  lemma NormalizedComplement(a: Champion, b: Champion)
    requires NormalizedMatchupWinRate(a, b).Some?
    ensures NormalizedMatchupWinRate(b, a).Some?
    ensures NormalizedMatchupWinRate(a, b).value + NormalizedMatchupWinRate(b, a).value == 1.0
  {
  }

  /** Normalizing keeps probabilities probabilities. */
  lemma NormalizedInUnit(a: Champion, b: Champion)
    requires NormalizedMatchupWinRate(a, b).Some?
    requires 0.0 <= RawMatchupWinRate(a, b).value <= 1.0 && 0.0 <= RawMatchupWinRate(b, a).value <= 1.0
    ensures 0.0 <= NormalizedMatchupWinRate(a, b).value <= 1.0
  {
  }

  /** The fraction of this champion's `n` games played against `opponent`; absent when
      there is no entry. Python raises ZeroDivisionError when `n` is 0. */
  function MatchupPickRate(c: Champion, opponent: Champion): (r: Option<real>)
    requires c.n > 0
    ensures r.Some? <==> MatchupWith(c, opponent).Some?
    ensures r.Some? ==> r.value * (c.n as real) == MatchupWith(c, opponent).value.matches as real
  {
    var m := MatchupWith(c, opponent);
    if m.Some? then Some(m.value.matches as real / c.n as real) else None
  }

  /** `(rank_normalized - normalized * m) / (1 - m)` with `m` the match-up pick rate:
      the win rate the champion would have if this match-up were taken out of its
      games. Absent when either input is absent, and also when `m` is 1, where numpy's
      division by zero yields no finite value. */
  function WinRateWithoutOpponent(c: Champion, opponent: Champion): (r: Option<real>)
    requires c.n > 0
    ensures r.Some? <==>
      NormalizedMatchupWinRate(c, opponent).Some? && MatchupPickRate(c, opponent).Some? &&
      MatchupPickRate(c, opponent).value != 1.0
    ensures r.Some? ==>
      var m := MatchupPickRate(c, opponent).value;
      m * NormalizedMatchupWinRate(c, opponent).value + (1.0 - m) * r.value == RankNormalizedWinRate(c)
  {
    var normalized := NormalizedMatchupWinRate(c, opponent);
    var m := MatchupPickRate(c, opponent);
    if normalized.Some? && m.Some? && m.value != 1.0 then
      var w := (RankNormalizedWinRate(c) - normalized.value * m.value) / (1.0 - m.value);
      assert (1.0 - m.value) * w == RankNormalizedWinRate(c) - normalized.value * m.value;
      Some(w)
    else None
  }

  /** `Roster.pick_rates` (roster.py:55-57), in roster order. */
  function PickRates(roster: seq<Champion>): (r: seq<real>)
    ensures |r| == |roster|
    ensures forall i :: 0 <= i < |roster| ==> r[i] == PickRate(roster[i])
  {
    if roster == [] then [] else PickRates(roster[..|roster| - 1]) + [PickRate(roster[|roster| - 1])]
  }

  /** `normalized_matchup_win_rates * roster_pick_rate`, element by element (absent stays absent). */
  function WeightedMatchups(c: Champion, roster: seq<Champion>): seq<Option<real>> {
    if roster == [] then [] else WeightedMatchups(c, roster[..|roster| - 1]) + [WeightedMatchup(c, roster[|roster| - 1])]
  }

  function WeightedMatchup(c: Champion, o: Champion): Option<real> {
    var w := NormalizedMatchupWinRate(c, o);
    if w.Some? then Some(w.value * PickRate(o)) else None
  }

  /** champion.py:117-121: the pick-rate weighted average of the normalized match-up
      rates against the whole roster. The numerator skips absent terms (pandas'
      `sum`); a zero pick-rate total gives no finite value. */
  function MatchupNormalizedWinRate(c: Champion, roster: seq<Champion>): (r: Option<real>)
    ensures r.Some? <==> Sum(PickRates(roster)) != 0.0
  {
    var total := Sum(PickRates(roster));
    if total == 0.0 then None else Some(SumDefined(WeightedMatchups(c, roster)) / total)
  }

  /** With non-negative pick rates and normalized rates in [0, 1], the weighted sum of
      match-ups lies between 0 and the pick-rate total. */
  lemma {:induction false} WeightedMatchupsBounds(c: Champion, roster: seq<Champion>)
    requires forall o :: o in roster ==> 0.0 <= PickRate(o)
    requires forall o :: o in roster && NormalizedMatchupWinRate(c, o).Some? ==>
      0.0 <= NormalizedMatchupWinRate(c, o).value <= 1.0
    ensures 0.0 <= SumDefined(WeightedMatchups(c, roster)) <= Sum(PickRates(roster))
  {
    if roster != [] {
      var init := roster[..|roster| - 1];
      var o := roster[|roster| - 1];
      assert o in roster;
      WeightedMatchupsBounds(c, init);
      assert PickRates(roster) == PickRates(init) + [PickRate(o)];
      WeightedMatchupBound(c, o);
    }
  }

  lemma WeightedMatchupBound(c: Champion, o: Champion)
    requires 0.0 <= PickRate(o)
    requires NormalizedMatchupWinRate(c, o).Some? ==> 0.0 <= NormalizedMatchupWinRate(c, o).value <= 1.0
    ensures 0.0 <= WeightedMatchup(c, o).GetOr(0.0) <= PickRate(o)
  {
    var w := NormalizedMatchupWinRate(c, o);
    if w.Some? {
      MulBetween(w.value, PickRate(o));
    }
  }

  /** The match-up normalized win rate is a probability whenever its inputs are. */
  lemma MatchupNormalizedInUnit(c: Champion, roster: seq<Champion>)
    requires Sum(PickRates(roster)) != 0.0
    requires forall o :: o in roster ==> 0.0 <= PickRate(o)
    requires forall o :: o in roster && NormalizedMatchupWinRate(c, o).Some? ==>
      0.0 <= NormalizedMatchupWinRate(c, o).value <= 1.0
    ensures 0.0 <= MatchupNormalizedWinRate(c, roster).value <= 1.0
  {
    WeightedMatchupsBounds(c, roster);
    var total := Sum(PickRates(roster));
    var num := SumDefined(WeightedMatchups(c, roster));
    DivInUnit(num, total);
  }
}
