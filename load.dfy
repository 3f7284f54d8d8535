/** `format_lolalytics_data` (src/lolalytics_scraper/load_data.py:155-237): the
    cached snapshots of several patches, patch -> champion id -> role -> record,
    become one snapshot, champion id -> role -> record. Every record's raw match-up
    tuples are first expanded into dicts and the records regrouped by champion and
    role; a champion-role seen in one patch keeps its record, and one seen in several
    gets a merged record: summed sample sizes, sample-weighted rates and summed
    match-up counts. */
module LoadData {
  import opened Util
  import opened Dict
  import opened Snapshot
  import opened ChampionData
  import opened RosterTable

  type Patch = string

  /** The cached patches, each a snapshot: patch -> champion id -> role -> record. */
  type RawData = seq<(Patch, Data)>

  /** `lolalytics_data`: champion id -> role -> patch -> record. */
  type Regrouped = seq<(int, seq<(Role, seq<(Patch, Blob)>)>)>

  // ---------------------------------------------------------------------------
  // Expanding the match-up tuples of one record (load_data.py:160-166)
  // ---------------------------------------------------------------------------

  /** The comprehension of load_data.py:163-166 on one field. Iterating a dict that
      is not empty yields its int keys, which cannot be unpacked into four names. */
  function LoadField(f: EnemyField): Result<EnemyField> {
    match f
    case Tuples(rows) =>
      var table :- ExpandTuples(rows);
      Ok(Records(table))
    case Records(table) =>
      if table == map[] then Ok(f) else Err(TypeError)
  }

  /** The loop of load_data.py:161-166 over `roles`: a present field is expanded, a
      missing one is skipped. */
  function LoadFields(enemies: map<Role, EnemyField>, roles: seq<Role>): Result<map<Role, EnemyField>> {
    if roles == [] then Ok(enemies)
    else
      var done :- LoadFields(enemies, roles[..|roles| - 1]);
      var role := roles[|roles| - 1];
      if role in done then
        var f :- LoadField(done[role]);
        Ok(done[role := f])
      else Ok(done)
  }

  /** `champion_role_data` after load_data.py:161-166. */
  function Reformatted(b: Blob): Result<Blob> {
    var enemies :- LoadFields(b.enemies, Roles);
    Ok(b.(enemies := enemies))
  }

  /** Field by field: over distinct roles the loop succeeds exactly when every present
      field expands, and then each field of those roles is its expansion, while no
      field is added or dropped. */
  lemma {:induction false} LoadFieldsPointwise(enemies: map<Role, EnemyField>, roles: seq<Role>)
    requires Distinct(roles)
    ensures LoadFields(enemies, roles).Ok? <==>
      forall k :: 0 <= k < |roles| && roles[k] in enemies ==> LoadField(enemies[roles[k]]).Ok?
    ensures LoadFields(enemies, roles).Ok? ==>
      var out := LoadFields(enemies, roles).value;
      out.Keys == enemies.Keys &&
      (forall role :: role in enemies && role !in roles ==> out[role] == enemies[role]) &&
      (forall role :: role in enemies && role in roles ==> out[role] == LoadField(enemies[role]).value)
  {
    if roles != [] {
      var init := roles[..|roles| - 1];
      var role := roles[|roles| - 1];
      assert Distinct(init);
      assert role !in init;
      assert forall k :: 0 <= k < |init| ==> init[k] == roles[k];
      LoadFieldsPointwise(enemies, init);
    }
  }

  /** load_data.py:161-166 on a record: it fails exactly when a present field does
      not expand (a zero-match tuple divides by zero); otherwise every raw field
      becomes its dict of match-up records and nothing else changes. */
  lemma {:induction false} ReformattedShape(b: Blob)
    ensures Reformatted(b).Ok? <==> forall role :: role in b.enemies ==> LoadField(b.enemies[role]).Ok?
    ensures Reformatted(b).Ok? ==>
      var out := Reformatted(b).value;
      out == b.(enemies := out.enemies) && out.enemies.Keys == b.enemies.Keys &&
      forall role :: role in b.enemies ==> out.enemies[role] == LoadField(b.enemies[role]).value
    ensures Reformatted(b).Ok? ==>
      forall role :: role in b.enemies && b.enemies[role].Tuples? ==>
        Reformatted(b).value.enemies[role] == Records(ExpandTuples(b.enemies[role].rows).value)
  {
    LoadFieldsPointwise(b.enemies, Roles);
    forall role ensures role in Roles {
      AllRoles(role);
    }
  }

  /** load_data.py:161-166, rewriting the record's fields one role at a time. */
  method ReformatRecord(b: Blob) returns (r: Result<Blob>)
    ensures r == Reformatted(b)
  {
    var enemies := b.enemies;
    for i := 0 to |Roles|
      invariant LoadFields(b.enemies, Roles[..i]) == Ok(enemies)
    {
      var role := Roles[i];
      assert Roles[..i + 1][..i] == Roles[..i] && Roles[..i + 1][i] == role;
      if role in enemies {
        var field := enemies[role];
        var f: EnemyField;
        match field {
          case Tuples(rows) =>
            var table := ExpandTuples(rows);
            if table.Err? {
              LoadFieldsErrorPersists(b.enemies, Roles, i + 1);
              return Err(table.error);
            }
            f := Records(table.value);
          case Records(table) =>
            if table != map[] {
              LoadFieldsErrorPersists(b.enemies, Roles, i + 1);
              return Err(TypeError);
            }
            f := field;
        }
        enemies := enemies[role := f];
      }
    }
    assert Roles[..|Roles|] == Roles;
    return Ok(b.(enemies := enemies));
  }

  /** An exception in a prefix of the loop is the exception of the whole loop. */
  lemma {:induction false} LoadFieldsErrorPersists(enemies: map<Role, EnemyField>, roles: seq<Role>, i: nat)
    requires i <= |roles| && LoadFields(enemies, roles[..i]).Err?
    ensures LoadFields(enemies, roles) == LoadFields(enemies, roles[..i])
  {
    if i < |roles| {
      assert roles[..|roles| - 1][..i] == roles[..i];
      LoadFieldsErrorPersists(enemies, roles[..|roles| - 1], i);
    } else {
      assert roles[..i] == roles;
    }
  }

  // ---------------------------------------------------------------------------
  // Regrouping by champion and role (load_data.py:156-170)
  // ---------------------------------------------------------------------------

  /** One record visited by the loops of load_data.py:157-159. */
  datatype Visit = Visit(patch: Patch, id: int, role: Role, blob: Blob)

  function RoleVisits(patch: Patch, id: int): ((Role, Blob)) -> seq<Visit> {
    (e: (Role, Blob)) => [Visit(patch, id, e.0, e.1)]
  }

  function ChampionVisits(patch: Patch): ((int, seq<(Role, Blob)>)) -> seq<Visit> {
    (e: (int, seq<(Role, Blob)>)) => FlatMap(e.1, RoleVisits(patch, e.0))
  }

  function PatchVisits(): ((Patch, Data)) -> seq<Visit> {
    (e: (Patch, Data)) => FlatMap(e.1, ChampionVisits(e.0))
  }

  /** Every record of every patch, in the order the three nested loops visit them. */
  function Visits(raw: RawData): seq<Visit> {
    FlatMap(raw, PatchVisits())
  }

  /** `lolalytics_data.setdefault(id, {}).setdefault(role, {})[patch] = b`. */
  function Insert(g: Regrouped, v: Visit, b: Blob): Regrouped {
    var roles := Get(g, v.id).GetOr([]);
    var patches := Get(roles, v.role).GetOr([]);
    Put(g, v.id, Put(roles, v.role, Put(patches, v.patch, b)))
  }

  /** The body of the innermost loop: expand the record, then file it. */
  function RegroupVisit(g: Regrouped, v: Visit): Result<Regrouped> {
    var b :- Reformatted(v.blob);
    Ok(Insert(g, v, b))
  }

  function RegroupStep(): (Regrouped, Visit) -> Result<Regrouped> {
    (g: Regrouped, v: Visit) => RegroupVisit(g, v)
  }

  /** `lolalytics_data` after load_data.py:156-170, or the first exception. */
  function Regroup(raw: RawData): Result<Regrouped> {
    Fold([], Visits(raw), RegroupStep())
  }

  /** `lolalytics_data[id][role][patch]`, if present. */
  function Find(g: Regrouped, id: int, role: Role, patch: Patch): Option<Blob> {
    match Get(g, id)
    case None => None
    case Some(roles) =>
      match Get(roles, role)
      case None => None
      case Some(patches) => Get(patches, patch)
  }

  /** Filing a record makes it the one found under its keys and hides nothing else. */
  lemma InsertFind(g: Regrouped, v: Visit, b: Blob, id: int, role: Role, patch: Patch)
    ensures Find(Insert(g, v, b), id, role, patch) ==
      if v.id == id && v.role == role && v.patch == patch then Some(b) else Find(g, id, role, patch)
  {
    var roles := Get(g, v.id).GetOr([]);
    var patches := Get(roles, v.role).GetOr([]);
    PutGet(g, v.id, Put(roles, v.role, Put(patches, v.patch, b)), id);
    PutGet(roles, v.role, Put(patches, v.patch, b), role);
    PutGet(patches, v.patch, b, patch);
  }

  /** The last visit filed under the given keys. */
  function LastVisit(visits: seq<Visit>, id: int, role: Role, patch: Patch): Option<Visit> {
    if visits == [] then None
    else
      var v := visits[|visits| - 1];
      if v.id == id && v.role == role && v.patch == patch then Some(v)
      else LastVisit(visits[..|visits| - 1], id, role, patch)
  }

  /** The expansion of a visited record, if it has one. */
  function Expanded(v: Visit): Option<Blob> {
    match Reformatted(v.blob)
    case Ok(b) => Some(b)
    case Err(_) => None
  }

  /** One more visit: the regrouping so far, then the last record filed into it. */
  lemma RegroupUnfold(g: Regrouped, visits: seq<Visit>)
    requires visits != []
    ensures Fold(g, visits, RegroupStep()) ==
      match Fold(g, visits[..|visits| - 1], RegroupStep())
      case Err(e) => Err(e)
      case Ok(prev) => RegroupVisit(prev, visits[|visits| - 1])
  {
  }

  lemma RegroupVisitOk(g: Regrouped, v: Visit)
    ensures RegroupVisit(g, v).Ok? <==> Expanded(v).Some?
    ensures RegroupVisit(g, v).Ok? ==> RegroupVisit(g, v).value == Insert(g, v, Expanded(v).value)
  {
  }

  /** The regrouping succeeds exactly when every visited record expands. */
  lemma {:induction false} RegroupOk(g: Regrouped, visits: seq<Visit>)
    ensures Fold(g, visits, RegroupStep()).Ok? <==> forall i :: 0 <= i < |visits| ==> Expanded(visits[i]).Some?
  {
    if visits != [] {
      var init := visits[..|visits| - 1];
      var v := visits[|visits| - 1];
      assert forall i :: 0 <= i < |init| ==> init[i] == visits[i];
      assert (forall i :: 0 <= i < |visits| ==> Expanded(visits[i]).Some?) <==>
        (forall i :: 0 <= i < |init| ==> Expanded(init[i]).Some?) && Expanded(v).Some?;
      RegroupOk(g, init);
      RegroupUnfold(g, visits);
      match Fold(g, init, RegroupStep())
      case Err(_) =>
      case Ok(prev) =>
        RegroupVisitOk(prev, v);
    }
  }

  /** Nothing is lost and nothing invented: under each champion, role and patch the
      regrouping holds the expansion of the last record visited with those keys, and
      what was there before where no record was. */
  lemma {:induction false} RegroupFind(g: Regrouped, visits: seq<Visit>, id: int, role: Role, patch: Patch)
    requires Fold(g, visits, RegroupStep()).Ok?
    ensures Find(Fold(g, visits, RegroupStep()).value, id, role, patch) ==
      match LastVisit(visits, id, role, patch)
      case None => Find(g, id, role, patch)
      case Some(v) => Expanded(v)
  {
    if visits != [] {
      var init := visits[..|visits| - 1];
      var v := visits[|visits| - 1];
      RegroupUnfold(g, visits);
      var prev := Fold(g, init, RegroupStep()).value;
      RegroupFind(g, init, id, role, patch);
      RegroupVisitOk(prev, v);
      InsertFind(prev, v, Expanded(v).value, id, role, patch);
    }
  }

  /** The innermost loop of load_data.py:159-170, over one champion's roles in one patch. */
  method RegroupRoles(g0: Regrouped, patch: Patch, id: int, roles: seq<(Role, Blob)>) returns (r: Result<Regrouped>)
    ensures r == Fold(g0, FlatMap(roles, RoleVisits(patch, id)), RegroupStep())
  {
    var g := g0;
    for k := 0 to |roles|
      invariant Fold(g0, FlatMap(roles[..k], RoleVisits(patch, id)), RegroupStep()) == Ok(g)
    {
      var v := Visit(patch, id, roles[k].0, roles[k].1);
      FoldLevelStep(g0, roles, k, RoleVisits(patch, id), RegroupStep(), g);
      FoldSingle(g, v, RegroupStep());
      var b := ReformatRecord(roles[k].1);
      if b.Err? {
        return Err(b.error);
      }
      g := Insert(g, v, b.value);
    }
    WholeSlice(roles);
    return Ok(g);
  }

  /** The middle loop of load_data.py:158-170, over one patch's champions. */
  method RegroupPatch(g0: Regrouped, patch: Patch, champions: Data) returns (r: Result<Regrouped>)
    ensures r == Fold(g0, FlatMap(champions, ChampionVisits(patch)), RegroupStep())
  {
    var g := g0;
    for j := 0 to |champions|
      invariant Fold(g0, FlatMap(champions[..j], ChampionVisits(patch)), RegroupStep()) == Ok(g)
    {
      FoldLevelStep(g0, champions, j, ChampionVisits(patch), RegroupStep(), g);
      var next := RegroupRoles(g, patch, champions[j].0, champions[j].1);
      if next.Err? {
        return next;
      }
      g := next.value;
    }
    WholeSlice(champions);
    return Ok(g);
  }

  /** The loops of load_data.py:156-170: `lolalytics_data`, or the first exception. */
  method RegroupAll(raw: RawData) returns (r: Result<Regrouped>)
    ensures r == Regroup(raw)
  {
    var g := [];
    for i := 0 to |raw|
      invariant Fold([], FlatMap(raw[..i], PatchVisits()), RegroupStep()) == Ok(g)
    {
      FoldLevelStep([], raw, i, PatchVisits(), RegroupStep(), g);
      var next := RegroupPatch(g, raw[i].0, raw[i].1);
      if next.Err? {
        return next;
      }
      g := next.value;
    }
    WholeSlice(raw);
    return Ok(g);
  }

  /** Each level of the regrouped data is a dict: no champion, role or patch twice. */
  ghost predicate Nested(g: Regrouped) {
    IsDict(g) &&
    forall id :: Get(g, id).Some? ==>
      IsDict(Get(g, id).value) &&
      forall role :: Get(Get(g, id).value, role).Some? ==> IsDict(Get(Get(g, id).value, role).value)
  }

  /** `lolalytics_data[id][role]`, the patches of one champion-role (empty if absent). */
  function PatchesAt(g: Regrouped, id: int, role: Role): seq<(Patch, Blob)> {
    match Get(g, id)
    case None => []
    case Some(roles) => Get(roles, role).GetOr([])
  }

  lemma FindPatches(g: Regrouped, id: int, role: Role, patch: Patch)
    ensures Find(g, id, role, patch) == Get(PatchesAt(g, id, role), patch)
  {
  }

  /** `setdefault` keeps every level a dict. */
  lemma InsertNested(g: Regrouped, v: Visit, b: Blob)
    requires Nested(g)
    ensures Nested(Insert(g, v, b))
  {
    var roles := Get(g, v.id).GetOr([]);
    var patches := Get(roles, v.role).GetOr([]);
    var roles' := Put(roles, v.role, Put(patches, v.patch, b));
    var g' := Put(g, v.id, roles');
    PutIsDict(patches, v.patch, b);
    PutIsDict(roles, v.role, Put(patches, v.patch, b));
    PutIsDict(g, v.id, roles');
    forall id | Get(g', id).Some?
      ensures IsDict(Get(g', id).value)
      ensures forall role :: Get(Get(g', id).value, role).Some? ==> IsDict(Get(Get(g', id).value, role).value)
    {
      PutGet(g, v.id, roles', id);
      if id == v.id {
        forall role | Get(roles', role).Some? ensures IsDict(Get(roles', role).value) {
          PutGet(roles, v.role, Put(patches, v.patch, b), role);
        }
      }
    }
  }

  /** The regrouping keeps every level a dict. */
  lemma {:induction false} RegroupNested(g: Regrouped, visits: seq<Visit>)
    requires Nested(g) && Fold(g, visits, RegroupStep()).Ok?
    ensures Nested(Fold(g, visits, RegroupStep()).value)
  {
    if visits != [] {
      var init := visits[..|visits| - 1];
      var v := visits[|visits| - 1];
      RegroupUnfold(g, visits);
      var prev := Fold(g, init, RegroupStep()).value;
      RegroupNested(g, init);
      RegroupVisitOk(prev, v);
      InsertNested(prev, v, Expanded(v).value);
    }
  }

  /** Some visit carries the given keys exactly when a last one does. */
  lemma {:induction false} LastVisitSome(visits: seq<Visit>, id: int, role: Role, patch: Patch)
    ensures LastVisit(visits, id, role, patch).Some? <==>
      exists i :: 0 <= i < |visits| && visits[i].id == id && visits[i].role == role && visits[i].patch == patch
    ensures LastVisit(visits, id, role, patch).Some? ==>
      var v := LastVisit(visits, id, role, patch).value;
      v in visits && v.id == id && v.role == role && v.patch == patch
  {
    if visits != [] {
      var init := visits[..|visits| - 1];
      LastVisitSome(init, id, role, patch);
      assert forall i :: 0 <= i < |init| ==> init[i] == visits[i];
    }
  }

  /** No record lost and none invented: a patch is filed under a champion-role of
      `lolalytics_data` exactly when some record of that patch was visited with
      that champion id and role, and each level is a dict. */
  lemma RegroupPatchKeys(visits: seq<Visit>, id: int, role: Role, patch: Patch)
    requires Fold([], visits, RegroupStep()).Ok?
    ensures Nested(Fold([], visits, RegroupStep()).value)
    ensures patch in Keys(PatchesAt(Fold([], visits, RegroupStep()).value, id, role)) <==>
      exists i :: 0 <= i < |visits| && visits[i].id == id && visits[i].role == role && visits[i].patch == patch
  {
    var g := Fold([], visits, RegroupStep()).value;
    RegroupNested([], visits);
    RegroupFind([], visits, id, role, patch);
    FindPatches(g, id, role, patch);
    LastVisitSome(visits, id, role, patch);
    RegroupOk([], visits);
    if LastVisit(visits, id, role, patch).Some? {
      var v := LastVisit(visits, id, role, patch).value;
      var k :| 0 <= k < |visits| && visits[k] == v;
    }
  }

  // ---------------------------------------------------------------------------
  // Merging the patches of one champion-role (load_data.py:177-232)
  // ---------------------------------------------------------------------------

  /** `patch_data.get("n", 0)` and the other defaulted reads of load_data.py:179-196. */
  function NOf(b: Blob): nat { b.n.GetOr(0) }

  function AnalysedOf(b: Blob): nat { b.analysed.GetOr(0) }

  function LaneOf(b: Blob, role: Role): real { if role in b.lanes then b.lanes[role] else 0.0 }

  function AvgOf(b: Blob): real { b.avgWinRate.GetOr(0.0) }

  /** `sum(patch_data.get("n", 0) ...)` */
  function TotalN(patches: seq<(Patch, Blob)>): nat {
    if patches == [] then 0 else TotalN(patches[..|patches| - 1]) + NOf(patches[|patches| - 1].1)
  }

  /** `sum(patch_data.get("analysed", 0) ...)` */
  function TotalAnalysed(patches: seq<(Patch, Blob)>): nat {
    if patches == [] then 0 else TotalAnalysed(patches[..|patches| - 1]) + AnalysedOf(patches[|patches| - 1].1)
  }

  /** A patch's sample size, the weight of its rates. */
  function Weight(): ((Patch, Blob)) -> real {
    (e: (Patch, Blob)) => NOf(e.1) as real
  }

  /** `n * nav.lanes[role]` of one patch. */
  function LaneMass(role: Role): ((Patch, Blob)) -> real {
    (e: (Patch, Blob)) => NOf(e.1) as real * LaneOf(e.1, role)
  }

  /** `avgWinRate * n` of one patch. */
  function AvgMass(): ((Patch, Blob)) -> real {
    (e: (Patch, Blob)) => AvgOf(e.1) * NOf(e.1) as real
  }

  /** The summed `matches` and `wins` of one (enemy role, enemy id). */
  datatype Counts = Counts(matches: nat, wins: nat)

  function Plus(a: Counts, b: Counts): Counts {
    Counts(a.matches + b.matches, a.wins + b.wins)
  }

  /** The match-up dicts being built under the merged record: enemy role -> enemy id -> counts. */
  type Tally = map<Role, map<int, Counts>>

  /** `.get(enemy_id, {}).get("matches", 0)` and the same for "wins". */
  function CountsAt(row: map<int, Counts>, id: int): Counts {
    if id in row then row[id] else Counts(0, 0)
  }

  function RowAt(t: Tally, role: Role): map<int, Counts> {
    if role in t then t[role] else map[]
  }

  /** What one patch's dict contributes to an enemy id. */
  function RecordCounts(table: map<int, MatchupRecord>, id: int): Counts {
    if id in table then Counts(table[id].matches, table[id].wins) else Counts(0, 0)
  }

  /** The counts after the items of `table` were added to `row` (load_data.py:209-226). */
  function AddTable(row: map<int, Counts>, table: map<int, MatchupRecord>): map<int, Counts> {
    map id | id in row.Keys + table.Keys :: Plus(CountsAt(row, id), RecordCounts(table, id))
  }

  /** One `enemy_<role>` field of one patch added in (load_data.py:207-226). The
      entry for the role is only created by the first item, so an empty dict adds no
      role; a field that is still a list has no `items`. */
  function TallyField(t: Tally, role: Role, f: EnemyField): Result<Tally> {
    match f
    case Tuples(_) => Err(AttributeError("items"))
    case Records(table) =>
      if table == map[] then Ok(t) else Ok(t[role := AddTable(RowAt(t, role), table)])
  }

  /** The body of the loop over enemy roles of one patch (load_data.py:207-208). */
  function RoleTally(t: Tally, b: Blob, role: Role): Result<Tally> {
    if role in b.enemies then TallyField(t, role, b.enemies[role]) else Ok(t)
  }

  function RoleTallyStep(b: Blob): (Tally, Role) -> Result<Tally> {
    (t: Tally, role: Role) => RoleTally(t, b, role)
  }

  /** One patch's fields added in. */
  function TallyRecord(t: Tally, b: Blob): Result<Tally> {
    Fold(t, Roles, RoleTallyStep(b))
  }

  function PatchTallyStep(): (Tally, (Patch, Blob)) -> Result<Tally> {
    (t: Tally, e: (Patch, Blob)) => TallyRecord(t, e.1)
  }

  /** The loops of load_data.py:206-226 over every patch. */
  function TallyPatches(patches: seq<(Patch, Blob)>): Result<Tally> {
    Fold(map[], patches, PatchTallyStep())
  }

  /** `matchup_data["win_rate"] = wins / matches` over one role's dict (load_data.py:229-232). */
  function WinRates(row: map<int, Counts>): Result<map<int, MatchupRecord>> {
    if exists id :: id in row && row[id].matches == 0 then Err(ZeroDivisionError)
    else Ok(map id | id in row :: MatchupRecord(row[id].matches, row[id].wins, row[id].wins as real / row[id].matches as real))
  }

  /** The body of the loop of load_data.py:228-232: a role no patch supplied an item
      for raises KeyError. */
  function FinishStep(t: Tally): (map<Role, EnemyField>, Role) -> Result<map<Role, EnemyField>> {
    (done: map<Role, EnemyField>, role: Role) =>
      if role !in t then Err(KeyError("enemy_" + RoleName(role)))
      else
        var rates :- WinRates(t[role]);
        Ok(done[role := Records(rates)])
  }

  function Finish(t: Tally): Result<map<Role, EnemyField>> {
    Fold(map[], Roles, FinishStep(t))
  }

  /** The merged record of load_data.py:179-232. It has no `header`: only `n`,
      `analysed`, `pr`, `avgWinRate`, `nav.lanes` for all five roles, and the five
      summed match-up dicts. */
  function Merge(patches: seq<(Patch, Blob)>): Result<Blob> {
    var n := TotalN(patches);
    var analysed := TotalAnalysed(patches);
    if analysed == 0 || n == 0 then Err(ZeroDivisionError)
    else
      var enemies :- MergedEnemies(patches);
      Ok(Blob(None, Some(n), Some(analysed), Some(1000.0 * n as real / analysed as real),
              Some(SumOf(patches, AvgMass()) / n as real), MergedLanes(patches), enemies))
  }

  /** `lane_rate` (load_data.py:182-189). */
  function MergedLanes(patches: seq<(Patch, Blob)>): map<Role, real>
    requires TotalN(patches) > 0
  {
    map role | role in Roles :: SumOf(patches, LaneMass(role)) / TotalN(patches) as real
  }

  /** The five merged match-up dicts (load_data.py:206-232). */
  function MergedEnemies(patches: seq<(Patch, Blob)>): Result<map<Role, EnemyField>> {
    var t :- TallyPatches(patches);
    Finish(t)
  }

  /** load_data.py:177-235: several patches are merged, a single one is kept as it is. */
  function Settle(patches: seq<(Patch, Blob)>): Result<Blob> {
    if |patches| > 1 then Merge(patches)
    else if patches == [] then Err(IndexError)
    else Ok(patches[0].1)
  }

  // Properties of the merge

  /** What patch `b` contributes to (enemy role, enemy id): its record's counts, or none. */
  function FieldCounts(b: Blob, role: Role, id: int): Counts {
    if role in b.enemies && b.enemies[role].Records? then RecordCounts(b.enemies[role].table, id) else Counts(0, 0)
  }

  /** Patch `b` has a match-up record against enemy `id` in `role`. */
  predicate HasEnemy(b: Blob, role: Role, id: int) {
    role in b.enemies && b.enemies[role].Records? && id in b.enemies[role].table
  }

  /** Patch `b` has at least one match-up record in `role`. */
  predicate Supplies(b: Blob, role: Role) {
    role in b.enemies && b.enemies[role].Records? && b.enemies[role].table != map[]
  }

  /** Some patch has a record in `role`. */
  predicate Supplied(patches: seq<(Patch, Blob)>, role: Role) {
    exists k :: 0 <= k < |patches| && Supplies(patches[k].1, role)
  }

  /** Some patch has a record against enemy `id` in `role`. */
  predicate Seen(patches: seq<(Patch, Blob)>, role: Role, id: int) {
    exists k :: 0 <= k < |patches| && HasEnemy(patches[k].1, role, id)
  }

  /** Every `enemy_<role>` field of `b` is already a dict. */
  predicate AllRecords(b: Blob) {
    forall role :: role in b.enemies ==> b.enemies[role].Records?
  }

  /** The counts summed over the patches; a patch without the enemy adds nothing. */
  function CountsSum(patches: seq<(Patch, Blob)>, role: Role, id: int): Counts {
    if patches == [] then Counts(0, 0)
    else Plus(CountsSum(patches[..|patches| - 1], role, id), FieldCounts(patches[|patches| - 1].1, role, id))
  }

  lemma AddTableAt(row: map<int, Counts>, table: map<int, MatchupRecord>, id: int)
    ensures CountsAt(AddTable(row, table), id) == Plus(CountsAt(row, id), RecordCounts(table, id))
    ensures id in AddTable(row, table) <==> id in row || id in table
  {
  }

  /** One step of that loop: the role's records are added, or its list field fails. */
  lemma TallyStepOk(t: Tally, b: Blob, role: Role)
    ensures RoleTally(t, b, role).Ok? <==> (role in b.enemies ==> b.enemies[role].Records?)
    ensures RoleTally(t, b, role).Err? ==> RoleTally(t, b, role).error == AttributeError("items")
    ensures RoleTally(t, b, role).Ok? ==>
      forall r :: r in RoleTally(t, b, role).value <==> r in t || (r == role && Supplies(b, role))
  {
  }

  /** The counts after one step of that loop. */
  lemma TallyStepCounts(t: Tally, b: Blob, role: Role, r: Role, id: int)
    requires RoleTally(t, b, role).Ok?
    ensures CountsAt(RowAt(RoleTally(t, b, role).value, r), id) ==
      if r == role then Plus(CountsAt(RowAt(t, r), id), FieldCounts(b, r, id)) else CountsAt(RowAt(t, r), id)
    ensures id in RowAt(RoleTally(t, b, role).value, r) <==> id in RowAt(t, r) || (r == role && HasEnemy(b, r, id))
  {
    if role in b.enemies && b.enemies[role].Records? && b.enemies[role].table != map[] {
      TallyStepAdds(t, b, role, r, id);
    } else {
      TallyStepKeeps(t, b, role, r, id);
      PlusZero(CountsAt(RowAt(t, r), id));
    }
  }

  lemma TallyStepAdds(t: Tally, b: Blob, role: Role, r: Role, id: int)
    requires role in b.enemies && b.enemies[role].Records? && b.enemies[role].table != map[]
    ensures RoleTally(t, b, role).Ok?
    ensures CountsAt(RowAt(RoleTally(t, b, role).value, r), id) ==
      if r == role then Plus(CountsAt(RowAt(t, r), id), FieldCounts(b, r, id)) else CountsAt(RowAt(t, r), id)
    ensures id in RowAt(RoleTally(t, b, role).value, r) <==> id in RowAt(t, r) || (r == role && HasEnemy(b, r, id))
  {
    var table := b.enemies[role].table;
    var t' := t[role := AddTable(RowAt(t, role), table)];
    assert RoleTally(t, b, role) == Ok(t');
    if r == role {
      TallyAddRow(t, role, table, id);
    } else {
      assert RowAt(t', r) == RowAt(t, r);
    }
  }

  lemma TallyStepKeeps(t: Tally, b: Blob, role: Role, r: Role, id: int)
    requires role !in b.enemies || (b.enemies[role].Records? && b.enemies[role].table == map[])
    ensures RoleTally(t, b, role) == Ok(t)
    ensures r == role ==> FieldCounts(b, r, id) == Counts(0, 0) && !HasEnemy(b, r, id)
  {
  }

  lemma PlusZero(a: Counts)
    ensures Plus(a, Counts(0, 0)) == a
  {
  }

  /** A dict of one role added in: that role's row gains the dict's counts. */
  lemma TallyAddRow(t: Tally, role: Role, table: map<int, MatchupRecord>, id: int)
    ensures CountsAt(RowAt(t[role := AddTable(RowAt(t, role), table)], role), id) == Plus(CountsAt(RowAt(t, role), id), RecordCounts(table, id))
    ensures id in RowAt(t[role := AddTable(RowAt(t, role), table)], role) <==> id in RowAt(t, role) || id in table
  {
    assert RowAt(t[role := AddTable(RowAt(t, role), table)], role) == AddTable(RowAt(t, role), table);
    AddTableAt(RowAt(t, role), table, id);
  }

  /** One patch's loop over distinct enemy roles adds each listed role's records and
      touches no other role; it fails exactly when a listed field is still a list. */
  lemma {:induction false} TallyRolesPointwise(t: Tally, b: Blob, roles: seq<Role>)
    requires Distinct(roles)
    ensures Fold(t, roles, RoleTallyStep(b)).Ok? <==>
      forall role :: role in roles && role in b.enemies ==> b.enemies[role].Records?
    ensures Fold(t, roles, RoleTallyStep(b)).Err? ==> Fold(t, roles, RoleTallyStep(b)).error == AttributeError("items")
    ensures Fold(t, roles, RoleTallyStep(b)).Ok? ==>
      var t' := Fold(t, roles, RoleTallyStep(b)).value;
      (forall role :: role in t' <==> role in t || (role in roles && Supplies(b, role))) &&
      (forall role, id :: CountsAt(RowAt(t', role), id) ==
        if role in roles then Plus(CountsAt(RowAt(t, role), id), FieldCounts(b, role, id)) else CountsAt(RowAt(t, role), id)) &&
      (forall role, id :: id in RowAt(t', role) <==> id in RowAt(t, role) || (role in roles && HasEnemy(b, role, id)))
  {
    if roles != [] {
      var init := roles[..|roles| - 1];
      var role := roles[|roles| - 1];
      assert Distinct(init);
      assert role !in init;
      assert forall r :: r in roles <==> r in init || r == role;
      TallyRolesPointwise(t, b, init);
      match Fold(t, init, RoleTallyStep(b))
      case Err(_) =>
      case Ok(prev) =>
        assert Fold(t, roles, RoleTallyStep(b)) == RoleTally(prev, b, role);
        TallyStepOk(prev, b, role);
        if RoleTally(prev, b, role).Ok? {
          forall r, id
            ensures CountsAt(RowAt(RoleTally(prev, b, role).value, r), id) ==
              if r == role then Plus(CountsAt(RowAt(prev, r), id), FieldCounts(b, r, id)) else CountsAt(RowAt(prev, r), id)
            ensures id in RowAt(RoleTally(prev, b, role).value, r) <==> id in RowAt(prev, r) || (r == role && HasEnemy(b, r, id))
          {
            TallyStepCounts(prev, b, role, r, id);
          }
        }
    }
  }

  /** One patch added in: each enemy role gains that patch's records. */
  lemma TallyRecordPointwise(t: Tally, b: Blob)
    ensures TallyRecord(t, b).Ok? <==> AllRecords(b)
    ensures TallyRecord(t, b).Err? ==> TallyRecord(t, b).error == AttributeError("items")
    ensures TallyRecord(t, b).Ok? ==>
      var t' := TallyRecord(t, b).value;
      (forall role :: role in t' <==> role in t || Supplies(b, role)) &&
      (forall role, id :: CountsAt(RowAt(t', role), id) == Plus(CountsAt(RowAt(t, role), id), FieldCounts(b, role, id))) &&
      (forall role, id :: id in RowAt(t', role) <==> id in RowAt(t, role) || HasEnemy(b, role, id))
  {
    TallyRolesPointwise(t, b, Roles);
    forall role ensures role in Roles {
      AllRoles(role);
    }
  }

  /** The loops of load_data.py:206-226 fail (on a field that is still a list)
      exactly when some field is not a dict. */
  lemma {:induction false} TallyFromOk(t: Tally, patches: seq<(Patch, Blob)>)
    ensures Fold(t, patches, PatchTallyStep()).Ok? <==> forall k :: 0 <= k < |patches| ==> AllRecords(patches[k].1)
    ensures Fold(t, patches, PatchTallyStep()).Err? ==> Fold(t, patches, PatchTallyStep()).error == AttributeError("items")
  {
    if patches != [] {
      var init := patches[..|patches| - 1];
      var last := patches[|patches| - 1];
      assert forall k :: 0 <= k < |init| ==> init[k] == patches[k];
      assert (forall k :: 0 <= k < |patches| ==> AllRecords(patches[k].1)) <==>
        (forall k :: 0 <= k < |init| ==> AllRecords(init[k].1)) && AllRecords(last.1);
      TallyFromOk(t, init);
      match Fold(t, init, PatchTallyStep())
      case Err(_) =>
      case Ok(prev) =>
        TallyRecordPointwise(prev, last.1);
    }
  }

  lemma TallyRecordCounts(t: Tally, b: Blob, role: Role, id: int)
    requires TallyRecord(t, b).Ok?
    ensures CountsAt(RowAt(TallyRecord(t, b).value, role), id) == Plus(CountsAt(RowAt(t, role), id), FieldCounts(b, role, id))
  {
    TallyRecordPointwise(t, b);
  }

  lemma PlusAssoc(a: Counts, b: Counts, c: Counts)
    ensures Plus(Plus(a, b), c) == Plus(a, Plus(b, c))
  {
  }

  /** The last patch of a successful tally was added to the tally of the others. */
  lemma TallyUnfold(t: Tally, patches: seq<(Patch, Blob)>)
    requires patches != [] && Fold(t, patches, PatchTallyStep()).Ok?
    ensures Fold(t, patches[..|patches| - 1], PatchTallyStep()).Ok?
    ensures Fold(t, patches, PatchTallyStep()) ==
      TallyRecord(Fold(t, patches[..|patches| - 1], PatchTallyStep()).value, patches[|patches| - 1].1)
  {
  }

  /** The loops of load_data.py:206-226 create the dict of an enemy role exactly
      when some patch has a record in that role. */
  lemma {:induction false} TallyRolesFrom(t: Tally, patches: seq<(Patch, Blob)>, role: Role)
    requires Fold(t, patches, PatchTallyStep()).Ok?
    ensures role in Fold(t, patches, PatchTallyStep()).value <==>
      role in t || Supplied(patches, role)
  {
    if patches != [] {
      var init := patches[..|patches| - 1];
      var last := patches[|patches| - 1];
      TallyUnfold(t, patches);
      var prev := Fold(t, init, PatchTallyStep()).value;
      assert forall k :: 0 <= k < |init| ==> init[k] == patches[k];
      assert Supplied(patches, role) <==>
        Supplied(init, role) || Supplies(last.1, role);
      TallyRolesFrom(t, init, role);
      TallyRecordPointwise(prev, last.1);
    }
  }

  /** The loops of load_data.py:206-226 sum, for every enemy role and enemy id, the
      matches and wins of the patches. */
  lemma {:induction false} TallyCountsFrom(t: Tally, patches: seq<(Patch, Blob)>, role: Role, id: int)
    requires Fold(t, patches, PatchTallyStep()).Ok?
    ensures CountsAt(RowAt(Fold(t, patches, PatchTallyStep()).value, role), id) ==
      Plus(CountsAt(RowAt(t, role), id), CountsSum(patches, role, id))
  {
    if patches != [] {
      var init := patches[..|patches| - 1];
      var last := patches[|patches| - 1];
      TallyUnfold(t, patches);
      var prev := Fold(t, init, PatchTallyStep()).value;
      TallyCountsFrom(t, init, role, id);
      TallyRecordCounts(prev, last.1, role, id);
      PlusAssoc(CountsAt(RowAt(t, role), id), CountsSum(init, role, id), FieldCounts(last.1, role, id));
    }
  }

  /** An enemy id gets an entry exactly when some patch has a record against it. */
  lemma {:induction false} TallyIdsFrom(t: Tally, patches: seq<(Patch, Blob)>, role: Role, id: int)
    requires Fold(t, patches, PatchTallyStep()).Ok?
    ensures id in RowAt(Fold(t, patches, PatchTallyStep()).value, role) <==>
      id in RowAt(t, role) || Seen(patches, role, id)
  {
    if patches != [] {
      var init := patches[..|patches| - 1];
      var last := patches[|patches| - 1];
      TallyUnfold(t, patches);
      var prev := Fold(t, init, PatchTallyStep()).value;
      assert forall k :: 0 <= k < |init| ==> init[k] == patches[k];
      assert Seen(patches, role, id) <==>
        Seen(init, role, id) || HasEnemy(last.1, role, id);
      TallyIdsFrom(t, init, role, id);
      TallyRecordPointwise(prev, last.1);
    }
  }

  /** The merged counts of an enemy only one patch has a record for are that record's. */
  lemma {:induction false} CountsSumSingle(patches: seq<(Patch, Blob)>, role: Role, id: int, k: int)
    requires 0 <= k < |patches| && HasEnemy(patches[k].1, role, id)
    requires forall j :: 0 <= j < |patches| && j != k ==> !HasEnemy(patches[j].1, role, id)
    ensures CountsSum(patches, role, id) == RecordCounts(patches[k].1.enemies[role].table, id)
  {
    var init := patches[..|patches| - 1];
    if k < |init| {
      assert init[k] == patches[k];
      forall j | 0 <= j < |init| && j != k ensures !HasEnemy(init[j].1, role, id) {
        assert init[j] == patches[j];
      }
      CountsSumSingle(init, role, id, k);
      CountsSumLastNone(patches, role, id);
    } else {
      forall j | 0 <= j < |init| ensures !HasEnemy(init[j].1, role, id) {
        assert init[j] == patches[j];
      }
      CountsSumNone(init, role, id);
    }
  }

  /** A last patch without a record against the enemy adds nothing. */
  lemma CountsSumLastNone(patches: seq<(Patch, Blob)>, role: Role, id: int)
    requires patches != [] && !HasEnemy(patches[|patches| - 1].1, role, id)
    ensures CountsSum(patches, role, id) == CountsSum(patches[..|patches| - 1], role, id)
  {
    PlusZero(CountsSum(patches[..|patches| - 1], role, id));
  }

  lemma {:induction false} CountsSumNone(patches: seq<(Patch, Blob)>, role: Role, id: int)
    requires forall j :: 0 <= j < |patches| ==> !HasEnemy(patches[j].1, role, id)
    ensures CountsSum(patches, role, id) == Counts(0, 0)
  {
    if patches != [] {
      var init := patches[..|patches| - 1];
      assert forall j :: 0 <= j < |init| ==> init[j] == patches[j];
      CountsSumNone(init, role, id);
    }
  }

  /** `wins / matches` for every entry, failing on an entry with no matches. */
  lemma WinRatesShape(row: map<int, Counts>)
    ensures WinRates(row).Ok? <==> forall id :: id in row ==> row[id].matches > 0
    ensures WinRates(row).Ok? ==>
      WinRates(row).value.Keys == row.Keys &&
      forall id :: id in row ==>
        var m := WinRates(row).value[id];
        m.matches == row[id].matches && m.wins == row[id].wins && Consistent(m)
  {
  }

  /** The loop of load_data.py:228-232 over distinct roles: it succeeds exactly when
      every listed role was supplied and no entry has zero matches, and then it holds
      one dict of records per listed role; otherwise it raises KeyError for a missing
      role or ZeroDivisionError. */
  lemma {:induction false} FinishPointwise(t: Tally, roles: seq<Role>)
    requires Distinct(roles)
    ensures Fold(map[], roles, FinishStep(t)).Ok? <==>
      forall role :: role in roles ==> role in t && WinRates(t[role]).Ok?
    ensures Fold(map[], roles, FinishStep(t)).Ok? ==>
      var e := Fold(map[], roles, FinishStep(t)).value;
      forall role :: (role in e <==> role in roles) && (role in e ==> e[role] == Records(WinRates(t[role]).value))
    ensures Fold(map[], roles, FinishStep(t)).Err? ==>
      var error := Fold(map[], roles, FinishStep(t)).error;
      error == ZeroDivisionError || exists role :: role in roles && role !in t && error == KeyError("enemy_" + RoleName(role))
  {
    if roles != [] {
      var init := roles[..|roles| - 1];
      var role := roles[|roles| - 1];
      assert Distinct(init);
      assert role !in init;
      assert forall k :: 0 <= k < |init| ==> init[k] == roles[k];
      FinishPointwise(t, init);
      if role in t {
        WinRatesShape(t[role]);
      }
    }
  }

  /** The match-up dicts of a merged record: all five roles, each a dict of records. */
  lemma FinishShape(t: Tally)
    ensures Finish(t).Ok? <==> forall role :: role in t && WinRates(t[role]).Ok?
    ensures Finish(t).Ok? ==> forall role :: role in Finish(t).value && Finish(t).value[role] == Records(WinRates(t[role]).value)
    ensures Finish(t).Err? ==>
      Finish(t).error == ZeroDivisionError || exists role :: role !in t && Finish(t).error == KeyError("enemy_" + RoleName(role))
  {
    FinishPointwise(t, Roles);
    forall role ensures role in Roles {
      AllRoles(role);
    }
  }

  /** The tally of all patches, entry by entry. */
  lemma TallyFacts(patches: seq<(Patch, Blob)>)
    requires TallyPatches(patches).Ok?
    ensures var t := TallyPatches(patches).value;
      (forall role :: role in t <==> Supplied(patches, role)) &&
      (forall role, id :: id in RowAt(t, role) <==> Seen(patches, role, id)) &&
      (forall role, id :: CountsAt(RowAt(t, role), id) == CountsSum(patches, role, id))
  {
    forall role ensures role in TallyPatches(patches).value <==> Supplied(patches, role) {
      TallyRolesFrom(map[], patches, role);
    }
    forall role, id
      ensures id in RowAt(TallyPatches(patches).value, role) <==> Seen(patches, role, id)
      ensures CountsAt(RowAt(TallyPatches(patches).value, role), id) == CountsSum(patches, role, id)
    {
      TallyIdsFrom(map[], patches, role, id);
      TallyCountsFrom(map[], patches, role, id);
    }
  }

  lemma {:induction false} TotalNSum(patches: seq<(Patch, Blob)>)
    ensures TotalN(patches) as real == SumOf(patches, Weight())
  {
    if patches != [] {
      TotalNSum(patches[..|patches| - 1]);
    }
  }

  /** Finishing the tally succeeds exactly when every role was supplied and no entry has zero matches. */
  lemma FinishOk(t: Tally)
    ensures Finish(t).Ok? <==> forall role :: role in t && forall id :: id in t[role] ==> t[role][id].matches > 0
  {
    FinishShape(t);
    forall role | role in t ensures WinRates(t[role]).Ok? <==> forall id :: id in t[role] ==> t[role][id].matches > 0 {
      WinRatesShape(t[role]);
    }
  }

  lemma EnemiesOk(patches: seq<(Patch, Blob)>)
    requires TallyPatches(patches).Ok?
    ensures Finish(TallyPatches(patches).value).Ok? <==>
      (forall role :: Supplied(patches, role)) &&
      (forall role, id :: Seen(patches, role, id) ==> CountsSum(patches, role, id).matches > 0)
  {
    var t := TallyPatches(patches).value;
    TallyFacts(patches);
    FinishOk(t);
    assert forall role, id :: role in t && id in t[role] ==> t[role][id] == CountsAt(RowAt(t, role), id);
  }

  /** The match-up dicts of load_data.py:206-232 are built exactly when every field
      is a dict, every enemy role has a record in some patch and no merged match-up
      has zero matches. */
  lemma MergedEnemiesOk(patches: seq<(Patch, Blob)>)
    ensures MergedEnemies(patches).Ok? <==>
      (forall k :: 0 <= k < |patches| ==> AllRecords(patches[k].1)) &&
      (forall role :: Supplied(patches, role)) &&
      (forall role, id :: Seen(patches, role, id) ==> CountsSum(patches, role, id).matches > 0)
  {
    TallyFromOk(map[], patches);
    if TallyPatches(patches).Ok? {
      EnemiesOk(patches);
    }
  }

  /** Otherwise they raise AttributeError for a field still a list, KeyError for an
      enemy role no patch has a record in, or ZeroDivisionError for a zero-match entry. */
  lemma MergedEnemiesErrors(patches: seq<(Patch, Blob)>)
    ensures (exists k :: 0 <= k < |patches| && !AllRecords(patches[k].1)) ==>
      MergedEnemies(patches) == Err(AttributeError("items"))
    ensures MergedEnemies(patches).Err? ==>
      MergedEnemies(patches).error in {ZeroDivisionError, AttributeError("items")} ||
      exists role :: !Supplied(patches, role) && MergedEnemies(patches).error == KeyError("enemy_" + RoleName(role))
  {
    TallyFromOk(map[], patches);
    if TallyPatches(patches).Ok? {
      var t := TallyPatches(patches).value;
      TallyFacts(patches);
      FinishShape(t);
    }
  }

  /** When the merge of load_data.py:179-232 succeeds: both totals are positive and
      the match-up dicts can be built. A zero total raises ZeroDivisionError first. */
  lemma MergeOutcome(patches: seq<(Patch, Blob)>)
    ensures Merge(patches).Ok? <==> TotalAnalysed(patches) > 0 && TotalN(patches) > 0 && MergedEnemies(patches).Ok?
    ensures TotalAnalysed(patches) == 0 || TotalN(patches) == 0 ==> Merge(patches) == Err(ZeroDivisionError)
    ensures TotalAnalysed(patches) > 0 && TotalN(patches) > 0 && MergedEnemies(patches).Err? ==>
      Merge(patches) == Err(MergedEnemies(patches).error)
  {
  }

  /** A merged record holds the summed sample sizes `n` and `analysed` (a missing
      one counts as 0), the pick rate 1000 n / analysed, the five lane rates and
      no header. */
  lemma MergeTotals(patches: seq<(Patch, Blob)>)
    requires Merge(patches).Ok?
    ensures var b := Merge(patches).value;
      b.header.None? &&
      b.n == Some(TotalN(patches)) && b.analysed == Some(TotalAnalysed(patches)) &&
      TotalN(patches) as real == SumOf(patches, Weight()) &&
      b.pr == Some(1000.0 * TotalN(patches) as real / TotalAnalysed(patches) as real) &&
      forall role :: role in b.lanes
  {
    TotalNSum(patches);
    forall role ensures role in Roles {
      AllRoles(role);
    }
  }

  /** A value of a patch: its lane rate for `role`, or its average win rate. */
  function LaneValue(role: Role): ((Patch, Blob)) -> real {
    (e: (Patch, Blob)) => LaneOf(e.1, role)
  }

  function AvgValue(): ((Patch, Blob)) -> real {
    (e: (Patch, Blob)) => AvgOf(e.1)
  }

  lemma LaneMassWeighted(patches: seq<(Patch, Blob)>, role: Role)
    ensures SumOf(patches, LaneMass(role)) == SumOf(patches, Weighted(Weight(), LaneValue(role)))
  {
    SumOfPointwise(patches, LaneMass(role), patches, Weighted(Weight(), LaneValue(role)));
  }

  lemma AvgMassWeighted(patches: seq<(Patch, Blob)>)
    ensures SumOf(patches, AvgMass()) == SumOf(patches, Weighted(Weight(), AvgValue()))
  {
    forall i | 0 <= i < |patches| ensures AvgMass()(patches[i]) == Weighted(Weight(), AvgValue())(patches[i]) {
      assert AvgOf(patches[i].1) * NOf(patches[i].1) as real == NOf(patches[i].1) as real * AvgOf(patches[i].1);
    }
    SumOfPointwise(patches, AvgMass(), patches, Weighted(Weight(), AvgValue()));
  }

  lemma WeightsNonNegative(patches: seq<(Patch, Blob)>)
    ensures forall i :: 0 <= i < |patches| ==> Weight()(patches[i]) >= 0.0
  {
  }

  /** Every merged lane rate is the n-weighted mean of the patches' lane rates (a
      missing one counts as 0), so it lies between the smallest and the largest. */
  lemma MergeLaneBounds(patches: seq<(Patch, Blob)>, role: Role)
    requires Merge(patches).Ok?
    ensures var b := Merge(patches).value;
      role in b.lanes &&
      (exists j :: 0 <= j < |patches| && LaneOf(patches[j].1, role) <= b.lanes[role]) &&
      (exists k :: 0 <= k < |patches| && b.lanes[role] <= LaneOf(patches[k].1, role))
  {
    AllRoles(role);
    var b := Merge(patches).value;
    assert b.lanes == MergedLanes(patches);
    assert b.lanes[role] == SumOf(patches, LaneMass(role)) / TotalN(patches) as real;
    TotalNSum(patches);
    LaneMassWeighted(patches, role);
    WeightsNonNegative(patches);
    WeightedMeanBounds(patches, Weight(), LaneValue(role));
  }

  /** The merged average win rate is the n-weighted mean of the patches' values (a
      missing one counts as 0), so it lies between the smallest and the largest. */
  lemma MergeAvgBounds(patches: seq<(Patch, Blob)>)
    requires Merge(patches).Ok?
    ensures var b := Merge(patches).value;
      b.avgWinRate.Some? &&
      (exists j :: 0 <= j < |patches| && AvgOf(patches[j].1) <= b.avgWinRate.value) &&
      (exists k :: 0 <= k < |patches| && b.avgWinRate.value <= AvgOf(patches[k].1))
  {
    var b := Merge(patches).value;
    assert b.avgWinRate == Some(SumOf(patches, AvgMass()) / TotalN(patches) as real);
    TotalNSum(patches);
    AvgMassWeighted(patches);
    WeightsNonNegative(patches);
    WeightedMeanBounds(patches, Weight(), AvgValue());
  }

  /** Every merged match-up holds the matches and wins summed over the patches
      that have it, and its win rate is wins over matches; an enemy gets a
      merged entry exactly when some patch has a record against it. */
  lemma MergeMatchups(patches: seq<(Patch, Blob)>, role: Role, id: int)
    requires Merge(patches).Ok?
    ensures var b := Merge(patches).value;
      role in b.enemies && b.enemies[role].Records? &&
      (id in b.enemies[role].table <==> Seen(patches, role, id)) &&
      (id in b.enemies[role].table ==>
        var m := b.enemies[role].table[id];
        m.matches == CountsSum(patches, role, id).matches && m.wins == CountsSum(patches, role, id).wins && Consistent(m))
  {
    MergeEnemiesAre(patches);
    var t := TallyPatches(patches).value;
    FinishShape(t);
    MergeRowKeys(patches, t, role, id);
    if id in t[role] {
      MergeRowCounts(patches, t, role, id);
    }
  }

  /** The merged row of a role has exactly the enemies some patch has. */
  lemma MergeRowKeys(patches: seq<(Patch, Blob)>, t: Tally, role: Role, id: int)
    requires TallyPatches(patches) == Ok(t) && role in t && WinRates(t[role]).Ok?
    ensures id in WinRates(t[role]).value <==> id in t[role]
    ensures id in t[role] <==> Seen(patches, role, id)
  {
    WinRatesShape(t[role]);
    TallyIdsFrom(map[], patches, role, id);
    assert RowAt(t, role) == t[role];
    assert RowAt(map[], role) == map[];
  }

  /** A merged entry holds the summed counts and their win rate. */
  lemma MergeRowCounts(patches: seq<(Patch, Blob)>, t: Tally, role: Role, id: int)
    requires TallyPatches(patches) == Ok(t) && role in t && WinRates(t[role]).Ok? && id in t[role]
    ensures id in WinRates(t[role]).value
    ensures var m := WinRates(t[role]).value[id];
      m.matches == CountsSum(patches, role, id).matches && m.wins == CountsSum(patches, role, id).wins && Consistent(m)
  {
    WinRatesShape(t[role]);
    TallyCountsFrom(map[], patches, role, id);
    assert RowAt(t, role) == t[role];
    assert RowAt(map[], role) == map[];
    assert CountsAt(map[], id) == Counts(0, 0);
  }

  lemma MergeEnemiesAre(patches: seq<(Patch, Blob)>)
    requires Merge(patches).Ok?
    ensures TallyPatches(patches).Ok? && Finish(TallyPatches(patches).value).Ok?
    ensures Merge(patches).value.enemies == Finish(TallyPatches(patches).value).value
  {
  }

  /** An enemy only one patch has a record against keeps that record's counts. */
  lemma MergeSingleEnemy(patches: seq<(Patch, Blob)>, role: Role, id: int, k: int)
    requires Merge(patches).Ok?
    requires 0 <= k < |patches| && HasEnemy(patches[k].1, role, id)
    requires forall j :: 0 <= j < |patches| && j != k ==> !HasEnemy(patches[j].1, role, id)
    ensures var b := Merge(patches).value;
      role in b.enemies && b.enemies[role].Records? && id in b.enemies[role].table &&
      b.enemies[role].table[id].matches == patches[k].1.enemies[role].table[id].matches &&
      b.enemies[role].table[id].wins == patches[k].1.enemies[role].table[id].wins
  {
    MergeMatchups(patches, role, id);
    CountsSumSingle(patches, role, id, k);
  }

  /** The items of `table` added to `row` one at a time (load_data.py:209-226). */
  method AddItems(row: map<int, Counts>, table: map<int, MatchupRecord>) returns (r: map<int, Counts>)
    ensures r == AddTable(row, table)
  {
    r := row;
    var todo := table.Keys;
    while todo != {}
      invariant todo <= table.Keys
      invariant r.Keys == row.Keys + (table.Keys - todo)
      invariant forall k :: k in r ==> r[k] == if k in todo then CountsAt(row, k) else Plus(CountsAt(row, k), RecordCounts(table, k))
      decreases todo
    {
      NonEmpty(todo);
      var key :| key in todo;
      var c := CountsAt(r, key);
      r := r[key := Counts(c.matches + table[key].matches, c.wins + table[key].wins)];
      todo := todo - {key};
    }
  }

  /** The loop of load_data.py:207-226 over one patch's enemy roles. */
  method TallyOne(t0: Tally, b: Blob) returns (r: Result<Tally>)
    ensures r == TallyRecord(t0, b)
  {
    var t := t0;
    for i := 0 to |Roles|
      invariant Fold(t0, Roles[..i], RoleTallyStep(b)) == Ok(t)
    {
      var role := Roles[i];
      FoldStep(t0, Roles, i, RoleTallyStep(b), t);
      if role in b.enemies {
        match b.enemies[role] {
          case Tuples(_) =>
            return Err(AttributeError("items"));
          case Records(table) =>
            if table != map[] {
              var row := AddItems(RowAt(t, role), table);
              t := t[role := row];
            }
        }
      }
    }
    WholeSlice(Roles);
    return Ok(t);
  }

  /** The loops of load_data.py:206-226 over every patch. */
  method TallyAll(patches: seq<(Patch, Blob)>) returns (r: Result<Tally>)
    ensures r == TallyPatches(patches)
  {
    var t: Tally := map[];
    for k := 0 to |patches|
      invariant Fold(map[], patches[..k], PatchTallyStep()) == Ok(t)
    {
      FoldStep(map[], patches, k, PatchTallyStep(), t);
      var next := TallyOne(t, patches[k].1);
      if next.Err? {
        return next;
      }
      t := next.value;
    }
    WholeSlice(patches);
    return Ok(t);
  }

  /** The inner loop of load_data.py:229-232 over one role's dict. */
  method RateRow(row: map<int, Counts>) returns (r: Result<map<int, MatchupRecord>>)
    ensures r == WinRates(row)
  {
    var rates: map<int, MatchupRecord> := map[];
    var todo := row.Keys;
    while todo != {}
      invariant todo <= row.Keys
      invariant forall id :: id in row.Keys - todo ==> row[id].matches > 0
      invariant rates == map id | id in row.Keys - todo :: MatchupRecord(row[id].matches, row[id].wins, row[id].wins as real / row[id].matches as real)
      decreases todo
    {
      NonEmpty(todo);
      var key :| key in todo;
      var c := row[key];
      if c.matches == 0 {
        return Err(ZeroDivisionError);
      }
      rates := rates[key := MatchupRecord(c.matches, c.wins, c.wins as real / c.matches as real)];
      todo := todo - {key};
    }
    assert row.Keys - todo == row.Keys;
    return Ok(rates);
  }

  /** The loop of load_data.py:228-232 over the five enemy roles. */
  method FinishAll(t: Tally) returns (r: Result<map<Role, EnemyField>>)
    ensures r == Finish(t)
  {
    var done: map<Role, EnemyField> := map[];
    for i := 0 to |Roles|
      invariant Fold(map[], Roles[..i], FinishStep(t)) == Ok(done)
    {
      var role := Roles[i];
      FoldStep(map[], Roles, i, FinishStep(t), done);
      if role !in t {
        return Err(KeyError("enemy_" + RoleName(role)));
      }
      var rates := RateRow(t[role]);
      if rates.Err? {
        return Err(rates.error);
      }
      done := done[role := Records(rates.value)];
    }
    WholeSlice(Roles);
    return Ok(done);
  }

  /** load_data.py:177-235 for one champion-role. */
  method SettleRecord(patches: seq<(Patch, Blob)>) returns (r: Result<Blob>)
    ensures r == Settle(patches)
  {
    if |patches| <= 1 {
      if patches == [] {
        return Err(IndexError);
      }
      return Ok(patches[0].1);
    }
    var n := TotalN(patches);
    var analysed := TotalAnalysed(patches);
    if analysed == 0 || n == 0 {
      return Err(ZeroDivisionError);
    }
    var pr := 1000.0 * n as real / analysed as real;
    var lanes := map role | role in Roles :: SumOf(patches, LaneMass(role)) / n as real;
    var avg := SumOf(patches, AvgMass()) / n as real;
    var t := TallyAll(patches);
    if t.Err? {
      return Err(t.error);
    }
    var enemies := FinishAll(t.value);
    if enemies.Err? {
      return Err(enemies.error);
    }
    return Ok(Blob(None, Some(n), Some(analysed), Some(pr), Some(avg), lanes, enemies.value));
  }

  // ---------------------------------------------------------------------------
  // The whole snapshot (load_data.py:172-237)
  // ---------------------------------------------------------------------------

  /** One champion-role of `lolalytics_data` with its patches, as the loops of
      load_data.py:173-174 visit them. */
  datatype Group = Group(id: int, role: Role, patches: seq<(Patch, Blob)>)

  function RoleGroup(id: int): ((Role, seq<(Patch, Blob)>)) -> seq<Group> {
    (e: (Role, seq<(Patch, Blob)>)) => [Group(id, e.0, e.1)]
  }

  function ChampionGroups(): ((int, seq<(Role, seq<(Patch, Blob)>)>)) -> seq<Group> {
    (e: (int, seq<(Role, seq<(Patch, Blob)>)>)) => FlatMap(e.1, RoleGroup(e.0))
  }

  function Groups(g: Regrouped): seq<Group> {
    FlatMap(g, ChampionGroups())
  }

  /** `new_lolalytics_data.setdefault(id, {})[role] = b`. */
  function PutRecord(out: Data, id: int, role: Role, b: Blob): Data {
    Put(out, id, Put(Get(out, id).GetOr([]), role, b))
  }

  function MergeGroup(out: Data, grp: Group): Result<Data> {
    var b :- Settle(grp.patches);
    Ok(PutRecord(out, grp.id, grp.role, b))
  }

  function MergeStep(): (Data, Group) -> Result<Data> {
    (out: Data, grp: Group) => MergeGroup(out, grp)
  }

  /** `new_lolalytics_data` after load_data.py:172-235, or the first exception. */
  function MergeAll(g: Regrouped): Result<Data> {
    Fold([], Groups(g), MergeStep())
  }

  /** `format_lolalytics_data(raw_lolalytics_data)`. */
  function FormatSnapshots(raw: RawData): Result<Data> {
    var g :- Regroup(raw);
    MergeAll(g)
  }

  /** `new_lolalytics_data[id][role]`, if present. */
  function Record(out: Data, id: int, role: Role): Option<Blob> {
    match Get(out, id)
    case None => None
    case Some(roles) => Get(roles, role)
  }

  lemma PutRecordFind(out: Data, id: int, role: Role, b: Blob, id': int, role': Role)
    ensures Record(PutRecord(out, id, role, b), id', role') ==
      if id == id' && role == role' then Some(b) else Record(out, id', role')
  {
    var roles := Get(out, id).GetOr([]);
    PutGet(out, id, Put(roles, role, b), id');
    PutGet(roles, role, b, role');
  }

  /** The record a champion-role settles to, if it settles. */
  function Settled(patches: seq<(Patch, Blob)>): Option<Blob> {
    match Settle(patches)
    case Ok(b) => Some(b)
    case Err(_) => None
  }

  lemma MergeUnfold(out: Data, groups: seq<Group>)
    requires groups != []
    ensures Fold(out, groups, MergeStep()) ==
      match Fold(out, groups[..|groups| - 1], MergeStep())
      case Err(e) => Err(e)
      case Ok(prev) => MergeGroup(prev, groups[|groups| - 1])
  {
  }

  lemma MergeGroupOk(out: Data, grp: Group)
    ensures MergeGroup(out, grp).Ok? <==> Settled(grp.patches).Some?
    ensures MergeGroup(out, grp).Ok? ==> MergeGroup(out, grp).value == PutRecord(out, grp.id, grp.role, Settled(grp.patches).value)
  {
  }

  /** The last group visited for a champion-role. */
  function LastGroup(groups: seq<Group>, id: int, role: Role): Option<Group> {
    if groups == [] then None
    else
      var grp := groups[|groups| - 1];
      if grp.id == id && grp.role == role then Some(grp) else LastGroup(groups[..|groups| - 1], id, role)
  }

  /** The merge loop succeeds exactly when every champion-role settles. */
  lemma {:induction false} MergeOk(out: Data, groups: seq<Group>)
    ensures Fold(out, groups, MergeStep()).Ok? <==> forall i :: 0 <= i < |groups| ==> Settled(groups[i].patches).Some?
  {
    if groups != [] {
      var init := groups[..|groups| - 1];
      var grp := groups[|groups| - 1];
      assert forall i :: 0 <= i < |init| ==> init[i] == groups[i];
      assert (forall i :: 0 <= i < |groups| ==> Settled(groups[i].patches).Some?) <==>
        (forall i :: 0 <= i < |init| ==> Settled(init[i].patches).Some?) && Settled(grp.patches).Some?;
      MergeOk(out, init);
      MergeUnfold(out, groups);
      match Fold(out, init, MergeStep())
      case Err(_) =>
      case Ok(prev) =>
        MergeGroupOk(prev, grp);
    }
  }

  /** Under each champion-role the merge holds what the last group for it settled to. */
  lemma {:induction false} MergeFind(out: Data, groups: seq<Group>, id: int, role: Role)
    requires Fold(out, groups, MergeStep()).Ok?
    ensures Record(Fold(out, groups, MergeStep()).value, id, role) ==
      match LastGroup(groups, id, role)
      case None => Record(out, id, role)
      case Some(grp) => Settled(grp.patches)
  {
    if groups != [] {
      var init := groups[..|groups| - 1];
      var grp := groups[|groups| - 1];
      MergeUnfold(out, groups);
      var prev := Fold(out, init, MergeStep()).value;
      MergeFind(out, init, id, role);
      MergeGroupOk(prev, grp);
      PutRecordFind(prev, grp.id, grp.role, Settled(grp.patches).value, id, role);
    }
  }

  /** `lolalytics_data` has a dict for this champion-role. */
  predicate Present(g: Regrouped, id: int, role: Role) {
    Get(g, id).Some? && Get(Get(g, id).value, role).Some?
  }

  /** Each group of a nested dict is one of its champion-roles with its patches,
      and each champion-role is a group. */
  lemma GroupsMembers(g: Regrouped, grp: Group)
    requires Nested(g)
    ensures grp in Groups(g) <==> Present(g, grp.id, grp.role) && grp.patches == PatchesAt(g, grp.id, grp.role)
  {
    FlatMapMembers(g, ChampionGroups(), grp);
    if grp in Groups(g) {
      var i :| 0 <= i < |g| && grp in ChampionGroups()(g[i]);
      FlatMapMembers(g[i].1, RoleGroup(g[i].0), grp);
      var j :| 0 <= j < |g[i].1| && grp in RoleGroup(g[i].0)(g[i].1[j]);
      DictItemIsGet(g, i);
      DictItemIsGet(g[i].1, j);
    }
    if Present(g, grp.id, grp.role) && grp.patches == PatchesAt(g, grp.id, grp.role) {
      var roles := Get(g, grp.id).value;
      var i :| 0 <= i < |g| && g[i] == (grp.id, roles);
      var j :| 0 <= j < |roles| && roles[j] == (grp.role, grp.patches);
      assert grp in RoleGroup(grp.id)(roles[j]);
      FlatMapMembers(roles, RoleGroup(grp.id), grp);
      assert grp in ChampionGroups()(g[i]);
    }
  }

  /** When every group for a champion-role is `grp`, the last one is `grp` if any. */
  lemma {:induction false} LastGroupIs(groups: seq<Group>, grp: Group)
    requires forall i :: 0 <= i < |groups| && groups[i].id == grp.id && groups[i].role == grp.role ==> groups[i] == grp
    ensures LastGroup(groups, grp.id, grp.role) == if grp in groups then Some(grp) else None
  {
    if groups != [] {
      var init := groups[..|groups| - 1];
      assert forall i :: 0 <= i < |init| ==> init[i] == groups[i];
      LastGroupIs(init, grp);
      assert groups == init + [groups[|groups| - 1]];
    }
  }

  /** load_data.py:172-235 on a nested dict: it succeeds exactly when every
      champion-role settles, and then each champion-role of the input holds what its
      patches settle to (the merge of several, or the only one), and nothing else
      is there. */
  lemma MergeAllFind(g: Regrouped, id: int, role: Role)
    requires Nested(g)
    ensures MergeAll(g).Ok? <==> forall i :: 0 <= i < |Groups(g)| ==> Settled(Groups(g)[i].patches).Some?
    ensures MergeAll(g).Ok? ==>
      Record(MergeAll(g).value, id, role) == if Present(g, id, role) then Settled(PatchesAt(g, id, role)) else None
    ensures MergeAll(g).Ok? && Present(g, id, role) ==> Settled(PatchesAt(g, id, role)).Some?
  {
    var groups := Groups(g);
    var grp := Group(id, role, PatchesAt(g, id, role));
    MergeOk([], groups);
    forall i | 0 <= i < |groups| && groups[i].id == grp.id && groups[i].role == grp.role
      ensures groups[i] == grp
    {
      GroupsMembers(g, groups[i]);
    }
    LastGroupIs(groups, grp);
    GroupsMembers(g, grp);
    if MergeAll(g).Ok? {
      MergeFind([], groups, id, role);
    }
  }

  lemma InsertPresent(g: Regrouped, v: Visit, b: Blob, id: int, role: Role)
    ensures Present(Insert(g, v, b), id, role) <==> (v.id == id && v.role == role) || Present(g, id, role)
  {
    if id == v.id {
      InsertPresentSame(g, v, b, role);
    } else {
      InsertPresentOther(g, v, b, id, role);
    }
  }

  lemma InsertPresentSame(g: Regrouped, v: Visit, b: Blob, role: Role)
    ensures Present(Insert(g, v, b), v.id, role) <==> v.role == role || Present(g, v.id, role)
  {
    var roles := Get(g, v.id).GetOr([]);
    var patches := Get(roles, v.role).GetOr([]);
    var roles' := Put(roles, v.role, Put(patches, v.patch, b));
    PresentAfterPut(g, v.id, roles', role);
    PutGet(roles, v.role, Put(patches, v.patch, b), role);
    PresentIn(g, v.id, role);
  }

  /** Filing under a champion id replaces its roles by `roles`. */
  lemma PresentAfterPut(g: Regrouped, id: int, roles: seq<(Role, seq<(Patch, Blob)>)>, role: Role)
    ensures Present(Put(g, id, roles), id, role) <==> Get(roles, role).Some?
  {
    PutGet(g, id, roles, id);
  }

  /** A champion id that is not filed yet has no roles. */
  lemma PresentIn(g: Regrouped, id: int, role: Role)
    ensures Present(g, id, role) <==> Get(Get(g, id).GetOr([]), role).Some?
  {
  }

  lemma InsertPresentOther(g: Regrouped, v: Visit, b: Blob, id: int, role: Role)
    requires id != v.id
    ensures Present(Insert(g, v, b), id, role) <==> Present(g, id, role)
  {
    var roles := Get(g, v.id).GetOr([]);
    var patches := Get(roles, v.role).GetOr([]);
    PutGet(g, v.id, Put(roles, v.role, Put(patches, v.patch, b)), id);
    assert Get(Insert(g, v, b), id) == Get(g, id);
  }

  /** Some record was visited with this champion id and role. */
  predicate Visited(visits: seq<Visit>, id: int, role: Role) {
    exists i :: 0 <= i < |visits| && visits[i].id == id && visits[i].role == role
  }

  /** Some record of this patch was visited with this champion id and role. */
  predicate VisitedIn(visits: seq<Visit>, id: int, role: Role, patch: Patch) {
    exists i :: 0 <= i < |visits| && visits[i].id == id && visits[i].role == role && visits[i].patch == patch
  }

  lemma VisitedUnfold(visits: seq<Visit>, id: int, role: Role)
    requires visits != []
    ensures Visited(visits, id, role) <==>
      Visited(visits[..|visits| - 1], id, role) || (visits[|visits| - 1].id == id && visits[|visits| - 1].role == role)
  {
    var init := visits[..|visits| - 1];
    if Visited(visits, id, role) {
      var i :| 0 <= i < |visits| && visits[i].id == id && visits[i].role == role;
      if i < |init| {
        assert init[i] == visits[i];
      }
    }
    if Visited(init, id, role) {
      var i :| 0 <= i < |init| && init[i].id == id && init[i].role == role;
      assert visits[i] == init[i];
    }
  }

  /** A champion-role is in `lolalytics_data` exactly when a record was visited for it. */
  lemma {:induction false} RegroupPresent(g: Regrouped, visits: seq<Visit>, id: int, role: Role)
    requires Fold(g, visits, RegroupStep()).Ok?
    ensures Present(Fold(g, visits, RegroupStep()).value, id, role) <==> Present(g, id, role) || Visited(visits, id, role)
  {
    if visits != [] {
      var init := visits[..|visits| - 1];
      var v := visits[|visits| - 1];
      VisitedUnfold(visits, id, role);
      RegroupUnfold(g, visits);
      var prev := Fold(g, init, RegroupStep()).value;
      RegroupPresent(g, init, id, role);
      RegroupVisitOk(prev, v);
      InsertPresent(prev, v, Expanded(v).value, id, role);
    }
  }

  /** The whole of load_data.py:155-237: the result has a record for a champion-role
      exactly when some patch had one, and it is what that champion-role's patches
      settle to. */
  lemma FormatRecord(raw: RawData, id: int, role: Role)
    requires FormatSnapshots(raw).Ok?
    ensures Regroup(raw).Ok?
    ensures Record(FormatSnapshots(raw).value, id, role).Some? <==> Visited(Visits(raw), id, role)
    ensures Visited(Visits(raw), id, role) ==>
      Record(FormatSnapshots(raw).value, id, role) == Settled(PatchesAt(Regroup(raw).value, id, role))
  {
    var g := Regroup(raw).value;
    RegroupNested([], Visits(raw));
    RegroupPresent([], Visits(raw), id, role);
    MergeAllFind(g, id, role);
  }

  /** The patches of a champion-role in a nested dict are a dict. */
  lemma PatchesDict(g: Regrouped, id: int, role: Role)
    requires Nested(g) && Present(g, id, role)
    ensures IsDict(PatchesAt(g, id, role))
  {
  }

  /** A champion-role visited in one patch only has that one patch in `lolalytics_data`. */
  lemma SinglePatchAt(visits: seq<Visit>, id: int, role: Role, patch: Patch)
    requires Fold([], visits, RegroupStep()).Ok?
    requires VisitedIn(visits, id, role, patch)
    requires forall i :: 0 <= i < |visits| && visits[i].id == id && visits[i].role == role ==> visits[i].patch == patch
    ensures var p := PatchesAt(Fold([], visits, RegroupStep()).value, id, role);
      |p| == 1 && p[0].0 == patch
  {
    var g := Fold([], visits, RegroupStep()).value;
    var p := PatchesAt(g, id, role);
    RegroupPatchKeys(visits, id, role, patch);
    RegroupPresent([], visits, id, role);
    PatchesDict(g, id, role);
    forall k | 0 <= k < |p| ensures p[k].0 == patch {
      var q := Keys(p)[k];
      RegroupPatchKeys(visits, id, role, q);
      var i :| 0 <= i < |visits| && visits[i].id == id && visits[i].role == role && visits[i].patch == q;
    }
    if |p| > 1 {
      assert false;
    }
  }

  /** A champion-role recorded in one patch only comes out as that patch's record,
      expanded: `list(patches.values())[0]`. */
  lemma FormatSinglePatch(raw: RawData, id: int, role: Role, patch: Patch)
    requires FormatSnapshots(raw).Ok?
    requires VisitedIn(Visits(raw), id, role, patch)
    requires forall i :: 0 <= i < |Visits(raw)| && Visits(raw)[i].id == id && Visits(raw)[i].role == role ==>
      Visits(raw)[i].patch == patch
    ensures LastVisit(Visits(raw), id, role, patch).Some?
    ensures Record(FormatSnapshots(raw).value, id, role) == Expanded(LastVisit(Visits(raw), id, role, patch).value)
  {
    var visits := Visits(raw);
    var g := Regroup(raw).value;
    var p := PatchesAt(g, id, role);
    FormatRecord(raw, id, role);
    RegroupNested([], visits);
    RegroupPresent([], visits, id, role);
    PatchesDict(g, id, role);
    LastVisitSome(visits, id, role, patch);
    SinglePatchAt(visits, id, role, patch);
    RegroupFind([], visits, id, role, patch);
    FindPatches(g, id, role, patch);
    assert Get(p, patch) == Some(p[0].1);
  }

  /** A champion-role recorded in two patches or more comes out as the merge of its
      patches' records. */
  lemma FormatMerged(raw: RawData, id: int, role: Role, patch1: Patch, patch2: Patch)
    requires FormatSnapshots(raw).Ok?
    requires VisitedIn(Visits(raw), id, role, patch1) && VisitedIn(Visits(raw), id, role, patch2) && patch1 != patch2
    ensures Regroup(raw).Ok?
    ensures Merge(PatchesAt(Regroup(raw).value, id, role)).Ok?
    ensures Record(FormatSnapshots(raw).value, id, role) == Some(Merge(PatchesAt(Regroup(raw).value, id, role)).value)
  {
    var visits := Visits(raw);
    var g := Regroup(raw).value;
    var p := PatchesAt(g, id, role);
    FormatRecord(raw, id, role);
    RegroupPatchKeys(visits, id, role, patch1);
    RegroupPatchKeys(visits, id, role, patch2);
    var i :| 0 <= i < |p| && Keys(p)[i] == patch1;
    var j :| 0 <= j < |p| && Keys(p)[j] == patch2;
    assert i != j;
    assert |p| > 1;
  }

  // ---------------------------------------------------------------------------
  // The merged record has no header (load_data.py:197-203, champion.py:50-51)
  // ---------------------------------------------------------------------------

  /** As written: a merged record carries no `header`, so building a Champion from
      it fails at `champion.role` with KeyError, although every field it formats is
      already a dict. */
  lemma MergedRecordLacksHeader(patches: seq<(Patch, Blob)>, id: int)
    requires Merge(patches).Ok?
    ensures ChampionOf(id, Merge(patches).value) == Err(KeyError("header"))
  {
    var b := Merge(patches).value;
    MergeEnemiesAre(patches);
    FinishShape(TallyPatches(patches).value);
    FormattedDataShape(b);
    forall role | role in Roles ensures role in b.enemies && FormatField(b.enemies[role]).Ok? {
    }
    assert FormattedData(b).Ok? && FormattedData(b).value.header.None?;
  }

  /** The whole loader as written: a champion-lane recorded in two patches comes out
      as a record that no Champion can be built from. */
  lemma FormatMergedLacksHeader(raw: RawData, id: int, role: Role, patch1: Patch, patch2: Patch)
    requires FormatSnapshots(raw).Ok?
    requires VisitedIn(Visits(raw), id, role, patch1) && VisitedIn(Visits(raw), id, role, patch2) && patch1 != patch2
    ensures Record(FormatSnapshots(raw).value, id, role).Some?
    ensures ChampionOf(id, Record(FormatSnapshots(raw).value, id, role).value) == Err(KeyError("header"))
  {
    FormatMerged(raw, id, role, patch1, patch2);
    MergedRecordLacksHeader(PatchesAt(Regroup(raw).value, id, role), id);
  }

  /** A patch's header win rate, 0 where it has no header. */
  function HeaderWrOf(b: Blob): real {
    if b.header.Some? then b.header.value.wr else 0.0
  }

  /** `header.wr * n` of one patch. */
  function WrMass(): ((Patch, Blob)) -> real {
    (e: (Patch, Blob)) => HeaderWrOf(e.1) * NOf(e.1) as real
  }

  /** The header a merged record evidently needs: its own lane, the summed sample
      size, the n-weighted win rate and the merged pick rate. */
  function MergedHeader(role: Role, patches: seq<(Patch, Blob)>): Header
    requires TotalN(patches) > 0 && TotalAnalysed(patches) > 0
  {
    Header(role, TotalN(patches), SumOf(patches, WrMass()) / TotalN(patches) as real,
           1000.0 * TotalN(patches) as real / TotalAnalysed(patches) as real)
  }

  /** Corrected: the merge of load_data.py:179-232 with that header added. */
  function MergeWithHeader(role: Role, patches: seq<(Patch, Blob)>): Result<Blob> {
    var b :- Merge(patches);
    MergeOutcome(patches);
    Ok(b.(header := Some(MergedHeader(role, patches))))
  }

  /** With a header, a merged record builds a Champion of its own lane, carrying the
      summed sample size, the merged pick rate and average win rate, and the merged
      match-up dicts. */
  lemma MergeWithHeaderBuildsChampion(role: Role, patches: seq<(Patch, Blob)>, id: int)
    requires Merge(patches).Ok?
    ensures MergeWithHeader(role, patches).Ok?
    ensures var b := Merge(patches).value;
      ChampionOf(id, MergeWithHeader(role, patches).value).Ok? &&
      var c := ChampionOf(id, MergeWithHeader(role, patches).value).value;
      c.id == id && c.role == role && c.n == TotalN(patches) && c.pr == b.pr.value &&
      c.avgWinRate == b.avgWinRate.value && role in b.lanes && c.laneShare == b.lanes[role] &&
      forall r :: r in Roles ==> r in b.enemies && Records(c.enemies.Get(r)) == b.enemies[r]
  {
    var b := Merge(patches).value;
    var b' := MergeWithHeader(role, patches).value;
    MergeOutcome(patches);
    MergeTotals(patches);
    MergeEnemiesAre(patches);
    FinishShape(TallyPatches(patches).value);
    FormattedDataShape(b');
    forall r | r in Roles ensures r in b'.enemies && FormatField(b'.enemies[r]).Ok? {
    }
    ChampionOfFields(id, b');
  }

  /** The inner loop of load_data.py:174-235, over one champion's roles. */
  method MergeRoles(out0: Data, id: int, roles: seq<(Role, seq<(Patch, Blob)>)>) returns (r: Result<Data>)
    ensures r == Fold(out0, FlatMap(roles, RoleGroup(id)), MergeStep())
  {
    var out := out0;
    for k := 0 to |roles|
      invariant Fold(out0, FlatMap(roles[..k], RoleGroup(id)), MergeStep()) == Ok(out)
    {
      var grp := Group(id, roles[k].0, roles[k].1);
      FoldLevelStep(out0, roles, k, RoleGroup(id), MergeStep(), out);
      FoldSingle(out, grp, MergeStep());
      var b := SettleRecord(roles[k].1);
      if b.Err? {
        return Err(b.error);
      }
      out := PutRecord(out, id, roles[k].0, b.value);
    }
    WholeSlice(roles);
    return Ok(out);
  }

  /** The loops of load_data.py:172-235. */
  method MergeChampions(g: Regrouped) returns (r: Result<Data>)
    ensures r == MergeAll(g)
  {
    var out := [];
    for i := 0 to |g|
      invariant Fold([], FlatMap(g[..i], ChampionGroups()), MergeStep()) == Ok(out)
    {
      FoldLevelStep([], g, i, ChampionGroups(), MergeStep(), out);
      var next := MergeRoles(out, g[i].0, g[i].1);
      if next.Err? {
        return next;
      }
      out := next.value;
    }
    WholeSlice(g);
    return Ok(out);
  }

  /** `format_lolalytics_data` (load_data.py:155-237). */
  method FormatLolalyticsData(raw: RawData) returns (r: Result<Data>)
    ensures r == FormatSnapshots(raw)
  {
    var g := RegroupAll(raw);
    if g.Err? {
      return Err(g.error);
    }
    r := MergeChampions(g.value);
  }
}
