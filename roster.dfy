/** The roster: every champion-role record of the loaded snapshot becomes a
    Champion, stored by champion id and then by role (lolalytics_scraper/roster.py:18-75). */
module RosterTable {
  import opened Util
  import opened Dict
  import opened Snapshot
  import opened ChampionData

  /** The loaded snapshot: champion id -> role key -> record, in dict order. The
      roster never reads the role keys: each Champion takes its role from its header. */
  type Data = seq<(int, seq<(Role, Blob)>)>

  /** `_champions`: champion id -> role -> Champion. */
  type Table = seq<(int, seq<(Role, Champion)>)>

  /** The records of one champion id, paired with that id. */
  function Pairs<B>(id: int, blobs: seq<B>): seq<(int, B)> {
    if blobs == [] then [] else Pairs(id, blobs[..|blobs| - 1]) + [(id, blobs[|blobs| - 1])]
  }

  /** The (id, record) pairs `_create_champions` visits, in visiting order. */
  function Items<B>(data: seq<(int, seq<(Role, B)>)>): seq<(int, B)> {
    if data == [] then []
    else Items(data[..|data| - 1]) + Pairs(data[|data| - 1].0, Values(data[|data| - 1].1))
  }

  lemma PairsStep<B>(id: int, blobs: seq<B>, j: int)
    requires 0 <= j < |blobs|
    ensures Pairs(id, blobs[..j + 1]) == Pairs(id, blobs[..j]) + [(id, blobs[j])]
  {
    assert blobs[..j + 1][..j] == blobs[..j];
  }

  lemma ItemsStep<B>(data: seq<(int, seq<(Role, B)>)>, i: int)
    requires 0 <= i < |data|
    ensures Items(data[..i + 1]) == Items(data[..i]) + Pairs(data[i].0, Values(data[i].1))
  {
    assert data[..i + 1][..i] == data[..i];
  }

  lemma {:induction false} PairsAppend<B>(id: int, a: seq<B>, b: seq<B>)
    ensures Pairs(id, a + b) == Pairs(id, a) + Pairs(id, b)
  {
    if b == [] {
      assert a + b == a;
    } else {
      var init := b[..|b| - 1];
      assert (a + b)[..|a + b| - 1] == a + init;
      PairsAppend(id, a, init);
    }
  }

  /** The items of the champions before `i`, of champion `i`, and of those after it. */
  lemma ItemsSplit<B>(data: seq<(int, seq<(Role, B)>)>, i: int)
    requires 0 <= i < |data|
    ensures Items(data) == Items(data[..i]) + Pairs(data[i].0, Values(data[i].1)) + Items(data[i + 1..])
  {
    ItemsStep(data, i);
    SplitAt(data, i + 1);
    ItemsAppend(data[..i + 1], data[i + 1..]);
  }

  lemma {:induction false} ItemsAppend<B>(a: seq<(int, seq<(Role, B)>)>, b: seq<(int, seq<(Role, B)>)>)
    ensures Items(a + b) == Items(a) + Items(b)
  {
    if b != [] {
      var init := b[..|b| - 1];
      assert (a + b)[..|a + b| - 1] == a + init;
      ItemsAppend(a, init);
    } else {
      assert a + b == a;
    }
  }

  /** `self._champions.setdefault(c.id, {})[c.role] = c`. */
  function Place(table: Table, c: Champion): Table {
    Put(table, c.id, Put(Get(table, c.id).GetOr([]), c.role, c))
  }

  /** The outcome of the Champion constructor on each visited record. */
  function Outcomes(items: seq<(int, Blob)>): (r: seq<Result<Champion>>)
    ensures |r| == |items|
  {
    if items == [] then []
    else
      var last := items[|items| - 1];
      Outcomes(items[..|items| - 1]) + [ChampionOf(last.0, last.1)]
  }

  lemma {:induction false} OutcomesAt(items: seq<(int, Blob)>, k: int)
    requires 0 <= k < |items|
    ensures Outcomes(items)[k] == ChampionOf(items[k].0, items[k].1)
  {
    var n := |items| - 1;
    if k < n {
      OutcomesAt(items[..n], k);
    }
  }

  lemma OutcomesAppend(items: seq<(int, Blob)>, item: (int, Blob))
    ensures Outcomes(items + [item]) == Outcomes(items) + [ChampionOf(item.0, item.1)]
  {
    assert (items + [item])[..|items|] == items;
  }

  lemma {:induction false} OutcomesConcat(a: seq<(int, Blob)>, b: seq<(int, Blob)>)
    ensures Outcomes(a + b) == Outcomes(a) + Outcomes(b)
  {
    if b == [] {
      assert a + b == a;
    } else {
      var init := b[..|b| - 1];
      assert (a + b)[..|a + b| - 1] == a + init;
      OutcomesConcat(a, init);
    }
  }

  /** The exception that stops the visit: the first rejected record's. */
  function FirstError(outcomes: seq<Result<Champion>>): Option<Error> {
    if outcomes == [] then None
    else
      var prev := FirstError(outcomes[..|outcomes| - 1]);
      var last := outcomes[|outcomes| - 1];
      if prev.Some? then prev else if last.Err? then Some(last.error) else None
  }

  /** The Champions stored before the visit stops, in visiting order. */
  function Placed(outcomes: seq<Result<Champion>>): seq<Champion> {
    if outcomes == [] then []
    else
      var init := outcomes[..|outcomes| - 1];
      var last := outcomes[|outcomes| - 1];
      if FirstError(init).Some? || last.Err? then Placed(init) else Placed(init) + [last.value]
  }

  /** `Place` applied to each Champion in turn. */
  function PlaceAll(start: Table, champions: seq<Champion>): Table {
    if champions == [] then start
    else Place(PlaceAll(start, champions[..|champions| - 1]), champions[|champions| - 1])
  }

  /** The table and the exception, if any, once the constructor outcomes have been
      visited: the visit stops at the first exception, and what was stored before
      it stays stored. */
  datatype Built = Built(table: Table, error: Option<Error>)

  function BuildFrom(start: Table, outcomes: seq<Result<Champion>>): Built {
    Built(PlaceAll(start, Placed(outcomes)), FirstError(outcomes))
  }

  lemma PlaceAllAppend(start: Table, champions: seq<Champion>, c: Champion)
    ensures PlaceAll(start, champions + [c]) == Place(PlaceAll(start, champions), c)
  {
    assert (champions + [c])[..|champions|] == champions;
  }

  lemma OutcomeAppend(outcomes: seq<Result<Champion>>, outcome: Result<Champion>)
    ensures FirstError(outcomes + [outcome]) ==
      if FirstError(outcomes).Some? then FirstError(outcomes) else if outcome.Err? then Some(outcome.error) else None
    ensures Placed(outcomes + [outcome]) ==
      if FirstError(outcomes).Some? || outcome.Err? then Placed(outcomes) else Placed(outcomes) + [outcome.value]
  {
    assert (outcomes + [outcome])[..|outcomes|] == outcomes;
  }

  /** Once a record has been rejected, later records change nothing. */
  lemma {:induction false} BuildErrorPersists(outcomes: seq<Result<Champion>>, rest: seq<Result<Champion>>)
    requires FirstError(outcomes).Some?
    ensures FirstError(outcomes + rest) == FirstError(outcomes)
    ensures Placed(outcomes + rest) == Placed(outcomes)
  {
    if rest != [] {
      var init := rest[..|rest| - 1];
      var all := outcomes + rest;
      assert all[..|all| - 1] == outcomes + init;
      BuildErrorPersists(outcomes, init);
    } else {
      assert outcomes + rest == outcomes;
    }
  }

  /** The Champions of all accepted records, in visiting order. */
  function Accepted(outcomes: seq<Result<Champion>>): seq<Champion> {
    if outcomes == [] then []
    else
      var last := outcomes[|outcomes| - 1];
      Accepted(outcomes[..|outcomes| - 1]) + if last.Ok? then [last.value] else []
  }

  /** Construction fails exactly when some record is rejected; it then raises the
      exception of the first such record and keeps exactly the Champions built
      before it. Without an exception every record's Champion is stored. */
  lemma {:induction false} BuildStopsAtFirstError(outcomes: seq<Result<Champion>>)
    ensures FirstError(outcomes).None? <==> forall i :: 0 <= i < |outcomes| ==> outcomes[i].Ok?
    ensures FirstError(outcomes).None? ==> Placed(outcomes) == Accepted(outcomes)
    ensures FirstError(outcomes).Some? ==>
      exists k :: 0 <= k < |outcomes| && outcomes[k].Err? &&
        FirstError(outcomes) == Some(outcomes[k].error) &&
        Placed(outcomes) == Accepted(outcomes[..k]) &&
        forall i :: 0 <= i < k ==> outcomes[i].Ok?
  {
    if outcomes != [] {
      var n := |outcomes| - 1;
      var init := outcomes[..n];
      assert forall i :: 0 <= i < n ==> init[i] == outcomes[i];
      BuildStopsAtFirstError(init);
      if FirstError(init).Some? {
        var k :| 0 <= k < n && init[k].Err? &&
          FirstError(init) == Some(init[k].error) &&
          Placed(init) == Accepted(init[..k]) &&
          forall i :: 0 <= i < k ==> init[i].Ok?;
        assert init[..k] == outcomes[..k];
      } else if outcomes[n].Err? {
        assert outcomes[..n] == init;
      }
    }
  }

  /** `_champions[id][role]`, when both keys are present. */
  function Lookup(table: Table, id: int, role: Role): Option<Champion> {
    match Get(table, id)
    case None => None
    case Some(roles) => Get(roles, role)
  }

  /** Storing `c` makes it the answer for its id and role and changes no other answer. */
  lemma PlaceLookup(table: Table, c: Champion, id: int, role: Role)
    ensures Lookup(Place(table, c), id, role) ==
      if id == c.id && role == c.role then Some(c) else Lookup(table, id, role)
  {
    var roles := Get(table, c.id).GetOr([]);
    PutGet(table, c.id, Put(roles, c.role, c), id);
    PutGet(roles, c.role, c, role);
  }

  /** An independent reading of the stored Champions: the last one with this id and lane. */
  function LastWith(champions: seq<Champion>, id: int, role: Role): Option<Champion> {
    if champions == [] then None
    else
      var c := champions[|champions| - 1];
      if c.id == id && c.role == role then Some(c) else LastWith(champions[..|champions| - 1], id, role)
  }

  /** After storing `champions`, `_champions[id][role]` is the last of them with that
      id and lane; an id and lane none of them has keeps its earlier answer. */
  lemma {:induction false} PlaceAllLookup(start: Table, champions: seq<Champion>, id: int, role: Role)
    ensures Lookup(PlaceAll(start, champions), id, role) ==
      match LastWith(champions, id, role)
      case Some(c) => Some(c)
      case None => Lookup(start, id, role)
  {
    if champions != [] {
      var init := champions[..|champions| - 1];
      PlaceAllLookup(start, init, id, role);
      PlaceLookup(PlaceAll(start, init), champions[|champions| - 1], id, role);
    }
  }

  /** The Champion of record `k` carries that record's id and its header's lane
      (ChampionData.ChampionOfFields); when no later record yields the same id and
      lane and construction raised nothing, it is what the roster stores for them. */
  lemma {:induction false} LastAcceptedIsStored(items: seq<(int, Blob)>, k: int)
    requires 0 <= k < |items| && ChampionOf(items[k].0, items[k].1).Ok?
    requires forall j :: k < j < |items| && ChampionOf(items[j].0, items[j].1).Ok? ==>
      ChampionOf(items[j].0, items[j].1).value.role != ChampionOf(items[k].0, items[k].1).value.role ||
      items[j].0 != items[k].0
    ensures items[k].0 == ChampionOf(items[k].0, items[k].1).value.id
    ensures LastWith(Accepted(Outcomes(items)), items[k].0, ChampionOf(items[k].0, items[k].1).value.role) ==
      Some(ChampionOf(items[k].0, items[k].1).value)
  {
    ChampionOfFields(items[k].0, items[k].1);
    var n := |items| - 1;
    var init := items[..n];
    assert Outcomes(items)[..n] == Outcomes(init);
    OutcomesAt(items, k);
    if k < n {
      OutcomesAt(items, n);
      ChampionOfFields(items[n].0, items[n].1);
      assert init[k] == items[k];
      assert forall j :: k < j < n ==> init[j] == items[j];
      LastAcceptedIsStored(init, k);
      var c := ChampionOf(items[k].0, items[k].1).value;
      var last := Outcomes(items)[n];
      var before := Accepted(Outcomes(init));
      if last.Ok? {
        assert (before + [last.value])[..|before|] == before;
      } else {
        assert before + [] == before;
      }
    }
  }

  /** Champions that share an id, each under its own lane, no lane twice. */
  ghost predicate RolesOf(id: int, roles: seq<(Role, Champion)>) {
    IsDict(roles) && forall j :: 0 <= j < |roles| ==> roles[j].1.id == id && roles[j].1.role == roles[j].0
  }

  /** Every stored Champion sits under its own id and its own lane, and no key repeats. */
  ghost predicate WellFormed(table: Table) {
    IsDict(table) && forall i :: 0 <= i < |table| ==> RolesOf(table[i].0, table[i].1)
  }

  lemma PutRolesOf(id: int, roles: seq<(Role, Champion)>, c: Champion)
    requires RolesOf(id, roles) && c.id == id
    ensures RolesOf(id, Put(roles, c.role, c))
  {
    PutIsDict(roles, c.role, c);
    if c.role in Keys(roles) {
      ReplaceAt(roles, c.role, c);
    }
  }

  lemma PlaceWellFormed(table: Table, c: Champion)
    requires WellFormed(table)
    ensures WellFormed(Place(table, c))
  {
    var found := Get(table, c.id);
    var roles := found.GetOr([]);
    assert RolesOf(c.id, roles) by {
      if found.Some? {
        var i :| 0 <= i < |table| && table[i] == (c.id, found.value);
      }
    }
    var roles' := Put(roles, c.role, c);
    PutRolesOf(c.id, roles, c);
    PutIsDict(table, c.id, roles');
    var r := Place(table, c);
    if c.id in Keys(table) {
      ReplaceAt(table, c.id, roles');
      forall i | 0 <= i < |r| ensures RolesOf(r[i].0, r[i].1) {
        if table[i].0 != c.id {
          assert RolesOf(table[i].0, table[i].1);
        }
      }
    } else {
      forall i | 0 <= i < |r| ensures RolesOf(r[i].0, r[i].1) {
        if i < |table| {
          assert r[i] == table[i];
          assert RolesOf(table[i].0, table[i].1);
        }
      }
    }
  }

  /** Storing keeps the table well formed. */
  lemma {:induction false} PlaceAllWellFormed(start: Table, champions: seq<Champion>)
    requires WellFormed(start)
    ensures WellFormed(PlaceAll(start, champions))
  {
    if champions != [] {
      var init := champions[..|champions| - 1];
      PlaceAllWellFormed(start, init);
      PlaceWellFormed(PlaceAll(start, init), champions[|champions| - 1]);
    }
  }

  /** The `champions` tuple: every stored Champion, by id and then by lane, in dict order. */
  function Flatten(table: Table): seq<Champion> {
    if table == [] then [] else Flatten(table[..|table| - 1]) + Values(table[|table| - 1].1)
  }

  lemma WellFormedPrefix(table: Table, n: nat)
    requires WellFormed(table) && n <= |table|
    ensures WellFormed(table[..n])
  {
    IsDictPrefix(table, n);
    assert forall i :: 0 <= i < n ==> table[..n][i] == table[i];
  }

  /** A Champion stored under `id` has that id; its lane is its key. */
  lemma RolesMembers(id: int, roles: seq<(Role, Champion)>, c: Champion)
    requires RolesOf(id, roles)
    ensures c in Values(roles) ==> c.id == id
    ensures c in Values(roles) <==> c.id == id && Get(roles, c.role) == Some(c)
  {
    if c in Values(roles) {
      var j :| 0 <= j < |roles| && Values(roles)[j] == c;
      DictItemIsGet(roles, j);
    }
    if c.id == id && Get(roles, c.role) == Some(c) {
      var j :| 0 <= j < |roles| && roles[j] == (c.role, c);
      assert Values(roles)[j] == c;
    }
  }

  lemma {:induction false} FlattenIds(table: Table, c: Champion)
    requires WellFormed(table)
    ensures c in Flatten(table) ==> c.id in Keys(table)
  {
    if table != [] {
      var k := |table| - 1;
      WellFormedPrefix(table, k);
      FlattenIds(table[..k], c);
      assert RolesOf(table[k].0, table[k].1);
      RolesMembers(table[k].0, table[k].1, c);
      assert Keys(table) == Keys(table[..k]) + [table[k].0];
    }
  }

  /** A Champion is listed exactly when it is what the table stores for its id and lane. */
  lemma {:induction false} FlattenMembers(table: Table, c: Champion)
    requires WellFormed(table)
    ensures c in Flatten(table) <==> Lookup(table, c.id, c.role) == Some(c)
  {
    if table != [] {
      var k := |table| - 1;
      var init := table[..k];
      var (id, roles) := table[k];
      WellFormedPrefix(table, k);
      FlattenMembers(init, c);
      FlattenIds(init, c);
      assert RolesOf(id, roles);
      RolesMembers(id, roles, c);
      assert Keys(table) == Keys(init) + [id];
      assert id !in Keys(init) by {
        assert Keys(table)[k] == id;
        forall i | 0 <= i < k ensures Keys(init)[i] != id {
          assert Keys(init)[i] == Keys(table)[i];
        }
      }
    }
  }

  /** No Champion is listed twice. */
  lemma {:induction false} FlattenDistinct(table: Table)
    requires WellFormed(table)
    ensures Distinct(Flatten(table))
  {
    if table != [] {
      var k := |table| - 1;
      var init := table[..k];
      var (id, roles) := table[k];
      WellFormedPrefix(table, k);
      FlattenDistinct(init);
      assert RolesOf(id, roles);
      var vs := Values(roles);
      forall i, j | 0 <= i < j < |vs| ensures vs[i] != vs[j] {
        assert Keys(roles)[i] == roles[i].0 && Keys(roles)[j] == roles[j].0;
      }
      assert id !in Keys(init) by {
        assert Keys(table)[k] == id;
        forall i | 0 <= i < k ensures Keys(init)[i] != id {
          assert Keys(init)[i] == Keys(table)[i];
        }
      }
      forall x | x in Flatten(init) ensures x !in vs {
        FlattenIds(init, x);
        RolesMembers(id, roles, x);
      }
      DistinctConcat(Flatten(init), vs);
    }
  }

  /** What `get_champion_by_id` returns: one Champion, or the lane -> Champion dict. */
  datatype Found = One(champion: Champion) | ByRole(roles: seq<(Role, Champion)>)

  class Roster {
    var table: Table

    ghost predicate Valid()
      reads this
    {
      WellFormed(table)
    }

    constructor Empty()
      ensures table == [] && Valid()
    {
      table := [];
    }

    /** `_create_champions` (roster.py:27-31): visits every record, builds its
        Champion and stores it under its id and lane, stopping at the first
        exception. */
    method CreateChampions(data: Data) returns (error: Option<Error>)
      modifies this
      ensures Built(table, error) == BuildFrom(old(table), Outcomes(Items(data)))
      ensures old(Valid()) ==> Valid()
    {
      ghost var start := table;
      ghost var done: seq<(int, Blob)> := [];
      ghost var outcomes: seq<Result<Champion>> := [];
      error := None;
      for i := 0 to |data|
        invariant done == Items(data[..i]) && outcomes == Outcomes(done)
        invariant table == PlaceAll(start, Placed(outcomes)) && FirstError(outcomes).None? && error.None?
      {
        var id := data[i].0;
        var blobs := Values(data[i].1);
        ItemsStep(data, i);
        for j := 0 to |blobs|
          invariant done == Items(data[..i]) + Pairs(id, blobs[..j]) && outcomes == Outcomes(done)
          invariant table == PlaceAll(start, Placed(outcomes)) && FirstError(outcomes).None? && error.None?
        {
          var c := NewChampion(id, blobs[j]);
          VisitStep(start, data, i, j, done, outcomes, c);
          done := done + [(id, blobs[j])];
          outcomes := outcomes + [c];
          if c.Err? {
            error := Some(c.error);
            StopEarly(data, i, j, outcomes);
            BuildWellFormedFrom(start, Outcomes(Items(data)));
            return;
          }
          table := Place(table, c.value);
        }
        WholeSlice(blobs);
      }
      WholeSlice(data);
      BuildWellFormedFrom(start, Outcomes(Items(data)));
    }

    /** `champions` (roster.py:33-35): each stored Champion once, and exactly the
        stored ones. */
    function Champions(): (r: seq<Champion>)
      reads this
      requires Valid()
      ensures Distinct(r)
      ensures forall c :: c in r <==> Lookup(table, c.id, c.role) == Some(c)
    {
      FlattenDistinct(table);
      forall c ensures c in Flatten(table) <==> Lookup(table, c.id, c.role) == Some(c) {
        FlattenMembers(table, c);
      }
      Flatten(table)
    }

    /** `get_champion_by_id` (roster.py:71-75): with a lane, the Champion stored for
        it; without, the id's whole lane dict. A missing id or lane raises KeyError. */
    function GetChampionById(id: int, role: Option<Role>): (r: Result<Found>)
      reads this
      ensures role.Some? ==>
        (r.Ok? <==> Lookup(table, id, role.value).Some?) &&
        (r.Ok? ==> r == Ok(One(Lookup(table, id, role.value).value))) &&
        (r.Err? ==> r.error == if id in Keys(table) then KeyError(RoleName(role.value)) else IdKeyError(id))
      ensures role.None? ==>
        (r.Ok? <==> id in Keys(table)) &&
        (r.Ok? ==> r.value.ByRole? && (id, r.value.roles) in table) &&
        (r.Err? ==> r.error == IdKeyError(id))
    {
      match Get(table, id)
      case None => Err(IdKeyError(id))
      case Some(roles) =>
        if role.None? then Ok(ByRole(roles))
        else match Get(roles, role.value)
          case None => Err(KeyError(RoleName(role.value)))
          case Some(c) => Ok(One(c))
    }
  }

  /** One record visited by `_create_champions`. */
  lemma VisitStep(start: Table, data: Data, i: int, j: int, done: seq<(int, Blob)>, outcomes: seq<Result<Champion>>,
                  c: Result<Champion>)
    requires 0 <= i < |data| && 0 <= j < |Values(data[i].1)|
    requires done == Items(data[..i]) + Pairs(data[i].0, Values(data[i].1)[..j]) && outcomes == Outcomes(done)
    requires c == ChampionOf(data[i].0, Values(data[i].1)[j]) && FirstError(outcomes).None?
    ensures done + [(data[i].0, Values(data[i].1)[j])] == Items(data[..i]) + Pairs(data[i].0, Values(data[i].1)[..j + 1])
    ensures outcomes + [c] == Outcomes(done + [(data[i].0, Values(data[i].1)[j])])
    ensures FirstError(outcomes + [c]) == if c.Err? then Some(c.error) else None
    ensures c.Ok? ==> PlaceAll(start, Placed(outcomes + [c])) == Place(PlaceAll(start, Placed(outcomes)), c.value)
  {
    var id := data[i].0;
    var blobs := Values(data[i].1);
    PairsStep(id, blobs, j);
    AppendAssoc(Items(data[..i]), Pairs(id, blobs[..j]), [(id, blobs[j])]);
    OutcomeAppend(outcomes, c);
    if c.Ok? {
      PlaceAllAppend(start, Placed(outcomes), c.value);
    }
    OutcomesAppend(done, (id, blobs[j]));
  }

  /** Leaving `_create_champions` at the exception of record `j` of champion `i`
      gives the same outcome as visiting every record. */
  lemma StopEarly(data: Data, i: int, j: int, outcomes: seq<Result<Champion>>)
    requires 0 <= i < |data| && 0 <= j < |data[i].1|
    requires outcomes == Outcomes(Items(data[..i]) + Pairs(data[i].0, Values(data[i].1)[..j + 1]))
    requires FirstError(outcomes).Some?
    ensures FirstError(Outcomes(Items(data))) == FirstError(outcomes)
    ensures Placed(Outcomes(Items(data))) == Placed(outcomes)
  {
    var id := data[i].0;
    var blobs := Values(data[i].1);
    var before, here, after := Items(data[..i]), Pairs(id, blobs[..j + 1]), Pairs(id, blobs[j + 1..]);
    var later := Items(data[i + 1..]);
    var done := before + here;
    var rest := after + later;
    SplitAt(blobs, j + 1);
    PairsAppend(id, blobs[..j + 1], blobs[j + 1..]);
    ItemsSplit(data, i);
    Regroup(before, here, after, later);
    OutcomesConcat(done, rest);
    BuildErrorPersists(outcomes, Outcomes(rest));
  }

  /** A call-only wrapper so that methods can use the well-formedness lemma. */
  lemma BuildWellFormedFrom(start: Table, outcomes: seq<Result<Champion>>)
    ensures WellFormed(start) ==> WellFormed(BuildFrom(start, outcomes).table)
  {
    if WellFormed(start) {
      PlaceAllWellFormed(start, Placed(outcomes));
    }
  }

  /** `Roster()` (roster.py:19-25): an empty snapshot raises ValueError; otherwise the
      table is what construction builds from an empty one, or its exception. */
  method NewRoster(data: Data) returns (r: Result<Roster>)
    ensures data == [] ==> r == Err(ValueError)
    ensures data != [] ==>
      var b := BuildFrom([], Outcomes(Items(data)));
      (r.Ok? <==> b.error.None?) &&
      (r.Err? ==> r.error == b.error.value) &&
      (r.Ok? ==> fresh(r.value) && r.value.table == b.table && r.value.Valid())
  {
    if |data| == 0 {
      return Err(ValueError);
    }
    var roster := new Roster.Empty();
    var error := roster.CreateChampions(data);
    if error.Some? {
      return Err(error.value);
    }
    return Ok(roster);
  }
}
