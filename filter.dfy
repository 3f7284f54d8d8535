/** The valid-champion filter and its boolean mask (lolalytics_scraper/roster.py:37-53),
    over the roster's `champions` tuple. */
module RosterFilter {
  import opened Util
  import opened Snapshot
  import opened ChampionData

  const DefaultMinRoleAssignment: real := 0.02
  const DefaultMinPickRate: real := 0.005

  /** In the requested role (any role when none is given), picked often enough, and
      played in this role often enough when picked. */
  predicate IsValid(c: Champion, role: Option<Role>, minRoleAssignment: real, minPickRate: real) {
    (role.None? || c.role == role.value) && PickRate(c) >= minPickRate && RoleAssignment(c) >= minRoleAssignment
  }

  /** `get_valid_champions`: the champions passing `IsValid`, in roster order. */
  function ValidChampions(champions: seq<Champion>, role: Option<Role>, minRoleAssignment: real, minPickRate: real)
    : (r: seq<Champion>)
    ensures forall c :: c in r <==> c in champions && IsValid(c, role, minRoleAssignment, minPickRate)
    ensures |r| <= |champions|
  {
    if champions == [] then []
    else
      var init := champions[..|champions| - 1];
      var c := champions[|champions| - 1];
      assert champions == init + [c];
      ValidChampions(init, role, minRoleAssignment, minPickRate) +
        (if IsValid(c, role, minRoleAssignment, minPickRate) then [c] else [])
  }

  /** Filtering commutes with concatenation: together with the one-element case this
      pins down the result, order included. */
  lemma {:induction false} ValidChampionsAppend(a: seq<Champion>, b: seq<Champion>, role: Option<Role>, ra: real, pr: real)
    ensures ValidChampions(a + b, role, ra, pr) == ValidChampions(a, role, ra, pr) + ValidChampions(b, role, ra, pr)
  {
    if b == [] {
      assert a + b == a;
    } else {
      var init := b[..|b| - 1];
      assert (a + b)[..|a + b| - 1] == a + init;
      ValidChampionsAppend(a, init, role, ra, pr);
    }
  }

  lemma ValidChampionsSingle(c: Champion, role: Option<Role>, ra: real, pr: real)
    ensures ValidChampions([c], role, ra, pr) == if IsValid(c, role, ra, pr) then [c] else []
  {
    assert [c][..0] == [];
  }

  /** Raising either threshold, or fixing the role, only shrinks the result: the
      stricter filter is the looser one filtered again. */
  lemma {:induction false} ValidChampionsMonotone(
    champions: seq<Champion>,
    looseRole: Option<Role>, looseRa: real, loosePr: real,
    role: Option<Role>, ra: real, pr: real)
    requires looseRa <= ra && loosePr <= pr
    requires looseRole.None? || looseRole == role
    ensures ValidChampions(champions, role, ra, pr) ==
      ValidChampions(ValidChampions(champions, looseRole, looseRa, loosePr), role, ra, pr)
    ensures forall c :: c in ValidChampions(champions, role, ra, pr) ==> c in ValidChampions(champions, looseRole, looseRa, loosePr)
  {
    if champions != [] {
      var init := champions[..|champions| - 1];
      var c := champions[|champions| - 1];
      ValidChampionsMonotone(init, looseRole, looseRa, loosePr, role, ra, pr);
      var loose := ValidChampions(init, looseRole, looseRa, loosePr);
      var extra := if IsValid(c, looseRole, looseRa, loosePr) then [c] else [];
      ValidChampionsAppend(loose, extra, role, ra, pr);
      if extra != [] {
        ValidChampionsSingle(c, role, ra, pr);
      } else {
        assert loose + extra == loose;
      }
    }
  }

  /** `get_valid_champion_index`: one flag per roster champion, true exactly for those
      in the valid tuple. */
  function ValidChampionIndex(champions: seq<Champion>, role: Option<Role>, minRoleAssignment: real, minPickRate: real)
    : (r: seq<bool>)
    ensures |r| == |champions|
    ensures forall i :: 0 <= i < |champions| ==> (r[i] <==> IsValid(champions[i], role, minRoleAssignment, minPickRate))
  {
    FlagsIn(champions, ValidChampions(champions, role, minRoleAssignment, minPickRate))
  }

  /** One flag per element of `s`: whether it occurs in `t`. */
  function FlagsIn(s: seq<Champion>, t: seq<Champion>): (r: seq<bool>)
    ensures |r| == |s|
    ensures forall i :: 0 <= i < |s| ==> (r[i] <==> s[i] in t)
  {
    if s == [] then [] else FlagsIn(s[..|s| - 1], t) + [s[|s| - 1] in t]
  }
}
