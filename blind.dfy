/** The blind-pick simulation and the ban search (lolalytics_scraper/champion.py:152-207).
    An opponent lists same-role champions from worst to best match-up for us; each,
    in turn, is picked with the probability that it is in the opponent's champion
    pool of `n` champions, times the share of opponents that have not yet picked a
    worse match-up. */
module BlindPick {
  import opened Util
  import opened Dict
  import opened Snapshot
  import opened ChampionData
  import opened RosterFilter

  /** `roster.get_valid_champions(role=c.role)` with the default thresholds. */
  function SameRoleValid(c: Champion, roster: seq<Champion>): seq<Champion> {
    ValidChampions(roster, Some(c.role), DefaultMinRoleAssignment, DefaultMinPickRate)
  }

  /** The sort key: our raw match-up win rate against the opponent. */
  function Key(c: Champion): Champion -> Option<real> {
    o => RawMatchupWinRate(c, o)
  }

  /** champion.py:159-166: same-role valid champions sorted ascending by our raw
      match-up rate, without `c` and without the ignored champion. */
  function Opponents(c: Champion, roster: seq<Champion>, ignore: Option<Champion>): seq<Champion> {
    var withoutSelf := RemoveFirst(SortBy(SameRoleValid(c, roster), Key(c)), c);
    if ignore.Some? then RemoveFirst(withoutSelf, ignore.value) else withoutSelf
  }

  /** The opponent list is sorted (absent rates last, ties in roster order) and holds
      exactly the valid same-role champions less one copy of `c` and one of the
      ignored champion. */
  lemma OpponentsSortedPermutation(c: Champion, roster: seq<Champion>, ignore: Option<Champion>)
    ensures SortedBy(Opponents(c, roster, ignore), Key(c))
    ensures multiset(Opponents(c, roster, ignore)) ==
      multiset(SameRoleValid(c, roster)) - multiset{c} - (if ignore.Some? then multiset{ignore.value} else multiset{})
  {
    var sorted := SortBy(SameRoleValid(c, roster), Key(c));
    SortedRemoveFirst(sorted, c, Key(c));
    RemoveFirstMultiset(sorted, c);
    if ignore.Some? {
      SortedRemoveFirst(RemoveFirst(sorted, c), ignore.value, Key(c));
      RemoveFirstMultiset(RemoveFirst(sorted, c), ignore.value);
    }
  }

  /** No valid same-role champion other than `c` and the ignored one is dropped. */
  lemma OpponentsMembers(c: Champion, roster: seq<Champion>, ignore: Option<Champion>, o: Champion)
    requires o != c && (ignore.None? || o != ignore.value)
    ensures o in Opponents(c, roster, ignore) <==> o in roster && IsValid(o, Some(c.role), DefaultMinRoleAssignment, DefaultMinPickRate)
  {
    var r := Opponents(c, roster, ignore);
    OpponentsSortedPermutation(c, roster, ignore);
    assert o in r <==> multiset(r)[o] > 0;
    assert o in SameRoleValid(c, roster) <==> multiset(SameRoleValid(c, roster))[o] > 0;
  }

  /** `1 - (1 - pick_rate) ** n`: the chance that `o` is in an opponent's pool of `n` champions. */
  function Presence(o: Champion, n: nat): real {
    1.0 - Pow(1.0 - PickRate(o), n)
  }

  /** `percent_opponents_remaining` after walking `opponents`. */
  function Remaining(opponents: seq<Champion>, n: nat): real {
    if opponents == [] then 1.0
    else
      var r := Remaining(opponents[..|opponents| - 1], n);
      r - Presence(opponents[|opponents| - 1], n) * r
  }

  /** `probabillity_picked` of the last opponent walked. */
  function PickedLast(opponents: seq<Champion>, n: nat): real
    requires opponents != []
  {
    Presence(opponents[|opponents| - 1], n) * Remaining(opponents[..|opponents| - 1], n)
  }

  /** The sum of every `probabillity_picked` so far. */
  function PickedTotal(opponents: seq<Champion>, n: nat): real {
    if opponents == [] then 0.0 else PickedTotal(opponents[..|opponents| - 1], n) + PickedLast(opponents, n)
  }

  /** `cumulative_win_rate` after walking `opponents`; absent (NaN) from the first
      opponent without a recorded match-up on, as NaN absorbs every later sum. */
  function Cumulative(c: Champion, opponents: seq<Champion>, n: nat): Option<real> {
    if opponents == [] then Some(0.0)
    else
      var prev := Cumulative(c, opponents[..|opponents| - 1], n);
      var w := RawMatchupWinRate(c, opponents[|opponents| - 1]);
      if prev.Some? && w.Some? then Some(prev.value + PickedLast(opponents, n) * w.value) else None
  }

  /** One more opponent walked. */
  lemma StepAppend(c: Champion, opponents: seq<Champion>, o: Champion, n: nat)
    ensures PickedLast(opponents + [o], n) == Presence(o, n) * Remaining(opponents, n)
    ensures Remaining(opponents + [o], n) == Remaining(opponents, n) - PickedLast(opponents + [o], n)
    ensures Cumulative(c, opponents + [o], n).Some? <==>
      Cumulative(c, opponents, n).Some? && RawMatchupWinRate(c, o).Some?
    ensures Cumulative(c, opponents + [o], n).Some? ==>
      Cumulative(c, opponents + [o], n).value ==
        Cumulative(c, opponents, n).value + PickedLast(opponents + [o], n) * RawMatchupWinRate(c, o).value
  {
    var s := opponents + [o];
    assert s[..|s| - 1] == opponents && s[|s| - 1] == o;
  }

  /** `blind_expected_win_rate(n, ignore)`. */
  function BlindValue(c: Champion, roster: seq<Champion>, n: nat, ignore: Option<Champion>): Option<real> {
    Cumulative(c, Opponents(c, roster, ignore), n)
  }

  /** The mass drained equals the mass picked: the picked probabilities sum to
      `1 - remaining` after every step. */
  lemma {:induction false} PickedTotalTelescopes(opponents: seq<Champion>, n: nat)
    ensures PickedTotal(opponents, n) == 1.0 - Remaining(opponents, n)
  {
    if opponents != [] {
      PickedTotalTelescopes(opponents[..|opponents| - 1], n);
    }
  }

  predicate PickRatesInUnit(opponents: seq<Champion>) {
    forall i :: 0 <= i < |opponents| ==> 0.0 <= PickRate(opponents[i]) <= 1.0
  }

  lemma PresenceInUnit(o: Champion, n: nat)
    requires 0.0 <= PickRate(o) <= 1.0
    ensures 0.0 <= Presence(o, n) <= 1.0
  {
    PowInUnit(1.0 - PickRate(o), n);
  }

  /** With pick rates that are probabilities, the remaining mass stays in [0, 1] and
      never grows from one opponent to the next. */
  lemma {:induction false} RemainingInUnit(opponents: seq<Champion>, n: nat)
    requires PickRatesInUnit(opponents)
    ensures 0.0 <= Remaining(opponents, n) <= 1.0
    ensures opponents != [] ==> Remaining(opponents, n) <= Remaining(opponents[..|opponents| - 1], n)
  {
    if opponents != [] {
      var init := opponents[..|opponents| - 1];
      var o := opponents[|opponents| - 1];
      assert PickRatesInUnit(init) by {
        assert forall i :: 0 <= i < |init| ==> init[i] == opponents[i];
      }
      RemainingInUnit(init, n);
      PresenceInUnit(o, n);
      var r := Remaining(init, n);
      MulBetween(Presence(o, n), r);
      assert 0.0 <= Presence(o, n) * r <= r;
      assert Remaining(opponents, n) == r - Presence(o, n) * r;
    }
  }

  predicate MatchupRatesInUnit(c: Champion, opponents: seq<Champion>) {
    forall i :: 0 <= i < |opponents| && RawMatchupWinRate(c, opponents[i]).Some? ==>
      0.0 <= RawMatchupWinRate(c, opponents[i]).value <= 1.0
  }

  /** With probabilities everywhere, the win-rate sum lies between 0 and the mass
      already picked. */
  lemma {:induction false} CumulativeBounds(c: Champion, opponents: seq<Champion>, n: nat)
    requires PickRatesInUnit(opponents) && MatchupRatesInUnit(c, opponents)
    requires Cumulative(c, opponents, n).Some?
    ensures 0.0 <= Cumulative(c, opponents, n).value <= 1.0 - Remaining(opponents, n)
  {
    if opponents != [] {
      var init := opponents[..|opponents| - 1];
      var o := opponents[|opponents| - 1];
      assert forall i :: 0 <= i < |init| ==> init[i] == opponents[i];
      assert PickRatesInUnit(init) && MatchupRatesInUnit(c, init);
      CumulativeBounds(c, init, n);
      RemainingInUnit(init, n);
      PresenceInUnit(o, n);
      var w := RawMatchupWinRate(c, o);
      assert 0.0 <= w.value <= 1.0 by {
        assert opponents[|opponents| - 1] == o;
      }
      StepBounds(Cumulative(c, init, n).value, Remaining(init, n), Presence(o, n), w.value);
    }
  }

  /** One step of the walk in plain arithmetic: with `acc` in [0, 1 - r], adding
      `p * r * w` keeps it in [0, 1 - (r - p * r)]. */
  lemma StepBounds(acc: real, r: real, p: real, w: real)
    requires 0.0 <= r <= 1.0 && 0.0 <= p <= 1.0 && 0.0 <= w <= 1.0
    requires 0.0 <= acc <= 1.0 - r
    ensures 0.0 <= acc + p * r * w <= 1.0 - (r - p * r)
  {
    var pr := p * r;
    MulBetween(p, r);
    MulBetween(w, pr);
    assert p * r * w == w * pr;
    assert acc + w * pr <= 1.0 - r + pr;
  }

  /** The result is absent exactly when some opponent has no recorded match-up. */
  lemma {:induction false} CumulativeDefined(c: Champion, opponents: seq<Champion>, n: nat)
    ensures Cumulative(c, opponents, n).Some? <==>
      forall i :: 0 <= i < |opponents| ==> RawMatchupWinRate(c, opponents[i]).Some?
  {
    if opponents != [] {
      var init := opponents[..|opponents| - 1];
      assert forall i :: 0 <= i < |init| ==> init[i] == opponents[i];
      CumulativeDefined(c, init, n);
    }
  }

  /** An opponent with no pool (`n == 0`) never picks anything: the result is 0
      (still absent when a match-up is missing, as `0 * NaN` is NaN). */
  lemma {:induction false} CumulativeNoPool(c: Champion, opponents: seq<Champion>)
    ensures Cumulative(c, opponents, 0).Some? ==> Cumulative(c, opponents, 0).value == 0.0
    ensures Remaining(opponents, 0) == 1.0
  {
    if opponents != [] {
      CumulativeNoPool(c, opponents[..|opponents| - 1]);
    }
  }

  /** champion.py:168-181: walks the opponents, draining the remaining mass. */
  method WalkOpponents(c: Champion, opponents: seq<Champion>, n: nat) returns (r: Option<real>)
    ensures r == Cumulative(c, opponents, n)
  {
    var remaining := 1.0;
    var cumulative := Some(0.0);
    for i := 0 to |opponents|
      invariant remaining == Remaining(opponents[..i], n)
      invariant cumulative == Cumulative(c, opponents[..i], n)
    {
      var o := opponents[i];
      assert opponents[..i + 1] == opponents[..i] + [o];
      StepAppend(c, opponents[..i], o, n);
      var inPool := 1.0 - Pow(1.0 - PickRate(o), n);
      var picked := inPool * remaining;
      var w := RawMatchupWinRate(c, o);
      if cumulative.Some? && w.Some? {
        cumulative := Some(cumulative.value + picked * w.value);
        assert cumulative.value == Cumulative(c, opponents[..i + 1], n).value;
      } else {
        cumulative := None;
      }
      remaining := remaining - picked;
    }
    assert opponents[..|opponents|] == opponents;
    return cumulative;
  }

  /** champion.py:152-181. */
  method BlindExpectedWinRate(c: Champion, roster: seq<Champion>, n: nat, ignore: Option<Champion>)
    returns (r: Option<real>)
    ensures r == BlindValue(c, roster, n, ignore)
  {
    var opponents := SortBy(SameRoleValid(c, roster), Key(c));
    if c in opponents {
      opponents := RemoveFirst(opponents, c);
    } else {
      RemoveFirstAbsent(opponents, c);
    }
    if ignore.Some? {
      if ignore.value in opponents {
        opponents := RemoveFirst(opponents, ignore.value);
      } else {
        RemoveFirstAbsent(opponents, ignore.value);
      }
    }
    assert opponents == Opponents(c, roster, ignore);
    r := WalkOpponents(c, opponents, n);
  }

  // ---------------------------------------------------------------------------
  // Bans
  // ---------------------------------------------------------------------------

  /** `best_ban_blind_expected_win_rate`: minus infinity until a first rate is found. */
  datatype Score = NegInfinity | Rate(value: real)

  /** `v > best` in Python, where NaN compares false with everything. */
  predicate Beats(v: Option<real>, best: Score) {
    v.Some? && (best.NegInfinity? || v.value > best.value)
  }

  /** Our blind-pick rate when `ban` is banned. */
  function BanValue(c: Champion, roster: seq<Champion>, n: nat, ban: Champion): Option<real> {
    BlindValue(c, roster, n, Some(ban))
  }

  /** The ban value of each candidate, in candidate order. */
  function BanValues(c: Champion, roster: seq<Champion>, n: nat, candidates: seq<Champion>): (r: seq<Option<real>>)
    ensures |r| == |candidates|
    ensures forall i :: 0 <= i < |candidates| ==> r[i] == BanValue(c, roster, n, candidates[i])
  {
    seq(|candidates|, i requires 0 <= i < |candidates| => BanValue(c, roster, n, candidates[i]))
  }

  lemma BanValuesAppend(c: Champion, roster: seq<Champion>, n: nat, candidates: seq<Champion>, o: Champion)
    ensures BanValues(c, roster, n, candidates + [o]) == BanValues(c, roster, n, candidates) + [BanValue(c, roster, n, o)]
  {
    var r := BanValues(c, roster, n, candidates + [o]);
    assert forall i :: 0 <= i < |candidates| ==> (candidates + [o])[i] == candidates[i];
    assert r == BanValues(c, roster, n, candidates) + [BanValue(c, roster, n, o)];
  }

  /** The state of `best_blind_ban`'s loop after visiting `candidates`, where
      `values[i]` is the rate with `candidates[i]` banned. */
  function BestAmong(c: Champion, candidates: seq<Champion>, values: seq<Option<real>>): (Option<Champion>, Score)
    requires |values| == |candidates|
  {
    if candidates == [] then (None, NegInfinity)
    else
      var k := |candidates| - 1;
      var prev := BestAmong(c, candidates[..k], values[..k]);
      if candidates[k] == c then prev
      else if Beats(values[k], prev.1) then (Some(candidates[k]), Rate(values[k].value))
      else prev
  }

  /** Candidate `i` may be banned: it is not ourselves, and its ban gives a rate. */
  predicate Rated(c: Champion, candidates: seq<Champion>, values: seq<Option<real>>, i: int)
    requires |values| == |candidates|
  {
    0 <= i < |candidates| && candidates[i] != c && values[i].Some?
  }

  /** What `best_blind_ban` promises: it never bans `c`; it finds no ban exactly when
      no ban gives a rate, and then reports minus infinity; otherwise its ban is a
      candidate whose rate is the score, no candidate rates higher, and every earlier
      candidate rates strictly lower (the first maximiser wins). */
  lemma {:induction false} BestAmongProperties(c: Champion, candidates: seq<Champion>, values: seq<Option<real>>)
    requires |values| == |candidates|
    ensures var (ban, score) := BestAmong(c, candidates, values);
      (ban.None? <==> forall i :: 0 <= i < |candidates| ==> !Rated(c, candidates, values, i)) &&
      (ban.None? ==> score == NegInfinity) &&
      (ban.Some? ==>
         ban.value != c && score.Rate? &&
         (forall i :: Rated(c, candidates, values, i) ==> values[i].value <= score.value) &&
         (exists k :: Rated(c, candidates, values, k) && candidates[k] == ban.value && values[k].value == score.value &&
            forall i :: 0 <= i < k && Rated(c, candidates, values, i) ==> values[i].value < score.value))
  {
    if candidates != [] {
      var k := |candidates| - 1;
      var init := candidates[..k];
      var vinit := values[..k];
      assert forall i :: 0 <= i < k ==> init[i] == candidates[i] && vinit[i] == values[i];
      assert forall i :: 0 <= i < k ==> (Rated(c, init, vinit, i) <==> Rated(c, candidates, values, i));
      BestAmongProperties(c, init, vinit);
      var (ban, score) := BestAmong(c, init, vinit);
      if candidates[k] != c && Beats(values[k], score) {
        assert Rated(c, candidates, values, k);
      } else if ban.Some? {
        var j :| Rated(c, init, vinit, j) && init[j] == ban.value && vinit[j].value == score.value &&
          forall i :: 0 <= i < j && Rated(c, init, vinit, i) ==> vinit[i].value < score.value;
        assert Rated(c, candidates, values, j);
      }
    }
  }

  /** The ban found is a rated candidate whose rate is the score. */
  lemma BestAmongWitness(c: Champion, candidates: seq<Champion>, values: seq<Option<real>>) returns (k: int)
    requires |values| == |candidates| && BestAmong(c, candidates, values).0.Some?
    ensures Rated(c, candidates, values, k) && candidates[k] == BestAmong(c, candidates, values).0.value
    ensures BestAmong(c, candidates, values).1 == Rate(values[k].value)
  {
    BestAmongProperties(c, candidates, values);
    k :| Rated(c, candidates, values, k) && candidates[k] == BestAmong(c, candidates, values).0.value &&
      values[k].value == BestAmong(c, candidates, values).1.value;
  }

  /** No rated candidate beats the score. */
  lemma BestAmongUpper(c: Champion, candidates: seq<Champion>, values: seq<Option<real>>, i: int)
    requires |values| == |candidates| && Rated(c, candidates, values, i)
    ensures BestAmong(c, candidates, values).1.Rate?
    ensures values[i].value <= BestAmong(c, candidates, values).1.value
  {
    BestAmongProperties(c, candidates, values);
  }

  /** `best_blind_ban` over the other valid same-role champions. */
  function BestBan(c: Champion, roster: seq<Champion>, n: nat): (Option<Champion>, Score) {
    var candidates := SameRoleValid(c, roster);
    BestAmong(c, candidates, BanValues(c, roster, n, candidates))
  }

  lemma BestAmongAppend(c: Champion, candidates: seq<Champion>, values: seq<Option<real>>, o: Champion, v: Option<real>)
    requires |values| == |candidates|
    ensures BestAmong(c, candidates + [o], values + [v]) ==
      if o == c then BestAmong(c, candidates, values)
      else if Beats(v, BestAmong(c, candidates, values).1) then (Some(o), Rate(v.value))
      else BestAmong(c, candidates, values)
  {
    assert (candidates + [o])[..|candidates|] == candidates;
    assert (values + [v])[..|values|] == values;
  }

  /** One visit of `best_blind_ban`'s loop, on the ghost values and on the best so far. */
  lemma {:induction false} BestBanStep(c: Champion, roster: seq<Champion>, n: nat, candidates: seq<Champion>, i: int,
                                       values: seq<Option<real>>, v: Option<real>)
    requires 0 <= i < |candidates|
    requires values == BanValues(c, roster, n, candidates[..i])
    requires v == BanValue(c, roster, n, candidates[i])
    ensures values + [v] == BanValues(c, roster, n, candidates[..i + 1])
    ensures var prev := BestAmong(c, candidates[..i], values);
      BestAmong(c, candidates[..i + 1], values + [v]) ==
        if candidates[i] == c then prev
        else if Beats(v, prev.1) then (Some(candidates[i]), Rate(v.value))
        else prev
  {
    PrefixStep(candidates, i);
    BanValuesAppend(c, roster, n, candidates[..i], candidates[i]);
    BestAmongAppend(c, candidates[..i], values, candidates[i], v);
  }

  /** champion.py:192-207. */
  method BestBlindBan(c: Champion, roster: seq<Champion>, n: nat) returns (ban: Option<Champion>, score: Score)
    ensures (ban, score) == BestBan(c, roster, n)
  {
    var candidates := SameRoleValid(c, roster);
    ghost var values: seq<Option<real>> := [];
    ban := None;
    score := NegInfinity;
    for i := 0 to |candidates|
      invariant values == BanValues(c, roster, n, candidates[..i])
      invariant (ban, score) == BestAmong(c, candidates[..i], values)
    {
      var o := candidates[i];
      var v := BlindExpectedWinRate(c, roster, n, Some(o));
      BestBanStep(c, roster, n, candidates, i, values, v);
      if o != c {
        if v.Some? && (score.NegInfinity? || v.value > score.value) {
          ban := Some(o);
          score := Rate(v.value);
        }
      }
      values := values + [v];
    }
    assert candidates[..|candidates|] == candidates;
  }

  /** One entry of the ban table: the opponent and our blind rate with it banned. */
  type BanEntry = (Champion, Option<real>)

  function BanKey(): BanEntry -> Option<real> {
    (e: BanEntry) => Negated(e.1)
  }

  lemma BanKeyOf(e: BanEntry)
    ensures BanKey()(e) == Negated(e.1)
  {
  }

  /** The dict `{candidates[i]: values[i]}` over the candidates other than `c`. */
  function Entries(c: Champion, candidates: seq<Champion>, values: seq<Option<real>>): (r: seq<BanEntry>)
    requires |values| == |candidates|
    ensures forall e :: e in r <==> exists i :: 0 <= i < |candidates| && candidates[i] == e.0 && e.0 != c && values[i] == e.1
  {
    if candidates == [] then []
    else
      var k := |candidates| - 1;
      var prefix := Entries(c, candidates[..k], values[..k]);
      assert forall i :: 0 <= i < k ==> candidates[..k][i] == candidates[i] && values[..k][i] == values[i];
      prefix + (if candidates[k] == c then [] else [(candidates[k], values[k])])
  }

  /** `blind_pick_ban_win_rate_improvements`: the other valid same-role champions with
      our blind rate when each is banned, highest rate first, absent rates last. */
  function BanTable(c: Champion, roster: seq<Champion>, n: nat): (r: seq<BanEntry>)
    ensures SortedBy(r, BanKey())
    ensures var candidates := Dedup(SameRoleValid(c, roster));
      multiset(r) == multiset(Entries(c, candidates, BanValues(c, roster, n, candidates)))
  {
    var candidates := Dedup(SameRoleValid(c, roster));
    SortBy(Entries(c, candidates, BanValues(c, roster, n, candidates)), BanKey())
  }

  /** Two value lists that agree wherever they rate the same champion. */
  predicate SameValues(a: seq<Champion>, av: seq<Option<real>>, b: seq<Champion>, bv: seq<Option<real>>)
    requires |av| == |a| && |bv| == |b|
  {
    forall i, j :: 0 <= i < |a| && 0 <= j < |b| && a[i] == b[j] ==> av[i] == bv[j]
  }

  /** A table sorted by descending rate that holds a rated entry starts with a rate at least as high. */
  lemma SortedBanHead(table: seq<BanEntry>, e: BanEntry)
    requires SortedBy(table, BanKey()) && e in table && e.1.Some?
    ensures table[0].1.Some? && table[0].1.value >= e.1.value
  {
    SortedHeadLeast(table, BanKey(), e);
    BanKeyOf(e);
    BanKeyOf(table[0]);
  }

  /** An entry built from the keys is a candidate other than `c`, with its value. */
  lemma EntryOfCandidate(
    c: Champion, candidates: seq<Champion>, values: seq<Option<real>>,
    keys: seq<Champion>, keyValues: seq<Option<real>>, e: BanEntry) returns (m: int)
    requires |values| == |candidates| && |keyValues| == |keys|
    requires SameValues(candidates, values, keys, keyValues)
    requires forall j :: 0 <= j < |keys| ==> keys[j] in candidates
    requires e in Entries(c, keys, keyValues)
    ensures 0 <= m < |candidates| && candidates[m] == e.0 && Rated(c, candidates, values, m) == e.1.Some?
    ensures values[m] == e.1
  {
    var h :| 0 <= h < |keys| && keys[h] == e.0 && e.0 != c && keyValues[h] == e.1;
    m :| 0 <= m < |candidates| && candidates[m] == keys[h];
    assert values[m] == e.1;
  }

  /** A table of the candidates sorted by rate is headed by the arg-max the ban search finds. */
  lemma SortedEntriesHeadIsBest(
    c: Champion, candidates: seq<Champion>, values: seq<Option<real>>,
    keys: seq<Champion>, keyValues: seq<Option<real>>, table: seq<BanEntry>)
    requires |values| == |candidates| && |keyValues| == |keys|
    requires SameValues(candidates, values, keys, keyValues)
    requires forall i :: 0 <= i < |candidates| ==> candidates[i] in keys
    requires forall j :: 0 <= j < |keys| ==> keys[j] in candidates
    requires SortedBy(table, BanKey())
    requires multiset(table) == multiset(Entries(c, keys, keyValues))
    requires BestAmong(c, candidates, values).0.Some?
    ensures table != [] && table[0].1.Some? && Rate(table[0].1.value) == BestAmong(c, candidates, values).1
  {
    var k := BestAmongWitness(c, candidates, values);
    var kk :| 0 <= kk < |keys| && keys[kk] == candidates[k];
    var best: BanEntry := (candidates[k], values[k]);
    assert keyValues[kk] == values[k];
    assert best in Entries(c, keys, keyValues);
    assert best in table by {
      assert multiset(table)[best] > 0;
    }
    SortedBanHead(table, best);
    var head := table[0];
    assert head in Entries(c, keys, keyValues) by {
      assert head in multiset(table);
    }
    var m := EntryOfCandidate(c, candidates, values, keys, keyValues, head);
    BestAmongUpper(c, candidates, values, m);
    assert head.1.value == values[k].value;
  }

  /** The ban table and the ban search agree: when the best ban has a rate, it heads the table. */
  lemma BanTableHeadIsBest(c: Champion, roster: seq<Champion>, n: nat)
    requires BestBan(c, roster, n).0.Some?
    ensures BanTable(c, roster, n) != []
    ensures BanTable(c, roster, n)[0].1.Some? && Rate(BanTable(c, roster, n)[0].1.value) == BestBan(c, roster, n).1
  {
    var valid := SameRoleValid(c, roster);
    var keys := Dedup(valid);
    var values := BanValues(c, roster, n, valid);
    var keyValues := BanValues(c, roster, n, keys);
    var table := BanTable(c, roster, n);
    DedupMembers(valid);
    assert forall j :: 0 <= j < |keys| ==> keys[j] in valid by {
      forall j | 0 <= j < |keys| ensures keys[j] in valid {
        assert keys[j] in keys;
      }
    }
    BanValuesSame(c, roster, n, valid, keys);
    assert SortedBy(table, BanKey()) && multiset(table) == multiset(Entries(c, keys, keyValues));
    SortedEntriesHeadIsBest(c, valid, values, keys, keyValues, table);
  }

  /** Rates are a function of the banned champion alone. */
  lemma BanValuesSame(c: Champion, roster: seq<Champion>, n: nat, a: seq<Champion>, b: seq<Champion>)
    ensures SameValues(a, BanValues(c, roster, n, a), b, BanValues(c, roster, n, b))
  {
  }
}
