/** A search state as an object: the map of rangers and the swap history,
    updated in place by adding rangers and by swapping two of them. */
module StateObject {
  import opened RangerRecord
  import opened Configuration
  import opened ConfigurationLemmas

  class State {
    var rangers: map<char, Ranger>
    var swapHistory: seq<Move>

    /** The value of this state, as the search copies it. */
    function Value(): Config
      reads this
    {
      Config(rangers, swapHistory)
    }

    /** The record structure a swap relies on. */
    ghost predicate Valid()
      reads this
    {
      Named(rangers) && Registered(rangers)
    }

    /** An empty state: no rangers, no history. */
    constructor ()
      ensures rangers == map[] && swapHistory == []
      ensures Valid()
    {
      rangers := map[];
      swapHistory := [];
    }

    /** A state holding a copy of the value `c`. */
    constructor Copy(c: Config)
      ensures Value() == c
    {
      rangers := c.rangers;
      swapHistory := c.swapHistory;
    }

    /** Adds a ranger at the given station: every existing ranger registers
        it as a peer and it registers every existing ranger. */
    method AddRanger(name: char, isNorth: bool)
      modifies this
      ensures rangers == AddedRanger(old(rangers), name, isNorth)
      ensures swapHistory == old(swapHistory)
    {
      ghost var rs0 := rangers;
      var newRanger := NewRanger(name, isNorth);
      var todo := rangers.Keys;
      while todo != {}
        invariant Registering(rs0, rangers, todo, name)
        invariant Building(rs0, newRanger, todo, name, isNorth)
        invariant swapHistory == old(swapHistory)
        decreases todo
      {
        var n :| n in todo;
        RegisterOne(rs0, rangers, todo, name, n);
        BuildOne(rs0, newRanger, todo, name, isNorth, n);
        rangers := rangers[n := rangers[n].InitPairedCount(name)];
        newRanger := newRanger.InitPairedCount(n);
        todo := todo - {n};
      }
      AddRangerMatchesReference(rs0, rangers, newRanger, name, isNorth);
      if name !in rangers {
        rangers := rangers[name := newRanger];
      }
    }

    /** Swaps `n1` and `n2`. Refused, with nothing changed, when both stand at
        the same station. Otherwise every ranger is credited with a shift at
        its station, the two rangers at each station with a shared shift,
        the move is logged, and the two rangers change station and count a
        move. */
    method Swap(n1: char, n2: char) returns (ok: bool)
      requires Valid()
      requires n1 in rangers && n2 in rangers
      requires rangers[n1].isNorth != rangers[n2].isNorth ==> Balanced(rangers)
      modifies this
      ensures ok == (old(rangers)[n1].isNorth != old(rangers)[n2].isNorth)
      ensures ok ==> AfterSwap(Config(old(rangers), old(swapHistory)), n1, n2) == Some(Config(rangers, swapHistory))
      ensures !ok ==> rangers == old(rangers) && swapHistory == old(swapHistory)
      ensures Valid()
    {
      if rangers[n1].isNorth == rangers[n2].isNorth {
        return false;
      }
      var rs := SwappedRecords(Value(), n1, n2);
      SwapKeepsRecords(Value(), n1, n2);

      // record the swap, and store the records
      swapHistory := swapHistory + [(n1, n2)];
      rangers := rs;
      return true;
    }

    /** The goal test: the two rangers named in `endNorth` are at North, every
        ranger passes its own check, and every ranger has moved as often as
        the first one looked at. */
    method IsEndState(endNorth: set<char>) returns (b: bool)
      requires |endNorth| == 2 && endNorth <= rangers.Keys
      ensures b == IsGoal(Value(), endNorth)
    {
      var north1 :| north1 in endNorth;
      ghost var other := OtherOfTwo(endNorth, north1);
      var north2 :| north2 in endNorth && north2 != north1;
      TwoOfTwo(endNorth, north1, north2);
      if !rangers[north1].isNorth || !rangers[north2].isNorth {
        return false;
      }

      var first := true;
      var movedCount := -1;
      ghost var seen: char := north1;
      var todo := rangers.Keys;
      while todo != {}
        invariant todo <= rangers.Keys
        invariant first ==> todo == rangers.Keys
        invariant !first ==> seen in rangers && seen !in todo && rangers[seen].movedCount == movedCount
        invariant forall k :: k in rangers && k !in todo ==>
                    rangers[k].Fair() && rangers[k].movedCount == movedCount
        decreases todo
      {
        var n :| n in todo;
        var r := rangers[n];
        var fair := r.IsEndState();
        if !fair {
          return false;
        }
        if first {
          first := false;
          movedCount := r.movedCount;
          seen := n;
        } else if movedCount != r.movedCount {
          assert rangers[seen].movedCount != rangers[n].movedCount;
          return false;
        }
        todo := todo - {n};
      }
      return true;
    }
  }

  /** The first loop of `State.Swap`: credits every ranger with a shift at
      its station and collects the names at North in `norths` and those at
      South in `souths`, each in the order the records are visited. */
  method CreditShifts(rs0: map<char, Ranger>)
      returns (credited: map<char, Ranger>, norths: array<char>, souths: array<char>)
    requires Balanced(rs0)
    ensures fresh(norths) && fresh(souths) && norths.Length == 2 && souths.Length == 2
    ensures credited == AllCredited(rs0)
    ensures Norths(rs0) == {norths[0], norths[1]} && norths[0] != norths[1]
    ensures Souths(rs0) == {souths[0], souths[1]} && souths[0] != souths[1]
  {
    ghost var na, nb := TwoMembers(Norths(rs0));
    ghost var sa, sb := TwoMembers(Souths(rs0));
    norths := new char[2];
    souths := new char[2];
    var northIndex, southIndex := 0, 0;
    var rs, todo := rs0, rs0.Keys;
    while todo != {}
      invariant todo <= rs0.Keys
      invariant rs == CreditedExcept(rs0, todo)
      invariant Gathered(norths[..], northIndex, na, nb, todo)
      invariant Gathered(souths[..], southIndex, sa, sb, todo)
      modifies norths, souths
      decreases todo
    {
      var n :| n in todo;
      CreditOne(rs0, todo, n);
      var r := rs[n];
      if r.isNorth {
        assert n in Norths(rs0);
        GatheredAdd(norths[..], northIndex, na, nb, todo, n);
        GatheredSkip(souths[..], southIndex, sa, sb, todo, n);
        norths[northIndex] := n;
        northIndex := northIndex + 1;
        assert r.(northCount := r.northCount + 1) == Credited(rs0[n]);
        rs := rs[n := r.(northCount := r.northCount + 1)];
      } else {
        assert n in Souths(rs0);
        GatheredAdd(souths[..], southIndex, sa, sb, todo, n);
        GatheredSkip(norths[..], northIndex, na, nb, todo, n);
        souths[southIndex] := n;
        southIndex := southIndex + 1;
        assert r.(southCount := r.southCount + 1) == Credited(rs0[n]);
        rs := rs[n := r.(southCount := r.southCount + 1)];
      }
      todo := todo - {n};
    }
    assert {norths[0], norths[1]} == {na, nb} && {souths[0], souths[1]} == {sa, sb};
    AllCreditedAtEnd(rs0);
    credited := rs;
  }

  /** The names `a` and `b` at one station as the first loop of
      `State.Swap` collects them into `names`: `count` of them have been
      visited (are no longer in `todo`), and those fill the first `count`
      slots, distinct. */
  ghost predicate Gathered(names: seq<char>, count: int, a: char, b: char, todo: set<char>) {
    && |names| == 2
    && count == (if a in todo then 0 else 1) + (if b in todo then 0 else 1)
    && (1 <= count ==> names[0] in {a, b} && names[0] !in todo)
    && (count == 2 ==> names[1] in {a, b} && names[1] !in todo && names[0] != names[1])
  }

  /** Visiting one of the two names stores it in the next slot. */
  lemma GatheredAdd(names: seq<char>, count: int, a: char, b: char, todo: set<char>, n: char)
    requires Gathered(names, count, a, b, todo) && n in todo && (n == a || n == b) && a != b
    ensures 0 <= count < 2
    ensures Gathered(names[count := n], count + 1, a, b, todo - {n})
  {
  }

  /** Visiting any other name changes nothing. */
  lemma GatheredSkip(names: seq<char>, count: int, a: char, b: char, todo: set<char>, n: char)
    requires Gathered(names, count, a, b, todo) && n != a && n != b
    ensures Gathered(names, count, a, b, todo - {n})
  {
  }

  /** The second step of `State.Swap`: the two rangers at each station
      count one more shared shift with each other. */
  method AddSharedShifts(ghost rs0: map<char, Ranger>, credited: map<char, Ranger>,
                         north0: char, north1: char, south0: char, south1: char)
      returns (paired: map<char, Ranger>)
    requires Named(rs0) && Registered(rs0)
    requires Norths(rs0) == {north0, north1} && north0 != north1
    requires Souths(rs0) == {south0, south1} && south0 != south1
    requires credited == AllCredited(rs0)
    ensures paired == Paired(credited, north0, north1, south0, south1)
  {
    PairsRegistered(rs0, credited, north0, north1, south0, south1);
    var rs := credited;
    rs := rs[north0 := rs[north0].IncrementPairedCount(rs[north1].name)];
    ghost var paired1 := rs;
    rs := rs[north1 := rs[north1].IncrementPairedCount(rs[north0].name)];
    ghost var paired2 := rs;
    rs := rs[south0 := rs[south0].IncrementPairedCount(rs[south1].name)];
    ghost var paired3 := rs;
    rs := rs[south1 := rs[south1].IncrementPairedCount(rs[south0].name)];
    PairPhase(rs0, credited, paired1, paired2, paired3, rs, north0, north1, south0, south1);
    PairedMatches(rs0, credited, rs, north0, north1, south0, south1);
    paired := rs;
  }

  /** The last step of `State.Swap`: `n1` and `n2` change station and
      count a move. */
  method MoveRangers(paired: map<char, Ranger>, n1: char, n2: char) returns (rs: map<char, Ranger>)
    requires n1 != n2 && n1 in paired && n2 in paired
    ensures rs == Moved(paired, n1, n2)
  {
    rs := paired;
    rs := rs[n1 := rs[n1].(isNorth := !rs[n1].isNorth)];
    ghost var flipped1 := rs;
    rs := rs[n2 := rs[n2].(isNorth := !rs[n2].isNorth)];
    ghost var flipped2 := rs;
    rs := rs[n1 := rs[n1].(movedCount := rs[n1].movedCount + 1)];
    ghost var moved1 := rs;
    rs := rs[n2 := rs[n2].(movedCount := rs[n2].movedCount + 1)];
    TogglePhase(paired, flipped1, flipped2, moved1, rs, n1, n2);
    assert rs == Moved(paired, n1, n2);
  }


  /** Every record credited with its shift. */
  function AllCredited(rs0: map<char, Ranger>): (rs: map<char, Ranger>)
    ensures rs.Keys == rs0.Keys
  {
    map k | k in rs0 :: Credited(rs0[k])
  }

  /** A record with one more shared shift with `p`, when `p` is a peer. */
  function SharedShift(r: Ranger, p: char): Ranger {
    if p in r.pairedCount then r.IncrementPairedCount(p) else r
  }

  /** Every record with one more shared shift with its partner. */
  function Paired(credited: map<char, Ranger>, north0: char, north1: char, south0: char, south1: char)
    : (rs: map<char, Ranger>)
    ensures rs.Keys == credited.Keys
  {
    map k | k in credited :: SharedShift(credited[k], Partner(k, north0, north1, south0, south1))
  }

  /** Every record after the pair has moved. */
  function Moved(paired: map<char, Ranger>, n1: char, n2: char): (rs: map<char, Ranger>)
    ensures rs.Keys == paired.Keys
  {
    map k | k in paired :: Toggled(paired[k], k == n1 || k == n2)
  }


  /** A ranger credited with one shift at the station it stands at. */
  function Credited(r: Ranger): (r': Ranger)
    ensures r'.northCount + r'.southCount == r.northCount + r.southCount + 1
  {
    if r.isNorth then r.(northCount := r.northCount + 1) else r.(southCount := r.southCount + 1)
  }

  /** The records with every ranger outside `todo` credited with its shift. */
  function CreditedExcept(rs0: map<char, Ranger>, todo: set<char>): map<char, Ranger> {
    map k | k in rs0 :: if k in todo then rs0[k] else Credited(rs0[k])
  }

  /** Crediting every ranger. */
  lemma AllCreditedAtEnd(rs0: map<char, Ranger>)
    ensures CreditedExcept(rs0, {}) == AllCredited(rs0)
  {
  }

  /** Crediting one more ranger. */
  lemma CreditOne(rs0: map<char, Ranger>, todo: set<char>, n: char)
    requires n in todo && todo <= rs0.Keys
    ensures n in CreditedExcept(rs0, todo) && CreditedExcept(rs0, todo)[n] == rs0[n]
    ensures CreditedExcept(rs0, todo)[n := Credited(rs0[n])] == CreditedExcept(rs0, todo - {n})
  {
  }

  /** The two members of a two-element set. */
  lemma TwoMembers(s: set<char>) returns (x: char, y: char)
    requires |s| == 2
    ensures s == {x, y} && x != y
  {
    x :| x in s;
    y := OtherOfTwo(s, x);
  }

  /** The existing records while the loop of `State.AddRanger` runs: those
      still in `todo` are untouched, the others register `name`. */
  ghost predicate Registering(rs0: map<char, Ranger>, rs: map<char, Ranger>, todo: set<char>, name: char) {
    && todo <= rs0.Keys && rs.Keys == rs0.Keys
    && (forall k :: k in todo ==> rs[k] == rs0[k])
    && (forall k :: k in rs0 && k !in todo ==> rs[k] == rs0[k].InitPairedCount(name))
  }

  lemma RegisterOne(rs0: map<char, Ranger>, rs: map<char, Ranger>, todo: set<char>, name: char, n: char)
    requires Registering(rs0, rs, todo, name) && n in todo
    ensures n in rs && Registering(rs0, rs[n := rs[n].InitPairedCount(name)], todo - {n}, name)
  {
  }

  /** The new record while the loop of `State.AddRanger` runs: a fresh
      ranger with a zero counter for every name visited so far. */
  ghost predicate Building(rs0: map<char, Ranger>, newRanger: Ranger, todo: set<char>, name: char, isNorth: bool) {
    && newRanger.(pairedCount := map[]) == NewRanger(name, isNorth)
    && newRanger.pairedCount.Keys == rs0.Keys - todo
    && (forall k :: k in newRanger.pairedCount ==> newRanger.pairedCount[k] == 0)
  }

  lemma BuildOne(rs0: map<char, Ranger>, newRanger: Ranger, todo: set<char>, name: char, isNorth: bool, n: char)
    requires Building(rs0, newRanger, todo, name, isNorth) && n in todo && todo <= rs0.Keys
    ensures Building(rs0, newRanger.InitPairedCount(n), todo - {n}, name, isNorth)
  {
  }

  /** The records the loop of `State.AddRanger` leaves behind give the
      reference result once the new record is filed. */
  lemma AddRangerMatchesReference(rs0: map<char, Ranger>, rs: map<char, Ranger>, newRanger: Ranger,
                                  name: char, isNorth: bool)
    requires rs.Keys == rs0.Keys
    requires forall k :: k in rs0 ==> rs[k] == rs0[k].InitPairedCount(name)
    requires newRanger.(pairedCount := map[]) == NewRanger(name, isNorth)
    requires newRanger.pairedCount.Keys == rs0.Keys
    requires forall k :: k in newRanger.pairedCount ==> newRanger.pairedCount[k] == 0
    ensures AddedRanger(rs0, name, isNorth) == if name in rs then rs else rs[name := newRanger]
  {
    NewRecordMatches(rs0, newRanger, name, isNorth);
    RegisteredRecordsMatch(rs0, rs, name);
  }

  /** The new record the loop of `State.AddRanger` builds: a fresh ranger
      with a zero counter for every existing name. */
  lemma NewRecordMatches(rs0: map<char, Ranger>, newRanger: Ranger, name: char, isNorth: bool)
    requires newRanger.(pairedCount := map[]) == NewRanger(name, isNorth)
    requires newRanger.pairedCount.Keys == rs0.Keys
    requires forall k :: k in newRanger.pairedCount ==> newRanger.pairedCount[k] == 0
    ensures newRanger == NewRanger(name, isNorth).(pairedCount := map k | k in rs0 :: 0)
  {
    assert newRanger.pairedCount == map k | k in rs0 :: 0;
  }

  /** The existing records after the loop of `State.AddRanger`: each
      registers the new name. */
  lemma RegisteredRecordsMatch(rs0: map<char, Ranger>, rs: map<char, Ranger>, name: char)
    requires rs.Keys == rs0.Keys
    requires forall k :: k in rs0 ==> rs[k] == rs0[k].InitPairedCount(name)
    ensures rs == map k | k in rs0 :: rs0[k].InitPairedCount(name)
  {
  }

  /** The two rangers at each station are distinct, filed under their
      names and registered with each other. */
  lemma PairsRegistered(rs0: map<char, Ranger>, credited: map<char, Ranger>,
                        north0: char, north1: char, south0: char, south1: char)
    requires Named(rs0) && Registered(rs0)
    requires Norths(rs0) == {north0, north1} && north0 != north1
    requires Souths(rs0) == {south0, south1} && south0 != south1
    requires credited.Keys == rs0.Keys
    requires forall k :: k in rs0 ==> credited[k] == Credited(rs0[k])
    ensures north0 in rs0 && north1 in rs0 && south0 in rs0 && south1 in rs0
    ensures north0 != south0 && north0 != south1 && north1 != south0 && north1 != south1
    ensures credited[north0].name == north0 && credited[north1].name == north1
    ensures credited[south0].name == south0 && credited[south1].name == south1
    ensures north1 in credited[north0].pairedCount && north0 in credited[north1].pairedCount
    ensures south1 in credited[south0].pairedCount && south0 in credited[south1].pairedCount
  {
    assert north0 in Norths(rs0) && north1 in Norths(rs0);
    assert south0 in Souths(rs0) && south1 in Souths(rs0);
  }

  /** The shared-shift partner of `k`: the other ranger at its station. */
  function Partner(k: char, north0: char, north1: char, south0: char, south1: char): char {
    if k == north0 then north1 else if k == north1 then north0
    else if k == south0 then south1 else south0
  }

  /** A ranger after the last step of a swap: if it is one of the pair, it
      has changed station and counted a move. */
  function Toggled(r: Ranger, moves: bool): Ranger {
    if moves then r.(isNorth := !r.isNorth, movedCount := r.movedCount + 1) else r
  }

  /** After the shared shifts of the two pairs are added, every ranger has
      one more shared shift with its partner. */
  lemma PairPhase(rs0: map<char, Ranger>, credited: map<char, Ranger>,
                  paired1: map<char, Ranger>, paired2: map<char, Ranger>, paired3: map<char, Ranger>,
                  paired: map<char, Ranger>, north0: char, north1: char, south0: char, south1: char)
    requires credited.Keys == rs0.Keys
    requires Norths(rs0) == {north0, north1} && north0 != north1
    requires Souths(rs0) == {south0, south1} && south0 != south1
    requires north0 != south0 && north0 != south1 && north1 != south0 && north1 != south1
    requires north1 in credited[north0].pairedCount && north0 in credited[north1].pairedCount
    requires south1 in credited[south0].pairedCount && south0 in credited[south1].pairedCount
    requires credited[north0].name == north0 && credited[north1].name == north1
    requires credited[south0].name == south0 && credited[south1].name == south1
    requires paired1 == credited[north0 := credited[north0].IncrementPairedCount(credited[north1].name)]
    requires paired2 == paired1[north1 := paired1[north1].IncrementPairedCount(paired1[north0].name)]
    requires paired3 == paired2[south0 := paired2[south0].IncrementPairedCount(paired2[south1].name)]
    requires paired == paired3[south1 := paired3[south1].IncrementPairedCount(paired3[south0].name)]
    ensures paired.Keys == rs0.Keys
    ensures forall k :: k in rs0 ==>
      var p := Partner(k, north0, north1, south0, south1);
      p in credited[k].pairedCount && paired[k] == credited[k].IncrementPairedCount(p)
  {
    assert north0 in Norths(rs0) && north1 in Norths(rs0);
    assert south0 in Souths(rs0) && south1 in Souths(rs0);
    assert paired.Keys == credited.Keys;
    assert paired[north0] == credited[north0].IncrementPairedCount(north1);
    assert paired[north1] == credited[north1].IncrementPairedCount(north0);
    assert paired[south0] == credited[south0].IncrementPairedCount(south1);
    assert paired[south1] == credited[south1].IncrementPairedCount(south0);
    forall k | k in rs0
      ensures var p := Partner(k, north0, north1, south0, south1);
        p in credited[k].pairedCount && paired[k] == credited[k].IncrementPairedCount(p)
    {
      assert k in Norths(rs0) || k in Souths(rs0);
    }
  }

  /** Records that each have one more shared shift with their partner make
      the map `Paired` describes. */
  lemma PairedMatches(rs0: map<char, Ranger>, credited: map<char, Ranger>, paired: map<char, Ranger>,
                      north0: char, north1: char, south0: char, south1: char)
    requires credited.Keys == rs0.Keys && paired.Keys == rs0.Keys
    requires forall k :: k in rs0 ==>
      var p := Partner(k, north0, north1, south0, south1);
      p in credited[k].pairedCount && paired[k] == credited[k].IncrementPairedCount(p)
    ensures paired == Paired(credited, north0, north1, south0, south1)
  {
    forall k | k in rs0
      ensures paired[k] == SharedShift(credited[k], Partner(k, north0, north1, south0, south1))
    {
    }
  }

  /** After the last step, the pair has changed station and counted a move. */
  lemma TogglePhase(paired: map<char, Ranger>, flipped1: map<char, Ranger>, flipped2: map<char, Ranger>,
                    moved1: map<char, Ranger>, rs: map<char, Ranger>, n1: char, n2: char)
    requires n1 != n2 && n1 in paired && n2 in paired
    requires flipped1 == paired[n1 := paired[n1].(isNorth := !paired[n1].isNorth)]
    requires flipped2 == flipped1[n2 := flipped1[n2].(isNorth := !flipped1[n2].isNorth)]
    requires moved1 == flipped2[n1 := flipped2[n1].(movedCount := flipped2[n1].movedCount + 1)]
    requires rs == moved1[n2 := moved1[n2].(movedCount := moved1[n2].movedCount + 1)]
    ensures rs.Keys == paired.Keys
    ensures forall k :: k in paired ==> rs[k] == Toggled(paired[k], k == n1 || k == n2)
  {
  }

  /** The records after a legal swap of `n1` and `n2` in `c0`, computed as
      `State.Swap` does. */
  method SwappedRecords(c0: Config, n1: char, n2: char) returns (rs: map<char, Ranger>)
    requires Named(c0.rangers) && Registered(c0.rangers) && Balanced(c0.rangers)
    requires n1 in c0.rangers && n2 in c0.rangers && c0.rangers[n1].isNorth != c0.rangers[n2].isNorth
    ensures AfterSwap(c0, n1, n2) == Some(Config(rs, c0.swapHistory + [(n1, n2)]))
  {
    // shifts are credited before the move
    var credited, norths, souths := CreditShifts(c0.rangers);
    var north0, north1, south0, south1 := norths[0], norths[1], souths[0], souths[1];
    var paired := AddSharedShifts(c0.rangers, credited, north0, north1, south0, south1);

    // the swap: the pair changes station and counts a move
    rs := MoveRangers(paired, n1, n2);
    SwapComposes(c0, n1, n2, north0, north1, south0, south1);
  }

  /** The three steps of `State.Swap` (credit the shifts, add the shared
      shifts of the two pairs, move the pair), applied to records that
      satisfy the swap's precondition, give the reference result of the swap. */
  lemma SwapComposes(c0: Config, n1: char, n2: char, north0: char, north1: char, south0: char, south1: char)
    requires Named(c0.rangers) && Registered(c0.rangers)
    requires n1 in c0.rangers && n2 in c0.rangers && c0.rangers[n1].isNorth != c0.rangers[n2].isNorth
    requires Norths(c0.rangers) == {north0, north1} && north0 != north1
    requires Souths(c0.rangers) == {south0, south1} && south0 != south1
    ensures AfterSwap(c0, n1, n2)
      == Some(Config(Moved(Paired(AllCredited(c0.rangers), north0, north1, south0, south1), n1, n2),
                     c0.swapHistory + [(n1, n2)]))
  {
    var rs0 := c0.rangers;
    var credited := AllCredited(rs0);
    var paired := Paired(credited, north0, north1, south0, south1);
    var rs := Moved(paired, n1, n2);
    forall k | k in rs0
      ensures rs[k] == Advanced(rs0, k, n1, n2)
    {
      StepsAt(rs0, n1, n2, north0, north1, south0, south1, k);
      RecordMatchesReference(rs0, credited, paired, rs, n1, n2, north0, north1, south0, south1, k);
    }
    SwapMatchesReference(c0, rs, n1, n2);
  }

  /** Records that all have their reference values make the reference result. */
  lemma SwapMatchesReference(c0: Config, rs: map<char, Ranger>, n1: char, n2: char)
    requires n1 in c0.rangers && n2 in c0.rangers
    requires c0.rangers[n1].isNorth != c0.rangers[n2].isNorth
    requires rs.Keys == c0.rangers.Keys
    requires forall k :: k in c0.rangers ==> rs[k] == Advanced(c0.rangers, k, n1, n2)
    ensures AfterSwap(c0, n1, n2) == Some(Config(rs, c0.swapHistory + [(n1, n2)]))
  {
    assert rs == (map k | k in c0.rangers :: Advanced(c0.rangers, k, n1, n2));
  }

  /** What the three steps do to one record. */
  lemma StepsAt(rs0: map<char, Ranger>, n1: char, n2: char,
                north0: char, north1: char, south0: char, south1: char, k: char)
    requires Named(rs0) && Registered(rs0)
    requires Norths(rs0) == {north0, north1} && north0 != north1
    requires Souths(rs0) == {south0, south1} && south0 != south1
    requires k in rs0
    ensures var credited := AllCredited(rs0);
      var p := Partner(k, north0, north1, south0, south1);
      var paired := Paired(credited, north0, north1, south0, south1);
      && credited[k] == Credited(rs0[k])
      && p in credited[k].pairedCount && paired[k] == credited[k].IncrementPairedCount(p)
      && Moved(paired, n1, n2)[k] == Toggled(paired[k], k == n1 || k == n2)
  {
    var partner := Partner(k, north0, north1, south0, south1);
    assert k in Norths(rs0) || k in Souths(rs0);
    assert partner in rs0 && partner != k;
  }

  /** One record of `SwapComposes`. */
  lemma RecordMatchesReference(rs0: map<char, Ranger>, credited: map<char, Ranger>,
                               paired: map<char, Ranger>, rs: map<char, Ranger>,
                               n1: char, n2: char, north0: char, north1: char, south0: char, south1: char,
                               k: char)
    requires Named(rs0) && Registered(rs0)
    requires n1 in rs0 && n2 in rs0 && rs0[n1].isNorth != rs0[n2].isNorth
    requires Norths(rs0) == {north0, north1} && north0 != north1
    requires Souths(rs0) == {south0, south1} && south0 != south1
    requires credited.Keys == rs0.Keys && paired.Keys == rs0.Keys && rs.Keys == rs0.Keys
    requires k in rs0 && credited[k] == Credited(rs0[k])
    requires var p := Partner(k, north0, north1, south0, south1);
      p in credited[k].pairedCount && paired[k] == credited[k].IncrementPairedCount(p)
    requires rs[k] == Toggled(paired[k], k == n1 || k == n2)
    ensures rs[k] == Advanced(rs0, k, n1, n2)
  {
    var partner := Partner(k, north0, north1, south0, south1);
    assert k in Norths(rs0) || k in Souths(rs0);
    var pc, want := rs[k].pairedCount, Advanced(rs0, k, n1, n2).pairedCount;
    forall j | j in rs0[k].pairedCount
      ensures pc[j] == want[j]
    {
      if j == partner {
        assert j in rs0 && j != k && rs0[j].isNorth == rs0[k].isNorth;
      } else if rs0[k].isNorth {
        assert j !in Norths(rs0) - {k};
      } else {
        assert j !in Souths(rs0) - {k};
      }
    }
    assert pc == want;
  }
}
