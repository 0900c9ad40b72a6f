/** What the reference definitions in `Configuration` guarantee: the exact
    effect of a swap, the invariants it preserves, and how adding rangers
    builds the opening state. */
module ConfigurationLemmas {
  import opened RangerRecord
  import opened Configuration

  /** A two-element set is exactly the two distinct members one knows of. */
  lemma TwoOfTwo(s: set<char>, x: char, y: char)
    requires |s| == 2 && x in s && y in s && x != y
    ensures s == {x, y}
  {
    var rest := s - {x, y};
    assert s == rest + {x, y};
    assert |rest + {x, y}| == |rest| + 2;
  }

  /** A two-element set has a member other than any given one. */
  lemma OtherOfTwo(s: set<char>, x: char) returns (y: char)
    requires |s| == 2 && x in s
    ensures y in s && y != x && s == {x, y}
  {
    var rest := s - {x};
    assert |rest| == 1;
    y :| y in rest;
    TwoOfTwo(s, x, y);
  }

  // ---------------------------------------------------------------------
  // The total of the move counts

  /** The total does not depend on which ranger the definition picks first. */
  lemma {:induction false} TotalMovedSplit(rs: map<char, Ranger>, k: char)
    requires k in rs
    ensures TotalMoved(rs) == rs[k].movedCount + TotalMoved(rs - {k})
    decreases |rs|
  {
    var k' :| k' in rs && TotalMoved(rs) == rs[k'].movedCount + TotalMoved(rs - {k'});
    if k' != k {
      assert (rs - {k'}).Keys == rs.Keys - {k'};
      assert (rs - {k}).Keys == rs.Keys - {k};
      TotalMovedSplit(rs - {k'}, k);
      TotalMovedSplit(rs - {k}, k');
      assert rs - {k'} - {k} == rs - {k} - {k'};
    }
  }

  /** Two maps with the same names and the same move counts have the same total. */
  lemma {:induction false} TotalMovedSame(rs: map<char, Ranger>, rs': map<char, Ranger>)
    requires rs.Keys == rs'.Keys
    requires forall k :: k in rs ==> rs[k].movedCount == rs'[k].movedCount
    ensures TotalMoved(rs) == TotalMoved(rs')
    decreases |rs|
  {
    if rs != map[] {
      var k :| k in rs;
      TotalMovedSplit(rs, k);
      TotalMovedSplit(rs', k);
      assert (rs - {k}).Keys == rs.Keys - {k};
      TotalMovedSame(rs - {k}, rs' - {k});
    }
  }

  /** Nobody has moved: the total is zero. */
  lemma {:induction false} TotalMovedZero(rs: map<char, Ranger>)
    requires forall k :: k in rs ==> rs[k].movedCount == 0
    ensures TotalMoved(rs) == 0
    decreases |rs|
  {
    if rs != map[] {
      var k :| k in rs;
      TotalMovedSplit(rs, k);
      assert (rs - {k}).Keys == rs.Keys - {k};
      TotalMovedZero(rs - {k});
    }
  }

  // ---------------------------------------------------------------------
  // The effect of a swap

  /** A legal swap flips the stations of exactly `n1` and `n2` and counts a
      move for each of them; every ranger is credited with one shift at the
      station it stood at, so its shift total grows by one; names and the
      set of rangers stay; the move is appended to the history. */
  lemma SwapEffect(c: Config, n1: char, n2: char)
    requires n1 in c.rangers && n2 in c.rangers
    requires AfterSwap(c, n1, n2).Some?
    ensures n1 != n2
    ensures var c' := AfterSwap(c, n1, n2).value;
      && c'.rangers.Keys == c.rangers.Keys
      && c'.swapHistory == c.swapHistory + [(n1, n2)]
      && forall k :: k in c.rangers ==>
           var r, r' := c.rangers[k], c'.rangers[k];
           && r'.name == r.name
           && r'.isNorth == (if k == n1 || k == n2 then !r.isNorth else r.isNorth)
           && r'.movedCount == (if k == n1 || k == n2 then r.movedCount + 1 else r.movedCount)
           && r'.northCount == (if r.isNorth then r.northCount + 1 else r.northCount)
           && r'.southCount == (if r.isNorth then r.southCount else r.southCount + 1)
           && r'.northCount + r'.southCount == r.northCount + r.southCount + 1
           && r'.pairedCount.Keys == r.pairedCount.Keys
  {
  }

  /** In a balanced, well-formed state a legal swap adds one shared shift
      between each ranger and exactly one peer: the other ranger that stood
      at its station. */
  lemma SwapCreditsOnePartner(c: Config, n1: char, n2: char, k: char)
    requires Named(c.rangers) && Registered(c.rangers) && Balanced(c.rangers)
    requires n1 in c.rangers && n2 in c.rangers && k in c.rangers
    requires AfterSwap(c, n1, n2).Some?
    ensures var rs, rs' := c.rangers, AfterSwap(c, n1, n2).value.rangers;
      exists p :: p in rs && p != k && rs[p].isNorth == rs[k].isNorth
        && rs'[k].pairedCount.Keys == rs[k].pairedCount.Keys
        && p in rs[k].pairedCount
        && rs'[k].pairedCount[p] == rs[k].pairedCount[p] + 1
        && forall j :: j in rs[k].pairedCount && j != p ==>
             rs'[k].pairedCount[j] == rs[k].pairedCount[j]
  {
    var rs, rs' := c.rangers, AfterSwap(c, n1, n2).value.rangers;
    var r := rs[k];
    assert rs'[k] == Advanced(rs, k, n1, n2);
    var p;
    if r.isNorth {
      assert k in Norths(rs);
      p := OtherOfTwo(Norths(rs), k);
      assert p in Norths(rs);
    } else {
      assert k in Souths(rs);
      p := OtherOfTwo(Souths(rs), k);
      assert p in Souths(rs);
    }
    assert p in rs && p != k && rs[p].isNorth == r.isNorth;
    assert p in r.pairedCount;
    forall j | j in r.pairedCount && j != p
      ensures rs'[k].pairedCount[j] == r.pairedCount[j]
    {
      if r.isNorth {
        assert j !in Norths(rs);
      } else {
        assert j !in Souths(rs);
      }
    }
  }

  /** A legal swap moves its North ranger to South and its South ranger to
      North, and nobody else. */
  lemma StationsAfterSwap(c: Config, n1: char, n2: char)
    requires n1 in c.rangers && n2 in c.rangers
    requires AfterSwap(c, n1, n2).Some?
    ensures var rs, rs' := c.rangers, AfterSwap(c, n1, n2).value.rangers;
      var north, south := if rs[n1].isNorth then n1 else n2, if rs[n1].isNorth then n2 else n1;
      && north in Norths(rs) && south in Souths(rs)
      && Norths(rs') == Norths(rs) - {north} + {south}
      && Souths(rs') == Souths(rs) - {south} + {north}
  {
  }

  /** A legal swap keeps two rangers at each station. */
  lemma SwapKeepsBalance(c: Config, n1: char, n2: char)
    requires Balanced(c.rangers)
    requires n1 in c.rangers && n2 in c.rangers
    requires AfterSwap(c, n1, n2).Some?
    ensures Balanced(AfterSwap(c, n1, n2).value.rangers)
  {
    var rs := c.rangers;
    var north, south := if rs[n1].isNorth then n1 else n2, if rs[n1].isNorth then n2 else n1;
    StationsAfterSwap(c, n1, n2);
    ExchangeKeepsSize(Norths(rs), Souths(rs), north, south);
  }

  /** Taking one member out of a set and putting one non-member in keeps
      its size. */
  lemma ExchangeKeepsSize(ns: set<char>, ss: set<char>, north: char, south: char)
    requires north in ns && south in ss && ns !! ss
    ensures |ns - {north} + {south}| == |ns|
    ensures |ss - {south} + {north}| == |ss|
  {
    assert |ns - {north}| == |ns| - 1;
    assert |ss - {south}| == |ss| - 1;
  }

  /** A legal swap adds one shared shift to the counter of `a` for `b`
      exactly when the two stood at the same station. */
  lemma PairedAfterSwap(c: Config, n1: char, n2: char, a: char, b: char)
    requires n1 in c.rangers && n2 in c.rangers && a in c.rangers && b in c.rangers
    requires AfterSwap(c, n1, n2).Some?
    requires b in c.rangers[a].pairedCount
    ensures var rs, rs' := c.rangers, AfterSwap(c, n1, n2).value.rangers;
      && b in rs'[a].pairedCount
      && rs'[a].pairedCount[b] ==
           rs[a].pairedCount[b] + (if a != b && rs[a].isNorth == rs[b].isNorth then 1 else 0)
  {
  }

  /** A legal swap keeps every record filed under its name and every peer
      registered. */
  lemma SwapKeepsRecords(c: Config, n1: char, n2: char)
    requires Named(c.rangers) && Registered(c.rangers)
    requires n1 in c.rangers && n2 in c.rangers
    requires AfterSwap(c, n1, n2).Some?
    ensures var rs' := AfterSwap(c, n1, n2).value.rangers;
      Named(rs') && Registered(rs')
  {
    var rs, rs' := c.rangers, AfterSwap(c, n1, n2).value.rangers;
    forall k | k in rs'
      ensures rs'[k].name == k && rs'[k].pairedCount.Keys == rs'.Keys - {k}
    {
      assert rs'[k] == Advanced(rs, k, n1, n2);
    }
  }

  /** A legal swap keeps the shared-shift counters symmetric. */
  lemma SwapKeepsSymmetry(c: Config, n1: char, n2: char)
    requires Symmetric(c.rangers)
    requires n1 in c.rangers && n2 in c.rangers
    requires AfterSwap(c, n1, n2).Some?
    ensures Symmetric(AfterSwap(c, n1, n2).value.rangers)
  {
    var rs, rs' := c.rangers, AfterSwap(c, n1, n2).value.rangers;
    forall a, b | a in rs' && b in rs' && b in rs'[a].pairedCount && a in rs'[b].pairedCount
      ensures rs'[a].pairedCount[b] == rs'[b].pairedCount[a]
    {
      assert rs'[a].pairedCount.Keys == rs[a].pairedCount.Keys;
      assert rs'[b].pairedCount.Keys == rs[b].pairedCount.Keys;
      PairedAfterSwap(c, n1, n2, a, b);
      PairedAfterSwap(c, n1, n2, b, a);
    }
  }

  /** A legal swap adds two to the total of the move counts. */
  lemma SwapAddsTwoMoves(c: Config, n1: char, n2: char)
    requires n1 in c.rangers && n2 in c.rangers
    requires AfterSwap(c, n1, n2).Some?
    ensures TotalMoved(AfterSwap(c, n1, n2).value.rangers) == TotalMoved(c.rangers) + 2
  {
    var rs, rs' := c.rangers, AfterSwap(c, n1, n2).value.rangers;
    assert n1 != n2;
    TotalMovedSplit(rs, n1);
    TotalMovedSplit(rs', n1);
    var rest, rest' := rs - {n1}, rs' - {n1};
    assert rest.Keys == rs.Keys - {n1};
    assert rest'.Keys == rs'.Keys - {n1};
    TotalMovedSplit(rest, n2);
    TotalMovedSplit(rest', n2);
    assert (rest - {n2}).Keys == rest.Keys - {n2};
    TotalMovedSame(rest - {n2}, rest' - {n2});
  }

  /** A legal swap from a consistent state leads to a consistent state. */
  lemma SwapKeepsConsistent(c: Config, n1: char, n2: char)
    requires Consistent(c)
    requires n1 in c.rangers && n2 in c.rangers
    requires AfterSwap(c, n1, n2).Some?
    ensures Consistent(AfterSwap(c, n1, n2).value)
  {
    SwapKeepsBalance(c, n1, n2);
    SwapKeepsRecords(c, n1, n2);
    SwapKeepsSymmetry(c, n1, n2);
    SwapAddsTwoMoves(c, n1, n2);
    SwapCountsShifts(c, n1, n2);
  }

  /** A legal swap credits every ranger with one shift. */
  lemma SwapCountsShifts(c: Config, n1: char, n2: char)
    requires ShiftsCounted(c)
    requires n1 in c.rangers && n2 in c.rangers
    requires AfterSwap(c, n1, n2).Some?
    ensures ShiftsCounted(AfterSwap(c, n1, n2).value)
  {
  }

  // ---------------------------------------------------------------------
  // Adding rangers

  /** Records as `AddedRanger` builds them before any swap: intact,
      registered, symmetric, with every counter zero. */
  predicate Seeded(rs: map<char, Ranger>) {
    && Named(rs)
    && Registered(rs)
    && (forall k :: k in rs ==>
          && rs[k].northCount == 0 && rs[k].southCount == 0 && rs[k].movedCount == 0
          && forall j :: j in rs[k].pairedCount ==> rs[k].pairedCount[j] == 0)
  }

  /** Adding a new name adds one ranger at the given station, leaves every
      other station alone, and leaves every ranger registered with every
      other one, all counters still zero. */
  lemma AddRangerRegisters(rs: map<char, Ranger>, name: char, isNorth: bool)
    requires Seeded(rs)
    requires name !in rs
    ensures var rs' := AddedRanger(rs, name, isNorth);
      && rs'.Keys == rs.Keys + {name}
      && rs'[name].isNorth == isNorth
      && (forall k :: k in rs ==> rs'[k].isNorth == rs[k].isNorth)
      && Seeded(rs')
  {
    var rs' := AddedRanger(rs, name, isNorth);
    AddedRangerStations(rs, name, isNorth);
    forall k | k in rs'
      ensures rs'[k].name == k
      ensures forall j :: j in rs'[k].pairedCount <==> j in rs' && j != k
      ensures rs'[k].northCount == 0 && rs'[k].southCount == 0 && rs'[k].movedCount == 0
      ensures forall j :: j in rs'[k].pairedCount ==> rs'[k].pairedCount[j] == 0
    {
      AddedRangerAt(rs, name, isNorth, k);
    }
  }

  /** Adding a new name adds one ranger at the given station and leaves
      every other station alone. This is the station half of
      `AddRangerRegisters`, stated apart because it holds for any records,
      seeded or not. */
  lemma AddedRangerStations(rs: map<char, Ranger>, name: char, isNorth: bool)
    requires name !in rs
    ensures var rs' := AddedRanger(rs, name, isNorth);
      && rs'.Keys == rs.Keys + {name}
      && rs'[name].isNorth == isNorth
      && (forall k :: k in rs ==> rs'[k].isNorth == rs[k].isNorth)
  {
  }

  /** One record of `AddRangerRegisters`. */
  lemma AddedRangerAt(rs: map<char, Ranger>, name: char, isNorth: bool, k: char)
    requires Seeded(rs)
    requires name !in rs
    requires k in rs || k == name
    ensures var rs' := AddedRanger(rs, name, isNorth);
      && k in rs'
      && rs'[k].name == k
      && (forall j :: j in rs'[k].pairedCount <==> j in rs' && j != k)
      && rs'[k].northCount == 0 && rs'[k].southCount == 0 && rs'[k].movedCount == 0
      && (forall j :: j in rs'[k].pairedCount ==> rs'[k].pairedCount[j] == 0)
  {
    var rs' := AddedRanger(rs, name, isNorth);
    if k != name {
      assert rs'[k] == rs[k].InitPairedCount(name);
    }
  }

  /** The four-ranger seed with the given names and stations is consistent
      before any swap when two of them are at North. */
  lemma SeededIsConsistent(rs: map<char, Ranger>)
    requires Seeded(rs) && Balanced(rs)
    ensures Consistent(Config(rs, []))
  {
    TotalMovedZero(rs);
  }
}
