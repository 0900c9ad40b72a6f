/** One ranger's record: where it stands, how many shifts it has spent at
    each station, how often it has moved, and how many shifts it has shared
    a station with each other ranger.

    The record is copied by value wherever a state is copied, so it is a
    datatype; its two mutators return the updated record. */
module RangerRecord {

  datatype Ranger = Ranger(
    name: char,
    isNorth: bool,                // true: North, false: South
    northCount: int,
    southCount: int,
    movedCount: int,
    pairedCount: map<char, int>)  // other ranger's name -> shared shifts
  {
    /** Registers `n` as a peer with a zero count. Like a map insertion
        that keeps an existing entry, it leaves a registered peer alone. */
    function InitPairedCount(n: char): (r: Ranger)
      ensures r.pairedCount.Keys == pairedCount.Keys + {n}
      ensures n in pairedCount ==> r == this
      ensures n !in pairedCount ==> r.pairedCount[n] == 0
      ensures forall j :: j in pairedCount ==> r.pairedCount[j] == pairedCount[j]
      ensures r.(pairedCount := pairedCount) == this
    {
      if n in pairedCount then this else this.(pairedCount := pairedCount[n := 0])
    }

    /** Counts one more shared shift with `n`; `n` must be registered
        (`increment_paired_count` in `rangers.cc` asserts it). */
    function IncrementPairedCount(n: char): (r: Ranger)
      requires n in pairedCount
      ensures r.pairedCount.Keys == pairedCount.Keys
      ensures r.pairedCount[n] == pairedCount[n] + 1
      ensures forall j :: j in pairedCount && j != n ==> r.pairedCount[j] == pairedCount[j]
      ensures r.(pairedCount := pairedCount) == this
    {
      this.(pairedCount := pairedCount[n := pairedCount[n] + 1])
    }

    /** The per-ranger fairness condition: as many North shifts as South
        shifts, and the same shared-shift count with every peer (vacuous
        without peers). */
    predicate Fair() {
      && northCount == southCount
      && forall a, b :: a in pairedCount && b in pairedCount ==> pairedCount[a] == pairedCount[b]
    }

    /** `Ranger::is_end_state` in `rangers.cc`, proved equal to `Fair`:
        compare the shift counts, then walk the peers, remembering the
        first count and comparing every later one with it. */
    method IsEndState() returns (b: bool)
      ensures b == Fair()
    {
      if northCount != southCount {
        return false;
      }
      var first := true;
      var count := -1;
      ghost var seen: char := 'A';
      var todo := pairedCount.Keys;
      while todo != {}
        invariant todo <= pairedCount.Keys
        invariant first ==> todo == pairedCount.Keys
        invariant !first ==> seen in pairedCount && seen !in todo && pairedCount[seen] == count
        invariant forall n :: n in pairedCount && n !in todo ==> pairedCount[n] == count
        decreases todo
      {
        var n :| n in todo;
        var c := pairedCount[n];
        if first {
          first := false;
          count := c;
          seen := n;
        } else if count != c {
          assert pairedCount[seen] != pairedCount[n];
          return false;
        }
        todo := todo - {n};
      }
      return true;
    }
  }

  /** A new ranger at the given station, with all counters zero and no peers. */
  function NewRanger(name: char, isNorth: bool): (r: Ranger)
    ensures r.name == name && r.isNorth == isNorth
    ensures r.northCount == 0 && r.southCount == 0 && r.movedCount == 0
    ensures r.pairedCount == map[]
  {
    Ranger(name, isNorth, 0, 0, 0, map[])
  }
}
