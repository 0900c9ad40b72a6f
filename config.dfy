/** The value of a search state: the rangers by name and the swaps that led
    to them, together with the reference definitions of the three state
    operations (adding a ranger, swapping two rangers, the goal test) and
    the invariants the search relies on. */
module Configuration {
  import opened RangerRecord

  datatype Option<T> = None | Some(value: T)

  /** A swap as it is logged: the two names in the order they were given. */
  type Move = (char, char)

  datatype Config = Config(rangers: map<char, Ranger>, swapHistory: seq<Move>)

  /** Names of the rangers at North, and at South. */
  function Norths(rs: map<char, Ranger>): set<char> {
    set k | k in rs && rs[k].isNorth
  }

  function Souths(rs: map<char, Ranger>): set<char> {
    set k | k in rs && !rs[k].isNorth
  }

  /** Two rangers at each station. */
  predicate Balanced(rs: map<char, Ranger>) {
    |Norths(rs)| == 2 && |Souths(rs)| == 2
  }

  /** Every record is filed under its own name. */
  predicate Named(rs: map<char, Ranger>) {
    forall k :: k in rs ==> rs[k].name == k
  }

  /** Every ranger has a shared-shift counter for every other ranger and
      for nobody else. */
  predicate Registered(rs: map<char, Ranger>) {
    forall k, j {:trigger j in rs[k].pairedCount} :: k in rs ==> (j in rs[k].pairedCount <==> j in rs && j != k)
  }

  /** Shared-shift counters agree in both directions. */
  predicate Symmetric(rs: map<char, Ranger>) {
    forall a, b :: a in rs && b in rs && b in rs[a].pairedCount && a in rs[b].pairedCount
      ==> rs[a].pairedCount[b] == rs[b].pairedCount[a]
  }

  /** The sum of all move counts. */
  ghost function TotalMoved(rs: map<char, Ranger>): int
    decreases |rs|
  {
    if rs == map[] then 0
    else
      var k :| k in rs;
      assert |rs - {k}| < |rs| by {
        assert (rs - {k}).Keys == rs.Keys - {k};
      }
      rs[k].movedCount + TotalMoved(rs - {k})
  }

  /** Every ranger has been counted at a station once per logged swap. */
  predicate ShiftsCounted(c: Config) {
    forall k :: k in c.rangers ==>
      c.rangers[k].northCount + c.rangers[k].southCount == |c.swapHistory|
  }

  /** What the search keeps true of every state it builds: the record
      structure is intact, stations are balanced, counters are symmetric,
      every ranger has been counted at a station once per swap, and every
      swap moved two rangers. */
  ghost predicate Consistent(c: Config) {
    && Named(c.rangers)
    && Registered(c.rangers)
    && Balanced(c.rangers)
    && Symmetric(c.rangers)
    && ShiftsCounted(c)
    && TotalMoved(c.rangers) == 2 * |c.swapHistory|
  }

  /** Reference definition of adding a ranger: every existing ranger
      registers the new name; the new ranger (zero counters) registers every
      existing name. A name already present is not replaced, but its own
      record still registers the name, as the map insertions of
      `State::add_ranger` in `rangers.cc` do. */
  function AddedRanger(rs: map<char, Ranger>, name: char, isNorth: bool): map<char, Ranger> {
    var registered := map k | k in rs :: rs[k].InitPairedCount(name);
    if name in rs then registered
    else registered[name := NewRanger(name, isNorth).(pairedCount := map k | k in rs :: 0)]
  }

  /** Reference definition of one ranger's record after a legal swap of `n1`
      and `n2`: it is credited with a shift at the station it stood at, with
      a shared shift with every other ranger at that station, and if it is
      one of the pair it changes station and counts a move. */
  function Advanced(rs: map<char, Ranger>, k: char, n1: char, n2: char): Ranger
    requires k in rs
  {
    var r := rs[k];
    var moves := k == n1 || k == n2;
    r.(isNorth := if moves then !r.isNorth else r.isNorth,
       northCount := if r.isNorth then r.northCount + 1 else r.northCount,
       southCount := if r.isNorth then r.southCount else r.southCount + 1,
       movedCount := if moves then r.movedCount + 1 else r.movedCount,
       pairedCount := map j | j in r.pairedCount ::
         if j != k && j in rs && rs[j].isNorth == r.isNorth then r.pairedCount[j] + 1
         else r.pairedCount[j])
  }

  /** Reference definition of a swap: refused (None) when the two rangers
      stand at the same station, which includes `n1 == n2`; otherwise every
      record advances and the move is logged. */
  function AfterSwap(c: Config, n1: char, n2: char): Option<Config>
    requires n1 in c.rangers && n2 in c.rangers
  {
    if c.rangers[n1].isNorth == c.rangers[n2].isNorth then None
    else Some(Config(map k | k in c.rangers :: Advanced(c.rangers, k, n1, n2),
                     c.swapHistory + [(n1, n2)]))
  }

  /** The goal: the two required rangers are at North, every ranger is
      fair, and all rangers have moved equally often. */
  predicate IsGoal(c: Config, endNorth: set<char>)
    requires |endNorth| == 2 && endNorth <= c.rangers.Keys
  {
    && (forall n :: n in endNorth ==> c.rangers[n].isNorth)
    && (forall k :: k in c.rangers ==> c.rangers[k].Fair())
    && (forall a, b :: a in c.rangers && b in c.rangers ==>
          c.rangers[a].movedCount == c.rangers[b].movedCount)
  }
}
