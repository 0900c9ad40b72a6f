/** The breadth-first driver: four rangers are seeded, A and B at North and
    C and D at South, the opening swap (A, C) is forced, and then the state
    at the front of the queue is taken and every pair of the catalogue is
    tried on a copy of it, starting at a given offset and wrapping around.
    A legal swap that reaches the goal is reported; any other legal swap is
    appended to the back of the queue. */
module Search {
  import opened RangerRecord
  import opened Configuration
  import opened ConfigurationLemmas
  import opened StateObject

  /** The rangers that must end at North. */
  const EndNorth: set<char> := {'A', 'B'}

  /** The four rangers. */
  const Names: set<char> := {'A', 'B', 'C', 'D'}

  /** Every unordered pair of the four rangers, in catalogue order. */
  const Swaps: seq<Move> := [('A', 'B'), ('B', 'C'), ('B', 'D'), ('C', 'D'), ('A', 'C'), ('A', 'D')]

  // ---------------------------------------------------------------------
  // The order in which one state's swaps are tried

  /** The catalogue as the two loops walk it from offset `start`: from
      `start` to the end, then from the beginning up to `start`. */
  function Rotated(start: nat): (order: seq<Move>)
    requires start < |Swaps|
    ensures |order| == |Swaps|
    ensures forall i :: start <= i < |Swaps| ==> order[i - start] == Swaps[i]
    ensures forall i :: 0 <= i < start ==> order[|Swaps| - start + i] == Swaps[i]
  {
    Swaps[start..] + Swaps[..start]
  }

  /** Whatever the offset, every pair of the catalogue is tried exactly
      once, and nothing else is tried. */
  lemma RotationTriesEachPairOnce(start: nat)
    requires start < |Swaps|
    ensures multiset(Rotated(start)) == multiset(Swaps)
    ensures forall m :: m in Swaps ==> multiset(Rotated(start))[m] == 1
  {
    RotationKeepsElements(Swaps, start);
    CatalogueListsEachPairOnce();
  }

  /** Whatever the offset, every pair of two different rangers is tried, in
      one order or the other. */
  lemma RotationTriesEveryPair(start: nat)
    requires start < |Swaps|
    ensures forall x, y :: x in Names && y in Names && x != y ==>
      (x, y) in Rotated(start) || (y, x) in Rotated(start)
  {
    RotationTriesEachPairOnce(start);
    CatalogueListsEachPairOnce();
    forall x, y | x in Names && y in Names && x != y
      ensures (x, y) in Rotated(start) || (y, x) in Rotated(start)
    {
      assert (x, y) in multiset(Swaps) || (y, x) in multiset(Swaps);
    }
  }

  /** Rotating a sequence keeps its elements and their multiplicities. */
  lemma RotationKeepsElements<T>(x: seq<T>, start: nat)
    requires start <= |x|
    ensures multiset(x[start..] + x[..start]) == multiset(x)
  {
    SplitAt(x, start);
  }

  /** The catalogue lists every unordered pair of two different rangers,
      each exactly once and in one order only. */
  lemma CatalogueListsEachPairOnce()
    ensures forall m :: m in Swaps ==> multiset(Swaps)[m] == 1
    ensures forall m :: m in Swaps ==> m.0 in Names && m.1 in Names && m.0 != m.1
    ensures forall x, y :: x in Names && y in Names && x != y ==> (x, y) in Swaps || (y, x) in Swaps
    ensures forall m :: m in Swaps ==> (m.1, m.0) !in Swaps
  {
    assert multiset(Swaps) == multiset{('A', 'B'), ('B', 'C'), ('B', 'D'), ('C', 'D'), ('A', 'C'), ('A', 'D')};
  }

  // ---------------------------------------------------------------------
  // The states the search holds

  /** A state the search can swap on: every record filed under its own name
      and registered with every other ranger, two rangers at each station,
      and exactly the four rangers. */
  ghost predicate WellFormed(c: Config) {
    Named(c.rangers) && Registered(c.rangers) && Balanced(c.rangers) && c.rangers.Keys == Names
  }

  /** A well-formed goal: a state the search reports. */
  ghost predicate Solution(c: Config) {
    WellFormed(c) && IsGoal(c, EndNorth)
  }

  /** A well-formed state that is not a goal: a state the search queues. */
  ghost predicate Pending(c: Config) {
    WellFormed(c) && !IsGoal(c, EndNorth)
  }

  // ---------------------------------------------------------------------
  // One attempted swap

  /** What trying one swap on a copy of a state leads to. */
  datatype Outcome = Rejected | Reported(goal: Config) | Enqueued(child: Config)

  /** Reference definition of trying the swap `m` on `c`: rejected when the
      two rangers stand at the same station; otherwise the new state is
      reported when it is a goal and enqueued when it is not. */
  function TryOutcome(c: Config, m: Move): Outcome
    requires c.rangers.Keys == Names && m.0 in Names && m.1 in Names
  {
    match AfterSwap(c, m.0, m.1)
    case None => Rejected
    case Some(next) => Classified(next)
  }

  /** A legal swap's state: reported when it is a goal, enqueued when not. */
  function Classified(next: Config): Outcome
    requires EndNorth <= next.rangers.Keys
  {
    if IsGoal(next, EndNorth) then Reported(next) else Enqueued(next)
  }

  /** A well-formed state is reported exactly when it is a solution and
      enqueued exactly when it is pending. */
  lemma ClassifiedIsSound(x: Config)
    requires WellFormed(x)
    ensures Classified(x) == Reported(x) || Classified(x) == Enqueued(x)
    ensures Classified(x) == Reported(x) <==> Solution(x)
    ensures Classified(x) == Enqueued(x) <==> Pending(x)
  {
  }

  /** A swap is rejected exactly when the two rangers stand at the same
      station; otherwise its state is the swapped one. */
  lemma TryOutcomeRejects(c: Config, m: Move)
    requires c.rangers.Keys == Names && m.0 in Names && m.1 in Names
    ensures TryOutcome(c, m).Rejected? <==> c.rangers[m.0].isNorth == c.rangers[m.1].isNorth
    ensures TryOutcome(c, m).Reported? ==> AfterSwap(c, m.0, m.1) == Some(TryOutcome(c, m).goal)
    ensures TryOutcome(c, m).Enqueued? ==> AfterSwap(c, m.0, m.1) == Some(TryOutcome(c, m).child)
  {
  }

  /** A legal swap takes a well-formed state to a well-formed state. */
  lemma SwapKeepsWellFormed(c: Config, n1: char, n2: char)
    requires WellFormed(c) && n1 in Names && n2 in Names
    requires AfterSwap(c, n1, n2).Some?
    ensures WellFormed(AfterSwap(c, n1, n2).value)
  {
    SwapEffect(c, n1, n2);
    SwapKeepsRecords(c, n1, n2);
    SwapKeepsBalance(c, n1, n2);
  }

  /** From a well-formed state, a reported state is a well-formed goal and
      an enqueued state a well-formed non-goal, each with the swap appended
      to its history. */
  lemma TryOutcomeIsSound(c: Config, m: Move)
    requires WellFormed(c) && m.0 in Names && m.1 in Names
    ensures TryOutcome(c, m).Reported? ==>
      var g := TryOutcome(c, m).goal;
      Solution(g) && g.swapHistory == c.swapHistory + [m]
    ensures TryOutcome(c, m).Enqueued? ==>
      var x := TryOutcome(c, m).child;
      Pending(x) && x.swapHistory == c.swapHistory + [m]
    ensures Sound(TryOutcome(c, m))
  {
    if AfterSwap(c, m.0, m.1).Some? {
      var x := AfterSwap(c, m.0, m.1).value;
      SwapEffect(c, m.0, m.1);
      SwapKeepsWellFormed(c, m.0, m.1);
      ClassifiedIsSound(x);
      assert TryOutcome(c, m) == Classified(x);
    }
  }

  /** A reported state is a solution and an enqueued one is pending. */
  ghost predicate Sound(o: Outcome) {
    (o.Reported? ==> Solution(o.goal)) && (o.Enqueued? ==> Pending(o.child))
  }

  /** From a consistent state every state a swap produces is consistent. */
  lemma TryOutcomeKeepsConsistent(c: Config, m: Move)
    requires Consistent(c) && c.rangers.Keys == Names && m.0 in Names && m.1 in Names
    ensures TryOutcome(c, m).Reported? ==> Consistent(TryOutcome(c, m).goal)
    ensures TryOutcome(c, m).Enqueued? ==> Consistent(TryOutcome(c, m).child)
  {
    if AfterSwap(c, m.0, m.1).Some? {
      var x := AfterSwap(c, m.0, m.1).value;
      SwapKeepsConsistent(c, m.0, m.1);
      assert TryOutcome(c, m) == Classified(x);
      assert Classified(x) == Reported(x) || Classified(x) == Enqueued(x);
    }
  }

  // ---------------------------------------------------------------------
  // Trying a sequence of swaps on one state

  /** Every pair of `order` names two of the four rangers. */
  predicate AmongNames(order: seq<Move>) {
    forall i :: 0 <= i < |order| ==> order[i].0 in Names && order[i].1 in Names
  }

  /** The outcome of each pair of `order` tried on `c`. */
  function Outcomes(c: Config, order: seq<Move>): (os: seq<Outcome>)
    requires c.rangers.Keys == Names && AmongNames(order)
    ensures |os| == |order|
  {
    seq(|order|, i requires 0 <= i < |order| => TryOutcome(c, order[i]))
  }

  /** Trying `a` and then `b` gives the outcomes of `a` followed by those of `b`. */
  lemma OutcomesAppend(c: Config, a: seq<Move>, b: seq<Move>)
    requires c.rangers.Keys == Names && AmongNames(a) && AmongNames(b)
    ensures AmongNames(a + b)
    ensures Outcomes(c, a + b) == Outcomes(c, a) + Outcomes(c, b)
  {
    var os, oa, ob := Outcomes(c, a + b), Outcomes(c, a), Outcomes(c, b);
    forall i | 0 <= i < |os|
      ensures os[i] == (oa + ob)[i]
    {
      if i < |a| {
        assert (a + b)[i] == a[i];
      } else {
        assert (a + b)[i] == b[i - |a|];
      }
    }
  }

  /** The states a sequence of outcomes appends to the queue, in order. */
  function Children(os: seq<Outcome>): seq<Config> {
    if os == [] then [] else Children(os[..|os| - 1]) + Enqueues(os[|os| - 1])
  }

  /** The goal states a sequence of outcomes reports, in order. */
  function Found(os: seq<Outcome>): seq<Config> {
    if os == [] then [] else Found(os[..|os| - 1]) + Reports(os[|os| - 1])
  }

  function Enqueues(o: Outcome): (q: seq<Config>)
    ensures o.Enqueued? ==> q == [o.child]
    ensures !o.Enqueued? ==> q == []
  {
    if o.Enqueued? then [o.child] else []
  }

  function Reports(o: Outcome): (q: seq<Config>)
    ensures o.Reported? ==> q == [o.goal]
    ensures !o.Reported? ==> q == []
  {
    if o.Reported? then [o.goal] else []
  }

  /** One more outcome extends the results by that outcome's part. */
  lemma ResultsSnoc(os: seq<Outcome>, o: Outcome)
    ensures Children(os + [o]) == Children(os) + Enqueues(o)
    ensures Found(os + [o]) == Found(os) + Reports(o)
  {
    assert (os + [o])[..|os|] == os;
  }

  /** The results of `a` then `b` are the results of `a` followed by those of `b`. */
  lemma ResultsAppend(a: seq<Outcome>, b: seq<Outcome>)
    ensures Children(a + b) == Children(a) + Children(b)
    ensures Found(a + b) == Found(a) + Found(b)
  {
    ChildrenAppend(a, b);
    FoundAppend(a, b);
  }

  lemma {:induction false} ChildrenAppend(a: seq<Outcome>, b: seq<Outcome>)
    ensures Children(a + b) == Children(a) + Children(b)
    decreases |b|
  {
    if b == [] {
      assert a + b == a;
    } else {
      var b', o := b[..|b| - 1], b[|b| - 1];
      assert b == b' + [o];
      assert a + b == (a + b') + [o];
      calc {
        Children(a + b);
        { ResultsSnoc(a + b', o); }
        Children(a + b') + Enqueues(o);
        { ChildrenAppend(a, b'); }
        (Children(a) + Children(b')) + Enqueues(o);
        { Associative(Children(a), Children(b'), Enqueues(o)); }
        Children(a) + (Children(b') + Enqueues(o));
        { ResultsSnoc(b', o); }
        Children(a) + Children(b);
      }
    }
  }

  lemma {:induction false} FoundAppend(a: seq<Outcome>, b: seq<Outcome>)
    ensures Found(a + b) == Found(a) + Found(b)
    decreases |b|
  {
    if b == [] {
      assert a + b == a;
    } else {
      var b', o := b[..|b| - 1], b[|b| - 1];
      assert b == b' + [o];
      assert a + b == (a + b') + [o];
      calc {
        Found(a + b);
        { ResultsSnoc(a + b', o); }
        Found(a + b') + Reports(o);
        { FoundAppend(a, b'); }
        (Found(a) + Found(b')) + Reports(o);
        { Associative(Found(a), Found(b'), Reports(o)); }
        Found(a) + (Found(b') + Reports(o));
        { ResultsSnoc(b', o); }
        Found(a) + Found(b);
      }
    }
  }

  /** A state is enqueued exactly when some outcome enqueues it, and
      reported exactly when some outcome reports it. */
  lemma ResultsAreComplete(os: seq<Outcome>, x: Config)
    ensures x in Children(os) <==> exists i :: 0 <= i < |os| && os[i] == Enqueued(x)
    ensures x in Found(os) <==> exists i :: 0 <= i < |os| && os[i] == Reported(x)
  {
    ChildrenAreComplete(os, x);
    FoundIsComplete(os, x);
  }

  lemma {:induction false} ChildrenAreComplete(os: seq<Outcome>, x: Config)
    ensures x in Children(os) <==> exists i :: 0 <= i < |os| && os[i] == Enqueued(x)
    decreases |os|
  {
    if os != [] {
      var init := os[..|os| - 1];
      ChildrenAreComplete(init, x);
      assert forall i :: 0 <= i < |init| ==> init[i] == os[i];
    }
  }

  lemma {:induction false} FoundIsComplete(os: seq<Outcome>, x: Config)
    ensures x in Found(os) <==> exists i :: 0 <= i < |os| && os[i] == Reported(x)
    decreases |os|
  {
    if os != [] {
      var init := os[..|os| - 1];
      FoundIsComplete(init, x);
      assert forall i :: 0 <= i < |init| ==> init[i] == os[i];
    }
  }

  /** The number of rejections among `os`. */
  function Rejections(os: seq<Outcome>): nat {
    if os == [] then 0 else Rejections(os[..|os| - 1]) + Tally(os[|os| - 1])
  }

  function Tally(o: Outcome): nat {
    if o.Rejected? then 1 else 0
  }

  /** Rejections counted one outcome at a time along a prefix. */
  lemma RejectionsStep(os: seq<Outcome>, k: nat)
    requires k < |os|
    ensures Rejections(os[..k + 1]) == Rejections(os[..k]) + Tally(os[k])
  {
    assert os[..k + 1][..k] == os[..k];
  }

  /** Every outcome other than a rejection gives exactly one state. */
  lemma {:induction false} ResultsCount(os: seq<Outcome>)
    ensures |Children(os)| + |Found(os)| + Rejections(os) == |os|
    decreases |os|
  {
    if os != [] {
      var init, o := os[..|os| - 1], os[|os| - 1];
      assert os == init + [o];
      ResultsCount(init);
    }
  }

  /** From a well-formed state, every enqueued state is a well-formed
      non-goal and every reported state a well-formed goal. */
  lemma ResultsAreGood(c: Config, order: seq<Move>)
    requires WellFormed(c) && AmongNames(order)
    ensures forall x :: x in Children(Outcomes(c, order)) ==> Pending(x)
    ensures forall g :: g in Found(Outcomes(c, order)) ==> Solution(g)
  {
    var os := Outcomes(c, order);
    forall x | x in Children(os)
      ensures Pending(x)
    {
      ResultsAreComplete(os, x);
      var i :| 0 <= i < |os| && os[i] == Enqueued(x);
      TryOutcomeIsSound(c, order[i]);
    }
    forall g | g in Found(os)
      ensures Solution(g)
    {
      ResultsAreComplete(os, g);
      var i :| 0 <= i < |os| && os[i] == Reported(g);
      TryOutcomeIsSound(c, order[i]);
    }
  }

  /** The offset only reorders what one state produces: the same states are
      enqueued and the same goals reported from every offset. */
  lemma RotationIsOnlyOrder(c: Config, start: nat)
    requires c.rangers.Keys == Names && start < |Swaps|
    ensures AmongNames(Swaps) && AmongNames(Rotated(start))
    ensures multiset(Outcomes(c, Rotated(start))) == multiset(Outcomes(c, Swaps))
    ensures multiset(Children(Outcomes(c, Rotated(start)))) == multiset(Children(Outcomes(c, Swaps)))
    ensures multiset(Found(Outcomes(c, Rotated(start)))) == multiset(Found(Outcomes(c, Swaps)))
  {
    SwapsAmongNames();
    var a, b := Swaps[start..], Swaps[..start];
    SplitAt(Swaps, start);
    ResultsCommute(c, a, b);
  }

  /** Trying `a` then `b` gives the same outcomes, states and goals as
      trying `b` then `a`, up to order. */
  lemma ResultsCommute(c: Config, a: seq<Move>, b: seq<Move>)
    requires c.rangers.Keys == Names && AmongNames(a) && AmongNames(b)
    ensures AmongNames(a + b) && AmongNames(b + a)
    ensures multiset(Outcomes(c, a + b)) == multiset(Outcomes(c, b + a))
    ensures multiset(Children(Outcomes(c, a + b))) == multiset(Children(Outcomes(c, b + a)))
    ensures multiset(Found(Outcomes(c, a + b))) == multiset(Found(Outcomes(c, b + a)))
  {
    OutcomesAppend(c, a, b);
    OutcomesAppend(c, b, a);
    var oa, ob := Outcomes(c, a), Outcomes(c, b);
    ResultsAppend(oa, ob);
    ResultsAppend(ob, oa);
  }

  lemma SplitAt<T>(x: seq<T>, k: nat)
    requires k <= |x|
    ensures x == x[..k] + x[k..]
  {
  }

  // ---------------------------------------------------------------------
  // How many states one expansion produces

  /** In a balanced state with the four rangers, two are at North: one of
      the six ways to choose them holds. */
  lemma TwoAtNorth(rs: map<char, Ranger>)
    requires rs.Keys == Names && Balanced(rs)
    ensures var a, b, c, d := rs['A'].isNorth, rs['B'].isNorth, rs['C'].isNorth, rs['D'].isNorth;
      || (a && b && !c && !d) || (a && !b && c && !d) || (a && !b && !c && d)
      || (!a && b && c && !d) || (!a && b && !c && d) || (!a && !b && c && d)
  {
    var x :| x in Norths(rs);
    var y := OtherOfTwo(Norths(rs), x);
    forall n | n in Names
      ensures rs[n].isNorth <==> n == x || n == y
    {
      assert rs[n].isNorth <==> n in Norths(rs);
    }
    assert x in Names && y in Names;
  }

  /** With two rangers at each station, exactly two of the six pairs stand
      at the same station and are rejected. */
  lemma TwoRejected(c: Config)
    requires c.rangers.Keys == Names && Balanced(c.rangers)
    ensures AmongNames(Swaps) && Rejections(Outcomes(c, Swaps)) == 2
  {
    SwapsAmongNames();
    var os := Outcomes(c, Swaps);
    RejectedTally(os);
    var rs := c.rangers;
    TwoAtNorth(rs);
    assert os[0].Rejected? <==> rs['A'].isNorth == rs['B'].isNorth by { TryOutcomeRejects(c, Swaps[0]); }
    assert os[1].Rejected? <==> rs['B'].isNorth == rs['C'].isNorth by { TryOutcomeRejects(c, Swaps[1]); }
    assert os[2].Rejected? <==> rs['B'].isNorth == rs['D'].isNorth by { TryOutcomeRejects(c, Swaps[2]); }
    assert os[3].Rejected? <==> rs['C'].isNorth == rs['D'].isNorth by { TryOutcomeRejects(c, Swaps[3]); }
    assert os[4].Rejected? <==> rs['A'].isNorth == rs['C'].isNorth by { TryOutcomeRejects(c, Swaps[4]); }
    assert os[5].Rejected? <==> rs['A'].isNorth == rs['D'].isNorth by { TryOutcomeRejects(c, Swaps[5]); }
  }

  /** The number of rejections among six outcomes, one by one. */
  lemma RejectedTally(os: seq<Outcome>)
    requires |os| == 6
    ensures Rejections(os) ==
      Tally(os[0]) + Tally(os[1]) + Tally(os[2]) + Tally(os[3]) + Tally(os[4]) + Tally(os[5])
  {
    assert os[..0] == [];
    RejectionsStep(os, 0);
    RejectionsStep(os, 1);
    RejectionsStep(os, 2);
    RejectionsStep(os, 3);
    RejectionsStep(os, 4);
    RejectionsStep(os, 5);
    assert os[..6] == os;
  }

  // ---------------------------------------------------------------------
  // The seed

  /** The four rangers as `main` adds them: A and B at North, C and D at South. */
  function Seed(): map<char, Ranger> {
    SeededFrom(map[])
  }

  /** The four additions of `main`, applied to `r0`. */
  function SeededFrom(r0: map<char, Ranger>): map<char, Ranger> {
    AddedRanger(AddedRanger(AddedRanger(AddedRanger(r0, 'A', true), 'B', true), 'C', false), 'D', false)
  }

  /** Every record of the seed is filed under its name, registered with
      the three others, and has every counter at zero; the seed holds the
      four rangers, A and B at North, C and D at South. */
  lemma SeedIsSeeded()
    ensures Seeded(Seed()) && Seed().Keys == Names
    ensures Seed()['A'].isNorth && Seed()['B'].isNorth && !Seed()['C'].isNorth && !Seed()['D'].isNorth
  {
    FourAdded(map[]);
  }

  /** `SeedIsSeeded` for an argument that is only known to be empty: the
      verifier unfolds the four additions eagerly on the literal `map[]`,
      and reasoning through the two halves is much cheaper on a symbol. */
  lemma FourAdded(r0: map<char, Ranger>)
    requires r0 == map[]
    ensures var rs := SeededFrom(r0);
      && Seeded(rs) && rs.Keys == Names
      && rs['A'].isNorth && rs['B'].isNorth && !rs['C'].isNorth && !rs['D'].isNorth
  {
    NorthPairAdded(r0);
    SouthPairAdded(AddedRanger(AddedRanger(r0, 'A', true), 'B', true));
  }

  /** A and B, added at North to no rangers. */
  lemma NorthPairAdded(r0: map<char, Ranger>)
    requires r0 == map[]
    ensures var rs := AddedRanger(AddedRanger(r0, 'A', true), 'B', true);
      Seeded(rs) && rs.Keys == {'A', 'B'} && rs['A'].isNorth && rs['B'].isNorth
  {
    TwoAdded(r0, {}, 'A', 'B', true);
    TwoStations(r0, 'A', 'B', true);
  }

  /** C and D, added at South to A and B at North. */
  lemma SouthPairAdded(r2: map<char, Ranger>)
    requires Seeded(r2) && r2.Keys == {'A', 'B'} && r2['A'].isNorth && r2['B'].isNorth
    ensures var rs := AddedRanger(AddedRanger(r2, 'C', false), 'D', false);
      && Seeded(rs) && rs.Keys == Names
      && rs['A'].isNorth && rs['B'].isNorth && !rs['C'].isNorth && !rs['D'].isNorth
  {
    TwoAdded(r2, {'A', 'B'}, 'C', 'D', false);
    TwoStations(r2, 'C', 'D', false);
  }

  /** Adding two new names keeps every record seeded. */
  lemma TwoAdded(rs: map<char, Ranger>, keys: set<char>, n1: char, n2: char, isNorth: bool)
    requires Seeded(rs) && rs.Keys == keys
    requires n1 !in keys && n2 !in keys && n1 != n2
    ensures var rs' := AddedRanger(AddedRanger(rs, n1, isNorth), n2, isNorth);
      rs'.Keys == keys + {n1, n2} && Seeded(rs')
  {
    AddRangerRegisters(rs, n1, isNorth);
    AddRangerRegisters(AddedRanger(rs, n1, isNorth), n2, isNorth);
  }

  /** Adding two new names at one station places them there and moves
      nobody else. */
  lemma TwoStations(rs: map<char, Ranger>, n1: char, n2: char, isNorth: bool)
    requires n1 !in rs && n2 !in rs && n1 != n2
    ensures var rs' := AddedRanger(AddedRanger(rs, n1, isNorth), n2, isNorth);
      && rs'[n1].isNorth == isNorth && rs'[n2].isNorth == isNorth
      && (forall k :: k in rs ==> rs'[k].isNorth == rs[k].isNorth)
  {
    AddedRangerStations(rs, n1, isNorth);
    AddedRangerStations(AddedRanger(rs, n1, isNorth), n2, isNorth);
  }

  /** Four rangers, A and B at North and C and D at South, are balanced. */
  lemma StationsOfSeed(rs: map<char, Ranger>)
    requires rs.Keys == Names
    requires rs['A'].isNorth && rs['B'].isNorth && !rs['C'].isNorth && !rs['D'].isNorth
    ensures Norths(rs) == {'A', 'B'} && Souths(rs) == {'C', 'D'} && Balanced(rs)
  {
    assert Norths(rs) == {'A', 'B'};
    assert Souths(rs) == {'C', 'D'};
  }

  /** The seed is well formed, has exactly the four rangers, and is balanced
      with A and B at North. */
  lemma SeedIsBalanced()
    ensures Seed().Keys == Names
    ensures Seeded(Seed()) && Balanced(Seed())
    ensures Norths(Seed()) == {'A', 'B'} && Souths(Seed()) == {'C', 'D'}
  {
    SeedIsSeeded();
    StationsOfSeed(Seed());
  }

  /** The state the search starts from: the seed after the forced swap (A, C). */
  function Opening(): Config {
    SeedIsSeeded();
    AfterSwap(Config(Seed(), []), 'A', 'C').value
  }

  /** Four fresh records, A and B at North, give after the forced swap a
      consistent, well-formed state that is not a goal, since A stands at
      South. */
  lemma OpeningFrom(rs: map<char, Ranger>)
    requires Seeded(rs) && Balanced(rs) && rs.Keys == Names
    requires rs['A'].isNorth && !rs['C'].isNorth
    ensures AfterSwap(Config(rs, []), 'A', 'C').Some?
    ensures var c := AfterSwap(Config(rs, []), 'A', 'C').value;
      Pending(c) && Consistent(c) && c.swapHistory == [('A', 'C')]
  {
    OpeningIsPending(rs);
    OpeningIsConsistent(rs);
  }

  lemma OpeningIsPending(rs: map<char, Ranger>)
    requires Seeded(rs) && Balanced(rs) && rs.Keys == Names
    requires rs['A'].isNorth && !rs['C'].isNorth
    ensures AfterSwap(Config(rs, []), 'A', 'C').Some?
    ensures var c := AfterSwap(Config(rs, []), 'A', 'C').value;
      Pending(c) && c.swapHistory == [('A', 'C')]
  {
    var c := Config(rs, []);
    SwapEffect(c, 'A', 'C');
    SwapKeepsWellFormed(c, 'A', 'C');
  }

  lemma OpeningIsConsistent(rs: map<char, Ranger>)
    requires Seeded(rs) && Balanced(rs) && rs.Keys == Names
    requires rs['A'].isNorth && !rs['C'].isNorth
    ensures AfterSwap(Config(rs, []), 'A', 'C').Some?
    ensures Consistent(AfterSwap(Config(rs, []), 'A', 'C').value)
  {
    SeededIsConsistent(rs);
    SwapKeepsConsistent(Config(rs, []), 'A', 'C');
  }

  /** The opening state is well formed, consistent, and not yet a goal. */
  lemma OpeningIsGood()
    ensures Pending(Opening()) && Consistent(Opening())
    ensures Opening().swapHistory == [('A', 'C')]
  {
    SeedIsBalanced();
    SeedIsSeeded();
    OpeningFrom(Seed());
  }

  /** The queue `main` primes holds a pending state. */
  lemma OpeningQueued()
    ensures AllPending([Opening()])
  {
    OpeningIsGood();
  }

  // ---------------------------------------------------------------------
  // The driver

  /** The seeding of `main`: four rangers added to an empty state, then the
      forced swap (A, C). */
  method Prime() returns (q: seq<Config>)
    ensures q == [Opening()] && AllPending(q)
  {
    var s := new State();
    s.AddRanger('A', true);
    s.AddRanger('B', true);
    s.AddRanger('C', false);
    s.AddRanger('D', false);
    SeedIsBalanced();
    var legal := s.Swap('A', 'C');
    q := [s.Value()];
    OpeningQueued();
  }

  /** The work of one attempt on a fresh copy of `c`: swap (n1, n2) and,
      when the swap is legal, test the result for the goal. */
  method Attempt(c: Config, n1: char, n2: char) returns (o: Outcome)
    requires WellFormed(c) && n1 in Names && n2 in Names
    ensures o == TryOutcome(c, (n1, n2))
  {
    var t := new State.Copy(c);
    var legal := t.Swap(n1, n2);
    if !legal {
      return Rejected;
    }
    var next := t.Value();
    SwapEffect(c, n1, n2);
    var goal := t.IsEndState(EndNorth);
    o := if goal then Reported(next) else Enqueued(next);
  }

  /** The start of `main`: seed the four rangers, force the opening swap,
      and prime the queue with the result. */
  method Start() returns (d: Driver)
    ensures fresh(d) && d.Valid()
    ensures d.queue == [Opening()] && d.reported == [] && d.solutionCount == 0
  {
    var q := Prime();
    d := new Driver(q);
  }

  /** Every state of `q` is pending. */
  ghost predicate AllPending(q: seq<Config>) {
    forall i :: 0 <= i < |q| ==> Pending(q[i])
  }

  /** Every state of `q` is a solution. */
  ghost predicate AllSolutions(q: seq<Config>) {
    forall i :: 0 <= i < |q| ==> Solution(q[i])
  }

  lemma AllPendingSnoc(q: seq<Config>, x: Config)
    requires AllPending(q) && Pending(x)
    ensures AllPending(q + [x])
  {
  }

  lemma AllSolutionsSnoc(q: seq<Config>, x: Config)
    requires AllSolutions(q) && Solution(x)
    ensures AllSolutions(q + [x])
  {
  }

  /** Recording a sound outcome keeps every queued state pending and every
      reported state a solution. */
  lemma RecordKeepsValid(q: seq<Config>, r: seq<Config>, o: Outcome)
    requires AllPending(q) && AllSolutions(r) && Sound(o)
    ensures AllPending(q + Enqueues(o))
    ensures AllSolutions(r + Reports(o))
  {
    match o
    case Rejected =>
      assert q + Enqueues(o) == q && r + Reports(o) == r;
    case Reported(g) =>
      assert q + Enqueues(o) == q;
      AllSolutionsSnoc(r, g);
    case Enqueued(x) =>
      assert r + Reports(o) == r;
      AllPendingSnoc(q, x);
  }

  /** Reference definition of one round of the main loop on the queue `q`
      and the reports `r`: the front state leaves the queue, and the results
      of trying the rotated catalogue on it go to the back of the queue and
      of the reports. */
  ghost function Round(q: seq<Config>, r: seq<Config>, start: nat): (qr: (seq<Config>, seq<Config>))
    requires AllPending(q) && q != [] && start < |Swaps|
    ensures AllPending(qr.0)
  {
    RotatedAmongNames(start);
    var os := Outcomes(q[0], Rotated(start));
    ResultsAreGood(q[0], Rotated(start));
    PendingJoined(q[1..], Children(os));
    (q[1..] + Children(os), r + Found(os))
  }

  /** Reference definition of the main loop: one round per offset, in
      order, until the queue is empty; once it is, nothing changes. */
  ghost function Rounds(q: seq<Config>, r: seq<Config>, offsets: seq<nat>): (qr: (seq<Config>, seq<Config>))
    requires AllPending(q)
    requires forall i :: 0 <= i < |offsets| ==> offsets[i] < |Swaps|
    ensures AllPending(qr.0)
    decreases |offsets|
  {
    if offsets == [] then (q, r)
    else
      var prev := Rounds(q, r, offsets[..|offsets| - 1]);
      if prev.0 == [] then prev else Round(prev.0, prev.1, offsets[|offsets| - 1])
  }

  lemma RotatedAmongNames(start: nat)
    requires start < |Swaps|
    ensures AmongNames(Rotated(start))
  {
    SwapsAmongNames();
  }

  /** The rest of a queue of pending states, followed by pending states, is
      a queue of pending states. */
  lemma PendingJoined(q: seq<Config>, xs: seq<Config>)
    requires AllPending(q)
    requires forall x :: x in xs ==> Pending(x)
    ensures AllPending(q + xs)
  {
    forall i | 0 <= i < |q + xs|
      ensures Pending((q + xs)[i])
    {
      if i >= |q| {
        assert (q + xs)[i] == xs[i - |q|];
      }
    }
  }

  /** `Rounds` over `k + 1` offsets is one more round after the first `k`. */
  lemma RoundsStep(q: seq<Config>, r: seq<Config>, offsets: seq<nat>, k: nat)
    requires AllPending(q) && k < |offsets|
    requires forall i :: 0 <= i < |offsets| ==> offsets[i] < |Swaps|
    ensures var prev := Rounds(q, r, offsets[..k]);
      Rounds(q, r, offsets[..k + 1]) == if prev.0 == [] then prev else Round(prev.0, prev.1, offsets[k])
  {
    assert offsets[..k + 1][..k] == offsets[..k];
  }

  class Driver {
    /** The breadth-first queue of states still to expand. */
    var queue: seq<Config>
    /** The number of goal states reported so far. */
    var solutionCount: nat
    /** The goal states reported so far, in order. */
    ghost var reported: seq<Config>

    /** Every queued state is a well-formed non-goal, every reported state
        a well-formed goal, and the counter counts the reports. */
    ghost predicate Valid()
      reads this
    {
      && AllPending(queue)
      && AllSolutions(reported)
      && solutionCount == |reported|
    }

    /** A search whose queue holds `q` and which has reported nothing. */
    constructor (q: seq<Config>)
      requires AllPending(q)
      ensures Valid()
      ensures queue == q && reported == [] && solutionCount == 0
    {
      queue := q;
      solutionCount := 0;
      reported := [];
    }

    /** Tries the swap (n1, n2) on a copy of `s`: a rejected swap changes
        nothing, a goal is reported and counted, any other result goes to
        the back of the queue. */
    method TrySwap(s: Config, n1: char, n2: char)
      requires Valid() && WellFormed(s) && n1 in Names && n2 in Names
      modifies this
      ensures Valid()
      ensures queue == old(queue) + Enqueues(TryOutcome(s, (n1, n2)))
      ensures reported == old(reported) + Reports(TryOutcome(s, (n1, n2)))
    {
      var o := Attempt(s, n1, n2);
      TryOutcomeIsSound(s, (n1, n2));
      Record(o);
    }

    /** What `TrySwap` does with the outcome: nothing for a rejected swap;
        a goal is counted and reported; any other state is queued. */
    method Record(o: Outcome)
      requires Valid() && Sound(o)
      modifies this
      ensures Valid()
      ensures queue == old(queue) + Enqueues(o)
      ensures reported == old(reported) + Reports(o)
    {
      RecordKeepsValid(queue, reported, o);
      match o
      case Rejected =>
        assert Enqueues(o) == [] && Reports(o) == [];
      case Reported(g) =>
        assert Enqueues(o) == [] && Reports(o) == [g];
        solutionCount := solutionCount + 1;
        reported := reported + [g];
      case Enqueued(x) =>
        assert Enqueues(o) == [x] && Reports(o) == [];
        queue := queue + [x];
    }

    /** Tries every pair of the catalogue on `s`, from offset `start` to the
        end and then from the beginning up to `start`. */
    method Expand(s: Config, start: nat)
      requires Valid() && WellFormed(s) && start < |Swaps|
      modifies this
      ensures Valid()
      ensures AmongNames(Rotated(start))
      ensures queue == old(queue) + Children(Outcomes(s, Rotated(start)))
      ensures reported == old(reported) + Found(Outcomes(s, Rotated(start)))
    {
      SwapsAmongNames();
      TryFrom(s, Swaps, start);
      TryUpTo(s, Swaps, start);
      Rejoined(old(queue), old(reported), s, Swaps[start..], Swaps[..start]);
    }

    /** After the pairs `done` have been tried on `s`, the queue and the
        reports are `q` and `r` followed by their results. */
    ghost predicate Tracks(q: seq<Config>, r: seq<Config>, s: Config, done: seq<Move>)
      reads this
    {
      && s.rangers.Keys == Names && AmongNames(done)
      && queue == q + Children(Outcomes(s, done))
      && reported == r + Found(Outcomes(s, done))
    }

    /** One iteration of either loop of an expansion: after the pairs
        `done`, tries `m`. */
    method TryNext(s: Config, ghost q: seq<Config>, ghost r: seq<Config>, ghost done: seq<Move>, m: Move)
      requires Valid() && WellFormed(s) && m.0 in Names && m.1 in Names
      requires Tracks(q, r, s, done)
      modifies this
      ensures Valid() && Tracks(q, r, s, done + [m])
    {
      TrySwap(s, m.0, m.1);
      Tried(q, r, s, done, m);
    }

    /** The first loop of an expansion: the pairs of `order` from offset
        `start` to its end, in order. */
    method TryFrom(s: Config, order: seq<Move>, start: nat)
      requires Valid() && WellFormed(s) && AmongNames(order) && start <= |order|
      modifies this
      ensures Valid()
      ensures AmongNames(order[start..])
      ensures queue == old(queue) + Children(Outcomes(s, order[start..]))
      ensures reported == old(reported) + Found(Outcomes(s, order[start..]))
    {
      ghost var done: seq<Move> := [];
      EmptySlice(order, start);
      for i := start to |order|
        invariant Valid()
        invariant done == order[start..i]
        invariant Tracks(old(queue), old(reported), s, done)
      {
        TryNext(s, old(queue), old(reported), done, order[i]);
        SliceExtends(order, start, i);
        done := done + [order[i]];
      }
      SliceToEnd(order, start);
    }

    /** The second loop of an expansion: the pairs of `order` before offset
        `start`, in order. */
    method TryUpTo(s: Config, order: seq<Move>, start: nat)
      requires Valid() && WellFormed(s) && AmongNames(order) && start <= |order|
      modifies this
      ensures Valid()
      ensures AmongNames(order[..start])
      ensures queue == old(queue) + Children(Outcomes(s, order[..start]))
      ensures reported == old(reported) + Found(Outcomes(s, order[..start]))
    {
      ghost var done: seq<Move> := [];
      for i := 0 to start
        invariant Valid()
        invariant done == order[..i]
        invariant Tracks(old(queue), old(reported), s, done)
      {
        TryNext(s, old(queue), old(reported), done, order[i]);
        PrefixExtends(order, i);
        done := done + [order[i]];
      }
    }

    /** One round of the main loop: the front state leaves the queue and is
        expanded from offset `start`. */
    method Step(start: nat)
      requires Valid() && queue != [] && start < |Swaps|
      modifies this
      ensures Valid()
      ensures AmongNames(Rotated(start))
      ensures queue == old(queue[1..]) + Children(Outcomes(old(queue[0]), Rotated(start)))
      ensures reported == old(reported) + Found(Outcomes(old(queue[0]), Rotated(start)))
    {
      var s := queue[0];
      queue := queue[1..];
      Expand(s, start);
    }

    /** The main loop for at most `|offsets|` rounds, the i-th expanding
        from `offsets[i]`; it stops early only when the queue is empty.
        Each round adds three to the number of states queued or reported:
        the front state leaves, and its four legal swaps each give one. */
    method Run(offsets: seq<nat>) returns (rounds: nat)
      requires Valid()
      requires forall i :: 0 <= i < |offsets| ==> offsets[i] < |Swaps|
      modifies this
      ensures Valid()
      ensures rounds <= |offsets| && (rounds < |offsets| ==> queue == [])
      ensures (queue, reported) == Rounds(old(queue), old(reported), offsets[..rounds])
      ensures old(reported) <= reported
      ensures |queue| + |reported| == old(|queue| + |reported|) + 3 * rounds
    {
      rounds := 0;
      while rounds < |offsets| && queue != []
        invariant Valid()
        invariant rounds <= |offsets|
        invariant (queue, reported) == Rounds(old(queue), old(reported), offsets[..rounds])
        invariant old(reported) <= reported
        invariant |queue| + |reported| == old(|queue| + |reported|) + 3 * rounds
        decreases |offsets| - rounds
      {
        ghost var front := queue[0];
        RoundsStep(old(queue), old(reported), offsets, rounds);
        Step(offsets[rounds]);
        FourResults(front, offsets[rounds]);
        rounds := rounds + 1;
      }
    }
  }

  lemma SwapsAmongNames()
    ensures AmongNames(Swaps)
  {
  }

  lemma SliceExtends<T>(a: seq<T>, lo: nat, i: nat)
    requires lo <= i < |a|
    ensures a[lo..i + 1] == a[lo..i] + [a[i]]
  {
  }

  lemma EmptySlice<T>(a: seq<T>, lo: nat)
    requires lo <= |a|
    ensures a[lo..lo] == []
  {
  }

  lemma SliceToEnd<T>(a: seq<T>, lo: nat)
    requires lo <= |a|
    ensures a[lo..|a|] == a[lo..]
  {
  }

  lemma PrefixExtends<T>(a: seq<T>, i: nat)
    requires i < |a|
    ensures a[..i + 1] == a[..i] + [a[i]]
  {
  }

  /** The results of trying `a` and then `b`, after `q` and `r`. */
  lemma Rejoined(q: seq<Config>, r: seq<Config>, c: Config, a: seq<Move>, b: seq<Move>)
    requires c.rangers.Keys == Names && AmongNames(a) && AmongNames(b)
    ensures AmongNames(a + b)
    ensures q + Children(Outcomes(c, a + b)) == (q + Children(Outcomes(c, a))) + Children(Outcomes(c, b))
    ensures r + Found(Outcomes(c, a + b)) == (r + Found(Outcomes(c, a))) + Found(Outcomes(c, b))
  {
    OutcomesAppend(c, a, b);
    var oa, ob := Outcomes(c, a), Outcomes(c, b);
    ResultsAppend(oa, ob);
    assert Children(Outcomes(c, a + b)) == Children(oa) + Children(ob);
    Associative(q, Children(oa), Children(ob));
    assert Found(Outcomes(c, a + b)) == Found(oa) + Found(ob);
    Associative(r, Found(oa), Found(ob));
  }

  lemma Associative<T>(x: seq<T>, y: seq<T>, z: seq<T>)
    ensures x + (y + z) == (x + y) + z
  {
  }

  /** Trying one more pair on `c` appends that pair's results. */
  lemma Tried(q: seq<Config>, r: seq<Config>, c: Config, order: seq<Move>, m: Move)
    requires c.rangers.Keys == Names && AmongNames(order) && m.0 in Names && m.1 in Names
    ensures AmongNames(order + [m])
    ensures q + Children(Outcomes(c, order + [m])) == (q + Children(Outcomes(c, order))) + Enqueues(TryOutcome(c, m))
    ensures r + Found(Outcomes(c, order + [m])) == (r + Found(Outcomes(c, order))) + Reports(TryOutcome(c, m))
  {
    OutcomesSnoc(c, order, m);
    AppendedResults(q, r, Outcomes(c, order), TryOutcome(c, m));
  }

  /** Trying one more pair on `c` appends that pair's outcome. */
  lemma OutcomesSnoc(c: Config, order: seq<Move>, m: Move)
    requires c.rangers.Keys == Names && AmongNames(order) && m.0 in Names && m.1 in Names
    ensures AmongNames(order + [m])
    ensures Outcomes(c, order + [m]) == Outcomes(c, order) + [TryOutcome(c, m)]
  {
    assert AmongNames([m]);
    OutcomesAppend(c, order, [m]);
    assert Outcomes(c, [m]) == [TryOutcome(c, m)];
  }

  /** One more outcome `o` after `os` extends the queue `q` and the reports `r`. */
  lemma AppendedResults(q: seq<Config>, r: seq<Config>, os: seq<Outcome>, o: Outcome)
    ensures q + Children(os + [o]) == (q + Children(os)) + Enqueues(o)
    ensures r + Found(os + [o]) == (r + Found(os)) + Reports(o)
  {
    ResultsSnoc(os, o);
    Associative(q, Children(os), Enqueues(o));
    Associative(r, Found(os), Reports(o));
  }

  /** Expanding a good state from any offset yields four states in all,
      queued or reported. */
  lemma FourResults(c: Config, start: nat)
    requires c.rangers.Keys == Names && Balanced(c.rangers) && start < |Swaps|
    ensures AmongNames(Rotated(start))
    ensures |Children(Outcomes(c, Rotated(start)))| + |Found(Outcomes(c, Rotated(start)))| == 4
  {
    RotationIsOnlyOrder(c, start);
    TwoRejected(c);
    var rot, all := Outcomes(c, Rotated(start)), Outcomes(c, Swaps);
    ResultsCount(all);
    assert |Children(rot)| == |multiset(Children(rot))| == |multiset(Children(all))| == |Children(all)|;
    assert |Found(rot)| == |multiset(Found(rot))| == |multiset(Found(all))| == |Found(all)|;
  }
}
