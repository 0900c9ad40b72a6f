# Fair ranger rotation: a verified model of the search engine

`rangers.cc` searches by brute force for a fair rotation of four rangers,
A to D, between two stations, North and South. A state of the search holds
one record per ranger:

- the station it stands at;
- how many shifts it has spent at North and at South;
- how often it has moved;
- for every other ranger, how many shifts the two have shared a station.

It also holds the history of swaps that led to the state. A swap exchanges
one ranger at North with one at South. Before the move, every ranger is
credited with a shift at its station and with a shared shift with the other
ranger at that station.

The program seeds A and B at North and C and D at South, and forces the
opening swap (A, C). It then runs a breadth-first search. Each dequeued
state tries the six pairs of a fixed catalogue on a copy of itself, starting
at a random offset and wrapping around. A state is a goal when:

- A and B stand at North;
- every ranger has as many North as South shifts and the same shared-shift
  count with every peer;
- all rangers have moved equally often.

A goal is reported. Every other legal result goes to the back of the queue.

The model has five modules:

- `RangerRecord` (`ranger.dfy`): the `Ranger` record as a datatype. The
  program copies records by value, inside maps and with every copied state.
  The record's two mutators return the updated record. Its goal check is a
  method proved equal to the predicate `Fair`.
- `Configuration` (`config.dfy`): `Config`, the value of a state (records
  and history). It also holds reference definitions of the three state
  operations: `AddedRanger`, `AfterSwap` (record by record, through
  `Advanced`) and `IsGoal`. Beside them sit the invariants `Balanced`,
  `Named`, `Registered`, `Symmetric`, `ShiftsCounted` and `Consistent`.
- `ConfigurationLemmas` (`config_lemmas.dfy`): what a swap does to each
  record, and the invariants it preserves. Also how adding rangers builds
  the seed.
- `StateObject` (`state.dfy`): `State` as a class whose `rangers` map and
  `swapHistory` sequence are updated in place. Each method is proved
  against the reference definition. `Swap` keeps the program's loop over the
  records and its two fixed-size arrays for the rangers at each station.
  The model stores the rangers' names (the map keys) in these arrays where
  the program stores pointers to the records in the map.
- `Search` (`search.dfy`): the driver in `main`. It covers:
  - the catalogue and its rotation;
  - the outcome of one attempt (`TryOutcome`);
  - the seed and the opening state;
  - a `Driver` class holding the queue and the solution counter. Its
    methods are `TrySwap` (the `try_swap` lambda), the two loops of one
    expansion, one round of the main loop, and a bounded run of rounds.

The queue invariant is that every queued state is well formed and not a
goal, and every reported state is a well-formed goal. "Well formed" means
the four rangers are present, every record is filed under its own name and
registered with every other ranger, and two rangers stand at each station.

## Model

| member | source | states |
|---|---|---|
| RangerRecord.NewRanger | rangers.cc:17-31 | A new ranger has the given name and station, zero North, South and move counts, and no peers. |
| RangerRecord.Ranger.InitPairedCount | rangers.cc:33-35 | Registering a name adds it with a zero count and leaves every other count alone. An already registered name is left untouched, as a map insertion does. |
| RangerRecord.Ranger.IncrementPairedCount | rangers.cc:37-41 | The name must already be registered (`rangers.cc` asserts it). Its count grows by one; the other counts and the set of peers are unchanged. |
| RangerRecord.Ranger.IsEndState | rangers.cc:51-68 | The loop over the peers returns true exactly when North and South shifts are equal and all shared-shift counts are equal. |
| StateObject.State.constructor | rangers.cc:84-87 | A new state has no rangers and an empty swap history, and it satisfies the record invariant `Valid`. |
| StateObject.State.Copy | rangers.cc:224 | A copy of a state has exactly the value of the original. |
| StateObject.State.AddRanger | rangers.cc:89-96 | The loop leaves the records equal to `AddedRanger`: every existing record registers the new name, and the new record, at the given station, registers every existing name. The history is unchanged. |
| ConfigurationLemmas.AddRangerRegisters | rangers.cc:89-96 | Adding a new name to fresh records gives fresh records again. Every record is registered with exactly every other ranger, all counters are zero, the new ranger is at the given station, and nobody else moves. |
| StateObject.State.IsEndState | rangers.cc:98-135 | The goal test returns true exactly when both required rangers are at North, every ranger is fair, and all rangers have moved equally often. |
| StateObject.State.Swap | rangers.cc:140-184 | The swap succeeds exactly when the two rangers stand at different stations. On success the new records and history are `AfterSwap` of the old ones; on refusal nothing changes, including when both names are the same. Either way the records stay filed under their names and registered with every other ranger (`Valid`). |
| StateObject.CreditShifts | rangers.cc:153-165 | The first loop credits every ranger with one shift at its own station. It fills `norths` with exactly the two distinct rangers at North and `souths` with the two at South. |
| StateObject.AddSharedShifts | rangers.cc:166-169 | Each of the four rangers counts one more shared shift with the other ranger at its station. |
| StateObject.MoveRangers | rangers.cc:177-180 | Exactly the two named rangers change station and count one more move. |
| StateObject.SwappedRecords | rangers.cc:150-180 | Crediting shifts, adding the shared shifts and moving the pair, in that order, give the records `AfterSwap` defines. The history gains exactly the pair. |
| StateObject.SwapComposes | rangers.cc:150-180 | The composition of the three steps equals `AfterSwap` for every record. |
| ConfigurationLemmas.SwapEffect | rangers.cc:157-180 | A legal swap flips the stations of exactly `n1` and `n2` and counts a move for each. Every ranger gains one shift at the station it stood at, so its shift total grows by one. Names and peers stay, and the history gains `(n1, n2)`. |
| ConfigurationLemmas.SwapCreditsOnePartner | rangers.cc:153-169 | In a balanced state, every ranger gains exactly one shared shift, with the other ranger that stood at its station. All its other shared-shift counts stay. |
| ConfigurationLemmas.StationsAfterSwap | rangers.cc:177-178 | The North ranger of the pair goes to South and the South ranger to North; nobody else changes station. |
| ConfigurationLemmas.SwapKeepsBalance | rangers.cc:153-178 | Two rangers at each station before a legal swap means two at each after it. |
| ConfigurationLemmas.SwapKeepsRecords | rangers.cc:140-184 | A legal swap keeps every record filed under its name and registered with exactly every other ranger, so `increment_paired_count`'s assertion keeps holding. |
| ConfigurationLemmas.SwapKeepsSymmetry | rangers.cc:166-169 | If a's count for b equals b's count for a before a legal swap, it does after. |
| ConfigurationLemmas.SwapAddsTwoMoves | rangers.cc:179-180 | A legal swap adds exactly two to the sum of all move counts. |
| ConfigurationLemmas.SwapCountsShifts | rangers.cc:153-173 | If every ranger has been counted at a station once per logged swap, that still holds after a legal swap, which counts everyone once and logs one swap. |
| ConfigurationLemmas.SwapKeepsConsistent | rangers.cc:140-184 | A legal swap from a consistent state gives a consistent state. Consistent means: records intact, stations balanced, counters symmetric, every ranger counted once per logged swap, and the move total twice the history length. |
| ConfigurationLemmas.SeededIsConsistent | rangers.cc:204-209 | Freshly added rangers, two at each station, with an empty history, form a consistent state. |
| Search.SeedIsSeeded | rangers.cc:205-209 | The four additions of `main` give the four rangers, fresh and registered with one another, with A and B at North and C and D at South. |
| Search.SeedIsBalanced | rangers.cc:205-209 | The seed has exactly A and B at North and C and D at South. |
| Search.OpeningFrom | rangers.cc:211-214 | From fresh, balanced records with A at North and C at South, the forced swap (A, C) is legal. Its result is consistent, well formed and not a goal, and its history is `[(A, C)]`. |
| Search.OpeningIsGood | rangers.cc:204-217 | The state `main` primes the queue with is consistent, well formed, not a goal, and has history `[(A, C)]`. |
| Search.Prime | rangers.cc:204-218 | The seeding and the forced swap, run on a `State` object, give the one-element queue `[Opening()]`, whose state is pending. |
| Search.Start | rangers.cc:200-218 | The search starts with the queue `[Opening()]`, no reports and a zero solution count. |
| Search.Rotated | rangers.cc:263-271 | From offset `start`, the first loop tries catalogue entries `start` to 5 in positions 0 onward. The second loop then tries entries 0 to `start - 1`. |
| Search.CatalogueListsEachPairOnce | rangers.cc:241-243 | The catalogue lists all possible swaps. Every entry pairs two different rangers among the four, every pair of two different rangers appears in one order or the other, no pair appears in both orders, and no entry appears twice. |
| Search.RotationTriesEachPairOnce | rangers.cc:242-243 | Whatever the offset, the two loops try exactly the catalogue's pairs, each exactly once. |
| Search.RotationTriesEveryPair | rangers.cc:241-271 | Whatever the offset, the two loops try every pair of two different rangers, in one order or the other, so every legal swap of a state is attempted. |
| Search.RotationIsOnlyOrder | rangers.cc:259-271 | The offset changes only the order of the outcomes. The states queued and the states reported are the same multisets for every offset. |
| Search.TryOutcomeRejects | rangers.cc:224-228 | An attempt is rejected exactly when both rangers stand at the same station. Otherwise the state it reports or queues is the swapped copy. |
| Search.ClassifiedIsSound | rangers.cc:230-238 | A legal result is reported exactly when it is a goal and queued exactly when it is not. |
| Search.SwapKeepsWellFormed | rangers.cc:224-225 | A legal swap on a well-formed state gives a well-formed state. |
| Search.TryOutcomeIsSound | rangers.cc:223-239 | From a well-formed state, a reported result is a well-formed goal and a queued one a well-formed non-goal. Each extends the parent's history by exactly the tried pair. |
| Search.TryOutcomeKeepsConsistent | rangers.cc:223-239 | From a consistent state, every reported or queued result is consistent. |
| Search.Attempt | rangers.cc:224-230 | Copying the state, swapping on the copy and testing for the goal gives exactly the reference outcome. The parent is a value and is never changed. |
| Search.Driver.TrySwap | rangers.cc:223-239 | A rejected pair changes nothing. A goal is appended to the reports and counted. Any other result is appended to the back of the queue. The queue invariant holds afterwards. |
| Search.Driver.Record | rangers.cc:230-238 | Recording an outcome appends its state to the reports or to the queue, and counts a report, keeping the queue invariant. |
| Search.RecordKeepsValid | rangers.cc:230-238 | Appending a sound outcome keeps every queued state pending and every reported state a solution. |
| Search.OutcomesAppend | rangers.cc:264-271 | Trying the pairs of `a` and then those of `b` gives the outcomes of `a` followed by those of `b`. |
| Search.ResultsAppend | rangers.cc:264-271 | The states queued and reported for `a` then `b` are those for `a` followed by those for `b`. |
| Search.ResultsAreComplete | rangers.cc:230-238 | A state is queued exactly when some outcome queues it, and reported exactly when some outcome reports it. |
| Search.ResultsCount | rangers.cc:226-238 | Every outcome is exactly one of rejected, queued or reported. So queued plus reported plus rejected is the number of pairs tried. |
| Search.ResultsAreGood | rangers.cc:264-271 | Trying any pairs on a well-formed state queues only well-formed non-goals and reports only well-formed goals. |
| Search.TwoRejected | rangers.cc:143-147 | With two rangers at each station, exactly two of the six catalogue pairs stand at the same station and are rejected. |
| Search.FourResults | rangers.cc:246-271 | Expanding a balanced state from any offset yields four states in all, queued or reported. |
| Search.Driver.TryNext | rangers.cc:265-266 | One iteration of either loop extends the queue and the reports by the results of one more pair. |
| Search.Driver.TryFrom | rangers.cc:264-267 | The first loop appends the results of catalogue entries `start` to the end, in order, and keeps the queue invariant. |
| Search.Driver.TryUpTo | rangers.cc:268-271 | The second loop appends the results of catalogue entries before `start`, in order, and keeps the queue invariant. |
| Search.Driver.Expand | rangers.cc:263-271 | Both loops together append the results of the rotated catalogue to the queue and to the reports. |
| Search.Driver.Step | rangers.cc:246-271 | One round removes the front state and appends the results of expanding it from the given offset. |
| Search.Driver.constructor | rangers.cc:202 | A new driver holds the given queue of pending states, no reports and a zero solution count. |
| Search.Round | rangers.cc:247-271 | One round takes the front state off the queue and appends, in order, the queued and the reported results of the rotated catalogue on it. When the queue held only pending states, it still does. |
| Search.Rounds | rangers.cc:246-271 | Rounds applied one per offset, in order, and none once the queue is empty, keep a queue of pending states pending. |
| Search.Driver.Run | rangers.cc:246-272 | After its rounds, the queue and the reports are exactly `Rounds` of the old ones over the offsets used, so FIFO order holds across rounds. The queue invariant holds and the reports only grow. Queue length plus reports grows by exactly three per round. The run stops early only when the queue is empty. |

## Left out

- Output is left out: the printing of records and states, the solution
  banner and the progress lines. It is formatting only.
- Randomness is left out. `srand(time(NULL))` and `rand() % 6` become the
  parameter `start` of `Step` and `Expand`, with `start < 6`, and the
  sequence `offsets` of `Run`.
- `exit(0)` under `end_on_first_solution` is left out. The constant is
  false and the call only ends the process.
- Search.Driver.Run: runs at most `|offsets|` rounds and makes no
  termination claim. The loop in `rangers.cc` never ends: it has no
  deduplication, and every state has four legal swaps. At least two of
  them leave A or B at South, so they give non-goal states that are
  queued. Each round therefore removes one state and queues at least two,
  so the queue never drains.
- The symmetry argument behind forcing the opening swap is not proved. The
  program states it as a design assumption and does not check it.
- 32-bit `int` overflow of the counters and of `solution_count` is not
  modelled. Counters are unbounded integers; the program would need billions
  of rounds to overflow.
- The iteration order of `std::map` is not modelled. The loops in
  `AddRanger`, `IsEndState` and `CreditShifts` visit the keys in an
  arbitrary order, and every contract holds for any order. So which North
  ranger lands in `norths[0]` is left open.
- StateObject.State.Swap: requires two rangers at each station whenever
  the swap is legal. `rangers.cc` relies on this without checking it: its
  two-slot arrays would overflow otherwise. The seed establishes it and
  every swap preserves it.
- StateObject.State.IsEndState: requires the two required names to be
  present. `rangers.cc` dereferences their lookups unchecked.
- Search.Driver.TrySwap: takes the value of the dequeued state rather than
  a reference to a `State` object. `rangers.cc` copies the state before
  swapping anyway.
- `solution_count` is modelled as the `solutionCount` field of `Driver`,
  next to a ghost list of the reported goals.
- The queue invariant keeps only "well formed and not a goal". Full
  consistency of queued states (symmetric counters, shift and move totals)
  is proved for every produced state by `Search.TryOutcomeKeepsConsistent`
  and `Search.OpeningIsGood`. It is not carried as a `Driver` invariant.
