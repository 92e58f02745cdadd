/** The per-session spend guard: a counter in each worker's memory and one shared total, updated in two steps. */
module BudgetTrackers {
  import opened Wrappers

  datatype BudgetStage = Normal | Caution | Critical | Exhausted

  const CAUTION_USD := 3.00
  const CRITICAL_USD := 4.50
  const LIMIT_USD := 5.00

  function Rank(b: BudgetStage): nat
  {
    match b
    case Normal => 0
    case Caution => 1
    case Critical => 2
    case Exhausted => 3
  }

  function StageOf(spent: real): BudgetStage
  {
    if spent >= LIMIT_USD then Exhausted
    else if spent >= CRITICAL_USD then Critical
    else if spent >= CAUTION_USD then Caution
    else Normal
  }

  /** The stages by their limits in dollars: 3, 4.50 and 5, each reached and not only passed. */
  lemma {:induction false} StageIff(spent: real)
    ensures StageOf(spent) == Normal <==> spent < 3.0
    ensures StageOf(spent) == Caution <==> 3.0 <= spent < 4.5
    ensures StageOf(spent) == Critical <==> 4.5 <= spent < 5.0
    ensures StageOf(spent) == Exhausted <==> 5.0 <= spent
  {
  }

  /** A larger spend is never at an earlier stage. */
  lemma StageMonotone(a: real, b: real)
    requires a <= b
    ensures Rank(StageOf(a)) <= Rank(StageOf(b))
  {
  }

  /** The shared store's counter for one session: a missing key reads as nothing. */
  class SharedTotal {
    var total: Option<real>

    constructor ()
      ensures total == None
    {
      total := None;
    }

    /** Read, or fail when the store is unreachable. */
    method Get(reachable: bool) returns (r: Result<Option<real>, ()>)
      ensures r == if reachable then Ok(total) else Err(())
    {
      r := if reachable then Ok(total) else Err(());
    }

    /** Atomic increment; an unreachable store keeps its value. */
    method IncrByFloat(cost: real, reachable: bool) returns (ok: bool)
      modifies this
      ensures ok == reachable
      ensures total == if !reachable then old(total)
                       else if old(total) == None then Some(cost)
                       else Some(old(total).value + cost)
    {
      if reachable {
        total := Some(Amount(total) + cost);
      }
      ok := reachable;
    }
  }

  function Amount(total: Option<real>): real
  {
    match total
    case None => 0.0
    case Some(x) => x
  }

  // ------------------------------------------------------------------------
  // Any number of workers, interleaved
  // ------------------------------------------------------------------------

  /** One worker's tracker: what it loaded, what it recorded, and which recordings await the store. */
  datatype Worker = Worker(spent: real, pending: seq<real>)

  datatype System = System(workers: seq<Worker>, shared: real)

  /**
   `Load` starts a worker. `RecordMemory` is the first step of `record`; `Persist` and `Fail`
   end the second step of worker w's i-th pending recording, the store having applied it or not.
   */
  datatype Move =
    | Load(reachable: bool)
    | RecordMemory(w: nat, cost: real)
    | Persist(w: nat, i: nat)
    | Fail(w: nat, i: nat)

  predicate CanMove(sys: System, m: Move)
  {
    match m
    case Load(_) => true
    case RecordMemory(w, _) => w < |sys.workers|
    case Persist(w, i) => w < |sys.workers| && i < |sys.workers[w].pending|
    case Fail(w, i) => w < |sys.workers| && i < |sys.workers[w].pending|
  }

  function Without(s: seq<real>, i: nat): seq<real>
    requires i < |s|
  {
    s[..i] + s[i + 1..]
  }

  function Apply(sys: System, m: Move): System
    requires CanMove(sys, m)
  {
    match m
    case Load(reachable) => sys.(workers := sys.workers + [Worker(if reachable then sys.shared else 0.0, [])])
    case RecordMemory(w, cost) =>
      var k := sys.workers[w];
      sys.(workers := sys.workers[w := Worker(k.spent + cost, k.pending + [cost])])
    case Persist(w, i) =>
      var k := sys.workers[w];
      System(sys.workers[w := k.(pending := Without(k.pending, i))], sys.shared + k.pending[i])
    case Fail(w, i) =>
      var k := sys.workers[w];
      sys.(workers := sys.workers[w := k.(pending := Without(k.pending, i))])
  }

  /** One worker and its store, nothing pending. */
  function Alone(spent: real, total: Option<real>): System
  {
    System([Worker(spent, [])], Amount(total))
  }

  /** Both steps of `record` in the first worker, which has nothing pending. */
  function Recorded(sys: System, cost: real, reachable: bool): System
    requires |sys.workers| > 0 && sys.workers[0].pending == []
  {
    Apply(Apply(sys, RecordMemory(0, cost)), if reachable then Persist(0, 0) else Fail(0, 0))
  }

  lemma RecordedAlone(spent: real, total: Option<real>, cost: real, reachable: bool)
    ensures Recorded(Alone(spent, total), cost, reachable)
            == Alone(spent + cost, if reachable then Some(Amount(total) + cost) else total)
  {
    var remembered := Apply(Alone(spent, total), RecordMemory(0, cost));
    assert remembered.workers == [Worker(spent + cost, [cost])] by { assert [] + [cost] == [cost]; }
    assert Without([cost], 0) == [];
  }

  class BudgetTracker {
    var spent: real

    constructor ()
      ensures spent == 0.0
    {
      spent := 0.0;
    }

    /** `load`: the shared total, or nothing when there is no store or it fails. */
    constructor Load(redis: SharedTotal?, reachable: bool)
      ensures spent == if redis != null && reachable && redis.total != None then redis.total.value else 0.0
    {
      var start := 0.0;
      if redis != null {
        var raw := redis.Get(reachable);
        if raw.Ok? {
          start := Amount(raw.value);
        }
      }
      spent := start;
    }

    function Stage(): (b: BudgetStage)
      reads this
      ensures b == Normal <==> spent < 3.0
      ensures b == Caution <==> 3.0 <= spent < 4.5
      ensures b == Critical <==> 4.5 <= spent < 5.0
    {
      StageOf(spent)
    }

    /** `record`, run without interruption: memory first, then the store; a failure there is swallowed. */
    method Record(cost: real, redis: SharedTotal?, reachable: bool)
      modifies this, redis
      ensures spent == old(spent) + cost
      ensures redis != null ==> redis.total == if reachable then Some(Amount(old(redis.total)) + cost) else old(redis.total)
      ensures redis != null ==>
        Alone(spent, redis.total) == Recorded(Alone(old(spent), old(redis.total)), cost, reachable)
      ensures cost >= 0.0 ==> Rank(Stage()) >= Rank(old(Stage()))
    {
      spent := spent + cost;
      if redis != null {
        var ok := redis.IncrByFloat(cost, reachable);
      }
      if redis != null {
        RecordedAlone(old(spent), old(redis.total), cost, reachable);
      }
      if cost >= 0.0 {
        StageMonotone(old(spent), spent);
      }
    }
  }

  predicate CanRun(initial: real, moves: seq<Move>)
    decreases |moves|, 0
  {
    moves == []
    || (CanRun(initial, moves[..|moves| - 1]) && CanMove(Run(initial, moves[..|moves| - 1]), moves[|moves| - 1]))
  }

  function Run(initial: real, moves: seq<Move>): System
    requires CanRun(initial, moves)
    decreases |moves|, 1
  {
    if moves == [] then System([], initial) else Apply(Run(initial, moves[..|moves| - 1]), moves[|moves| - 1])
  }

  /** No recorded cost is negative. */
  predicate Costs(moves: seq<Move>)
  {
    forall i :: 0 <= i < |moves| && moves[i].RecordMemory? ==> moves[i].cost >= 0.0
  }

  // ------------------------------------------------------------------------
  // The history of a run, kept apart from the state
  // ------------------------------------------------------------------------

  function Total(s: seq<real>): real
    decreases |s|
  {
    if s == [] then 0.0 else Total(s[..|s| - 1]) + s[|s| - 1]
  }

  lemma TotalAppend(s: seq<real>, x: real)
    ensures Total(s + [x]) == Total(s) + x
  {
    assert (s + [x])[..|s + [x]| - 1] == s;
  }

  lemma {:induction false} TotalConcat(a: seq<real>, b: seq<real>)
    ensures Total(a + b) == Total(a) + Total(b)
    decreases |b|
  {
    if b == [] {
      assert a + b == a;
    } else {
      var init := b[..|b| - 1];
      assert (a + b)[..|a + b| - 1] == a + init;
      TotalConcat(a, init);
    }
  }

  lemma {:induction false} TotalWithout(s: seq<real>, i: nat)
    requires i < |s|
    ensures Total(s) == Total(Without(s, i)) + s[i]
  {
    assert s == (s[..i] + [s[i]]) + s[i + 1..];
    TotalConcat(s[..i] + [s[i]], s[i + 1..]);
    TotalAppend(s[..i], s[i]);
    TotalConcat(s[..i], s[i + 1..]);
  }

  /** The costs the store applied, over all workers. */
  function Persisted(initial: real, moves: seq<Move>): seq<real>
    requires CanRun(initial, moves)
    decreases |moves|
  {
    if moves == [] then []
    else
      var init, m := moves[..|moves| - 1], moves[|moves| - 1];
      Persisted(initial, init)
      + match m { case Persist(w, i) => [Run(initial, init).workers[w].pending[i]] case _ => [] }
  }

  /** What worker w found when it loaded. */
  function LoadedBy(initial: real, moves: seq<Move>, w: nat): real
    requires CanRun(initial, moves) && w < |Run(initial, moves).workers|
    decreases |moves|
  {
    var init := moves[..|moves| - 1];
    if w < |Run(initial, init).workers| then LoadedBy(initial, init, w)
    else if moves[|moves| - 1].reachable then Run(initial, init).shared else 0.0
  }

  /** The costs worker w recorded. */
  function RecordedBy(moves: seq<Move>, w: nat): seq<real>
    decreases |moves|
  {
    if moves == [] then []
    else
      RecordedBy(moves[..|moves| - 1], w)
      + match moves[|moves| - 1] { case RecordMemory(v, cost) => (if v == w then [cost] else []) case _ => [] }
  }

  /** The costs of worker w that the store has not applied: pending or lost. */
  function UnpersistedBy(initial: real, moves: seq<Move>, w: nat): real
    requires CanRun(initial, moves) && w < |Run(initial, moves).workers|
  {
    Total(Run(initial, moves).workers[w].pending) + Total(LostBy(initial, moves, w))
  }

  function LostBy(initial: real, moves: seq<Move>, w: nat): seq<real>
    requires CanRun(initial, moves)
    decreases |moves|
  {
    if moves == [] then []
    else
      var init, m := moves[..|moves| - 1], moves[|moves| - 1];
      LostBy(initial, init, w)
      + match m { case Fail(v, i) => (if v == w then [Run(initial, init).workers[w].pending[i]] else []) case _ => [] }
  }

  lemma TotalMaybeAppend(s: seq<real>, t: seq<real>)
    requires |t| <= 1
    ensures Total(s + t) == Total(s) + if t == [] then 0.0 else t[0]
  {
    if t == [] {
      assert s + t == s;
    } else {
      assert t == [t[0]];
      TotalAppend(s, t[0]);
    }
  }

  /** The shared total is what it was at first plus the costs it applied: interleaved increments lose nothing. */
  lemma {:induction false} SharedIsSumOfPersisted(initial: real, moves: seq<Move>)
    requires CanRun(initial, moves)
    ensures Run(initial, moves).shared == initial + Total(Persisted(initial, moves))
    decreases |moves|
  {
    if moves != [] {
      var init, m := moves[..|moves| - 1], moves[|moves| - 1];
      SharedIsSumOfPersisted(initial, init);
      match m
      case Persist(w, i) => TotalAppend(Persisted(initial, init), Run(initial, init).workers[w].pending[i]);
      case _ => assert Persisted(initial, init) + [] == Persisted(initial, init);
    }
  }

  /** Every tracker holds what it loaded plus the costs it recorded itself, whatever the store did. */
  lemma {:induction false} TrackerIsLoadedPlusOwn(initial: real, moves: seq<Move>, w: nat)
    requires CanRun(initial, moves) && w < |Run(initial, moves).workers|
    ensures Run(initial, moves).workers[w].spent == LoadedBy(initial, moves, w) + Total(RecordedBy(moves, w))
    decreases |moves|
  {
    var init, m := moves[..|moves| - 1], moves[|moves| - 1];
    if w < |Run(initial, init).workers| {
      TrackerIsLoadedPlusOwn(initial, init, w);
      match m
      case RecordMemory(v, cost) =>
        TotalMaybeAppend(RecordedBy(init, w), if v == w then [cost] else []);
      case _ => assert RecordedBy(init, w) + [] == RecordedBy(init, w);
    } else {
      NothingRecordedBefore(initial, init, w);
      assert RecordedBy(init, w) + [] == RecordedBy(init, w);
    }
  }

  lemma {:induction false} NothingRecordedBefore(initial: real, moves: seq<Move>, w: nat)
    requires CanRun(initial, moves) && w >= |Run(initial, moves).workers|
    ensures RecordedBy(moves, w) == []
    ensures LostBy(initial, moves, w) == []
    decreases |moves|
  {
    if moves != [] {
      var init := moves[..|moves| - 1];
      assert w >= |Run(initial, init).workers|;
      NothingRecordedBefore(initial, init, w);
    }
  }

  /**
   A tracker exceeds the shared total by at most its own costs that the store has not
   applied - the other workers' costs only lower the difference.
   */
  lemma {:induction false} OverstatementBounded(initial: real, moves: seq<Move>, w: nat)
    requires initial >= 0.0 && Costs(moves) && CanRun(initial, moves) && w < |Run(initial, moves).workers|
    ensures Run(initial, moves).workers[w].spent - Run(initial, moves).shared <= UnpersistedBy(initial, moves, w)
    decreases |moves|
  {
    hide Apply, UnpersistedBy, LostBy, AllNonNegative;
    var init := moves[..|moves| - 1];
    assert Costs(init);
    PendingNonNegative(initial, init);
    SharedNonNegative(initial, init);
    if w < |Run(initial, init).workers| {
      OverstatementBounded(initial, init, w);
      StepKeepsBound(initial, moves, w);
    } else {
      LoadedWithinBound(initial, moves, w);
    }
  }

  lemma LoadedWithinBound(initial: real, moves: seq<Move>, w: nat)
    requires CanRun(initial, moves) && moves != [] && w < |Run(initial, moves).workers|
    requires w >= |Run(initial, moves[..|moves| - 1]).workers| && Run(initial, moves[..|moves| - 1]).shared >= 0.0
    ensures Run(initial, moves).workers[w].spent - Run(initial, moves).shared <= UnpersistedBy(initial, moves, w)
  {
    NothingRecordedBefore(initial, moves[..|moves| - 1], w);
    assert LostBy(initial, moves, w) == [];
  }

  lemma StepKeepsBound(initial: real, moves: seq<Move>, w: nat)
    requires CanRun(initial, moves) && moves != []
    requires w < |Run(initial, moves[..|moves| - 1]).workers| && AllNonNegative(Run(initial, moves[..|moves| - 1]))
    requires Run(initial, moves[..|moves| - 1]).workers[w].spent - Run(initial, moves[..|moves| - 1]).shared
             <= UnpersistedBy(initial, moves[..|moves| - 1], w)
    ensures Run(initial, moves).workers[w].spent - Run(initial, moves).shared <= UnpersistedBy(initial, moves, w)
  {
    var init, m := moves[..|moves| - 1], moves[|moves| - 1];
    var k, lost := Run(initial, init).workers[w], LostBy(initial, init, w);
    assert lost + [] == lost;
    match m
    case Load(_) =>
    case RecordMemory(v, cost) =>
      if v == w { TotalAppend(k.pending, cost); }
    case Persist(v, i) =>
      if v == w { TotalWithout(k.pending, i); }
    case Fail(v, i) =>
      if v == w {
        TotalWithout(k.pending, i);
        TotalAppend(lost, k.pending[i]);
      }
  }

  predicate AllNonNegative(sys: System)
  {
    forall w, i :: 0 <= w < |sys.workers| && 0 <= i < |sys.workers[w].pending| ==> sys.workers[w].pending[i] >= 0.0
  }

  lemma {:induction false} PendingNonNegative(initial: real, moves: seq<Move>)
    requires Costs(moves) && CanRun(initial, moves)
    ensures AllNonNegative(Run(initial, moves))
    decreases |moves|
  {
    if moves != [] {
      var init, m := moves[..|moves| - 1], moves[|moves| - 1];
      PendingNonNegative(initial, init);
      MoveKeepsNonNegative(Run(initial, init), m);
    }
  }

  lemma MoveKeepsNonNegative(sys: System, m: Move)
    requires AllNonNegative(sys) && CanMove(sys, m) && (m.RecordMemory? ==> m.cost >= 0.0)
    ensures AllNonNegative(Apply(sys, m))
  {
  }

  lemma {:induction false} SharedNonNegative(initial: real, moves: seq<Move>)
    requires Costs(moves) && CanRun(initial, moves) && initial >= 0.0
    ensures Run(initial, moves).shared >= initial
    decreases |moves|
  {
    if moves != [] {
      var init := moves[..|moves| - 1];
      SharedNonNegative(initial, init);
      PendingNonNegative(initial, init);
    }
  }

  /** No worker's stage ever moves back, whatever comes later in the run. */
  lemma {:induction false} StageNeverMovesBack(initial: real, moves: seq<Move>, k: nat, w: nat)
    requires Costs(moves) && CanRun(initial, moves) && k <= |moves| && CanRun(initial, moves[..k]) && w < |Run(initial, moves[..k]).workers|
    ensures w < |Run(initial, moves).workers|
    ensures Rank(StageOf(Run(initial, moves[..k]).workers[w].spent)) <= Rank(StageOf(Run(initial, moves).workers[w].spent))
    decreases |moves|
  {
    hide StageOf, Rank;
    if k == |moves| {
      assert moves[..k] == moves;
    } else {
      var init := moves[..|moves| - 1];
      assert init[..k] == moves[..k];
      StageNeverMovesBack(initial, init, k, w);
      StageMonotone(Run(initial, init).workers[w].spent, Run(initial, moves).workers[w].spent);
    }
  }
}
