/**
 * The coroutine resource pool (BaseAsyncPool): a bounded FIFO channel of idle
 * resources, the count of resources the pool has constructed, and the
 * acquire/return protocol built on them.
 *
 * The pure functions below give each operation's effect on the pool's
 * accounting; the class Pool updates its fields in place and is proved to
 * agree with them.
 */
module AsyncPool {
  import opened Wrappers

  /** One pooled resource (a connection); the pool only looks at its identity. */
  datatype Resource = Resource(handle: nat)

  /** An entry of the base pool's item list; it wraps one resource. */
  datatype PoolItem = PoolItem(resource: Resource)

  /** The pool's exceptions, one per message it throws. */
  datatype PoolError =
    | GetResourceTimeout     // "AsyncPool [name] getResource timeout"
    | GetResourceFailed      // "AsyncPool [name] getResource failed"
    | TryGetResourceFailed   // "AsyncPool [name] tryGetResource failed"

  /** What an acquisition hands back: a resource, `false` (tryGetResource only), or an exception. */
  datatype Acquire = Acquired(resource: Resource) | NoResource | Thrown(error: PoolError)

  /** What a timed pop on the empty channel sees: a resource pushed meanwhile by another coroutine, or the timeout. */
  datatype Arrival = Arrived(resource: Resource) | TimedOut

  /** What the popped resource's checkState() and open() report; open() is consulted only when checkState() fails. */
  datatype Probe = Probe(stateOk: bool, openOk: bool)

  /** The resource is fit to hand out: it passed checkState(), or open() reopened it. */
  predicate Usable(probe: Probe) {
    probe.stateOk || probe.openOk
  }

  /**
   * The accounting an acquisition changes: the idle queue (head first) and the
   * number of constructed resources, which the source stores, and two tallies it
   * keeps only implicitly: the resources handed out and not yet pushed back
   * (`lent`), and the counted resources that failed their checks and were thrown
   * away (`dropped`; the count keeps them).
   */
  datatype PoolState = PoolState(queue: seq<Resource>, count: nat, lent: set<Resource>, dropped: nat)

  /** The pool after one call, with what the call answered. */
  datatype Step = Step(state: PoolState, outcome: Acquire)

  /** The capacity bounds: the channel never holds more than the maximum, and the pool never constructs more. */
  predicate Bounded(s: PoolState, maxResources: nat) {
    |s.queue| <= maxResources && s.count <= maxResources
  }

  /** No resource occurs twice. */
  predicate Distinct(rs: seq<Resource>) {
    forall i, j :: 0 <= i < j < |rs| ==> rs[i] != rs[j]
  }

  /**
   * Every constructed resource is idle once, lent to one caller, or dropped: the
   * queue has no duplicates, nothing idle is also lent, and the three add up to
   * the count, which never passes the maximum.
   */
  predicate Accounted(s: PoolState, maxResources: nat) {
    && Distinct(s.queue)
    && (forall i :: 0 <= i < |s.queue| ==> s.queue[i] !in s.lent)
    && |s.queue| + |s.lent| + s.dropped == s.count <= maxResources
  }

  /** A resource the pool does not hold yet: neither idle nor lent. */
  predicate Fresh(s: PoolState, resource: Resource) {
    resource !in s.queue && resource !in s.lent
  }

  /** Nothing is idle and the pool is at its maximum: getResource has to wait, tryGetResource answers `false`. */
  predicate Exhausted(s: PoolState, maxResources: nat) {
    s.queue == [] && s.count >= maxResources
  }

  /** The base pool's addResource: one newly created resource is counted and pushed onto the channel. */
  function AddResourceStep(s: PoolState, created: Resource): PoolState {
    s.(queue := s.queue + [created], count := s.count + 1)
  }

  /** The last test both acquisitions make: hand the resource out if usable, otherwise throw `failure`. */
  function Checked(resource: Resource, probe: Probe, failure: PoolError): Acquire {
    if Usable(probe) then Acquired(resource) else Thrown(failure)
  }

  /** `resource`, already off the channel, is lent to the caller if usable and dropped otherwise. */
  function HandOut(s: PoolState, resource: Resource, probe: Probe, failure: PoolError): Step {
    if Usable(probe) then Step(s.(lent := s.lent + {resource}), Acquired(resource))
    else Step(s.(dropped := s.dropped + 1), Thrown(failure))
  }

  /**
   * getResource: grow the pool when nothing is idle and there is room, take the
   * head of the idle queue when something is idle, and otherwise wait on the
   * channel until a resource arrives or the wait times out.
   */
  function GetResourceStep(s: PoolState, maxResources: nat, created: Resource, arrival: Arrival, probe: Probe): (r: Step)
    // getResource never answers `false`, and never hands out a resource that failed both checks
    ensures !r.outcome.NoResource?
    ensures r.outcome.Acquired? ==> Usable(probe) && r.outcome.resource in r.state.lent
    // a resource that fails its checks is dropped, and stays counted
    ensures r.state.dropped == if r.outcome == Thrown(GetResourceFailed) then s.dropped + 1 else s.dropped
    // grow: the newly created resource is pushed and popped at once, so the queue stays empty
    ensures s.queue == [] && s.count < maxResources ==>
              r.state.queue == [] && r.state.count == s.count + 1 && r.outcome == Checked(created, probe, GetResourceFailed)
    // take: the oldest idle resource leaves the queue, whether or not it then passes its checks
    ensures s.queue != [] ==>
              r.state.queue == s.queue[1..] && r.state.count == s.count && r.outcome == Checked(s.queue[0], probe, GetResourceFailed)
    // without waiting, exactly the resource handed out joins the lent ones
    ensures !Exhausted(s, maxResources) ==>
              r.state.lent == if r.outcome.Acquired? then s.lent + {r.outcome.resource} else s.lent
    // wait: the queue and the count are left as they were; a timeout changes nothing and throws
    ensures Exhausted(s, maxResources) ==> r.state.queue == s.queue && r.state.count == s.count
    ensures Exhausted(s, maxResources) && arrival.TimedOut? ==> r == Step(s, Thrown(GetResourceTimeout))
    // an arriving resource, pushed back by the coroutine that held it, is checked like any other
    ensures Exhausted(s, maxResources) && arrival.Arrived? ==>
              r.outcome == Checked(arrival.resource, probe, GetResourceFailed)
    ensures Bounded(s, maxResources) ==> Bounded(r.state, maxResources)
  {
    if |s.queue| == 0 && s.count >= maxResources then
      match arrival
      case TimedOut => Step(s, Thrown(GetResourceTimeout))
      case Arrived(resource) => HandOut(s.(lent := s.lent - {resource}), resource, probe, GetResourceFailed)
    else
      var grown := if |s.queue| == 0 then AddResourceStep(s, created) else s;
      HandOut(grown.(queue := grown.queue[1..]), grown.queue[0], probe, GetResourceFailed)
  }

  /**
   * tryGetResource: as getResource, except that a pool with nothing idle and no
   * room answers `false` instead of waiting.
   */
  function TryGetResourceStep(s: PoolState, maxResources: nat, created: Resource, probe: Probe): (r: Step)
    // `false` exactly when nothing is idle and the pool is at its maximum, and then nothing changes
    ensures r.outcome == NoResource <==> Exhausted(s, maxResources)
    ensures r.outcome == NoResource ==> r.state == s
    ensures r.outcome.Thrown? ==> r.outcome.error == TryGetResourceFailed && !Usable(probe)
    ensures r.outcome.Acquired? ==> Usable(probe) && r.outcome.resource in r.state.lent
    ensures r.state.dropped == if r.outcome.Thrown? then s.dropped + 1 else s.dropped
    ensures r.state.lent == if r.outcome.Acquired? then s.lent + {r.outcome.resource} else s.lent
    ensures s.queue == [] && s.count < maxResources ==>
              r.state.queue == [] && r.state.count == s.count + 1 && r.outcome == Checked(created, probe, TryGetResourceFailed)
    ensures s.queue != [] ==>
              r.state.queue == s.queue[1..] && r.state.count == s.count && r.outcome == Checked(s.queue[0], probe, TryGetResourceFailed)
    ensures Bounded(s, maxResources) ==> Bounded(r.state, maxResources)
  {
    if |s.queue| == 0 && s.count >= maxResources then
      Step(s, NoResource)
    else
      var grown := if |s.queue| == 0 then AddResourceStep(s, created) else s;
      // the 1 ms poll: sequentially, the channel is never empty at this point
      HandOut(grown.(queue := grown.queue[1..]), grown.queue[0], probe, TryGetResourceFailed)
  }

  /** When getResource would not have to wait, tryGetResource does the same thing to the pool and hands out the same resource. */
  lemma TryAgreesWithGetWhenNoWait(s: PoolState, maxResources: nat, created: Resource, arrival: Arrival, probe: Probe)
    requires !Exhausted(s, maxResources)
    ensures TryGetResourceStep(s, maxResources, created, probe).state == GetResourceStep(s, maxResources, created, arrival, probe).state
    ensures TryGetResourceStep(s, maxResources, created, probe).outcome.Acquired? <==> Usable(probe)
    ensures GetResourceStep(s, maxResources, created, arrival, probe).outcome.Acquired? <==> Usable(probe)
    ensures Usable(probe) ==>
              TryGetResourceStep(s, maxResources, created, probe).outcome == GetResourceStep(s, maxResources, created, arrival, probe).outcome
  {
  }

  /** push: the resource goes back onto the tail of the channel and is no longer lent. */
  function PushStep(s: PoolState, resource: Resource): PoolState {
    s.(queue := s.queue + [resource], lent := s.lent - {resource})
  }

  /**
   * What the environment must make true for getResource: a resource the pool
   * constructs is new to it, and a resource arriving during a wait is one that
   * its holder pushed back.
   */
  predicate GetAdmissible(s: PoolState, maxResources: nat, created: Resource, arrival: Arrival) {
    && (s.queue == [] && s.count < maxResources ==> Fresh(s, created))
    && (Exhausted(s, maxResources) && arrival.Arrived? ==> arrival.resource in s.lent)
  }

  /** What the environment must make true for tryGetResource: a resource the pool constructs is new to it. */
  predicate TryAdmissible(s: PoolState, maxResources: nat, created: Resource) {
    s.queue == [] && s.count < maxResources ==> Fresh(s, created)
  }

  /**
   * getResource keeps every resource accounted for, and never lends out a
   * resource taken off the channel or newly constructed that is already lent.
   */
  lemma GetResourceKeepsAccounts(s: PoolState, maxResources: nat, created: Resource, arrival: Arrival, probe: Probe)
    requires Accounted(s, maxResources) && GetAdmissible(s, maxResources, created, arrival)
    ensures Accounted(GetResourceStep(s, maxResources, created, arrival, probe).state, maxResources)
    ensures !Exhausted(s, maxResources) && GetResourceStep(s, maxResources, created, arrival, probe).outcome.Acquired? ==>
              GetResourceStep(s, maxResources, created, arrival, probe).outcome.resource !in s.lent
  {
  }

  /** tryGetResource keeps every resource accounted for, and never lends out a resource that is already lent. */
  lemma TryGetResourceKeepsAccounts(s: PoolState, maxResources: nat, created: Resource, probe: Probe)
    requires Accounted(s, maxResources) && TryAdmissible(s, maxResources, created)
    ensures Accounted(TryGetResourceStep(s, maxResources, created, probe).state, maxResources)
    ensures TryGetResourceStep(s, maxResources, created, probe).outcome.Acquired? ==>
              TryGetResourceStep(s, maxResources, created, probe).outcome.resource !in s.lent
  {
  }

  /**
   * Pushing back a lent resource always finds room in the channel (it holds
   * fewer than the maximum), and keeps every resource accounted for.
   */
  lemma PushKeepsAccounts(s: PoolState, maxResources: nat, resource: Resource)
    requires Accounted(s, maxResources) && resource in s.lent
    ensures |s.queue| < maxResources
    ensures Accounted(PushStep(s, resource), maxResources)
  {
  }

  /** The resources of the given pool items, in iteration order. */
  function Resources(items: seq<PoolItem>): (r: seq<Resource>)
    ensures |r| == |items|
    ensures forall i :: 0 <= i < |items| ==> r[i] == items[i].resource
  {
    seq(|items|, i requires 0 <= i < |items| => items[i].resource)
  }

  /** One call a coroutine makes on the pool; the parameters are the outcomes the pool cannot see in advance. */
  datatype PoolCall =
    | GetCall(created: Resource, arrival: Arrival, probe: Probe)
    | TryCall(created: Resource, probe: Probe)
    | PushCall(resource: Resource)

  /** One call's effect; a push answers nothing. */
  function Perform(s: PoolState, maxResources: nat, call: PoolCall): (PoolState, Option<Acquire>) {
    match call
    case GetCall(created, arrival, probe) =>
      var step := GetResourceStep(s, maxResources, created, arrival, probe);
      (step.state, Some(step.outcome))
    case TryCall(created, probe) =>
      var step := TryGetResourceStep(s, maxResources, created, probe);
      (step.state, Some(step.outcome))
    case PushCall(resource) =>
      (PushStep(s, resource), None)
  }

  /** The calls made one after the other, each starting from the pool the previous one left; an exception ends only its own call. */
  function Run(s: PoolState, maxResources: nat, calls: seq<PoolCall>): (r: (PoolState, seq<Option<Acquire>>))
    ensures |r.1| == |calls|
    decreases |calls|
  {
    if calls == [] then (s, [])
    else
      var (next, answer) := Perform(s, maxResources, calls[0]);
      var (last, answers) := Run(next, maxResources, calls[1..]);
      (last, [answer] + answers)
  }

  /** A call the environment can make here: constructed resources are new, and only a lent resource is pushed back or arrives. */
  predicate AdmissibleCall(s: PoolState, maxResources: nat, call: PoolCall) {
    match call
    case GetCall(created, arrival, _) => GetAdmissible(s, maxResources, created, arrival)
    case TryCall(created, _) => TryAdmissible(s, maxResources, created)
    case PushCall(resource) => resource in s.lent
  }

  /** Every call is admissible in the pool that the calls before it left. */
  predicate AdmissibleRun(s: PoolState, maxResources: nat, calls: seq<PoolCall>)
    decreases |calls|
  {
    calls == [] ||
    (AdmissibleCall(s, maxResources, calls[0]) && AdmissibleRun(Perform(s, maxResources, calls[0]).0, maxResources, calls[1..]))
  }

  /**
   * Over any admissible mix of getResource, tryGetResource and push calls, every
   * constructed resource stays idle once, lent to one caller, or dropped, and
   * the count never passes the maximum.
   */
  lemma {:induction false} RunKeepsAccounts(s: PoolState, maxResources: nat, calls: seq<PoolCall>)
    requires Accounted(s, maxResources) && AdmissibleRun(s, maxResources, calls)
    ensures Accounted(Run(s, maxResources, calls).0, maxResources)
    decreases |calls|
  {
    if calls != [] {
      match calls[0] {
        case GetCall(created, arrival, probe) => GetResourceKeepsAccounts(s, maxResources, created, arrival, probe);
        case TryCall(created, probe) => TryGetResourceKeepsAccounts(s, maxResources, created, probe);
        case PushCall(resource) => PushKeepsAccounts(s, maxResources, resource);
      }
      RunKeepsAccounts(Perform(s, maxResources, calls[0]).0, maxResources, calls[1..]);
    }
  }

  /** A run of getResource calls. */
  function GetCalls(created: seq<Resource>, arrival: Arrival, probe: Probe): (calls: seq<PoolCall>)
    ensures |calls| == |created|
    ensures forall i :: 0 <= i < |created| ==> calls[i] == GetCall(created[i], arrival, probe)
  {
    seq(|created|, i requires 0 <= i < |created| => GetCall(created[i], arrival, probe))
  }

  /** The resources occurring in `rs`. */
  function Elements(rs: seq<Resource>): set<Resource> {
    set r | r in rs
  }

  /** One getResource on a pool with nothing idle and room to grow lends out the resource it constructs. */
  lemma GrowingAcquire(s: PoolState, maxResources: nat, created: Resource, arrival: Arrival, probe: Probe)
    requires s.queue == [] && s.count < maxResources && Usable(probe)
    ensures Perform(s, maxResources, GetCall(created, arrival, probe))
              == (PoolState([], s.count + 1, s.lent + {created}, s.dropped), Some(Acquired(created)))
  {
  }

  /** Lending the first of distinct new resources leaves the rest new, and adds exactly one to the lent ones. */
  lemma LendFirst(lent: set<Resource>, created: seq<Resource>)
    requires created != [] && Distinct(created) && forall i :: 0 <= i < |created| ==> created[i] !in lent
    ensures Distinct(created[1..]) && forall i :: 0 <= i < |created[1..]| ==> created[1..][i] !in lent + {created[0]}
    ensures (lent + {created[0]}) + Elements(created[1..]) == lent + Elements(created)
    ensures |lent + {created[0]}| == |lent| + 1
  {
  }

  /** The answers of n growing getResource calls: each hands out the resource it constructs, in order. */
  lemma {:induction false} GrowingAnswers(s: PoolState, maxResources: nat, created: seq<Resource>, arrival: Arrival, probe: Probe)
    requires s.queue == [] && s.count + |created| <= maxResources && Usable(probe)
    ensures Run(s, maxResources, GetCalls(created, arrival, probe)).1
              == seq(|created|, i requires 0 <= i < |created| => Some(Acquired(created[i])))
    decreases |created|
  {
    var calls := GetCalls(created, arrival, probe);
    if created != [] {
      var next := PoolState([], s.count + 1, s.lent + {created[0]}, s.dropped);
      GrowingAcquire(s, maxResources, created[0], arrival, probe);
      assert calls[1..] == GetCalls(created[1..], arrival, probe);
      GrowingAnswers(next, maxResources, created[1..], arrival, probe);
      var tail := Run(next, maxResources, calls[1..]);
      assert Run(s, maxResources, calls) == (tail.0, [Some(Acquired(created[0]))] + tail.1);
    }
  }

  /** The pool after n growing getResource calls: the queue stays empty and each constructed resource is lent. */
  lemma {:induction false} GrowingState(s: PoolState, maxResources: nat, created: seq<Resource>, arrival: Arrival, probe: Probe)
    requires s.queue == [] && s.count + |created| <= maxResources && Usable(probe)
    ensures Run(s, maxResources, GetCalls(created, arrival, probe)).0
              == PoolState([], s.count + |created|, s.lent + Elements(created), s.dropped)
    decreases |created|
  {
    var calls := GetCalls(created, arrival, probe);
    if created == [] {
      assert Elements(created) == {};
    } else {
      var next := PoolState([], s.count + 1, s.lent + {created[0]}, s.dropped);
      GrowingAcquire(s, maxResources, created[0], arrival, probe);
      assert Elements(created) == {created[0]} + Elements(created[1..]);
      assert calls[1..] == GetCalls(created[1..], arrival, probe);
      GrowingState(next, maxResources, created[1..], arrival, probe);
    }
  }

  /** Lending distinct resources that are not lent yet adds exactly as many to the lent ones. */
  lemma {:induction false} LentGrowsBy(lent: set<Resource>, created: seq<Resource>)
    requires Distinct(created) && forall i :: 0 <= i < |created| ==> created[i] !in lent
    ensures |lent + Elements(created)| == |lent| + |created|
    decreases |created|
  {
    if created == [] {
      assert Elements(created) == {};
    } else {
      LendFirst(lent, created);
      LentGrowsBy(lent + {created[0]}, created[1..]);
    }
  }

  /**
   * With nothing idle and room for n more, n getResource calls in a row never
   * wait: each constructs its own new resource and lends it out, in order; the
   * queue stays empty and the count rises by exactly n, never past the maximum.
   */
  lemma SequentialAcquiresGrow(s: PoolState, maxResources: nat, created: seq<Resource>, arrival: Arrival, probe: Probe)
    requires s.queue == [] && s.count + |created| <= maxResources
    requires Usable(probe)
    requires Distinct(created) && forall i :: 0 <= i < |created| ==> created[i] !in s.lent
    ensures Run(s, maxResources, GetCalls(created, arrival, probe)).0
              == PoolState([], s.count + |created|, s.lent + Elements(created), s.dropped)
    ensures |Run(s, maxResources, GetCalls(created, arrival, probe)).0.lent| == |s.lent| + |created|
    ensures Run(s, maxResources, GetCalls(created, arrival, probe)).1
              == seq(|created|, i requires 0 <= i < |created| => Some(Acquired(created[i])))
  {
    GrowingState(s, maxResources, created, arrival, probe);
    GrowingAnswers(s, maxResources, created, arrival, probe);
    LentGrowsBy(s.lent, created);
  }

  /**
   * Over any sequence of calls the count never decreases, rises by at most one
   * per call, and never passes the maximum: a resource that fails its checks
   * leaves the queue but stays counted.
   */
  lemma {:induction false} CountStaysWithinCapacity(s: PoolState, maxResources: nat, calls: seq<PoolCall>)
    requires s.count <= maxResources
    ensures s.count <= Run(s, maxResources, calls).0.count <= maxResources
    ensures Run(s, maxResources, calls).0.count <= s.count + |calls|
    decreases |calls|
  {
    if calls != [] {
      var next := Perform(s, maxResources, calls[0]).0;
      assert s.count <= next.count <= s.count + 1;
      CountStaysWithinCapacity(next, maxResources, calls[1..]);
    }
  }

  /**
   * The fail-fast scenario with a maximum of two: two acquisitions construct two
   * resources, a third times out, and after the first is pushed back a fourth
   * acquisition reuses it without constructing another.
   */
  lemma FailFastScenario(a: Resource, b: Resource, unused: Resource, probe: Probe)
    requires Usable(probe)
    ensures Run(PoolState([], 0, {}, 0), 2,
                [GetCall(a, TimedOut, probe), GetCall(b, TimedOut, probe), GetCall(unused, TimedOut, probe),
                 PushCall(a), GetCall(unused, TimedOut, probe)])
            == (PoolState([], 2, {a, b}, 0),
                [Some(Acquired(a)), Some(Acquired(b)), Some(Thrown(GetResourceTimeout)), None, Some(Acquired(a))])
  {
    var s1, s2 := PoolState([], 1, {a}, 0), PoolState([], 2, {a, b}, 0);
    var s4 := PoolState([a], 2, {a, b} - {a}, 0);
    assert {} + {a} == {a} && {a} + {b} == {a, b} && ({a, b} - {a}) + {a} == {a, b};
    var last := [Some(Acquired(a))];
    var c4 := [GetCall(unused, TimedOut, probe)];
    var c3 := [PushCall(a)] + c4;
    var c2 := [GetCall(unused, TimedOut, probe)] + c3;
    var c1 := [GetCall(b, TimedOut, probe)] + c2;
    var c0 := [GetCall(a, TimedOut, probe)] + c1;
    assert c4[1..] == [] && c3[1..] == c4 && c2[1..] == c3 && c1[1..] == c2 && c0[1..] == c1;
    assert [a][1..] == [] && last + [] == last;
    assert Run(s4, 2, c4) == (s2, last);
    assert Run(s2, 2, c3) == (s2, [None] + last);
    assert Run(s2, 2, c2) == (s2, [Some(Thrown(GetResourceTimeout))] + ([None] + last));
    assert Run(s1, 2, c1) == (s2, [Some(Acquired(b))] + ([Some(Thrown(GetResourceTimeout))] + ([None] + last)));
    assert Run(PoolState([], 0, {}, 0), 2, c0)
        == (s2, [Some(Acquired(a))] + ([Some(Acquired(b))] + ([Some(Thrown(GetResourceTimeout))] + ([None] + last))));
    assert c0 == [GetCall(a, TimedOut, probe), GetCall(b, TimedOut, probe), GetCall(unused, TimedOut, probe),
                  PushCall(a), GetCall(unused, TimedOut, probe)];
    assert [Some(Acquired(a))] + ([Some(Acquired(b))] + ([Some(Thrown(GetResourceTimeout))] + ([None] + last)))
        == [Some(Acquired(a)), Some(Acquired(b)), Some(Thrown(GetResourceTimeout)), None, Some(Acquired(a))];
  }

  /** The async pool: the channel of idle resources and the base pool's accounting. */
  class Pool {
    /** The configured maximum number of resources. */
    const maxResources: nat
    /** The channel's capacity, fixed by initQueue. */
    var capacity: nat
    /** The channel's contents, oldest first. */
    var queue: seq<Resource>
    /** The number of resources the base pool has constructed. */
    var count: nat
    /** The base pool's record of free resources, resynchronised by buildQueue. */
    var free: nat
    /** The base pool's items, in iteration order. */
    var items: seq<PoolItem>
    /** The resources handed out and not yet pushed back. */
    ghost var lent: set<Resource>
    /** The counted resources that are neither idle nor lent. */
    ghost var dropped: nat

    ghost predicate Valid()
      reads this
    {
      capacity == maxResources && |queue| <= capacity && Accounted(State(), maxResources)
    }

    /** The accounting the step functions speak about. */
    ghost function State(): PoolState
      reads this
    {
      PoolState(queue, count, lent, dropped)
    }

    /**
     * A pool over the base pool's current count and items, with its channel just
     * initialised; the resources counted so far are not in the channel yet.
     */
    constructor (maxResources: nat, count: nat, items: seq<PoolItem>)
      requires count <= maxResources
      ensures Valid()
      ensures this.maxResources == maxResources && this.count == count && this.items == items
      ensures queue == [] && capacity == maxResources && lent == {} && dropped == count
    {
      this.maxResources := maxResources;
      this.count := count;
      this.items := items;
      free := 0;
      lent := {};
      dropped := count;
      new;
      InitQueue();
    }

    /** initQueue: a new, empty channel whose capacity is the configured maximum. */
    method InitQueue()
      modifies this`queue, this`capacity
      ensures queue == [] && capacity == maxResources
    {
      queue := [];
      capacity := maxResources;
    }

    /**
     * getFree: the number of idle resources, which is the channel's length; it is
     * what is left of the count once the lent and the dropped resources are taken off.
     */
    function GetFree(): (n: nat)
      reads this
      ensures n == |queue|
      ensures Valid() ==> n == count - |lent| - dropped && n <= maxResources
    {
      |queue|
    }

    /** The base pool's addResource, with the newly created resource supplied by the caller. */
    method AddResource(created: Resource)
      requires Valid() && count < maxResources && Fresh(State(), created)
      modifies this`queue, this`count
      ensures Valid()
      ensures State() == AddResourceStep(old(State()), created)
    {
      count := count + 1;
      queue := queue + [created];
      assert forall i :: 0 <= i < |old(queue)| ==> queue[i] == old(queue)[i];
    }

    /** getResource; `arrival` is what the timed pop sees, `probe` what checkState() and open() report. */
    method GetResource(created: Resource, arrival: Arrival, probe: Probe) returns (outcome: Acquire)
      requires Valid() && GetAdmissible(State(), maxResources, created, arrival)
      modifies this`queue, this`count, this`lent, this`dropped
      ensures Valid()
      ensures Step(State(), outcome) == GetResourceStep(old(State()), maxResources, created, arrival, probe)
    {
      GetResourceKeepsAccounts(State(), maxResources, created, arrival, probe);
      var selected: Option<Resource> := None;
      if GetFree() <= 0 {
        if count < maxResources {
          AddResource(created);
        } else {
          match arrival {
            case TimedOut =>
              return Thrown(GetResourceTimeout);
            case Arrived(resource) =>
              // its holder pushed it back, and the wait popped it at once
              lent := lent - {resource};
              selected := Some(resource);
          }
        }
      }
      var resource: Resource;
      if selected.None? {
        resource := queue[0];
        queue := queue[1..];
      } else {
        resource := selected.value;
      }
      if !probe.stateOk && !probe.openOk {
        dropped := dropped + 1;
        return Thrown(GetResourceFailed);
      }
      lent := lent + {resource};
      return Acquired(resource);
    }

    /** tryGetResource: `false` instead of waiting when nothing is idle and the pool is full. */
    method TryGetResource(created: Resource, probe: Probe) returns (outcome: Acquire)
      requires Valid() && TryAdmissible(State(), maxResources, created)
      modifies this`queue, this`count, this`lent, this`dropped
      ensures Valid()
      ensures Step(State(), outcome) == TryGetResourceStep(old(State()), maxResources, created, probe)
    {
      TryGetResourceKeepsAccounts(State(), maxResources, created, probe);
      if GetFree() <= 0 {
        if count < maxResources {
          AddResource(created);
        } else {
          return NoResource;
        }
      }
      var resource := queue[0];
      queue := queue[1..];
      if !probe.stateOk && !probe.openOk {
        dropped := dropped + 1;
        return Thrown(TryGetResourceFailed);
      }
      lent := lent + {resource};
      return Acquired(resource);
    }

    /**
     * buildQueue: empty the channel, then push the resource of every item in
     * order, and record the length as free. Called while nothing is lent, over
     * items that are distinct resources the pool has counted; the counted
     * resources that are not among them are no longer idle.
     */
    method BuildQueue()
      requires Valid() && lent == {} && |items| <= count && Distinct(Resources(items))
      modifies this`queue, this`free, this`dropped
      ensures Valid()
      ensures queue == Resources(items)
      ensures free == |queue| == |items|
      ensures dropped == count - |items|
    {
      var n := GetFree();
      var i := 0;
      while i < n
        invariant 0 <= i <= n
        invariant queue == old(queue)[i..]
      {
        queue := queue[1..];
        i := i + 1;
      }
      var j := 0;
      while j < |items|
        invariant 0 <= j <= |items|
        invariant queue == Resources(items[..j])
      {
        assert Resources(items[..j + 1]) == Resources(items[..j]) + [items[j].resource];
        queue := queue + [items[j].resource];
        j := j + 1;
      }
      assert items[..j] == items;
      free := |queue|;
      dropped := count - |items|;
    }

    /**
     * push: append one lent resource at the tail; outside a coroutine the same
     * push is deferred to a new coroutine, which sequentially is the same append.
     * The channel always has room for it.
     */
    method Push(resource: Resource)
      requires Valid() && resource in lent
      modifies this`queue, this`lent
      ensures Valid()
      ensures queue == old(queue) + [resource]
      ensures lent == old(lent) - {resource}
    {
      PushKeepsAccounts(State(), maxResources, resource);
      queue := queue + [resource];
      lent := lent - {resource};
    }
  }
}
