/**
 * The map-reduce node: starts one internal instance per element, in order and at most `limit` at a time, and takes their
 * ends in whatever order they come. The scheduler is a nondeterministic choice, what the host does a parameter.
 */
module MapReduce {
  import opened Prelude

  type State(==, !new)
  type Update(==, !new)

  datatype FaultMode = NonStrict | Strict

  datatype Event = Result(update: Update) | Failed | Refused | Cancelled

  /** What the event end of an internal instance says: its terminal event, or that there is none. */
  datatype Received = NoEvent | Sent(event: Event)

  /** How the creation of an internal instance goes, up to handing it its input. */
  datatype Creation = NoInstance | Instance(rightId: bool, takesInput: bool)

  datatype Error =
    | InvalidInitialValue(position: nat) | InstanceNotCreated(position: nat) | InstanceIdMismatch(position: nat)
    | InputRefused(position: nat) | InternalFailed(position: nat) | InternalRefused(position: nat)
    | InternalCancelled(position: nat) | InternalVanished(position: nat) | UpdateRejected(position: nat)

  datatype ElementOutcome = Done(state: State) | Faulty(error: Error)

  datatype Outcome = Reduced(list: seq<ElementOutcome>) | Stopped | Broken(error: Error) | Gone

  datatype Halt = HaltCancel | HaltDropped | HaltFault(error: Error)

  /** What the node is given: its rules and, position by position, what the internal node will do when left alone. */
  datatype Job = Job(apply: (State, Update) -> Option<State>, limit: nat, mode: FaultMode,
                     creations: seq<Creation>, ends: seq<Received>)

  /**
   * What the host does, counted in looks of the node: when it triggers the cancel token, and when it drops the instance or
   * loses a task. `World(None, None)` leaves the node alone.
   */
  datatype World = World(triggersAt: Option<nat>, dropsAt: Option<nat>)

  predicate Passed(at: Option<nat>, looks: nat) { at.Some? && at.value <= looks }

  // ----- what each position comes to by itself -----

  /** The end of one element, whatever the others do: fixed by its initial state and its own event. */
  function ElementEnd(job: Job, position: nat, state: State, received: Received): ElementOutcome {
    match received
    case NoEvent => Faulty(InternalVanished(position))
    case Sent(Failed) => Faulty(InternalFailed(position))
    case Sent(Refused) => Faulty(InternalRefused(position))
    case Sent(Cancelled) => Faulty(InternalCancelled(position))
    case Sent(Result(update)) =>
      match job.apply(state, update)
      case Some(after) => Done(after)
      case None => Faulty(UpdateRejected(position))
  }

  function CreationError(job: Job, position: nat): Option<Error>
    requires position < |job.creations|
  {
    match job.creations[position]
    case NoInstance => Some(InstanceNotCreated(position))
    case Instance(rightId, takesInput) =>
      if !rightId then Some(InstanceIdMismatch(position))
      else if !takesInput then Some(InputRefused(position))
      else None
  }

  predicate IsFor(job: Job, initial: seq<State>) {
    job.limit > 0 && |job.creations| == |job.ends| == |initial|
  }

  /** The list `reduce` is to be given. */
  ghost function Expected(job: Job, initial: seq<State>): seq<ElementOutcome>
    requires IsFor(job, initial)
  {
    seq(|initial|, p requires 0 <= p < |initial| => ElementEnd(job, p, initial[p], job.ends[p]))
  }

  /** The first position whose instance cannot be started, if any. */
  ghost predicate FirstBroken(job: Job, p: nat) {
    && p < |job.creations| && CreationError(job, p).Some?
    && forall q :: 0 <= q < p ==> CreationError(job, q).None?
  }

  ghost predicate AllStart(job: Job) { forall p :: 0 <= p < |job.creations| ==> CreationError(job, p).None? }

  /** An error that is really there: of the first creation to fail, or in strict mode of an element. */
  ghost predicate IsReal(job: Job, initial: seq<State>, error: Error)
    requires IsFor(job, initial)
  {
    && error.position < |initial|
    && (|| (FirstBroken(job, error.position) && CreationError(job, error.position) == Some(error))
        || (job.mode == Strict
            && ElementEnd(job, error.position, initial[error.position], job.ends[error.position]) == Faulty(error)))
  }

  /** How a run may end, given whether the host triggers the token or lets go of the instance at some time. */
  ghost predicate EndsAs(job: Job, initial: seq<State>, world: World, outcome: Outcome)
    requires IsFor(job, initial)
  {
    match outcome
    case Gone => world.dropsAt.Some?
    case Stopped => world.triggersAt.Some?
    case Broken(error) => world.triggersAt.Some? || IsReal(job, initial, error)
    case Reduced(list) => list == Expected(job, initial) && AllStart(job)
                          && (job.mode == Strict ==> forall o :: o in list ==> o.Done?)
  }

  /** Left alone, the lenient mode has one outcome, whatever the schedule: the list, or the first creation to fail. */
  lemma ScheduleDoesNotMatter(job: Job, initial: seq<State>, one: Outcome, other: Outcome)
    requires IsFor(job, initial) && job.mode == NonStrict
    requires EndsAs(job, initial, World(None, None), one) && EndsAs(job, initial, World(None, None), other)
    ensures one == other
    ensures one.Reduced? <==> AllStart(job)
  {
    if one.Broken? && other.Broken? {
      var p, q := one.error.position, other.error.position;
      assert FirstBroken(job, p) && FirstBroken(job, q);
      assert p == q;
    }
  }

  /** Left alone, the strict mode reaches `reduce` under every schedule or under none, and then with one list. */
  lemma StrictReducesTheSame(job: Job, initial: seq<State>, one: Outcome, other: Outcome)
    requires IsFor(job, initial) && job.mode == Strict
    requires EndsAs(job, initial, World(None, None), one) && EndsAs(job, initial, World(None, None), other)
    ensures one.Reduced? ==> one == other
    ensures one.Reduced? <==> AllStart(job) && forall o :: o in Expected(job, initial) ==> o.Done?
  {
    var list := Expected(job, initial);
    if one.Broken? && AllStart(job) {
      assert list[one.error.position] == Faulty(one.error) && list[one.error.position] in list;
    }
    if other.Broken? && AllStart(job) {
      assert list[other.error.position] == Faulty(other.error) && list[other.error.position] in list;
    }
  }

  // ----- the same in terms of what the internal nodes did -----

  /** The internal instance ended with a result, and its update takes its initial state to `after`. */
  ghost predicate Delivers(job: Job, initial: seq<State>, p: nat, after: State)
    requires IsFor(job, initial) && p < |initial|
  {
    && job.ends[p].Sent? && job.ends[p].event.Result?
    && job.apply(initial[p], job.ends[p].event.update) == Some(after)
  }

  /** The internal instance ended with a result whose update its initial state refuses. */
  ghost predicate Rejects(job: Job, initial: seq<State>, p: nat)
    requires IsFor(job, initial) && p < |initial|
  {
    && job.ends[p].Sent? && job.ends[p].event.Result?
    && job.apply(initial[p], job.ends[p].event.update).None?
  }

  /** Each element of the list says how its own internal instance ended. */
  ghost predicate Tells(job: Job, initial: seq<State>, list: seq<ElementOutcome>)
    requires IsFor(job, initial)
  {
    |list| == |initial|
    && forall p :: 0 <= p < |list| ==>
                     && (forall after :: list[p] == Done(after) <==> Delivers(job, initial, p, after))
                     && (list[p] == Faulty(UpdateRejected(p)) <==> Rejects(job, initial, p))
                     && (list[p] == Faulty(InternalFailed(p)) <==> job.ends[p] == Sent(Failed))
                     && (list[p] == Faulty(InternalRefused(p)) <==> job.ends[p] == Sent(Refused))
                     && (list[p] == Faulty(InternalCancelled(p)) <==> job.ends[p] == Sent(Cancelled))
                     && (list[p] == Faulty(InternalVanished(p)) <==> job.ends[p] == NoEvent)
  }

  /** The position and the cause that an error names are those of an internal instance. */
  ghost predicate Blames(job: Job, initial: seq<State>, error: Error)
    requires IsFor(job, initial)
  {
    var p := error.position;
    && p < |initial|
    && match error
       case InvalidInitialValue(_) => false
       case InstanceNotCreated(_) => job.creations[p] == NoInstance
       case InstanceIdMismatch(_) => job.creations[p].Instance? && !job.creations[p].rightId
       case InputRefused(_) => job.creations[p] == Instance(true, false)
       case InternalFailed(_) => job.mode == Strict && job.ends[p] == Sent(Failed)
       case InternalRefused(_) => job.mode == Strict && job.ends[p] == Sent(Refused)
       case InternalCancelled(_) => job.mode == Strict && job.ends[p] == Sent(Cancelled)
       case InternalVanished(_) => job.mode == Strict && job.ends[p] == NoEvent
       case UpdateRejected(_) => job.mode == Strict && Rejects(job, initial, p)
  }

  predicate IsCreationError(error: Error) {
    error.InstanceNotCreated? || error.InstanceIdMismatch? || error.InputRefused?
  }

  /** What a run that is left alone says about its elements, from their creations, their ends and their states alone. */
  ghost predicate Reports(job: Job, initial: seq<State>, outcome: Outcome)
    requires IsFor(job, initial)
  {
    match outcome
    case Reduced(list) =>
      && Tells(job, initial, list) && (forall creation :: creation in job.creations ==> creation == Instance(true, true))
      && (job.mode == Strict ==>
            forall p :: 0 <= p < |list| ==> list[p].Done? && Delivers(job, initial, p, list[p].state))
    case Broken(error) =>
      && Blames(job, initial, error)
      && (IsCreationError(error) ==> forall q :: 0 <= q < error.position ==> job.creations[q] == Instance(true, true))
    case _ => false
  }

  lemma ExpectedTells(job: Job, initial: seq<State>)
    requires IsFor(job, initial)
    ensures Tells(job, initial, Expected(job, initial))
  {
    var list := Expected(job, initial);
    forall p | 0 <= p < |list| ensures list[p] == ElementEnd(job, p, initial[p], job.ends[p]) { }
  }

  lemma StartsMeans(job: Job, p: nat)
    requires p < |job.creations|
    ensures CreationError(job, p).None? <==> job.creations[p] == Instance(true, true)
  {
  }

  lemma LeftAloneReports(job: Job, initial: seq<State>, outcome: Outcome)
    requires IsFor(job, initial) && EndsAs(job, initial, World(None, None), outcome)
    ensures Reports(job, initial, outcome)
  {
    match outcome
    case Reduced(list) =>
      ExpectedTells(job, initial);
      forall p | 0 <= p < |job.creations| ensures job.creations[p] == Instance(true, true) { StartsMeans(job, p); }
      forall p | job.mode == Strict && 0 <= p < |list| ensures list[p].Done? && Delivers(job, initial, p, list[p].state) {
        assert list[p] in list && list[p] == Done(list[p].state);
      }
    case Broken(error) =>
      forall q | IsCreationError(error) && 0 <= q < error.position ensures job.creations[q] == Instance(true, true) {
        StartsMeans(job, q);
      }
    case _ =>
  }

  function StatesOf(made: seq<Option<State>>): seq<State>
    requires forall p :: 0 <= p < |made| ==> made[p].Some?
  {
    seq(|made|, p requires 0 <= p < |made| => made[p].value)
  }

  /** The initial states, or the first of them that cannot be made. */
  method InitialStates(made: seq<Option<State>>) returns (states: Prelude.Result<seq<State>, Error>)
    ensures states.Ok? ==> |states.value| == |made| && forall p :: 0 <= p < |made| ==> made[p] == Some(states.value[p])
    ensures states.Err? ==>
              exists p: nat :: p < |made| && states.error == InvalidInitialValue(p) && made[p].None?
                               && forall q :: 0 <= q < p ==> made[q].Some?
  {
    var list := [];
    for p := 0 to |made|
      invariant |list| == p && forall q :: 0 <= q < p ==> made[q] == Some(list[q])
    {
      match made[p]
      case Some(state) => list := list + [state];
      case None => return Err(InvalidInitialValue(p));
    }
    states := Ok(list);
  }

  class Work {
    const job: Job
    var states: seq<State>
    var failures: seq<Option<Error>>
    var children: set<nat>
    var next: nat
    const world: World
    /** How often the node has looked, and whether a look saw the token triggered or the instance dropped or a task lost. */
    var looks: nat
    var triggered: bool
    var dropped: bool
    ghost const initial: seq<State>
    ghost var started: seq<nat>

    constructor (job: Job, states: seq<State>, world: World)
      requires IsFor(job, states)
      ensures this.job == job && this.world == world && initial == states && Valid() && next == 0 && !triggered && !dropped
      ensures started == []
    {
      this.job, this.states, failures, this.world := job, states, seq(|states|, _ => None), world;
      children, next, looks, triggered, dropped := {}, 0, 0, false, false;
      initial, started := states, [];
    }

    /** What is stored for a position: its initial state until its end has come, then the outcome of that end. */
    ghost predicate Stored(p: nat)
      requires IsFor(job, initial) && p < |initial| && |states| == |failures| == |initial|
      reads this`states, this`failures, this`children, this`next
    {
      if p >= next || p in children then states[p] == initial[p] && failures[p] == None
      else match ElementEnd(job, p, initial[p], job.ends[p])
           case Done(state) => states[p] == state && failures[p] == None
           case Faulty(error) => failures[p] == Some(error) && job.mode == NonStrict
    }

    /** What a look saw, the host has done. */
    ghost predicate Honest()
      reads this`looks, this`triggered, this`dropped, this`looks
    {
      (triggered ==> Passed(world.triggersAt, looks)) && (dropped ==> Passed(world.dropsAt, looks))
    }

    ghost predicate Valid()
      reads this`states, this`failures, this`children, this`next, this`triggered, this`started, this`looks, this`dropped
    {
      && Honest()
      && IsFor(job, initial) && |states| == |failures| == |initial|
      && next <= |initial| && (forall p :: p in children ==> p < next)
      && |children| <= job.limit
      && started == seq(next, p => p)
      && (!triggered ==> forall p :: 0 <= p < next ==> CreationError(job, p).None?)
      && (!triggered ==> forall p :: 0 <= p < |initial| ==> Stored(p))
    }

    /** Looks at the token; nobody takes a trigger back. */
    method Look() returns (now: bool)
      requires Honest()
      modifies this`triggered, this`looks
      ensures Honest() && looks == old(looks) + 1 && now == triggered && (old(triggered) ==> triggered)
      ensures now <==> Passed(world.triggersAt, looks)
    {
      looks := looks + 1;
      triggered := Passed(world.triggersAt, looks);
      now := triggered;
    }

    method IsTriggered() returns (now: bool)
      requires Valid()
      modifies this`triggered, this`looks
      ensures Valid() && now == triggered && (old(triggered) ==> triggered)
      ensures now <==> Passed(world.triggersAt, looks)
    {
      now := Look();
    }

    method IsDropped() returns (now: bool)
      requires Honest()
      modifies this`dropped, this`looks
      ensures Honest() && looks == old(looks) + 1 && now == dropped && (old(dropped) ==> dropped)
      ensures now <==> Passed(world.dropsAt, looks)
    {
      looks := looks + 1;
      dropped := Passed(world.dropsAt, looks);
      now := dropped;
    }

    /** Whatever the run is halted for, it is so. */
    ghost predicate Justified(halt: Option<Halt>)
      requires IsFor(job, initial)
      reads this
    {
      match halt
      case None => true
      case Some(HaltCancel) => triggered
      case Some(HaltDropped) => dropped
      case Some(HaltFault(error)) => !triggered ==> IsReal(job, initial, error)
    }

    method ElementEnded(position: nat, received: Received) returns (halt: Option<Halt>)
      requires position < |states| && |states| == |failures| && Honest()
      modifies this`states, this`triggered, this`looks
      ensures Honest() && (old(triggered) ==> triggered)
      ensures var end := ElementEnd(job, position, old(states)[position], received);
              if received == Sent(Cancelled) && triggered then halt == Some(HaltCancel) && states == old(states)
              else match end
                   case Done(state) => halt == None && states == old(states)[position := state]
                   case Faulty(error) => halt == Some(HaltFault(error)) && states == old(states)
    {
      match received {
        case Sent(Result(update)) =>
          match job.apply(states[position], update) {
            case Some(state) =>
              states := states[position := state];
              halt := None;
            case None => halt := Some(HaltFault(UpdateRejected(position)));
          }
        case Sent(Failed) => halt := Some(HaltFault(InternalFailed(position)));
        case Sent(Refused) => halt := Some(HaltFault(InternalRefused(position)));
        case Sent(Cancelled) =>
          var now := Look();
          halt := Some(if now then HaltCancel else HaltFault(InternalCancelled(position)));
        case NoEvent => halt := Some(HaltFault(InternalVanished(position)));
      }
    }

    /** Takes the end of a finished child; in the lenient mode a fault is kept with its element instead of halting. */
    method Receive(position: nat) returns (halt: Option<Halt>)
      requires Valid() && position in children
      modifies this`states, this`failures, this`children, this`triggered, this`looks
      ensures IsFor(job, initial) && Honest() && Justified(halt) && (old(triggered) ==> triggered)
      ensures halt.None? ==> Valid()
      ensures children == old(children) - {position}
    {
      var now := IsTriggered();
      var received: Received := *;
      if !now {
        received := job.ends[position];
      }
      assert !triggered ==> Stored(position);
      children := children - {position};
      halt := ElementEnded(position, received);
      if halt.Some? && halt.value.HaltFault? && job.mode == NonStrict {
        failures := failures[position := Some(halt.value.error)];
        halt := None;
      }
      forall p | halt.None? && !triggered && 0 <= p < |initial| ensures Stored(p) {
        assert old(Stored(p));
      }
    }

    /** Waits until some child ends; which one is up to the scheduler. */
    method Join() returns (halt: Option<Halt>)
      requires Valid() && children != {}
      modifies this`states, this`failures, this`children, this`triggered, this`dropped, this`looks
      ensures IsFor(job, initial) && Honest() && Justified(halt)
      ensures old(triggered) ==> triggered
      ensures old(dropped) ==> dropped
      ensures halt.None? ==> Valid() && |children| < |old(children)|
    {
      var lost := IsDropped();
      if lost {
        return Some(HaltDropped);
      }
      var position :| position in children;
      halt := Receive(position);
    }

    /** What a `select!` looks at first: the drop of the instance, then the cancel signal. */
    method Signalled() returns (halt: Option<Halt>)
      requires Valid()
      modifies this`triggered, this`dropped, this`looks
      ensures Valid() && Justified(halt)
      ensures old(triggered) ==> triggered
      ensures old(dropped) ==> dropped
    {
      var gone := IsDropped();
      if gone {
        return Some(HaltDropped);
      }
      var cancelled := IsTriggered();
      halt := if cancelled then Some(HaltCancel) else None;
    }

    /** Starts the next element. Ends of earlier ones may come while its instance is being created. */
    method Start() returns (halt: Option<Halt>)
      requires Valid() && next < |states| && |children| < job.limit
      modifies this`states, this`failures, this`children, this`next, this`triggered, this`dropped, this`looks, this`started
      ensures IsFor(job, initial) && Honest() && Justified(halt)
      ensures old(triggered) ==> triggered
      ensures old(dropped) ==> dropped
      ensures halt.None? ==> Valid() && next == old(next) + 1 && |children| <= |old(children)| + 1
    {
      var created := false;
      while !created
        invariant Valid() && next == old(next) && |children| <= |old(children)|
        invariant old(triggered) ==> triggered
        invariant old(dropped) ==> dropped
        decreases !created, |children|
      {
        halt := Signalled();
        if halt.Some? {
          return;
        }
        var ended: bool := *;
        if ended && children != {} {
          halt := Join();
          if halt.Some? {
            return;
          }
        } else {
          created := true;
        }
      }
      halt := Launch();
    }

    method Launch() returns (halt: Option<Halt>)
      requires Valid() && next < |states| && |children| < job.limit
      modifies this`children, this`next, this`triggered, this`looks, this`started
      ensures IsFor(job, initial) && Honest() && Justified(halt)
      ensures old(triggered) ==> triggered
      ensures halt.None? ==> Valid() && next == old(next) + 1 && |children| <= |old(children)| + 1
      ensures halt.Some? ==> halt.value.HaltFault?
    {
      var now := IsTriggered();
      var creation: Creation := *;
      if !now {
        creation := job.creations[next];
      }
      match creation {
        case NoInstance => return Some(HaltFault(InstanceNotCreated(next)));
        case Instance(rightId, takesInput) =>
          if !rightId {
            return Some(HaltFault(InstanceIdMismatch(next)));
          }
          if !takesInput {
            return Some(HaltFault(InputRefused(next)));
          }
      }
      NoteStarted();
      halt := None;
    }

    /** The next element has its instance: it is live from now on. */
    method NoteStarted()
      requires Valid() && next < |states| && |children| < job.limit && (!triggered ==> CreationError(job, next).None?)
      modifies this`children, this`next, this`started
      ensures Valid() && next == old(next) + 1 && |children| <= |old(children)| + 1
    {
      ghost var before := next;
      started := started + [next];
      children, next := children + {next}, next + 1;
      forall p | !triggered && 0 <= p < |initial| ensures Stored(p) {
        assert old(Stored(p));
        assert p == before || (p in children <==> p in old(children));
      }
      assert started == seq(next, p => p);
    }

    method StartAvailable() returns (halt: Option<Halt>)
      requires Valid()
      modifies this`states, this`failures, this`children, this`next, this`triggered, this`dropped, this`looks, this`started
      ensures IsFor(job, initial) && Honest() && Justified(halt)
      ensures old(triggered) ==> triggered
      ensures old(dropped) ==> dropped
      ensures halt.None? ==>
                && Valid() && (next == |states| || |children| == job.limit)
                && 2 * next - |children| >= old(2 * next - |children|)
    {
      while next < |states| && |children| < job.limit
        invariant Valid() && 2 * next - |children| >= old(2 * next - |children|)
        invariant old(triggered) ==> triggered
        invariant old(dropped) ==> dropped
        decreases |states| - next
      {
        var now := IsTriggered();
        if now {
          return Some(HaltCancel);
        }
        halt := Start();
        if halt.Some? {
          return;
        }
      }
      halt := None;
    }

    /** Everything has ended: hands the outcomes, one per element and in the order of the elements, to `reduce`. */
    method Finish() returns (outcome: Outcome)
      requires Valid() && next == |states| && children == {}
      modifies this`triggered, this`looks
      ensures Honest() && (old(triggered) ==> triggered) && (outcome.Reduced? ==> !Passed(world.triggersAt, looks))
      ensures if triggered then outcome == Stopped else outcome == Reduced(Expected(job, initial)) && AllStart(job)
      ensures outcome.Reduced? && job.mode == Strict ==> forall o :: o in outcome.list ==> o.Done?
    {
      var now := IsTriggered();
      if now {
        return Stopped;
      }
      var list := [];
      for p := 0 to |states|
        invariant |list| == p && list == Expected(job, initial)[..p]
        invariant job.mode == Strict ==> forall o :: o in list ==> o.Done?
      {
        assert Stored(p);
        list := list + [if failures[p].Some? then Faulty(failures[p].value) else Done(states[p])];
      }
      assert list == Expected(job, initial);
      outcome := Reduced(list);
    }

    /** Starts and waits in turn until every element has ended or something halts the run. */
    method Complete() returns (result: Prelude.Result<Outcome, Halt>)
      requires Valid()
      modifies this
      ensures old(triggered) ==> triggered
      ensures old(dropped) ==> dropped
      ensures Honest() && (result.Err? ==> Justified(Some(result.error)))
      ensures result.Ok? && result.value.Reduced? ==> !Passed(world.triggersAt, looks)
      ensures result.Ok? ==>
                if triggered then result.value == Stopped
                else result.value == Reduced(Expected(job, initial)) && AllStart(job)
      ensures result.Ok? && result.value.Reduced? && job.mode == Strict ==> forall o :: o in result.value.list ==> o.Done?
    {
      while true
        invariant Valid()
        invariant old(triggered) ==> triggered
        invariant old(dropped) ==> dropped
        decreases 2 * |initial| - 2 * next + |children|
      {
        var halt := StartAvailable();
        if halt.Some? {
          return Err(halt.value);
        }
        if children == {} {
          var outcome := Finish();
          return Ok(outcome);
        }
        halt := Signalled();
        if halt.Some? {
          return Err(halt.value);
        }
        halt := Join();
        if halt.Some? {
          return Err(halt.value);
        }
      }
    }

    /** A fault ends the run: triggers the children's token and ends them all. */
    method StopFailed(error: Error) returns (outcome: Outcome)
      modifies this`children
      ensures outcome == Broken(error) && children == {}
    {
      children := {};
      outcome := Broken(error);
    }

    /** A cancel waits for the children to end, whatever they say, unless the instance is dropped meanwhile. */
    method StopCancelled() returns (outcome: Outcome)
      requires Honest()
      modifies this`children, this`dropped, this`looks
      ensures Honest() && (old(dropped) ==> dropped)
      ensures if dropped then outcome == Gone else outcome == Stopped && children == {}
    {
      while true
        invariant Honest() && (old(dropped) ==> dropped)
        decreases |children|
      {
        var gone := IsDropped();
        if gone {
          return Gone;
        }
        if children == {} {
          return Stopped;
        }
        var position :| position in children;
        children := children - {position};
      }
    }

    method Drive() returns (outcome: Outcome)
      requires Valid() && !triggered && !dropped
      modifies this
      ensures EndsAs(job, initial, world, outcome)
      ensures world.triggersAt == Some(0) ==> !outcome.Reduced?
    {
      var result := Complete();
      match result {
        case Ok(ended) => outcome := ended;
        case Err(HaltDropped) => outcome := Gone;
        case Err(HaltCancel) => outcome := StopCancelled();
        case Err(HaltFault(error)) => outcome := StopFailed(error);
      }
    }
  }

  /** The whole node: makes the initial states and runs them. */
  method Run(made: seq<Option<State>>, job: Job, world: World) returns (outcome: Outcome)
    requires job.limit > 0 && |job.creations| == |job.ends| == |made|
    ensures (forall p :: 0 <= p < |made| ==> made[p].Some?) ==>
              && EndsAs(job, StatesOf(made), world, outcome)
              && (world == World(None, None) ==> Reports(job, StatesOf(made), outcome))
              && (world.triggersAt == Some(0) ==> !outcome.Reduced?)
    ensures (exists p :: 0 <= p < |made| && made[p].None?) ==>
              exists p: nat :: p < |made| && outcome == Broken(InvalidInitialValue(p)) && made[p].None?
                               && forall q :: 0 <= q < p ==> made[q].Some?
  {
    var states := InitialStates(made);
    if states.Err? {
      outcome := Broken(states.error);
      return;
    }
    assert states.value == StatesOf(made);
    var work := new Work(job, states.value, world);
    outcome := work.Drive();
    if world == World(None, None) { LeftAloneReports(job, states.value, outcome); }
  }
}
