/**
 * The worker of an agent run: model calls with fallback, steps, passes, inbox drains and the counters. What models, tools,
 * the store and the inbox answer is a parameter; the journal records what the worker did.
 */
module AgentWorker {
  import opened Prelude

  const MAX := 0xFFFF_FFFF

  /** Addition that stays at the largest 32-bit number. */
  function SaturatingInc(n: nat): nat { if n >= MAX then MAX else n + 1 }

  datatype Fault =
    | NoClientLeft | ModelFailed | Fatal | BlankReason | RefusedByProgram | CriticAtStepLimit | CriticAtRoundLimit

  datatype PassEnd = Final | StepLimit

  /** The limits of a run; a node without a programmatic critic has no refusal limit. */
  datatype Limits = Limits(steps: nat, rounds: nat, refusals: Option<nat>)

  predicate LimitsOk(limits: Limits) {
    && 0 < limits.steps <= MAX && 0 < limits.rounds <= MAX
    && (limits.refusals.Some? ==> 0 < limits.refusals.value <= MAX)
  }

  datatype Act =
    | PassStarted(last: bool, position: nat) | Called | Stepped | Drained(stored: nat, request: bool)
    | Accepted | Refused | Asked(valid: bool, at: nat)

  /** What a journal adds up to. `rounds` and `refusals` count since the last drain that stored a request. */
  datatype Tally = Tally(steps: nat, calls: nat, passes: nat, rounds: nat, refusals: nat,
                         last: bool, position: nat, answer: Option<bool>)

  function Count(tally: Tally, act: Act): Tally {
    match act
    case PassStarted(last, position) => tally.(passes := tally.passes + 1, last := last, position := position)
    case Called => tally.(calls := tally.calls + 1)
    case Stepped => tally.(steps := tally.steps + 1)
    case Drained(stored, request) => if request then tally.(rounds := 0, refusals := 0) else tally
    case Accepted => tally.(refusals := 0)
    case Refused => tally.(refusals := tally.refusals + 1)
    case Asked(valid, at) => tally.(rounds := tally.rounds + if valid then 0 else 1, answer := Some(valid))
  }

  function Sum(journal: seq<Act>): Tally {
    if journal == [] then Tally(0, 0, 0, 0, 0, false, 0, None)
    else Count(Sum(journal[..|journal| - 1]), journal[|journal| - 1])
  }

  /** What may be done when: the rules that keep the loops bounded. */
  predicate Fair(limits: Limits, tally: Tally, act: Act) {
    match act
    case PassStarted(last, position) =>
      && tally.steps < limits.steps && (last || tally.rounds < limits.rounds)
      && (limits.refusals.Some? ==> tally.refusals < limits.refusals.value)
      && (position == tally.rounds || position == tally.position)
    case Stepped => tally.steps < limits.steps
    case Asked(valid, at) => !tally.last && tally.rounds < limits.rounds && at == tally.position
    case Drained(stored, request) => request ==> stored > 0
    case Refused => limits.refusals.Some? && tally.refusals < limits.refusals.value
    case _ => true
  }

  predicate Lawful(limits: Limits, journal: seq<Act>) {
    journal == [] ||
    (var front := journal[..|journal| - 1];
     Lawful(limits, front) && Fair(limits, Sum(front), journal[|journal| - 1]))
  }

  lemma OneMore(limits: Limits, journal: seq<Act>, act: Act)
    ensures Sum(journal + [act]) == Count(Sum(journal), act)
    ensures Lawful(limits, journal + [act]) <==> Lawful(limits, journal) && Fair(limits, Sum(journal), act)
  {
    assert (journal + [act])[..|journal + [act]| - 1] == journal;
  }

  /** A lawful journal was fair at every point. */
  lemma {:induction false} LawfulThroughout(limits: Limits, journal: seq<Act>, k: nat)
    requires Lawful(limits, journal) && k < |journal|
    ensures Lawful(limits, journal[..k]) && Fair(limits, Sum(journal[..k]), journal[k])
  {
    var front := journal[..|journal| - 1];
    if k < |front| {
      LawfulThroughout(limits, front, k);
      assert front[..k] == journal[..k];
    }
  }

  /**
   * At every point of a lawful journal the steps stay within the limit, the critic has rejected at most `rounds` times
   * since the last drain that stored a request, and the program has refused at most `refusals` times in a row.
   */
  lemma {:induction false} LawfulIsBounded(limits: Limits, journal: seq<Act>)
    requires Lawful(limits, journal)
    ensures Sum(journal).steps <= limits.steps && Sum(journal).rounds <= limits.rounds
    ensures limits.refusals.Some? ==> Sum(journal).refusals <= limits.refusals.value
    ensures limits.refusals.None? ==> Sum(journal).refusals == 0
  {
    if journal != [] { LawfulIsBounded(limits, journal[..|journal| - 1]); }
  }

  function Rejections(acts: seq<Act>): nat {
    if acts == [] then 0
    else Rejections(acts[..|acts| - 1]) + if acts[|acts| - 1].Asked? && !acts[|acts| - 1].valid then 1 else 0
  }

  lemma {:induction false} RejectionsAreRounds(limits: Limits, before: seq<Act>, acts: seq<Act>)
    requires Lawful(limits, before + acts) && forall act :: act in acts ==> !(act.Drained? && act.request)
    ensures Sum(before + acts).rounds == Sum(before).rounds + Rejections(acts)
  {
    if acts == [] {
      assert before + acts == before;
    } else {
      var front, act := acts[..|acts| - 1], acts[|acts| - 1];
      assert before + acts == (before + front) + [act] && act in acts;
      OneMore(limits, before + front, act);
      RejectionsAreRounds(limits, before, front);
    }
  }

  /** Wherever a stretch of a lawful journal stores no request, the critic rejects at most `rounds` times in it. */
  lemma RejectionsAreLimited(limits: Limits, journal: seq<Act>, i: nat, j: nat)
    requires Lawful(limits, journal) && i <= j <= |journal|
    requires forall act :: act in journal[i..j] ==> !(act.Drained? && act.request)
    ensures Rejections(journal[i..j]) <= limits.rounds
  {
    assert journal[..i] + journal[i..j] == journal[..j];
    if j < |journal| {
      LawfulThroughout(limits, journal, j);
    } else {
      assert journal[..j] == journal;
    }
    RejectionsAreRounds(limits, journal[..i], journal[i..j]);
    LawfulIsBounded(limits, journal[..j]);
  }

  /** A fallback list of `length` clients and, once a call has succeeded, the client that answered. */
  class Slot {
    const length: nat
    var settled: Option<nat>

    constructor (length: nat)
      ensures this.length == length && settled == None
    {
      this.length, settled := length, None;
    }

    predicate Valid()
      reads this
    {
      0 < length && (settled.Some? ==> settled.value < length)
    }

    function Candidate(tried: nat): Option<nat>
      reads this
    {
      var index := if settled.Some? then (if tried == 0 then settled else None) else Some(tried);
      if index.Some? && index.value < length then index else None
    }

    predicate MaySwitch(tried: nat)
      reads this
    {
      settled.None? && tried + 1 < length
    }

    /** How many calls the next successful drive may still add to the one it needs. */
    function Spare(): nat
      reads this
    {
      if settled.Some? || length == 0 then 0 else length - 1
    }
  }

  datatype AttemptEnd = Answered | FailedFatally | FailedOnce

  /**
   * What a step leaves: nothing usable or a turn that cannot be closed, a final response, tool calls up to a boundary or
   * not, or neither.
   */
  datatype StepEnd = Unusable | FinalResponse | ToolCalls(fails: bool, boundary: bool) | Unfinished

  datatype Arrival = Unread | Arrived(stored: nat, request: bool)

  /** What the world answers, each by the length of the journal when it is asked. */
  datatype World = World(attempt: nat -> AttemptEnd, keeps: nat -> bool, leaves: nat -> StepEnd, inbox: nat -> Arrival)

  /** What a drain notes of what it finds: no request without an item. */
  function DrainOf(arrival: Arrival): Option<Act> {
    match arrival
    case Unread => None
    case Arrived(stored, request) => Some(Drained(stored, request && stored > 0))
  }

  /** From `n` on the journal holds calls only. */
  predicate CallsFrom(journal: seq<Act>, n: nat) { forall k :: n <= k < |journal| ==> journal[k] == Called }

  /** The calls noted from `n` up to `m` all failed, to be tried again. */
  predicate FailedFrom(world: World, n: nat, m: nat) { forall k: nat :: n <= k < m ==> world.attempt(k) == FailedOnce }

  /** From `n` on the journal holds the calls of one step and, if it counts, the step. */
  predicate StepIn(journal: seq<Act>, n: nat, counts: bool) {
    var end := if counts then |journal| - 1 else |journal|;
    n < end && CallsFrom(journal[..end], n) && (counts ==> journal[end] == Stepped)
  }

  /** Where the last call of the step at the end of the journal is. */
  function CallsEnd(journal: seq<Act>, counts: bool): nat
    requires |journal| >= if counts then 2 else 1
  {
    if counts then |journal| - 2 else |journal| - 1
  }

  predicate EndsWith(world: World, journal: seq<Act>, left: StepEnd) {
    journal != [] && journal[|journal| - 1].Stepped? && world.leaves(|journal| - 1) == left
  }

  predicate EndsWithTools(world: World, journal: seq<Act>) {
    journal != [] && journal[|journal| - 1].Stepped? && world.leaves(|journal| - 1).ToolCalls?
  }

  /** What a pass holds at `k`: a call, a step that is not the final response unless it is the last, or a drain. */
  predicate PassAt(world: World, journal: seq<Act>, n: nat, k: nat)
    requires k < |journal|
  {
    match journal[k]
    case Called => true
    case Stepped =>
      k + 1 < |journal| ==>
        world.leaves(k) != FinalResponse && (world.leaves(k) == ToolCalls(false, true) ==> journal[k + 1].Drained?)
    case Drained(_, _) => k > n && journal[k - 1].Stepped? && world.leaves(k - 1) == ToolCalls(false, true)
    case _ => false
  }

  /**
   * From `n` on the journal holds a pass: it goes on after each step that is not the final response, and drains the inbox
   * after exactly those steps whose tools ran to a boundary.
   */
  predicate IsPass(world: World, journal: seq<Act>, n: nat) {
    forall k: nat :: n <= k < |journal| ==> PassAt(world, journal, n, k)
  }

  /** The last call failed, and how. */
  predicate CallFails(world: World, journal: seq<Act>, fault: Fault) {
    journal != [] &&
    match world.attempt(|journal| - 1)
    case Answered => false
    case FailedFatally => fault == Fatal
    case FailedOnce => fault == ModelFailed
  }

  /** What a pass that breaks off has met: a call, the store, the response, its tools or the inbox failed. */
  predicate BreaksOff(world: World, journal: seq<Act>, hasInbox: bool, stepsLeft: bool, fault: Fault) {
    journal != [] &&
    match journal[|journal| - 1]
    case Called =>
      || CallFails(world, journal, fault)
      || (world.attempt(|journal| - 1).Answered? && !world.keeps(|journal|) && fault == Fatal)
    case Stepped =>
      fault == Fatal &&
      (match world.leaves(|journal| - 1)
       case Unusable => true
       case ToolCalls(fails, boundary) =>
         stepsLeft && (fails || (boundary && hasInbox && world.inbox(|journal|).Unread?))
       case _ => false)
    case _ => false
  }

  /** A pass that has another step to make: its last step asked for neither an end nor a drain. */
  predicate GoesOn(world: World, journal: seq<Act>, n: nat) {
    |journal| > n ==> !EndsWith(world, journal, FinalResponse) && !EndsWith(world, journal, ToolCalls(false, true))
  }

  /** One step more, after one that asked for no drain, is still a pass. */
  lemma StepGoesOn(world: World, before: seq<Act>, journal: seq<Act>, n: nat, counts: bool)
    requires n <= |before| && before <= journal && IsPass(world, before, n) && GoesOn(world, before, n)
    requires StepIn(journal, |before|, counts)
    ensures IsPass(world, journal, n)
  {
    forall k: nat | n <= k < |journal| ensures PassAt(world, journal, n, k) {
      if k < |before| { assert PassAt(world, before, n, k) && journal[k] == before[k]; }
    }
  }

  lemma DrainGoesOn(world: World, before: seq<Act>, drained: Act, n: nat)
    requires n < |before| && IsPass(world, before, n) && EndsWith(world, before, ToolCalls(false, true)) && drained.Drained?
    ensures IsPass(world, before + [drained], n)
  {
    forall k: nat | n <= k < |before + [drained]| ensures PassAt(world, before + [drained], n, k) {
      if k < |before| { assert PassAt(world, before, n, k); }
    }
  }

  /** What acts within a pass leave of a tally. */
  predicate WithinPass(before: Tally, after: Tally) {
    && before.steps <= after.steps && before.passes == after.passes
    && before.last == after.last && before.position == after.position && before.answer == after.answer
    && ((after.rounds == before.rounds && after.refusals == before.refusals) || (after.rounds == 0 && after.refusals == 0))
  }

  class Worker {
    const limits: Limits
    const hasInbox: bool
    const world: World
    var made: nat
    var rounds: nat
    var refusals: nat
    var journal: seq<Act>

    constructor (limits: Limits, hasInbox: bool, world: World)
      requires LimitsOk(limits)
      ensures this.limits == limits && this.hasInbox == hasInbox && this.world == world && Valid()
      ensures journal == [] && made == rounds == refusals == 0
    {
      this.limits, this.hasInbox, this.world := limits, hasInbox, world;
      made, rounds, refusals, journal := 0, 0, 0, [];
    }

    /** The counters are what the journal adds up to, and the journal is lawful. */
    ghost predicate Valid()
      reads this
    {
      && LimitsOk(limits) && Lawful(limits, journal)
      && made == Sum(journal).steps && rounds == Sum(journal).rounds && refusals == Sum(journal).refusals
      && made <= limits.steps && rounds <= limits.rounds
      && (limits.refusals.Some? ==> refusals <= limits.refusals.value)
    }

    function StepsRemaining(): nat
      reads this
    {
      if limits.steps <= made then 0 else limits.steps - made
    }

    method Note(act: Act)
      requires Lawful(limits, journal) && Fair(limits, Sum(journal), act)
      modifies this`journal
      ensures journal == old(journal) + [act]
      ensures Lawful(limits, journal) && Sum(journal) == Count(Sum(old(journal)), act)
    {
      OneMore(limits, journal, act);
      journal := journal + [act];
    }

    /** One call. */
    method Call() returns (attempt: AttemptEnd)
      requires Valid()
      modifies this`journal
      ensures Valid() && journal == old(journal) + [Called] && attempt == world.attempt(|old(journal)|)
      ensures Sum(journal) == Sum(old(journal)).(calls := Sum(old(journal)).calls + 1)
    {
      attempt := world.attempt(|journal|);
      Note(Called);
    }

    /** Calls the candidate that is next, and says how it ends unless there is another to try. */
    method TryOne(slot: Slot, tried: nat) returns (end: Option<Result<(), Fault>>)
      requires Valid() && slot.Valid() && (tried == 0 || (slot.settled.None? && tried < slot.length))
      modifies this`journal, slot
      ensures Valid() && slot.Valid() && journal == old(journal) + [Called]
      ensures Sum(journal) == Sum(old(journal)).(calls := Sum(old(journal)).calls + 1)
      ensures match world.attempt(|old(journal)|)
              case Answered =>
                end == Some(Ok(())) && slot.settled == if old(slot.settled).Some? then old(slot.settled) else Some(tried)
              case FailedFatally => end == Some(Err(Fatal)) && slot.settled == old(slot.settled)
              case FailedOnce =>
                && slot.settled == old(slot.settled)
                && end == if slot.settled.None? && tried + 1 < slot.length then None else Some(Err(ModelFailed))
    {
      var candidate := slot.Candidate(tried);
      if candidate.None? {
        return Some(Err(NoClientLeft));
      }
      var attempt := Call();
      match attempt {
        case Answered =>
          slot.settled := candidate;
          end := Some(Ok(()));
        case FailedFatally => end := Some(Err(Fatal));
        case FailedOnce => end := if slot.MaySwitch(tried) then None else Some(Err(ModelFailed));
      }
    }

    /** Calls the clients of the slot in turn until one answers, a fault is final or the list is exhausted. */
    method Drive(slot: Slot) returns (result: Result<(), Fault>)
      requires Valid() && slot.Valid()
      modifies this`journal, slot
      ensures Valid() && slot.Valid()
      ensures old(journal) < journal && CallsFrom(journal, |old(journal)|)
      ensures FailedFrom(world, |old(journal)|, |journal| - 1)
      ensures match world.attempt(|journal| - 1)
              case Answered => result == Ok(())
              case FailedFatally => result == Err(Fatal)
              case FailedOnce => result == Err(ModelFailed)
      ensures result == Err(ModelFailed) ==>
                old(slot.settled).Some? || |journal| - |old(journal)| == slot.length
      ensures result.Ok? ==>
                slot.settled == if old(slot.settled).Some? then old(slot.settled) else Some(|journal| - |old(journal)| - 1)
      ensures var before, after := Sum(old(journal)), Sum(journal);
              && after == before.(calls := after.calls)
              && before.calls < after.calls <= before.calls + slot.length
              && (result.Ok? ==> after.calls + slot.Spare() <= before.calls + 1 + old(slot.Spare()))
    {
      var tried := 0;
      while true
        invariant Valid() && slot.Valid() && slot.settled == old(slot.settled)
        invariant Sum(journal) == Sum(old(journal)).(calls := Sum(old(journal)).calls + tried)
        invariant tried == 0 || (slot.settled.None? && tried < slot.length)
        invariant old(journal) <= journal && |journal| == |old(journal)| + tried
        invariant CallsFrom(journal, |old(journal)|) && FailedFrom(world, |old(journal)|, |journal|)
        decreases slot.length - tried
      {
        var end := TryOne(slot, tried);
        if end.Some? {
          return end.value;
        }
        tried := tried + 1;
      }
    }

    /** One step: a model call and its stored response. Only a call that succeeded and is stored counts. */
    method Step(slot: Slot) returns (result: Result<(), Fault>)
      requires Valid() && slot.Valid() && made < limits.steps
      modifies this`journal, this`made, slot
      ensures Valid() && slot.Valid()
      ensures result.Err? ==> BreaksOff(world, journal, hasInbox, made < limits.steps, result.error)
      ensures result.Err? ==> result.error == Fatal || result.error == ModelFailed
      ensures old(journal) <= journal && StepIn(journal, |old(journal)|, result.Ok?)
      ensures var last := CallsEnd(journal, result.Ok?);
              result.Ok? <==> world.attempt(last) == Answered && world.keeps(last + 1)
      ensures var before, after := Sum(old(journal)), Sum(journal);
              && after == before.(calls := after.calls, steps := after.steps)
              && after.steps == before.steps + (if result.Ok? then 1 else 0)
              && (result.Ok? ==> after.calls + slot.Spare() <= before.calls + 1 + old(slot.Spare()))
    {
      result := Drive(slot);
      if result.Err? {
        return;
      }
      if !world.keeps(|journal|) {
        return Err(Fatal);
      }
      made := SaturatingInc(made);
      Note(Stepped);
    }

    /** Stores what waits in the inbox. A stored request, and nothing else, resets the counters. */
    method Drain() returns (result: Result<Act, Fault>)
      requires Valid()
      modifies this`journal, this`rounds, this`refusals
      ensures Valid()
      ensures var drained := if hasInbox then DrainOf(world.inbox(|old(journal)|)) else Some(Drained(0, false));
              match drained
              case None =>
                result == Err(Fatal) && journal == old(journal) && rounds == old(rounds) && refusals == old(refusals)
              case Some(act) =>
                && result == Ok(act) && journal == old(journal) + [act] && Sum(journal) == Count(Sum(old(journal)), act)
                && (act.request ==> act.stored > 0)
    {
      if !hasInbox {
        Note(Drained(0, false));
        return Ok(Drained(0, false));
      }
      var arrival := world.inbox(|journal|);
      if arrival.Unread? {
        return Err(Fatal);
      }
      var drained := Drained(arrival.stored, arrival.request && arrival.stored > 0);
      if drained.request {
        rounds, refusals := 0, 0;
      }
      Note(drained);
      result := Ok(drained);
    }

    /** One step of a pass and what it asks for: the end of the pass, or its tools and perhaps a drain. */
    method Advance(slot: Slot, ghost n: nat) returns (end: Option<Result<PassEnd, Fault>>)
      requires Valid() && slot.Valid() && StepsRemaining() > 0
      requires n <= |journal| && IsPass(world, journal, n) && GoesOn(world, journal, n)
      modifies this`journal, this`made, this`rounds, this`refusals, slot
      ensures Valid() && slot.Valid() && old(journal) < journal && IsPass(world, journal, n)
      ensures WithinPass(Sum(old(journal)), Sum(journal))
      ensures match end
              case None => StepsRemaining() > 0 && GoesOn(world, journal, n)
              case Some(Ok(Final)) => EndsWith(world, journal, FinalResponse)
              case Some(Ok(StepLimit)) =>
                StepsRemaining() == 0 && (EndsWith(world, journal, Unfinished) || EndsWithTools(world, journal))
              case Some(Err(fault)) =>
                (fault == Fatal || fault == ModelFailed) && BreaksOff(world, journal, hasInbox, StepsRemaining() > 0, fault)
      ensures end.None? || end.value.Ok? ==>
                var before, after := Sum(old(journal)), Sum(journal);
                after.steps == before.steps + 1 && after.calls + slot.Spare() <= before.calls + 1 + old(slot.Spare())
    {
      var stepped := Step(slot);
      StepGoesOn(world, old(journal), journal, n, stepped.Ok?);
      if stepped.Err? {
        return Some(Err(stepped.error));
      }
      var left := world.leaves(|journal| - 1);
      if left.Unusable? {
        return Some(Err(Fatal));
      }
      if left.FinalResponse? {
        return Some(Ok(Final));
      }
      if StepsRemaining() == 0 {
        return Some(Ok(StepLimit));
      }
      var failed := AfterTools(n);
      end := if failed.Some? then Some(Err(failed.value)) else None;
    }

    /** Runs the tools a step called for; at a boundary it drains. */
    method AfterTools(ghost n: nat) returns (failed: Option<Fault>)
      requires Valid() && n < |journal| && IsPass(world, journal, n) && journal[|journal| - 1].Stepped?
      requires !EndsWith(world, journal, FinalResponse) && StepsRemaining() > 0
      modifies this`journal, this`rounds, this`refusals
      ensures Valid() && old(journal) <= journal && IsPass(world, journal, n) && (failed.None? ==> GoesOn(world, journal, n))
      ensures failed.Some? ==> failed.value == Fatal && BreaksOff(world, journal, hasInbox, true, Fatal)
      ensures WithinPass(Sum(old(journal)), Sum(journal))
      ensures Sum(journal).steps == Sum(old(journal)).steps && Sum(journal).calls == Sum(old(journal)).calls
    {
      var left := world.leaves(|journal| - 1);
      if left.ToolCalls? && left.fails {
        return Some(Fatal);
      }
      if left.ToolCalls? && left.boundary {
        var drained := Drain();
        if drained.Err? {
          return Some(drained.error);
        }
        DrainGoesOn(world, old(journal), drained.value, n);
      }
      failed := None;
    }

    /** Steps until the model has given a final response or no step is left. */
    method Pass(slot: Slot) returns (result: Result<PassEnd, Fault>)
      requires Valid() && slot.Valid() && StepsRemaining() > 0
      modifies this`journal, this`made, this`rounds, this`refusals, slot
      ensures Valid() && slot.Valid()
      ensures result.Err? ==>
                && (result.error == Fatal || result.error == ModelFailed)
                && BreaksOff(world, journal, hasInbox, StepsRemaining() > 0, result.error)
      ensures old(journal) < journal && IsPass(world, journal, |old(journal)|)
      ensures var before, after := Sum(old(journal)), Sum(journal);
              && WithinPass(before, after)
              && (result.Ok? ==>
                    && before.steps < after.steps
                    && after.calls - before.calls + slot.Spare() <= after.steps - before.steps + old(slot.Spare()))
      ensures result == Ok(Final) ==> EndsWith(world, journal, FinalResponse)
      ensures result == Ok(StepLimit) ==>
                StepsRemaining() == 0 && (EndsWith(world, journal, Unfinished) || EndsWithTools(world, journal))
    {
      while true
        invariant Valid() && slot.Valid() && StepsRemaining() > 0
        invariant WithinPass(Sum(old(journal)), Sum(journal))
        invariant Sum(journal).calls - Sum(old(journal)).calls + slot.Spare()
               <= Sum(journal).steps - Sum(old(journal)).steps + old(slot.Spare())
        invariant old(journal) <= journal && IsPass(world, journal, |old(journal)|)
        invariant GoesOn(world, journal, |old(journal)|)
        decreases StepsRemaining()
      {
        var end := Advance(slot, |old(journal)|);
        if end.Some? {
          return end.value;
        }
      }
    }
  }
}
