/** The ReAct loop: passes of one model until a final response finds the inbox empty or no step is left. */
module React {
  import opened Prelude
  import opened AgentWorker

  /** The journal ends with a final response and a drain after it, which stored something or not. */
  predicate FinalThenDrained(world: World, journal: seq<Act>, some: bool) {
    && journal != [] && journal[|journal| - 1].Drained? && (journal[|journal| - 1].stored > 0 <==> some)
    && EndsWith(world, journal[..|journal| - 1], FinalResponse)
  }

  /** The passes after the first, which starts at `n`, each begin with something that arrived after a final response. */
  predicate StartsAnew(world: World, journal: seq<Act>, n: nat) {
    forall k: nat :: n < k < |journal| && journal[k].PassStarted? ==> FinalThenDrained(world, journal[..k], true)
  }

  lemma AnotherPass(world: World, before: seq<Act>, journal: seq<Act>, n: nat)
    requires n <= |before| && StartsAnew(world, before, n) && before < journal
    requires |before| == n || FinalThenDrained(world, before, true)
    requires IsPass(world, journal, |before| + 1)
    ensures StartsAnew(world, journal, n)
  {
    forall k: nat | n < k < |journal| && journal[k].PassStarted? ensures FinalThenDrained(world, journal[..k], true) {
      if k < |before| {
        assert journal[..k] == before[..k];
      } else {
        assert k > |before| ==> PassAt(world, journal, |before| + 1, k);
        assert k == |before| && journal[..k] == before;
      }
    }
  }

  lemma DrainStartsNothing(world: World, before: seq<Act>, journal: seq<Act>, n: nat)
    requires n < |before| && StartsAnew(world, before, n) && before <= journal && |journal| <= |before| + 1
    requires |journal| > |before| ==> journal[|before|].Drained?
    ensures StartsAnew(world, journal, n)
  {
    forall k: nat | n < k < |journal| && journal[k].PassStarted? ensures FinalThenDrained(world, journal[..k], true) {
      assert k < |before| && journal[..k] == before[..k];
    }
  }

  /** How a run that ran passes ends: a final response with nothing more in the inbox, or the last step. */
  predicate EndsRight(world: World, journal: seq<Act>, drains: bool, end: PassEnd) {
    match end
    case Final => if drains then FinalThenDrained(world, journal, false) else EndsWith(world, journal, FinalResponse)
    case StepLimit => EndsWith(world, journal, Unfinished) || EndsWithTools(world, journal)
  }

  /** What a failed run has met: a pass that broke off, or an inbox that could not be read. */
  predicate Blames(world: World, journal: seq<Act>, limits: Limits, hasInbox: bool, fault: Fault) {
    var stepsLeft := Sum(journal).steps < limits.steps;
    || BreaksOff(world, journal, hasInbox, stepsLeft, fault)
    || (fault == Fatal && hasInbox && world.inbox(|journal|).Unread?)
  }

  /** How a run from scratch ends: what it counted, and why it ended then. */
  predicate Concludes(world: World, journal: seq<Act>, limits: Limits, hasInbox: bool, fallback: nat, end: PassEnd,
                      steps: nat) {
    var sum := Sum(journal);
    && 0 < sum.steps <= limits.steps && steps == sum.steps && sum.passes <= sum.steps
    && sum.calls <= sum.steps + fallback - 1 && (end == StepLimit ==> sum.steps == limits.steps)
    && EndsRight(world, journal, hasInbox && sum.steps < limits.steps, end)
  }

  class Agent {
    const worker: Worker
    const slot: Slot

    constructor (worker: Worker, slot: Slot)
      ensures this.worker == worker && this.slot == slot
    {
      this.worker, this.slot := worker, slot;
    }

    predicate Drains()
      reads worker
    {
      worker.hasInbox && worker.StepsRemaining() > 0
    }

    ghost predicate Counts()
      reads worker, slot
    {
      && worker.Valid() && slot.Valid() && worker.rounds == 0 && worker.limits.refusals.None?
      && Sum(worker.journal).passes <= worker.made
      && Sum(worker.journal).calls + slot.Spare() <= worker.made + slot.length - 1
    }

    /** One pass. */
    method OnePass() returns (end: Result<PassEnd, Fault>)
      requires Counts() && worker.StepsRemaining() > 0
      modifies worker, slot
      ensures Lawful(worker.limits, worker.journal) && old(worker.journal) < worker.journal
      ensures worker.journal[|old(worker.journal)|] == PassStarted(false, 0)
      ensures IsPass(worker.world, worker.journal, |old(worker.journal)| + 1)
      ensures end.Ok? ==> Counts() && worker.made > old(worker.made)
      ensures match end
              case Err(fault) =>
                fault != NoClientLeft && Blames(worker.world, worker.journal, worker.limits, worker.hasInbox, fault)
              case Ok(Final) => EndsWith(worker.world, worker.journal, FinalResponse)
              case Ok(StepLimit) =>
                worker.StepsRemaining() == 0 && EndsRight(worker.world, worker.journal, false, StepLimit)
    {
      worker.Note(PassStarted(false, 0));
      end := worker.Pass(slot);
    }

    /** After a final response: true if something arrived meanwhile that another pass has to answer. */
    method Arrived() returns (more: Result<bool, Fault>)
      requires Counts() && EndsWith(worker.world, worker.journal, FinalResponse)
      modifies worker
      ensures Lawful(worker.limits, worker.journal) && old(worker.journal) <= worker.journal
      ensures |worker.journal| <= |old(worker.journal)| + 1
      ensures |worker.journal| > |old(worker.journal)| ==> worker.journal[|old(worker.journal)|].Drained?
      ensures more.Ok? ==> Counts() && worker.made == old(worker.made)
      ensures match more
              case Err(fault) =>
                fault == Fatal && Blames(worker.world, worker.journal, worker.limits, worker.hasInbox, fault)
              case Ok(true) => worker.StepsRemaining() > 0 && FinalThenDrained(worker.world, worker.journal, true)
              case Ok(false) => EndsRight(worker.world, worker.journal, Drains(), Final)
    {
      if !Drains() {
        return Ok(false);
      }
      var drained := worker.Drain();
      if drained.Err? {
        return Err(drained.error);
      }
      assert worker.journal[..|worker.journal| - 1] == old(worker.journal);
      more := Ok(drained.value.stored > 0);
    }

    /** A pass and, after a final response, a look into the inbox; how the run ends unless another pass has to follow. */
    method Turn(ghost n: nat) returns (end: Option<Result<(PassEnd, nat), Fault>>)
      requires Counts() && worker.StepsRemaining() > 0
      requires n <= |worker.journal| && StartsAnew(worker.world, worker.journal, n)
      requires |worker.journal| == n || FinalThenDrained(worker.world, worker.journal, true)
      modifies worker, slot
      ensures Lawful(worker.limits, worker.journal) && old(worker.journal) < worker.journal
      ensures StartsAnew(worker.world, worker.journal, n)
      ensures worker.journal[|old(worker.journal)|].PassStarted?
      ensures match end
              case None =>
                && Counts() && worker.made > old(worker.made) && worker.StepsRemaining() > 0
                && FinalThenDrained(worker.world, worker.journal, true)
              case Some(Err(fault)) =>
                fault != NoClientLeft && Blames(worker.world, worker.journal, worker.limits, worker.hasInbox, fault)
              case Some(Ok((last, steps))) =>
                Concludes(worker.world, worker.journal, worker.limits, worker.hasInbox, slot.length, last, steps)
    {
      var ended := OnePass();
      AnotherPass(worker.world, old(worker.journal), worker.journal, n);
      if ended.Err? {
        return Some(Err(ended.error));
      }
      if ended.value == StepLimit {
        return Some(Ok((StepLimit, worker.made)));
      }
      ghost var before := worker.journal;
      var more := Arrived();
      DrainStartsNothing(worker.world, before, worker.journal, n);
      if more.Err? {
        return Some(Err(more.error));
      }
      end := if more.value then None else Some(Ok((Final, worker.made)));
    }

    /**
     * Every pass begins with a step left and takes at least one. The slot stays settled from pass to pass, so the whole
     * run makes at most its steps plus the length of the fallback list minus one calls.
     */
    method Execute(restored: Option<PassEnd>) returns (result: Result<(PassEnd, nat), Fault>)
      requires worker.Valid() && slot.Valid() && slot.settled.None?
      requires Sum(worker.journal) == Sum([]) && worker.limits.refusals.None?
      modifies worker, slot
      ensures Lawful(worker.limits, worker.journal) && old(worker.journal) <= worker.journal
      ensures restored.Some? ==> result == Ok((restored.value, 0)) && worker.journal == old(worker.journal)
      ensures restored.None? ==>
                && StartsAnew(worker.world, worker.journal, |old(worker.journal)|)
                && |worker.journal| > |old(worker.journal)| && worker.journal[|old(worker.journal)|].PassStarted?
                && match result
                   case Err(fault) =>
                     fault != NoClientLeft && Blames(worker.world, worker.journal, worker.limits, worker.hasInbox, fault)
                   case Ok((end, steps)) =>
                     Concludes(worker.world, worker.journal, worker.limits, worker.hasInbox, slot.length, end, steps)
    {
      if restored.Some? {
        return Ok((restored.value, worker.made));
      }
      ghost var n := |worker.journal|;
      while true
        invariant Counts() && worker.StepsRemaining() > 0
        invariant old(worker.journal) <= worker.journal && StartsAnew(worker.world, worker.journal, n)
        invariant |worker.journal| == n || FinalThenDrained(worker.world, worker.journal, true)
        invariant |worker.journal| > n ==> worker.journal[n].PassStarted?
        decreases worker.StepsRemaining()
      {
        var end := Turn(n);
        if end.Some? {
          return end.value;
        }
      }
    }
  }

  /** A whole run of a ReAct agent, from its first look into the inbox. */
  method Run(steps: nat, hasInbox: bool, fallback: nat, restored: Option<PassEnd>, world: World)
    returns (result: Result<(PassEnd, nat), Fault>, journal: seq<Act>)
    requires 0 < steps <= MAX && 0 < fallback
    ensures Lawful(Limits(steps, 1, None), journal)
    ensures if hasInbox && world.inbox(0).Unread? then result == Err(Fatal) && journal == []
            else journal != [] && journal[0].Drained?
    ensures journal != [] && restored.Some? ==> result == Ok((restored.value, 0)) && |journal| == 1
    ensures journal != [] && restored.None? ==>
              var limits := Limits(steps, 1, None);
              && |journal| > 1 && journal[1].PassStarted? && StartsAnew(world, journal, 1)
              && (result.Err? ==>
                    result.error != NoClientLeft && Blames(world, journal, limits, hasInbox, result.error))
              && (result.Ok? ==>
                    Concludes(world, journal, limits, hasInbox, fallback, result.value.0, result.value.1))
  {
    var worker := new Worker(Limits(steps, 1, None), hasInbox, world);
    var drained := worker.Drain();
    if drained.Err? {
      return Err(drained.error), worker.journal;
    }
    assert Sum(worker.journal) == Sum([]);
    var agent := Fresh(worker, fallback);
    result := agent.Execute(restored);
    journal := worker.journal;
  }

  method Fresh(worker: Worker, fallback: nat) returns (agent: Agent)
    requires 0 < fallback
    ensures fresh(agent) && fresh(agent.slot) && agent.worker == worker
    ensures agent.slot.Valid() && agent.slot.length == fallback && agent.slot.settled.None?
  {
    var slot := new Slot(fallback);
    agent := new Agent(worker, slot);
  }
}
