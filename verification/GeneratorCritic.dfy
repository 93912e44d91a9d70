/** The generator-critic loop: passes of a generator, each checked by an optional program and judged by a critic. */
module GeneratorCritic {
  import opened Prelude
  import opened AgentWorker

  datatype StepLimitEnding = WithoutCriticCall | WithCriticCall

  datatype RoundLimitEnding = FinalGeneration | KeepRejectedGeneration | Fail

  datatype Judgement = Validated | Rejected | NotJudged

  datatype Finish = Finish(judgement: Judgement, stepLimitReached: bool)

  datatype Next = Pass | End(finish: Finish)

  /** A ladder by the lengths of its fallback lists. */
  predicate IsLadder(ladder: seq<nat>) { ladder != [] && forall length :: length in ladder ==> length > 0 }

  /** The list of a position; beyond the last, the last. */
  function LadderEntry(ladder: seq<nat>, position: nat): (length: nat)
    requires IsLadder(ladder)
    ensures length > 0 && length == if position >= |ladder| then ladder[|ladder| - 1] else ladder[position]
  {
    var length := ladder[if position < |ladder| then position else |ladder| - 1];
    assert length in ladder;
    length
  }

  datatype Spec = Spec(limits: Limits, hasInbox: bool, generator: seq<nat>, critic: seq<nat>, stepEnding: StepLimitEnding,
                       roundEnding: RoundLimitEnding)

  /** What the programmatic check comes to: nothing that can be stored, an acceptance, or a refusal with a reason. */
  datatype Check = CheckFails | Accepts | Refuses(blank: bool)

  /** What critics, programs and the store answer, each by the length of the journal when it is asked. */
  datatype Critics = Critics(asks: nat -> bool, verdicts: nat -> bool, checks: nat -> Check, keeps: nat -> bool)

  /** What the end of a run says about the run. */
  ghost predicate IsHonest(spec: Spec, finish: Finish, tally: Tally) {
    match finish.judgement
    case Validated => tally.answer == Some(true) && !tally.last
    case Rejected =>
      && tally.answer == Some(false) && !tally.last && !finish.stepLimitReached
      && (|| tally.steps == spec.limits.steps
            || (tally.rounds == spec.limits.rounds && spec.roundEnding == KeepRejectedGeneration))
    case NotJudged =>
      tally.last || (finish.stepLimitReached && spec.stepEnding == WithoutCriticCall)
  }

  /** A judgement reads the world and writes to the store; of the worker it may drain the inbox and count. */
  ghost predicate SamePasses(before: Tally, after: Tally) {
    before.steps == after.steps && before.passes == after.passes && before.calls <= after.calls
  }

  /** The journal has grown by a drain that stored a request. */
  predicate NewRequest(before: seq<Act>, after: seq<Act>) {
    |before| < |after| && after[|before|].Drained? && after[|before|].request
  }

  /** From `n` on the journal holds the calls of one question to the critic and its answer. */
  predicate AskedLast(critics: Critics, journal: seq<Act>, n: nat, valid: bool, position: nat) {
    && |journal| > n + 1 && journal[|journal| - 1] == Asked(valid, position) && critics.verdicts(|journal| - 1) == valid
    && CallsFrom(journal[..|journal| - 1], n)
  }

  /** The critic could not be asked, or none of its calls was answered. */
  predicate AskFails(critics: Critics, world: World, journal: seq<Act>, n: nat, fault: Fault) {
    if critics.asks(n) then |journal| > n && CallsFrom(journal, n) && CallFails(world, journal, fault)
    else |journal| == n && fault == Fatal
  }

  predicate StartsNoPass(journal: seq<Act>, n: nat) { |journal| > n ==> !journal[n].PassStarted? }

  /** The same, and then a drain of the inbox. */
  predicate AskedThenDrained(critics: Critics, journal: seq<Act>, n: nat, position: nat) {
    && |journal| > n && journal[|journal| - 1].Drained?
    && AskedLast(critics, journal[..|journal| - 1], n, true, position)
  }

  /** A rejection at the round limit is a failure if the spec says so, and else one that cannot be stored is. */
  predicate RejectionFails(spec: Spec, critics: Critics, journal: seq<Act>, fault: Fault) {
    if Sum(journal).rounds == spec.limits.rounds && spec.roundEnding == Fail then fault == CriticAtRoundLimit
    else !critics.keeps(|journal|) && fault == Fatal
  }

  /**
   * What comes of a generation that the critic is asked about. It is not asked about a last one. A validated one ends the
   * run unless a drain finds something; a rejected one is followed by nothing but the next pass or the end.
   */
  predicate IsJudged(spec: Spec, critics: Critics, world: World, isLast: bool, position: nat, drains: bool,
                     journal: seq<Act>, n: nat, next: Result<Next, Fault>) {
    if isLast then |journal| == n && next == Ok(End(Finish(NotJudged, false)))
    else
      match next
      case Err(fault) =>
        || AskFails(critics, world, journal, n, fault)
        || (AskedLast(critics, journal, n, false, position) && RejectionFails(spec, critics, journal, fault))
        || (AskedLast(critics, journal, n, true, position) && drains && world.inbox(|journal|).Unread? && fault == Fatal)
      case Ok(Pass) =>
        || AskedLast(critics, journal, n, false, position)
        || (drains && AskedThenDrained(critics, journal, n, position) && journal[|journal| - 1].stored > 0)
      case Ok(End(finish)) =>
        || (finish == Finish(Rejected, false) && AskedLast(critics, journal, n, false, position))
        || (finish == Finish(Validated, false)
            && if drains then AskedThenDrained(critics, journal, n, position) && journal[|journal| - 1].stored == 0
               else AskedLast(critics, journal, n, true, position))
  }

  /** A refusal by the program is a failure at the refusal limit, or with no step left to answer it. */
  predicate RefusalFails(spec: Spec, journal: seq<Act>) {
    spec.limits.refusals.Some?
    && (Sum(journal).refusals >= spec.limits.refusals.value || Sum(journal).steps >= spec.limits.steps)
  }

  /** What a failed run has met at the end of its journal: each fault has a cause of its own. */
  predicate Blames(spec: Spec, critics: Critics, world: World, journal: seq<Act>, fault: Fault) {
    var n := |journal|;
    match fault
    case BlankReason => spec.limits.refusals.Some? && critics.checks(n) == Refuses(true)
    case RefusedByProgram => n > 0 && journal[n - 1] == Refused && RefusalFails(spec, journal)
    case CriticAtStepLimit => n > 0 && journal[n - 1].Asked? && !journal[n - 1].valid
    case CriticAtRoundLimit =>
      n > 0 && journal[n - 1].Asked? && !journal[n - 1].valid && RejectionFails(spec, critics, journal, fault)
    case ModelFailed => CallFails(world, journal, fault)
    case Fatal =>
      || BreaksOff(world, journal, spec.hasInbox, Sum(journal).steps < spec.limits.steps, fault)
      || (spec.hasInbox && world.inbox(n).Unread?)
      || !critics.asks(n) || !critics.keeps(n)
      || (spec.limits.refusals.Some? && critics.checks(n).CheckFails?)
    case NoClientLeft => false
  }

  lemma JudgedBlames(spec: Spec, critics: Critics, world: World, isLast: bool, position: nat, drains: bool,
                     journal: seq<Act>, n: nat, next: Result<Next, Fault>)
    requires IsJudged(spec, critics, world, isLast, position, drains, journal, n, next) && next.Err?
    requires drains ==> spec.hasInbox
    ensures Blames(spec, critics, world, journal, next.error)
  {
  }

  class Loop {
    const spec: Spec
    const critics: Critics
    const worker: Worker
    var iterations: nat
    var drainFirst: bool
    var lastScheduled: bool
    var isLast: bool
    var position: nat
    var keepPosition: Option<nat>

    constructor (spec: Spec, worker: Worker, critics: Critics)
      requires worker.Valid() && worker.limits == spec.limits && worker.hasInbox == spec.hasInbox
      requires IsLadder(spec.generator) && IsLadder(spec.critic)
      requires Sum(worker.journal) == Sum([])
      ensures this.spec == spec && this.worker == worker && this.critics == critics && Wired() && iterations == 0
      ensures !drainFirst && !lastScheduled && !isLast && position == worker.rounds && keepPosition == None
    {
      this.spec, this.worker, this.critics := spec, worker, critics;
      iterations, drainFirst, lastScheduled, isLast := 0, false, false, false;
      position, keepPosition := worker.rounds, None;
    }

    ghost predicate Wired()
      reads this, worker
    {
      && worker.Valid() && worker.limits == spec.limits && worker.hasInbox == spec.hasInbox
      && IsLadder(spec.generator) && IsLadder(spec.critic)
      && iterations == Sum(worker.journal).passes
      && (keepPosition.Some? ==> keepPosition.value == Sum(worker.journal).position)
    }

    /** What holds when the next pass is due: it may start, unless a drain before it fails. */
    ghost predicate Due()
      reads this, worker
    {
      && worker.StepsRemaining() > 0 && (lastScheduled || worker.rounds < spec.limits.rounds)
      && (spec.limits.refusals.Some? ==> worker.refusals < spec.limits.refusals.value)
    }

    /** What holds when a pass has just ended: a pass that was not the last began with rounds to spare. */
    ghost predicate Ended()
      reads this, worker
    {
      && isLast == Sum(worker.journal).last && position == Sum(worker.journal).position
      && (isLast || worker.rounds < spec.limits.rounds) && isLast == lastScheduled && keepPosition == None
      && (spec.limits.refusals.Some? ==> worker.refusals < spec.limits.refusals.value)
    }

    /** What holds after a rejection, of a pass that was not the last, when its round is still to be counted. */
    ghost predicate Rejecting()
      reads this, worker
    {
      var tally := Sum(worker.journal);
      && worker.limits == spec.limits && LimitsOk(spec.limits) && Lawful(spec.limits, worker.journal)
      && worker.hasInbox == spec.hasInbox && IsLadder(spec.generator) && IsLadder(spec.critic)
      && worker.made == tally.steps && worker.rounds + 1 == tally.rounds && worker.refusals == tally.refusals
      && worker.made <= spec.limits.steps && worker.rounds < spec.limits.rounds
      && (spec.limits.refusals.Some? ==> worker.refusals < spec.limits.refusals.value)
      && iterations == tally.passes && keepPosition == None && !tally.last && tally.answer == Some(false)
    }

    /** Asks the critic, at the generator's position of the ladder and with a fresh slot of its own. */
    method Ask() returns (answer: Result<bool, Fault>)
      requires Wired() && Ended() && !isLast
      modifies worker`journal
      ensures worker.limits == spec.limits && Lawful(spec.limits, worker.journal)
      ensures SamePasses(Sum(old(worker.journal)), Sum(worker.journal)) && !Sum(worker.journal).last
      ensures answer.Ok? ==>
                var before, after := Sum(old(worker.journal)), Sum(worker.journal);
                after == before.(calls := after.calls, rounds := before.rounds + (if answer.value then 0 else 1),
                answer := Some(answer.value))
      ensures answer == Ok(true) ==> Wired() && Ended()
      ensures answer == Ok(false) ==> Rejecting()
      ensures old(worker.journal) < worker.journal || (answer.Err? && worker.journal == old(worker.journal))
      ensures StartsNoPass(worker.journal, |old(worker.journal)|)
      ensures !critics.asks(|old(worker.journal)|) ==> answer == Err(Fatal) && worker.journal == old(worker.journal)
      ensures match answer
              case Ok(valid) =>
                AskedLast(critics, worker.journal, |old(worker.journal)|, valid, position)
              case Err(fault) =>
                && (fault == Fatal || fault == ModelFailed) && CallsFrom(worker.journal, |old(worker.journal)|)
                && AskFails(critics, worker.world, worker.journal, |old(worker.journal)|, fault)
    {
      if !critics.asks(|worker.journal|) {
        return Err(Fatal);
      }
      var slot := new Slot(LadderEntry(spec.critic, position));
      var driven := worker.Drive(slot);
      if driven.Err? {
        return Err(driven.error);
      }
      var valid := critics.verdicts(|worker.journal|);
      worker.Note(Asked(valid, position));
      answer := Ok(valid);
    }

    /** The programmatic check; its refusals in a row are limited. True lets the critic judge. */
    method Programmatic() returns (accepted: Result<bool, Fault>)
      requires Wired() && Ended()
      modifies worker`journal, worker`refusals, this`keepPosition, this`drainFirst
      ensures Lawful(spec.limits, worker.journal) && worker.limits == spec.limits
      ensures SamePasses(Sum(old(worker.journal)), Sum(worker.journal))
      ensures accepted.Ok? ==> Wired() && worker.rounds == old(worker.rounds)
      ensures accepted == Ok(true) ==> Ended()
      ensures accepted == Ok(false) ==> Due() && keepPosition == Some(position) && drainFirst
      ensures accepted == Ok(true) && spec.limits.refusals.Some? ==> worker.refusals == 0
      ensures IsChecked(old(worker.journal), accepted)
    {
      if spec.limits.refusals.None? {
        return Ok(true);
      }
      match critics.checks(|worker.journal|) {
        case CheckFails => return Err(Fatal);
        case Accepts =>
          Accept();
          return Ok(true);
        case Refuses(blank) =>
          if blank {
            return Err(BlankReason);
          }
          accepted := Refuse();
      }
    }

    /** What the programmatic check comes to: it is asked if there is one, and its answer alone decides. */
    ghost predicate IsChecked(before: seq<Act>, accepted: Result<bool, Fault>)
      reads worker`journal
    {
      if spec.limits.refusals.None? then accepted == Ok(true) && worker.journal == before
      else
        match critics.checks(|before|)
        case CheckFails => accepted == Err(Fatal) && worker.journal == before
        case Accepts => accepted == Ok(true) && worker.journal == before + [Accepted]
        case Refuses(blank) =>
          if blank then accepted == Err(BlankReason) && worker.journal == before
          else
            && worker.journal == before + [Refused]
            && (accepted == Ok(false) || (accepted == Err(RefusedByProgram) && RefusalFails(spec, worker.journal)))
    }

    method Accept()
      requires Wired() && Ended()
      modifies worker`journal, worker`refusals
      ensures Wired() && Ended() && worker.rounds == old(worker.rounds) && worker.refusals == 0
      ensures worker.journal == old(worker.journal) + [Accepted]
      ensures SamePasses(Sum(old(worker.journal)), Sum(worker.journal))
    {
      worker.refusals := 0;
      worker.Note(Accepted);
    }

    /** Counts a refusal. Too many in a row, or no step to answer it with, fail the run. */
    method Refuse() returns (accepted: Result<bool, Fault>)
      requires Wired() && Ended() && spec.limits.refusals.Some?
      modifies worker`journal, worker`refusals, this`keepPosition, this`drainFirst
      ensures Lawful(spec.limits, worker.journal)
      ensures SamePasses(Sum(old(worker.journal)), Sum(worker.journal))
      ensures accepted.Ok? ==> accepted.value == false && Wired() && Due() && worker.rounds == old(worker.rounds)
      ensures accepted.Ok? ==> keepPosition == Some(position) && drainFirst && worker.refusals == old(worker.refusals) + 1
      ensures accepted.Err? ==>
                accepted.error == RefusedByProgram && RefusalFails(spec, worker.journal)
      ensures worker.journal == old(worker.journal) + [Refused]
    {
      worker.refusals := SaturatingInc(worker.refusals);
      worker.Note(Refused);
      if worker.refusals >= spec.limits.refusals.value || worker.StepsRemaining() == 0 {
        return Err(RefusedByProgram);
      }
      keepPosition := Some(position);
      drainFirst := true;
      accepted := Ok(false);
    }

    /** A validated generation ends the run unless something arrived meanwhile and a step is left to answer it. */
    method ValidatedEnd(end: Finish) returns (next: Result<Next, Fault>)
      requires Wired() && Ended() && !isLast && IsHonest(spec, end, Sum(worker.journal))
      modifies worker`journal, worker`rounds, worker`refusals, this`drainFirst, this`lastScheduled, this`keepPosition
      ensures Lawful(spec.limits, worker.journal) && SamePasses(Sum(old(worker.journal)), Sum(worker.journal))
      ensures next.Ok? ==> Wired()
      ensures next.Ok? ==>
                if worker.hasInbox && worker.StepsRemaining() > 0 then
                  && |worker.journal| == |old(worker.journal)| + 1 && worker.journal[|old(worker.journal)|].Drained?
                  && (next.value.Pass? <==> worker.journal[|old(worker.journal)|].stored > 0)
                else worker.journal == old(worker.journal) && next.value.End?
      ensures next == Ok(Pass) ==> Due() && !drainFirst && !lastScheduled && keepPosition == None
      ensures old(worker.journal) <= worker.journal
      ensures next.Err? ==>
                && next.error == Fatal && worker.journal == old(worker.journal)
                && worker.hasInbox && worker.StepsRemaining() > 0 && worker.world.inbox(|worker.journal|).Unread?
      ensures next.Ok? && worker.hasInbox && worker.StepsRemaining() > 0 && next.value.End? ==>
                worker.journal == old(worker.journal) + [Drained(0, false)]
      ensures next.Ok? && next.value.End? ==> next.value.finish == end && IsHonest(spec, end, Sum(worker.journal))
    {
      if worker.hasInbox && worker.StepsRemaining() > 0 {
        var drained := worker.Drain();
        if drained.Err? {
          return Err(drained.error);
        }
        if drained.value.stored > 0 {
          drainFirst, lastScheduled, keepPosition := false, false, None;
          return Ok(Pass);
        }
      }
      next := Ok(End(end));
    }

    /** A rejection counts a round. At the limit the run fails, keeps the rejected generation, or tries one last time. */
    method RejectedEnd(end: Finish) returns (next: Result<Next, Fault>)
      requires worker.limits == spec.limits && LimitsOk(spec.limits) && Lawful(spec.limits, worker.journal)
      requires worker.rounds < spec.limits.rounds && worker.rounds + 1 == Sum(worker.journal).rounds
      requires worker.made == Sum(worker.journal).steps && worker.made <= spec.limits.steps
      requires end == Finish(Rejected, false) && !Sum(worker.journal).last && Sum(worker.journal).answer == Some(false)
      modifies worker`rounds, this`drainFirst, this`lastScheduled
      ensures worker.rounds == Sum(worker.journal).rounds
      ensures next == Ok(Pass) ==>
                && worker.StepsRemaining() > 0 && drainFirst
                && (lastScheduled <==> worker.rounds == spec.limits.rounds)
                && (lastScheduled ==> spec.roundEnding == FinalGeneration)
      ensures next.Ok? && next.value.End? ==> IsHonest(spec, next.value.finish, Sum(worker.journal))
      ensures next == Err(CriticAtRoundLimit) <==> worker.rounds == spec.limits.rounds && spec.roundEnding == Fail
      ensures next == Err(Fatal) <==>
                !(worker.rounds == spec.limits.rounds && spec.roundEnding == Fail) && !critics.keeps(|worker.journal|)
      ensures next.Err? ==> next.error == CriticAtRoundLimit || next.error == Fatal
      ensures next.Ok? && next.value.End? ==> next.value.finish == end
    {
      worker.rounds := SaturatingInc(worker.rounds);
      var atLimit := worker.rounds >= spec.limits.rounds;
      if atLimit && spec.roundEnding == Fail {
        return Err(CriticAtRoundLimit);
      }
      if !critics.keeps(|worker.journal|) {
        return Err(Fatal);
      }
      var continues := worker.StepsRemaining() > 0;
      if atLimit {
        if spec.roundEnding == FinalGeneration && continues {
          lastScheduled, drainFirst := true, true;
          return Ok(Pass);
        }
        return Ok(End(end));
      }
      if !continues {
        return Ok(End(end));
      }
      lastScheduled, drainFirst := false, true;
      next := Ok(Pass);
    }

    /** A pass that used up the steps is judged at most once more, and never if it was the last or the critic is spared. */
    method JudgeAtStepLimit() returns (next: Result<Next, Fault>)
      requires Wired() && Ended()
      modifies worker`journal
      ensures Lawful(spec.limits, worker.journal) && SamePasses(Sum(old(worker.journal)), Sum(worker.journal))
      ensures next.Ok? ==> next.value.End? && IsHonest(spec, next.value.finish, Sum(worker.journal))
      ensures IsJudgedAtStepLimit(old(worker.journal), next)
    {
      if isLast || spec.stepEnding == WithoutCriticCall {
        return Ok(End(Finish(NotJudged, true)));
      }
      var answer := Ask();
      match answer {
        case Err(fault) => return Err(fault);
        case Ok(valid) => next := if valid then Ok(End(Finish(Validated, true))) else Err(CriticAtStepLimit);
      }
    }

    /** What comes of a pass that used up the steps: without the critic's call it is not asked, else its answer decides. */
    ghost predicate IsJudgedAtStepLimit(before: seq<Act>, next: Result<Next, Fault>)
      reads worker`journal, this`isLast, this`position
    {
      before <= worker.journal
      && if isLast || spec.stepEnding == WithoutCriticCall
         then worker.journal == before && next == Ok(End(Finish(NotJudged, true)))
         else
           match next
           case Ok(next') =>
             next' == End(Finish(Validated, true)) && AskedLast(critics, worker.journal, |before|, true, position)
           case Err(fault) =>
             if fault == CriticAtStepLimit then AskedLast(critics, worker.journal, |before|, false, position)
             else AskFails(critics, worker.world, worker.journal, |before|, fault)
    }

    method JudgeGeneration() returns (next: Result<Next, Fault>)
      requires Wired() && Ended()
      modifies worker`journal, worker`rounds, worker`refusals, this`drainFirst, this`lastScheduled, this`keepPosition
      ensures Lawful(spec.limits, worker.journal) && SamePasses(Sum(old(worker.journal)), Sum(worker.journal))
      ensures next == Ok(Pass) ==> Wired() && Due()
      ensures next.Ok? && next.value.End? ==> IsHonest(spec, next.value.finish, Sum(worker.journal))
      ensures old(worker.journal) <= worker.journal && StartsNoPass(worker.journal, |old(worker.journal)|)
      ensures IsJudged(spec, critics, worker.world, isLast, position, worker.hasInbox && worker.StepsRemaining() > 0,
                       worker.journal, |old(worker.journal)|, next)
    {
      if isLast {
        return Ok(End(Finish(NotJudged, false)));
      }
      var answer := Ask();
      match answer {
        case Err(fault) => return Err(fault);
        case Ok(true) => next := AfterValidation(|old(worker.journal)|);
        case Ok(false) => next := AfterRejection(|old(worker.journal)|);
      }
    }

    method AfterRejection(ghost n: nat) returns (next: Result<Next, Fault>)
      requires Rejecting() && AskedLast(critics, worker.journal, n, false, position)
      modifies worker`rounds, this`drainFirst, this`lastScheduled
      ensures next == Ok(Pass) ==> Wired() && Due()
      ensures next.Ok? && next.value.End? ==> IsHonest(spec, next.value.finish, Sum(worker.journal))
      ensures IsJudged(spec, critics, worker.world, false, position, worker.hasInbox && worker.StepsRemaining() > 0,
                       worker.journal, n, next)
    {
      LawfulIsBounded(spec.limits, worker.journal);
      next := RejectedEnd(Finish(Rejected, false));
    }

    method AfterValidation(ghost n: nat) returns (next: Result<Next, Fault>)
      requires Wired() && Ended() && !isLast && AskedLast(critics, worker.journal, n, true, position)
      requires IsHonest(spec, Finish(Validated, false), Sum(worker.journal))
      modifies worker`journal, worker`rounds, worker`refusals, this`drainFirst, this`lastScheduled, this`keepPosition
      ensures Lawful(spec.limits, worker.journal) && SamePasses(Sum(old(worker.journal)), Sum(worker.journal))
      ensures next == Ok(Pass) ==> Wired() && Due()
      ensures next.Ok? && next.value.End? ==> IsHonest(spec, next.value.finish, Sum(worker.journal))
      ensures old(worker.journal) <= worker.journal
      ensures IsJudged(spec, critics, worker.world, false, position, worker.hasInbox && worker.StepsRemaining() > 0,
                       worker.journal, n, next)
    {
      next := ValidatedEnd(Finish(Validated, false));
      assert |worker.journal| == |old(worker.journal)| + 1 ==>
          worker.journal[..|worker.journal| - 1] == old(worker.journal);
    }

    method Judge(end: PassEnd) returns (next: Result<Next, Fault>)
      requires Wired() && Ended()
      modifies worker`journal, worker`rounds, worker`refusals, this`drainFirst, this`lastScheduled, this`keepPosition
      ensures Lawful(spec.limits, worker.journal) && SamePasses(Sum(old(worker.journal)), Sum(worker.journal))
      ensures next == Ok(Pass) ==> Wired() && Due()
      ensures next.Ok? && next.value.End? ==> IsHonest(spec, next.value.finish, Sum(worker.journal))
      ensures old(worker.journal) <= worker.journal && StartsNoPass(worker.journal, |old(worker.journal)|)
      ensures end == StepLimit ==> IsJudgedAtStepLimit(old(worker.journal), next)
      ensures end == Final ==> IsCheckedAndJudged(old(worker.journal), next)
      ensures next.Err? ==> Blames(spec, critics, worker.world, worker.journal, next.error)
    {
      if end == StepLimit {
        next := JudgeAtStepLimit();
        return;
      }
      var accepted := Programmatic();
      match accepted {
        case Err(fault) => next := Err(fault);
        case Ok(false) => next := Ok(Pass);
        case Ok(true) =>
          ghost var n := |worker.journal|;
          next := JudgeGeneration();
          if next.Err? {
            JudgedBlames(spec, critics, worker.world, isLast, position, worker.hasInbox && worker.StepsRemaining() > 0,
                         worker.journal, n, next);
          }
      }
    }

    /** What comes of a final response: the program is asked first, if there is one, and only what it accepts is judged. */
    ghost predicate IsCheckedAndJudged(before: seq<Act>, next: Result<Next, Fault>)
      reads this, worker
    {
      var drains := worker.hasInbox && worker.StepsRemaining() > 0;
      if spec.limits.refusals.None?
      then IsJudged(spec, critics, worker.world, isLast, position, drains, worker.journal, |before|, next)
      else
        match critics.checks(|before|)
        case CheckFails => next == Err(Fatal) && worker.journal == before
        case Accepts =>
          && |worker.journal| > |before| && worker.journal[|before|] == Accepted
          && IsJudged(spec, critics, worker.world, isLast, position, drains, worker.journal, |before| + 1, next)
        case Refuses(blank) =>
          if blank then next == Err(BlankReason) && worker.journal == before
          else
            && worker.journal == before + [Refused]
            && (next == Ok(Pass) || (next == Err(RefusedByProgram) && RefusalFails(spec, worker.journal)))
    }

    /** Drains if the last judgement asked for it. A request that arrives starts the generation over. */
    method DrainFirst() returns (failed: Option<Fault>)
      requires Wired() && Due()
      modifies worker`journal, worker`rounds, worker`refusals, this`drainFirst, this`lastScheduled, this`keepPosition
      ensures Lawful(spec.limits, worker.journal)
      ensures failed.None? ==>
                if NewRequest(old(worker.journal), worker.journal) then !lastScheduled && keepPosition == None
                else lastScheduled == old(lastScheduled) && keepPosition == old(keepPosition)
      ensures failed.None? ==> Wired() && Due() && !drainFirst && Sum(worker.journal).calls == Sum(old(worker.journal)).calls
      ensures old(worker.journal) <= worker.journal
      ensures failed.Some? ==>
                && failed.value == Fatal && worker.journal == old(worker.journal)
                && old(drainFirst) && worker.hasInbox && worker.world.inbox(|worker.journal|).Unread?
      ensures if old(drainFirst) then
                failed.None? ==>
                  |worker.journal| == |old(worker.journal)| + 1 && worker.journal[|old(worker.journal)|].Drained?
              else failed.None? && worker.journal == old(worker.journal)
    {
      if drainFirst {
        var drained := worker.Drain();
        if drained.Err? {
          return Some(drained.error);
        }
        if drained.value.request {
          lastScheduled, keepPosition := false, None;
        }
      }
      drainFirst := false;
      failed := None;
    }

    /** Settles where on the ladder the next pass runs and whether it is the last. */
    method Schedule()
      requires Wired() && Due()
      modifies worker`journal, this`position, this`keepPosition, this`isLast, this`iterations
      ensures Wired() && Ended() && worker.StepsRemaining() > 0 && iterations == old(iterations) + 1
      ensures worker.journal == old(worker.journal) + [PassStarted(isLast, position)]
      ensures isLast == lastScheduled && Sum(worker.journal).calls == Sum(old(worker.journal)).calls
      ensures position == if old(keepPosition).Some? then old(keepPosition).value else worker.rounds
    {
      position := if keepPosition.Some? then keepPosition.value else worker.rounds;
      keepPosition, isLast := None, lastScheduled;
      worker.Note(PassStarted(isLast, position));
      iterations := iterations + 1;
    }

    /** The pass is noted where and as what it runs, then it runs. */
    method RunPass() returns (end: Result<PassEnd, Fault>)
      requires Wired() && Due()
      modifies worker, this`position, this`keepPosition, this`isLast, this`iterations
      ensures Lawful(spec.limits, worker.journal) && old(worker.journal) < worker.journal
      ensures worker.journal[|old(worker.journal)|] == PassStarted(isLast, position)
      ensures IsPass(worker.world, worker.journal, |old(worker.journal)| + 1)
      ensures end.Ok? ==>
                && Wired() && Ended() && iterations == old(iterations) + 1 && worker.made > old(worker.made)
                && Sum(worker.journal).calls - Sum(old(worker.journal)).calls
                   <= worker.made - old(worker.made) + LadderEntry(spec.generator, position) - 1
      ensures end.Err? ==> Blames(spec, critics, worker.world, worker.journal, end.error)
    {
      Schedule();
      var slot := new Slot(LadderEntry(spec.generator, position));
      end := worker.Pass(slot);
    }

    /** One pass, after the drain that the last judgement may have asked for. */
    method Generate() returns (end: Result<PassEnd, Fault>)
      requires Wired() && Due()
      modifies this, worker
      ensures Lawful(spec.limits, worker.journal) && old(worker.journal) <= worker.journal
      ensures end.Ok? ==> IsGenerated(old(worker.journal), old(drainFirst))
      ensures end.Err? ==> Blames(spec, critics, worker.world, worker.journal, end.error)
      ensures |worker.journal| > |old(worker.journal)| ==>
                var act := worker.journal[|old(worker.journal)|]; if old(drainFirst) then act.Drained? else act.PassStarted?
      ensures end.Ok? ==>
                && Wired() && Ended() && iterations == old(iterations) + 1 && worker.made > old(worker.made)
                && Sum(worker.journal).calls - Sum(old(worker.journal)).calls
                   <= worker.made - old(worker.made) + LadderEntry(spec.generator, position) - 1
    {
      var failed := DrainFirst();
      if failed.Some? {
        return Err(failed.value);
      }
      end := RunPass();
    }

    ghost predicate IsGenerated(before: seq<Act>, drained: bool)
      reads this, worker
    {
      var n := if drained then |before| + 1 else |before|;
      && |worker.journal| > n && (drained ==> worker.journal[|before|].Drained?)
      && worker.journal[n] == PassStarted(isLast, position) && IsPass(worker.world, worker.journal, n + 1)
    }

    /** After `n`: a run begins with a pass, or with the judgement of the pass it was restored at the end of. */
    ghost predicate BeginsRight(restored: Option<PassEnd>, n: nat)
      reads worker`journal
    {
      |worker.journal| > n ==>
        (worker.journal[n].PassStarted? <==> restored.None?)
        && (restored == Some(Final) && spec.limits.refusals.Some? ==>
              worker.journal[n] == Accepted || worker.journal[n] == Refused)
    }

    /** Passes and judgements in turn. Every pass takes a step, so the step limit ends the loop. */
    method Execute(restored: Option<PassEnd>) returns (result: Result<Finish, Fault>)
      requires Wired() && iterations == 0 && worker.made == 0 && !drainFirst && !lastScheduled && keepPosition == None
      requires Due() && Ended()
      modifies this, worker
      ensures Lawful(spec.limits, worker.journal) && old(worker.journal) <= worker.journal
      ensures result.Ok? ==>
                && iterations == Sum(worker.journal).passes && iterations <= Sum(worker.journal).steps
                && IsHonest(spec, result.value, Sum(worker.journal))
      ensures result.Err? ==> Blames(spec, critics, worker.world, worker.journal, result.error)
      ensures BeginsRight(restored, |old(worker.journal)|)
      ensures restored == Some(StepLimit) && spec.stepEnding == WithoutCriticCall && !old(isLast) ==>
                result == Ok(Finish(NotJudged, true)) && worker.journal == old(worker.journal)
    {
      var ended := restored;
      while true
        invariant Wired() && Due() && iterations <= worker.made && old(worker.journal) <= worker.journal
        invariant BeginsRight(restored, |old(worker.journal)|)
        invariant ended.Some? ==> Ended() && ended == restored
        invariant ended.Some? ==> worker.journal == old(worker.journal) && isLast == old(isLast)
        invariant ended.None? && restored.Some? ==>
                    !(restored == Some(StepLimit) && spec.stepEnding == WithoutCriticCall && !old(isLast))
        invariant ended.None? && restored.None? && |worker.journal| == |old(worker.journal)| ==> !drainFirst
        invariant |worker.journal| == |old(worker.journal)| && restored.Some? ==> ended.Some?
        decreases ended.Some?, worker.StepsRemaining()
      {
        var end: PassEnd;
        match ended {
          case Some(known) =>
            end := known;
            ended := None;
          case None =>
            var generated := Generate();
            if generated.Err? {
              return Err(generated.error);
            }
            end := generated.value;
        }
        var next := Judge(end);
        match next {
          case Err(fault) => return Err(fault);
          case Ok(Pass) =>
          case Ok(End(finish)) => return Ok(finish);
        }
      }
    }
  }

  /**
   * A whole run of a generator-critic, from its first look into the inbox. Restored at the end of a pass, it begins with
   * the judgement of that pass, and else with a pass.
   */
  method Run(spec: Spec, world: World, critics: Critics, restored: Option<PassEnd>)
    returns (result: Result<Finish, Fault>, iterations: nat, journal: seq<Act>)
    requires LimitsOk(spec.limits) && IsLadder(spec.generator) && IsLadder(spec.critic)
    ensures Lawful(spec.limits, journal)
    ensures result.Ok? ==>
              && iterations == Sum(journal).passes && iterations <= Sum(journal).steps
              && IsHonest(spec, result.value, Sum(journal))
    ensures if spec.hasInbox && world.inbox(0).Unread? then result == Err(Fatal) && journal == []
            else journal != [] && journal[0].Drained?
    ensures result.Err? ==> Blames(spec, critics, world, journal, result.error)
    ensures |journal| > 1 ==> (journal[1].PassStarted? <==> restored.None?)
    ensures journal != [] && restored == Some(StepLimit) && spec.stepEnding == WithoutCriticCall ==>
              result == Ok(Finish(NotJudged, true)) && |journal| == 1
  {
    var loop;
    var drained := LookFirst(spec, world);
    if drained.Err? {
      return Err(drained.error), 0, [];
    }
    loop := new Loop(spec, drained.value, critics);
    result := loop.Execute(restored);
    iterations, journal := loop.iterations, loop.worker.journal;
  }

  /** A fresh worker and its first drain. */
  method LookFirst(spec: Spec, world: World) returns (worker: Result<Worker, Fault>)
    requires LimitsOk(spec.limits)
    ensures worker.Err? <==> spec.hasInbox && world.inbox(0).Unread?
    ensures worker.Err? ==> worker.error == Fatal
    ensures worker.Ok? ==>
              var w := worker.value;
              && fresh(w) && w.Valid() && w.limits == spec.limits && w.hasInbox == spec.hasInbox && w.world == world
              && Sum(w.journal) == Sum([]) && w.made == 0 && |w.journal| == 1 && w.journal[0].Drained?
  {
    var first := new Worker(spec.limits, spec.hasInbox, world);
    var drained := first.Drain();
    worker := if drained.Err? then Err(drained.error) else Ok(first);
  }
}
