/** The event-driven executor: one slot a node, a phase, a list of failures, one message at a time. */
module Executor {
  import opened Prelude
  import opened Structure
  import opened AbstractMachine

  datatype Live = Absent | Creating(id: nat, firstInput: State) | Present(id: nat)

  datatype Slot = Slot(live: Live, held: bool, untaken: bool) {
    predicate IsLive() { !live.Absent? }
    predicate IsIdle() { live.Absent? && !held && !untaken }
    function Abandoned(): Slot { Slot(Absent, held, true) }
  }

  datatype Failure =
    | NodeFailed(node: string) | NodeRefusedInput(node: string) | NodeCouldNotStart(node: string)
    | NodeVanished(node: string) | UpdateRefused(node: string) | EdgeFailed(node: string)
    | SinkRefused(checkpoint: Checkpoint) | CheckpointNotBuilt

  datatype Creation = Made(instance: nat) | CreationFailed

  datatype Ending = ResultEvent(update: Update) | FailedEvent | RefusedEvent | CancelledEvent | Vanished | Finished

  function FailureOf(node: string, ending: Ending): Failure {
    match ending
    case RefusedEvent => NodeRefusedInput(node)
    case Vanished => NodeVanished(node)
    case Finished => NodeVanished(node)
    case _ => NodeFailed(node)
  }

  datatype Message = Created(node: string, id: nat, made: Creation) | Ended(node: string, id: nat, ending: Ending)

  datatype Outcome =
    | RunEnded(state: State)
    | RunFailed(failures: seq<Failure>, checkpoint: Checkpoint)
    | RunCancelled(failures: seq<Failure>, checkpoint: Checkpoint)

  datatype Origin = FromNodes(nodes: seq<string>) | FromCheckpoint(checkpoint: Checkpoint) {
    function HeldNames(): seq<string> { if FromNodes? then nodes else checkpoint.nodes }
    function FirstTargets(): seq<string> { if FromNodes? then nodes else [] }
    function Starting(): Option<Checkpoint> { if FromNodes? then None else Some(checkpoint) }
  }

  /** One input offered: to which instance, the state it holds, and whether the instance took it. */
  datatype Given = Given(node: string, instance: nat, input: State, taken: bool)

  /**
   * What the nodes, the sink and the host do, up to them: when the input end of each instance closes, in offers of the run;
   * whether an id can be minted for the next instance; whether the sink refuses a checkpoint, by when it is offered;
   * whether the host triggers the token, by how much has happened; whether the grace period is over, in messages.
   */
  datatype Environment =
    Environment(closes: nat -> nat, mints: nat -> bool, refuses: (nat, Checkpoint) -> bool, triggers: nat -> bool,
                lapses: nat -> bool)

  /** The log says of the host what the host did: it triggers when it does, and until then the token reads untriggered. */
  ghost predicate Honest(log: seq<Entry>, triggers: nat -> bool) {
    forall i: nat :: i < |log| ==> HonestAt(log[i], i, triggers)
  }

  predicate HonestAt(e: Entry, at: nat, triggers: nat -> bool) {
    (e.HostTriggered? ==> triggers(at)) && (e.Read? && !e.seen ==> !triggers(at))
  }

  lemma HonestMore(log: seq<Entry>, e: Entry, triggers: nat -> bool)
    requires Honest(log, triggers) && HonestAt(e, |log|, triggers)
    ensures Honest(log + [e], triggers)
  {
  }

  function NonIdleIn(names: seq<string>, slots: map<string, Slot>): (r: seq<string>)
    ensures forall name :: name in r <==> name in names && name in slots && !slots[name].IsIdle()
  {
    if names == [] then []
    else
      var last := names[|names| - 1];
      assert names == names[..|names| - 1] + [last];
      NonIdleIn(names[..|names| - 1], slots)
      + if last in slots && !slots[last].IsIdle() then [last] else []
  }

  lemma {:induction false} NonIdleInIsDistinct(names: seq<string>, slots: map<string, Slot>)
    requires Distinct(names)
    ensures Distinct(NonIdleIn(names, slots))
  {
    if names != [] {
      NonIdleInIsDistinct(names[..|names| - 1], slots);
      assert names[|names| - 1] !in names[..|names| - 1];
    }
  }

  /** The run as an observer of its steps sees it. */
  datatype View = View(machine: Machine, log: seq<Entry>, failures: seq<Failure>, phase: Phase, token: bool)

  /** What every step keeps: nothing recorded is lost, the token stays triggered and a trigger once set is fixed. */
  ghost predicate Later(a: View, b: View) {
    && Prefix(a.failures, b.failures) && Prefix(a.log, b.log)
    && (a.token ==> b.token) && (a.phase.Stopping? ==> b.phase == a.phase)
  }

  ghost predicate NoneApplied(log: seq<Entry>, from: nat) {
    forall i :: from <= i < |log| ==> !log[i].Applied?
  }

  /** A step that applies no `Result`: the machine is as before. */
  ghost predicate Kept(a: View, b: View) {
    Later(a, b) && b.machine == a.machine && NoneApplied(b.log, |a.log|)
  }

  /** A step that applied the `Result` of `node` and no other. */
  ghost predicate AppliedOne(a: View, b: View, node: string, id: nat, update: Update) {
    && Later(a, b) && |b.log| > |a.log| && NoneApplied(b.log, |a.log| + 1)
    && b.log[|a.log|].Applied? && b.log[|a.log|].node == node
    && b.log[|a.log|].instance == id && b.log[|a.log|].update == update
  }

  /** A `Result` that was not applied: the machine is as before its event, with the node active again. */
  ghost predicate Undone(a: View, b: View, node: string) {
    Later(a, b) && NoneApplied(b.log, |a.log|) && b.machine == a.machine.(active := a.machine.active + {node})
  }

  /** A running run has read the token, and is stopping on behalf of the host exactly when it read it triggered. */
  ghost predicate Heeded(a: View, b: View) {
    a.phase.Running? ==> a.log <= b.log && Read(AtHead, b.phase == Stopping(ByHost)) in b.log[|a.log|..]
  }

  lemma HeededSoon(a: View, b: View, c: View)
    requires Kept(a, b) && b.phase == a.phase && c.log == b.log + [Read(AtHead, c.phase == Stopping(ByHost))]
    ensures Heeded(a, c)
  {
    assert c.log[|a.log|..][|b.log| - |a.log|] == c.log[|b.log|];
  }

  lemma HeededThenKept(a: View, b: View, c: View, d: View)
    requires Kept(a, b) && b.phase == a.phase && Heeded(b, c) && Kept(c, d) && d.phase == c.phase
    ensures Heeded(a, d)
  {
    if a.phase.Running? {
      var k :| 0 <= k < |c.log[|b.log|..]| && c.log[|b.log|..][k] == Read(AtHead, c.phase == Stopping(ByHost));
      assert d.log[|a.log|..][|b.log| - |a.log| + k] == c.log[|b.log|..][k];
    }
  }

  lemma LaterJoins(a: View, b: View, c: View)
    requires Later(a, b) && Later(b, c)
    ensures Later(a, c)
  {
  }

  lemma KeptJoins(a: View, b: View, c: View)
    requires Kept(a, b) && Kept(b, c)
    ensures Kept(a, c)
  {
  }

  lemma MoreStillHolds(a: seq<Entry>, b: seq<Entry>, c: seq<Entry>, e: Entry)
    requires Prefix(a, b) && Prefix(b, c) && e in b[|a|..]
    ensures e in c[|a|..]
  {
    assert b[|a|..] <= c[|a|..];
  }

  lemma OfferedThenKept(a: View, b: View, c: View, checkpoint: Checkpoint)
    requires b == a.(log := a.log + [Offered(checkpoint)]) && Kept(b, c)
    ensures Kept(a, c)
  {
  }

  /** One more entry, or none, that is no applied `Result`. */
  lemma HandingKeeps(a: View, b: View, e: Entry)
    requires !e.Applied? && b == a.(log := b.log) && (b.log == a.log || b.log == a.log + [e])
    ensures Kept(a, b)
  {
  }

  lemma AppliedThenKept(a: View, b: View, c: View, node: string, id: nat, update: Update)
    requires AppliedOne(a, b, node, id, update) && Kept(b, c)
    ensures AppliedOne(a, c, node, id, update)
  {
  }

  lemma KeptThenUndone(a: View, b: View, c: View, node: string)
    requires Kept(a, b) && Undone(b, c, node)
    ensures Undone(a, c, node)
  {
  }

  /** Ending an instance and then handling its event: the node is away only in between. */
  lemma EndedThenUndone(a: View, b: View, c: View, node: string)
    requires b == a.(machine := b.machine) && b.machine.state == a.machine.state
    requires b.machine.active + {node} == a.machine.active && Undone(b, c, node)
    ensures Kept(a, c)
  {
  }

  lemma EndedThenApplied(a: View, b: View, c: View, node: string, id: nat, update: Update)
    requires b == a.(machine := b.machine) && AppliedOne(b, c, node, id, update)
    ensures AppliedOne(a, c, node, id, update)
  {
  }

  /** The phase, the failures and the token agree. */
  ghost predicate Consistent(v: View) {
    && (v.failures != [] ==> v.phase.Stopping?)
    && (v.phase == Stopping(ByExecutor) ==> v.failures != [])
    && (v.phase.Stopping? ==> v.token)
  }

  /**
   * A slot is active when it is not idle, is not live once its input is untaken, and its instance is its own: `owner`
   * remembers the node of every instance ever begun, `spent` the instances whose `Result` was applied.
   */
  ghost predicate SlotOk(name: string, slot: Slot, active: set<string>, owner: map<nat, string>, spent: set<nat>) {
    && (name in active <==> !slot.IsIdle())
    && (slot.untaken ==> slot.live.Absent?)
    && (slot.IsLive() ==> slot.live.id in owner && owner[slot.live.id] == name && slot.live.id !in spent)
  }

  ghost predicate SlotsOk(slots: map<string, Slot>, active: set<string>, owner: map<nat, string>, spent: set<nat>) {
    active <= slots.Keys && forall name :: name in slots ==> SlotOk(name, slots[name], active, owner, spent)
  }

  /** An instance takes what it is offered until its input end closes, before the `closes(instance)`-th offer of the run. */
  ghost predicate Truthful(given: seq<Given>, closes: nat -> nat) {
    forall i :: 0 <= i < |given| ==> (given[i].taken <==> i < closes(given[i].instance))
  }

  /** A held input waits only for an instance being created, or at one whose input end is closed. */
  ghost predicate MayWait(slot: Slot, closes: nat -> nat, offers: nat) {
    slot.held ==> slot.live.Creating? || (slot.live.Present? && closes(slot.live.id) <= offers)
  }

  /** While the run is running no held input waits that an instance would take. */
  ghost predicate Served(slots: map<string, Slot>, phase: Phase, closes: nat -> nat, offers: nat) {
    phase.Running? ==> forall name :: name in slots ==> MayWait(slots[name], closes, offers)
  }

  /**
   * What a hand-over does for a slot, from what was offered and logged since: nothing for an input that is not held or
   * whose instance is being created; else the state goes to the instance, which takes it or not, or into a creation.
   */
  ghost predicate Delivered(name: string, was: Slot, now: Slot, state: State, given: seq<Given>, log: seq<Entry>) {
    if !was.held then now == was
    else
      match was.live
      case Creating(_, _) => now == was
      case Present(id) =>
        || (now == was && Given(name, id, state, false) in given)
        || (now == was.(held := false) && Given(name, id, state, true) in given && Handed(name, id, state) in log)
      case Absent =>
        && now.live.Creating? && now == Slot(Creating(now.live.id, state), false, false)
        && Handed(name, now.live.id, state) in log
  }

  /** What handing the state to one node comes to while the run stays running. */
  ghost predicate HandedOne(name: string, was: Slot, now: Slot, state: State, closes: nat -> nat,
                            given: seq<Given>, more: seq<Given>, log: seq<Entry>, moreLog: seq<Entry>) {
    if !was.held || was.live.Creating? then now == was && more == given && moreLog == log
    else if was.live.Present? then
      var id, taken := was.live.id, |given| < closes(was.live.id);
      && now == was.(held := !taken) && more == given + [Given(name, id, state, taken)]
      && moreLog == log + if taken then [Handed(name, id, state)] else []
    else
      && now.live.Creating? && now == Slot(Creating(now.live.id, state), false, false)
      && more == given && moreLog == log + [Handed(name, now.live.id, state)]
  }

  /** What a hand-over from `was` has come to: the slots in `done` are delivered, the others as they were. */
  ghost predicate DeliveredTo(done: seq<string>, was: map<string, Slot>, slots: map<string, Slot>, state: State,
                              given: seq<Given>, log: seq<Entry>) {
    && slots.Keys == was.Keys
    && forall name :: name in slots ==> if name in done then Delivered(name, was[name], slots[name], state, given, log)
                                        else slots[name] == was[name]
  }

  /** A node named twice is offered its input again when its instance refused it, and else nothing. */
  lemma DeliveredOneMore(done: seq<string>, name: string, was: map<string, Slot>, middle: map<string, Slot>,
                         slots: map<string, Slot>, state: State, closes: nat -> nat, from: nat, logFrom: nat,
                         given: seq<Given>, more: seq<Given>, log: seq<Entry>, moreLog: seq<Entry>)
    requires from <= |given| && logFrom <= |log| && DeliveredTo(done, was, middle, state, given[from..], log[logFrom..])
    requires slots == if name in middle && name in slots then middle[name := slots[name]] else middle
    requires name in middle ==>
               name in slots && HandedOne(name, middle[name], slots[name], state, closes, given, more, log, moreLog)
    requires name !in middle ==> more == given && moreLog == log
    ensures DeliveredTo(done + [name], was, slots, state, more[from..], moreLog[logFrom..])
  {
    forall n | n in slots
      ensures if n in done + [name] then Delivered(n, was[n], slots[n], state, more[from..], moreLog[logFrom..])
              else slots[n] == was[n]
    {
      assert forall g :: g in given[from..] ==> g in more[from..] by { assert given[from..] <= more[from..]; }
      assert forall e :: e in log[logFrom..] ==> e in moreLog[logFrom..] by { assert log[logFrom..] <= moreLog[logFrom..]; }
      if n == name && |more| > |given| { assert more[from..][|given| - from] == more[|given|]; }
      if n == name && |moreLog| > |log| { assert moreLog[logFrom..][|log| - logFrom] == moreLog[|log|]; }
    }
  }

  lemma AllMayWait(node: string, was: map<string, Slot>, slots: map<string, Slot>, state: State, closes: nat -> nat,
                   given: seq<Given>, more: seq<Given>, log: seq<Entry>, moreLog: seq<Entry>)
    requires node in was && node in slots && slots == was[node := slots[node]]
    requires forall name :: name in was && name != node ==> MayWait(was[name], closes, |given|)
    requires was[node].live.Present? && HandedOne(node, was[node], slots[node], state, closes, given, more, log, moreLog)
    ensures was[node].held ==> forall name :: name in slots ==> MayWait(slots[name], closes, |more|)
  {
  }

  /** Once delivered, an input that is still held was refused. */
  lemma DeliveredMayWait(name: string, was: Slot, now: Slot, state: State, given: seq<Given>, from: nat,
                         log: seq<Entry>, closes: nat -> nat)
    requires from <= |given| && Truthful(given, closes) && Delivered(name, was, now, state, given[from..], log)
    ensures MayWait(now, closes, |given|)
  {
    if now.held && !now.live.Creating? {
      var i :| 0 <= i < |given[from..]| && given[from..][i] == Given(name, now.live.id, state, false);
      assert given[from + i] == given[from..][i];
    }
  }

  /** A hand-over that went through every held node leaves nothing that waits for nothing. */
  lemma AllDelivered(order: seq<string>, names: seq<string>, was: map<string, Slot>, slots: map<string, Slot>,
                     state: State, given: seq<Given>, from: nat, log: seq<Entry>, closes: nat -> nat, phase: Phase)
    requires from <= |given| && Truthful(given, closes) && DeliveredTo(order, was, slots, state, given[from..], log)
    requires forall name :: name in was && was[name].held ==> name in order
    ensures DeliveredTo(names, was, slots, state, given[from..], log) || !(slots.Keys <= Elements(names))
    ensures Served(slots, phase, closes, |given|)
  {
    forall name | name in slots
      ensures MayWait(slots[name], closes, |given|) && Delivered(name, was[name], slots[name], state, given[from..], log)
    {
      if name in order { DeliveredMayWait(name, was[name], slots[name], state, given, from, log, closes); }
    }
  }

  /** While the run is running no input is untaken. */
  ghost predicate Clean(slots: map<string, Slot>, phase: Phase) {
    phase.Running? ==> forall name :: name in slots ==> !slots[name].untaken
  }

  /** An untaken input is never silent: the token is triggered. */
  ghost predicate Covered(slots: map<string, Slot>, token: bool) {
    !token ==> forall name :: name in slots ==> !slots[name].untaken
  }

  /** `c` is the checkpoint of an outcome that left the machine at `m`. */
  ghost predicate LeftAt(shape: Shape, host: Host, c: Checkpoint, failures: seq<Failure>, m: Machine) {
    Describes(shape, host, c, m) || (Unbuilt(shape, host, c, m) && CheckpointNotBuilt in failures)
  }

  /** How a run ends: all nodes idle without a failure, or by who triggered the token. */
  ghost predicate Classified(shape: Shape, host: Host, o: Outcome, v: View) {
    match o
    case RunEnded(state) => v.failures == [] && v.machine == Machine(state, {})
    case RunFailed(failures, c) =>
      failures == v.failures && failures != [] && v.phase == Stopping(ByExecutor)
      && LeftAt(shape, host, c, failures, v.machine)
    case RunCancelled(failures, c) =>
      failures == v.failures && (failures != [] || v.machine.active != {}) && v.phase == Stopping(ByHost)
      && LeftAt(shape, host, c, failures, v.machine)
  }

  /** What a host learns of one run, and what happened in it. */
  datatype Report = Report(outcome: Option<Outcome>, log: seq<Entry>, sinks: bool)

  /** A run that started at `m`: its history is one of the machine and of the token, and its outcome is about their end. */
  ghost predicate Faithful(shape: Shape, host: Host, m: Machine, r: Report) {
    && Fold(Rule(shape, host), m, r.log).Some?
    && Controlled(r.sinks, r.log).Some? && !Controlled(r.sinks, r.log).value.deciding
    && (r.outcome.Some? ==>
          EndsAt(shape, host, r.outcome.value, Fold(Rule(shape, host), m, r.log).value,
                 Controlled(r.sinks, r.log).value.phase))
  }

  /**
   * `RunEnded` is the machine with nothing active; otherwise the outcome lists the failures and carries a checkpoint of
   * the machine, and it is `RunFailed` or `RunCancelled` by who stopped the run.
   */
  ghost predicate EndsAt(shape: Shape, host: Host, o: Outcome, m: Machine, phase: Phase) {
    match o
    case RunEnded(state) => m == Machine(state, {})
    case RunFailed(failures, c) =>
      failures != [] && phase == Stopping(ByExecutor) && LeftAt(shape, host, c, failures, m)
    case RunCancelled(failures, c) =>
      (failures != [] || m.active != {}) && phase == Stopping(ByHost) && LeftAt(shape, host, c, failures, m)
  }

  /**
   * An outcome that is not `RunEnded` is `RunFailed` if and only if a failure of the run read an untriggered token. The
   * executor was then the first to trigger it if and only if the host did not come between that read and the trigger.
   */
  lemma FailedByAnUntriggeredRead(shape: Shape, host: Host, m: Machine, r: Report)
    requires Faithful(shape, host, m, r) && r.outcome.Some? && !r.outcome.value.RunEnded?
    ensures r.outcome.value.RunFailed? <==> Read(OnFailure, false) in r.log
    ensures r.outcome.value.RunFailed? ==>
              exists k: nat, t: nat :: k < t < |r.log| && r.log[k] == Read(OnFailure, false) && r.log[t] == ExecutorTriggered
                             && (Controlled(r.sinks, r.log).value.first == Some(ByExecutor) <==> !HostBetween(r.log, k, t))
    ensures r.outcome.value.RunCancelled? ==> Controlled(r.sinks, r.log).value.first == Some(ByHost)
  {
    DecidedByARead(r.sinks, r.log);
    FirstIsWhoCameFirst(r.sinks, r.log);
    if r.outcome.value.RunFailed? {
      var k, t := ExecutorFirstUnlessHostBetween(r.sinks, r.log);
    } else {
      CancelledHostFirst(r.sinks, r.log);
    }
  }

  /** A run that the host stopped was triggered by the host, and first by it. */
  lemma {:induction false} CancelledHostFirst(sinks: bool, log: seq<Entry>)
    requires Controlled(sinks, log).Some? && Controlled(sinks, log).value.phase != Stopping(ByExecutor)
    ensures var c := Controlled(sinks, log).value; !c.deciding && (c.first.Some? ==> c.first == Some(ByHost))
  {
    if log != [] { CancelledHostFirst(sinks, log[..|log| - 1]); }
  }

  /**
   * So a run can fail although the host was the first to trigger: the failure reads an untriggered token, the host
   * triggers it, and then the executor does. Any run left at `m` by one failure reports that history faithfully.
   */
  lemma HostFirstYetRunFailed(shape: Shape, host: Host, m: Machine, failure: Failure, c: Checkpoint, sinks: bool)
    requires Describes(shape, host, c, m)
    ensures var log := [Read(OnFailure, false), HostTriggered, ExecutorTriggered];
            && Faithful(shape, host, m, Report(Some(RunFailed([failure], c)), log, sinks))
            && Controlled(sinks, log).value.first == Some(ByHost)
            && forall failures, d :: !Faithful(shape, host, m, Report(Some(RunCancelled(failures, d)), log, sinks))
  {
    var read := [Read(OnFailure, false)];
    HostFirstYetExecutorDecides(sinks);
    ReplaySignal(shape, host, m, [], Read(OnFailure, false));
    ReplaySignal(shape, host, m, read, HostTriggered);
    ReplaySignal(shape, host, m, read + [HostTriggered], ExecutorTriggered);
    assert [] + read == read;
    assert read + [HostTriggered] + [ExecutorTriggered] == [Read(OnFailure, false), HostTriggered, ExecutorTriggered];
  }

  /** A run whose host never triggers the token is not cancelled, and every failure of it is the executor's to decide. */
  lemma LeftAloneIsNotCancelled(shape: Shape, host: Host, m: Machine, r: Report, triggers: nat -> bool)
    requires Faithful(shape, host, m, r) && Honest(r.log, triggers) && (forall i :: !triggers(i))
    ensures r.outcome.Some? ==> !r.outcome.value.RunCancelled?
    ensures HostTriggered !in r.log
  {
    FirstIsWhoCameFirst(r.sinks, r.log);
    DecidedByARead(r.sinks, r.log);
    assert forall i: nat :: i < |r.log| ==> HonestAt(r.log[i], i, triggers);
    if r.outcome.Some? && r.outcome.value.RunCancelled? { CancelledHostFirst(r.sinks, r.log); }
  }

  /** What one entry more, not an applied `Result`, does to a history. */
  lemma OneEntryMore(shape: Shape, host: Host, sinks: bool, start: Machine, log: seq<Entry>, e: Entry, c: Control,
                     d: Control)
    requires Controlled(sinks, log) == Some(c) && Observe(sinks, c, e) == Some(d) && !e.Applied?
    ensures Controlled(sinks, log + [e]) == Some(d)
    ensures IsSignal(e) ==> Fold(Rule(shape, host), start, log + [e]) == Fold(Rule(shape, host), start, log)
    ensures var before := Fold(Rule(shape, host), start, log);
            before.Some? && Step(shape, host, before.value, e) == before ==>
              Fold(Rule(shape, host), start, log + [e]) == before
  {
    FoldOneMore(Watch(sinks), CALM, log, e);
    if Fold(Rule(shape, host), start, log).Some? { FoldOneMore(Rule(shape, host), start, log, e); }
    if IsSignal(e) { ReplaySignal(shape, host, start, log, e); }
  }

  /** What a failure that reads an untriggered token does to a history; the host may come before the executor triggers. */
  lemma DecidedHistory(shape: Shape, host: Host, sinks: bool, start: Machine, log: seq<Entry>, c: Control, late: bool)
    requires Controlled(sinks, log) == Some(c) && c.phase.Running? && !c.token && !c.deciding
    ensures var between := if late then [HostTriggered] else [];
            var after := log + ([Read(OnFailure, false)] + between + [ExecutorTriggered]);
            var who := if late then ByHost else ByExecutor;
            && Controlled(sinks, after) == Some(c.(token := true, first := Some(who), phase := Stopping(ByExecutor)))
            && Fold(Rule(shape, host), start, after) == Fold(Rule(shape, host), start, log)
  {
    FirstIsWhoCameFirst(sinks, log);
    var deciding := c.(phase := Stopping(ByExecutor), deciding := true);
    var log1 := log + [Read(OnFailure, false)];
    OneEntryMore(shape, host, sinks, start, log, Read(OnFailure, false), c, deciding);
    var log2 := if late then log1 + [HostTriggered] else log1;
    var d := if late then deciding.(token := true, first := Some(ByHost)) else deciding;
    if late { OneEntryMore(shape, host, sinks, start, log1, HostTriggered, deciding, d); }
    OneEntryMore(shape, host, sinks, start, log2, ExecutorTriggered, d, Observe(sinks, d, ExecutorTriggered).value);
    assert log2 + [ExecutorTriggered]
        == log + ([Read(OnFailure, false)] + (if late then [HostTriggered] else []) + [ExecutorTriggered]);
  }

  lemma HonestDecision(log: seq<Entry>, late: bool, triggers: nat -> bool)
    requires Honest(log, triggers) && !triggers(|log|) && (late ==> triggers(|log| + 1))
    ensures Honest(log + ([Read(OnFailure, false)] + (if late then [HostTriggered] else []) + [ExecutorTriggered]), triggers)
  {
    var between := if late then [HostTriggered] else [];
    HonestMore(log, Read(OnFailure, false), triggers);
    if late { HonestMore(log + [Read(OnFailure, false)], HostTriggered, triggers); }
    HonestMore(log + [Read(OnFailure, false)] + between, ExecutorTriggered, triggers);
    assert log + [Read(OnFailure, false)] + between + [ExecutorTriggered]
        == log + ([Read(OnFailure, false)] + between + [ExecutorTriggered]);
    assert log + [Read(OnFailure, false)] + [] == log + [Read(OnFailure, false)];
  }

  lemma AppliedMore(sinks: bool, log: seq<Entry>, e: Entry, c: Control)
    requires e.Applied? && Controlled(sinks, log) == Some(c) && !c.deciding && e.instance !in c.spent
    ensures Controlled(sinks, log + [e]) == Some(c.(saved := false, spent := c.spent + {e.instance}))
  {
    FoldOneMore(Watch(sinks), CALM, log, e);
  }

  lemma SpentMore(slots: map<string, Slot>, active: set<string>, owner: map<nat, string>, spent: set<nat>,
                  node: string, id: nat)
    requires SlotsOk(slots, active, owner, spent) && node in slots && slots[node].live.Absent?
    requires id in owner && owner[id] == node
    ensures SlotsOk(slots, active, owner, spent + {id})
  {
    forall name | name in slots ensures SlotOk(name, slots[name], active, owner, spent + {id}) {
      assert SlotOk(name, slots[name], active, owner, spent);
    }
  }

  function NodeTargets(targets: seq<Target>): seq<string> {
    if targets == [] then []
    else
      NodeTargets(targets[..|targets| - 1])
      + if targets[|targets| - 1].Node? then [targets[|targets| - 1].name] else []
  }

  /** What the targets of an edge name: the nodes among them, and nothing else. */
  lemma {:induction false} NamedAreTheNodes(targets: seq<Target>, name: string)
    ensures name in Named(targets) <==> Node(name) in targets
    ensures name in NodeTargets(targets) <==> Node(name) in targets
  {
    if targets != [] {
      NamedAreTheNodes(targets[..|targets| - 1], name);
      assert targets == targets[..|targets| - 1] + [targets[|targets| - 1]];
    }
    assert Node(name).name == name;
  }

  /** The held nodes that the targets do not name. */
  function OtherHeld(slots: map<string, Slot>, targets: seq<string>): string -> bool {
    name => name in slots && slots[name].held && name !in targets
  }

  /** Going through names that are all different, a name has not been picked before its turn. */
  lemma OneNameMore(names: seq<string>, i: nat, keep: string -> bool)
    requires Distinct(names) && i < |names|
    ensures Filter(names[..i + 1], keep) == Filter(names[..i], keep) + if keep(names[i]) then [names[i]] else []
    ensures names[i] !in Filter(names[..i], keep)
  {
    assert names[..i + 1] == names[..i] + [names[i]];
    FilterJoins(names[..i], [names[i]], keep);
    FilterMembers(names[..i], keep);
  }

  lemma NamedGrows(targets: seq<Target>, i: nat)
    requires i < |targets|
    ensures Named(targets[..i + 1])
         == Named(targets[..i]) + if targets[i].Node? then {targets[i].name} else {}
    ensures targets[i].Node? ==> targets[i].name in Named(targets)
    ensures NodeTargets(targets[..i + 1])
         == NodeTargets(targets[..i]) + if targets[i].Node? then [targets[i].name] else []
  {
    assert targets[..i + 1] == targets[..i] + [targets[i]];
    assert targets[i] in targets;
  }

  // ----- what comes of a message -----

  /**
   * What a step checkpoint of `a` leaves behind: the failure to build it, or with a sink its offer, before anything else.
   */
  ghost predicate Checkpointed(shape: Shape, host: Host, sinks: bool, a: View, b: View) {
    if host.text(a.machine.state).None? then |b.failures| > |a.failures| && b.failures[|a.failures|] == CheckpointNotBuilt
    else
      sinks ==>
        && |b.log| > |a.log| && b.log[|a.log|].Offered?
        && Describes(shape, host, b.log[|a.log|].checkpoint, a.machine)
  }

  /** The update is applied to `current` and the edge of `node` can be evaluated on the new state. */
  ghost predicate Applies(shape: Shape, host: Host, current: State, node: string, update: Update) {
    host.apply(current, update).Some? && EvaluateAt(shape, host, node, host.apply(current, update).value).Ok?
  }

  function Refusal(host: Host, current: State, node: string, update: Update): Failure {
    if host.apply(current, update).None? then UpdateRefused(node) else EdgeFailed(node)
  }

  /**
   * What comes of a `Result` of a node that has ended: it is applied if its update and its edge allow it, and then, if
   * the run goes on, a checkpoint follows at once; else it is undone as a whole and the failure says why.
   */
  ghost predicate ResultHandled(shape: Shape, host: Host, sinks: bool, a: View, b: View, node: string, id: nat,
                                update: Update) {
    if Applies(shape, host, a.machine.state, node, update) then
      && AppliedOne(a, b, node, id, update)
      && (a.phase.Running? && b.machine.active != {} ==>
            Checkpointed(shape, host, sinks, a.(machine := b.machine, log := b.log[..|a.log| + 1]), b))
    else Undone(a, b, node) && b.failures == a.failures + [Refusal(host, a.machine.state, node, update)]
  }

  /** What comes of any other event: the failure that says which, unless a cancelled instance sees a triggered token. */
  ghost predicate EventHandled(a: View, b: View, node: string, ending: Ending) {
    if ending.CancelledEvent? then
      exists seen :: |a.log| <= |b.log| && Read(OnCancelled, seen) in b.log[|a.log|..]
                     && b.failures == a.failures + if seen then [] else [NodeFailed(node)]
    else b.failures == a.failures + [FailureOf(node, ending)]
  }

  /** What comes of the end of the instance that a slot holds. */
  ghost predicate EndHandled(shape: Shape, host: Host, sinks: bool, a: View, b: View, node: string, id: nat,
                             ending: Ending) {
    match ending
    case ResultEvent(update) =>
      if Applies(shape, host, a.machine.state, node, update) then
        && AppliedOne(a, b, node, id, update)
        && (a.phase.Running? && b.machine.active != {} ==>
              Checkpointed(shape, host, sinks, a.(machine := b.machine, log := b.log[..|a.log| + 1]), b))
      else Kept(a, b) && b.failures == a.failures + [Refusal(host, a.machine.state, node, update)]
    case _ => Kept(a, b) && EventHandled(a, b, node, ending)
  }

  /** What comes of a message, from what the run had come to when it read the token before it. */
  ghost predicate MessageHandled(shape: Shape, host: Host, sinks: bool, a: View, b: View, was: map<string, Slot>,
                                 now: map<string, Slot>, message: Message) {
    var holder := message.node in was;
    match message
    case Created(node, id, made) =>
      if holder && was[node].live.Creating? && was[node].live.id == id then
        && Kept(a, b) && node in now && now == was[node := now[node]]
        && (if made == Made(id) then b.failures == a.failures && now[node].live == Present(id)
            else b.failures == a.failures + [NodeCouldNotStart(node)] && now[node] == Slot(Absent, true, true))
      else b == a && now == was
    case Ended(node, id, ending) =>
      if holder && was[node].live == Present(id) then EndHandled(shape, host, sinks, a, b, node, id, ending)
      else b == a && now == was
  }

  /** A message, and what it was received with, heeded with and left: the slots and the run as seen from outside. */
  datatype Chapter =
    Chapter(message: Message, was: map<string, Slot>, before: View, heeded: View, now: map<string, Slot>, after: View)

  ghost predicate ChapterOk(shape: Shape, host: Host, sinks: bool, c: Chapter) {
    && Kept(c.before, c.heeded) && c.heeded.failures == c.before.failures && Heeded(c.before, c.heeded)
    && MessageHandled(shape, host, sinks, c.heeded, c.after, c.was, c.now, c.message)
  }

  /** Between two messages nothing moves but the token and the phase. */
  ghost predicate Follows(after: View, now: map<string, Slot>, before: View, was: map<string, Slot>) {
    Kept(after, before) && before.failures == after.failures && was == now
  }

  /** The story of a run: each message in the order it came, with what came of it, and nothing in between. */
  ghost predicate Tells(shape: Shape, host: Host, sinks: bool, story: seq<Chapter>, messages: seq<Message>) {
    && |story| <= |messages|
    && (forall i :: 0 <= i < |story| ==> story[i].message == messages[i] && ChapterOk(shape, host, sinks, story[i]))
    && (forall i :: 0 < i < |story| ==> Follows(story[i - 1].after, story[i - 1].now, story[i].before, story[i].was))
  }

  /** The run is still where its last message has left it; before the first, no `Result` was applied. */
  ghost predicate Rests(story: seq<Chapter>, seen: View, slots: map<string, Slot>) {
    if story == [] then NoneApplied(seen.log, 0)
    else Follows(story[|story| - 1].after, story[|story| - 1].now, seen, slots)
  }

  /** Nothing was applied after its last message. */
  ghost predicate Closes(story: seq<Chapter>, log: seq<Entry>) {
    if story == [] then NoneApplied(log, 0)
    else Prefix(story[|story| - 1].after.log, log) && NoneApplied(log, |story[|story| - 1].after.log|)
  }

  predicate NoneLive(slots: map<string, Slot>) { forall name :: name in slots ==> !slots[name].IsLive() }

  /** A run that has heard of its instances ends when none is left to hear of, or when the grace period is over. */
  ghost predicate Patient(story: seq<Chapter>, lapses: nat -> bool, zeroGrace: bool) {
    story != [] ==> lapses(|story|) || zeroGrace || NoneLive(story[|story| - 1].now)
  }

  lemma RestsOn(story: seq<Chapter>, a: View, b: View, slots: map<string, Slot>)
    requires Rests(story, a, slots) && Kept(a, b)
    ensures b.failures == a.failures ==> Rests(story, b, slots)
    ensures Closes(story, b.log)
  {
    if story != [] {
      KeptJoins(story[|story| - 1].after, a, b);
    }
  }

  lemma OneChapterMore(shape: Shape, host: Host, sinks: bool, story: seq<Chapter>, c: Chapter, messages: seq<Message>)
    requires Tells(shape, host, sinks, story, messages) && |story| < |messages| && c.message == messages[|story|]
    requires ChapterOk(shape, host, sinks, c) && (story != [] ==> Rests(story, c.before, c.was))
    ensures Tells(shape, host, sinks, story + [c], messages)
    ensures Rests(story + [c], c.after, c.now) && Closes(story + [c], c.after.log)
  {
  }

  class Run {
    const shape: Shape
    const names: seq<string> // the names of the slots, in order
    const host: Host
    const hasSink: bool
    const zeroGrace: bool
    var state: State
    var slots: map<string, Slot>
    var failures: seq<Failure>
    var phase: Phase
    var token: bool          // the cancel token, shared with the host that may trigger it at any time
    var supply: nat          // fresh instance ids
    var log: seq<Entry>      // what happens
    var given: seq<Given>    // what the instances are offered
    const env: Environment
    ghost var story: seq<Chapter>      // the messages received and what came of them
    ghost var first: Option<Trigger>   // who triggered the token first
    ghost var saved: bool              // a checkpoint was offered since the last applied `Result`
    ghost var active: set<string>      // the names of the slots that are not idle
    ghost var owner: map<nat, string>  // the node of every instance ever begun
    ghost var spent: set<nat>          // the instances whose `Result` was applied
    ghost var start: Machine

    ghost function Seen(): View
      reads this
    {
      View(Machine(state, active), log, failures, phase, token)
    }

    ghost function Now(): Control
      reads this
    {
      Control(token, first, phase, saved, spent, false)
    }

    ghost function Replayed(): Option<Machine>
      reads this
    {
      Fold(Rule(shape, host), start, log)
    }

    /** What the graph and the host are trusted for. */
    ghost predicate Wired() {
      Distinct(names) && Closed(shape.edges, Elements(names)) && Obliging(host)
    }

    ghost predicate Sound()
      reads this
    {
      && slots.Keys == Elements(names)
      && Consistent(Seen()) && SlotsOk(slots, active, owner, spent) && spent <= owner.Keys && Truthful(given, env.closes)
      && Honest(log, env.triggers)
      && Controlled(hasSink, log) == Some(Now())
      && (forall id :: id in owner ==> id < supply)
    }

    ghost predicate Valid()
      reads this
    {
      Sound() && Covered(slots, token) && Replayed() == Some(Machine(state, active))
    }

    /** With a sink, a running run that has work to do has offered its state. */
    ghost predicate Saved()
      reads this
    {
      hasSink && phase.Running? && active != {} ==> saved
    }

    constructor (shape: Shape, host: Host, state: State, hasSink: bool, zeroGrace: bool, env: Environment)
      ensures Valid() && Saved() && fresh(this)
      ensures names == NodeNames(shape.nodes) && this.shape == shape && this.host == host && this.state == state
      ensures this.hasSink == hasSink && this.zeroGrace == zeroGrace
      ensures start == Machine(state, {}) && active == {} && Clean(slots, phase)
      ensures phase == Running && failures == [] && log == [] && given == [] && story == [] && this.env == env
    {
      this.shape, this.host, this.hasSink, this.zeroGrace, this.env := shape, host, hasSink, zeroGrace, env;
      this.state, failures, phase, token, supply := state, [], Running, false, 0;
      log, given, story := [], [], [];
      names := NodeNames(shape.nodes);
      slots := map name | name in NodeNames(shape.nodes) :: Slot(Absent, false, false);
      first, saved, start := None, true, Machine(state, {});
      active, owner, spent := {}, map[], {};
    }

    // ----- the token and the phase -----

    /** The host, or an ancestor token, may trigger the token at any moment. */
    method HostMayTrigger()
      requires Sound()
      modifies this`token, this`first, this`log
      ensures Sound() && Kept(old(Seen()), Seen()) && Replayed() == old(Replayed())
      ensures (token || (!env.triggers(|log|) && log == old(log))) && phase == old(phase)
    {
      if env.triggers(|log|) && !token {
        HonestMore(log, HostTriggered, env.triggers);
        OneEntryMore(shape, host, hasSink, start, log, HostTriggered, Now(),
                     Now().(token := true, first := Some(ByHost)));
        log, token, first := log + [HostTriggered], true, Some(ByHost);
      }
    }

    /** Reads the token as it is, without consequence. */
    method Look(reader: Reader) returns (seen: bool)
      requires Sound() && (reader == OnCancelled || (reader == WhileWaiting && phase.Running?))
      modifies this`token, this`first, this`log
      ensures Sound() && Kept(old(Seen()), Seen()) && Replayed() == old(Replayed())
      ensures seen == token && Read(reader, seen) in log[|old(log)|..]
    {
      HostMayTrigger();
      seen := token;
      OneEntryMore(shape, host, hasSink, start, log, Read(reader, seen), Now(), Now());
      HonestMore(log, Read(reader, seen), env.triggers);
      log := log + [Read(reader, seen)];
    }

    /** Reads the token; a triggered one stops a running run on behalf of the host. */
    method ReadToken()
      requires Sound()
      modifies this`token, this`first, this`phase, this`log
      ensures Sound() && Kept(old(Seen()), Seen()) && Replayed() == old(Replayed())
      ensures phase.Running? ==> !token
      ensures Heeded(old(Seen()), Seen()) && (old(phase).Running? && phase.Stopping? ==> phase == Stopping(ByHost))
    {
      HostMayTrigger();
      ghost var told := Seen();
      if phase.Running? {
        HeedToken();
        KeptJoins(old(Seen()), told, Seen());
        HeededSoon(old(Seen()), told, Seen());
      }
    }

    method HeedToken()
      requires Sound() && phase.Running? && (token || !env.triggers(|log|))
      modifies this`phase, this`log
      ensures Sound() && Kept(old(Seen()), Seen()) && Replayed() == old(Replayed())
      ensures phase == (if token then Stopping(ByHost) else Running) && log == old(log) + [Read(AtHead, token)]
    {
      var after := if token then Stopping(ByHost) else Running;
      OneEntryMore(shape, host, hasSink, start, log, Read(AtHead, token), Now(), Now().(phase := after));
      HonestMore(log, Read(AtHead, token), env.triggers);
      log, phase := log + [Read(AtHead, token)], after;
    }

    /**
     * A failure of a running run reads the token. Triggered, it leaves the run to the host; else the executor triggers it,
     * and the host may still come in between.
     */
    method Decide()
      requires Sound() && phase.Running?
      modifies this`token, this`first, this`phase, this`log, this`failures
      ensures Controlled(hasSink, log) == Some(Now()) && Replayed() == old(Replayed()) && Honest(log, env.triggers)
      ensures phase.Stopping? && token && failures == old(failures)
      ensures Prefix(old(log), log) && NoneApplied(log, |old(log)|)
      ensures Read(OnFailure, phase == Stopping(ByHost)) in log[|old(log)|..]
    {
      HostMayTrigger();
      ghost var read := Read(OnFailure, token);
      if token {
        OneEntryMore(shape, host, hasSink, start, log, read, Now(), Now().(phase := Stopping(ByHost)));
        HonestMore(log, read, env.triggers);
        log, phase := log + [Read(OnFailure, true)], Stopping(ByHost);
      } else {
        Trigger();
      }
    }

    /** The executor's failure has read an untriggered token. */
    method Trigger()
      requires Sound() && phase.Running? && !token && !env.triggers(|log|)
      modifies this`token, this`first, this`phase, this`log
      ensures Controlled(hasSink, log) == Some(Now()) && Replayed() == old(Replayed()) && Honest(log, env.triggers)
      ensures phase == Stopping(ByExecutor) && token
      ensures Prefix(old(log), log) && NoneApplied(log, |old(log)|) && Read(OnFailure, false) in log[|old(log)|..]
    {
      var late := env.triggers(|log| + 1);
      var between := if late then [HostTriggered] else [];
      HonestDecision(log, late, env.triggers);
      DecidedHistory(shape, host, hasSink, start, log, Now(), late);
      log := log + ([Read(OnFailure, false)] + between + [ExecutorTriggered]);
      token, first, phase := true, Some(if late then ByHost else ByExecutor), Stopping(ByExecutor);
    }

    /**
     * Records a failure. The first one stops the run: for the executor if it reads an untriggered token, which it then
     * triggers, and else for the host.
     */
    method Fail(failure: Failure)
      requires Sound()
      modifies this`token, this`first, this`phase, this`log, this`failures
      ensures Sound() && Kept(old(Seen()), Seen()) && Replayed() == old(Replayed())
      ensures phase.Stopping? && failures == old(failures) + [failure]
      ensures old(phase).Running? ==> Read(OnFailure, phase == Stopping(ByHost)) in log[|old(log)|..]
    {
      if phase.Running? {
        Decide();
      }
      failures := failures + [failure];
    }

    method FailNode(node: string, failure: Failure)
      requires Sound()
      requires node in slots && slots[node].live.Absent?
      modifies this`slots, this`active, this`token, this`first, this`phase, this`log, this`failures
      ensures Sound() && Undone(old(Seen()), Seen(), node) && Replayed() == old(Replayed())
      ensures phase.Stopping? && failures == old(failures) + [failure]
      ensures slots == old(slots)[node := old(slots)[node].(untaken := true)]
    {
      slots := slots[node := slots[node].(untaken := true)];
      active := active + {node};
      Fail(failure);
    }

    // ----- handing the state over -----

    /** Whatever was offered after `earlier` was this state. */
    ghost predicate GivenSince(earlier: seq<Given>, current: State)
      reads this`given
    {
      earlier <= given && forall i :: |earlier| <= i < |given| ==> given[i].input == current
    }

    /** Offers the input to the instance that is present: it takes it, or its input end is closed. */
    method GiveInput(name: string, input: State) returns (taken: bool)
      requires Valid()
      modifies this`given
      ensures Valid() && Seen() == old(Seen())
      ensures if name in slots && slots[name].live.Present?
              then && (taken <==> |old(given)| < env.closes(slots[name].live.id))
                   && given == old(given) + [Given(name, slots[name].live.id, input, taken)]
              else !taken && given == old(given)
    {
      if name !in slots || !slots[name].live.Present? { return false; }
      taken := |given| < env.closes(slots[name].live.id);
      given := given + [Given(name, slots[name].live.id, input, taken)];
    }

    /** The state goes out: with a sink, only after a checkpoint of it was offered. */
    method Hand(name: string, id: nat)
      requires Valid() && phase.Running? && name in active && (hasSink ==> saved)
      modifies this`log
      ensures Valid() && Seen() == old(Seen()).(log := old(log) + [Handed(name, id, state)])
    {
      ghost var e := Handed(name, id, state);
      OneEntryMore(shape, host, hasSink, start, log, e, Now(), Now());
      HonestMore(log, e, env.triggers);
      log := log + [Handed(name, id, state)];
    }

    /** A held input is the current state; it stays held when the instance does not take it. */
    method GiveHeld(name: string)
      requires Valid() && phase.Running? && Clean(slots, phase) && (hasSink ==> saved)
      requires name in slots && slots[name].held && slots[name].live.Present?
      modifies this`slots, this`log, this`given
      ensures Valid() && Clean(slots, phase) && Seen() == old(Seen()).(log := log)
      ensures name in slots && slots == old(slots)[name := slots[name]]
      ensures HandedOne(name, old(slots)[name], slots[name], state, env.closes, old(given), given, old(log), log)
    {
      var taken := GiveInput(name, state);
      if taken { LetGo(name); }
    }

    method LetGo(name: string)
      requires Valid() && phase.Running? && Clean(slots, phase) && (hasSink ==> saved)
      requires name in slots && slots[name].held && slots[name].live.Present?
      modifies this`slots, this`log
      ensures Valid() && Clean(slots, phase)
      ensures slots == old(slots)[name := old(slots)[name].(held := false)]
      ensures Seen() == old(Seen()).(log := old(log) + [Handed(name, old(slots)[name].live.id, state)])
    {
      Hand(name, slots[name].live.id);
      Release(name);
    }

    method Release(name: string)
      requires Valid() && Clean(slots, phase) && name in slots && slots[name].live.Present?
      modifies this`slots
      ensures Valid() && Clean(slots, phase) && Seen() == old(Seen())
      ensures slots == old(slots)[name := old(slots)[name].(held := false)]
    {
      slots := slots[name := slots[name].(held := false)];
    }

    method BeginCreation(name: string)
      requires Valid() && phase.Running? && Clean(slots, phase) && (hasSink ==> saved)
      requires name in slots && slots[name].held && slots[name].live.Absent?
      modifies this`slots, this`active, this`owner, this`supply
      modifies this`token, this`first, this`phase, this`log, this`failures
      ensures Valid() && Clean(slots, phase) && Kept(old(Seen()), Seen())
      ensures name in slots && slots == old(slots)[name := slots[name]]
      ensures phase.Running? ==>
                && slots[name] == Slot(Creating(old(supply), state), false, false) && failures == old(failures)
                && log == old(log) + [Handed(name, old(supply), state)]
      ensures phase.Stopping? ==> failures == old(failures) + [NodeCouldNotStart(name)]
      ensures phase.Running? <==> env.mints(old(supply))
    {
      if env.mints(supply) {
        Hand(name, supply);
        StartCreating(name);
      } else {
        CreationImpossible(name);
      }
    }

    method CreationImpossible(name: string)
      requires Valid() && name in slots && slots[name].held && slots[name].live.Absent?
      modifies this`slots, this`active, this`token, this`first, this`phase, this`log, this`failures
      ensures Valid() && Kept(old(Seen()), Seen())
      ensures slots == old(slots)[name := old(slots)[name].(untaken := true)]
      ensures phase.Stopping? && failures == old(failures) + [NodeCouldNotStart(name)]
    {
      FailNode(name, NodeCouldNotStart(name));
      assert active == old(active);
    }

    method StartCreating(name: string)
      requires Valid() && Clean(slots, phase) && name in slots && slots[name].held && slots[name].live.Absent?
      requires phase.Running?
      modifies this`slots, this`owner, this`supply
      ensures Valid() && Clean(slots, phase) && Seen() == old(Seen())
      ensures slots == old(slots)[name := Slot(Creating(old(supply), state), false, false)]
    {
      slots := slots[name := Slot(Creating(supply, state), false, false)];
      owner := owner[supply := name];
      supply := supply + 1;
    }

    /** A held input is offered to the instance that is running, or begins a creation; while one is created it waits. */
    method HandTo(name: string)
      requires Valid() && phase.Running? && Clean(slots, phase) && (hasSink ==> saved)
      modifies this`slots, this`active, this`owner, this`supply, this`given
      modifies this`token, this`first, this`phase, this`log, this`failures
      ensures Valid() && Kept(old(Seen()), Seen()) && Clean(slots, phase)
      ensures slots == if name in slots then old(slots)[name := slots[name]] else old(slots)
      ensures phase.Running? && name !in slots ==> given == old(given) && log == old(log)
      ensures phase.Running? && name in slots ==>
                HandedOne(name, old(slots)[name], slots[name], state, env.closes, old(given), given, old(log), log)
      ensures phase.Running? ==> failures == old(failures)
      ensures phase.Stopping? ==> given == old(given) && failures == old(failures) + [NodeCouldNotStart(name)]
      ensures phase.Stopping? <==>
                name in slots && old(slots)[name].held && old(slots)[name].live.Absent? && !env.mints(old(supply))
    {
      if name !in slots || !slots[name].held { return; }
      match slots[name].live {
        case Creating(_, _) =>
        case Present(_) =>
          GiveHeld(name);
          HandingKeeps(old(Seen()), Seen(), Handed(name, slots[name].live.id, state));
        case Absent => BeginCreation(name);
      }
    }

    /** The targets first, then every other held node in name order. */
    method HandOverOrder(targets: seq<string>) returns (order: seq<string>)
      requires Distinct(names) && slots.Keys == Elements(names)
      ensures order == targets + Filter(names, OtherHeld(slots, targets))
      ensures forall name :: name in slots && slots[name].held ==> name in order
    {
      order := targets;
      var others := OtherHeld(slots, targets);
      for i := 0 to |names|
        invariant order == targets + Filter(names[..i], others)
      {
        OneNameMore(names, i, others);
        if slots[names[i]].held && names[i] !in order { order := order + [names[i]]; }
      }
      assert names[..|names|] == names;
      FilterMembers(names, others);
    }

    /** Goes through the targets and every other held node: while the run stays running, each is delivered its input. */
    method HandOver(targets: seq<string>)
      requires Wired()
      requires Valid() && phase.Running? && Clean(slots, phase) && (hasSink ==> saved)
      modifies this`slots, this`active, this`owner, this`supply, this`given
      modifies this`token, this`first, this`phase, this`log, this`failures
      ensures Valid() && Kept(old(Seen()), Seen())
      ensures Served(slots, phase, env.closes, |given|) && Clean(slots, phase)
      ensures GivenSince(old(given), state)
      ensures phase.Running? ==>
                DeliveredTo(names, old(slots), slots, state, given[|old(given)|..], log[|old(log)|..])
    {
      var order := HandOverOrder(targets);
      ghost var was := slots;
      var k := 0;
      while k < |order|
        invariant k <= |order| && Valid() && Kept(old(Seen()), Seen())
        invariant Clean(slots, phase) && GivenSince(old(given), state)
        invariant phase.Running? ==>
                    DeliveredTo(order[..k], was, slots, state, given[|old(given)|..], log[|old(log)|..])
      {
        if phase.Stopping? { return; }
        ghost var before := Seen();
        HandToNext(order, k, was, old(given), |old(log)|);
        KeptJoins(old(Seen()), before, Seen());
        k := k + 1;
      }
      assert order[..k] == order;
      if phase.Running? {
        AllDelivered(order, names, was, slots, state, given, |old(given)|, log[|old(log)|..], env.closes, phase);
      }
    }

    /** The next of an order. */
    method HandToNext(order: seq<string>, k: nat, ghost was: map<string, Slot>, ghost earlier: seq<Given>,
                      ghost logFrom: nat)
      requires Valid() && phase.Running? && Clean(slots, phase) && (hasSink ==> saved)
      requires k < |order| && GivenSince(earlier, state) && logFrom <= |log|
      requires DeliveredTo(order[..k], was, slots, state, given[|earlier|..], log[logFrom..])
      modifies this`slots, this`active, this`owner, this`supply, this`given
      modifies this`token, this`first, this`phase, this`log, this`failures
      ensures Valid() && Kept(old(Seen()), Seen()) && Clean(slots, phase) && GivenSince(earlier, state)
      ensures phase.Running? ==>
                DeliveredTo(order[..k + 1], was, slots, state, given[|earlier|..], log[logFrom..])
    {
      ghost var middle, offers, entries := slots, given, log;
      HandTo(order[k]);
      if phase.Running? {
        DeliveredOneMore(order[..k], order[k], was, middle, slots, state, env.closes, |earlier|, logFrom, offers, given,
                         entries, log);
        assert order[..k + 1] == order[..k] + [order[k]];
      }
    }

    // ----- checkpoints -----

    method BuildCheckpoint() returns (built: Option<Checkpoint>)
      requires Wired() && slots.Keys == Elements(names)
      requires SlotsOk(slots, active, owner, spent)
      ensures built.Some? <==> host.text(state).Some?
      ensures built.Some? ==> Describes(shape, host, built.value, Machine(state, active))
    {
      NonIdleInIsDistinct(names, slots);
      match host.text(state) {
        case None => built := None;
        case Some(text) =>
          built := Some(Checkpoint(text, shape, NonIdleIn(names, slots)));
          assert Elements(built.value.nodes) == active;
      }
    }

    /** Builds the checkpoint of a running run and offers it to the sink, which may refuse it. */
    method TakeStepCheckpoint()
      requires Wired()
      requires Valid() && phase.Running?
      modifies this`token, this`first, this`phase, this`log, this`failures, this`saved
      ensures Valid() && Kept(old(Seen()), Seen()) && Checkpointed(shape, host, hasSink, old(Seen()), Seen())
      ensures phase.Running? <==> failures == old(failures)
      ensures phase.Running? && hasSink ==> saved
      ensures host.text(state).None? ==> failures == old(failures) + [CheckpointNotBuilt]
      ensures host.text(state).Some? && phase.Stopping? ==>
                hasSink && failures == old(failures) + [SinkRefused(log[|old(log)|].checkpoint)]
      ensures host.text(state).Some? && hasSink ==>
                (phase.Stopping? <==> env.refuses(|old(log)| + 1, log[|old(log)|].checkpoint))
    {
      var built := BuildCheckpoint();
      if built.None? {
        Fail(CheckpointNotBuilt);
        return;
      }
      if !hasSink { return; }
      Submit(built.value);
    }

    /** Offers a checkpoint to the sink and hears its answer. */
    method Submit(checkpoint: Checkpoint)
      requires Valid() && phase.Running? && Describes(shape, host, checkpoint, Machine(state, active))
      modifies this`token, this`first, this`phase, this`log, this`failures, this`saved
      ensures Valid() && saved && Kept(old(Seen()), Seen())
      ensures old(log) + [Offered(checkpoint)] <= log
      ensures failures == old(failures) + if phase.Stopping? then [SinkRefused(checkpoint)] else []
      ensures phase.Stopping? <==> env.refuses(|old(log)| + 1, checkpoint)
    {
      Offer(checkpoint);
      ghost var offered := Seen();
      HearSink(checkpoint);
      OfferedThenKept(old(Seen()), offered, Seen(), checkpoint);
    }

    /** The answer of the sink; the host may trigger the token while it is awaited. */
    method HearSink(checkpoint: Checkpoint)
      requires Valid() && phase.Running?
      modifies this`token, this`first, this`phase, this`log, this`failures
      ensures Valid() && Kept(old(Seen()), Seen())
      ensures failures == old(failures) + if phase.Stopping? then [SinkRefused(checkpoint)] else []
      ensures phase.Stopping? <==> env.refuses(|old(log)|, checkpoint)
    {
      if env.refuses(|log|, checkpoint) {
        Fail(SinkRefused(checkpoint));
      } else {
        HostMayTrigger();
      }
    }

    method Offer(checkpoint: Checkpoint)
      requires Valid() && phase.Running?
      requires Describes(shape, host, checkpoint, Machine(state, active))
      modifies this`log, this`saved
      ensures Valid() && saved && Seen() == old(Seen()).(log := old(log) + [Offered(checkpoint)])
    {
      OneEntryMore(shape, host, hasSink, start, log, Offered(checkpoint), Now(), Now().(saved := true));
      HonestMore(log, Offered(checkpoint), env.triggers);
      log, saved := log + [Offered(checkpoint)], true;
    }

    method OutcomeCheckpoint() returns (c: Checkpoint, notBuilt: bool)
      requires Wired() && slots.Keys == Elements(names)
      requires SlotsOk(slots, active, owner, spent)
      ensures if notBuilt then Unbuilt(shape, host, c, Machine(state, active))
              else Describes(shape, host, c, Machine(state, active))
    {
      var built := BuildCheckpoint();
      if built.Some? { return built.value, false; }
      NonIdleInIsDistinct(names, slots);
      c, notBuilt := Checkpoint("", shape, NonIdleIn(names, slots)), true;
      assert Elements(c.nodes) == active;
    }

    // ----- the messages -----

    /** Between steps: with the invariants, nothing is untaken or unserved, and what is active was offered, while running. */
    ghost predicate Settling()
      reads this
    {
      Valid() && Saved() && Served(slots, phase, env.closes, |given|) && Clean(slots, phase)
    }

    /** After a step: the same, unless the token was triggered. */
    ghost predicate Stepped()
      reads this
    {
      Valid() && Saved() && (!token ==> Served(slots, phase, env.closes, |given|) && Clean(slots, phase))
    }

    /** The creation of this instance is what the slot of `node` waits for. */
    ghost predicate Awaits(node: string, id: nat)
      reads this`slots
    {
      node in slots && slots[node].live.Creating? && slots[node].live.id == id
    }

    /** A made instance is settled; anything else fails the node, whose input stays untaken; a stale message is nothing. */
    method OnCreated(node: string, id: nat, made: Creation)
      requires Settling()
      modifies this`slots, this`active, this`given
      modifies this`token, this`first, this`phase, this`log, this`failures
      ensures Settling() && Kept(old(Seen()), Seen())
      ensures !old(Awaits(node, id)) ==> Seen() == old(Seen()) && slots == old(slots) && given == old(given)
      ensures old(Awaits(node, id)) ==> node in slots && slots == old(slots)[node := slots[node]]
      ensures old(Awaits(node, id)) && made == Made(id) ==>
                && Settled(node, old(slots)[node].(live := Present(id)), old(slots)[node].live.firstInput, old(given))
                && failures == old(failures) && phase == old(phase)
      ensures old(Awaits(node, id)) && made != Made(id) ==>
                && slots[node] == Slot(Absent, true, true) && given == old(given)
                && failures == old(failures) + [NodeCouldNotStart(node)]
    {
      if node !in slots || !slots[node].live.Creating? || slots[node].live.id != id { return; }
      if made == Made(id) {
        SettleCreated(node);
        return;
      }
      FailCreation(node);
    }

    method FailCreation(node: string)
      requires Valid() && node in slots && slots[node].live.Creating?
      modifies this`slots, this`active, this`token, this`first, this`phase, this`log, this`failures
      ensures Valid() && Kept(old(Seen()), Seen()) && slots == old(slots)[node := Slot(Absent, true, true)]
      ensures phase.Stopping? && failures == old(failures) + [NodeCouldNotStart(node)]
    {
      slots := slots[node := Slot(Absent, true, false)];
      FailNode(node, NodeCouldNotStart(node));
      assert active == old(active);
    }

    /**
     * What a created instance is offered: its first input, which is held again if it is refused; else, while the run is
     * running, the state it holds, which stays held if it is refused.
     */
    ghost predicate Settled(node: string, was: Slot, firstInput: State, earlier: seq<Given>)
      requires node in slots && was.live.Present?
      reads this`slots, this`given, this`state, this`phase
    {
      var id := was.live.id;
      var first := |earlier| < env.closes(id);
      var once := earlier + [Given(node, id, firstInput, first)];
      if !first then given == once && slots[node] == was.(held := true)
      else if !was.held || phase.Stopping? then given == once && slots[node] == was
      else
        var second := |once| < env.closes(id);
        given == once + [Given(node, id, state, second)] && slots[node] == was.(held := !second)
    }

    /** A created instance is given the state its creation began with, then the state it holds, if any. */
    method SettleCreated(node: string)
      requires Settling() && node in slots && slots[node].live.Creating?
      modifies this`slots, this`log, this`given
      ensures Settling() && Kept(old(Seen()), Seen())
      ensures node in slots && slots == old(slots)[node := slots[node]]
      ensures var was := old(slots)[node];
              Settled(node, was.(live := Present(was.live.id)), was.live.firstInput, old(given))
      ensures var was := old(slots)[node];
              log == old(log) + if was.held && !slots[node].held then [Handed(node, was.live.id, state)] else []
    {
      var firstInput := slots[node].live.firstInput;
      BecomeRunning(node);
      GiveBoth(node, firstInput);
    }

    method GiveBoth(node: string, firstInput: State)
      requires SettlingBut(node) && node in slots && slots[node].live.Present?
      modifies this`slots, this`log, this`given
      ensures Settling() && Kept(old(Seen()), Seen())
      ensures node in slots && slots == old(slots)[node := slots[node]]
      ensures Settled(node, old(slots)[node], firstInput, old(given))
      ensures var was := old(slots)[node];
              log == old(log) + if was.held && !slots[node].held then [Handed(node, was.live.id, state)] else []
    {
      var taken := GiveFirst(node, firstInput);
      if taken && slots[node].held && phase.Running? { GiveRest(node); }
    }

    /** The state that was held while the instance was being created. */
    method GiveRest(node: string)
      requires SettlingBut(node) && phase.Running? && node in slots && slots[node].held && slots[node].live.Present?
      modifies this`slots, this`log, this`given
      ensures Settling() && Seen() == old(Seen()).(log := log)
      ensures node in slots && slots == old(slots)[node := slots[node]]
      ensures HandedOne(node, old(slots)[node], slots[node], state, env.closes, old(given), given, old(log), log)
    {
      assert SlotOk(node, slots[node], active, owner, spent);
      GiveHeld(node);
      AllMayWait(node, old(slots), slots, state, env.closes, old(given), given, old(log), log);
    }

    /** Everything between steps holds, but that the input of `node` may still have to be offered. */
    ghost predicate SettlingBut(node: string)
      reads this
    {
      && Valid() && Saved() && Clean(slots, phase)
      && (phase.Running? ==> forall name :: name in slots && name != node ==> MayWait(slots[name], env.closes, |given|))
    }

    method BecomeRunning(node: string)
      requires Settling() && node in slots && slots[node].live.Creating?
      modifies this`slots
      ensures SettlingBut(node) && Seen() == old(Seen()) && node in active
      ensures slots == old(slots)[node := old(slots)[node].(live := Present(old(slots)[node].live.id))]
    {
      slots := slots[node := slots[node].(live := Present(slots[node].live.id))];
    }

    method GiveFirst(node: string, firstInput: State) returns (taken: bool)
      requires SettlingBut(node) && node in slots && slots[node].live.Present?
      modifies this`slots, this`given
      ensures SettlingBut(node) && Seen() == old(Seen())
      ensures !(taken && slots[node].held && phase.Running?) ==> Settling()
      ensures taken <==> |old(given)| < env.closes(old(slots)[node].live.id)
      ensures slots == old(slots)[node := if taken then old(slots)[node] else old(slots)[node].(held := true)]
      ensures given == old(given) + [Given(node, old(slots)[node].live.id, firstInput, taken)]
    {
      taken := GiveInput(node, firstInput);
      if !taken { slots := slots[node := slots[node].(held := true)]; }
    }

    /** The instance of `node` has just ended and its event is still to be handled. */
    ghost predicate Ending(node: string, id: nat)
      reads this
    {
      && Sound() && Covered(slots, token)
      && node in slots && slots[node].live.Absent? && !slots[node].untaken
      && Replayed() == Some(Machine(state, active + {node}))
      && id in owner && owner[id] == node && id !in spent
    }

    method Hold(name: string)
      requires name in slots && SlotsOk(slots, active, owner, spent)
      modifies this`slots, this`active
      ensures SlotsOk(slots, active, owner, spent) && active == old(active) + {name}
      ensures slots == old(slots)[name := old(slots)[name].(held := true)]
    {
      slots := slots[name := slots[name].(held := true)];
      active := active + {name};
    }

    method HoldTargets(targets: seq<Target>) returns (named: seq<string>)
      requires Sound() && Covered(slots, token) && Named(targets) <= slots.Keys
      modifies this`slots, this`active
      ensures Sound() && Covered(slots, token) && named == NodeTargets(targets)
      ensures Seen() == old(Seen()).(machine := Machine(state, active)) && active == old(active) + Named(targets)
      ensures Clean(old(slots), phase) ==> Clean(slots, phase)
    {
      named := [];
      for i := 0 to |targets|
        invariant slots.Keys == old(slots).Keys && SlotsOk(slots, active, owner, spent)
        invariant forall name :: name in slots ==> slots[name].untaken == old(slots)[name].untaken
        invariant active == old(active) + Named(targets[..i]) && named == NodeTargets(targets[..i])
      {
        NamedGrows(targets, i);
        if targets[i].Node? {
          Hold(targets[i].name);
          named := named + [targets[i].name];
        }
      }
      assert targets[..|targets|] == targets;
    }

    method NoteApplied(next: State, entry: Entry)
      requires entry.Applied? && Ending(entry.node, entry.instance)
      modifies this`state, this`log, this`spent, this`saved
      ensures Sound() && Covered(slots, token)
      ensures Seen() == old(Seen()).(machine := Machine(next, active), log := old(log) + [entry])
    {
      AppliedMore(hasSink, log, entry, Now());
      HonestMore(log, entry, env.triggers);
      SpentMore(slots, active, owner, spent, entry.node, entry.instance);
      state, saved := next, false;
      log, spent := log + [entry], spent + {entry.instance};
    }

    method Undo(node: string, id: nat, failure: Failure)
      requires Ending(node, id)
      modifies this`slots, this`active, this`token, this`first, this`phase, this`log, this`failures
      ensures Valid() && Undone(old(Seen()), Seen(), node)
      ensures phase.Stopping? && failures == old(failures) + [failure]
    {
      FailNode(node, failure);
    }

    method Take(entry: Entry, next: State, targets: seq<Target>) returns (named: seq<string>)
      requires entry.Applied? && Ending(entry.node, entry.instance) && Named(targets) <= slots.Keys
      requires Fold(Rule(shape, host), start, log + [entry]) == Some(Machine(next, active + Named(targets)))
      modifies this`state, this`log, this`spent, this`slots, this`active, this`saved
      ensures Valid() && AppliedOne(old(Seen()), Seen(), entry.node, entry.instance, entry.update)
      ensures Clean(old(slots), phase) ==> Clean(slots, phase)
      ensures state == next && |log| == |old(log)| + 1 && named == NodeTargets(targets)
    {
      NoteApplied(next, entry);
      named := HoldTargets(targets);
    }

    method Accept(node: string, id: nat, update: Update, next: State, targets: seq<Target>)
      returns (named: seq<string>)
      requires Wired() && Ending(node, id)
      requires host.apply(state, update) == Some(next) && EvaluateAt(shape, host, node, next) == Ok(targets)
      modifies this`state, this`log, this`spent, this`slots, this`active, this`saved
      ensures Valid() && AppliedOne(old(Seen()), Seen(), node, id, update)
      ensures Clean(old(slots), phase) ==> Clean(slots, phase)
      ensures state == next && |log| == |old(log)| + 1 && named == NodeTargets(targets)
    {
      var entry := Applied(node, id, update, slots[node].held);
      assert SlotOk(node, slots[node], active, owner, spent);
      EvaluatedTargetsAreNodes(shape, host, node, next, Elements(names));
      ReplayOneMore(shape, host, start, log, state, active, entry, next, targets);
      named := Take(entry, next, targets);
    }

    /** Applies the update and evaluates the edge: both succeed and change the run, or neither does and it fails. */
    method ApplyResult(node: string, id: nat, update: Update) returns (named: Option<seq<string>>)
      requires Wired() && Ending(node, id) && Clean(slots, phase)
      modifies this`state, this`log, this`spent, this`slots, this`active, this`saved
      modifies this`token, this`first, this`phase, this`failures
      ensures Valid() && Clean(slots, phase)
      ensures named.Some? <==> Applies(shape, host, old(state), node, update)
      ensures named.None? ==> phase.Stopping? && Undone(old(Seen()), Seen(), node)
      ensures host.apply(old(state), update).None? ==>
                named.None? && failures == old(failures) + [UpdateRefused(node)]
      ensures var after := host.apply(old(state), update);
              after.Some? && EvaluateAt(shape, host, node, after.value).Err? ==>
                named.None? && failures == old(failures) + [EdgeFailed(node)]
      ensures named.Some? ==>
                && AppliedOne(old(Seen()), Seen(), node, id, update)
                && failures == old(failures) && phase == old(phase) && |log| == |old(log)| + 1
                && Some(state) == host.apply(old(state), update)
                && named.value == NodeTargets(EvaluateAt(shape, host, node, state).value)
    {
      var applied := host.apply(state, update);
      if applied.None? {
        Undo(node, id, UpdateRefused(node));
        return None;
      }
      var evaluated := EvaluateAt(shape, host, node, applied.value);
      if evaluated.Err? {
        Undo(node, id, EdgeFailed(node));
        return None;
      }
      var names := Accept(node, id, update, applied.value, evaluated.value);
      named := Some(names);
    }

    /** The rest of a step that goes on: the checkpoint, the token, then the hand-over. */
    method Continue(named: seq<string>)
      requires Wired() && Valid() && Clean(slots, phase) && phase.Running?
      modifies this`log, this`slots, this`active, this`owner, this`supply, this`given, this`saved
      modifies this`token, this`first, this`phase, this`failures
      ensures Settling() && Kept(old(Seen()), Seen()) && Checkpointed(shape, host, hasSink, old(Seen()), Seen())
    {
      TakeStepCheckpoint();
      ghost var offered := Seen();
      HeedThenHandOver(named);
      KeptJoins(old(Seen()), offered, Seen());
    }

    method HeedThenHandOver(named: seq<string>)
      requires Wired() && Valid() && Clean(slots, phase) && (hasSink && phase.Running? ==> saved)
      modifies this`log, this`slots, this`active, this`owner, this`supply, this`given
      modifies this`token, this`first, this`phase, this`failures
      ensures Settling() && Kept(old(Seen()), Seen())
      ensures phase.Running? ==> Heeded(old(Seen()), Seen())
    {
      ReadToken();
      ghost var ready := Seen();
      if phase.Running? {
        HandOver(named);
        KeptJoins(old(Seen()), ready, Seen());
        if phase.Running? { HeededThenKept(old(Seen()), old(Seen()), ready, Seen()); }
      }
    }

    lemma AppliedThenContinued(a: View, b: View, c: View, node: string, id: nat, update: Update)
      requires Applies(shape, host, a.machine.state, node, update)
      requires AppliedOne(a, b, node, id, update) && |b.log| == |a.log| + 1
      requires b.failures == a.failures && b.phase == a.phase && Kept(b, c) && Checkpointed(shape, host, hasSink, b, c)
      ensures ResultHandled(shape, host, hasSink, a, c, node, id, update)
    {
      AppliedThenKept(a, b, c, node, id, update);
      assert c.log[..|b.log|] == b.log;
    }

    method ResultStep(node: string, id: nat, update: Update)
      requires Wired() && Ending(node, id) && Clean(slots, phase)
      modifies this`state, this`log, this`spent, this`slots, this`active, this`owner, this`supply, this`saved
      modifies this`given, this`token, this`first, this`phase, this`failures
      ensures Settling() && ResultHandled(shape, host, hasSink, old(Seen()), Seen(), node, id, update)
    {
      var named := ApplyResult(node, id, update);
      ghost var applied := Seen();
      var idle := AllIdle();
      if named.None? || phase.Stopping? || idle { return; }
      Continue(named.value);
      AppliedThenContinued(old(Seen()), applied, Seen(), node, id, update);
    }

    /** The end of the instance that the slot of `node` holds is handled; any other message is stale and changes nothing. */
    method OnEnded(node: string, id: nat, ending: Ending)
      requires Wired() && Settling()
      modifies this`state, this`log, this`spent, this`slots, this`active, this`owner, this`supply, this`saved
      modifies this`given, this`token, this`first, this`phase, this`failures
      ensures Stepped()
      ensures if node in old(slots) && old(slots)[node].live == Present(id)
              then EndHandled(shape, host, hasSink, old(Seen()), Seen(), node, id, ending)
              else Seen() == old(Seen()) && slots == old(slots) && given == old(given)
    {
      if node in slots && slots[node].live == Present(id) { HandleEnd(node, id, ending); }
    }

    method HandleEnd(node: string, id: nat, ending: Ending)
      requires Wired() && Settling() && node in slots && slots[node].live == Present(id)
      modifies this`state, this`log, this`spent, this`slots, this`active, this`owner, this`supply, this`saved
      modifies this`given, this`token, this`first, this`phase, this`failures
      ensures Stepped() && EndHandled(shape, host, hasSink, old(Seen()), Seen(), node, id, ending)
    {
      EndInstance(node, id);
      ghost var ended := Seen();
      if ending.ResultEvent? {
        ResultStep(node, id, ending.update);
        if Applies(shape, host, ended.machine.state, node, ending.update) {
          EndedThenApplied(old(Seen()), ended, Seen(), node, id, ending.update);
        } else {
          EndedThenUndone(old(Seen()), ended, Seen(), node);
        }
      } else {
        NoResult(node, id, ending);
        EndedThenUndone(old(Seen()), ended, Seen(), node);
      }
    }

    method NoResult(node: string, id: nat, ending: Ending)
      requires Ending(node, id) && !ending.ResultEvent?
      modifies this`slots, this`active, this`token, this`first, this`phase, this`log, this`failures
      ensures Valid() && Undone(old(Seen()), Seen(), node) && token
      ensures EventHandled(old(Seen()), Seen(), node, ending)
      ensures ending.FailedEvent? ==> failures == old(failures) + [NodeFailed(node)]
      ensures ending.RefusedEvent? ==> failures == old(failures) + [NodeRefusedInput(node)]
      ensures ending.Vanished? || ending.Finished? ==> failures == old(failures) + [NodeVanished(node)]
    {
      if ending.CancelledEvent? {
        OnCancelledEvent(node, id);
      } else {
        Undo(node, id, FailureOf(node, ending));
      }
    }

    method EndInstance(node: string, id: nat)
      requires Valid() && node in slots && slots[node].live == Present(id)
      modifies this`slots, this`active
      ensures Ending(node, id) && Seen() == old(Seen()).(machine := Machine(state, active))
      ensures active + {node} == old(active)
      ensures slots == old(slots)[node := old(slots)[node].(live := Absent)]
    {
      slots := slots[node := slots[node].(live := Absent)];
      if !slots[node].held { active := active - {node}; }
      assert active + {node} == old(active);
    }

    /** A cancelled instance leaves its input untaken; without a trigger it is a failure. */
    method OnCancelledEvent(node: string, id: nat)
      requires Ending(node, id)
      modifies this`slots, this`active, this`token, this`first, this`phase, this`log, this`failures
      ensures Valid() && Undone(old(Seen()), Seen(), node) && token
      ensures EventHandled(old(Seen()), Seen(), node, CancelledEvent)
    {
      var seen := Look(OnCancelled);
      ghost var looked := Seen();
      if seen {
        LeaveUntaken(node, id);
      } else {
        Undo(node, id, NodeFailed(node));
      }
      KeptThenUndone(old(Seen()), looked, Seen(), node);
      MoreStillHolds(old(log), looked.log, log, Read(OnCancelled, seen));
    }

    method LeaveUntaken(node: string, id: nat)
      requires Ending(node, id) && token
      modifies this`slots, this`active
      ensures Valid() && Undone(old(Seen()), Seen(), node) && failures == old(failures)
    {
      slots := slots[node := slots[node].(untaken := true)];
      active := active + {node};
    }

    // ----- the whole run -----

    method AbandonAllLive()
      requires Valid() && phase.Stopping?
      modifies this`slots
      ensures Valid() && Seen() == old(Seen()) && slots.Keys == old(slots).Keys
      ensures forall name :: name in slots ==>
                               slots[name] == if old(slots)[name].live.Absent? then old(slots)[name]
                                              else Slot(Absent, old(slots)[name].held, true)
    {
      slots := map name | name in slots :: if slots[name].IsLive() then slots[name].Abandoned() else slots[name];
    }

    method AllIdle() returns (idle: bool)
      requires SlotsOk(slots, active, owner, spent)
      ensures (idle <==> active == {}) && (idle ==> NoneLive(slots))
    {
      idle := forall name :: name in slots ==> slots[name].IsIdle();
      assert forall name :: name in slots ==> SlotOk(name, slots[name], active, owner, spent);
    }

    method LastCheckpoint(starting: Option<Checkpoint>) returns (c: Checkpoint)
      requires Wired()
      requires Valid() && phase.Stopping?
      requires starting.Some? ==> Describes(shape, host, starting.value, Machine(state, active))
      modifies this`failures
      ensures Valid() && Seen() == old(Seen()).(failures := failures) && Prefix(old(failures), failures)
      ensures LeftAt(shape, host, c, failures, Machine(state, active)) && (starting.Some? ==> c == starting.value)
    {
      if starting.Some? { return starting.value; }
      var notBuilt;
      c, notBuilt := OutcomeCheckpoint();
      if notBuilt { failures := failures + [CheckpointNotBuilt]; }
    }

    method Conclude(starting: Option<Checkpoint>) returns (o: Outcome)
      requires Wired()
      requires Valid() && (phase.Stopping? || active == {})
      requires starting.Some? ==> Describes(shape, host, starting.value, Machine(state, active))
      modifies this`failures
      ensures Valid() && Seen() == old(Seen()).(failures := failures) && Prefix(old(failures), failures)
      ensures Classified(shape, host, o, Seen())
      ensures starting.Some? && !o.RunEnded? ==> o.checkpoint == starting.value
    {
      var idle := AllIdle();
      if idle && failures == [] { return RunEnded(state); }
      var checkpoint := LastCheckpoint(starting);
      if phase == Stopping(ByExecutor) {
        o := RunFailed(failures, checkpoint);
      } else {
        assert phase.trigger == ByHost;
        o := RunCancelled(failures, checkpoint);
      }
    }

    method HoldNames(names: seq<string>)
      requires Valid() && log == [] && active == {} && Elements(names) <= slots.Keys
      requires phase.Running? && Clean(slots, phase)
      modifies this`slots, this`active, this`start
      ensures Valid() && saved && active == Elements(names) && start == Machine(state, active) && Clean(slots, phase)
    {
      for i := 0 to |names|
        invariant slots.Keys == old(slots).Keys && SlotsOk(slots, active, owner, spent)
        invariant Clean(slots, phase) && active == Elements(names[..i])
      {
        assert names[..i + 1] == names[..i] + [names[i]] && names[i] in names;
        Hold(names[i]);
      }
      assert names[..|names|] == names;
      start := Machine(state, active);
    }

    method Handle(message: Message) returns (ghost looked: View)
      requires Wired() && Settling()
      modifies this`state, this`log, this`spent, this`slots, this`active, this`owner, this`supply, this`saved
      modifies this`given, this`token, this`first, this`phase, this`failures
      ensures Stepped() && Later(old(Seen()), Seen())
      ensures Heeded(old(Seen()), looked)
      ensures Kept(old(Seen()), looked) && looked.failures == old(failures) && (looked.phase.Running? ==> !looked.token)
      ensures MessageHandled(shape, host, hasSink, looked, Seen(), old(slots), slots, message)
    {
      ReadToken();
      looked := Seen();
      match message {
        case Created(node, id, made) => OnCreated(node, id, made);
        case Ended(node, id, ending) => OnEnded(node, id, ending);
      }
      LaterJoins(old(Seen()), looked, Seen());
    }

    /** The start of a run: the origin's nodes are held, then handed the state unless the token is triggered already. */
    method Begin(origin: Origin) returns (early: Option<Outcome>)
      requires Wired()
      requires Valid() && log == [] && active == {} && phase.Running? && Clean(slots, phase)
      requires Elements(origin.HeldNames()) <= slots.Keys
      requires origin.FromCheckpoint? ==>
                 Describes(shape, host, origin.checkpoint, Machine(state, Elements(origin.HeldNames())))
      modifies this`start, this`slots, this`active, this`owner, this`supply, this`given
      modifies this`token, this`first, this`phase, this`log, this`failures
      ensures Settling() && start == Machine(old(state), Elements(origin.HeldNames()))
      ensures Later(old(Seen()), Seen()) && NoneApplied(log, 0)
      ensures early.Some? ==> phase.Stopping? && Classified(shape, host, early.value, Seen())
      ensures early.Some? && origin.FromCheckpoint? && !early.value.RunEnded? ==>
                early.value.checkpoint == origin.checkpoint
    {
      HoldNames(origin.HeldNames());
      ReadToken();
      if phase.Stopping? {
        var outcome := Conclude(origin.Starting());
        return Some(outcome);
      }
      FirstHandOver(origin.FirstTargets());
      early := None;
    }

    method FirstHandOver(targets: seq<string>)
      requires Wired()
      requires Valid() && phase.Running? && Clean(slots, phase) && saved
      modifies this`slots, this`active, this`owner, this`supply, this`given
      modifies this`token, this`first, this`phase, this`log, this`failures
      ensures Settling() && Kept(old(Seen()), Seen())
    {
      HandOver(targets);
    }

    /**
     * The head of the loop: reads the token, then ends the run or leaves it with a live instance to wait for. `late`: the
     * grace period of a stopping run is over.
     */
    method AtLoopHead(late: bool) returns (o: Option<Outcome>)
      requires Wired() && Stepped()
      modifies this`token, this`first, this`phase, this`log, this`failures, this`slots
      ensures Settling() && Later(old(Seen()), Seen())
      ensures o.Some? ==> Classified(shape, host, o.value, Seen())
      ensures o.None? ==> AwaitsSomeone() && slots == old(slots) && failures == old(failures)
      ensures Kept(old(Seen()), Seen())
      ensures Heeded(old(Seen()), Seen())
      ensures o.Some? <==> active == {} || (phase.Stopping? && (late || zeroGrace || NoneLive(old(slots))))
      ensures o.Some? ==> late || zeroGrace || NoneLive(old(slots))
    {
      ReadToken();
      ghost var looked := Seen();
      var idle := AllIdle();
      if idle {
        var outcome := Conclude(None);
        LaterJoins(old(Seen()), looked, Seen());
        return Some(outcome);
      }
      if phase.Stopping? && (late || zeroGrace || NoneLive(slots)) {
        AbandonAllLive();
        var outcome := Conclude(None);
        LaterJoins(old(Seen()), looked, Seen());
        return Some(outcome);
      }
      o := None;
    }

    /** While running, a triggered token comes before any message; it stops the run. */
    method AwaitWake() returns (cancelled: bool)
      requires Settling() && AwaitsSomeone()
      modifies this`token, this`first, this`phase, this`log
      ensures Settling() && AwaitsSomeone() && Kept(old(Seen()), Seen())
      ensures old(phase).Running? ==> (cancelled <==> token) && (cancelled <==> phase.Stopping?)
      ensures old(phase).Stopping? ==> !cancelled
    {
      cancelled := false;
      if phase.Running? {
        cancelled := Look(WhileWaiting);
        ghost var looked := Seen();
        if cancelled {
          ReadToken();
          KeptJoins(old(Seen()), looked, Seen());
        }
      }
    }

    /** Some slot is live; while the run is running every active slot is. */
    ghost predicate AwaitsSomeone()
      reads this
    {
      && (exists name :: name in slots && slots[name].IsLive())
      && (phase.Running? ==> forall name :: name in slots && !slots[name].IsIdle() ==> slots[name].IsLive())
    }

    method Account(outcome: Option<Outcome>) returns (r: Report)
      requires Valid() && (outcome.Some? ==> Classified(shape, host, outcome.value, Seen()))
      ensures r == Report(outcome, log, hasSink) && Faithful(shape, host, start, r) && Honest(r.log, env.triggers)
    {
      r := Report(outcome, log, hasSink);
    }

    /**
     * Drives the run over the messages that arrive, any messages in any order. `None`: they are all handled and the
     * run is waiting for one more, and then an instance is live that can send it.
     */
    method Drive(origin: Origin, messages: seq<Message>) returns (r: Option<Outcome>)
      requires Wired()
      requires Valid() && log == [] && story == [] && active == {} && phase.Running? && Clean(slots, phase)
      requires Elements(origin.HeldNames()) <= slots.Keys
      requires origin.FromCheckpoint? ==>
                 Describes(shape, host, origin.checkpoint, Machine(state, Elements(origin.HeldNames())))
      modifies this
      ensures Valid() && start == Machine(old(state), Elements(origin.HeldNames())) && Later(old(Seen()), Seen())
      ensures r.Some? ==> Classified(shape, host, r.value, Seen())
      ensures r.None? ==> AwaitsSomeone() && Served(slots, phase, env.closes, |given|) && |story| == |messages|
      ensures Tells(shape, host, hasSink, story, messages) && Closes(story, log)
      ensures r.Some? ==> Patient(story, env.lapses, zeroGrace)
    {
      r := Begin(origin);
      if r.Some? { return; }
      ghost var begun := Seen();
      r := Rounds(messages);
      LaterJoins(old(Seen()), begun, Seen());
    }

    method Rounds(messages: seq<Message>) returns (r: Option<Outcome>)
      requires Wired() && Settling() && story == [] && NoneApplied(log, 0)
      modifies this`state, this`log, this`spent, this`slots, this`active, this`owner, this`supply, this`saved
      modifies this`given, this`token, this`first, this`phase, this`failures, this`story
      ensures Valid() && Later(old(Seen()), Seen())
      ensures r.Some? ==> Classified(shape, host, r.value, Seen())
      ensures r.None? ==> AwaitsSomeone() && Served(slots, phase, env.closes, |given|) && |story| == |messages|
      ensures Tells(shape, host, hasSink, story, messages) && Closes(story, log)
      ensures r.Some? ==> Patient(story, env.lapses, zeroGrace)
    {
      var i, waits := 0, false;
      while true
        invariant i == |story| && Later(old(Seen()), Seen()) && Tells(shape, host, hasSink, story, messages)
        invariant Rests(story, Seen(), slots) && Stepped()
        decreases |messages| - i, if phase.Running? then 1 else 0
      {
        ghost var before := Seen();
        r, i, waits := Round(messages, i);
        LaterJoins(old(Seen()), before, Seen());
        if r.Some? || waits { return; }
      }
    }

    /** One round: a turn, then, unless the run is over, was cancelled or waits for a message, the next message. */
    method Round(messages: seq<Message>, i: nat) returns (r: Option<Outcome>, n: nat, waits: bool)
      requires Wired() && Stepped() && i == |story| && Tells(shape, host, hasSink, story, messages)
      requires Rests(story, Seen(), slots)
      modifies this`state, this`log, this`spent, this`slots, this`active, this`owner, this`supply, this`saved
      modifies this`given, this`token, this`first, this`phase, this`failures, this`story
      ensures Valid() && Later(old(Seen()), Seen()) && n == |story|
      ensures Tells(shape, host, hasSink, story, messages)
      ensures (r.None? ==> Rests(story, Seen(), slots)) && Closes(story, log)
      ensures r.Some? ==> Classified(shape, host, r.value, Seen()) && Patient(story, env.lapses, zeroGrace)
      ensures r.None? && waits ==> Settling() && AwaitsSomeone() && n == |messages|
      ensures r.None? && !waits ==> Stepped() && (n > i || (n == i && old(phase).Running? && phase.Stopping?))
    {
      n, waits := i, false;
      var cancelled;
      r, cancelled := Turn(env.lapses(i));
      RestsOn(story, old(Seen()), Seen(), old(slots));
      if r.Some? || cancelled { return; }
      if i == |messages| { return r, i, true; }
      ghost var awake := Seen();
      Receive(messages, i);
      LaterJoins(old(Seen()), awake, Seen());
      n := i + 1;
    }

    /** Handles the next message. */
    method Receive(messages: seq<Message>, i: nat)
      requires Wired() && Settling() && i == |story| < |messages| && Tells(shape, host, hasSink, story, messages)
      requires Rests(story, Seen(), slots)
      modifies this`state, this`log, this`spent, this`slots, this`active, this`owner, this`supply, this`saved
      modifies this`given, this`token, this`first, this`phase, this`failures, this`story
      ensures Stepped() && Later(old(Seen()), Seen()) && |story| == i + 1 && Tells(shape, host, hasSink, story, messages)
      ensures Rests(story, Seen(), slots) && Closes(story, log)
    {
      ghost var was, before := slots, Seen();
      ghost var heeded := Handle(messages[i]);
      ghost var chapter := Chapter(messages[i], was, before, heeded, slots, Seen());
      OneChapterMore(shape, host, hasSink, story, chapter, messages);
      story := story + [chapter];
    }

    /** One turn of the loop up to the message: the head, then the wait. */
    method Turn(late: bool) returns (o: Option<Outcome>, cancelled: bool)
      requires Wired() && Stepped()
      modifies this`token, this`first, this`phase, this`log, this`failures, this`slots
      ensures Settling() && Later(old(Seen()), Seen()) && Kept(old(Seen()), Seen())
      ensures o.Some? ==> Classified(shape, host, o.value, Seen())
      ensures o.None? ==> AwaitsSomeone() && slots == old(slots) && failures == old(failures)
      ensures o.None? ==> (old(phase).Stopping? ==> !cancelled)
      ensures o.None? && cancelled ==> old(phase).Running? && phase.Stopping?
      ensures o.Some? ==> late || zeroGrace || NoneLive(old(slots))
    {
      cancelled := false;
      o := AtLoopHead(late);
      ghost var ready := Seen();
      if o.None? {
        cancelled := AwaitWake();
        KeptJoins(old(Seen()), ready, Seen());
      }
    }
  }

  // ----- starting and resuming -----

  datatype NameFault = EmptyNames | DuplicateName(name: string) | UnknownName(name: string)

  method CheckNodeNames(names: seq<string>, known: seq<string>) returns (fault: Option<NameFault>)
    ensures fault.None? <==> names != [] && Distinct(names) && Elements(names) <= Elements(known)
  {
    if names == [] { return Some(EmptyNames); }
    var seen: set<string> := {};
    for i := 0 to |names|
      invariant forall k :: 0 <= k < i ==> names[k] in seen && names[k] in known
      invariant forall name :: name in seen ==> name in names[..i]
      invariant Distinct(names[..i])
    {
      if names[i] in seen { return Some(DuplicateName(names[i])); }
      seen := seen + {names[i]};
      if names[i] !in known {
        assert names[i] in Elements(names) && names[i] !in Elements(known);
        return Some(UnknownName(names[i]));
      }
    }
    assert names[..|names|] == names;
    fault := None;
  }

  /**
   * What a run reports is a history of the machine, of the token and of the host, and it is the story of its messages: each
   * is handled as its kind and its instance ask for, in the order they came, all of them unless the run came to its end.
   */
  ghost predicate Accounts(shape: Shape, host: Host, m: Machine, env: Environment, zeroGrace: bool,
                           messages: seq<Message>, r: Report, story: seq<Chapter>) {
    && Faithful(shape, host, m, r) && Honest(r.log, env.triggers)
    && Tells(shape, host, r.sinks, story, messages) && Closes(story, r.log)
    && (if r.outcome.None? then |story| == |messages| else Patient(story, env.lapses, zeroGrace))
  }

  method Perform(shape: Shape, host: Host, state: State, origin: Origin, hasSink: bool, zeroGrace: bool,
                 env: Environment, messages: seq<Message>) returns (r: Report, ghost story: seq<Chapter>)
    requires Acceptable(shape) && Obliging(host)
    requires Elements(origin.HeldNames()) <= Elements(NodeNames(shape.nodes))
    requires origin.FromCheckpoint? ==>
               Describes(shape, host, origin.checkpoint, Machine(state, Elements(origin.HeldNames())))
    ensures Accounts(shape, host, Machine(state, Elements(origin.HeldNames())), env, zeroGrace, messages, r, story)
    ensures r.sinks == hasSink
  {
    AcceptableIsClosed(shape);
    var run := new Run(shape, host, state, hasSink, zeroGrace, env);
    var outcome := run.Drive(origin, messages);
    story := run.story;
    r := run.Account(outcome);
  }

  method Start(shape: Shape, host: Host, state: State, nodes: seq<string>, hasSink: bool, zeroGrace: bool,
               env: Environment, messages: seq<Message>) returns (r: Result<Report, NameFault>, ghost story: seq<Chapter>)
    requires Acceptable(shape) && Obliging(host)
    ensures r.Ok? <==> nodes != [] && Distinct(nodes) && Elements(nodes) <= Elements(NodeNames(shape.nodes))
    ensures r.Ok? ==> Accounts(shape, host, Machine(state, Elements(nodes)), env, zeroGrace, messages, r.value, story)
    ensures r.Ok? ==> r.value.sinks == hasSink
  {
    story := [];
    var fault := CheckNodeNames(nodes, NodeNames(shape.nodes));
    if fault.Some? { return Err(fault.value), story; }
    var report;
    report, story := Perform(shape, host, state, FromNodes(nodes), hasSink, zeroGrace, env, messages);
    r := Ok(report);
  }

  datatype ResumeError = BadNames(fault: NameFault) | VersionMismatch | StructureMismatch | StateRejected

  method CheckStructure(given: Shape, wanted: Shape) returns (fault: Option<ResumeError>)
    ensures fault.None? <==> Fits(given, wanted)
    ensures fault == Some(VersionMismatch) <==> given.version != wanted.version
    ensures fault == Some(StructureMismatch) <==>
              && given.version == wanted.version
              && !(&& |given.nodes| == |wanted.nodes| && given.edges == wanted.edges
                   && forall i :: 0 <= i < |given.nodes| ==> given.nodes[i].name == wanted.nodes[i].name)
  {
    if given.version != wanted.version { return Some(VersionMismatch); }
    SameNamesAreTheSame(given.nodes, wanted.nodes);
    if NodeNames(given.nodes) != NodeNames(wanted.nodes) || given.edges != wanted.edges {
      return Some(StructureMismatch);
    }
    fault := None;
  }

  lemma SameNamesAreTheSame(given: seq<NodeMeta>, wanted: seq<NodeMeta>)
    ensures NodeNames(given) == NodeNames(wanted) <==>
              |given| == |wanted| && forall i :: 0 <= i < |given| ==> given[i].name == wanted[i].name
  {
    assert forall i :: 0 <= i < |given| ==> NodeNames(given)[i] == given[i].name;
    assert forall i :: 0 <= i < |wanted| ==> NodeNames(wanted)[i] == wanted[i].name;
  }

  /** A resume is accepted exactly when the checkpoint describes some machine with an active node of the graph. */
  method Resume(shape: Shape, host: Host, c: Checkpoint, hasSink: bool, zeroGrace: bool, env: Environment,
                messages: seq<Message>)
    returns (r: Result<Report, ResumeError>, ghost story: seq<Chapter>)
    requires Acceptable(shape) && Obliging(host)
    ensures r.Ok? <==> c.nodes != [] && Distinct(c.nodes) && Elements(c.nodes) <= Elements(NodeNames(shape.nodes))
                       && Fits(c.structure, shape) && host.rebuild(c.text).Some?
    ensures c.structure.edges != shape.edges || c.structure.version != shape.version ==> r.Err?
    ensures NodeNames(c.structure.nodes) != NodeNames(shape.nodes) ==> r.Err?
    ensures r == Err(StateRejected) <==>
              && c.nodes != [] && Distinct(c.nodes) && Elements(c.nodes) <= Elements(NodeNames(shape.nodes))
              && Fits(c.structure, shape) && host.rebuild(c.text).None?
    ensures r.Ok? ==>
              && r.value.sinks == hasSink
              && Accounts(shape, host, Machine(host.rebuild(c.text).value, Elements(c.nodes)), env, zeroGrace, messages,
                          r.value, story)
  {
    story := [];
    var fault := CheckNodeNames(c.nodes, NodeNames(shape.nodes));
    if fault.Some? { return Err(BadNames(fault.value)), story; }
    var mismatch := CheckStructure(c.structure, shape);
    if mismatch.Some? { return Err(mismatch.value), story; }
    var state := host.rebuild(c.text);
    if state.None? { return Err(StateRejected), story; }
    var report;
    report, story := Perform(shape, host, state.value, FromCheckpoint(c), hasSink, zeroGrace, env, messages);
    r := Ok(report);
  }

  // ----- runs, crashes and resumes -----

  /** A run of a chain: where it started, what it reported, the checkpoint it was left with and where that was taken. */
  datatype Link = Link(from: Machine, report: Report, left: Checkpoint, cut: nat)

  /** The checkpoint is one the sink was offered (the run crashed later) or the one of the outcome. */
  ghost predicate LeftWith(shape: Shape, host: Host, link: Link) {
    || (link.cut < |link.report.log| && link.report.log[link.cut] == Offered(link.left))
    || (link.cut == |link.report.log| && link.report.outcome.Some?
        && match link.report.outcome.value
           case RunEnded(_) => false
           case RunFailed(_, c) => c == link.left
           case RunCancelled(_, c) => c == link.left)
  }

  /** Each run but the first is a resume from the checkpoint the run before was left with, and was accepted. */
  ghost predicate Chain(shape: Shape, host: Host, links: seq<Link>) {
    && (forall k :: 0 <= k < |links| ==>
                      Faithful(shape, host, links[k].from, links[k].report) && LeftWith(shape, host, links[k]))
    && (forall k :: 1 <= k < |links| ==> ResumedFrom(host, links[k - 1].left, links[k].from))
  }

  ghost predicate ResumedFrom(host: Host, c: Checkpoint, m: Machine) {
    host.rebuild(c.text).Some? && m == Machine(host.rebuild(c.text).value, Elements(c.nodes))
  }

  /** The `Result`s that count: of each run, those applied before its last checkpoint. */
  function Counted(links: seq<Link>): (r: seq<Entry>) {
    if links == [] then []
    else
      var last := links[|links| - 1];
      Counted(links[..|links| - 1]) + if last.cut <= |last.report.log| then last.report.log[..last.cut] else []
  }

  /** A checkpoint that a resume accepts puts the machine where it was when the checkpoint was built. */
  lemma ResumesWhereItWas(shape: Shape, host: Host, link: Link)
    requires Obliging(host) && Faithful(shape, host, link.from, link.report) && LeftWith(shape, host, link)
    requires host.rebuild(link.left.text).Some?
    ensures link.cut <= |link.report.log|
    ensures Fold(Rule(shape, host), link.from, link.report.log[..link.cut])
         == Some(Machine(host.rebuild(link.left.text).value, Elements(link.left.nodes)))
  {
    if link.cut < |link.report.log| && link.report.log[link.cut] == Offered(link.left) {
      OfferDescribes(shape, host, link.from, link.report.log, link.cut);
    } else {
      assert link.report.log[..link.cut] == link.report.log;
    }
  }

  /**
   * Over any chain of runs, crashes and resumes the machine is the one that started the chain, replayed over the
   * `Result`s that count: nothing is lost at a resume and nothing is applied twice.
   */
  lemma {:induction false} ChainIsOneRun(shape: Shape, host: Host, links: seq<Link>)
    requires Obliging(host) && Chain(shape, host, links) && links != []
    requires host.rebuild(links[|links| - 1].left.text).Some?
    ensures Fold(Rule(shape, host), links[0].from, Counted(links)).Some?
    ensures ResumedFrom(host, links[|links| - 1].left, Fold(Rule(shape, host), links[0].from, Counted(links)).value)
  {
    var last := links[|links| - 1];
    ResumesWhereItWas(shape, host, last);
    if |links| == 1 {
      assert Counted(links[..0]) == [];
      assert Counted(links) == last.report.log[..last.cut];
    } else {
      var front := links[..|links| - 1];
      assert Chain(shape, host, front) by {
        assert forall k :: 0 <= k < |front| ==> front[k] == links[k];
      }
      assert front[|front| - 1] == links[|links| - 2];
      ChainIsOneRun(shape, host, front);
      FoldJoins(Rule(shape, host), links[0].from, Counted(front), last.report.log[..last.cut]);
    }
  }

  /** So a node active at the start of a chain is still active at its end, or a `Result` of its own was applied. */
  lemma {:induction false} ChainLosesNoNode(shape: Shape, host: Host, links: seq<Link>, node: string)
    requires Obliging(host) && Chain(shape, host, links) && links != []
    requires host.rebuild(links[|links| - 1].left.text).Some?
    requires node in links[0].from.active && node !in links[|links| - 1].left.nodes
    ensures RetiredBy(Counted(links), node)
  {
    ChainIsOneRun(shape, host, links);
    if !RetiredBy(Counted(links), node) {
      LeavesOnlyByOwnResult(shape, host, links[0].from, Counted(links), node);
    }
  }

  /** And the state at the end of a chain is the fold of the updates that count. */
  lemma {:induction false} ChainStateIsTheFold(shape: Shape, host: Host, links: seq<Link>)
    requires Obliging(host) && Chain(shape, host, links) && links != []
    requires host.rebuild(links[|links| - 1].left.text).Some?
    ensures Fold(Updated(host), links[0].from.state, Counted(links)) == host.rebuild(links[|links| - 1].left.text)
  {
    ChainIsOneRun(shape, host, links);
    ReplayFoldsUpdates(shape, host, links[0].from, Counted(links));
  }

  /** A chain whose last run ended: its final state is the fold of all that counts, and nothing is left active. */
  lemma {:induction false} ChainEnds(shape: Shape, host: Host, links: seq<Link>, m: Machine, final: Report)
    requires Obliging(host) && Chain(shape, host, links) && links != []
    requires ResumedFrom(host, links[|links| - 1].left, m) && Faithful(shape, host, m, final)
    requires final.outcome.Some? && final.outcome.value.RunEnded?
    ensures Fold(Rule(shape, host), links[0].from, Counted(links) + final.log)
         == Some(Machine(final.outcome.value.state, {}))
  {
    ChainIsOneRun(shape, host, links);
    FoldJoins(Rule(shape, host), links[0].from, Counted(links), final.log);
  }
}
