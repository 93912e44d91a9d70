/** The small machine an executor run refines: one state and the set of activated nodes. */
module AbstractMachine {
  import opened Prelude
  import opened Structure

  type State(==, !new)

  type Update(==, !new)

  /**
   * What the implementer gives, each a pure function: applying an update (`None`: refused or panicked), the code of
   * an edge, the text of a state (`None`: not serializable), and the rebuild of a text (`None`: rejected).
   */
  datatype Host = Host(
    apply: (State, Update) -> Option<State>,
    edge: (string, State) -> EdgeAnswer,
    text: State -> Option<string>,
    rebuild: string -> Option<State>)

  /** The obligation left to the implementer: a text rebuilds to an equal state; the empty text is no text. */
  ghost predicate Obliging(host: Host) {
    (forall state :: host.text(state).Some? ==> host.rebuild(host.text(state).value) == Some(state))
    && host.rebuild("") == None
  }

  function Declared(edges: seq<EdgeMeta>, node: string): (r: Option<seq<Target>>) {
    if edges == [] then None
    else if edges[0].source == node then Some(edges[0].targets)
    else Declared(edges[1..], node)
  }

  lemma {:induction false} DeclaredIsOfAnEdge(edges: seq<EdgeMeta>, node: string)
    ensures Declared(edges, node).Some? <==> exists edge :: edge in edges && edge.source == node
    ensures Declared(edges, node).Some? ==>
              exists edge :: edge in edges && edge.source == node && edge.targets == Declared(edges, node).value
  {
    if edges != [] && edges[0].source != node {
      DeclaredIsOfAnEdge(edges[1..], node);
      assert edges == [edges[0]] + edges[1..];
    }
  }

  function EvaluateAt(shape: Shape, host: Host, node: string, state: State): (r: Result<seq<Target>, EdgeError>) {
    match Declared(shape.edges, node)
    case None => Err(UnknownNode)
    case Some(declared) => Choose(declared, host.edge(node, state))
  }

  /** A node that is evaluated has its own edge asked, with its own declared targets; a node without one is unknown. */
  lemma EvaluationMeans(shape: Shape, host: Host, node: string, state: State)
    requires DistinctBy(shape.edges, SourceOf)
    ensures forall edge :: edge in shape.edges && edge.source == node ==>
                             EvaluateAt(shape, host, node, state) == Choose(edge.targets, host.edge(node, state))
    ensures !HasEdge(shape.edges, node) ==> EvaluateAt(shape, host, node, state) == Err(UnknownNode)
  {
    DeclaredIsOfAnEdge(shape.edges, node);
    forall edge | edge in shape.edges && edge.source == node
      ensures EvaluateAt(shape, host, node, state) == Choose(edge.targets, host.edge(node, state))
    {
      var found :| found in shape.edges && found.source == node && found.targets == Declared(shape.edges, node).value;
      var i :| 0 <= i < |shape.edges| && shape.edges[i] == edge;
      var j :| 0 <= j < |shape.edges| && shape.edges[j] == found;
      assert SourceOf(shape.edges[i]) == SourceOf(shape.edges[j]);
    }
  }

  ghost function Named(targets: seq<Target>): set<string> {
    set target | target in targets && target.Node? :: target.name
  }

  /** Every declared target is END or one of `names`. */
  ghost predicate Closed(edges: seq<EdgeMeta>, names: set<string>) {
    forall edge, target :: edge in edges && target in edge.targets && target.Node? ==> target.name in names
  }

  lemma EdgesAreClosed(edges: seq<EdgeMeta>, names: set<string>)
    requires forall edge :: edge in edges ==> EdgeOk(edge, names)
    ensures Closed(edges, names)
  {
    forall edge, target | edge in edges && target in edge.targets && target.Node? ensures target.name in names {
      assert EdgeOk(edge, names);
    }
  }

  lemma AcceptableIsClosed(shape: Shape)
    requires Acceptable(shape)
    ensures Closed(shape.edges, Elements(NodeNames(shape.nodes))) && Distinct(NodeNames(shape.nodes))
  {
    NamesOf(shape.nodes);
    EdgesAreClosed(shape.edges, NameSet(shape.nodes));
  }

  lemma NamesOf(nodes: seq<NodeMeta>)
    ensures DistinctBy(nodes, NameOf) ==> Distinct(NodeNames(nodes))
    ensures Elements(NodeNames(nodes)) == NameSet(nodes)
  {
    forall name | name in NameSet(nodes) ensures name in NodeNames(nodes) {
      var i :| 0 <= i < |nodes| && nodes[i].name == name;
      assert NodeNames(nodes)[i] == name;
    }
    if DistinctBy(nodes, NameOf) {
      forall i, j | 0 <= i < j < |nodes| ensures NodeNames(nodes)[i] != NodeNames(nodes)[j] {
        assert NameOf(nodes[i]) != NameOf(nodes[j]);
      }
    }
  }

  /** An accepted evaluation names nodes of the graph only. */
  lemma EvaluatedTargetsAreNodes(shape: Shape, host: Host, node: string, state: State, names: set<string>)
    requires Closed(shape.edges, names)
    requires EvaluateAt(shape, host, node, state).Ok?
    ensures Named(EvaluateAt(shape, host, node, state).value) <= names
  {
    DeclaredIsOfAnEdge(shape.edges, node);
    var edge :| edge in shape.edges && edge.source == node && edge.targets == Declared(shape.edges, node).value;
    PickedMembers(edge.targets, host.edge(node, state).targets);
  }

  datatype Machine = Machine(state: State, active: set<string>)

  datatype Checkpoint = Checkpoint(text: string, structure: Shape, nodes: seq<string>)

  ghost function Elements(s: seq<string>): set<string> { set x | x in s }

  /** What a resume compares: the version, the node names in order and the edges; nothing else. */
  predicate Fits(given: Shape, wanted: Shape) {
    given.version == wanted.version && NodeNames(given.nodes) == NodeNames(wanted.nodes) && given.edges == wanted.edges
  }

  /** `c` is a checkpoint from which `m` can be started again. */
  ghost predicate Describes(shape: Shape, host: Host, c: Checkpoint, m: Machine) {
    Distinct(c.nodes) && Elements(c.nodes) == m.active && Fits(c.structure, shape) && host.rebuild(c.text) == Some(m.state)
  }

  /** `c` holds the active nodes of `m` but no text: the state of `m` could not be serialized. */
  ghost predicate Unbuilt(shape: Shape, host: Host, c: Checkpoint, m: Machine) {
    Distinct(c.nodes) && Elements(c.nodes) == m.active && Fits(c.structure, shape) && c.text == ""
    && host.text(m.state).None?
  }

  datatype Trigger = ByHost | ByExecutor

  datatype Phase = Running | Stopping(trigger: Trigger)

  /** Who reads the token: the head of the loop or of a step, a failure, a cancelled instance, the wait for a message. */
  datatype Reader = AtHead | OnFailure | OnCancelled | WhileWaiting

  /**
   * What happens in a run, in order. An applied `Result`: its node, its instance, its update and whether the node still
   * held an input. An offered checkpoint. A state handed over: a creation begun with it, or a held input released.
   * A read of the cancel token and what it showed, and the calls that trigger the token.
   */
  datatype Entry =
    | Applied(node: string, instance: nat, update: Update, stays: bool)
    | Offered(checkpoint: Checkpoint)
    | Handed(node: string, instance: nat, input: State)
    | Read(reader: Reader, seen: bool)
    | HostTriggered
    | ExecutorTriggered

  predicate IsSignal(e: Entry) { e.Read? || e.HostTriggered? || e.ExecutorTriggered? }

  /** The machine moves by applied `Result`s only; a checkpoint has to describe it, and what is handed over is its state. */
  ghost function Step(shape: Shape, host: Host, m: Machine, e: Entry): (r: Option<Machine>) {
    match e
    case Offered(checkpoint) => if Describes(shape, host, checkpoint, m) then Some(m) else None
    case Handed(node, _, input) => if node in m.active && input == m.state then Some(m) else None
    case Applied(node, _, update, stays) =>
      if node !in m.active then None
      else
        (match host.apply(m.state, update)
         case None => None
         case Some(state) =>
           match EvaluateAt(shape, host, node, state)
           case Err(_) => None
           case Ok(targets) => Some(Machine(state, (if stays then m.active else m.active - {node}) + Named(targets))))
    case Read(_, _) => Some(m)
    case HostTriggered => Some(m)
    case ExecutorTriggered => Some(m)
  }

  /** The transition rule of the machine of one graph, for `Fold`. */
  ghost function Rule(shape: Shape, host: Host): (Machine, Entry) -> Option<Machine> {
    (m: Machine, e: Entry) => Step(shape, host, m, e)
  }

  /** One applied `Result` more, of a node that is active besides the nodes `others`. */
  lemma ReplayOneMore(shape: Shape, host: Host, start: Machine, log: seq<Entry>, state: State, others: set<string>,
                      e: Entry, next: State, targets: seq<Target>)
    requires e.Applied? && Fold(Rule(shape, host), start, log) == Some(Machine(state, others + {e.node}))
    requires e.stays <==> e.node in others
    requires host.apply(state, e.update) == Some(next) && EvaluateAt(shape, host, e.node, next) == Ok(targets)
    ensures Fold(Rule(shape, host), start, log + [e]) == Some(Machine(next, others + Named(targets)))
  {
    FoldOneMore(Rule(shape, host), start, log, e);
    assert (if e.stays then others + {e.node} else others + {e.node} - {e.node}) == others;
  }

  lemma ReplaySignal(shape: Shape, host: Host, start: Machine, log: seq<Entry>, e: Entry)
    requires IsSignal(e)
    ensures Fold(Rule(shape, host), start, log + [e]) == Fold(Rule(shape, host), start, log)
  {
    assert (log + [e])[..|log|] == log;
  }

  /** Every checkpoint in a log that replays describes the machine as it was at that point. */
  lemma {:induction false} OfferDescribes(shape: Shape, host: Host, m: Machine, log: seq<Entry>, cut: nat)
    requires Fold(Rule(shape, host), m, log).Some? && cut < |log| && log[cut].Offered?
    ensures Fold(Rule(shape, host), m, log[..cut]).Some?
    ensures Describes(shape, host, log[cut].checkpoint, Fold(Rule(shape, host), m, log[..cut]).value)
  {
    if cut == |log| - 1 {
    } else {
      OfferDescribes(shape, host, m, log[..|log| - 1], cut);
      assert log[..|log| - 1][..cut] == log[..cut];
    }
  }

  /** The state alone: the fold of the updates, in the order they were applied. */
  function Updated(host: Host): (State, Entry) -> Option<State> {
    (state: State, e: Entry) => if e.Applied? then host.apply(state, e.update) else Some(state)
  }

  lemma {:induction false} ReplayFoldsUpdates(shape: Shape, host: Host, m: Machine, log: seq<Entry>)
    requires Fold(Rule(shape, host), m, log).Some?
    ensures Fold(Updated(host), m.state, log) == Some(Fold(Rule(shape, host), m, log).value.state)
  {
    if log != [] {
      ReplayFoldsUpdates(shape, host, m, log[..|log| - 1]);
    }
  }

  ghost predicate RetiredBy(log: seq<Entry>, node: string) {
    exists i :: 0 <= i < |log| && log[i].Applied? && log[i].node == node && !log[i].stays
  }

  lemma {:induction false} LeavesOnlyByOwnResult(shape: Shape, host: Host, m: Machine, log: seq<Entry>, node: string)
    requires Fold(Rule(shape, host), m, log).Some?
    requires node in m.active && !RetiredBy(log, node)
    ensures node in Fold(Rule(shape, host), m, log).value.active
  {
    if log != [] {
      var front, last := log[..|log| - 1], log[|log| - 1];
      assert forall i :: 0 <= i < |front| ==> front[i] == log[i];
      LeavesOnlyByOwnResult(shape, host, m, front, node);
      assert !(last.Applied? && last.node == node && !last.stays);
    }
  }

  /** The `i`-th entry is a `Result` whose edge, on the state it left, names `node`. */
  ghost predicate ActivatedAt(shape: Shape, host: Host, m: Machine, log: seq<Entry>, node: string, i: nat)
    requires i < |log|
  {
    match Fold(Rule(shape, host), m, log[..i + 1])
    case None => false
    case Some(after) =>
      log[i].Applied?
      && var evaluated := EvaluateAt(shape, host, log[i].node, after.state);
      evaluated.Ok? && Node(node) in evaluated.value
  }

  /** A node enters the active set only as a target that an applied `Result` named. */
  lemma {:induction false} EntersOnlyAsTarget(shape: Shape, host: Host, m: Machine, log: seq<Entry>, node: string)
    returns (i: nat)
    requires Fold(Rule(shape, host), m, log).Some?
    requires node !in m.active && node in Fold(Rule(shape, host), m, log).value.active
    ensures i < |log| && ActivatedAt(shape, host, m, log, node, i)
  {
    var front := log[..|log| - 1];
    if node in Fold(Rule(shape, host), m, front).value.active {
      i := EntersOnlyAsTarget(shape, host, m, front, node);
      assert log[..i + 1] == front[..i + 1] && log[i] == front[i];
    } else {
      i := |log| - 1;
      assert log[..i + 1] == log;
    }
  }

  /** The active nodes of a valid graph stay nodes of the graph. */
  lemma {:induction false} ActiveAreNodes(shape: Shape, host: Host, m: Machine, log: seq<Entry>)
    requires Closed(shape.edges, NameSet(shape.nodes)) && m.active <= NameSet(shape.nodes)
    requires Fold(Rule(shape, host), m, log).Some?
    ensures Fold(Rule(shape, host), m, log).value.active <= NameSet(shape.nodes)
  {
    if log != [] {
      var before, e := Fold(Rule(shape, host), m, log[..|log| - 1]).value, log[|log| - 1];
      ActiveAreNodes(shape, host, m, log[..|log| - 1]);
      if e.Applied? {
        EvaluatedTargetsAreNodes(shape, host, e.node, host.apply(before.state, e.update).value, NameSet(shape.nodes));
      }
    }
  }

  /** Whatever is handed over in a log that replays is the state of that moment, and goes to an active node. */
  lemma {:induction false} HandedIsTheState(shape: Shape, host: Host, m: Machine, log: seq<Entry>, j: nat)
    requires Fold(Rule(shape, host), m, log).Some? && j < |log| && log[j].Handed?
    ensures Fold(Rule(shape, host), m, log[..j]).Some?
    ensures var before := Fold(Rule(shape, host), m, log[..j]).value;
            log[j].input == before.state && log[j].node in before.active
  {
    if j < |log| - 1 {
      HandedIsTheState(shape, host, m, log[..|log| - 1], j);
      assert log[..|log| - 1][..j] == log[..j];
    }
  }

  // ----- the token, the phase and the order of things -----

  /**
   * What the token and the phase have come to: the token, who triggered it first, the phase, whether a checkpoint was
   * offered since the last applied `Result`, the instances whose `Result` was applied, and whether a failure has read an
   * untriggered token that it is to trigger.
   */
  datatype Control =
    Control(token: bool, first: Option<Trigger>, phase: Phase, saved: bool, spent: set<nat>, deciding: bool)

  const CALM := Control(false, None, Running, true, {}, false)

  /**
   * The order in which things may happen. A read shows the token as it is. A run is stopped by the first read that sees
   * a triggered token, or by the first failure, which triggers the token if its read saw it untriggered. Nothing is
   * handed over and no checkpoint offered once the run is stopping, nor is a state handed over before a checkpoint of it.
   * An instance gives one `Result`.
   */
  function Observe(sinks: bool, c: Control, e: Entry): Option<Control> {
    if c.deciding then
      match e
      case HostTriggered => if c.token then None else Some(c.(token := true, first := Some(ByHost)))
      case ExecutorTriggered =>
        Some(c.(token := true, first := if c.token then c.first else Some(ByExecutor), deciding := false))
      case _ => None
    else
      match e
      case Applied(_, id, _, _) => if id in c.spent then None else Some(c.(saved := false, spent := c.spent + {id}))
      case Offered(_) => if c.phase.Running? then Some(c.(saved := true)) else None
      case Handed(_, _, _) => if c.phase.Running? && (sinks ==> c.saved) then Some(c) else None
      case HostTriggered => if c.token then None else Some(c.(token := true, first := Some(ByHost)))
      case ExecutorTriggered => None
      case Read(reader, seen) =>
        if seen != c.token then None
        else if reader == OnCancelled then Some(c)
        else if c.phase.Stopping? then None
        else
          match reader
          case AtHead => Some(if seen then c.(phase := Stopping(ByHost)) else c)
          case OnFailure =>
            Some(if seen then c.(phase := Stopping(ByHost)) else c.(phase := Stopping(ByExecutor), deciding := true))
          case _ => Some(c)
  }

  function Watch(sinks: bool): (Control, Entry) -> Option<Control> { (c: Control, e: Entry) => Observe(sinks, c, e) }

  function Controlled(sinks: bool, log: seq<Entry>): Option<Control> { Fold(Watch(sinks), CALM, log) }

  /** No instance has two applied `Result`s. */
  ghost predicate NoInstanceTwice(log: seq<Entry>) {
    forall i, j :: 0 <= i < j < |log| && log[i].Applied? && log[j].Applied? ==> log[i].instance != log[j].instance
  }

  lemma {:induction false} EachInstanceOnce(sinks: bool, log: seq<Entry>)
    requires Controlled(sinks, log).Some?
    ensures NoInstanceTwice(log)
    ensures forall i :: 0 <= i < |log| && log[i].Applied? ==> log[i].instance in Controlled(sinks, log).value.spent
  {
    if log != [] {
      var front := log[..|log| - 1];
      EachInstanceOnce(sinks, front);
      assert forall i :: 0 <= i < |front| ==> front[i] == log[i];
    }
  }

  /** Once the run is stopping, its trigger never changes. */
  lemma {:induction false} TriggerIsFixed(sinks: bool, log: seq<Entry>, i: nat)
    requires Controlled(sinks, log).Some? && i <= |log|
    ensures Controlled(sinks, log[..i]).Some?
    ensures Controlled(sinks, log[..i]).value.phase.Stopping? ==>
              Controlled(sinks, log).value.phase == Controlled(sinks, log[..i]).value.phase
  {
    if i < |log| {
      TriggerIsFixed(sinks, log[..|log| - 1], i);
      assert log[..|log| - 1][..i] == log[..i];
    } else {
      assert log[..i] == log;
    }
  }

  /** Once the run is stopping, nothing is handed over: no creation begins and no held input is released. */
  lemma NothingHandedOnceStopping(sinks: bool, log: seq<Entry>, i: nat, j: nat)
    requires Controlled(sinks, log).Some? && i <= j < |log|
    requires Controlled(sinks, log[..i]).Some? && Controlled(sinks, log[..i]).value.phase.Stopping?
    ensures !log[j].Handed?
  {
    TriggerIsFixed(sinks, log, j + 1);
    assert log[..j + 1][..j] == log[..j];
    TriggerIsFixed(sinks, log, j);
    TriggerIsFixed(sinks, log[..j], i);
    assert log[..j][..i] == log[..i];
  }

  ghost predicate OfferedSince(log: seq<Entry>, i: nat) { exists k :: i < k < |log| && log[k].Offered? }

  lemma {:induction false} SavedMeansOffered(sinks: bool, log: seq<Entry>, i: nat)
    requires Controlled(sinks, log).Some? && Controlled(sinks, log).value.saved
    requires i < |log| && log[i].Applied?
    ensures OfferedSince(log, i)
  {
    var front, last := log[..|log| - 1], log[|log| - 1];
    if last.Offered? {
      assert log[|log| - 1].Offered?;
    } else {
      SavedMeansOffered(sinks, front, i);
      var k :| i < k < |front| && front[k].Offered?;
      assert log[k] == front[k];
    }
  }

  /** With a sink, no state is handed over after a `Result` before a checkpoint was offered since. */
  lemma CheckpointBeforeHandOver(log: seq<Entry>, i: nat, j: nat)
    requires Controlled(true, log).Some? && i < j < |log| && log[i].Applied? && log[j].Handed?
    ensures exists k :: i < k < j && log[k].Offered?
  {
    TriggerIsFixed(true, log, j + 1);
    assert log[..j + 1][..j] == log[..j];
    TriggerIsFixed(true, log, j);
    SavedMeansOffered(true, log[..j], i);
    var k :| i < k < |log[..j]| && log[..j][k].Offered?;
    assert log[k] == log[..j][k];
  }

  /**
   * Who stopped the run is decided by one read: the executor if and only if a failure read an untriggered token, the host
   * if and only if a failure or the head of the loop read a triggered one.
   */
  lemma {:induction false} DecidedByARead(sinks: bool, log: seq<Entry>)
    requires Controlled(sinks, log).Some?
    ensures Controlled(sinks, log).value.phase == Stopping(ByExecutor) <==> Read(OnFailure, false) in log
    ensures Controlled(sinks, log).value.phase == Stopping(ByHost) <==>
              Read(OnFailure, true) in log || Read(AtHead, true) in log
  {
    if log != [] {
      DecidedByARead(sinks, log[..|log| - 1]);
      assert log == log[..|log| - 1] + [log[|log| - 1]];
    }
  }

  /** The host is first when it triggers before the executor does, and the token is triggered when somebody has. */
  lemma {:induction false} FirstIsWhoCameFirst(sinks: bool, log: seq<Entry>)
    requires Controlled(sinks, log).Some?
    ensures var c := Controlled(sinks, log).value;
            && (c.token <==> HostTriggered in log || ExecutorTriggered in log) && (c.token <==> c.first.Some?)
            && (c.first == Some(ByHost) <==> HostTriggered in log) && (c.phase.Stopping? && !c.deciding ==> c.token)
  {
    if log != [] {
      FirstIsWhoCameFirst(sinks, log[..|log| - 1]);
      assert log == log[..|log| - 1] + [log[|log| - 1]];
    }
  }

  ghost predicate HostBetween(log: seq<Entry>, k: nat, t: nat) { exists h :: k < h < t <= |log| && log[h] == HostTriggered }

  /**
   * The executor decided: at `k` its failure read an untriggered token, at `t` it triggered it. The executor was first if
   * and only if the host did not trigger in between.
   */
  lemma {:induction false} ExecutorFirstUnlessHostBetween(sinks: bool, log: seq<Entry>) returns (k: nat, t: nat)
    requires Controlled(sinks, log).Some?
    requires var c := Controlled(sinks, log).value; c.phase == Stopping(ByExecutor) && !c.deciding
    ensures k < t < |log| && log[k] == Read(OnFailure, false) && log[t] == ExecutorTriggered
    ensures Controlled(sinks, log).value.first == Some(ByExecutor) <==> !HostBetween(log, k, t)
  {
    var front, last := log[..|log| - 1], log[|log| - 1];
    assert log == front + [last];
    if last == ExecutorTriggered {
      k := WhileDeciding(sinks, front);
      t := |log| - 1;
      assert log[k] == front[k];
      SameBetween(front, last, k, t);
    } else {
      FirstIsWhoCameFirst(sinks, front);
      k, t := ExecutorFirstUnlessHostBetween(sinks, front);
      SameBetween(front, last, k, t);
    }
  }

  lemma SameBetween(front: seq<Entry>, last: Entry, k: nat, t: nat)
    requires k < |front| && t <= |front|
    ensures HostBetween(front + [last], k, t) <==> HostBetween(front, k, t)
  {
    var log := front + [last];
    if HostBetween(log, k, t) {
      var h :| k < h < t <= |log| && log[h] == HostTriggered;
      assert front[h] == HostTriggered;
    }
    if HostBetween(front, k, t) {
      var h :| k < h < t <= |front| && front[h] == HostTriggered;
      assert log[h] == HostTriggered;
    }
  }

  /** Between the read and the trigger: the token is triggered if and only if the host has come in between. */
  lemma {:induction false} WhileDeciding(sinks: bool, log: seq<Entry>) returns (k: nat)
    requires Controlled(sinks, log).Some? && Controlled(sinks, log).value.deciding
    ensures k < |log| && log[k] == Read(OnFailure, false)
    ensures var c := Controlled(sinks, log).value;
            if HostBetween(log, k, |log|) then c.first == Some(ByHost) && c.token else !c.token && c.first.None?
  {
    var front, last := log[..|log| - 1], log[|log| - 1];
    if last == HostTriggered {
      k := WhileDeciding(sinks, front);
      assert log[k] == front[k] && log[|log| - 1] == HostTriggered;
    } else {
      k := |log| - 1;
      FirstIsWhoCameFirst(sinks, front);
    }
  }

  /** The smallest history in which the host is first and the executor takes itself to be. */
  lemma HostFirstYetExecutorDecides(sinks: bool)
    ensures Controlled(sinks, [Read(OnFailure, false), HostTriggered, ExecutorTriggered])
         == Some(Control(true, Some(ByHost), Stopping(ByExecutor), true, {}, false))
  {
    var read := [Read(OnFailure, false)];
    FoldOneMore(Watch(sinks), CALM, [], Read(OnFailure, false));
    FoldOneMore(Watch(sinks), CALM, read, HostTriggered);
    FoldOneMore(Watch(sinks), CALM, read + [HostTriggered], ExecutorTriggered);
    assert [] + read == read;
    assert read + [HostTriggered] + [ExecutorTriggered] == [Read(OnFailure, false), HostTriggered, ExecutorTriggered];
  }
}
