/** The description of a graph, the rules a valid one meets, and the checked evaluation of an edge. */
module Structure {
  import opened Prelude

  datatype Target = Node(name: string) | End

  datatype NodeMeta = NodeMeta(name: string, kind: string, subkind: string)

  datatype EdgeMeta = EdgeMeta(name: string, source: string, targets: seq<Target>)

  datatype Shape = Shape(version: string, entries: seq<string>, nodes: seq<NodeMeta>, edges: seq<EdgeMeta>)

  const NODE_NAME_MAX := 64
  const NODE_KIND_MAX := 32
  const NODE_SUBKIND_MAX := 64
  const EDGE_NAME_MAX := 64
  const VERSION_MAX := 64

  predicate IsIdentifier(value: string, max: nat) {
    |value| <= max && value != [] && IsLower(value[0])
    && forall i :: 0 <= i < |value| ==> IsLower(value[i]) || IsDigit(value[i]) || value[i] == '_'
  }

  predicate IsVersion(value: string) {
    1 <= |value| <= VERSION_MAX
    && forall i :: 0 <= i < |value| ==>
                     IsLower(value[i]) || 'A' <= value[i] <= 'Z' || IsDigit(value[i]) || value[i] in ['.', '_', '-']
  }

  function NodeNames(nodes: seq<NodeMeta>): (r: seq<string>)
    ensures |r| == |nodes| && forall i :: 0 <= i < |r| ==> r[i] == nodes[i].name
  {
    seq(|nodes|, i requires 0 <= i < |nodes| => nodes[i].name)
  }

  function NameOf(node: NodeMeta): string { node.name }

  function EdgeNameOf(edge: EdgeMeta): string { edge.name }

  function SourceOf(edge: EdgeMeta): string { edge.source }

  predicate NodeOk(node: NodeMeta) {
    IsIdentifier(node.name, NODE_NAME_MAX) && IsIdentifier(node.kind, NODE_KIND_MAX)
    && IsIdentifier(node.subkind, NODE_SUBKIND_MAX)
  }

  ghost predicate NodesOk(nodes: seq<NodeMeta>) {
    nodes != [] && (forall node :: node in nodes ==> NodeOk(node)) && DistinctBy(nodes, NameOf)
  }

  ghost predicate EntriesOk(entries: seq<string>, names: set<string>) {
    entries != [] && Distinct(entries) && forall entry :: entry in entries ==> entry in names
  }

  ghost predicate TargetsOk(targets: seq<Target>, names: set<string>) {
    targets != [] && Distinct(targets)
    && forall target :: target in targets && target.Node? ==> target.name in names
  }

  ghost predicate EdgeOk(edge: EdgeMeta, names: set<string>) {
    IsIdentifier(edge.name, EDGE_NAME_MAX) && edge.source in names && TargetsOk(edge.targets, names)
  }

  ghost predicate HasEdge(edges: seq<EdgeMeta>, name: string) {
    exists edge :: edge in edges && edge.source == name
  }

  ghost predicate EdgesOk(edges: seq<EdgeMeta>, names: set<string>) {
    (forall edge :: edge in edges ==> EdgeOk(edge, names))
    && DistinctBy(edges, EdgeNameOf) && DistinctBy(edges, SourceOf)
    && forall name :: name in names ==> HasEdge(edges, name)
  }

  ghost function NameSet(nodes: seq<NodeMeta>): set<string> {
    set node | node in nodes :: node.name
  }

  /** `a` declares `b` as a target. */
  ghost predicate Leads(edges: seq<EdgeMeta>, a: string, b: Target) {
    exists edge :: edge in edges && edge.source == a && b in edge.targets
  }

  /** A walk along declared targets. */
  ghost predicate IsWalk(edges: seq<EdgeMeta>, walk: seq<string>) {
    walk != [] && forall i :: 0 <= i < |walk| - 1 ==> Leads(edges, walk[i], Node(walk[i + 1]))
  }

  ghost predicate FromEntry(shape: Shape, name: string) {
    exists walk :: IsWalk(shape.edges, walk) && walk[0] in shape.entries && walk[|walk| - 1] == name
  }

  ghost predicate ToEnd(shape: Shape, name: string) {
    exists walk :: IsWalk(shape.edges, walk) && walk[0] == name && Leads(shape.edges, walk[|walk| - 1], End)
  }

  /** Naming and uniqueness, with no word on reachability. */
  ghost predicate WellNamed(shape: Shape) {
    IsVersion(shape.version) && NodesOk(shape.nodes) && EntriesOk(shape.entries, NameSet(shape.nodes))
    && EdgesOk(shape.edges, NameSet(shape.nodes))
  }

  /** What a structure promises: well named, every node reachable, END reachable from every node. */
  ghost predicate Acceptable(shape: Shape) {
    WellNamed(shape)
    && forall node :: node in shape.nodes ==> FromEntry(shape, node.name) && ToEnd(shape, node.name)
  }

  // ----- the checked evaluation of an edge -----

  /** What the code of an edge answers: targets, or a failure (an error or a panic). */
  datatype EdgeAnswer = Returned(targets: seq<Target>) | Broke

  datatype EdgeError = UnknownNode | Failed | EmptyTargets | EndMixedWithNodes | UndeclaredTarget(target: Target)

  /** The targets that are declared and returned, in the order of the declaration. */
  function Picked(declared: seq<Target>, returned: seq<Target>): (r: seq<Target>) {
    if declared == [] then []
    else
      Picked(declared[..|declared| - 1], returned)
      + if declared[|declared| - 1] in returned then [declared[|declared| - 1]] else []
  }

  lemma {:induction false} PickedMembers(declared: seq<Target>, returned: seq<Target>)
    ensures forall target :: target in Picked(declared, returned) <==> target in declared && target in returned
  {
    if declared != [] {
      PickedMembers(declared[..|declared| - 1], returned);
      assert declared == declared[..|declared| - 1] + [declared[|declared| - 1]];
    }
  }

  function FirstUndeclared(declared: seq<Target>, returned: seq<Target>): (r: Option<Target>) {
    if returned == [] then None
    else if returned[0] !in declared then Some(returned[0])
    else FirstUndeclared(declared, returned[1..])
  }

  /** The target at `k` is the first one returned that is not declared. */
  ghost predicate IsFirstUndeclared(declared: seq<Target>, returned: seq<Target>, k: nat) {
    k < |returned| && returned[k] !in declared && forall j :: 0 <= j < k ==> returned[j] in declared
  }

  lemma {:induction false} FirstUndeclaredMeans(declared: seq<Target>, returned: seq<Target>)
    ensures FirstUndeclared(declared, returned).None? <==> forall target :: target in returned ==> target in declared
    ensures FirstUndeclared(declared, returned).Some? ==>
              exists k: nat :: IsFirstUndeclared(declared, returned, k)
                               && returned[k] == FirstUndeclared(declared, returned).value
  {
    if returned != [] {
      FirstUndeclaredMeans(declared, returned[1..]);
      assert returned == [returned[0]] + returned[1..];
      if returned[0] !in declared {
        assert IsFirstUndeclared(declared, returned, 0);
      } else if FirstUndeclared(declared, returned).Some? {
        var k: nat :| IsFirstUndeclared(declared, returned[1..], k)
                      && returned[1..][k] == FirstUndeclared(declared, returned).value;
        assert IsFirstUndeclared(declared, returned, k + 1) && returned[k + 1] == returned[1..][k];
      }
    }
  }

  function Choose(declared: seq<Target>, answer: EdgeAnswer): (r: Result<seq<Target>, EdgeError>) {
    match answer
    case Broke => Err(Failed)
    case Returned(returned) =>
      if returned == [] then Err(EmptyTargets)
      else if End in returned && exists target :: target in returned && target != End then Err(EndMixedWithNodes)
      else
        match FirstUndeclared(declared, returned)
        case Some(target) => Err(UndeclaredTarget(target))
        case None => Ok(Picked(declared, returned))
  }

  /** An accepted evaluation names exactly the returned targets, none twice, and END alone or not at all. */
  lemma {:induction false} ChooseMeansReturned(declared: seq<Target>, answer: EdgeAnswer)
    requires Distinct(declared)
    ensures Choose(declared, answer).Ok? <==>
            answer.Returned? && answer.targets != []
            && (forall target :: target in answer.targets ==> target in declared)
            && (End in answer.targets ==> forall target :: target in answer.targets ==> target == End)
    ensures Choose(declared, answer).Ok? ==>
              var r := Choose(declared, answer).value;
              r != [] && Distinct(r) && (forall target :: target in r <==> target in answer.targets)
              && (End in r ==> r == [End])
    ensures Choose(declared, answer) == Err(Failed) <==> answer.Broke?
    ensures Choose(declared, answer) == Err(EmptyTargets) <==> answer == Returned([])
    ensures Choose(declared, answer) == Err(EndMixedWithNodes) <==>
            answer.Returned? && End in answer.targets && exists target :: target in answer.targets && target != End
    ensures forall undeclared ::
              Choose(declared, answer) == Err(UndeclaredTarget(undeclared)) ==>
                && answer.Returned?
                && (End in answer.targets ==> forall target :: target in answer.targets ==> target == End)
                && exists k: nat :: IsFirstUndeclared(declared, answer.targets, k) && answer.targets[k] == undeclared
  {
    if answer.Returned? { FirstUndeclaredMeans(declared, answer.targets); }
    if Choose(declared, answer).Ok? {
      var r := Picked(declared, answer.targets);
      PickedMembers(declared, answer.targets);
      PickedKeepsOrder(declared, answer.targets);
      assert answer.targets[0] in r;
      assert |r| < 2 || r[0] != r[1];
      if End in r {
        forall i | 0 <= i < |r| ensures r[i] == End { assert r[i] in r; }
      }
    }
  }

  /** What comes before in `r` also comes before in `declared`. */
  ghost predicate InOrderOf(r: seq<Target>, declared: seq<Target>) {
    forall a, b, i, j :: 0 <= a < b < |r| && 0 <= i < |declared| && 0 <= j < |declared| ==>
                           declared[i] == r[a] && declared[j] == r[b] ==> i < j
  }

  lemma {:induction false} PickedKeepsOrder(declared: seq<Target>, returned: seq<Target>)
    requires Distinct(declared)
    ensures Distinct(Picked(declared, returned))
    ensures InOrderOf(Picked(declared, returned), declared)
  {
    if declared != [] {
      var front, last := declared[..|declared| - 1], declared[|declared| - 1];
      PickedKeepsOrder(front, returned);
      PickedMembers(front, returned);
      var r, rest := Picked(declared, returned), Picked(front, returned);
      assert last !in front;
      assert forall k :: 0 <= k < |rest| ==> rest[k] in front;
      forall a, b, i, j | 0 <= a < b < |r| && 0 <= i < |declared| && 0 <= j < |declared|
                          && declared[i] == r[a] && declared[j] == r[b]
        ensures i < j
      {
        assert r[a] == rest[a] && rest[a] in front;
        assert i < |front|;
        if b < |rest| { assert rest[b] in front; assert j < |front|; }
      }
    }
  }

  method Mark(declared: seq<Target>, returned: seq<Target>) returns (r: Result<seq<bool>, EdgeError>)
    requires Distinct(declared)
    ensures r.Ok? <==> FirstUndeclared(declared, returned).None?
    ensures r.Err? ==> r.error == UndeclaredTarget(FirstUndeclared(declared, returned).value)
    ensures r.Ok? ==> |r.value| == |declared|
                      && forall i :: 0 <= i < |declared| ==> r.value[i] == (declared[i] in returned)
  {
    var chosen := seq(|declared|, _ => false);
    for k := 0 to |returned|
      invariant |chosen| == |declared|
      invariant FirstUndeclared(declared, returned) == FirstUndeclared(declared, returned[k..])
      invariant forall i :: 0 <= i < |declared| ==> chosen[i] == (declared[i] in returned[..k])
    {
      assert returned[k..][1..] == returned[k + 1..];
      var position := PositionOf(declared, returned[k]);
      if position.None? { return Err(UndeclaredTarget(returned[k])); }
      chosen := chosen[position.value := true];
      assert returned[..k + 1] == returned[..k] + [returned[k]];
    }
    assert returned[..|returned|] == returned;
    r := Ok(chosen);
  }

  /** The evaluation of an edge as the source does it: marks the declared positions, then filters. */
  method EvaluateEdge(declared: seq<Target>, answer: EdgeAnswer) returns (r: Result<seq<Target>, EdgeError>)
    requires Distinct(declared)
    ensures r == Choose(declared, answer)
  {
    if answer.Broke? { return Err(Failed); }
    var returned := answer.targets;
    if returned == [] { return Err(EmptyTargets); }
    if End in returned && exists target :: target in returned && target != End {
      return Err(EndMixedWithNodes);
    }
    var marked := Mark(declared, returned);
    if marked.Err? { return Err(marked.error); }
    var chosen := marked.value;
    var kept: seq<Target> := [];
    for i := 0 to |declared|
      invariant kept == Picked(declared[..i], returned)
    {
      assert declared[..i + 1][..i] == declared[..i];
      if chosen[i] { kept := kept + [declared[i]]; }
    }
    assert declared[..|declared|] == declared;
    r := Ok(kept);
  }
}
