/** The rules of a valid structure as the build checks them, and its canonical form. */
module Validation {
  import opened Prelude
  import opened Structure
  import opened Reach

  datatype BuildError =
    | InvalidVersion(version: string) | NoNodes | InvalidNodeName(name: string) | InvalidNodeKind(name: string)
    | InvalidNodeSubkind(name: string) | DuplicateNodeName(name: string) | NoEntry | DuplicateEntry(name: string)
    | EntryNotANode(name: string) | InvalidEdgeName(name: string) | DuplicateEdgeName(name: string)
    | EdgeSourceNotANode(name: string) | NodeWithSeveralEdges(name: string) | NodeWithoutEdge(name: string)
    | NoTargets(name: string) | DuplicateTarget(name: string) | UnknownTarget(name: string)
    | UnreachableNode(name: string) | EndUnreachable(name: string)

  // ----- reachability of the nodes of a shape -----

  /** The edges of a shape on positions: forward, backward, and the positions that may go to END. */
  datatype Links = Links(forward: seq<seq<nat>>, backward: seq<seq<nat>>, exits: seq<nat>)

  /** `table[a]` holds exactly the positions of the nodes that `names[a]` declares. */
  ghost predicate ForwardOf(names: seq<string>, edges: seq<EdgeMeta>, table: seq<seq<nat>>) {
    |table| == |names| && InRange(table)
    && forall a, c :: 0 <= a < |names| && 0 <= c < |names| ==> (c in table[a] <==> Leads(edges, names[a], Node(names[c])))
  }

  /** `table[c]` holds exactly the positions of the nodes that declare `names[c]`. */
  ghost predicate BackwardOf(names: seq<string>, edges: seq<EdgeMeta>, table: seq<seq<nat>>) {
    |table| == |names| && InRange(table)
    && forall a, c :: 0 <= a < |names| && 0 <= c < |names| ==> (a in table[c] <==> Leads(edges, names[a], Node(names[c])))
  }

  ghost predicate ExitsOf(names: seq<string>, edges: seq<EdgeMeta>, exits: seq<nat>) {
    (forall a :: a in exits ==> a < |names|)
    && forall a :: 0 <= a < |names| ==> (a in exits <==> Leads(edges, names[a], End))
  }

  ghost predicate LinksOf(names: seq<string>, edges: seq<EdgeMeta>, l: Links) {
    ForwardOf(names, edges, l.forward) && BackwardOf(names, edges, l.backward) && ExitsOf(names, edges, l.exits)
  }

  function AddLink(names: seq<string>, l: Links, from: nat, target: Target): (r: Links)
    requires |l.forward| == |l.backward| == |names| && from < |names|
  {
    match target
    case End => l.(exits := l.exits + [from])
    case Node(name) =>
      match PositionOf(names, name)
      case None => l
      case Some(to) =>
        l.(forward := l.forward[from := l.forward[from] + [to]], backward := l.backward[to := l.backward[to] + [from]])
  }

  /** The edges `after` declare what `before` did, and that `from` leads to `target`. */
  ghost predicate OneLeadMore(before: seq<EdgeMeta>, after: seq<EdgeMeta>, from: string, target: Target) {
    forall a, b :: Leads(after, a, b) <==> Leads(before, a, b) || (a == from && b == target)
  }

  lemma ForwardAdded(names: seq<string>, before: seq<EdgeMeta>, after: seq<EdgeMeta>, table: seq<seq<nat>>,
                     from: nat, to: nat)
    requires Distinct(names) && ForwardOf(names, before, table) && from < |names| && to < |names|
    requires OneLeadMore(before, after, names[from], Node(names[to]))
    ensures ForwardOf(names, after, table[from := table[from] + [to]])
  {
  }

  lemma BackwardAdded(names: seq<string>, before: seq<EdgeMeta>, after: seq<EdgeMeta>, table: seq<seq<nat>>,
                      from: nat, to: nat)
    requires Distinct(names) && BackwardOf(names, before, table) && from < |names| && to < |names|
    requires OneLeadMore(before, after, names[from], Node(names[to]))
    ensures BackwardOf(names, after, table[to := table[to] + [from]])
  {
  }

  lemma LinkAdded(names: seq<string>, before: seq<EdgeMeta>, after: seq<EdgeMeta>, l: Links, from: nat, target: Target)
    requires Distinct(names) && LinksOf(names, before, l) && from < |names|
    requires OneLeadMore(before, after, names[from], target)
    ensures LinksOf(names, after, AddLink(names, l, from, target))
  {
    if target.Node? && target.name in names {
      var to := PositionOf(names, target.name).value;
      ForwardAdded(names, before, after, l.forward, from, to);
      BackwardAdded(names, before, after, l.backward, from, to);
    }
  }

  lemma OneTargetMore(done: seq<EdgeMeta>, edge: EdgeMeta, t: nat)
    requires t < |edge.targets|
    ensures OneLeadMore(done + [edge.(targets := edge.targets[..t])], done + [edge.(targets := edge.targets[..t + 1])],
                        edge.source, edge.targets[t])
  {
    var x, y := done + [edge.(targets := edge.targets[..t + 1])], done + [edge.(targets := edge.targets[..t])];
    assert edge.targets[..t + 1] == edge.targets[..t] + [edge.targets[t]];
    assert x[|done|] in x && y[|done|] in y;
    forall a, b ensures Leads(x, a, b) <==> Leads(y, a, b) || (a == edge.source && b == edge.targets[t]) {
      if Leads(x, a, b) {
        var e :| e in x && e.source == a && b in e.targets;
        assert e in done ==> e in y;
      }
      if Leads(y, a, b) {
        var e :| e in y && e.source == a && b in e.targets;
        assert e in done ==> e in x;
      }
    }
  }

  lemma SilentEdge(names: seq<string>, done: seq<EdgeMeta>, edge: EdgeMeta, l: Links)
    requires LinksOf(names, done, l)
    requires edge.source !in names || edge.targets == []
    ensures LinksOf(names, done + [edge], l)
  {
    forall a, b | a in names ensures Leads(done + [edge], a, b) <==> Leads(done, a, b) {
      if Leads(done, a, b) {
        var e :| e in done && e.source == a && b in e.targets;
        assert e in done + [edge];
      }
    }
    assert forall a :: 0 <= a < |names| ==> names[a] in names;
  }

  method BuildLinks(names: seq<string>, edges: seq<EdgeMeta>) returns (l: Links)
    requires Distinct(names)
    ensures LinksOf(names, edges, l)
  {
    l := Links(seq(|names|, _ => []), seq(|names|, _ => []), []);
    for e := 0 to |edges|
      invariant LinksOf(names, edges[..e], l)
    {
      var edge := edges[e];
      assert edges[..e + 1] == edges[..e] + [edge];
      var from := PositionOf(names, edge.source);
      if from.None? {
        SilentEdge(names, edges[..e], edge, l);
      } else {
        l := LinkEdge(names, edges[..e], edge, from.value, l);
      }
    }
    assert edges[..|edges|] == edges;
  }

  method LinkEdge(names: seq<string>, done: seq<EdgeMeta>, edge: EdgeMeta, from: nat, before: Links) returns (l: Links)
    requires Distinct(names) && LinksOf(names, done, before)
    requires from < |names| && names[from] == edge.source
    ensures LinksOf(names, done + [edge], l)
  {
    l := before;
    SilentEdge(names, done, edge.(targets := []), l);
    assert edge.targets[..0] == [];
    for t := 0 to |edge.targets|
      invariant LinksOf(names, done + [edge.(targets := edge.targets[..t])], l)
    {
      OneTargetMore(done, edge, t);
      LinkAdded(names, done + [edge.(targets := edge.targets[..t])], done + [edge.(targets := edge.targets[..t + 1])],
                l, from, edge.targets[t]);
      l := AddLink(names, l, from, edge.targets[t]);
    }
    assert edge.targets[..|edge.targets|] == edge.targets;
    assert edge.(targets := edge.targets) == edge;
  }

  /** Along declared targets a walk that starts at a node stays on nodes. */
  lemma {:induction false} WalkStaysOnNodes(names: seq<string>, edges: seq<EdgeMeta>, walk: seq<string>)
    requires IsWalk(edges, walk) && walk[0] in names
    requires forall edge, target :: edge in edges && target in edge.targets && target.Node? ==> target.name in names
    ensures forall i :: 0 <= i < |walk| ==> walk[i] in names
  {
    if |walk| > 1 {
      var front := walk[..|walk| - 1];
      WalkStaysOnNodes(names, edges, front);
      assert Leads(edges, walk[|walk| - 2], Node(walk[|walk| - 1]));
      forall i | 0 <= i < |walk| ensures walk[i] in names { assert i < |front| ==> walk[i] == front[i]; }
    }
  }

  function Positions(names: seq<string>, walk: seq<string>): (r: seq<nat>)
    requires forall i :: 0 <= i < |walk| ==> walk[i] in names
    ensures |r| == |walk| && forall i :: 0 <= i < |walk| ==> r[i] < |names| && names[r[i]] == walk[i]
  {
    seq(|walk|, i requires 0 <= i < |walk| => PositionOf(names, walk[i]).value)
  }

  function Reversed<T>(s: seq<T>): (r: seq<T>)
    ensures |r| == |s| && forall i :: 0 <= i < |s| ==> r[i] == s[|s| - 1 - i]
  {
    seq(|s|, i requires 0 <= i < |s| => s[|s| - 1 - i])
  }

  /** `names` are the nodes, and every declared target is END or one of them. */
  ghost predicate Grounded(shape: Shape, names: seq<string>) {
    && Distinct(names) && (forall entry :: entry in shape.entries ==> entry in names)
    && forall edge, target :: edge in shape.edges && target in edge.targets && target.Node? ==> target.name in names
  }

  ghost predicate SeedsOf(names: seq<string>, entries: seq<string>, seeds: seq<nat>) {
    (forall s :: s in seeds ==> s < |names|) && forall s :: 0 <= s < |names| ==> (s in seeds <==> names[s] in entries)
  }

  function NamesAt(names: seq<string>, path: seq<nat>): (r: seq<string>)
    requires forall i :: 0 <= i < |path| ==> path[i] < |names|
    ensures |r| == |path| && forall i :: 0 <= i < |r| ==> r[i] == names[path[i]]
  {
    seq(|path|, k requires 0 <= k < |path| => names[path[k]])
  }

  lemma WalkIsForwardPath(names: seq<string>, edges: seq<EdgeMeta>, table: seq<seq<nat>>, walk: seq<string>)
    requires ForwardOf(names, edges, table) && IsWalk(edges, walk)
    requires forall i :: 0 <= i < |walk| ==> walk[i] in names
    ensures IsPath(table, Positions(names, walk))
  {
    forall k | 0 <= k < |walk| - 1 ensures Positions(names, walk)[k + 1] in table[Positions(names, walk)[k]] {
      assert Leads(edges, walk[k], Node(walk[k + 1]));
    }
  }

  lemma ForwardPathIsWalk(names: seq<string>, edges: seq<EdgeMeta>, table: seq<seq<nat>>, path: seq<nat>)
    requires ForwardOf(names, edges, table) && IsPath(table, path)
    ensures IsWalk(edges, NamesAt(names, path))
  {
    forall k | 0 <= k < |path| - 1 ensures Leads(edges, NamesAt(names, path)[k], Node(NamesAt(names, path)[k + 1])) {
      assert path[k + 1] in table[path[k]];
    }
  }

  lemma WalkIsBackwardPath(names: seq<string>, edges: seq<EdgeMeta>, table: seq<seq<nat>>, walk: seq<string>)
    requires BackwardOf(names, edges, table) && IsWalk(edges, walk)
    requires forall i :: 0 <= i < |walk| ==> walk[i] in names
    ensures IsPath(table, Reversed(Positions(names, walk)))
  {
    var path := Reversed(Positions(names, walk));
    forall k | 0 <= k < |path| - 1 ensures path[k + 1] in table[path[k]] {
      var j := |walk| - 2 - k;
      assert Leads(edges, walk[j], Node(walk[j + 1]));
    }
  }

  lemma BackwardPathIsWalk(names: seq<string>, edges: seq<EdgeMeta>, table: seq<seq<nat>>, path: seq<nat>)
    requires BackwardOf(names, edges, table) && IsPath(table, path)
    ensures IsWalk(edges, Reversed(NamesAt(names, path)))
  {
    var walk := Reversed(NamesAt(names, path));
    forall k | 0 <= k < |walk| - 1 ensures Leads(edges, walk[k], Node(walk[k + 1])) {
      var j := |path| - 2 - k;
      assert path[j + 1] in table[path[j]];
    }
  }

  lemma FromEntryIsReached(shape: Shape, names: seq<string>, l: Links, seeds: seq<nat>, i: nat)
    requires Grounded(shape, names) && ForwardOf(names, shape.edges, l.forward) && SeedsOf(names, shape.entries, seeds)
    requires i < |names|
    ensures FromEntry(shape, names[i]) <==> Reaches(l.forward, seeds, i)
  {
    if FromEntry(shape, names[i]) {
      var walk :| IsWalk(shape.edges, walk) && walk[0] in shape.entries && walk[|walk| - 1] == names[i];
      WalkStaysOnNodes(names, shape.edges, walk);
      WalkIsForwardPath(names, shape.edges, l.forward, walk);
      assert PathTo(l.forward, seeds, Positions(names, walk), i);
    }
    if Reaches(l.forward, seeds, i) {
      var path :| PathTo(l.forward, seeds, path, i);
      ForwardPathIsWalk(names, shape.edges, l.forward, path);
      var walk := NamesAt(names, path);
      assert walk[0] in shape.entries && walk[|walk| - 1] == names[i];
    }
  }

  lemma ToEndIsReached(shape: Shape, names: seq<string>, l: Links, i: nat)
    requires Grounded(shape, names) && i < |names|
    requires BackwardOf(names, shape.edges, l.backward) && ExitsOf(names, shape.edges, l.exits)
    ensures ToEnd(shape, names[i]) <==> Reaches(l.backward, l.exits, i)
  {
    if ToEnd(shape, names[i]) {
      var walk :| IsWalk(shape.edges, walk) && walk[0] == names[i] && Leads(shape.edges, walk[|walk| - 1], End);
      WalkStaysOnNodes(names, shape.edges, walk);
      WalkIsBackwardPath(names, shape.edges, l.backward, walk);
      assert PathTo(l.backward, l.exits, Reversed(Positions(names, walk)), i);
    }
    if Reaches(l.backward, l.exits, i) {
      var path :| PathTo(l.backward, l.exits, path, i);
      BackwardPathIsWalk(names, shape.edges, l.backward, path);
      var walk := Reversed(NamesAt(names, path));
      assert walk[0] == names[i] && Leads(shape.edges, walk[|walk| - 1], End);
    }
  }

  /** Floods one table: `None` when it marks every position, else the first it misses. */
  method FloodAll(table: seq<seq<nat>>, seeds: seq<nat>) returns (missed: Option<nat>)
    requires InRange(table) && forall s :: s in seeds ==> s < |table|
    ensures missed.None? <==> forall i :: 0 <= i < |table| ==> Reaches(table, seeds, i)
    ensures missed.Some? ==> missed.value < |table| && !Reaches(table, seeds, missed.value)
                             && forall i :: 0 <= i < missed.value ==> Reaches(table, seeds, i)
  {
    var reached := Flood(table, seeds);
    missed := FirstUnreached(reached);
  }

  method Seeds(names: seq<string>, entries: seq<string>) returns (seeds: seq<nat>)
    requires Distinct(names)
    ensures SeedsOf(names, entries, seeds)
  {
    seeds := [];
    for e := 0 to |entries|
      invariant SeedsOf(names, entries[..e], seeds)
    {
      assert entries[..e + 1] == entries[..e] + [entries[e]];
      var at := PositionOf(names, entries[e]);
      if at.Some? { seeds := seeds + [at.value]; }
    }
    assert entries[..|entries|] == entries;
  }

  method FirstUnreached(reached: seq<bool>) returns (r: Option<nat>)
    ensures r.None? <==> forall i :: 0 <= i < |reached| ==> reached[i]
    ensures r.Some? ==> r.value < |reached| && !reached[r.value] && forall i :: 0 <= i < r.value ==> reached[i]
  {
    for i := 0 to |reached|
      invariant forall k :: 0 <= k < i ==> reached[k]
    {
      if !reached[i] { return Some(i); }
    }
    r := None;
  }

  lemma NameIsOfANode(nodes: seq<NodeMeta>, i: nat)
    requires i < |nodes|
    ensures NodeNames(nodes)[i] in NameSet(nodes)
  {
    assert nodes[i] in nodes;
  }

  /** Every node reached from an entry, and END from every node; else the first node for which it fails. */
  method CheckReach(shape: Shape) returns (fault: Option<BuildError>)
    requires Grounded(shape, NodeNames(shape.nodes))
    ensures fault.None? <==> forall i :: 0 <= i < |shape.nodes| ==>
                                           FromEntry(shape, shape.nodes[i].name) && ToEnd(shape, shape.nodes[i].name)
    ensures fault.Some? ==> IsReachFault(shape, fault.value)
  {
    var names := NodeNames(shape.nodes);
    var l := BuildLinks(names, shape.edges);
    var seeds := Seeds(names, shape.entries);
    forall i | 0 <= i < |names|
      ensures FromEntry(shape, shape.nodes[i].name) <==> Reaches(l.forward, seeds, i)
      ensures ToEnd(shape, shape.nodes[i].name) <==> Reaches(l.backward, l.exits, i)
    {
      FromEntryIsReached(shape, names, l, seeds, i);
      ToEndIsReached(shape, names, l, i);
    }
    var missed := FloodAll(l.forward, seeds);
    if missed.Some? {
      NameIsOfANode(shape.nodes, missed.value);
      return Some(UnreachableNode(names[missed.value]));
    }
    missed := FloodAll(l.backward, l.exits);
    if missed.Some? {
      NameIsOfANode(shape.nodes, missed.value);
      return Some(EndUnreachable(names[missed.value]));
    }
    fault := None;
  }

  // ----- naming and uniqueness -----

  ghost predicate HasKey<T(!new)>(s: seq<T>, key: T -> string, x: string) {
    exists y :: y in s && key(y) == x
  }

  /** `keys` are the keys of the elements, and no two of them have the same. */
  ghost predicate KeysOf<T(!new)>(s: seq<T>, key: T -> string, keys: set<string>) {
    DistinctBy(s, key) && (forall x :: x in keys <==> HasKey(s, key, x))
  }

  lemma OneKeyMore<T(!new)>(s: seq<T>, last: T, key: T -> string, keys: set<string>)
    requires KeysOf(s, key, keys)
    ensures key(last) in keys ==> !DistinctBy(s + [last], key)
    ensures key(last) !in keys ==> KeysOf(s + [last], key, keys + {key(last)})
  {
    var t := s + [last];
    if key(last) in keys {
      var y :| y in s && key(y) == key(last);
      var k :| 0 <= k < |s| && s[k] == y;
      assert t[k] == y && t[|s|] == last;
    } else {
      forall x ensures x in keys + {key(last)} <==> HasKey(t, key, x) {
        if HasKey(s, key, x) {
          var y :| y in s && key(y) == x;
          assert y in t;
        }
        assert last in t;
      }
      forall i, j | 0 <= i < j < |t| ensures key(t[i]) != key(t[j]) {
        if j == |s| {
          assert s[i] in s && HasKey(s, key, key(s[i]));
        }
      }
    }
  }

  lemma DistinctByPrefix<T(!new)>(s: seq<T>, i: nat, key: T -> string)
    requires i <= |s|
    ensures DistinctBy(s, key) ==> DistinctBy(s[..i], key)
  {
  }

  lemma NamesAreKeys(nodes: seq<NodeMeta>, seen: set<string>)
    requires KeysOf(nodes, NameOf, seen)
    ensures seen == NameSet(nodes)
  {
    forall name ensures name in seen <==> name in NameSet(nodes) {
      assert name in seen <==> HasKey(nodes, NameOf, name);
    }
  }

  ghost predicate HasTwice<T(!new)>(s: seq<T>, key: T -> string, x: string) {
    exists i, j :: 0 <= i < j < |s| && key(s[i]) == x && key(s[j]) == x
  }

  lemma KeyComesTwice<T(!new)>(s: seq<T>, i: nat, key: T -> string, keys: set<string>)
    requires i < |s| && KeysOf(s[..i], key, keys) && key(s[i]) in keys
    ensures HasTwice(s, key, key(s[i]))
  {
    assert HasKey(s[..i], key, key(s[i]));
    var x :| x in s[..i] && key(x) == key(s[i]);
    var k :| 0 <= k < i && s[k] == x;
  }

  /** Each fault names something that is wrong with the nodes. */
  ghost predicate IsNodeFault(nodes: seq<NodeMeta>, fault: BuildError) {
    match fault
    case NoNodes => nodes == []
    case InvalidNodeName(name) => exists node :: node in nodes && node.name == name && !IsIdentifier(name, NODE_NAME_MAX)
    case InvalidNodeKind(name) =>
      exists node :: node in nodes && node.name == name && !IsIdentifier(node.kind, NODE_KIND_MAX)
    case InvalidNodeSubkind(name) =>
      exists node :: node in nodes && node.name == name && !IsIdentifier(node.subkind, NODE_SUBKIND_MAX)
    case DuplicateNodeName(name) => HasTwice(nodes, NameOf, name)
    case _ => false
  }

  ghost predicate IsEntryFault(entries: seq<string>, names: set<string>, fault: BuildError) {
    match fault
    case NoEntry => entries == []
    case DuplicateEntry(name) => exists i, j :: 0 <= i < j < |entries| && entries[i] == name && entries[j] == name
    case EntryNotANode(name) => name in entries && name !in names
    case _ => false
  }

  ghost predicate IsTargetFault(edge: EdgeMeta, names: set<string>, fault: BuildError) {
    match fault
    case NoTargets(name) => name == edge.name && edge.targets == []
    case DuplicateTarget(name) => name == edge.name && !Distinct(edge.targets)
    case UnknownTarget(name) =>
      name == edge.name && exists target :: target in edge.targets && target.Node? && target.name !in names
    case _ => false
  }

  ghost predicate IsEdgeFault(edges: seq<EdgeMeta>, names: set<string>, fault: BuildError) {
    match fault
    case InvalidEdgeName(name) => exists edge :: edge in edges && edge.name == name && !IsIdentifier(name, EDGE_NAME_MAX)
    case DuplicateEdgeName(name) => HasTwice(edges, EdgeNameOf, name)
    case EdgeSourceNotANode(name) => exists edge :: edge in edges && edge.name == name && edge.source !in names
    case NodeWithSeveralEdges(name) => HasTwice(edges, SourceOf, name)
    case NodeWithoutEdge(name) => name in names && !HasEdge(edges, name)
    case _ => exists edge :: edge in edges && IsTargetFault(edge, names, fault)
  }

  ghost predicate IsReachFault(shape: Shape, fault: BuildError) {
    match fault
    case UnreachableNode(name) => name in NameSet(shape.nodes) && !FromEntry(shape, name)
    case EndUnreachable(name) => name in NameSet(shape.nodes) && !ToEnd(shape, name)
    case _ => false
  }

  /** What a fault says is so, and everything that is checked before it is in order. */
  ghost predicate IsFault(shape: Shape, fault: BuildError) {
    var names := NameSet(shape.nodes);
    if fault.InvalidVersion? then fault.version == shape.version && !IsVersion(shape.version)
    else
      && IsVersion(shape.version)
      && (|| IsNodeFault(shape.nodes, fault)
          || (NodesOk(shape.nodes) && IsEntryFault(shape.entries, names, fault))
          || (NodesOk(shape.nodes) && EntriesOk(shape.entries, names) && IsEdgeFault(shape.edges, names, fault))
          || (WellNamed(shape) && IsReachFault(shape, fault)))
  }

  method CheckNodes(nodes: seq<NodeMeta>) returns (fault: Option<BuildError>, seen: set<string>)
    ensures fault.None? <==> NodesOk(nodes)
    ensures fault.Some? ==> IsNodeFault(nodes, fault.value)
    ensures fault.None? ==> seen == NameSet(nodes)
  {
    seen := {};
    if nodes == [] { return Some(NoNodes), seen; }
    for i := 0 to |nodes|
      invariant forall k :: 0 <= k < i ==> NodeOk(nodes[k])
      invariant KeysOf(nodes[..i], NameOf, seen)
    {
      var node := nodes[i];
      assert node in nodes;
      if !IsIdentifier(node.name, NODE_NAME_MAX) { return Some(InvalidNodeName(node.name)), seen; }
      if !IsIdentifier(node.kind, NODE_KIND_MAX) { return Some(InvalidNodeKind(node.name)), seen; }
      if !IsIdentifier(node.subkind, NODE_SUBKIND_MAX) { return Some(InvalidNodeSubkind(node.name)), seen; }
      assert nodes[..i + 1] == nodes[..i] + [node];
      OneKeyMore(nodes[..i], node, NameOf, seen);
      if node.name in seen {
        DistinctByPrefix(nodes, i + 1, NameOf);
        KeyComesTwice(nodes, i, NameOf, seen);
        return Some(DuplicateNodeName(node.name)), seen;
      }
      seen := seen + {node.name};
    }
    assert nodes[..|nodes|] == nodes;
    NamesAreKeys(nodes, seen);
    fault := None;
  }

  method CheckEntries(entries: seq<string>, names: set<string>) returns (fault: Option<BuildError>)
    ensures fault.None? <==> EntriesOk(entries, names)
    ensures fault.Some? ==> IsEntryFault(entries, names, fault.value)
  {
    if entries == [] { return Some(NoEntry); }
    var seen: set<string> := {};
    for i := 0 to |entries|
      invariant forall k :: 0 <= k < i ==> entries[k] in names && entries[k] in seen
      invariant forall e :: e in seen ==> e in entries[..i]
      invariant Distinct(entries[..i])
    {
      if entries[i] in seen { return Some(DuplicateEntry(entries[i])); }
      assert entries[i] in entries;
      if entries[i] !in names { return Some(EntryNotANode(entries[i])); }
      seen := seen + {entries[i]};
    }
    assert entries[..|entries|] == entries;
    fault := None;
  }

  method CheckTargets(edge: EdgeMeta, names: set<string>) returns (fault: Option<BuildError>)
    ensures fault.None? <==> TargetsOk(edge.targets, names)
    ensures fault.Some? ==> IsTargetFault(edge, names, fault.value)
  {
    var targets := edge.targets;
    if targets == [] { return Some(NoTargets(edge.name)); }
    var seen: set<Target> := {};
    for i := 0 to |targets|
      invariant forall k :: 0 <= k < i ==> targets[k] in seen && (targets[k].Node? ==> targets[k].name in names)
      invariant forall t :: t in seen ==> t in targets[..i]
      invariant Distinct(targets[..i])
    {
      if targets[i] in seen { return Some(DuplicateTarget(edge.name)); }
      assert targets[i] in targets;
      if targets[i].Node? && targets[i].name !in names { return Some(UnknownTarget(edge.name)); }
      seen := seen + {targets[i]};
    }
    assert targets[..|targets|] == targets;
    fault := None;
  }

  method CheckEdge(edge: EdgeMeta, edgeNames: set<string>, sources: set<string>, names: set<string>)
    returns (fault: Option<BuildError>)
    ensures fault.None? <==> EdgeOk(edge, names) && edge.name !in edgeNames && edge.source !in sources
    ensures fault.Some? ==>
              match fault.value
              case InvalidEdgeName(name) => name == edge.name && !IsIdentifier(name, EDGE_NAME_MAX)
              case DuplicateEdgeName(name) => name == edge.name && name in edgeNames
              case EdgeSourceNotANode(name) => name == edge.name && edge.source !in names
              case NodeWithSeveralEdges(name) => name == edge.source && name in sources
              case _ => IsTargetFault(edge, names, fault.value)
  {
    if !IsIdentifier(edge.name, EDGE_NAME_MAX) { return Some(InvalidEdgeName(edge.name)); }
    if edge.name in edgeNames { return Some(DuplicateEdgeName(edge.name)); }
    if edge.source !in names { return Some(EdgeSourceNotANode(edge.name)); }
    if edge.source in sources { return Some(NodeWithSeveralEdges(edge.source)); }
    fault := CheckTargets(edge, names);
  }

  ghost predicate EachEdgeOk(edges: seq<EdgeMeta>, names: set<string>) {
    (forall edge :: edge in edges ==> EdgeOk(edge, names)) && DistinctBy(edges, EdgeNameOf) && DistinctBy(edges, SourceOf)
  }

  method CheckNextEdge(done: seq<EdgeMeta>, edge: EdgeMeta, names: set<string>, edgeNames: set<string>,
                       sources: set<string>)
    returns (fault: Option<BuildError>)
    requires EachEdgeOk(done, names) && KeysOf(done, EdgeNameOf, edgeNames) && KeysOf(done, SourceOf, sources)
    ensures fault.None? <==> EachEdgeOk(done + [edge], names)
    ensures fault.Some? ==> IsEdgeFault(done + [edge], names, fault.value) && !fault.value.NodeWithoutEdge?
    ensures fault.None? ==> KeysOf(done + [edge], EdgeNameOf, edgeNames + {edge.name})
                            && KeysOf(done + [edge], SourceOf, sources + {edge.source})
  {
    fault := CheckEdge(edge, edgeNames, sources, names);
    OneKeyMore(done, edge, EdgeNameOf, edgeNames);
    OneKeyMore(done, edge, SourceOf, sources);
    var all := done + [edge];
    assert edge in all && all[..|done|] == done;
    if fault.Some? && fault.value.DuplicateEdgeName? { KeyComesTwice(all, |done|, EdgeNameOf, edgeNames); }
    if fault.Some? && fault.value.NodeWithSeveralEdges? { KeyComesTwice(all, |done|, SourceOf, sources); }
  }

  lemma FaultOfAPart(edges: seq<EdgeMeta>, i: nat, names: set<string>, fault: BuildError)
    requires i <= |edges| && IsEdgeFault(edges[..i], names, fault) && !fault.NodeWithoutEdge?
    ensures IsEdgeFault(edges, names, fault)
  {
    assert forall edge :: edge in edges[..i] ==> edge in edges;
    match fault
    case DuplicateEdgeName(name) =>
      var a, b :| 0 <= a < b < i && EdgeNameOf(edges[..i][a]) == name && EdgeNameOf(edges[..i][b]) == name;
      assert EdgeNameOf(edges[a]) == name && EdgeNameOf(edges[b]) == name;
    case NodeWithSeveralEdges(name) =>
      var a, b :| 0 <= a < b < i && SourceOf(edges[..i][a]) == name && SourceOf(edges[..i][b]) == name;
      assert SourceOf(edges[a]) == name && SourceOf(edges[b]) == name;
    case _ =>
  }

  method CheckEachEdge(edges: seq<EdgeMeta>, names: set<string>)
    returns (fault: Option<BuildError>, sources: set<string>)
    ensures fault.None? <==> EachEdgeOk(edges, names)
    ensures fault.Some? ==> IsEdgeFault(edges, names, fault.value) && !fault.value.NodeWithoutEdge?
    ensures fault.None? ==> KeysOf(edges, SourceOf, sources)
  {
    var edgeNames: set<string> := {};
    sources := {};
    for i := 0 to |edges|
      invariant EachEdgeOk(edges[..i], names)
      invariant KeysOf(edges[..i], EdgeNameOf, edgeNames) && KeysOf(edges[..i], SourceOf, sources)
    {
      fault := CheckNextEdge(edges[..i], edges[i], names, edgeNames, sources);
      assert edges[..i + 1] == edges[..i] + [edges[i]];
      if fault.Some? {
        FaultOfAPart(edges, i + 1, names, fault.value);
        if EachEdgeOk(edges, names) { GoodPrefix(edges, i + 1, names); }
        return;
      }
      edgeNames, sources := edgeNames + {edges[i].name}, sources + {edges[i].source};
    }
    assert edges[..|edges|] == edges;
    fault := None;
  }

  lemma GoodPrefix(edges: seq<EdgeMeta>, i: nat, names: set<string>)
    requires i <= |edges| && EachEdgeOk(edges, names)
    ensures EachEdgeOk(edges[..i], names)
  {
    DistinctByPrefix(edges, i, EdgeNameOf);
    DistinctByPrefix(edges, i, SourceOf);
  }

  lemma SourcesHaveEdges(edges: seq<EdgeMeta>, sources: set<string>)
    requires KeysOf(edges, SourceOf, sources)
    ensures forall name :: name in sources <==> HasEdge(edges, name)
  {
    forall name ensures HasKey(edges, SourceOf, name) <==> HasEdge(edges, name) {
      if HasEdge(edges, name) {
        var edge :| edge in edges && edge.source == name;
        assert SourceOf(edge) == name;
      }
    }
  }

  method CheckEdges(nodes: seq<NodeMeta>, edges: seq<EdgeMeta>, names: set<string>) returns (fault: Option<BuildError>)
    requires names == NameSet(nodes)
    ensures fault.None? <==> EdgesOk(edges, names)
    ensures fault.Some? ==> IsEdgeFault(edges, names, fault.value)
  {
    var sources;
    fault, sources := CheckEachEdge(edges, names);
    if fault.None? {
      SourcesHaveEdges(edges, sources);
      fault := FirstWithoutEdge(nodes, sources);
    }
  }

  method FirstWithoutEdge(nodes: seq<NodeMeta>, sources: set<string>) returns (fault: Option<BuildError>)
    ensures fault.None? <==> forall name :: name in NameSet(nodes) ==> name in sources
    ensures fault.Some? ==>
              fault.value.NodeWithoutEdge? && fault.value.name in NameSet(nodes) && fault.value.name !in sources
  {
    for i := 0 to |nodes|
      invariant forall k :: 0 <= k < i ==> nodes[k].name in sources
    {
      if nodes[i].name !in sources {
        assert nodes[i] in nodes && nodes[i].name in NameSet(nodes);
        return Some(NodeWithoutEdge(nodes[i].name));
      }
    }
    fault := None;
  }

  lemma WellNamedIsGrounded(shape: Shape)
    requires WellNamed(shape)
    ensures Grounded(shape, NodeNames(shape.nodes))
  {
    var names := NodeNames(shape.nodes);
    forall name | name in NameSet(shape.nodes) ensures name in names {
      var i :| 0 <= i < |shape.nodes| && shape.nodes[i].name == name;
      assert names[i] == name;
    }
    forall i, j | 0 <= i < j < |names| ensures names[i] != names[j] {
      assert NameOf(shape.nodes[i]) != NameOf(shape.nodes[j]);
    }
    forall edge, target | edge in shape.edges && target in edge.targets && target.Node?
      ensures target.name in names
    {
      assert EdgeOk(edge, NameSet(shape.nodes));
    }
  }

  /** The rules in the order of the build; it accepts exactly the acceptable shapes. */
  method Validate(shape: Shape) returns (fault: Option<BuildError>)
    ensures fault.None? <==> Acceptable(shape)
    ensures fault.Some? ==> IsFault(shape, fault.value)
  {
    if !IsVersion(shape.version) { return Some(InvalidVersion(shape.version)); }
    var names;
    fault, names := CheckNodes(shape.nodes);
    if fault.Some? { return; }
    fault := CheckEntries(shape.entries, names);
    if fault.Some? { return; }
    fault := CheckEdges(shape.nodes, shape.edges, names);
    if fault.Some? { return; }
    WellNamedIsGrounded(shape);
    fault := CheckReach(shape);
    assert forall i :: 0 <= i < |shape.nodes| ==> shape.nodes[i] in shape.nodes;
  }

  // ----- the canonical form -----

  function Itself(name: string): string { name }

  /** Entries, nodes and edges in the order of their names; the targets of an edge keep theirs. */
  function Canonical(shape: Shape): (r: Shape) {
    Shape(shape.version, SortBy(shape.entries, Itself, TextLe), SortBy(shape.nodes, NameOf, TextLe),
          SortBy(shape.edges, EdgeNameOf, TextLe))
  }

  ghost predicate SameUpToOrder(a: Shape, b: Shape) {
    a.version == b.version && multiset(a.entries) == multiset(b.entries)
    && multiset(a.nodes) == multiset(b.nodes) && multiset(a.edges) == multiset(b.edges)
  }

  /** The canonical form has the same parts, each kind in the order of its names. */
  lemma CanonicalReorders(shape: Shape)
    ensures SameUpToOrder(shape, Canonical(shape))
    ensures var r := Canonical(shape);
            && (forall i, j :: 0 <= i < j < |r.entries| ==> TextLe(r.entries[i], r.entries[j]))
            && (forall i, j :: 0 <= i < j < |r.nodes| ==> TextLe(r.nodes[i].name, r.nodes[j].name))
            && (forall i, j :: 0 <= i < j < |r.edges| ==> TextLe(r.edges[i].name, r.edges[j].name))
  {
    TextLeIsOrder();
    SortBySorts(shape.entries, Itself, TextLe);
    SortBySorts(shape.nodes, NameOf, TextLe);
    SortBySorts(shape.edges, EdgeNameOf, TextLe);
  }

  lemma LeadsIsOrderBlind(a: seq<EdgeMeta>, b: seq<EdgeMeta>)
    requires multiset(a) == multiset(b)
    ensures forall from, to :: Leads(a, from, to) <==> Leads(b, from, to)
  {
    SameMembers(a, b);
    forall from, to ensures Leads(a, from, to) <==> Leads(b, from, to) {
    }
  }

  lemma ReachIsOrderBlind(a: Shape, b: Shape, name: string)
    requires SameUpToOrder(a, b)
    ensures FromEntry(a, name) ==> FromEntry(b, name)
    ensures ToEnd(a, name) ==> ToEnd(b, name)
  {
    LeadsIsOrderBlind(a.edges, b.edges);
    SameMembers(a.entries, b.entries);
    if FromEntry(a, name) {
      var walk :| IsWalk(a.edges, walk) && walk[0] in a.entries && walk[|walk| - 1] == name;
      assert IsWalk(b.edges, walk) && walk[0] in b.entries;
    }
    if ToEnd(a, name) {
      var walk :| IsWalk(a.edges, walk) && walk[0] == name && Leads(a.edges, walk[|walk| - 1], End);
      assert IsWalk(b.edges, walk) && Leads(b.edges, walk[|walk| - 1], End);
    }
  }

  lemma NamingIsOrderBlind(a: Shape, b: Shape)
    requires SameUpToOrder(a, b) && WellNamed(a)
    ensures WellNamed(b)
  {
    SameMembers(a.entries, b.entries);
    SameMembers(a.nodes, b.nodes);
    SameMembers(a.edges, b.edges);
    assert NameSet(a.nodes) == NameSet(b.nodes);
    DistinctIsOrderBlind(a.entries);
    DistinctIsOrderBlind(b.entries);
    DistinctByIsOrderBlind(a.nodes, NameOf);
    DistinctByIsOrderBlind(b.nodes, NameOf);
    DistinctByIsOrderBlind(a.edges, EdgeNameOf);
    DistinctByIsOrderBlind(b.edges, EdgeNameOf);
    DistinctByIsOrderBlind(a.edges, SourceOf);
    DistinctByIsOrderBlind(b.edges, SourceOf);
  }

  /** Acceptance, and the structure an accepted shape becomes, do not depend on the order of its parts. */
  lemma AcceptanceIsOrderBlind(a: Shape, b: Shape)
    requires SameUpToOrder(a, b)
    ensures Acceptable(a) <==> Acceptable(b)
    ensures Acceptable(a) ==> Canonical(a) == Canonical(b)
  {
    if Acceptable(a) { AcceptableReordered(a, b); }
    if Acceptable(b) { AcceptableReordered(b, a); }
    if Acceptable(a) {
      DistinctByIsOrderBlind(a.nodes, NameOf);
      DistinctByIsOrderBlind(a.edges, EdgeNameOf);
      TextLeIsOrder();
      SortIsOrderBlind(a.entries, b.entries, Itself, TextLe);
      SortIsOrderBlind(a.nodes, b.nodes, NameOf, TextLe);
      SortIsOrderBlind(a.edges, b.edges, EdgeNameOf, TextLe);
    }
  }

  lemma AcceptableReordered(a: Shape, b: Shape)
    requires SameUpToOrder(a, b) && Acceptable(a)
    ensures Acceptable(b)
  {
    NamingIsOrderBlind(a, b);
    SameMembers(a.nodes, b.nodes);
    forall node | node in b.nodes ensures FromEntry(b, node.name) && ToEnd(b, node.name) {
      assert node in a.nodes;
      ReachIsOrderBlind(a, b, node.name);
    }
  }

  /** Sorts, then validates: a shape becomes a structure exactly when it is acceptable as given. */
  method FromShape(shape: Shape) returns (r: Result<Shape, BuildError>)
    ensures r.Ok? <==> Acceptable(shape)
    ensures r.Ok? ==> r.value == Canonical(shape) && Acceptable(r.value)
    ensures r.Err? ==> IsFault(Canonical(shape), r.error)
  {
    var sorted := Canonical(shape);
    CanonicalReorders(shape);
    AcceptanceIsOrderBlind(shape, sorted);
    var fault := Validate(sorted);
    r := if fault.Some? then Err(fault.value) else Ok(sorted);
  }
}
