/** The strict JSON test over a graph of objects that may share nodes and contain cycles.

    An object is a node of a finite graph; everything the test asks of an array or object other than its property
    values (own keys, prototype, symbol keys, property attributes) is recorded in the node. */
module JsonCheck {
  import opened Common

  const MAX_DEPTH := 512

  datatype Value =
    | Null
    | Text
    | Boolean
    | Number(finite: bool)
    | Unsupported
    | Reference(node: nat)

  /** An own property: accessors are not data. */
  datatype Property = Property(enumerable: bool, isData: bool, value: Value)

  /** An array lists one optional property per index; a hole has none. */
  datatype Node =
    | ArrayNode(elements: seq<Option<Property>>, ownKeys: nat, hasSymbolKey: bool)
    | ObjectNode(properties: seq<Property>, plainPrototype: bool, hasSymbolKey: bool)
  {
    function Slots(): seq<Option<Property>> {
      match this
      case ArrayNode(elements, _, _) => elements
      case ObjectNode(properties, _, _) => seq(|properties|, i requires 0 <= i < |properties| => Some(properties[i]))
    }

    /** Own keys of an array are its indices and `length`, nothing else; an object has a plain prototype. */
    predicate ShapeOk() {
      match this
      case ArrayNode(elements, ownKeys, hasSymbolKey) => ownKeys == |elements| + 1 && !hasSymbolKey
      case ObjectNode(_, plainPrototype, hasSymbolKey) => plainPrototype && !hasSymbolKey
    }
  }

  type Graph = map<nat, Node>

  predicate SlotOk(slot: Option<Property>) {
    slot.Some? && slot.value.enumerable && slot.value.isData
  }

  predicate LeafOk(value: Value) {
    match value
    case Null | Text | Boolean => true
    case Number(finite) => finite
    case Unsupported | Reference(_) => false
  }

  /** The test without its set of ancestors: only the depth limit stops it. */
  predicate DepthOnly(graph: Graph, value: Value, depth: nat)
    decreases MAX_DEPTH + 1 - depth
  {
    if depth > MAX_DEPTH then false
    else if !value.Reference? then LeafOk(value)
    else
      && value.node in graph
      && graph[value.node].ShapeOk()
      && var slots := graph[value.node].Slots();
         forall i | 0 <= i < |slots| :: SlotOk(slots[i]) && DepthOnly(graph, slots[i].value.value, depth + 1)
  }

  ghost predicate Child(graph: Graph, parent: nat, value: Value) {
    && parent in graph
    && exists i | 0 <= i < |graph[parent].Slots()| ::
         graph[parent].Slots()[i].Some? && graph[parent].Slots()[i].value.value == value
  }

  /** The nodes from the root down to the parent of `value`. */
  ghost predicate PathTo(graph: Graph, path: seq<nat>, value: Value) {
    && (forall i | 0 <= i < |path| - 1 :: Child(graph, path[i], Reference(path[i + 1])))
    && (path != [] ==> Child(graph, path[|path| - 1], value))
  }

  ghost predicate Cycle(graph: Graph, cycle: seq<nat>) {
    && cycle != []
    && forall i | 0 <= i < |cycle| :: Child(graph, cycle[i], Reference(cycle[if i + 1 == |cycle| then 0 else i + 1]))
  }

  /** A node on a cycle fails the depth-limited test at every depth: going round it outruns any limit. */
  lemma {:induction false} CycleFails(graph: Graph, cycle: seq<nat>, i: nat, depth: nat)
    requires Cycle(graph, cycle) && i < |cycle|
    ensures !DepthOnly(graph, Reference(cycle[i]), depth)
    decreases MAX_DEPTH + 1 - depth
  {
    if depth <= MAX_DEPTH {
      CycleFails(graph, cycle, if i + 1 == |cycle| then 0 else i + 1, depth + 1);
    }
  }

  /** A value that is its own ancestor is on a cycle. */
  lemma AncestorFails(graph: Graph, path: seq<nat>, node: nat, depth: nat)
    requires PathTo(graph, path, Reference(node)) && node in path
    ensures !DepthOnly(graph, Reference(node), depth)
  {
    var k :| 0 <= k < |path| && path[k] == node;
    var cycle := path[k..];
    forall i | 0 <= i < |cycle|
      ensures Child(graph, cycle[i], Reference(cycle[if i + 1 == |cycle| then 0 else i + 1]))
    {
      assert cycle[i] == path[k + i];
    }
    CycleFails(graph, cycle, 0, depth);
  }

  class Checker {
    const graph: Graph
    var ancestors: set<nat>

    constructor (graph: Graph)
      ensures this.graph == graph && ancestors == {}
    {
      this.graph, ancestors := graph, {};
    }

    method IsJsonValue(value: Value) returns (ok: bool)
      requires ancestors == {}
      modifies this`ancestors
      ensures ok == DepthOnly(graph, value, 0)
      ensures ancestors == {}
    {
      ok := Check(value, 0, []);
    }

    /** `path` is the way down to `value`; its nodes are the ancestors. The ancestor set is restored on every exit and
        changes no answer. */
    method Check(value: Value, depth: nat, ghost path: seq<nat>) returns (ok: bool)
      requires PathTo(graph, path, value) && |path| == depth && depth <= MAX_DEPTH + 1
      requires forall node :: node in ancestors <==> node in path
      modifies this`ancestors
      ensures ancestors == old(ancestors)
      ensures ok == DepthOnly(graph, value, depth)
      decreases MAX_DEPTH + 1 - depth
    {
      hide PathTo, Child;
      if depth > MAX_DEPTH {
        return false;
      }
      if !value.Reference? {
        return LeafOk(value);
      }
      if value.node !in graph || !graph[value.node].ShapeOk() {
        return false;
      }
      if value.node in ancestors {
        AncestorFails(graph, path, value.node, depth);
        return false;
      }
      ghost var before := ancestors;
      ancestors := ancestors + {value.node};
      ok := CheckSlots(value.node, depth, path);
      ancestors := ancestors - {value.node};
      assert ancestors == before;
    }

    /** The loop over the properties, left at the first one that fails. */
    method CheckSlots(node: nat, depth: nat, ghost path: seq<nat>) returns (ok: bool)
      requires node in graph && PathTo(graph, path, Reference(node)) && |path| == depth <= MAX_DEPTH
      requires forall n :: n in ancestors <==> n in path + [node]
      modifies this`ancestors
      ensures ancestors == old(ancestors)
      ensures var slots := graph[node].Slots();
              ok == forall i | 0 <= i < |slots| :: SlotOk(slots[i]) && DepthOnly(graph, slots[i].value.value, depth + 1)
      decreases MAX_DEPTH + 1 - depth, 0
    {
      var slots := graph[node].Slots();
      for i := 0 to |slots|
        invariant ancestors == old(ancestors)
        invariant forall j | 0 <= j < i :: SlotOk(slots[j]) && DepthOnly(graph, slots[j].value.value, depth + 1)
      {
        if !SlotOk(slots[i]) {
          return false;
        }
        assert Child(graph, node, slots[i].value.value);
        var good := Check(slots[i].value.value, depth + 1, path + [node]);
        if !good {
          return false;
        }
      }
      ok := true;
    }
  }

  // ---------------------------------------------------------------------------------------------------------------
  // What the test decides

  /** A walk down the graph from `value`. */
  ghost predicate Walk(graph: Graph, value: Value, walk: seq<Value>) {
    && walk != [] && walk[0] == value
    && forall i | 0 <= i < |walk| - 1 :: walk[i].Reference? && Child(graph, walk[i].node, walk[i + 1])
  }

  predicate IsPlain(property: Property) {
    property.enumerable && property.isData
  }

  ghost predicate NoHoles(elements: seq<Option<Property>>) {
    forall i | 0 <= i < |elements| :: elements[i].Some? && IsPlain(elements[i].value)
  }

  ghost predicate AllPlain(properties: seq<Property>) {
    forall i | 0 <= i < |properties| :: IsPlain(properties[i])
  }

  /** Everything asked of a value apart from its children: a number is finite; an array has no holes and no keys but its
      indices and its length; an object is plain, with string keys; and no property is an accessor or hidden from
      enumeration. */
  ghost predicate Acceptable(graph: Graph, value: Value) {
    match value
    case Null => true
    case Text => true
    case Boolean => true
    case Number(finite) => finite
    case Unsupported => false
    case Reference(node) =>
      && node in graph
      && match graph[node]
         case ArrayNode(elements, ownKeys, hasSymbolKey) =>
           ownKeys == |elements| + 1 && !hasSymbolKey && NoHoles(elements)
         case ObjectNode(properties, plainPrototype, hasSymbolKey) =>
           plainPrototype && !hasSymbolKey && AllPlain(properties)
  }

  /** What the code asks of a value, piece by piece, is this. */
  lemma AcceptsExactly(graph: Graph, value: Value)
    ensures Acceptable(graph, value) <==>
              if value.Reference? then
                && value.node in graph && graph[value.node].ShapeOk()
                && forall i | 0 <= i < |graph[value.node].Slots()| :: SlotOk(graph[value.node].Slots()[i])
              else LeafOk(value)
  {
    if value.Reference? && value.node in graph {
      SlotsOk(graph[value.node]);
      hide NoHoles, AllPlain, SlotOk, Node.Slots;
    }
  }

  lemma SlotsOk(node: Node)
    ensures node.ArrayNode? ==>
              (NoHoles(node.elements) <==> forall i | 0 <= i < |node.Slots()| :: SlotOk(node.Slots()[i]))
    ensures node.ObjectNode? ==>
              (AllPlain(node.properties) <==> forall i | 0 <= i < |node.Slots()| :: SlotOk(node.Slots()[i]))
  {
    if node.ObjectNode? {
      var slots := node.Slots();
      forall i | 0 <= i < |slots|
        ensures SlotOk(slots[i]) <==> IsPlain(node.properties[i])
      {
        assert slots[i] == Some(node.properties[i]);
      }
      if forall i | 0 <= i < |slots| :: SlotOk(slots[i]) {
        forall i | 0 <= i < |node.properties|
          ensures IsPlain(node.properties[i])
        {
          assert SlotOk(slots[i]);
        }
      }
    } else {
      ElementsOk(node.elements);
      assert node.Slots() == node.elements;
    }
  }

  lemma ElementsOk(elements: seq<Option<Property>>)
    ensures NoHoles(elements) <==> forall i | 0 <= i < |elements| :: SlotOk(elements[i])
  {
    if forall i | 0 <= i < |elements| :: SlotOk(elements[i]) {
      forall i | 0 <= i < |elements|
        ensures elements[i].Some? && IsPlain(elements[i].value)
      {
        assert SlotOk(elements[i]);
      }
    }
  }

  lemma {:induction false} OkWalks(graph: Graph, value: Value, depth: nat, walk: seq<Value>)
    requires DepthOnly(graph, value, depth) && Walk(graph, value, walk)
    ensures Acceptable(graph, walk[|walk| - 1]) && depth + |walk| - 1 <= MAX_DEPTH
    decreases |walk|
  {
    hide Acceptable;
    AcceptsExactly(graph, value);
    if |walk| > 1 {
      assert Child(graph, value.node, walk[1]);
      OkWalks(graph, walk[1], depth + 1, walk[1..]);
    }
  }

  lemma {:induction false} BadWalk(graph: Graph, value: Value, depth: nat) returns (walk: seq<Value>)
    requires !DepthOnly(graph, value, depth)
    ensures Walk(graph, value, walk)
    ensures !Acceptable(graph, walk[|walk| - 1]) || depth + |walk| - 1 > MAX_DEPTH
    decreases MAX_DEPTH + 1 - depth
  {
    hide Acceptable;
    AcceptsExactly(graph, value);
    walk := [value];
    if depth <= MAX_DEPTH && Acceptable(graph, value) {
      var slots := graph[value.node].Slots();
      var i :| 0 <= i < |slots| && !DepthOnly(graph, slots[i].value.value, depth + 1);
      var rest := BadWalk(graph, slots[i].value.value, depth + 1);
      walk := [value] + rest;
      assert Child(graph, value.node, rest[0]);
    }
  }

  /** The test answers true exactly when every value reachable from the root is acceptable and no walk takes more than
      512 steps; in particular exactly when, besides, there is no cycle. */
  lemma DecidesBoundedAcyclicJson(graph: Graph, root: Value)
    ensures DepthOnly(graph, root, 0)
            <==> forall walk | Walk(graph, root, walk) ::
                   Acceptable(graph, walk[|walk| - 1]) && |walk| - 1 <= MAX_DEPTH
  {
    if DepthOnly(graph, root, 0) {
      forall walk | Walk(graph, root, walk)
        ensures Acceptable(graph, walk[|walk| - 1]) && |walk| - 1 <= MAX_DEPTH
      {
        OkWalks(graph, root, 0, walk);
      }
    } else {
      var walk := BadWalk(graph, root, 0);
    }
  }

  /** A value from which a cycle can be reached is rejected, although the reference test knows only the depth limit. */
  lemma CyclicIsRejected(graph: Graph, root: Value, walk: seq<Value>, cycle: seq<nat>)
    requires Walk(graph, root, walk)
    requires Cycle(graph, cycle) && walk[|walk| - 1] == Reference(cycle[0])
    ensures !DepthOnly(graph, root, 0)
  {
    CycleFails(graph, cycle, 0, |walk| - 1);
    if DepthOnly(graph, root, 0) {
      ReachedAtDepth(graph, root, 0, walk);
    }
  }

  lemma {:induction false} ReachedAtDepth(graph: Graph, value: Value, depth: nat, walk: seq<Value>)
    requires DepthOnly(graph, value, depth) && Walk(graph, value, walk)
    ensures DepthOnly(graph, walk[|walk| - 1], depth + |walk| - 1)
    decreases |walk|
  {
    if |walk| > 1 {
      assert Child(graph, value.node, walk[1]);
      ReachedAtDepth(graph, walk[1], depth + 1, walk[1..]);
    }
  }
}
