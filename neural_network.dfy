/** The neural-network visualiser: a layered network of 4 input, 6-8-6 hidden
    and 3 output nodes built by nested loops, every node connected to every
    node of the next layer, and a 100 ms training tick that redraws node
    values, jitters weights, raises the accuracy towards a 99.9 cap and
    counts epochs. Node ids `input-i`, `hidden-l-i`, `output-i` are modelled
    as the constructors of `NodeId`. */
module NeuralNetwork {
  import opened Common

  datatype NodeId = Input(i: nat) | Hidden(hl: nat, i: nat) | Output(i: nat)

  /** The layer a node id belongs to: 0 for inputs, 1..3 for the hidden
      layers, 4 for outputs. */
  function LayerOf(id: NodeId): nat {
    match id
    case Input(_) => 0
    case Hidden(l, _) => l + 1
    case Output(_) => 4
  }

  datatype Node = Node(id: NodeId, x: real, y: real, layer: nat, value: real, isActive: bool)

  datatype Connection = Connection(from: NodeId, to: NodeId, weight: real, isActive: bool)

  const HiddenSizes: seq<nat> := [6, 8, 6]
  const NodeCount: nat := 27
  const ConnectionCount: nat := 138

  /** The figures the statistics card prints. */
  const NodesLabel: nat := 27
  const ConnectionsLabel: nat := 164

  /** Where a node is drawn. */
  function XOf(id: NodeId): real {
    match id
    case Input(_) => 60.0
    case Hidden(l, _) => 170.0 + l as real * 110.0
    case Output(_) => 500.0
  }

  function YOf(id: NodeId): real {
    match id
    case Input(i) => 100.0 + i as real * 60.0
    case Hidden(_, i) => 80.0 + i as real * 40.0
    case Output(i) => 120.0 + i as real * 60.0
  }

  /** A freshly built node: drawn at its place, in its layer, inactive. */
  function NewNode(id: NodeId, value: real): Node {
    Node(id, XOf(id), YOf(id), LayerOf(id), value, false)
  }

  /** Index of the first node of hidden layer l in the node list. */
  function HiddenStart(l: nat): nat
    requires l <= 3
  {
    if l == 0 then 4 else HiddenStart(l - 1) + HiddenSizes[l - 1]
  }

  /** The id at position k of the node list: inputs, hidden layers, outputs. */
  function SlotId(k: nat): NodeId
    requires k < NodeCount
  {
    if k < 4 then Input(k)
    else if k < 10 then Hidden(0, k - 4)
    else if k < 18 then Hidden(1, k - 10)
    else if k < 24 then Hidden(2, k - 18)
    else Output(k - 24)
  }

  /** The node list the construction loops build, one value draw per node. */
  function PlannedNodes(values: seq<real>): seq<Node>
    requires |values| == NodeCount
  {
    seq(NodeCount, k requires 0 <= k < NodeCount => NewNode(SlotId(k), values[k]))
  }

  predicate WellLayered(nodes: seq<Node>) {
    forall t :: 0 <= t < |nodes| ==> nodes[t].layer == LayerOf(nodes[t].id)
  }

  /** The built nodes: 27 of them with distinct ids, each in its own id's
      layer, inactive, with a value in [0, 1). */
  lemma PlannedNodesShape(values: seq<real>)
    requires |values| == NodeCount && AllDraws(values)
    ensures |PlannedNodes(values)| == NodesLabel
    ensures WellLayered(PlannedNodes(values))
    ensures forall a, b :: 0 <= a < b < NodeCount ==> PlannedNodes(values)[a].id != PlannedNodes(values)[b].id
    ensures forall t :: 0 <= t < NodeCount ==>
      IsDraw(PlannedNodes(values)[t].value) && !PlannedNodes(values)[t].isActive
  {
  }

  lemma HiddenStarts()
    ensures HiddenStart(0) == 4 && HiddenStart(1) == 10 && HiddenStart(2) == 18 && HiddenStart(3) == 24
  {
  }

  lemma SlotOfHidden(l: nat, j: nat)
    requires l < 3 && j < HiddenSizes[l]
    ensures HiddenStart(l) + j < NodeCount
    ensures SlotId(HiddenStart(l) + j) == Hidden(l, j)
  {
  }

  function Layers(nodes: seq<Node>): seq<nat> {
    seq(|nodes|, t requires 0 <= t < |nodes| => nodes[t].layer)
  }

  function Rep(v: nat, n: nat): seq<nat> {
    seq(n, _ => v)
  }

  /** The layer numbers of the built nodes, block by block. */
  function LayerPlan(): seq<nat> {
    Rep(0, 4) + Rep(1, 6) + Rep(2, 8) + Rep(3, 6) + Rep(4, 3)
  }

  lemma PlannedLayers(values: seq<real>)
    requires |values| == NodeCount
    ensures Layers(PlannedNodes(values)) == LayerPlan()
  {
    var ls := Layers(PlannedNodes(values));
    var plan := LayerPlan();
    assert |ls| == |plan|;
    forall k | 0 <= k < NodeCount
      ensures ls[k] == plan[k]
    {
      if k < 4 {
      } else if k < 10 {
      } else if k < 18 {
      } else if k < 24 {
      } else {
      }
    }
  }

  /** Number of entries equal to l. */
  function CountLayer(ls: seq<nat>, l: nat): nat {
    if ls == [] then 0 else CountLayer(ls[..|ls| - 1], l) + (if ls[|ls| - 1] == l then 1 else 0)
  }

  lemma {:induction false} CountLayerAppend(a: seq<nat>, b: seq<nat>, l: nat)
    ensures CountLayer(a + b, l) == CountLayer(a, l) + CountLayer(b, l)
    decreases |b|
  {
    if b == [] {
      assert a + b == a;
    } else {
      assert (a + b)[..|a + b| - 1] == a + b[..|b| - 1];
      CountLayerAppend(a, b[..|b| - 1], l);
    }
  }

  lemma {:induction false} CountLayerRep(v: nat, n: nat, l: nat)
    ensures CountLayer(Rep(v, n), l) == if v == l then n else 0
    decreases n
  {
    if n > 0 {
      assert Rep(v, n)[..n - 1] == Rep(v, n - 1);
      CountLayerRep(v, n - 1, l);
    }
  }

  /** How many nodes each layer holds. */
  lemma PlanCounts(l: nat)
    ensures CountLayer(LayerPlan(), l) ==
      if l == 0 then 4 else if l == 1 then 6 else if l == 2 then 8
      else if l == 3 then 6 else if l == 4 then 3 else 0
  {
    CountLayerAppend(Rep(0, 4) + Rep(1, 6) + Rep(2, 8) + Rep(3, 6), Rep(4, 3), l);
    CountLayerAppend(Rep(0, 4) + Rep(1, 6) + Rep(2, 8), Rep(3, 6), l);
    CountLayerAppend(Rep(0, 4) + Rep(1, 6), Rep(2, 8), l);
    CountLayerAppend(Rep(0, 4), Rep(1, 6), l);
    CountLayerRep(0, 4, l);
    CountLayerRep(1, 6, l);
    CountLayerRep(2, 8, l);
    CountLayerRep(3, 6, l);
    CountLayerRep(4, 3, l);
  }

  /** The number of next-layer partners of the layers in `part`, counted in `all`. */
  function FanOut(part: seq<nat>, all: seq<nat>): nat {
    if part == [] then 0
    else FanOut(part[..|part| - 1], all) + CountLayer(all, part[|part| - 1] + 1)
  }

  lemma {:induction false} FanOutAppend(a: seq<nat>, b: seq<nat>, all: seq<nat>)
    ensures FanOut(a + b, all) == FanOut(a, all) + FanOut(b, all)
    decreases |b|
  {
    if b == [] {
      assert a + b == a;
    } else {
      assert (a + b)[..|a + b| - 1] == a + b[..|b| - 1];
      FanOutAppend(a, b[..|b| - 1], all);
    }
  }

  lemma {:induction false} FanOutRep(v: nat, n: nat, all: seq<nat>)
    ensures FanOut(Rep(v, n), all) == n * CountLayer(all, v + 1)
    decreases n
  {
    if n > 0 {
      assert Rep(v, n)[..n - 1] == Rep(v, n - 1);
      FanOutRep(v, n - 1, all);
    }
  }

  /** 4*6 + 6*8 + 8*6 + 6*3 + 3*0 = 138. */
  lemma PlanFanOut()
    ensures FanOut(LayerPlan(), LayerPlan()) == ConnectionCount
  {
    var all := LayerPlan();
    FanOutAppend(Rep(0, 4) + Rep(1, 6) + Rep(2, 8) + Rep(3, 6), Rep(4, 3), all);
    FanOutAppend(Rep(0, 4) + Rep(1, 6) + Rep(2, 8), Rep(3, 6), all);
    FanOutAppend(Rep(0, 4) + Rep(1, 6), Rep(2, 8), all);
    FanOutAppend(Rep(0, 4), Rep(1, 6), all);
    FanOutRep(0, 4, all);
    FanOutRep(1, 6, all);
    FanOutRep(2, 8, all);
    FanOutRep(3, 6, all);
    FanOutRep(4, 3, all);
    PlanCounts(1);
    PlanCounts(2);
    PlanCounts(3);
    PlanCounts(4);
    PlanCounts(5);
  }

  /** The connections leaving `src`, in node order, to the first j nodes:
      the inner loop over `newNodes.filter(n => n.layer === src.layer + 1)`. */
  function Targets(nodes: seq<Node>, src: Node, j: nat): seq<(NodeId, NodeId)>
    requires j <= |nodes|
  {
    if j == 0 then []
    else
      var step := if nodes[j - 1].layer == src.layer + 1 then [(src.id, nodes[j - 1].id)] else [];
      Targets(nodes, src, j - 1) + step
  }

  /** The connections of the first k nodes, in the order they are pushed. */
  function Pairs(nodes: seq<Node>, k: nat): seq<(NodeId, NodeId)>
    requires k <= |nodes|
  {
    if k == 0 then [] else Pairs(nodes, k - 1) + Targets(nodes, nodes[k - 1], |nodes|)
  }

  lemma {:induction false} TargetsCount(nodes: seq<Node>, src: Node, j: nat)
    requires j <= |nodes|
    ensures |Targets(nodes, src, j)| == CountLayer(Layers(nodes)[..j], src.layer + 1)
    decreases j
  {
    if j > 0 {
      TargetsCount(nodes, src, j - 1);
      assert Layers(nodes)[..j][..j - 1] == Layers(nodes)[..j - 1];
    }
  }

  lemma {:induction false} PairsCount(nodes: seq<Node>, k: nat)
    requires k <= |nodes|
    ensures |Pairs(nodes, k)| == FanOut(Layers(nodes)[..k], Layers(nodes))
    decreases k
  {
    if k > 0 {
      var ls := Layers(nodes);
      PairsCount(nodes, k - 1);
      TargetsCount(nodes, nodes[k - 1], |nodes|);
      assert ls[..|nodes|] == ls;
      assert |Pairs(nodes, k)| == |Pairs(nodes, k - 1)| + |Targets(nodes, nodes[k - 1], |nodes|)|;
      var part := ls[..k];
      assert part[..|part| - 1] == ls[..k - 1];
      assert part[|part| - 1] == nodes[k - 1].layer;
      assert FanOut(part, ls) == FanOut(ls[..k - 1], ls) + CountLayer(ls, nodes[k - 1].layer + 1);
    }
  }

  lemma {:induction false} TargetsMonotone(nodes: seq<Node>, src: Node, j: nat, j2: nat)
    requires j <= j2 <= |nodes|
    ensures |Targets(nodes, src, j)| <= |Targets(nodes, src, j2)|
    decreases j2
  {
    if j < j2 {
      TargetsMonotone(nodes, src, j, j2 - 1);
    }
  }

  lemma {:induction false} PairsMonotone(nodes: seq<Node>, k: nat, k2: nat)
    requires k <= k2 <= |nodes|
    ensures |Pairs(nodes, k)| <= |Pairs(nodes, k2)|
    decreases k2
  {
    if k < k2 {
      PairsMonotone(nodes, k, k2 - 1);
    }
  }

  /** Room left for the connection about to be pushed. */
  lemma ConnectionBound(nodes: seq<Node>, k: nat, j: nat)
    requires k < |nodes| && j <= |nodes|
    ensures |Pairs(nodes, k)| + |Targets(nodes, nodes[k], j)| <= |Pairs(nodes, |nodes|)|
  {
    TargetsMonotone(nodes, nodes[k], j, |nodes|);
    PairsMonotone(nodes, k + 1, |nodes|);
  }

  /** The built network has 138 connections. */
  lemma PlannedConnectionCount(values: seq<real>)
    requires |values| == NodeCount
    ensures |Pairs(PlannedNodes(values), NodeCount)| == ConnectionCount
  {
    var nodes := PlannedNodes(values);
    PairsCount(nodes, NodeCount);
    PlannedLayers(values);
    assert Layers(nodes)[..NodeCount] == Layers(nodes);
    PlanFanOut();
  }

  /** Every connection leaves `src` and enters the next layer. */
  lemma {:induction false} TargetsSound(nodes: seq<Node>, src: Node, j: nat)
    requires j <= |nodes| && WellLayered(nodes)
    ensures forall c :: 0 <= c < |Targets(nodes, src, j)| ==>
      Targets(nodes, src, j)[c].0 == src.id &&
      LayerOf(Targets(nodes, src, j)[c].1) == src.layer + 1
    decreases j
  {
    if j > 0 {
      TargetsSound(nodes, src, j - 1);
    }
  }

  /** Every node of the next layer among the first j is a target. */
  lemma {:induction false} TargetsComplete(nodes: seq<Node>, src: Node, j: nat)
    requires j <= |nodes|
    ensures forall t :: 0 <= t < j && nodes[t].layer == src.layer + 1 ==>
      (src.id, nodes[t].id) in Targets(nodes, src, j)
    decreases j
  {
    if j > 0 {
      TargetsComplete(nodes, src, j - 1);
    }
  }

  /** Every connection of a well-layered node list goes from a node to a node
      of the next layer. */
  lemma {:induction false} ConnectionsAreLayered(nodes: seq<Node>, k: nat)
    requires k <= |nodes| && WellLayered(nodes)
    ensures forall c :: 0 <= c < |Pairs(nodes, k)| ==>
      LayerOf(Pairs(nodes, k)[c].1) == LayerOf(Pairs(nodes, k)[c].0) + 1
    decreases k
  {
    if k > 0 {
      ConnectionsAreLayered(nodes, k - 1);
      TargetsSound(nodes, nodes[k - 1], |nodes|);
    }
  }

  /** Every node among the first k is connected to every node of its next layer. */
  lemma FullyConnected(nodes: seq<Node>, k: nat)
    requires k <= |nodes|
    ensures forall a, b :: 0 <= a < k && 0 <= b < |nodes| && nodes[b].layer == nodes[a].layer + 1 ==>
      (nodes[a].id, nodes[b].id) in Pairs(nodes, k)
  {
    forall a, b | 0 <= a < k && 0 <= b < |nodes| && nodes[b].layer == nodes[a].layer + 1
      ensures (nodes[a].id, nodes[b].id) in Pairs(nodes, k)
    {
      var c := PairIndex(nodes, k, a, b);
    }
  }

  /** Where the connection from node `a` among the first k to node `b` of
      its next layer is pushed. */
  lemma {:induction false} PairIndex(nodes: seq<Node>, k: nat, a: nat, b: nat) returns (c: nat)
    requires a < k <= |nodes| && b < |nodes| && nodes[b].layer == nodes[a].layer + 1
    ensures c < |Pairs(nodes, k)| && Pairs(nodes, k)[c] == (nodes[a].id, nodes[b].id)
    decreases k
  {
    var front, last := Pairs(nodes, k - 1), Targets(nodes, nodes[k - 1], |nodes|);
    assert Pairs(nodes, k) == front + last;
    if a < k - 1 {
      c := PairIndex(nodes, k - 1, a, b);
    } else {
      var t := TargetIndex(nodes, nodes[a], |nodes|, b);
      c := |front| + t;
    }
  }

  /** Where node `b` of the next layer among the first j appears in the
      targets of `src`. */
  lemma {:induction false} TargetIndex(nodes: seq<Node>, src: Node, j: nat, b: nat) returns (t: nat)
    requires b < j <= |nodes| && nodes[b].layer == src.layer + 1
    ensures t < |Targets(nodes, src, j)| && Targets(nodes, src, j)[t] == (src.id, nodes[b].id)
    decreases j
  {
    if b < j - 1 {
      t := TargetIndex(nodes, src, j - 1, b);
    } else {
      t := |Targets(nodes, src, j - 1)|;
    }
  }

  /** The node loops of the mount effect: inputs, the hidden layers, then
      outputs, one value draw per node. */
  method BuildNodes(values: seq<real>) returns (nodes: seq<Node>)
    requires |values| == NodeCount
    ensures nodes == PlannedNodes(values)
  {
    nodes := [];
    var i := 0;
    while i < 4
      invariant 0 <= i <= 4 && |nodes| == i
      invariant forall t :: 0 <= t < |nodes| ==> nodes[t] == NewNode(SlotId(t), values[t])
    {
      nodes := nodes + [Node(Input(i), 60.0, 100.0 + i as real * 60.0, 0, values[|nodes|], false)];
      i := i + 1;
    }
    HiddenStarts();
    var layerIndex := 0;
    while layerIndex < 3
      invariant 0 <= layerIndex <= 3 && |nodes| == HiddenStart(layerIndex)
      invariant forall t :: 0 <= t < |nodes| ==> nodes[t] == NewNode(SlotId(t), values[t])
    {
      var size := HiddenSizes[layerIndex];
      var j := 0;
      while j < size
        invariant 0 <= j <= size && |nodes| == HiddenStart(layerIndex) + j
        invariant forall t :: 0 <= t < |nodes| ==> nodes[t] == NewNode(SlotId(t), values[t])
      {
        SlotOfHidden(layerIndex, j);
        nodes := nodes + [Node(Hidden(layerIndex, j), 170.0 + layerIndex as real * 110.0,
                               80.0 + j as real * 40.0, layerIndex + 1, values[|nodes|], false)];
        j := j + 1;
      }
      layerIndex := layerIndex + 1;
    }
    i := 0;
    while i < 3
      invariant 0 <= i <= 3 && |nodes| == 24 + i
      invariant forall t :: 0 <= t < |nodes| ==> nodes[t] == NewNode(SlotId(t), values[t])
    {
      nodes := nodes + [Node(Output(i), 500.0, 120.0 + i as real * 60.0, 4, values[|nodes|], false)];
      i := i + 1;
    }
  }

  /** The connection loops of the mount effect: for each node in order, each
      node of the next layer in order, one weight draw per connection. */
  method BuildConnections(nodes: seq<Node>, weights: seq<real>) returns (conns: seq<Connection>)
    requires |weights| == |Pairs(nodes, |nodes|)|
    ensures |conns| == |Pairs(nodes, |nodes|)|
    ensures forall c :: 0 <= c < |conns| ==>
      (conns[c].from, conns[c].to) == Pairs(nodes, |nodes|)[c] && !conns[c].isActive &&
      conns[c].weight == (weights[c] - 0.5) * 2.0
  {
    conns := [];
    var k := 0;
    while k < |nodes|
      invariant 0 <= k <= |nodes|
      invariant |conns| == |Pairs(nodes, k)| <= |weights|
      invariant forall c :: 0 <= c < |conns| ==>
        (conns[c].from, conns[c].to) == Pairs(nodes, k)[c] && !conns[c].isActive &&
        conns[c].weight == (weights[c] - 0.5) * 2.0
    {
      var node := nodes[k];
      var j := 0;
      while j < |nodes|
        invariant 0 <= j <= |nodes|
        invariant |conns| == |Pairs(nodes, k) + Targets(nodes, node, j)| <= |weights|
        invariant forall c :: 0 <= c < |conns| ==>
          (conns[c].from, conns[c].to) == (Pairs(nodes, k) + Targets(nodes, node, j))[c] &&
          !conns[c].isActive && conns[c].weight == (weights[c] - 0.5) * 2.0
      {
        if nodes[j].layer == node.layer + 1 {
          ConnectionBound(nodes, k, j + 1);
          assert Pairs(nodes, k) + Targets(nodes, node, j + 1) ==
            (Pairs(nodes, k) + Targets(nodes, node, j)) + [(node.id, nodes[j].id)];
          conns := conns + [Connection(node.id, nodes[j].id, (weights[|conns|] - 0.5) * 2.0, false)];
        } else {
          assert Targets(nodes, node, j + 1) == Targets(nodes, node, j);
        }
        j := j + 1;
      }
      assert Pairs(nodes, k + 1) == Pairs(nodes, k) + Targets(nodes, node, |nodes|);
      PairsMonotone(nodes, k + 1, |nodes|);
      k := k + 1;
    }
  }

  /** The mount effect: 27 nodes and their 138 connections, every weight in [-1, 1). */
  method BuildNetwork(values: seq<real>, weights: seq<real>) returns (nodes: seq<Node>, conns: seq<Connection>)
    requires |values| == NodeCount
    requires |weights| == ConnectionCount && AllDraws(weights)
    ensures nodes == PlannedNodes(values)
    ensures |conns| == |Pairs(nodes, |nodes|)| == ConnectionCount
    ensures forall c :: 0 <= c < |conns| ==>
      (conns[c].from, conns[c].to) == Pairs(nodes, |nodes|)[c] && !conns[c].isActive
    ensures forall c :: 0 <= c < |conns| ==> -1.0 <= conns[c].weight < 1.0
  {
    nodes := BuildNodes(values);
    PlannedConnectionCount(values);
    conns := BuildConnections(nodes, weights);
  }

  /** The statistics card's "27" matches the built network, but its "164"
      does not: the network has 138 connections. */
  lemma ConnectionsLabelMismatch(values: seq<real>)
    requires |values| == NodeCount
    ensures |PlannedNodes(values)| == NodesLabel
    ensures |Pairs(PlannedNodes(values), NodeCount)| == ConnectionCount != ConnectionsLabel
  {
    PlannedConnectionCount(values);
  }

  const LayerSizes: seq<nat> := [4, 6, 8, 6, 3]

  /** The connection figure a fully connected layered network should show:
      the sum of the products of adjacent layer sizes. */
  function ConnectionsFigure(sizes: seq<nat>): nat {
    if |sizes| < 2 then 0
    else ConnectionsFigure(sizes[..|sizes| - 1]) + sizes[|sizes| - 2] * sizes[|sizes| - 1]
  }

  /** The figure computed from the layer sizes is the number of connections
      the construction loops build. */
  lemma ConnectionsFigureMatches(values: seq<real>)
    requires |values| == NodeCount
    ensures ConnectionsFigure(LayerSizes) == |Pairs(PlannedNodes(values), NodeCount)|
  {
    PlannedConnectionCount(values);
    var s2: seq<nat> := [4, 6];
    var s3: seq<nat> := [4, 6, 8];
    var s4: seq<nat> := [4, 6, 8, 6];
    assert ConnectionsFigure(s2) == 24 by { assert s2[..1] == [4]; }
    assert ConnectionsFigure(s3) == 72 by { assert s3[..2] == s2; }
    assert ConnectionsFigure(s4) == 120 by { assert s4[..3] == s3; }
    assert LayerSizes[..4] == s4;
  }

  /** One node after a training tick: a new value, active when the second
      draw exceeds 0.7. */
  function TickNode(n: Node, rValue: real, rActive: real): Node {
    n.(value := rValue, isActive := rActive > 0.7)
  }

  function TickNodes(prev: seq<Node>, rValues: seq<real>, rActives: seq<real>): (next: seq<Node>)
    requires |rValues| == |prev| && |rActives| == |prev|
    requires AllDraws(rValues) && AllDraws(rActives)
    ensures |next| == |prev|
    ensures forall t :: 0 <= t < |next| ==>
      next[t] == prev[t].(value := next[t].value, isActive := next[t].isActive) &&
      IsDraw(next[t].value)
  {
    seq(|prev|, t requires 0 <= t < |prev| => TickNode(prev[t], rValues[t], rActives[t]))
  }

  /** One connection after a training tick: active when the first draw
      exceeds 0.8, weight moved by (draw - 0.5) * 0.1. */
  function TickConnection(c: Connection, rActive: real, rWeight: real): Connection {
    c.(isActive := rActive > 0.8, weight := c.weight + (rWeight - 0.5) * 0.1)
  }

  function TickConnections(prev: seq<Connection>, rActives: seq<real>, rWeights: seq<real>): (next: seq<Connection>)
    requires |rActives| == |prev| && |rWeights| == |prev|
    requires AllDraws(rActives) && AllDraws(rWeights)
    ensures |next| == |prev|
    ensures forall c :: 0 <= c < |next| ==>
      next[c] == prev[c].(weight := next[c].weight, isActive := next[c].isActive) &&
      -0.05 <= next[c].weight - prev[c].weight < 0.05
  {
    seq(|prev|, c requires 0 <= c < |prev| => TickConnection(prev[c], rActives[c], rWeights[c]))
  }

  /** `Math.min(99.9, accuracy + draw * 0.1)`. */
  function NextAccuracy(accuracy: real, r: real): (a: real)
    requires IsDraw(r)
    ensures a <= 99.9
    ensures accuracy <= 99.9 ==> accuracy <= a < accuracy + 0.1
  {
    Min(99.9, accuracy + r * 0.1)
  }

  /** Ticks in a row keep the accuracy rising towards, and never past, 99.9. */
  lemma {:induction false} AccuracyRuns(accuracy: real, rs: seq<real>)
    requires accuracy <= 99.9 && AllDraws(rs)
    ensures accuracy <= AccuracyAfter(accuracy, rs) <= 99.9
    decreases |rs|
  {
    if rs != [] {
      AccuracyRuns(accuracy, rs[..|rs| - 1]);
    }
  }

  function AccuracyAfter(accuracy: real, rs: seq<real>): real
    requires AllDraws(rs)
  {
    if rs == [] then accuracy else NextAccuracy(AccuracyAfter(accuracy, rs[..|rs| - 1]), rs[|rs| - 1])
  }

  /** The visualiser's state. */
  class Visualizer {
    var nodes: seq<Node>
    var connections: seq<Connection>
    var isTraining: bool
    var accuracy: real
    var epoch: int

    /** The accuracy never passes its cap. */
    ghost predicate Valid()
      reads this
    {
      accuracy <= 99.9
    }

    /** Mount: the seed figures and the built network. */
    constructor (values: seq<real>, weights: seq<real>)
      requires |values| == NodeCount && AllDraws(values)
      requires |weights| == ConnectionCount && AllDraws(weights)
      ensures Valid()
      ensures nodes == PlannedNodes(values)
      ensures |connections| == |Pairs(nodes, |nodes|)| == ConnectionCount
      ensures forall c :: 0 <= c < |connections| ==>
        (connections[c].from, connections[c].to) == Pairs(nodes, |nodes|)[c] &&
        !connections[c].isActive && -1.0 <= connections[c].weight < 1.0
      ensures !isTraining && accuracy == 94.7 && epoch == 1247
    {
      var n, c := BuildNetwork(values, weights);
      nodes := n;
      connections := c;
      isTraining := false;
      accuracy := 94.7;
      epoch := 1247;
    }

    /** startTraining; the 10-second timeout that clears the flag is `StopTraining`. */
    method StartTraining()
      modifies this
      ensures isTraining
      ensures nodes == old(nodes) && connections == old(connections)
      ensures accuracy == old(accuracy) && epoch == old(epoch)
    {
      isTraining := true;
    }

    method StopTraining()
      modifies this
      ensures !isTraining
      ensures nodes == old(nodes) && connections == old(connections)
      ensures accuracy == old(accuracy) && epoch == old(epoch)
    {
      isTraining := false;
    }

    /** The 100 ms interval callback: nothing happens unless training. */
    method TrainingTick(rValues: seq<real>, rNodeActives: seq<real>,
                        rConnActives: seq<real>, rWeights: seq<real>, rAccuracy: real)
      requires Valid()
      requires |rValues| == |nodes| && |rNodeActives| == |nodes|
      requires |rConnActives| == |connections| && |rWeights| == |connections|
      requires AllDraws(rValues) && AllDraws(rNodeActives)
      requires AllDraws(rConnActives) && AllDraws(rWeights) && IsDraw(rAccuracy)
      modifies this
      ensures Valid()
      ensures isTraining == old(isTraining)
      ensures !old(isTraining) ==>
        nodes == old(nodes) && connections == old(connections) &&
        accuracy == old(accuracy) && epoch == old(epoch)
      ensures old(isTraining) ==>
        nodes == TickNodes(old(nodes), rValues, rNodeActives) &&
        connections == TickConnections(old(connections), rConnActives, rWeights) &&
        accuracy == NextAccuracy(old(accuracy), rAccuracy) &&
        old(accuracy) <= accuracy &&
        epoch == old(epoch) + 1
    {
      if isTraining {
        nodes := TickNodes(nodes, rValues, rNodeActives);
        connections := TickConnections(connections, rConnActives, rWeights);
        accuracy := NextAccuracy(accuracy, rAccuracy);
        epoch := epoch + 1;
      }
    }
  }
}
