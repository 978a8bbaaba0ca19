/**
  Building a data-flow graph and sending data along its edges, as the program does it: nodes and
  queues are objects, and the outputs of a node hold the receiving nodes and their queues.
  The interleavings of workers are the subject of `DataFlow`.
 */
module Graphs {
  import opened Common

  type TypeId = int

  datatype Data = Data(ptr: nat, typ: TypeId)

  /** A typed input queue; `owner` and `typ` say whose it is. */
  class NodeQueue {
    ghost const owner: ExecNode
    ghost const typ: TypeId
    var items: seq<Data>

    constructor (ghost owner: ExecNode, ghost typ: TypeId)
      ensures this.owner == owner && this.typ == typ && items == []
    {
      this.owner, this.typ := owner, typ;
      items := [];
    }

    method Push(d: Data)
      modifies this
      ensures items == old(items) + [d]
    {
      items := items + [d];
    }

    method Pop() returns (r: Option<Data>)
      modifies this
      ensures r == None <==> old(items) == []
      ensures r == None ==> items == old(items)
      ensures r.Some? ==> old(items) == [r.value] + items
    {
      if items == [] {
        return None;
      }
      r := Some(items[0]);
      items := items[1..];
    }
  }

  /** The receivers of one output type, and their input queues of that type. */
  datatype Output = Output(nodes: set<ExecNode>, queues: set<NodeQueue>)

  class ExecNode {
    const isState: bool
    const group: nat
    const maxThreadCount: nat
    var inputs: map<TypeId, NodeQueue>
    var outputs: map<TypeId, Output>
    var sink: bool

    ghost predicate Valid()
      reads this
    {
      forall t :: t in inputs ==> inputs[t].owner == this && inputs[t].typ == t
    }

    /** `make_exec_base`: an empty queue for each input type, no receivers yet. */
    constructor (isState: bool, inputTypes: set<TypeId>, outputTypes: set<TypeId>, group: nat, maxThreadCount: nat)
      ensures Valid() && inputs.Keys == inputTypes && outputs == (map t | t in outputTypes :: Output({}, {})) && !sink
      ensures this.isState == isState && this.group == group && this.maxThreadCount == maxThreadCount
      ensures forall t :: t in inputs ==> fresh(inputs[t]) && inputs[t].items == []
    {
      this.isState, this.group, this.maxThreadCount := isState, group, maxThreadCount;
      inputs, sink := map[], false;
      outputs := map t | t in outputTypes :: Output({}, {});
      new;
      var rest := inputTypes;
      while rest != {}
        invariant rest <= inputTypes && inputs.Keys == inputTypes - rest && Valid()
        invariant forall t :: t in inputs ==> fresh(inputs[t]) && inputs[t].items == []
        invariant outputs == (map t | t in outputTypes :: Output({}, {})) && !sink
        modifies this`inputs
      {
        ghost var some := Any(rest);
        var t :| t in rest;
        var q := new NodeQueue(this, t);
        inputs := inputs[t := q];
        rest := rest - {t};
      }
    }
  }

  /** One receiver more, with its queue; sets ignore what they already have. */
  function Joined(o: Output, receiver: ExecNode, t: TypeId): Output
    reads receiver`inputs
    requires t in receiver.inputs
  {
    Output(o.nodes + {receiver}, o.queues + {receiver.inputs[t]})
  }

  /** Edges of several types between two nodes. */
  ghost function Drawn(sender: ExecNode, receiver: ExecNode, types: set<TypeId>): set<(ExecNode, TypeId, ExecNode)> {
    set t | t in types :: (sender, t, receiver)
  }

  lemma DrawnGrows(sender: ExecNode, receiver: ExecNode, a: set<TypeId>, b: set<TypeId>, t: TypeId, more: bool)
    requires b == if more then a + {t} else a
    ensures Drawn(sender, receiver, b) ==
            Drawn(sender, receiver, a) + if more then {(sender, t, receiver)} else {}
  {
  }

  lemma DrawnNone(sender: ExecNode, receiver: ExecNode)
    ensures Drawn(sender, receiver, {}) == {}
  {
  }

  class Graph {
    var nodes: set<ExecNode>
    var inputs: map<TypeId, set<ExecNode>>
    var outputs: map<TypeId, set<ExecNode>>
    var results: seq<Data>
    ghost var edges: set<(ExecNode, TypeId, ExecNode)>   // history: the edges drawn, by sender, type and receiver

    /** The input queues of type `t` of some nodes. */
    ghost function InputQueues(ns: set<ExecNode>, t: TypeId): set<NodeQueue>
      reads ns`inputs
      requires forall m :: m in ns ==> t in m.inputs
    {
      set m | m in ns :: m.inputs[t]
    }

    /** The receivers take the type, and the queues listed are exactly their queues. */
    ghost predicate Wired(o: Output, t: TypeId)
      reads this`nodes, nodes`inputs
    {
      && o.nodes <= nodes && (forall m :: m in o.nodes ==> t in m.inputs)
      && o.queues == InputQueues(o.nodes, t)
    }

    ghost predicate Valid()
      reads this, nodes
    {
      && (forall n :: n in nodes ==> n.Valid())
      && (forall n, t :: n in nodes && t in n.outputs ==> Wired(n.outputs[t], t))
      && (forall n, t, m :: n in nodes && t in n.outputs && m in nodes ==>
            (m in n.outputs[t].nodes <==> (n, t, m) in edges))
      && (forall e :: e in edges ==> e.0 in nodes && e.1 in e.0.outputs && e.2 in nodes)
      && (forall t :: t in inputs ==> inputs[t] <= nodes && forall m :: m in inputs[t] ==> t in m.inputs)
    }

    lemma JoinedIsWired(o: Output, receiver: ExecNode, t: TypeId)
      requires Wired(o, t) && receiver in nodes && t in receiver.inputs
      ensures Wired(Joined(o, receiver, t), t)
    {
    }

    /** All input queues of the graph. */
    ghost function Queues(): set<NodeQueue>
      reads this, nodes
    {
      set m, t | m in nodes && t in m.inputs :: m.inputs[t]
    }

    /** `tu_graph_create`. */
    constructor (inputTypes: set<TypeId>, outputTypes: set<TypeId>)
      ensures Valid() && nodes == {} && inputs.Keys == inputTypes && outputs.Keys == outputTypes && results == []
      ensures edges == {}
    {
      nodes, edges := {}, {};
      inputs := map t | t in inputTypes :: {};
      outputs := map t | t in outputTypes :: {};
      results := [];
    }

    /** `tu_task` and `tu_state`: a state admits one worker. */
    method AddNode(isState: bool, inputTypes: set<TypeId>, outputTypes: set<TypeId>, group: nat, maxThreadCount: nat)
      returns (node: ExecNode)
      requires Valid() && (isState ==> maxThreadCount == 1)
      modifies this`nodes
      ensures Valid() && fresh(node) && nodes == old(nodes) + {node}
      ensures node.inputs.Keys == inputTypes && node.outputs.Keys == outputTypes
      ensures forall t :: t in node.outputs ==> node.outputs[t] == Output({}, {})
      ensures node.isState == isState && node.group == group && node.maxThreadCount == maxThreadCount && !node.sink
    {
      node := new ExecNode(isState, inputTypes, outputTypes, group, maxThreadCount);
      nodes := nodes + {node};
    }

    /**
      `tu_edge`: fails, changing nothing, unless the sender has the output and the receiver the input;
      else the output has one receiver more, with its queue, and the other outputs are as before.
     */
    method Edge(sender: ExecNode, receiver: ExecNode, typ: TypeId) returns (ok: bool)
      requires Valid() && sender in nodes && receiver in nodes
      modifies sender`outputs, this`edges
      ensures Valid()
      ensures ok <==> typ in old(sender.outputs) && typ in receiver.inputs
      ensures !ok ==> sender.outputs == old(sender.outputs) && edges == old(edges)
      ensures ok ==> edges == old(edges) + {(sender, typ, receiver)}
      ensures sender.outputs.Keys == old(sender.outputs).Keys
      ensures forall t :: t in sender.outputs && t != typ ==> sender.outputs[t] == old(sender.outputs)[t]
      ensures ok ==> sender.outputs[typ].nodes == old(sender.outputs)[typ].nodes + {receiver}
      ensures ok ==> sender.outputs[typ].queues == old(sender.outputs)[typ].queues + {receiver.inputs[typ]}
    {
      if typ !in sender.outputs || typ !in receiver.inputs {
        return false;
      }
      JoinedIsWired(sender.outputs[typ], receiver, typ);
      sender.outputs := sender.outputs[typ := Joined(sender.outputs[typ], receiver, typ)];
      edges := edges + {(sender, typ, receiver)};
      hide Wired;
      return true;
    }

    /** `tu_edges`: an edge for every type the sender puts out and the receiver takes, and for no other. */
    method Edges(sender: ExecNode, receiver: ExecNode)
      requires Valid() && sender in nodes && receiver in nodes
      modifies sender`outputs, this`edges
      ensures Valid() && sender.outputs.Keys == old(sender.outputs).Keys
      ensures edges == old(edges) + Drawn(sender, receiver, sender.outputs.Keys * receiver.inputs.Keys)
      ensures forall t :: t in sender.outputs && t !in receiver.inputs ==> sender.outputs[t] == old(sender.outputs)[t]
      ensures forall t :: t in sender.outputs && t in receiver.inputs ==>
        && sender.outputs[t].nodes == old(sender.outputs)[t].nodes + {receiver}
        && sender.outputs[t].queues == old(sender.outputs)[t].queues + {receiver.inputs[t]}
    {
      hide Valid, Drawn;
      DrawnNone(sender, receiver);
      var rest := receiver.inputs.Keys;
      assert sender.outputs.Keys * (receiver.inputs.Keys - rest) == {};
      while rest != {}
        invariant Valid() && rest <= receiver.inputs.Keys && sender.outputs.Keys == old(sender.outputs).Keys
        invariant edges == old(edges) + Drawn(sender, receiver, sender.outputs.Keys * (receiver.inputs.Keys - rest))
        invariant forall t :: t in sender.outputs && (t in rest || t !in receiver.inputs) ==>
          sender.outputs[t] == old(sender.outputs)[t]
        invariant forall t :: t in sender.outputs && t in receiver.inputs && t !in rest ==>
          && sender.outputs[t].nodes == old(sender.outputs)[t].nodes + {receiver}
          && sender.outputs[t].queues == old(sender.outputs)[t].queues + {receiver.inputs[t]}
      {
        ghost var some := Any(rest);
        var t :| t in rest;
        DrawnGrows(sender, receiver, sender.outputs.Keys * (receiver.inputs.Keys - rest),
                   sender.outputs.Keys * (receiver.inputs.Keys - (rest - {t})), t, t in sender.outputs);
        var _ := Edge(sender, receiver, t);
        rest := rest - {t};
      }
      assert sender.outputs.Keys * (receiver.inputs.Keys - rest) == sender.outputs.Keys * receiver.inputs.Keys;
    }

    /** `tu_add_input`. */
    method AddInput(node: ExecNode, typ: TypeId) returns (ok: bool)
      requires Valid() && node in nodes
      modifies this`inputs
      ensures Valid()
      ensures ok <==> typ in node.inputs && typ in old(inputs)
      ensures inputs == if ok then old(inputs)[typ := old(inputs)[typ] + {node}] else old(inputs)
    {
      if typ !in node.inputs || typ !in inputs {
        return false;
      }
      inputs := inputs[typ := inputs[typ] + {node}];
      return true;
    }

    /**
      `tu_add_output`: a type the graph does not put out is an error, one the node does not put out
      only a warning.  Once the node has the sink, its results of every output type go there.
     */
    method AddOutput(node: ExecNode, typ: TypeId) returns (ok: bool)
      requires Valid() && node in nodes
      modifies this`outputs, node`sink
      ensures Valid()
      ensures ok <==> typ in old(outputs)
      ensures node.sink <==> old(node.sink) || (ok && typ in node.outputs)
      ensures outputs == if ok && typ in node.outputs then old(outputs)[typ := old(outputs)[typ] + {node}]
                         else old(outputs)
    {
      if typ !in outputs {
        return false;
      }
      if typ !in node.outputs {
        return true;
      }
      outputs := outputs[typ := outputs[typ] + {node}];
      node.sink := true;
      return true;
    }
  }

  /** A queue is the queue of one node and one type. */
  lemma QueueOfOne(g: Graph, ns: set<ExecNode>, typ: TypeId, m: ExecNode, t: TypeId)
    requires g.Valid() && ns <= g.nodes && (forall n :: n in ns ==> typ in n.inputs)
    requires m in g.nodes && t in m.inputs
    ensures m.inputs[t] in g.InputQueues(ns, typ) <==> m in ns && t == typ
  {
    assert m.Valid();
    if n :| n in ns && m.inputs[t] == n.inputs[typ] {
      assert n.Valid();
    }
  }

  /** The semaphore of a group of workers. */
  class Group {
    var permits: nat
  }

  /** How many of some nodes belong to group `g`. */
  function Members(ns: set<ExecNode>, g: nat): set<ExecNode> { set m | m in ns && m.group == g }

  class Dfg {
    const graph: Graph
    const groups: seq<Group>

    /** The graph is registered: every node's group exists. */
    ghost predicate Valid()
      reads this, graph, graph.nodes
    {
      && graph.Valid()
      && (forall i, j :: 0 <= i < j < |groups| ==> groups[i] != groups[j])
      && forall m :: m in graph.nodes ==> m.group < |groups|
    }

    constructor (graph: Graph, groups: seq<Group>)
      requires graph.Valid() && (forall i, j :: 0 <= i < j < |groups| ==> groups[i] != groups[j])
      requires forall m :: m in graph.nodes ==> m.group < |groups|
      ensures Valid() && this.graph == graph && this.groups == groups
    {
      this.graph, this.groups := graph, groups;
    }

    /** The data goes to the end of each of the queues, once. */
    method PushAll(queues: set<NodeQueue>, d: Data)
      modifies queues
      ensures forall q :: q in queues ==> q.items == old(q.items) + [d]
    {
      var rest := queues;
      while rest != {}
        invariant rest <= queues
        invariant forall q :: q in queues ==> q.items == if q in rest then old(q.items) else old(q.items) + [d]
      {
        var q :| q in rest;
        q.Push(d);
        rest := rest - {q};
      }
    }

    /** `tu_internal_node_notify_workers` for each receiver: one release of its group. */
    method NotifyAll(receivers: set<ExecNode>)
      requires Valid() && receivers <= graph.nodes
      modifies groups
      ensures forall g: nat :: g < |groups| ==> groups[g].permits == old(groups[g].permits) + |Members(receivers, g)|
    {
      var rest := receivers;
      while rest != {}
        invariant rest <= receivers
        invariant forall g: nat :: g < |groups| ==>
          groups[g].permits == old(groups[g].permits) + |Members(receivers - rest, g)|
      {
        var m: ExecNode :| m in rest;
        groups[m.group].permits := groups[m.group].permits + 1;
        MembersGrow(receivers, rest, m);
        rest := rest - {m};
      }
      assert receivers - rest == receivers;
    }

    /** Who receives results of type `typ` of a node: those to which an edge of that type was drawn from it. */
    ghost function Receivers(node: ExecNode, typ: TypeId): set<ExecNode>
      reads graph
    {
      set m | m in graph.nodes && (node, typ, m) in graph.edges
    }

    /**
      Pushing to the queues of some nodes and notifying them: one copy of the data for each of
      them, none for any other queue of the graph, and one release of its group for each.
     */
    method Send(receivers: set<ExecNode>, queues: set<NodeQueue>, d: Data)
      requires Valid() && receivers <= graph.nodes && (forall m :: m in receivers ==> d.typ in m.inputs)
      requires queues == graph.InputQueues(receivers, d.typ)
      modifies graph.Queues(), groups
      ensures Valid()
      ensures forall m, t :: m in graph.nodes && t in m.inputs ==>
        m.inputs[t].items == old(m.inputs[t].items) + if t == d.typ && m in receivers then [d] else []
      ensures forall g: nat :: g < |groups| ==> groups[g].permits == old(groups[g].permits) + |Members(receivers, g)|
    {
      assert queues <= graph.Queues();
      QueuesOfReceivers(receivers, d.typ);
      PushAll(queues, d);
      assert forall m, t :: m in graph.nodes && t in m.inputs ==>
        m.inputs[t].items == old(m.inputs[t].items) + if t == d.typ && m in receivers then [d] else [];
      NotifyAll(receivers);
    }

    /**
      `tu_result`: a null pointer (0) is refused.  Otherwise the data goes to the graph's results if
      the node has the sink and the graph puts the type out; each receiver of the type gets one
      copy, no other queue gets any, and each receiver's group is notified once.
     */
    method Result(node: ExecNode, ptr: nat, typ: TypeId)
      requires Valid() && node in graph.nodes
      modifies graph`results, graph.Queues(), groups
      ensures Valid()
      ensures graph.results == old(graph.results) +
        if ptr != 0 && node.sink && typ in graph.outputs then [Data(ptr, typ)] else []
      ensures forall m, t :: m in graph.nodes && t in m.inputs ==>
        m.inputs[t].items == old(m.inputs[t].items) +
          if ptr != 0 && t == typ && m in Receivers(node, typ) then [Data(ptr, typ)] else []
      ensures forall g: nat :: g < |groups| ==>
        groups[g].permits == old(groups[g].permits) + if ptr != 0 then |Members(Receivers(node, typ), g)| else 0
    {
      if ptr == 0 {
        return;
      }
      if node.sink && typ in graph.outputs {
        graph.results := graph.results + [Data(ptr, typ)];
      }
      if typ !in node.outputs {
        return;
      }
      assert node.outputs[typ].nodes == Receivers(node, typ);
      Send(node.outputs[typ].nodes, node.outputs[typ].queues, Data(ptr, typ));
    }

    /**
      `tu_dfg_push_data`: nothing for a type the graph does not take, one copy for each input node
      else.  The program notifies after each push; to one thread the order makes no difference.
     */
    method PushData(ptr: nat, typ: TypeId)
      requires Valid()
      modifies graph.Queues(), groups
      ensures Valid()
      ensures forall m, t :: m in graph.nodes && t in m.inputs ==>
        m.inputs[t].items == old(m.inputs[t].items) +
          if t == typ && typ in graph.inputs && m in graph.inputs[typ] then [Data(ptr, typ)] else []
      ensures forall g: nat :: g < |groups| ==>
        groups[g].permits == old(groups[g].permits) + if typ in graph.inputs then |Members(graph.inputs[typ], g)| else 0
    {
      if typ !in graph.inputs {
        return;
      }
      var receivers := graph.inputs[typ];
      Send(receivers, set m | m in receivers :: m.inputs[typ], Data(ptr, typ));
    }

    lemma QueuesOfReceivers(receivers: set<ExecNode>, typ: TypeId)
      requires Valid() && receivers <= graph.nodes && forall n :: n in receivers ==> typ in n.inputs
      ensures forall m, t :: m in graph.nodes && t in m.inputs ==>
        && m.inputs[t] in graph.Queues()
        && (m.inputs[t] in graph.InputQueues(receivers, typ) <==> t == typ && m in receivers)
    {
      forall m, t | m in graph.nodes && t in m.inputs
        ensures m.inputs[t] in graph.InputQueues(receivers, typ) <==> t == typ && m in receivers
      {
        QueueOfOne(graph, receivers, typ, m, t);
      }
    }

    lemma MembersGrow(all: set<ExecNode>, rest: set<ExecNode>, m: ExecNode)
      requires rest <= all && m in rest
      ensures forall g: nat ::
        |Members(all - (rest - {m}), g)| == |Members(all - rest, g)| + if m.group == g then 1 else 0
    {
      forall g: nat
        ensures |Members(all - (rest - {m}), g)| == |Members(all - rest, g)| + if m.group == g then 1 else 0
      {
        assert Members(all - (rest - {m}), g) == Members(all - rest, g) + if m.group == g then {m} else {};
      }
    }

    /** `tu_internal_node_dequeue`: the first datum of some non-empty input queue, if there is one. */
    method Dequeue(node: ExecNode) returns (r: Option<Data>)
      requires Valid() && node in graph.nodes
      modifies graph.Queues()
      ensures Valid()
      ensures r == None <==> forall t :: t in node.inputs ==> old(node.inputs[t].items) == []
      ensures r == None ==> forall q :: q in graph.Queues() ==> q.items == old(q.items)
      ensures r.Some? ==> exists t ::
        && t in node.inputs && old(node.inputs[t].items) == [r.value] + node.inputs[t].items
        && forall q :: q in graph.Queues() && q != node.inputs[t] ==> q.items == old(q.items)
    {
      var rest := node.inputs.Keys;
      while rest != {}
        invariant rest <= node.inputs.Keys
        invariant forall q :: q in graph.Queues() ==> q.items == old(q.items)
        invariant forall t :: t in node.inputs && t !in rest ==> old(node.inputs[t].items) == []
      {
        ghost var some := Any(rest);
        var t :| t in rest;
        assert node.inputs[t] in graph.Queues();
        r := node.inputs[t].Pop();
        if r.Some? {
          return;
        }
        rest := rest - {t};
      }
      r := None;
    }
  }
}
