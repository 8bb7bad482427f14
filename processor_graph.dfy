/**
 * The part of juce::AudioProcessorGraph that the plugin drives: a set of
 * nodes under fresh numeric ids and a set of connections between
 * (node, channel) endpoints. MIDI travels on the reserved channel index
 * MidiChannelIndex.
 */
module ProcessorGraph {
  import opened EffectNodes

  type NodeId = nat

  /** juce::AudioProcessorGraph::midiChannelIndex. */
  const MidiChannelIndex: int := 0x1000

  /** The four kinds of AudioGraphIOProcessor terminal. */
  datatype IOKind = AudioInput | AudioOutput | MidiInput | MidiOutput

  datatype Processor = IO(kind: IOKind) | Effect(node: EffectNode)

  /** A terminal produces MIDI only if it is the MIDI input; an effect node never does. */
  function ProducesMidi(p: Processor): bool
  {
    match p
    case IO(kind) => kind == MidiInput
    case Effect(node) => Traits(node.params).producesMidi
  }

  /** A terminal accepts MIDI only if it is the MIDI output; an effect node never does. */
  function AcceptsMidi(p: Processor): bool
  {
    match p
    case IO(kind) => kind == MidiOutput
    case Effect(node) => Traits(node.params).acceptsMidi
  }

  datatype Endpoint = Endpoint(nodeId: NodeId, channelIndex: int)

  datatype Connection = Connection(source: Endpoint, destination: Endpoint)

  class AudioGraph {
    var nodes: map<NodeId, Processor>
    var connections: set<Connection>
    /** The last id handed out; ids are never reused. */
    var lastNodeId: NodeId

    /** Every id is at most lastNodeId, and every connection joins two present nodes. */
    ghost predicate Valid()
      reads this
    {
      && (forall id | id in nodes :: id <= lastNodeId)
      && (forall c | c in connections :: c.source.nodeId in nodes && c.destination.nodeId in nodes)
    }

    /** A connection the graph accepts: both ends present and distinct. */
    predicate CanConnect(c: Connection)
      reads this
    {
      c.source.nodeId in nodes && c.destination.nodeId in nodes && c.source.nodeId != c.destination.nodeId
    }

    constructor ()
      ensures Valid() && nodes == map[] && connections == {} && lastNodeId == 0
    {
      nodes := map[];
      connections := {};
      lastNodeId := 0;
    }

    /** `clear()`: drops every node and connection. */
    method Clear()
      requires Valid()
      modifies this`nodes, this`connections
      ensures Valid() && nodes == map[] && connections == {}
    {
      nodes := map[];
      connections := {};
    }

    /** `addNode(processor)`: stores the processor under a fresh id. */
    method AddNode(p: Processor) returns (id: NodeId)
      requires Valid()
      modifies this`nodes, this`lastNodeId
      ensures Valid()
      ensures id == lastNodeId == old(lastNodeId) + 1
      ensures id !in old(nodes) && nodes == old(nodes)[id := p]
    {
      lastNodeId := lastNodeId + 1;
      id := lastNodeId;
      nodes := nodes[id := p];
    }

    /** `addConnection(c)`: true when c is acceptable and was not already there. */
    method AddConnection(c: Connection) returns (added: bool)
      requires Valid()
      modifies this`connections
      ensures Valid()
      ensures added <==> CanConnect(c) && c !in old(connections)
      ensures connections == if CanConnect(c) then old(connections) + {c} else old(connections)
    {
      added := CanConnect(c) && c !in connections;
      if CanConnect(c) {
        connections := connections + {c};
      }
    }

    /** `removeConnection(c)`: true when c was there. */
    method RemoveConnection(c: Connection) returns (removed: bool)
      requires Valid()
      modifies this`connections
      ensures Valid()
      ensures removed <==> c in old(connections)
      ensures connections == old(connections) - {c}
    {
      removed := c in connections;
      connections := connections - {c};
    }
  }
}
