/**
 * SemanticEQAudioProcessor: the plugin's processor. It owns the graph
 * (mainProcessor) and the handles of its four terminal nodes, rebuilds the
 * pass-through in initialiseGraph, rewires the effect chain in processText
 * from a parsed response, and clears surplus output channels at the start of
 * processBlock.
 */
module SemanticEQ {
  import opened Wrappers
  import opened Json
  import opened EffectNodes
  import opened ProcessorGraph
  import opened Chain
  import opened Dispatch
  import opened Messages

  //--------------------------------------------------------------------------
  // The response that processText acts on.

  /** `result["run_parameters"]["effects"]`. */
  function EffectsOf(response: Json): Json
  {
    Get(Get(response, "run_parameters"), "effects")
  }

  /** The response gets as far as rewiring: it is an object whose `run_parameters` object holds an `effects` array. */
  predicate ReachesRewiring(response: Json)
  {
    IsObject(response) && IsObject(Get(response, "run_parameters")) && EffectsOf(response).Arr?
  }

  /** The transcript processText posts for a response. */
  function PostedTranscript(response: Json): string
  {
    var messages := Get(response, "messages");
    if messages.Arr? then Transcript(messages.items) else ""
  }

  /** How a call of processText ends. */
  datatype TextOutcome =
    | Ignored                       // the response is neither an object nor an array: nothing is done or posted
    | Posted(transcript: string)    // the transcript is handed to the editor
    | Crashed(error: ChainError)    // an object entry of unknown type: the source dereferences a null node

  //--------------------------------------------------------------------------
  // The graph's state, as the processor sees it.

  /** The four terminal handles name the four IO nodes of the graph. */
  ghost predicate TerminalsIn(t: Terminals, nodes: map<NodeId, Processor>)
  {
    && t.audioIn in nodes && nodes[t.audioIn] == IO(AudioInput)
    && t.audioOut in nodes && nodes[t.audioOut] == IO(AudioOutput)
    && t.midiIn in nodes && nodes[t.midiIn] == IO(MidiInput)
    && t.midiOut in nodes && nodes[t.midiOut] == IO(MidiOutput)
  }

  /**
   * `nodes` is `oldNodes` plus one effect node per element of `params`, in
   * order, under fresh ids above `oldLast` listed in `chain`; nothing is removed.
   */
  ghost predicate AddsChain(oldNodes: map<NodeId, Processor>, oldLast: NodeId,
                            nodes: map<NodeId, Processor>, last: NodeId,
                            chain: seq<NodeId>, params: seq<EffectParams>)
  {
    && |chain| == |params|
    && oldLast <= last
    && (forall id | id in oldNodes :: id in nodes && nodes[id] == oldNodes[id])
    && (forall id | id in nodes :: id in oldNodes || id in chain)
    && (forall j | 0 <= j < |chain| :: oldLast < chain[j] <= last)
    && (forall j, k | 0 <= j < k < |chain| :: chain[j] < chain[k])
    && (forall j | 0 <= j < |chain| ::
          chain[j] in nodes && nodes[chain[j]].Effect? && nodes[chain[j]].node.params == params[j])
  }

  /**
   * What a rewiring from `effects` leaves. When every object entry is
   * recognised: one fresh effect node per object entry, in array order, and
   * exactly the chain audio in -> nodes -> audio out plus the MIDI link. When
   * one is not: the nodes added before it, chained from audio in, and nothing
   * else.
   */
  ghost predicate RewiredBy(effects: seq<Json>, t: Terminals,
                            oldNodes: map<NodeId, Processor>, oldLast: NodeId,
                            nodes: map<NodeId, Processor>, last: NodeId, connections: set<Connection>,
                            chain: seq<NodeId>, error: Option<ChainError>)
  {
    match ChainSpec(effects)
    case Ok(params) =>
      && error == None
      && AddsChain(oldNodes, oldLast, nodes, last, chain, params)
      && connections == Wiring(t, chain)
    case Err(e) =>
      && error == Some(e)
      && ChainSpec(effects[..e.index]).Ok?
      && AddsChain(oldNodes, oldLast, nodes, last, chain, ChainSpec(effects[..e.index]).value)
      && connections == Hops([t.audioIn] + chain)
  }

  /** Adding one more effect node under the next fresh id extends the chain by that node. */
  lemma AddsChainStep(oldNodes: map<NodeId, Processor>, oldLast: NodeId,
                      nodes: map<NodeId, Processor>, last: NodeId,
                      chain: seq<NodeId>, params: seq<EffectParams>,
                      id: NodeId, node: EffectNode)
    requires AddsChain(oldNodes, oldLast, nodes, last, chain, params)
    requires forall k | k in nodes :: k <= last
    requires id == last + 1
    ensures AddsChain(oldNodes, oldLast, nodes[id := Effect(node)], id, chain + [id], params + [node.params])
  {
    var nodes', chain', params' := nodes[id := Effect(node)], chain + [id], params + [node.params];
    forall k | k in oldNodes ensures k in nodes' && nodes'[k] == oldNodes[k] {
      assert k in nodes && k != id;
    }
    forall k | k in nodes' ensures k in oldNodes || k in chain' {
      if k != id {
        assert k in nodes;
        if k in chain {
          var j :| 0 <= j < |chain| && chain[j] == k;
          assert chain'[j] == k;
        }
      } else {
        assert chain'[|chain|] == id;
      }
    }
    forall j | 0 <= j < |chain'|
      ensures chain'[j] in nodes' && nodes'[chain'[j]].Effect? && nodes'[chain'[j]].node.params == params'[j]
    {
      if j < |chain| {
        assert chain'[j] == chain[j] && params'[j] == params[j] && chain[j] in nodes;
        assert chain[j] != id;
      }
    }
  }

  /**
   * A completed rewiring adds one node per object entry of the array, in
   * array order, each with the parameters its entry names, and leaves exactly
   * the wiring of that chain: no trace of the connections it started from.
   */
  lemma RewiredInArrayOrder(effects: seq<Json>, t: Terminals,
                            oldNodes: map<NodeId, Processor>, oldLast: NodeId,
                            nodes: map<NodeId, Processor>, last: NodeId, connections: set<Connection>,
                            chain: seq<NodeId>)
    requires RewiredBy(effects, t, oldNodes, oldLast, nodes, last, connections, chain, None)
    ensures |chain| == |ObjectEntries(effects)|
    ensures forall j | 0 <= j < |chain| ::
              chain[j] in nodes && nodes[chain[j]].Effect? &&
              ParseEffect(ObjectEntries(effects)[j]) == Ok(nodes[chain[j]].node.params)
    ensures forall id | id in oldNodes :: id in nodes && nodes[id] == oldNodes[id]
    ensures connections == Wiring(t, chain)
  {
    ChainSpecValues(effects);
  }

  /** The terminals and the fresh chain nodes are all different, so the chain path visits each node once. */
  lemma RewiredPathDistinct(t: Terminals, oldNodes: map<NodeId, Processor>, oldLast: NodeId,
                            nodes: map<NodeId, Processor>, last: NodeId,
                            chain: seq<NodeId>, params: seq<EffectParams>)
    requires TerminalsIn(t, oldNodes)
    requires forall id | id in oldNodes :: id <= oldLast
    requires AddsChain(oldNodes, oldLast, nodes, last, chain, params)
    ensures Distinct(ChainPath(t, chain))
  {
    var path := ChainPath(t, chain);
    forall i, j | 0 <= i < j < |path| ensures path[i] != path[j] {
      if i == 0 && j == |path| - 1 {
        assert oldNodes[path[i]] != oldNodes[path[j]];
      } else if i == 0 || j == |path| - 1 {
        assert (path[i] <= oldLast) != (path[j] <= oldLast);
      } else {
        assert path[i] == chain[i - 1] && path[j] == chain[j - 1];
      }
    }
  }

  /**
   * After a complete rewiring with k effect nodes the graph holds 2·(k+1)
   * audio connections forming one path in array order, and, when the four
   * terminals were the graph's only IO nodes (as initialiseGraph leaves it),
   * the MIDI link joins the only node that produces MIDI to the only one
   * that accepts it.
   */
  lemma RewiredGraphShape(t: Terminals, oldNodes: map<NodeId, Processor>, oldLast: NodeId,
                          nodes: map<NodeId, Processor>, last: NodeId,
                          chain: seq<NodeId>, params: seq<EffectParams>)
    requires TerminalsIn(t, oldNodes)
    requires forall id | id in oldNodes :: id <= oldLast
    requires forall id | id in oldNodes && oldNodes[id].IO? ::
               id == t.audioIn || id == t.audioOut || id == t.midiIn || id == t.midiOut
    requires AddsChain(oldNodes, oldLast, nodes, last, chain, params)
    ensures Distinct(ChainPath(t, chain))
    ensures |Wiring(t, chain)| == 2 * (|chain| + 1) + 1
    ensures MidiLink(t) in Wiring(t, chain)
    ensures ProducesMidi(nodes[t.midiIn]) && AcceptsMidi(nodes[t.midiOut])
    ensures forall c | c in Hops(ChainPath(t, chain)) ::
              c.source.nodeId in nodes && !ProducesMidi(nodes[c.source.nodeId]) &&
              c.destination.nodeId in nodes && !AcceptsMidi(nodes[c.destination.nodeId])
    ensures forall id | id in nodes && ProducesMidi(nodes[id]) :: id == t.midiIn
    ensures forall id | id in nodes && AcceptsMidi(nodes[id]) :: id == t.midiOut
  {
    RewiredPathDistinct(t, oldNodes, oldLast, nodes, last, chain, params);
    WiringCount(t, chain);
    var path := ChainPath(t, chain);
    forall c | c in Hops(path)
      ensures c.source.nodeId in nodes && !ProducesMidi(nodes[c.source.nodeId])
      ensures c.destination.nodeId in nodes && !AcceptsMidi(nodes[c.destination.nodeId])
    {
      HopsWithinPath(path, c);
      var i :| 0 <= i < |path| && path[i] == c.source.nodeId;
      var j :| 0 <= j < |path| && path[j] == c.destination.nodeId;
      if 0 < i < |path| - 1 {
        assert path[i] == chain[i - 1];
      }
      if 0 < j < |path| - 1 {
        assert path[j] == chain[j - 1];
      }
    }
  }

  //--------------------------------------------------------------------------

  class SemanticEQProcessor {
    /** mainProcessor. */
    const graph: AudioGraph
    /** audioInputNode, audioOutputNode, midiInputNode, midiOutputNode: null until initialiseGraph runs. */
    var terminals: Option<Terminals>

    ghost predicate Valid()
      reads this, graph
    {
      graph.Valid() && (terminals.Some? ==> TerminalsIn(terminals.value, graph.nodes))
    }

    constructor ()
      ensures Valid() && fresh(graph)
      ensures terminals == None && graph.nodes == map[] && graph.connections == {}
    {
      graph := new AudioGraph();
      terminals := None;
    }

    /** Connects channels 0 and 1 of `from` to the same channels of `to`. */
    method ConnectChannels(from: NodeId, to: NodeId)
      requires graph.Valid() && from in graph.nodes && to in graph.nodes && from != to
      modifies graph`connections
      ensures graph.Valid()
      ensures graph.connections == old(graph.connections) + Hop(from, to)
    {
      for channel := 0 to 2
        invariant graph.Valid()
        invariant graph.connections == old(graph.connections) + (set ch | 0 <= ch < channel :: AudioLink(from, to, ch))
      {
        var added := graph.AddConnection(AudioLink(from, to, channel));
        assert (set ch | 0 <= ch < channel + 1 :: AudioLink(from, to, ch))
            == (set ch | 0 <= ch < channel :: AudioLink(from, to, ch)) + {AudioLink(from, to, channel)};
      }
      assert (set ch | 0 <= ch < 2 :: AudioLink(from, to, ch)) == Hop(from, to) by {
        forall c | c in Hop(from, to) ensures c in (set ch | 0 <= ch < 2 :: AudioLink(from, to, ch)) {
          if c == AudioLink(from, to, 0) {
            assert 0 <= 0 < 2;
          } else {
            assert c == AudioLink(from, to, 1);
          }
        }
      }
    }

    /** `connectAudioNodes()`: audio in to audio out on channels 0 and 1. */
    method ConnectAudioNodes()
      requires Valid() && terminals.Some?
      modifies graph`connections
      ensures Valid()
      ensures graph.connections == old(graph.connections) + Hop(terminals.value.audioIn, terminals.value.audioOut)
    {
      var t := terminals.value;
      ConnectChannels(t.audioIn, t.audioOut);
    }

    /** `connectMidiNodes()`: MIDI in to MIDI out on the MIDI channel. */
    method ConnectMidiNodes()
      requires Valid() && terminals.Some?
      modifies graph`connections
      ensures Valid()
      ensures graph.connections == old(graph.connections) + {MidiLink(terminals.value)}
    {
      var t := terminals.value;
      var added := graph.AddConnection(MidiLink(t));
    }

    /** `initialiseGraph()`: the graph becomes the four terminals and the pass-through. */
    method InitialiseGraph()
      requires Valid()
      modifies this, graph
      ensures Valid() && terminals.Some?
      ensures var t := terminals.value;
              graph.nodes == map[t.audioIn := IO(AudioInput), t.audioOut := IO(AudioOutput),
                                 t.midiIn := IO(MidiInput), t.midiOut := IO(MidiOutput)]
      ensures graph.connections == PassThrough(terminals.value)
    {
      graph.Clear();
      var audioIn := graph.AddNode(IO(AudioInput));
      var audioOut := graph.AddNode(IO(AudioOutput));
      var midiIn := graph.AddNode(IO(MidiInput));
      var midiOut := graph.AddNode(IO(MidiOutput));
      terminals := Some(Terminals(audioIn, audioOut, midiIn, midiOut));
      ConnectAudioNodes();
      ConnectMidiNodes();
    }

    /** `prepareToPlay(sampleRate, samplesPerBlock)`, as far as the graph goes: it rebuilds the pass-through. */
    method PrepareToPlay(sampleRate: real, samplesPerBlock: int)
      requires Valid()
      modifies this, graph
      ensures Valid() && terminals.Some?
      ensures |graph.nodes| == 4
      ensures graph.connections == PassThrough(terminals.value)
    {
      InitialiseGraph();
      var t := terminals.value;
      assert graph.nodes.Keys == {t.audioIn, t.audioOut, t.midiIn, t.midiOut};
    }

    /** The first step of the rewiring: every connection is removed, the MIDI link included. */
    method DisconnectAll()
      requires Valid()
      modifies graph`connections
      ensures Valid() && graph.connections == {}
    {
      var pending := graph.connections;
      while pending != {}
        invariant Valid() && graph.connections == pending
        decreases |pending|
      {
        var c :| c in pending;
        var removed := graph.RemoveConnection(c);
        pending := pending - {c};
      }
    }

    /**
     * One object entry of a known type: add its node and connect `prevNode`,
     * the last node of the chain so far, to it on channels 0 and 1.
     */
    method AppendEffect(p: EffectParams, prevNode: NodeId,
                        ghost oldNodes: map<NodeId, Processor>, ghost oldLast: NodeId,
                        ghost chain: seq<NodeId>, ghost params: seq<EffectParams>)
      returns (effectNode: NodeId)
      requires Valid() && terminals.Some?
      requires AddsChain(oldNodes, oldLast, graph.nodes, graph.lastNodeId, chain, params)
      requires prevNode == Last([terminals.value.audioIn] + chain) && prevNode in graph.nodes
      requires graph.connections == Hops([terminals.value.audioIn] + chain)
      modifies graph
      ensures Valid()
      ensures AddsChain(oldNodes, oldLast, graph.nodes, graph.lastNodeId, chain + [effectNode], params + [p])
      ensures effectNode == Last([terminals.value.audioIn] + (chain + [effectNode]))
      ensures graph.connections == Hops([terminals.value.audioIn] + (chain + [effectNode]))
      ensures effectNode in graph.nodes && graph.nodes[effectNode].Effect? && fresh(graph.nodes[effectNode].node)
    {
      var node := new EffectNode(p);
      ghost var before := graph.nodes;
      effectNode := graph.AddNode(Effect(node));
      AddsChainStep(oldNodes, oldLast, before, effectNode - 1, chain, params, effectNode, node);
      ConnectChannels(prevNode, effectNode);
      var path := [terminals.value.audioIn] + chain;
      HopsSnoc(path, effectNode);
      assert path + [effectNode] == [terminals.value.audioIn] + (chain + [effectNode]);
    }

    /**
     * The loop of processText over the effects array: one node per object
     * entry, each chained after `prevNode`, which starts at audio in. An
     * object entry of unknown type ends the loop.
     */
    method ChainEffects(effects: seq<Json>)
      returns (error: Option<ChainError>, prevNode: NodeId, ghost chain: seq<NodeId>)
      requires Valid() && terminals.Some? && graph.connections == {}
      modifies graph
      ensures Valid()
      ensures var t := terminals.value;
              && prevNode == Last([t.audioIn] + chain)
              && graph.connections == Hops([t.audioIn] + chain)
      ensures match ChainSpec(effects)
              case Ok(params) =>
                && error == None
                && AddsChain(old(graph.nodes), old(graph.lastNodeId), graph.nodes, graph.lastNodeId, chain, params)
              case Err(e) =>
                && error == Some(e)
                && ChainSpec(effects[..e.index]).Ok?
                && AddsChain(old(graph.nodes), old(graph.lastNodeId), graph.nodes, graph.lastNodeId, chain,
                             ChainSpec(effects[..e.index]).value)
    {
      var t := terminals.value;
      prevNode := t.audioIn;
      ghost var params: seq<EffectParams> := [];
      chain := [];
      var i := 0;
      while i < |effects|
        invariant 0 <= i <= |effects|
        invariant Valid()
        invariant ChainSpec(effects[..i]) == Ok(params)
        invariant AddsChain(old(graph.nodes), old(graph.lastNodeId), graph.nodes, graph.lastNodeId, chain, params)
        invariant prevNode == Last([t.audioIn] + chain)
        invariant graph.connections == Hops([t.audioIn] + chain)
      {
        var effect := effects[i];
        ChainSpecPrefix(effects, i);
        if IsObject(effect) {
          match ParseEffect(effect)
          case Err(name) =>
            ChainSpecStopsAtError(effects, i + 1);
            return Some(UnknownEffectType(i, name)), prevNode, chain;
          case Ok(p) =>
            prevNode := AppendEffect(p, prevNode, old(graph.nodes), old(graph.lastNodeId), chain, params);
            chain := chain + [prevNode];
            params := params + [p];
        }
        i := i + 1;
      }
      assert effects[..|effects|] == effects;
      error := None;
    }

    /**
     * The rewiring part of processText: clear the connections, chain the
     * effect nodes, then close the chain to audio out and reconnect MIDI.
     */
    method RewireChain(effects: seq<Json>) returns (error: Option<ChainError>, ghost chain: seq<NodeId>)
      requires Valid() && terminals.Some?
      modifies graph
      ensures Valid()
      ensures RewiredBy(effects, terminals.value, old(graph.nodes), old(graph.lastNodeId),
                        graph.nodes, graph.lastNodeId, graph.connections, chain, error)
    {
      DisconnectAll();
      var prevNode;
      error, prevNode, chain := ChainEffects(effects);
      if error.None? {
        var t := terminals.value;
        ConnectChannels(prevNode, t.audioOut);
        HopsSnoc([t.audioIn] + chain, t.audioOut);
        ConnectMidiNodes();
      }
    }

    /**
     * `processText`, from the parsed response on: rewire the chain if the
     * response carries an effects array, then post the transcript.
     */
    method ProcessText(response: Json) returns (outcome: TextOutcome, ghost chain: seq<NodeId>)
      requires Valid()
      requires ReachesRewiring(response) ==> terminals.Some?
      modifies graph
      ensures Valid() && terminals == old(terminals)
      ensures !IsObject(response) ==> outcome == Ignored
      ensures !ReachesRewiring(response) ==>
                graph.nodes == old(graph.nodes) && graph.connections == old(graph.connections)
      ensures IsObject(response) && !ReachesRewiring(response) ==> outcome == Posted(PostedTranscript(response))
      ensures ReachesRewiring(response) ==>
                var effects := EffectsOf(response).items;
                && RewiredBy(effects, terminals.value, old(graph.nodes), old(graph.lastNodeId),
                             graph.nodes, graph.lastNodeId, graph.connections, chain,
                             if outcome.Crashed? then Some(outcome.error) else None)
                && outcome == if ChainSpec(effects).Ok? then Posted(PostedTranscript(response))
                              else Crashed(ChainSpec(effects).error)
    {
      chain := [];
      if !IsObject(response) {
        return Ignored, chain;
      }
      var parameters := Get(response, "run_parameters");
      if IsObject(parameters) {
        var jsonEffects := Get(parameters, "effects");
        if jsonEffects.Arr? {
          var error;
          error, chain := RewireChain(jsonEffects.items);
          if error.Some? {
            return Crashed(error.value), chain;
          }
        }
      }
      var formatted := FormatMessages(Get(response, "messages"));
      outcome := Posted(formatted);
    }
  }

  //--------------------------------------------------------------------------
  // processBlock and the bus layout.

  /**
   * The loop at the start of `processBlock`: output channels with no matching
   * input channel are zeroed; every other sample is left alone.
   */
  method ClearUnusedChannels(buffer: array2<real>, totalNumInputChannels: nat, totalNumOutputChannels: nat)
    requires totalNumInputChannels < totalNumOutputChannels ==> totalNumOutputChannels <= buffer.Length0
    modifies buffer
    ensures forall ch, s | 0 <= ch < buffer.Length0 && 0 <= s < buffer.Length1 ::
              buffer[ch, s] == if totalNumInputChannels <= ch < totalNumOutputChannels then 0.0 else old(buffer[ch, s])
  {
    var i := totalNumInputChannels;
    while i < totalNumOutputChannels
      invariant i == totalNumInputChannels || totalNumInputChannels < i <= totalNumOutputChannels
      invariant forall ch, s | 0 <= ch < buffer.Length0 && 0 <= s < buffer.Length1 ::
                  buffer[ch, s] == if totalNumInputChannels <= ch < i then 0.0 else old(buffer[ch, s])
    {
      forall s | 0 <= s < buffer.Length1 {
        buffer[i, s] := 0.0;
      }
      i := i + 1;
    }
  }

  /** juce::AudioChannelSet::ChannelType, the speaker positions a channel set is made of. */
  datatype ChannelType =
    | Left | Right | Centre | LFE | LeftSurround | RightSurround | Discrete(index: nat)

  /** juce::AudioChannelSet: a set of channel types. */
  datatype AudioChannelSet = AudioChannelSet(channels: set<ChannelType>)

  const Mono: AudioChannelSet := AudioChannelSet({Centre})
  const Stereo: AudioChannelSet := AudioChannelSet({Left, Right})

  function Size(s: AudioChannelSet): nat
  {
    |s.channels|
  }

  datatype BusesLayout = BusesLayout(mainInput: AudioChannelSet, mainOutput: AudioChannelSet)

  /** `isBusesLayoutSupported` for an audio effect: the output is mono or stereo and the input matches it. */
  function IsBusesLayoutSupported(layouts: BusesLayout): (r: bool)
    ensures r <==> layouts == BusesLayout(Mono, Mono) || layouts == BusesLayout(Stereo, Stereo)
  {
    if layouts.mainOutput != Mono && layouts.mainOutput != Stereo then false
    else if layouts.mainOutput != layouts.mainInput then false
    else true
  }

  /**
   * Under a supported layout input and output have the same one or two
   * channels, so the clearing loop of processBlock has nothing to clear.
   */
  lemma SupportedLayoutClearsNothing(layouts: BusesLayout)
    requires IsBusesLayoutSupported(layouts)
    ensures Size(layouts.mainInput) == Size(layouts.mainOutput)
    ensures Size(layouts.mainOutput) in {1, 2}
  {
    assert |{Left, Right}| == 2 by {
      assert Left != Right;
    }
  }
}
