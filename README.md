# SemanticEQ: the effect-chain rewiring, modelled in Dafny

SemanticEQ is a JUCE audio plugin. The user types a description of a sound.
A translation service answers with a JSON response. The processor
(`SemanticEQAudioProcessor`) rebuilds its internal `juce::AudioProcessorGraph`
from that response: a linear chain of effect nodes from the audio input to
the audio output, plus a MIDI pass-through. It also posts a chat transcript
to the editor.

This project models that core:

- `wrappers.dfy` (`Wrappers`): `Option` and `Result`.
- `json.dfy` (`Json`): the `juce::var` that `juce::JSON::parse` returns.
  - It is a datatype: void, bool, number, string, array, object.
  - Number and string leaves carry both library conversions the processor uses: `toString()` and the cast to `float`.
- `effect_nodes.dfy` (`EffectNodes`): the six effect node classes of `PluginProcessor.h`.
  - Their constructor arguments form the closed datatype `EffectParams`.
  - A node is the class `EffectNode`. Its parameters are fixed at construction.
  - A node goes from Constructed to Prepared. A filter selects its coefficient design when prepared. `reset` clears only the DSP running state.
  - The `ProcessorBase` defaults are in the model, and so is `getName`.
- `processor_graph.dfy` (`ProcessorGraph`): the part of `juce::AudioProcessorGraph` the plugin drives.
  - It is the class `AudioGraph`, with a node map under fresh ids, a connection set, and the last id handed out.
  - Its methods are `clear`, `addNode`, `addConnection` and `removeConnection`.
- `chain.dfy` (`Chain`): the connection sets the processor builds, as values.
  - The pass-through of `initialiseGraph`.
  - The hops of a path, two channels per hop.
  - The wiring of a chain: the audio path plus the MIDI link.
  - Lemmas: these hops form exactly one path in order, and they number 2·(k+1) for k effect nodes.
- `dispatch.dfy` (`Dispatch`): the effect-name dispatch of `processText`.
  - Eight type strings map to node kinds, and each kind reads its own parameter keys.
  - `ChainSpec` is the specification of the whole loop over the `effects` array:
    - entries that are not objects are skipped;
    - the first object entry of unknown type stops the loop.
  - "Object" here means what JUCE's `isObject()` accepts: objects and also arrays. Reading a property of an array gives void, so an array entry has type "" and is of unknown type.
- `transcript.dfy` (`Messages`): the transcript built from the `messages` array.
  - The spec function is `Transcript`.
  - `FormatMessages` is the accumulating loop, proved against it.
- `semantic_eq.dfy` (`SemanticEQ`): the processor.
  - The class `SemanticEQProcessor` owns the graph and the four terminal handles.
  - It has `initialiseGraph`, `connectAudioNodes`, `connectMidiNodes`, the rewiring loop of `processText`, and `processText` from the parsed response on.
  - Module-level members: the channel-clearing loop of `processBlock` (over an `array2`), and `isBusesLayoutSupported`.

How the model reads the code where it is ambiguous:

- **Unknown effect type.** For an object entry whose `type` is none of the eight names, the code leaves `effectNode` null. It then dereferences it while connecting the channels (`Source/PluginProcessor.cpp:286-288`). The model treats this as an error outcome. `ChainSpec` returns `Err(UnknownEffectType(index, name))`, and `ProcessText` ends in `Crashed(...)`. The nodes and connections added before that entry are stated exactly. The transcript is not posted.
- **Rewiring is done in place.** The graph is changed in place, step by step, on the calling thread. There is no separate graph built and then swapped in atomically. Parameters are not validated: a missing key reads as 0, as `juce::var` converts void. This model follows the code in both respects, not a design that builds a new graph, validates parameters and publishes it atomically.
- **Null terminal handles.** The terminal handles are null until `prepareToPlay` runs `initialiseGraph`. Rewiring before that would dereference them. `ProcessText` therefore requires the terminals only when the response reaches the rewiring.

## Model

| member | source | states |
|---|---|---|
| EffectNodes.Name | Source/PluginProcessor.h:98 | `getName` is "Filter" exactly for the filter class (lines 139, 177, 212, 250 and 288 give the other five names), and never empty |
| EffectNodes.NameIdentifiesKind | Source/PluginProcessor.h:98 | two nodes report the same name exactly when they are of the same class; the three filter types share one name |
| EffectNodes.Traits | Source/PluginProcessor.h:31-41 | every node kind answers with the `ProcessorBase` defaults: no MIDI in or out, tail length 0, 0 programs, current program 0, no editor |
| EffectNodes.ToUInt32 | Source/PluginProcessor.h:66 | `static_cast<juce::uint32>` of the block size is below 2^32, congruent to it modulo 2^32, and the identity on values in range |
| EffectNodes.DesignFor | Source/PluginProcessor.h:68-81 | a coefficient design is selected exactly when the type is one of the three filter names. It is the peak, low-shelf or high-shelf design respectively, built from the sample rate, frequency, Q and gain. Any other type selects no design (None: the null that line 81 of PluginProcessor.h stores) |
| EffectNodes.ReverbSettings | Source/PluginProcessor.h:113-117 | the reverb parameters copy room size, damping, wet level and width, and the dry level is 1 - wet level, so the two sum to 1 |
| EffectNodes.EffectNode.constructor | Source/PluginProcessor.h:59-62 | a node binds exactly the parameters it is given; a reverb also binds its reverb settings. It starts unprepared with no coefficients and cleared state. The other constructors are at lines 110-118, 150-157, 187-192, 222-230 and 260-268 |
| EffectNodes.EffectNode.PrepareToPlay | Source/PluginProcessor.h:64-84 | for every node except a filter of unknown type (a crash in the source), after preparing, the DSP object is prepared with (host sample rate, block size cast to uint32, 2 channels) whatever the host channel count, and its running state is cleared. A filter's coefficients become the design its type selects; other kinds keep theirs |
| EffectNodes.EffectNode.ProcessBlock | Source/PluginProcessor.h:86-91 | processing a block runs the DSP object, leaving its state running and the parameters unchanged |
| EffectNodes.EffectNode.Reset | Source/PluginProcessor.h:93-96 | `reset` clears only the DSP running state; parameters, prepared spec and coefficients are untouched |
| ProcessorGraph.AudioGraph.constructor | Source/PluginProcessor.cpp:24 | a new graph has no nodes, no connections and has handed out no id |
| ProcessorGraph.AudioGraph.Clear | Source/PluginProcessor.cpp:140 | `clear` drops every node and connection and keeps the graph well formed |
| ProcessorGraph.AudioGraph.AddNode | Source/PluginProcessor.cpp:142 | `addNode` stores the processor under a new id (one past the last), not present before, and changes no other node |
| ProcessorGraph.AudioGraph.AddConnection | Source/PluginProcessor.cpp:154-155 | `addConnection` adds the connection exactly when both endpoints are present and distinct, and reports whether it was new |
| ProcessorGraph.AudioGraph.RemoveConnection | Source/PluginProcessor.cpp:240 | `removeConnection` removes exactly that connection and reports whether it was there |
| Chain.HopsSnoc | Source/PluginProcessor.cpp:286-288 | moving the cursor one node further adds exactly the two-channel hop from the old cursor to the new node |
| Chain.HopsMembership | Source/PluginProcessor.cpp:286-294 | a connection is in the hops of a path if and only if it joins two neighbours of the path on channel 0 or 1, the same on both ends |
| Chain.HopsCount | Source/PluginProcessor.cpp:286-287 | a path of k distinct nodes yields 2·(k-1) connections: two per hop, none shared |
| Chain.HopsLeaveForward | Source/PluginProcessor.cpp:286-288 | along a path of distinct nodes, every connection leaving the i-th node goes to the (i+1)-th on the same channel, so the hops form one path in order |
| Chain.HopsEnterBackward | Source/PluginProcessor.cpp:286-288 | along a path of distinct nodes, every connection arriving at the j-th node comes from the (j-1)-th; nothing enters the audio input |
| Chain.HopsWithinPath | Source/PluginProcessor.cpp:286-294 | every connection of a chain joins two nodes of the chain's path |
| Chain.WiringMidi | Source/PluginProcessor.cpp:293-295 | in a wired chain the only connection on the MIDI channel index is MIDI in to MIDI out; every other one is channel 0 or 1 on both ends |
| Chain.WiringCount | Source/PluginProcessor.cpp:243-295 | with k effect nodes and distinct ids the chain has 2·(k+1) audio connections, and the MIDI link is one more, not among them |
| Chain.PassThroughIsEmptyChain | Source/PluginProcessor.cpp:293-295 | an effects array with no object entries wires audio in straight to audio out on both channels plus MIDI: exactly what `initialiseGraph` wires |
| Chain.PassThroughCount | Source/PluginProcessor.cpp:147-162 | the pass-through has exactly three connections |
| Dispatch.ParseEffect | Source/PluginProcessor.cpp:252-284 | an object entry yields a node exactly when its `type` string is one of the eight recognised names. The node's kind carries that name; otherwise the result is the unknown name |
| Dispatch.ParseEncode | Source/PluginProcessor.cpp:253-284 | every node of a recognised kind is rebuilt exactly from an entry that carries its type and its parameters under the keys that kind reads (`centreFrequency` for the peak filter, `cutOffFrequency` for the shelves, `centerFrequency` for the phaser, `centreDelay` for the chorus, and so on) |
| Dispatch.DispatchedFilterHasDesign | Source/PluginProcessor.cpp:253-263 | a filter built by the dispatch always has a type for which `prepareToPlay` selects a coefficient design |
| Dispatch.ArrayEntryIsUnknown | Source/PluginProcessor.cpp:249-252 | an array entry passes the object test and reads its type as "", so it counts as an object entry of unknown type |
| Dispatch.ChainSpec | Source/PluginProcessor.cpp:245-290 | the index the loop stops at lies within the array |
| Dispatch.ChainSpecPrefix | Source/PluginProcessor.cpp:245-290 | the outcome for the first i+1 entries is one more turn of the loop after the first i |
| Dispatch.ChainSpecOkIff | Source/PluginProcessor.cpp:245-289 | the loop runs to the end if and only if every object entry has a recognised type |
| Dispatch.ChainSpecValues | Source/PluginProcessor.cpp:245-289 | a loop that runs to the end adds one node per object entry, in array order, each with the parameters its entry names; non-object entries add nothing |
| Dispatch.ChainSpecError | Source/PluginProcessor.cpp:249-287 | a loop that stops does so at an object entry of unknown type and reports that type; every object entry before it is recognised |
| Dispatch.ChainSpecStopsAtError | Source/PluginProcessor.cpp:245-287 | once a prefix of the array stops the loop, the whole array stops it the same way |
| Messages.TranscriptAppend | Source/PluginProcessor.cpp:305-317 | the transcript of two arrays one after the other is the two transcripts one after the other |
| Messages.TranscriptOfObjects | Source/PluginProcessor.cpp:305-306 | entries that are not objects leave no trace: the transcript is that of the object entries alone |
| Messages.TranscriptOfOne | Source/PluginProcessor.cpp:306-315 | an entry that fails `isObject()` contributes nothing; one that passes it (an object or an array) contributes "You: " + value + blank line when its role is "user", and "SemanticEQ: " + value + blank line otherwise |
| Messages.FormatMessages | Source/PluginProcessor.cpp:302-318 | the accumulating loop yields the transcript of the `messages` array, or "" when `messages` is not an array |
| SemanticEQ.AddsChainStep | Source/PluginProcessor.cpp:251-284 | adding one effect node under the next id extends the chain of added nodes by that node and its parameters and removes nothing |
| SemanticEQ.RewiredInArrayOrder | Source/PluginProcessor.cpp:239-295 | a completed rewiring adds one node per object entry, in array order, with that entry's parameters, and keeps every node that was there. It leaves exactly the wiring of that chain, independent of the connections it started from |
| SemanticEQ.RewiredPathDistinct | Source/PluginProcessor.cpp:243-294 | the audio terminals and the newly added nodes are pairwise distinct, so the chain path visits each node once |
| SemanticEQ.RewiredGraphShape | Source/PluginProcessor.cpp:243-295 | after rewiring with k nodes: 2·(k+1) audio connections and the MIDI link. MIDI joins the MIDI input to the MIDI output. When the four terminals were the graph's only IO nodes, as initialiseGraph leaves it, the MIDI input is the only node that produces MIDI and the MIDI output the only one that accepts it. No audio connection touches a MIDI-producing or MIDI-accepting node |
| SemanticEQ.SemanticEQProcessor.constructor | Source/PluginProcessor.cpp:13-30 | a new processor owns a new, empty graph and has no terminal handles yet |
| SemanticEQ.SemanticEQProcessor.ConnectChannels | Source/PluginProcessor.cpp:286-287 | the two-channel loop adds exactly the channel 0 and channel 1 connections between the two nodes |
| SemanticEQ.SemanticEQProcessor.ConnectAudioNodes | Source/PluginProcessor.cpp:151-156 | `connectAudioNodes` adds exactly audio in to audio out on channels 0 and 1 |
| SemanticEQ.SemanticEQProcessor.ConnectMidiNodes | Source/PluginProcessor.cpp:158-162 | `connectMidiNodes` adds exactly MIDI in to MIDI out on the MIDI channel index |
| SemanticEQ.SemanticEQProcessor.InitialiseGraph | Source/PluginProcessor.cpp:138-149 | afterwards the graph holds exactly the four terminal nodes and exactly the pass-through connections |
| SemanticEQ.SemanticEQProcessor.PrepareToPlay | Source/PluginProcessor.cpp:99-113 | preparing rebuilds the graph: four nodes, the pass-through, terminal handles set |
| SemanticEQ.SemanticEQProcessor.DisconnectAll | Source/PluginProcessor.cpp:239-240 | every connection is removed, the MIDI link included; nodes are kept |
| SemanticEQ.SemanticEQProcessor.AppendEffect | Source/PluginProcessor.cpp:251-288 | one recognised entry adds a new node with its parameters and the hop from the cursor to it; the node becomes the cursor |
| SemanticEQ.SemanticEQProcessor.ChainEffects | Source/PluginProcessor.cpp:243-290 | the loop adds exactly the nodes `ChainSpec` prescribes (or those before the first unknown entry) and connects them in order from audio in. The cursor ends on the last one |
| SemanticEQ.SemanticEQProcessor.RewireChain | Source/PluginProcessor.cpp:239-295 | after a complete rewiring the connections are exactly the chain's wiring and the MIDI link. After an unknown entry they are exactly the hops built so far, and the error names that entry |
| SemanticEQ.SemanticEQProcessor.ProcessText | Source/PluginProcessor.cpp:227-318 | a response that fails `isObject()` (neither an object nor an array) does nothing. A response without an `effects` array leaves the graph unchanged and posts the transcript. Otherwise the graph is rewired as `RewiredBy` states and the transcript is posted, unless an unknown entry ends the call |
| SemanticEQ.ClearUnusedChannels | Source/PluginProcessor.cpp:336-337 | exactly the output channels from the input count up to the output count are zeroed; every other sample is unchanged |
| SemanticEQ.IsBusesLayoutSupported | Source/PluginProcessor.cpp:171-192 | a layout is accepted if and only if the output is mono or stereo and the input equals it |
| SemanticEQ.SupportedLayoutClearsNothing | Source/PluginProcessor.cpp:181-190 | under an accepted layout, input and output have the same one or two channels, so the clearing loop of `processBlock` clears nothing |

## Left out

- The HTTP requests: `createConversation` and the `curl` part of `processText` are process I/O. The model starts from the parsed response.
- `juce::JSON::parse`: library code. Its result is the `Json` datatype.
- `toString()` of an object, which JUCE renders as an address-like text: modelled as the empty string. No recognised type name can come from it either way. An array renders as "[Array]", as in JUCE.
- EffectNodes.EffectNode.PrepareToPlay: requires a filter's type to be one of the three filter names. For any other type the source hands null coefficients to `filter.prepare`, which dereferences them. The dispatch of processText never builds such a filter (`Dispatch.DispatchedFilterHasDesign`).
- The conversions of numbers to text and of text to numbers: library code. Each leaf carries both renderings as data.
- `MessageManager::callAsync` and the editor update: cross-thread UI dispatch. `ProcessText` returns the transcript as `Posted(...)` instead.
- The dry/wet mixer, `mainProcessor->setPlayConfigDetails`, `mainProcessor->prepareToPlay`, `mainProcessor->processBlock` and all `juce::dsp` internals (IIR coefficient math, reverb, compressor, delay line, phaser, chorus): floating-point DSP in the library. Parameters are `real`. A node's DSP state is only Cleared or Running.
- EffectNodes.EffectNode.ProcessBlock: does not model the samples of the buffer. It only records that the DSP object ran.
- The graph library preparing the nodes it is given: the library does this internally. `EffectNode.PrepareToPlay` models what a node does when prepared, but no model member calls it on graph nodes.
- `enableAllBuses` on every node after rewiring: internal bus state of the library.
- ProcessorGraph.AudioGraph.AddConnection: checks only that both endpoints exist and differ. It does not check that JUCE's channel index is in range for the node's buses, or that a MIDI connection joins a MIDI producer to a MIDI consumer. The model assumes the host runs the stereo layout. The effect nodes always declare stereo buses, but the audio terminals take their channel count from the host's main buses (`Source/PluginProcessor.cpp:105-107`). Under the mono layout, which `isBusesLayoutSupported` also accepts, JUCE refuses the channel-1 connections to and from the audio terminals.
- SemanticEQ.SemanticEQProcessor.InitialiseGraph: the three pass-through connections it states hold under the stereo layout only. Under the mono layout JUCE drops the channel-1 audio link (see the AddConnection line above).
- SemanticEQ.RewiredGraphShape: the 2·(k+1) audio connections it counts hold under the stereo layout only. Under the mono layout the first and last hops lose their channel-1 connection (see the AddConnection line above).
- SemanticEQ.SemanticEQProcessor.ChainEffects: does not state that the node objects it adds are freshly allocated. RewireChain and ProcessText likewise do not. AppendEffect states it for one node.
- Node id wrap-around: ids are unbounded naturals.
- The plugin metadata getters, program stubs, `releaseResources`, `getCurrentState` and empty state save/restore: boilerplate with no behaviour.
- The `mix` parameter tree, `threadId` and `spec` fields of the processor: they serve only the parts left out above.
- The MIDI-effect and synth configurations of `isBusesLayoutSupported` and of the bus constructor: the plugin is built as an audio effect.
- `PluginEditor.cpp` and `PluginEditor.h`: UI widgets and layout; they are not part of this model.
- Concurrency: `processText` and `processBlock` run on different threads against the same graph with no synchronisation. The model is sequential, as the code is written.
- SemanticEQ.SemanticEQProcessor.ProcessText: requires the terminal handles to be set when the response reaches the rewiring. Before `prepareToPlay` the source would dereference null handles there.
