/**
 * The effect node classes of the plugin (FilterProcessor, ReverbProcessor,
 * CompressorProcessor, DelayLineProcessor, PhaserProcessor, ChorusProcessor),
 * all derived from ProcessorBase.
 *
 * The six classes form a closed family, so their constructor arguments are one
 * datatype, EffectParams, and a node is one class, EffectNode, that binds an
 * EffectParams value for good and goes from Constructed to Prepared. The DSP
 * objects each node wraps are opaque: the model keeps only what the node
 * hands them (a process spec, filter coefficients, reverb parameters) and
 * whether their running state has been cleared.
 */
module EffectNodes {
  import opened Wrappers

  /** The constructor arguments of each node class. */
  datatype EffectParams =
    | Filter(filterType: string, frequency: real, q: real, gainFactor: real)
    | Reverb(roomSize: real, damping: real, wetLevel: real, width: real)
    | Compressor(threshold: real, ratio: real, attack: real, release: real)
    | DelayLine(delayTime: real, maximumDelayInSamples: real)
    | Phaser(rate: real, depth: real, centreFrequency: real, feedback: real, mix: real)
    | Chorus(rate: real, depth: real, centreDelay: real, feedback: real, mix: real)

  datatype EffectKind = FilterKind | ReverbKind | CompressorKind | DelayLineKind | PhaserKind | ChorusKind

  /** Which of the six classes a node is. */
  function Kind(p: EffectParams): EffectKind
  {
    match p
    case Filter(_, _, _, _) => FilterKind
    case Reverb(_, _, _, _) => ReverbKind
    case Compressor(_, _, _, _) => CompressorKind
    case DelayLine(_, _) => DelayLineKind
    case Phaser(_, _, _, _, _) => PhaserKind
    case Chorus(_, _, _, _, _) => ChorusKind
  }

  /** `getName()`: one fixed string per class; the three filter types share "Filter". */
  function Name(p: EffectParams): (r: string)
    ensures r == "Filter" <==> p.Filter?
    ensures |r| > 0
  {
    match p
    case Filter(_, _, _, _) => "Filter"
    case Reverb(_, _, _, _) => "Reverb"
    case Compressor(_, _, _, _) => "Compressor"
    case DelayLine(_, _) => "DelayLine"
    case Phaser(_, _, _, _, _) => "Phaser"
    case Chorus(_, _, _, _, _) => "Chorus"
  }

  /** Two nodes report the same name exactly when they are of the same class. */
  lemma NameIdentifiesKind(a: EffectParams, b: EffectParams)
    ensures Name(a) == Name(b) <==> Kind(a) == Kind(b)
  {
    if Kind(a) != Kind(b) {
      assert Name(a)[0] != Name(b)[0] || Name(a)[1] != Name(b)[1] || |Name(a)| != |Name(b)|;
    }
  }

  //--------------------------------------------------------------------------
  // What ProcessorBase answers; none of the node classes overrides these.

  datatype NodeTraits = NodeTraits(
    acceptsMidi: bool,
    producesMidi: bool,
    tailLengthSeconds: real,
    numPrograms: nat,
    currentProgram: nat,
    hasEditor: bool)

  const BaseTraits: NodeTraits := NodeTraits(false, false, 0.0, 0, 0, false)

  /** The host-facing answers of a node: those of ProcessorBase, for every class. */
  function Traits(p: EffectParams): (r: NodeTraits)
    ensures !r.acceptsMidi && !r.producesMidi
    ensures r.tailLengthSeconds == 0.0 && r.numPrograms == 0 && r.currentProgram == 0
    ensures !r.hasEditor
  {
    BaseTraits
  }

  //--------------------------------------------------------------------------
  // Preparation.

  const UInt32Range: int := 0x1_0000_0000

  /** `static_cast<juce::uint32>(x)` of an int: wraps modulo 2^32. */
  function ToUInt32(x: int): (r: nat)
    ensures r < UInt32Range
    ensures (x - r) % UInt32Range == 0
    ensures 0 <= x < UInt32Range ==> r == x
  {
    x % UInt32Range
  }

  /** juce::dsp::ProcessSpec. */
  datatype ProcessSpec = ProcessSpec(sampleRate: real, maximumBlockSize: nat, numChannels: nat)

  /** Every node prepares its DSP object for two channels, whatever the host runs. */
  const NodeChannels: nat := 2

  const FilterTypes: set<string> := {"peakFilter", "lowShelfFilter", "highShelfFilter"}

  /** An IIR coefficient design, with the gain still in decibels. */
  datatype Coefficients =
    | PeakFilter(sampleRate: real, frequency: real, q: real, gainDecibels: real)
    | LowShelf(sampleRate: real, frequency: real, q: real, gainDecibels: real)
    | HighShelf(sampleRate: real, frequency: real, q: real, gainDecibels: real)

  /** The filter type string that selects a design. */
  function DesignType(c: Coefficients): string
  {
    match c
    case PeakFilter(_, _, _, _) => "peakFilter"
    case LowShelf(_, _, _, _) => "lowShelfFilter"
    case HighShelf(_, _, _, _) => "highShelfFilter"
  }

  /**
   * The design FilterProcessor::prepareToPlay selects from its type string.
   * An unknown type selects no design: None, the null that line 81 of
   * PluginProcessor.h stores.
   */
  function DesignFor(filterType: string, sampleRate: real, frequency: real, q: real, gainFactor: real)
    : (r: Option<Coefficients>)
    ensures r.Some? <==> filterType in FilterTypes
    ensures r.Some? ==> DesignType(r.value) == filterType
    ensures r.Some? ==> r.value.sampleRate == sampleRate && r.value.frequency == frequency
    ensures r.Some? ==> r.value.q == q && r.value.gainDecibels == gainFactor
  {
    if filterType == "peakFilter" then Some(PeakFilter(sampleRate, frequency, q, gainFactor))
    else if filterType == "lowShelfFilter" then Some(LowShelf(sampleRate, frequency, q, gainFactor))
    else if filterType == "highShelfFilter" then Some(HighShelf(sampleRate, frequency, q, gainFactor))
    else None
  }

  /** juce::dsp::Reverb::Parameters as ReverbProcessor fills them in. */
  datatype ReverbParameters = ReverbParameters(
    roomSize: real, damping: real, wetLevel: real, dryLevel: real, width: real)

  /** The reverb parameters a ReverbProcessor binds: the dry level complements the wet level. */
  function ReverbSettings(p: EffectParams): (r: ReverbParameters)
    requires p.Reverb?
    ensures r.wetLevel + r.dryLevel == 1.0
    ensures r.roomSize == p.roomSize && r.damping == p.damping
    ensures r.wetLevel == p.wetLevel && r.width == p.width
  {
    ReverbParameters(p.roomSize, p.damping, p.wetLevel, 1.0 - p.wetLevel, p.width)
  }

  /** Running state of the wrapped DSP object: filter history, delay buffer, envelopes. */
  datatype DspState = Cleared | Running

  /** One effect node. Its parameters are bound by the constructor and never change. */
  class EffectNode {
    const params: EffectParams
    /** Only a ReverbProcessor holds these. */
    const reverbParameters: Option<ReverbParameters>
    /**
     * The spec the wrapped DSP object was last prepared with (the local
     * `spec` of prepareToPlay); None while Constructed. FilterProcessor's
     * member `spec` is never assigned and is not modelled.
     */
    var preparedSpec: Option<ProcessSpec>
    /**
     * The filter's coefficients; only a FilterProcessor ever assigns them.
     * None stands for the pass-through coefficients a JUCE IIR filter is
     * constructed with; preparing never leaves them None (see PrepareToPlay).
     */
    var coefficients: Option<Coefficients>
    var state: DspState

    constructor (p: EffectParams)
      ensures params == p
      ensures reverbParameters == if p.Reverb? then Some(ReverbSettings(p)) else None
      ensures preparedSpec == None && coefficients == None && state == Cleared
    {
      params := p;
      reverbParameters := if p.Reverb? then Some(ReverbSettings(p)) else None;
      preparedSpec := None;
      coefficients := None;
      state := Cleared;
    }

    predicate Prepared()
      reads this
    {
      preparedSpec.Some?
    }

    /**
     * `prepareToPlay(sampleRate, samplesPerBlock)`: a two-channel spec from the
     * host's rate and block size; a filter also (re)selects its design.
     * Preparing the wrapped DSP object clears its running state.
     *
     * A filter whose type selects no design hands null coefficients to
     * `filter.prepare`, which dereferences it: the source crashes there, so
     * such a filter is excluded. processText never builds one.
     */
    method PrepareToPlay(sampleRate: real, samplesPerBlock: int)
      requires params.Filter? ==> params.filterType in FilterTypes
      modifies this`preparedSpec, this`coefficients, this`state
      ensures Prepared()
      ensures state == Cleared
      ensures preparedSpec == Some(ProcessSpec(sampleRate, ToUInt32(samplesPerBlock), NodeChannels))
      ensures params.Filter? ==>
                coefficients == DesignFor(params.filterType, sampleRate, params.frequency, params.q, params.gainFactor)
      ensures !params.Filter? ==> coefficients == old(coefficients)
    {
      var s := ProcessSpec(sampleRate, ToUInt32(samplesPerBlock), NodeChannels);
      if params.Filter? {
        coefficients := DesignFor(params.filterType, s.sampleRate, params.frequency, params.q, params.gainFactor);
      }
      preparedSpec := Some(s);
      state := Cleared;
    }

    /** `processBlock`: runs the wrapped DSP object over a block (the samples are opaque). */
    method ProcessBlock()
      modifies this`state
      ensures state == Running
    {
      state := Running;
    }

    /** `reset()`: clears the wrapped DSP object's running state and nothing else. */
    method Reset()
      modifies this`state
      ensures state == Cleared
    {
      state := Cleared;
    }
  }
}
