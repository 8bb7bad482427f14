/**
 * How processText turns one entry of the `effects` array into a node: the
 * entry's `type` string picks one of eight node kinds, and each kind reads
 * its own named parameters from the entry. Over the whole array, entries
 * that are not objects are skipped and the first object with an unknown
 * type stops the rewiring. "Object" means what `isObject()` accepts, arrays
 * included; an array entry reads its `type` as "" and so is of unknown type.
 */
module Dispatch {
  import opened Wrappers
  import opened Json
  import opened EffectNodes

  /** The eight type strings processText recognises. */
  const EffectTypes: set<string> := FilterTypes + {"reverb", "compressor", "delayLine", "phaser", "chorus"}

  /** The type string an entry must carry to produce a node with these parameters. */
  function TypeName(p: EffectParams): string
  {
    match p
    case Filter(filterType, _, _, _) => filterType
    case Reverb(_, _, _, _) => "reverb"
    case Compressor(_, _, _, _) => "compressor"
    case DelayLine(_, _) => "delayLine"
    case Phaser(_, _, _, _, _) => "phaser"
    case Chorus(_, _, _, _, _) => "chorus"
  }

  /** `(float) entry[key]`. */
  function Param(entry: Json, key: string): real
  {
    ToFloat(Get(entry, key))
  }

  /** The kind and parameters of the node processText adds for an object entry, or the unknown type name. */
  function ParseEffect(entry: Json): (r: Result<EffectParams, string>)
    ensures r.Ok? <==> ToText(Get(entry, "type")) in EffectTypes
    ensures r.Ok? ==> TypeName(r.value) == ToText(Get(entry, "type"))
    ensures r.Err? ==> r.error == ToText(Get(entry, "type"))
  {
    var name := ToText(Get(entry, "type"));
    if name == "peakFilter" then
      Ok(Filter("peakFilter", Param(entry, "centreFrequency"), Param(entry, "Q"), Param(entry, "gainFactor")))
    else if name == "lowShelfFilter" then
      Ok(Filter("lowShelfFilter", Param(entry, "cutOffFrequency"), Param(entry, "Q"), Param(entry, "gainFactor")))
    else if name == "highShelfFilter" then
      Ok(Filter("highShelfFilter", Param(entry, "cutOffFrequency"), Param(entry, "Q"), Param(entry, "gainFactor")))
    else if name == "reverb" then
      Ok(Reverb(Param(entry, "roomSize"), Param(entry, "damping"), Param(entry, "wetLevel"), Param(entry, "width")))
    else if name == "compressor" then
      Ok(Compressor(Param(entry, "threshold"), Param(entry, "ratio"), Param(entry, "attack"), Param(entry, "release")))
    else if name == "delayLine" then
      Ok(DelayLine(Param(entry, "delay"), Param(entry, "maximumDelayInSamples")))
    else if name == "phaser" then
      Ok(Phaser(Param(entry, "rate"), Param(entry, "depth"), Param(entry, "centerFrequency"),
                Param(entry, "feedback"), Param(entry, "mix")))
    else if name == "chorus" then
      Ok(Chorus(Param(entry, "rate"), Param(entry, "depth"), Param(entry, "centreDelay"),
                Param(entry, "feedback"), Param(entry, "mix")))
    else
      Err(name)
  }

  /** An array entry passes the object test but carries no `type`: it is of unknown type "". */
  lemma ArrayEntryIsUnknown(items: seq<Json>)
    ensures IsObject(Arr(items))
    ensures ParseEffect(Arr(items)) == Err("")
  {
  }

  /** A number leaf; its text rendering is left empty because ParseEffect reads only the numeric value. */
  function Number(x: real): Json
  {
    Num(x, "")
  }

  /**
   * The effect entry that describes a node: its type string and, under the
   * names processText reads for that kind, its parameters.
   */
  function Encode(p: EffectParams): Json
  {
    var kind := Str(TypeName(p), 0.0);
    match p
    case Filter(filterType, frequency, q, gainFactor) =>
      var frequencyKey := if filterType == "peakFilter" then "centreFrequency" else "cutOffFrequency";
      Obj(map["type" := kind, frequencyKey := Number(frequency), "Q" := Number(q),
              "gainFactor" := Number(gainFactor)])
    case Reverb(roomSize, damping, wetLevel, width) =>
      Obj(map["type" := kind, "roomSize" := Number(roomSize), "damping" := Number(damping),
              "wetLevel" := Number(wetLevel), "width" := Number(width)])
    case Compressor(threshold, ratio, attack, release) =>
      Obj(map["type" := kind, "threshold" := Number(threshold), "ratio" := Number(ratio),
              "attack" := Number(attack), "release" := Number(release)])
    case DelayLine(delayTime, maximumDelayInSamples) =>
      Obj(map["type" := kind, "delay" := Number(delayTime),
              "maximumDelayInSamples" := Number(maximumDelayInSamples)])
    case Phaser(rate, depth, centreFrequency, feedback, mix) =>
      Obj(map["type" := kind, "rate" := Number(rate), "depth" := Number(depth),
              "centerFrequency" := Number(centreFrequency), "feedback" := Number(feedback), "mix" := Number(mix)])
    case Chorus(rate, depth, centreDelay, feedback, mix) =>
      Obj(map["type" := kind, "rate" := Number(rate), "depth" := Number(depth),
              "centreDelay" := Number(centreDelay), "feedback" := Number(feedback), "mix" := Number(mix)])
  }

  /** ParseEncode for the three filter kinds. */
  lemma ParseEncodeFilter(p: EffectParams)
    requires p.Filter? && p.filterType in FilterTypes
    ensures ParseEffect(Encode(p)) == Ok(p)
  {
    var e := Encode(p);
    assert ToText(Get(e, "type")) == p.filterType;
    var key := if p.filterType == "peakFilter" then "centreFrequency" else "cutOffFrequency";
    assert Param(e, key) == p.frequency;
    assert Param(e, "Q") == p.q && Param(e, "gainFactor") == p.gainFactor;
  }

  /** ParseEncode for reverb and compressor nodes. */
  lemma ParseEncodeDynamics(p: EffectParams)
    requires p.Reverb? || p.Compressor?
    ensures ParseEffect(Encode(p)) == Ok(p)
  {
    var e := Encode(p);
    assert ToText(Get(e, "type")) == TypeName(p);
    match p
    case Reverb(roomSize, damping, wetLevel, width) =>
      assert Param(e, "roomSize") == roomSize && Param(e, "damping") == damping;
      assert Param(e, "wetLevel") == wetLevel && Param(e, "width") == width;
    case Compressor(threshold, ratio, attack, release) =>
      assert Param(e, "threshold") == threshold && Param(e, "ratio") == ratio;
      assert Param(e, "attack") == attack && Param(e, "release") == release;
  }

  /** ParseEncode for delay line, phaser and chorus nodes. */
  lemma ParseEncodeModulation(p: EffectParams)
    requires p.DelayLine? || p.Phaser? || p.Chorus?
    ensures ParseEffect(Encode(p)) == Ok(p)
  {
    var e := Encode(p);
    assert ToText(Get(e, "type")) == TypeName(p);
    match p
    case DelayLine(delayTime, maximumDelayInSamples) =>
      assert Param(e, "delay") == delayTime && Param(e, "maximumDelayInSamples") == maximumDelayInSamples;
    case Phaser(rate, depth, centreFrequency, feedback, mix) =>
      assert Param(e, "rate") == rate && Param(e, "depth") == depth;
      assert Param(e, "centerFrequency") == centreFrequency;
      assert Param(e, "feedback") == feedback && Param(e, "mix") == mix;
    case Chorus(rate, depth, centreDelay, feedback, mix) =>
      assert Param(e, "rate") == rate && Param(e, "depth") == depth;
      assert Param(e, "centreDelay") == centreDelay;
      assert Param(e, "feedback") == feedback && Param(e, "mix") == mix;
  }

  /**
   * Every node a recognised entry can describe is rebuilt exactly from its
   * entry: each kind reads back the very parameters the entry carries.
   */
  lemma ParseEncode(p: EffectParams)
    requires p.Filter? ==> p.filterType in FilterTypes
    ensures ParseEffect(Encode(p)) == Ok(p)
  {
    if p.Filter? {
      ParseEncodeFilter(p);
    } else if p.Reverb? || p.Compressor? {
      ParseEncodeDynamics(p);
    } else {
      ParseEncodeModulation(p);
    }
  }

  /** A filter built by the dispatch always has a coefficient design once prepared. */
  lemma DispatchedFilterHasDesign(entry: Json, sampleRate: real)
    requires ParseEffect(entry).Ok? && ParseEffect(entry).value.Filter?
    ensures var p := ParseEffect(entry).value;
            DesignFor(p.filterType, sampleRate, p.frequency, p.q, p.gainFactor).Some?
  {
    var p := ParseEffect(entry).value;
    assert p.filterType == TypeName(p);
  }

  //--------------------------------------------------------------------------
  // The whole `effects` array.

  /** The first object entry of unknown type: its position in the array and its type string. */
  datatype ChainError = UnknownEffectType(index: nat, name: string)

  /**
   * One turn of processText's loop over the array: a non-object entry is
   * skipped, an object entry of known type adds its parameters, and the first
   * object entry of unknown type (at `index`) ends the chain.
   */
  function ChainStep(prev: Result<seq<EffectParams>, ChainError>, index: nat, entry: Json)
    : Result<seq<EffectParams>, ChainError>
  {
    match prev
    case Err(e) => Err(e)
    case Ok(ps) =>
      if !IsObject(entry) then Ok(ps)
      else
        match ParseEffect(entry)
        case Ok(p) => Ok(ps + [p])
        case Err(name) => Err(UnknownEffectType(index, name))
  }

  /**
   * The node parameters a rewiring adds, one per object entry in array order,
   * or the first object entry whose type is unknown.
   */
  function ChainSpec(effects: seq<Json>): (r: Result<seq<EffectParams>, ChainError>)
    ensures r.Err? ==> r.error.index < |effects|
    decreases |effects|
  {
    if effects == [] then Ok([])
    else
      var n := |effects| - 1;
      ChainStep(ChainSpec(effects[..n]), n, effects[n])
  }

  /** The chain of a prefix one entry longer is one more turn of the loop. */
  lemma ChainSpecPrefix(effects: seq<Json>, i: nat)
    requires i < |effects|
    ensures ChainSpec(effects[..i + 1]) == ChainStep(ChainSpec(effects[..i]), i, effects[i])
  {
    assert effects[..i + 1][..i] == effects[..i];
  }

  /** The rewiring completes exactly when every object entry has a known type. */
  lemma {:induction false} ChainSpecOkIff(effects: seq<Json>)
    ensures ChainSpec(effects).Ok? <==> forall i | 0 <= i < |effects| && IsObject(effects[i]) :: ParseEffect(effects[i]).Ok?
    decreases |effects|
  {
    if effects != [] {
      var n := |effects| - 1;
      var front := effects[..n];
      ChainSpecOkIff(front);
      assert forall k | 0 <= k < n :: front[k] == effects[k];
    }
  }

  /** A completed rewiring adds one node per object entry, with that entry's parameters, in array order. */
  lemma {:induction false} ChainSpecValues(effects: seq<Json>)
    requires ChainSpec(effects).Ok?
    ensures |ChainSpec(effects).value| == |ObjectEntries(effects)|
    ensures forall j | 0 <= j < |ObjectEntries(effects)| ::
              ParseEffect(ObjectEntries(effects)[j]) == Ok(ChainSpec(effects).value[j])
    decreases |effects|
  {
    if effects != [] {
      var n := |effects| - 1;
      ChainSpecValues(effects[..n]);
    }
  }

  /**
   * A rewiring that stops does so at an object entry of unknown type, whose
   * type string it reports, and every object entry before it has a known type.
   */
  lemma {:induction false} ChainSpecError(effects: seq<Json>)
    requires ChainSpec(effects).Err?
    ensures var e := ChainSpec(effects).error;
            && IsObject(effects[e.index])
            && ParseEffect(effects[e.index]) == Err(e.name)
            && forall k | 0 <= k < e.index && IsObject(effects[k]) :: ParseEffect(effects[k]).Ok?
    decreases |effects|
  {
    var n := |effects| - 1;
    var front := effects[..n];
    if ChainSpec(front).Err? {
      ChainSpecError(front);
      assert forall k | 0 <= k < n :: front[k] == effects[k];
    } else {
      ChainSpecOkIff(front);
      assert forall k | 0 <= k < n :: front[k] == effects[k];
    }
  }

  /** Once a prefix of the array fails, the whole array fails the same way. */
  lemma {:induction false} ChainSpecStopsAtError(effects: seq<Json>, i: nat)
    requires i <= |effects| && ChainSpec(effects[..i]).Err?
    ensures ChainSpec(effects) == ChainSpec(effects[..i])
    decreases |effects|
  {
    if i < |effects| {
      var n := |effects| - 1;
      assert effects[..n][..i] == effects[..i];
      ChainSpecStopsAtError(effects[..n], i);
    } else {
      assert effects[..i] == effects;
    }
  }
}
