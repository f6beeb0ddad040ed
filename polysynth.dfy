/** `ConduitPolysynth`: the fixed pool of voices, the answers the plugin gives the host about
    its ports and polyphony, and the bundle it shares with its editor. */
module Polysynth {
  import opened PolysynthTypes
  import opened UIBridge

  /** `max_voices`: the size of the voice pool. */
  const MaxVoices: nat := 64

  /** The oscillator, envelope and filter state of a voice, defined in a file that is not
      part of this model. */
  type VoiceState(==, 0)

  /** One `SawDemoVoice`, held by value in the pool. Only its sample rate is visible here. */
  datatype SawDemoVoice = SawDemoVoice(sampleRate: real, state: VoiceState)

  /** The pool `vs` with `sampleRate` stamped onto every voice. */
  function Stamped(vs: seq<SawDemoVoice>, sampleRate: real): (r: seq<SawDemoVoice>)
    ensures |r| == |vs|
  {
    if vs == [] then [] else [vs[0].(sampleRate := sampleRate)] + Stamped(vs[1..], sampleRate)
  }

  /** Stamping keeps the pool's size and changes each voice's sample rate and nothing else. */
  lemma {:induction false} StampedAt(vs: seq<SawDemoVoice>, sampleRate: real, k: nat)
    requires k < |vs|
    ensures |Stamped(vs, sampleRate)| == |vs|
    ensures Stamped(vs, sampleRate)[k] == vs[k].(sampleRate := sampleRate)
  {
    if k > 0 {
      StampedAt(vs[1..], sampleRate, k - 1);
    } else if |vs| > 1 {
      StampedAt(vs[1..], sampleRate, 0);
    }
  }

  /** After stamping, every voice runs at the stamped rate and keeps its own state. */
  lemma StampedUniform(vs: seq<SawDemoVoice>, sampleRate: real)
    ensures |Stamped(vs, sampleRate)| == |vs|
    ensures forall k :: 0 <= k < |vs| ==> Stamped(vs, sampleRate)[k].sampleRate == sampleRate
    ensures forall k :: 0 <= k < |vs| ==> Stamped(vs, sampleRate)[k].state == vs[k].state
  {
  }

  /** Activating again replaces the earlier rate: the pool is as if activated only with the
      last rate. */
  lemma RestampOverrides(vs: seq<SawDemoVoice>, first: real, second: real)
    ensures Stamped(Stamped(vs, first), second) == Stamped(vs, second)
  {
  }

  /** The kinds of port a CLAP plugin can declare. */
  datatype PortKind = AudioPort | NotePort
  datatype PortDecl = PortDecl(kind: PortKind, isInput: bool)

  /** The ports this synth declares: one stereo audio output and one note input. */
  const DeclaredPorts: seq<PortDecl> := [PortDecl(AudioPort, false), PortDecl(NotePort, true)]

  /** The number of ports of `kind` in direction `isInput` among `ports`. */
  function CountPorts(ports: seq<PortDecl>, kind: PortKind, isInput: bool): nat {
    if ports == [] then 0
    else (if ports[0].kind == kind && ports[0].isInput == isInput then 1 else 0)
         + CountPorts(ports[1..], kind, isInput)
  }

  /** `audioPortsCount`: no audio inputs, one audio output. */
  function AudioPortsCount(isInput: bool): (r: uint32)
    ensures r as int == CountPorts(DeclaredPorts, AudioPort, isInput)
  {
    assert DeclaredPorts[1..][1..] == [];
    if isInput then 0 else 1
  }

  /** `notePortsCount`: one note input, no note outputs. */
  function NotePortsCount(isInput: bool): (r: uint32)
    ensures r as int == CountPorts(DeclaredPorts, NotePort, isInput)
  {
    assert DeclaredPorts[1..][1..] == [];
    if isInput then 1 else 0
  }

  /** `clap_voice_info`, with its one flag as a boolean. */
  datatype VoiceInfo = VoiceInfo(voiceCount: uint32, voiceCapacity: uint32, supportsOverlappingNotes: bool)

  /** `ConduitPolysynth`. The parameter description map is filled by the constructor, whose
      body is not part of this model, and never changes afterwards; it is a constructor
      argument here. */
  class ConduitPolysynth {
    const voices: array<SawDemoVoice>
    const paramDescriptionMap: map<uint32, ParamDesc>
    var uiComms: UICommunicationBundle?

    /** The pool has exactly `max_voices` voices and the bundle refers back to this synth.
        The bundle is made once the synth exists, hence the nullable field. */
    ghost predicate Valid()
      reads this
    {
      voices.Length == MaxVoices && uiComms != null && uiComms.cp == this
    }

    constructor (descriptions: map<uint32, ParamDesc>)
      ensures Valid()
      ensures fresh(voices) && fresh(uiComms) && fresh(uiComms.dataCopyForUI)
      ensures paramDescriptionMap == descriptions
      ensures uiComms.dataCopyForUI.Snapshot() == InitialStatus
    {
      voices := new SawDemoVoice[MaxVoices];
      paramDescriptionMap := descriptions;
      uiComms := null;
      new;
      uiComms := new UICommunicationBundle(this);
    }

    /** `activate`: stamps the sample rate onto every pre-allocated voice, ignores both
        frame counts and reports success. Nothing else changes. */
    method Activate(sampleRate: real, minFrameCount: uint32, maxFrameCount: uint32) returns (ok: bool)
      requires Valid()
      modifies voices
      ensures Valid() && ok
      ensures voices[..] == Stamped(old(voices[..]), sampleRate)
      ensures forall k :: 0 <= k < voices.Length ==> voices[k].sampleRate == sampleRate
      ensures unchanged(uiComms.dataCopyForUI)
    {
      var i := 0;
      while i < voices.Length
        invariant 0 <= i <= voices.Length
        invariant forall k :: 0 <= k < i ==> voices[k] == old(voices[k]).(sampleRate := sampleRate)
        invariant forall k :: i <= k < voices.Length ==> voices[k] == old(voices[k])
      {
        voices[i] := voices[i].(sampleRate := sampleRate);
        i := i + 1;
      }
      ghost var before := old(voices[..]);
      StampedUniform(before, sampleRate);
      forall k | 0 <= k < voices.Length
        ensures voices[..][k] == Stamped(before, sampleRate)[k]
      {
        StampedAt(before, sampleRate, k);
      }
      ok := true;
    }

    /** `startProcessing`: marks the status as processing and bumps its counter. */
    method StartProcessing() returns (ok: bool)
      requires Valid()
      modifies uiComms.dataCopyForUI
      ensures Valid() && ok
      ensures uiComms.dataCopyForUI.Snapshot() == Started(old(uiComms.dataCopyForUI.Snapshot()))
      ensures unchanged(voices)
    {
      uiComms.dataCopyForUI.isProcessing := true;
      uiComms.dataCopyForUI.updateCount := Inc32(uiComms.dataCopyForUI.updateCount);
      ok := true;
    }

    /** `stopProcessing`: marks the status as not processing and bumps its counter. */
    method StopProcessing()
      requires Valid()
      modifies uiComms.dataCopyForUI
      ensures Valid()
      ensures uiComms.dataCopyForUI.Snapshot() == Stopped(old(uiComms.dataCopyForUI.Snapshot()))
      ensures unchanged(voices)
    {
      uiComms.dataCopyForUI.isProcessing := false;
      uiComms.dataCopyForUI.updateCount := Inc32(uiComms.dataCopyForUI.updateCount);
    }

    /** `voiceInfoGet`: advertises the whole pool as both count and capacity, with
        overlapping notes supported, and reports success. */
    function VoiceInfoGet(): (r: (bool, VoiceInfo))
      requires Valid()
      reads this
      ensures r.0
      ensures r.1.voiceCapacity as int == r.1.voiceCount as int == voices.Length
      ensures r.1.supportsOverlappingNotes
    {
      (true, VoiceInfo(MaxVoices as uint32, MaxVoices as uint32, true))
    }
  }

  /** `UICommunicationBundle`: the state the synth shares with its editor. The two message
      queues are not part of this model. */
  class UICommunicationBundle {
    const cp: ConduitPolysynth
    const dataCopyForUI: DataCopyForUI

    constructor (h: ConduitPolysynth)
      ensures cp == h && fresh(dataCopyForUI)
      ensures dataCopyForUI.Snapshot() == InitialStatus
    {
      cp := h;
      dataCopyForUI := new DataCopyForUI();
    }

    /** `getParameterDescription`: the stored description of `id`, or the default one when
        `id` has none. Never fails and changes nothing. */
    function GetParameterDescription(id: uint32): (d: ParamDesc)
      ensures id in cp.paramDescriptionMap ==> d == cp.paramDescriptionMap[id]
      ensures id !in cp.paramDescriptionMap ==> d == DefaultParamDesc
    {
      if id !in cp.paramDescriptionMap then DefaultParamDesc else cp.paramDescriptionMap[id]
    }
  }

  /** When no stored description equals the default one, the answer tells a known id from an
      unknown one. */
  lemma DescriptionDistinguishesUnknown(b: UICommunicationBundle, id: uint32)
    requires DefaultParamDesc !in b.cp.paramDescriptionMap.Values
    ensures b.GetParameterDescription(id) == DefaultParamDesc <==> id !in b.cp.paramDescriptionMap
  {
  }
}
