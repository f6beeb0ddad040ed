/** Value types of the polysynth: fixed-width integers, parameter identifiers and their
    descriptions, and the two message records that cross the audio/UI bridge. */
module PolysynthTypes {

  newtype uint32 = x: int | 0 <= x < 0x1_0000_0000
  newtype int32 = x: int | -0x8000_0000 <= x < 0x8000_0000

  datatype Option<T> = None | Some(value: T)

  /** The number of parameters the plugin advertises (the `nParams` template argument). */
  const NParams: nat := 10

  /** The `paramIds` enumeration. Each parameter has an arbitrary, stable numeric id so that
      a creation index is never mistaken for an id. */
  datatype ParamId =
    | UnisonCount | UnisonSpread | OscDetune
    | AmpAttack | AmpRelease | AmpIsGate
    | PreFilterVCA
    | Cutoff | Resonance | FilterMode

  /** The numeric value of each enumerator. */
  function ParamCode(p: ParamId): uint32 {
    match p
    case UnisonCount => 1378
    case UnisonSpread => 2391
    case OscDetune => 8675309
    case AmpAttack => 2874
    case AmpRelease => 728
    case AmpIsGate => 1942
    case PreFilterVCA => 87612
    case Cutoff => 17
    case Resonance => 94
    case FilterMode => 14255
  }

  /** Recognises a numeric id as one of the enumerators: the inverse of ParamCode, so no two
      enumerators share a value. */
  function ParamIdOfCode(c: uint32): (r: Option<ParamId>)
    ensures r.Some? ==> ParamCode(r.value) == c
    ensures r.None? ==> forall p: ParamId :: ParamCode(p) != c
  {
    if c == 1378 then Some(UnisonCount)
    else if c == 2391 then Some(UnisonSpread)
    else if c == 8675309 then Some(OscDetune)
    else if c == 2874 then Some(AmpAttack)
    else if c == 728 then Some(AmpRelease)
    else if c == 1942 then Some(AmpIsGate)
    else if c == 87612 then Some(PreFilterVCA)
    else if c == 17 then Some(Cutoff)
    else if c == 94 then Some(Resonance)
    else if c == 14255 then Some(FilterMode)
    else None
  }

  /** Every enumerator once: there are exactly NParams of them and their codes are pairwise
      distinct. */
  function AllParamIds(): (ps: seq<ParamId>)
    ensures |ps| == NParams
    ensures forall i, j :: 0 <= i < j < |ps| ==> ParamCode(ps[i]) != ParamCode(ps[j])
  {
    [UnisonCount, UnisonSpread, OscDetune, AmpAttack, AmpRelease, AmpIsGate,
     PreFilterVCA, Cutoff, Resonance, FilterMode]
  }

  /** No enumerator is missing from AllParamIds. */
  lemma AllParamIdsComplete(p: ParamId)
    ensures p in AllParamIds()
  {
  }

  /** Decoding the code of an enumerator gives the enumerator back. */
  lemma ParamCodeRoundTrip(p: ParamId)
    ensures ParamIdOfCode(ParamCode(p)) == Some(p)
  {
  }

  /** Metadata of one parameter. The record belongs to a library that is not part of this
      model, so its fields are left unspecified. */
  type ParamDesc(==, 0)

  /** The default-constructed description, returned for an unknown id. */
  const DefaultParamDesc: ParamDesc

  /** `ToUI::MType`: kinds of message sent from the audio thread to the editor. */
  datatype ToUIType = ParamValue | MidiNoteOn | MidiNoteOff

  /** The numeric value of each kind: the enumeration starts at 0x31 and the other two kinds
      follow it. */
  function ToUICode(t: ToUIType): (c: int)
    ensures 0x31 <= c <= 0x33
  {
    match t
    case ParamValue => 0x31
    case MidiNoteOn => 0x32
    case MidiNoteOff => 0x33
  }

  /** The inverse of ToUICode: the three kinds have three distinct codes, 0x31 to 0x33. */
  function ToUITypeOfCode(c: int): (r: Option<ToUIType>)
    ensures r.Some? ==> ToUICode(r.value) == c
    ensures r.None? ==> forall t: ToUIType :: ToUICode(t) != c
    ensures r.Some? <==> 0x31 <= c <= 0x33
  {
    if c == 0x31 then Some(ParamValue)
    else if c == 0x32 then Some(MidiNoteOn)
    else if c == 0x33 then Some(MidiNoteOff)
    else None
  }

  /** `FromUI::MType`: kinds of message sent from the editor to the audio thread. */
  datatype FromUIType = BeginEdit | EndEdit | AdjustValue

  /** The numeric value of each kind: the enumeration starts at 0xF9 and the other two kinds
      follow it. */
  function FromUICode(t: FromUIType): (c: int)
    ensures 0xF9 <= c <= 0xFB
  {
    match t
    case BeginEdit => 0xF9
    case EndEdit => 0xFA
    case AdjustValue => 0xFB
  }

  /** The inverse of FromUICode: the three kinds have three distinct codes, 0xF9 to 0xFB. */
  function FromUITypeOfCode(c: int): (r: Option<FromUIType>)
    ensures r.Some? ==> FromUICode(r.value) == c
    ensures r.None? ==> forall t: FromUIType :: FromUICode(t) != c
    ensures r.Some? <==> 0xF9 <= c <= 0xFB
  {
    if c == 0xF9 then Some(BeginEdit)
    else if c == 0xFA then Some(EndEdit)
    else if c == 0xFB then Some(AdjustValue)
    else None
  }

  /** Decoding the code of a kind gives the kind back, so the three codes are distinct. */
  lemma ToUICodeRoundTrip(t: ToUIType)
    ensures ToUITypeOfCode(ToUICode(t)) == Some(t)
  {
  }

  /** Decoding the code of a kind gives the kind back, so the three codes are distinct. */
  lemma FromUICodeRoundTrip(t: FromUIType)
    ensures FromUITypeOfCode(FromUICode(t)) == Some(t)
  {
  }

  /** A message from the audio thread: `id` is a parameter id for ParamValue and a key for the
      note messages; `value` is unused by the note messages. */
  datatype ToUI = ToUI(mtype: ToUIType, id: uint32, value: real)

  /** A message from the editor. */
  datatype FromUI = FromUI(mtype: FromUIType, id: uint32, value: real)
}
