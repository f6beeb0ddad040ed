# ConduitPolysynth: voice pool, processing status and host answers

This project models the parts of the `ConduitPolysynth` CLAP synthesizer whose behaviour is
written out in its header `src/polysynth/polysynth.h`:

- the fixed pool of `max_voices` = 64 voices and `activate`, which stamps the host's sample rate
  onto every voice;
- the status record `DataCopyForUI` (update counter, processing flag, polyphony) that the audio
  side shares with the editor, and `startProcessing` / `stopProcessing`, which update it;
- the parameter-description lookup of `UICommunicationBundle`, which falls back to a
  default-constructed description for an unknown id;
- the fixed answers to the host: audio and note port counts and the voice-info report;
- the constant tables: the ten `paramIds` values, and the message-type codes of the `ToUI`
  and `FromUI` bridge records.

Files:

- `polysynth_types.dfy` (module `PolysynthTypes`): `uint32` / `int32`, the parameter ids and
  their codes, `ParamDesc`, and the two message records with their type codes.
- `ui_bridge.dfy` (module `UIBridge`): the wrapping 32-bit increment, the status value and the
  functions `Started` / `Stopped` that specify the two processing calls, a run of such calls,
  and the `DataCopyForUI` class.
- `polysynth.dfy` (module `Polysynth`): the voice record, the `Stamped` specification of
  `activate`, the port and voice-info answers, and the `ConduitPolysynth` and
  `UICommunicationBundle` classes.

Modelling choices:

- `voices` is a `std::array` of voice structs held by value. It becomes an
  `array<SawDemoVoice>` of datatype values, so stamping a rate replaces each element with a
  copy whose `sampleRate` differs. The rest of a voice is defined in `saw-voice.h`, which is not
  part of this model; it is the opaque type `VoiceState`, which `activate` provably leaves alone.
- `updateCount` is a `uint32_t`. `Inc32` writes the wrap-around out, and every statement about
  the counter is made modulo 2^32.
- The three `DataCopyForUI` fields are atomics in the program. Here they are plain fields of a
  class, updated one after the other as the source does.
- The description map lives in the base class and is filled by the constructor. Neither is
  part of this model, so the map is a constructor argument and a `const` field.
  `UICommunicationBundle` keeps its reference back to the synth (`cp`) and reads the map
  through it.
- `ParamDesc` stands for the metadata record of a library that is not part of this model, so it
  is an opaque type. Its default-constructed value is the constant `DefaultParamDesc`, whose
  contents are left unspecified.
- `clap_voice_info.flags` holds exactly one flag, so it is a boolean here.
- The port lists of `audioPortsInfo` / `notePortsInfo` are not in the header. The comment at
  lines 123-126 describes them: a single audio output and a single note input. That list is
  `DeclaredPorts`, and both port-count answers are proved to count it.
- Floating-point values (the voices' `sampleRate`, the `value` of both message records) are
  modelled as reals. They are only stored and compared, never computed with.
- The header's comments disagree about a 65th voice. Lines 28-30 say nothing happens, and
  line 286 says a voice is killed at random. The allocation code is not in the header, so no
  policy is modelled.
- `getParameterDescription` returns a default-constructed `ParamDesc`, not an optional value.
  The "todo make this std optional" at line 260 notes this.
- In the header, only `startProcessing` and `stopProcessing` bump `updateCount`.
- Data types without a row of their own:
  - `ToUI` and `FromUI` model the message records at lines 218-241.
  - `InitialStatus` holds the field initialisers at lines 245-247. The row for
    `UIBridge.DataCopyForUI.constructor` states it.
  - `ParamCode` gives each enumerator its value from lines 104-116. The rows for
    `ParamIdOfCode` and `ParamCodeRoundTrip` state it.

## Model

| member | source | states |
|---|---|---|
| `PolysynthTypes.ParamIdOfCode` | src/polysynth/polysynth.h:102-117 | recognises a numeric id as an enumerator; it is the inverse of the code table, so no two of the ten parameters share an id, and an id it rejects belongs to no parameter |
| `PolysynthTypes.AllParamIds` | src/polysynth/polysynth.h:102-117 | the enumeration has exactly `nParams` = 10 members, and their codes are pairwise distinct |
| `PolysynthTypes.AllParamIdsComplete` | src/polysynth/polysynth.h:102-117 | every parameter id appears in that list of ten |
| `PolysynthTypes.ParamCodeRoundTrip` | src/polysynth/polysynth.h:102-117 | decoding a parameter's code gives the same parameter back |
| `PolysynthTypes.ToUICode` | src/polysynth/polysynth.h:220-225 | `PARAM_VALUE` is 0x31, and the two note kinds follow it, so every code lies in 0x31-0x33 |
| `PolysynthTypes.ToUICodeRoundTrip` | src/polysynth/polysynth.h:220-225 | decoding the code of an audio-to-editor message kind gives the same kind back |
| `PolysynthTypes.FromUICode` | src/polysynth/polysynth.h:233-238 | `BEGIN_EDIT` is 0xF9, and the other two kinds follow it, so every code lies in 0xF9-0xFB |
| `PolysynthTypes.FromUICodeRoundTrip` | src/polysynth/polysynth.h:233-238 | decoding the code of an editor-to-audio message kind gives the same kind back |
| `PolysynthTypes.ToUITypeOfCode` | src/polysynth/polysynth.h:220-225 | the three audio-to-editor message kinds have the distinct codes 0x31, 0x32, 0x33 and no others |
| `PolysynthTypes.FromUITypeOfCode` | src/polysynth/polysynth.h:233-238 | the three editor-to-audio message kinds have the distinct codes 0xF9, 0xFA, 0xFB and no others |
| `UIBridge.Inc32` | src/polysynth/polysynth.h:245 | incrementing the 32-bit counter gives (old + 1) mod 2^32, which always differs from the old value |
| `UIBridge.Started` | src/polysynth/polysynth.h:189-194 | after a start the status is processing, the counter is one higher mod 2^32, and polyphony is unchanged |
| `UIBridge.Stopped` | src/polysynth/polysynth.h:195-199 | after a stop the status is not processing, the counter is one higher mod 2^32, and polyphony is unchanged |
| `UIBridge.StartThenStop` | src/polysynth/polysynth.h:189-199 | a start followed by a stop raises the counter by two mod 2^32, ends not processing, and keeps polyphony |
| `UIBridge.RunEffect` | src/polysynth/polysynth.h:189-199 | after any sequence of starts and stops, the counter has advanced by the number of calls mod 2^32, the flag is the one the last call set (or the old flag if there were no calls), and polyphony is unchanged |
| `UIBridge.RunCounterUnchangedIff` | src/polysynth/polysynth.h:189-199 | a sequence of starts and stops leaves the counter where it was if and only if the number of calls is a multiple of 2^32 |
| `UIBridge.DataCopyForUI.constructor` | src/polysynth/polysynth.h:243-248 | a fresh status record has counter 0, is not processing, and has polyphony 0 |
| `Polysynth.Stamped` | src/polysynth/polysynth.h:80-81 | the specification of the `activate` loop: a pool with the rate stamped onto every voice, of the same size as the old pool |
| `Polysynth.StampedAt` | src/polysynth/polysynth.h:77-83 | stamping a rate onto the pool keeps its size and changes only the sample rate of each voice |
| `Polysynth.StampedUniform` | src/polysynth/polysynth.h:77-83 | after stamping, every voice has the stamped rate and keeps its own state |
| `Polysynth.RestampOverrides` | src/polysynth/polysynth.h:72-83 | activating twice leaves the pool as if it had been activated once with the second rate |
| `Polysynth.AudioPortsCount` | src/polysynth/polysynth.h:129 | the answer is the number of declared audio ports in the asked direction: 0 inputs and 1 output |
| `Polysynth.NotePortsCount` | src/polysynth/polysynth.h:134 | the answer is the number of declared note ports in the asked direction: 1 input and 0 outputs |
| `Polysynth.ConduitPolysynth.constructor` | src/polysynth/polysynth.h:243-287 | a new synth has a pool of exactly 64 voices, a bundle that refers back to it, and the initial status record |
| `Polysynth.ConduitPolysynth.Activate` | src/polysynth/polysynth.h:77-83 | every one of the 64 voices gets the new sample rate and keeps its other state; both frame counts are ignored; the call returns true; the status record is unchanged |
| `Polysynth.ConduitPolysynth.StartProcessing` | src/polysynth/polysynth.h:189-194 | the status record becomes `Started` of its old value, the call returns true, and the voices are unchanged |
| `Polysynth.ConduitPolysynth.StopProcessing` | src/polysynth/polysynth.h:195-199 | the status record becomes `Stopped` of its old value, and the voices are unchanged |
| `Polysynth.ConduitPolysynth.VoiceInfoGet` | src/polysynth/polysynth.h:145-151 | the voice count and the voice capacity both equal the size of the voice pool (64), overlapping notes are supported, and the call returns true |
| `Polysynth.UICommunicationBundle.constructor` | src/polysynth/polysynth.h:250-258 | the bundle refers to its synth and starts with the initial status record |
| `Polysynth.UICommunicationBundle.GetParameterDescription` | src/polysynth/polysynth.h:261-270 | a stored id gives its stored description; any other id gives the default description; the lookup never fails and reads only the map |
| `Polysynth.DescriptionDistinguishesUnknown` | src/polysynth/polysynth.h:261-270 | if no stored description equals the default one, the lookup returns the default exactly when the id is unknown |

## Left out

- `process`, `handleInboundEvent`, `pushParamsToVoices`, `handleNoteOn`, `handleNoteOff`, `activateVoice` and `handleEventsFromUIQueue` are only declared in the header. Their bodies are not part of this model, so voice allocation, stealing, rendering and `terminatedVoices` are not modelled.
- `scaleTimeParamToSeconds` is only declared, and it is floating-point numerics.
- `stateSave` / `stateLoad` are only declared, and they do stream I/O against the host's stream interfaces.
- `paramsFlush`, `audioPortsInfo` and `notePortsInfo` are only declared. The ports those info calls describe are taken from the comment at lines 123-126.
- The two `moodycamel::ReaderWriterQueue` bridge queues (`toUiQ`, `fromUiQ`) belong to a foreign lock-free library. The `4096` is that library's block size, not a capacity, so no queue behaviour is modelled.
- Atomicity and thread interleaving of the `DataCopyForUI` fields and of `refreshUIValues` are not modelled. The fields are sequential state, and `refreshUIValues` is not touched by any modelled operation.
- The editor plumbing (`createEditor`, `editorParamsFlush`, `GUI_DEFAULT_W`/`GUI_DEFAULT_H`), the plugin descriptor `desc`, the `implements*` answers (each is the constant `true`) and the host pointer passed to the constructor are host glue, so they are not modelled.
- The per-parameter storage pointers (`unisonCount` … `filterMode`) are only set up by the constructor, which is not part of this model.
- `Polysynth.ConduitPolysynth.constructor`: the base class fills the description map and is not part of this model, so the map is taken as an argument. The initial state of each voice comes from `saw-voice.h` and is left arbitrary.
