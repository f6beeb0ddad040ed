/** The status record the audio side shares with the editor (`DataCopyForUI`), and what
    starting and stopping processing do to it. */
module UIBridge {
  import opened PolysynthTypes

  /** 2^32: `updateCount` is an unsigned 32-bit counter. */
  const Modulus32: int := 0x1_0000_0000

  /** `updateCount++` on a uint32: adds one and wraps to zero after the largest value. */
  function Inc32(x: uint32): (r: uint32)
    ensures r as int == (x as int + 1) % Modulus32
    ensures r != x
  {
    if x == 0xFFFF_FFFF then 0 else x + 1
  }

  /** The three fields of `DataCopyForUI`, read as one value. */
  datatype Status = Status(updateCount: uint32, isProcessing: bool, polyphony: int32)

  /** The field initialisers: nothing processed, not processing, no voices sounding. */
  const InitialStatus: Status := Status(0, false, 0)

  /** The status after `startProcessing`. */
  function Started(s: Status): (r: Status)
    ensures r.isProcessing
    ensures r.updateCount as int == (s.updateCount as int + 1) % Modulus32
    ensures r.polyphony == s.polyphony
  {
    s.(isProcessing := true, updateCount := Inc32(s.updateCount))
  }

  /** The status after `stopProcessing`. */
  function Stopped(s: Status): (r: Status)
    ensures !r.isProcessing
    ensures r.updateCount as int == (s.updateCount as int + 1) % Modulus32
    ensures r.polyphony == s.polyphony
  {
    s.(isProcessing := false, updateCount := Inc32(s.updateCount))
  }

  /** A start followed by a stop raises the counter by two (modulo 2^32), ends not
      processing and leaves the polyphony as it was. */
  lemma StartThenStop(s: Status)
    ensures Stopped(Started(s)).updateCount as int == (s.updateCount as int + 2) % Modulus32
    ensures !Stopped(Started(s)).isProcessing
    ensures Stopped(Started(s)).polyphony == s.polyphony
  {
  }

  /** The host's calls that touch the status record. */
  datatype ProcessingCall = StartCall | StopCall

  function Step(s: Status, c: ProcessingCall): Status {
    match c
    case StartCall => Started(s)
    case StopCall => Stopped(s)
  }

  /** The status after the host makes `calls`, in order. */
  function Run(s: Status, calls: seq<ProcessingCall>): Status
    decreases |calls|
  {
    if calls == [] then s else Run(Step(s, calls[0]), calls[1..])
  }

  lemma ModStep(a: int, n: int)
    requires 0 <= a < Modulus32 && 0 <= n
    ensures ((a + 1) % Modulus32 + n) % Modulus32 == (a + 1 + n) % Modulus32
  {
  }

  /** After any sequence of start and stop calls the counter has advanced by the number of
      calls (modulo 2^32), the processing flag is the one the last call set, and the
      polyphony is untouched. */
  lemma {:induction false} RunEffect(s: Status, calls: seq<ProcessingCall>)
    ensures Run(s, calls).updateCount as int == (s.updateCount as int + |calls|) % Modulus32
    ensures Run(s, calls).isProcessing
            == if calls == [] then s.isProcessing else calls[|calls| - 1] == StartCall
    ensures Run(s, calls).polyphony == s.polyphony
    decreases |calls|
  {
    if calls != [] {
      var next := Step(s, calls[0]);
      RunEffect(next, calls[1..]);
      ModStep(s.updateCount as int, |calls| - 1);
      if |calls| > 1 {
        assert calls[1..][|calls[1..]| - 1] == calls[|calls| - 1];
      }
    }
  }

  /** The editor sees the counter come back to a value it has seen only after a multiple of
      2^32 calls: any shorter non-empty run is visible as a change. */
  lemma RunCounterUnchangedIff(s: Status, calls: seq<ProcessingCall>)
    ensures Run(s, calls).updateCount == s.updateCount <==> |calls| % Modulus32 == 0
  {
    RunEffect(s, calls);
    var a, n := s.updateCount as int, |calls|;
    assert (a + n) % Modulus32 == (a + n % Modulus32) % Modulus32;
    if n % Modulus32 != 0 {
      assert a + n % Modulus32 < 2 * Modulus32;
    }
  }

  /** `DataCopyForUI`: three fields the audio side updates in place and the editor reads.
      Each field is atomic in the program; here they are plain sequential state. */
  class DataCopyForUI {
    var updateCount: uint32
    var isProcessing: bool
    var polyphony: int32

    constructor ()
      ensures Snapshot() == InitialStatus
    {
      updateCount, isProcessing, polyphony := 0, false, 0;
    }

    function Snapshot(): Status
      reads this
    {
      Status(updateCount, isProcessing, polyphony)
    }
  }
}
