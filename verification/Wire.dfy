/** Messages of the run-event protocol between a client and the manager
    (internal/protocol/protocol.go), and the plain types the other modules share.
    Sequence numbers are unbounded integers; the time `at` of an event is an instant. */
module Wire {

  datatype RunEvent = RunEvent(
    runID: string, seqNo: int, at: Time, source: string, kind: string, payload: string)

  datatype RunHead = RunHead(runID: string, lastSeq: int, status: string)

  /** Asks for the events with afterSeq < seqNo <= throughSeq of one run. */
  datatype ReplayCursor = ReplayCursor(runID: string, afterSeq: int, throughSeq: int)

  newtype Byte = x: int | 0 <= x < 256

  type Bytes = seq<Byte>

  datatype Option<+T> = None | Some(value: T)

  datatype Result<+T, +E> = Ok(value: T) | Err(error: E)

  /** The zero value of an event, held by a run state that has received nothing. */
  const NO_EVENT := RunEvent("", 0, 0, "", "", "")

  // ------------------------------------------------------------------------ times

  /** Nanoseconds since the Unix epoch. */
  type Time = int

  /** The zero time, the first instant of the year 1, stands for "not set". */
  const ZERO_TIME: Time := -62_135_596_800_000_000_000

  const MILLI := 1_000_000

  /** How a timestamp is stored: whole milliseconds, rounded down, and 0 for the zero
      time. */
  function Ms(t: Time): int {
    if t == ZERO_TIME then 0 else t / MILLI
  }

  function FromMs(v: int): Time {
    if v == 0 then ZERO_TIME else v * MILLI
  }

  /** A timestamp survives storage if and only if it is not set, or a whole number of
      milliseconds other than 0. */
  lemma TimeRoundTripIff(t: Time)
    ensures FromMs(Ms(t)) == t <==> t == ZERO_TIME || (t % MILLI == 0 && t != 0)
    ensures t != ZERO_TIME ==> Ms(t) * MILLI <= t < Ms(t) * MILLI + MILLI
  {
    assert t == t / MILLI * MILLI + t % MILLI;
  }

  /** An event as a store gives it back. */
  function Rounded(ev: RunEvent): RunEvent {
    ev.(at := FromMs(Ms(ev.at)))
  }
}
