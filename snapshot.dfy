/** The observable form of the device state that network.cpp publishes:
    the state labels of `getStateString` and the records sent to observers.
    Serialisation to JSON text is not part of this model; a record stands for
    the document. */
module Snapshot {
  import opened Config

  const LABEL_IDLE: string := "Очікування"
  const LABEL_READY: string := "Готовий"
  const LABEL_MOVING: string := "Рух"
  const LABEL_POURING: string := "Розлив"
  const LABEL_PAUSED: string := "Пауза"
  const LABEL_ERROR: string := "Помилка"
  const LABEL_CLEANING: string := "Очищення"
  const LABEL_UNKNOWN: string := "Невідомо"

  /** `getStateString` over the raw enum value: the seven states have their
      own labels, any other value the "unknown" label. */
  function GetStateString(code: int): (text: string)
    ensures (0 <= code <= 6) <==> text != LABEL_UNKNOWN
  {
    match code
    case 0 => LABEL_IDLE
    case 1 => LABEL_READY
    case 2 => LABEL_MOVING
    case 3 => LABEL_POURING
    case 4 => LABEL_PAUSED
    case 5 => LABEL_ERROR
    case 6 => LABEL_CLEANING
    case _ => LABEL_UNKNOWN
  }

  function StateLabel(s: SystemState): string {
    GetStateString(Code(s))
  }

  /** What an observer reads back from a label. */
  function LabelToState(text: string): (r: Option<SystemState>)
    ensures r.Some? ==> StateLabel(r.value) == text
    ensures text == LABEL_UNKNOWN ==> r == None
  {
    if text == LABEL_IDLE then Some(Idle)
    else if text == LABEL_READY then Some(Ready)
    else if text == LABEL_MOVING then Some(Moving)
    else if text == LABEL_POURING then Some(Pouring)
    else if text == LABEL_PAUSED then Some(Paused)
    else if text == LABEL_ERROR then Some(Error)
    else if text == LABEL_CLEANING then Some(Cleaning)
    else None
  }

  /** The label identifies the state: observers can recover it. */
  lemma LabelRoundTrip(s: SystemState)
    ensures LabelToState(StateLabel(s)) == Some(s)
  {
  }

  /** No two states share a label. */
  lemma {:induction false} StateLabelInjective(a: SystemState, b: SystemState)
    requires StateLabel(a) == StateLabel(b)
    ensures a == b
  {
    LabelRoundTrip(a);
    LabelRoundTrip(b);
  }

  /** The document that `broadcastState` and the connect handler send. The
      `heap` field (free memory) is not modelled. */
  datatype Snapshot = Snapshot(
    status: string,
    mode: int,
    volume: U16,
    shot: U8,
    glasses: seq<bool>,
    pours: U32,
    pouredVolume: U32,
    uptime: nat)

  /** The document of `GET /api/status`; it names the label "state" and adds
      the error counter. The `heap` field is not modelled. */
  datatype StatusReport = StatusReport(
    state: string,
    mode: int,
    volume: U16,
    shot: U8,
    uptime: nat,
    totalPours: U32,
    totalVolume: U32,
    errors: U32)

  /** `millis() / 1000`. */
  function Uptime(now: U32): (sec: nat)
    ensures sec * 1000 <= now < (sec + 1) * 1000
  {
    now / 1000
  }
}
