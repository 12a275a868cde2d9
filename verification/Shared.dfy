/** The contracts the core and the session worker share (packages/shared), and the chip row. */
module Shared {
  import opened Prelude

  type ChipId = string

  datatype ChipStatus = New | Warming | Active | Paused | Cooldown | Retired

  datatype SignalKind = SendFail | NoDelivery | NoRead | ReplyDrop | Disconnect | Recovered

  datatype ControlType = Pair | Start | Stop | Retire

  datatype Command = Command(kind: ControlType, chip: ChipId)

  const SOFT_THRESHOLD := 70.0
  const COOLDOWN_THRESHOLD := 50.0
  const RETIRE_THRESHOLD := 30.0
  const MAX_CONSEC_FAILS := 5

  function Weight(kind: SignalKind): real {
    match kind
    case SendFail => -12.0
    case NoDelivery => -6.0
    case NoRead => -4.0
    case ReplyDrop => -15.0
    case Disconnect => -5.0
    case Recovered => 8.0
  }

  /** The columns of WhatsappNumber that the protocols read or write; instants are in milliseconds. */
  datatype Chip = Chip(
    status: ChipStatus,
    score: real,
    fails: nat,
    rampDay: int,
    cap: int,
    sent: int,
    lastSignal: Option<int>,
    lastReset: Option<int>)

  /** A row as the schema's defaults create it. */
  const FRESH_CHIP := Chip(New, 100.0, 0, 0, 0, 0, None, None)

  /** The chip table and the CONTROL queue: what the core's services and the worker share. */
  class Database {
    var chips: map<ChipId, Chip>
    var control: seq<Command>
  }
}
