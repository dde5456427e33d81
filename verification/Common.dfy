/** Names shared by every part of the model. */
module Common {
  datatype Option<+T> = None | Some(value: T) {
    function GetOr(default: T): T { if Some? then value else default }
  }

  const U64_RANGE: int := 0x1_0000_0000_0000_0000
  type u64 = x: int | 0 <= x < U64_RANGE

  /** Names that are only ever compared; request ids are also printed and parsed. */
  type ServerId = nat
  type ConnId = nat
  type FutureId = nat
  type RequestId = u64
  type ChannelId = nat
  type ResponderId = nat
  type TaskId = nat

  /** A byte string: one character per byte, so that ASCII literals can be written as text. */
  type Bytes = seq<char>
  type Passcode = seq<char>

  /** Every `mpsc::channel` of the program is created with this bound. */
  const CHANNEL_CAPACITY: nat := 100
}
