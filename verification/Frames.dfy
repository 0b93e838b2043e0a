/**
 The SPX frame type shared by the wire layer and the multiplexer
 (`crates/ssh-proxy-protocol/src/protocol.rs`).
 */
module Frames {
  import opened Bytes

  const MAX_FRAME := 16 * 1024 * 1024
  const FRAME_CHANNEL_CAPACITY := 256
  const TCP_STREAM_CHANNEL_CAPACITY := 64
  const FRAME_WRITE_BATCH_LIMIT := 32

  type Id = u32

  datatype Frame =
    | OpenTcp(id: Id, host: Text, port: u16, egress: Option<Text>)
    | OpenTcpResult(id: Id, ok: bool, message: Text)
    | Data(id: Id, data: Blob)
    | Close(id: Id, reason: Text)
    | UdpPacket(id: Id, host: Text, port: u16, data: Blob)
    | Log(message: Text)
}
