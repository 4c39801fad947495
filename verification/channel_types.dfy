/**
 * The entities the packet keeper reads and writes: channel ends, connection
 * ends, packets, the store keys derived from (port, channel[, sequence]), the
 * key paths a membership proof is checked against, and the kinds of failure.
 */
module ChannelTypes {
  import opened Uint64

  type PortId = string
  type ChannelId = string
  type ConnectionId = string
  type ClientId = string
  type Bytes = seq<byte>

  /** A commitment proof as the relayer supplies it; the keeper never looks inside. */
  type Proof = Bytes

  datatype ChannelState = Init | TryOpen | Open | Closed

  /** Two orderings only: the keeper's `default: panic` on any other value cannot be reached. */
  datatype Order = Ordered | Unordered

  datatype Counterparty = Counterparty(portId: PortId, channelId: ChannelId)

  /** A channel end; only the first connection hop is ever used by the packet keeper. */
  datatype Channel = Channel(
    state: ChannelState,
    ordering: Order,
    counterparty: Counterparty,
    connectionHops: seq<ConnectionId>)

  datatype ConnectionState = ConnNone | ConnInit | ConnTryOpen | ConnOpen

  datatype Connection = Connection(state: ConnectionState, clientId: ClientId)

  datatype Packet = Packet(
    sequence: uint64,
    timeoutHeight: uint64,
    sourcePort: PortId,
    sourceChannel: ChannelId,
    destPort: PortId,
    destChannel: ChannelId,
    data: Bytes)

  /** Key of everything stored per channel end. */
  datatype ChannelKey = ChannelKey(port: PortId, channel: ChannelId)

  /** Key of everything stored per packet: commitments and acknowledgements. */
  datatype PacketKey = PacketKey(port: PortId, channel: ChannelId, sequence: uint64)

  function SourceKey(p: Packet): ChannelKey
  {
    ChannelKey(p.sourcePort, p.sourceChannel)
  }

  function DestKey(p: Packet): ChannelKey
  {
    ChannelKey(p.destPort, p.destChannel)
  }

  /** Where SendPacket commits a packet and CleanupPacket deletes it. */
  function CommitmentKey(p: Packet): PacketKey
  {
    PacketKey(p.sourcePort, p.sourceChannel, p.sequence)
  }

  /** Where RecvPacket writes the acknowledgement of a packet. */
  function AckKey(p: Packet): PacketKey
  {
    PacketKey(p.destPort, p.destChannel, p.sequence)
  }

  /**
   * The canonical key paths of the counterparty's store that a membership
   * proof may speak about. Distinct constructors and fields make the path
   * builders injective.
   */
  datatype Path =
    | ChannelPath(port: PortId, channel: ChannelId)
    | NextSequenceRecvPath(port: PortId, channel: ChannelId)
    | PacketAcknowledgementPath(port: PortId, channel: ChannelId, sequence: uint64)

  /** One kind per failure the keeper reports, named after its message. */
  datatype Error =
    | ChannelNotFound
    | ChannelClosed            // "channel is closed" (SendPacket)
    | ChannelNotOpen           // "channel is not open" / "channel not open"
    | CapabilityNotFound
    | InvalidDestPort
    | InvalidDestChannel
    | InvalidSourcePort
    | InvalidSourceChannel
    | ConnectionNotFound
    | ConnectionClosed         // connection in state NONE (SendPacket)
    | ConnectionNotOpen        // connection not OPEN (RecvPacket)
    | ConsensusStateNotFound
    | InvalidHeight            // counterparty consensus height reached the timeout
    | ReceiveTimeout           // local block height reached the timeout
    | NextSequenceSendNotFound
    | NextSequenceRecvNotFound
    | InvalidPacketSequence
    | ChannelProofFailed       // "counterparty channel doesn't match the expected one"
    | PacketAlreadyReceived
    | PacketNotSent
    | PacketVerificationFailed

  datatype Option<T> = None | Some(value: T)

  datatype Result<T> = Ok(value: T) | Err(error: Error)

  function FirstHop(channel: Channel): ConnectionId
    requires |channel.connectionHops| > 0
  {
    channel.connectionHops[0]
  }
}
