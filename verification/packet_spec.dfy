/**
 * The three packet transitions of the channel keeper as functions from a
 * store snapshot and the call's arguments to the result and the new store.
 *
 * Each operation is written twice: once as the keeper's chain of checks in
 * the keeper's own order (the first failing check decides the error), and
 * once as an order-free conjunction of everything that must hold for it to
 * be accepted. The contracts tie the two together and say what the new
 * store is.
 */
module PacketSpec {
  import opened Uint64
  import opened ChannelTypes

  /**
   * Membership-proof verification against the counterparty's committed state:
   * does `proof`, at the given height over the given connection, show that
   * `path` maps to `value`? It is a parameter; nothing is assumed about it.
   */
  type Verifier = (Connection, uint64, Proof, Path, Bytes) -> bool

  /** Everything the packet keeper reads or writes, with the foreign keepers' data as partial maps. */
  datatype Store = Store(
    channels: map<ChannelKey, Channel>,
    capabilities: set<ChannelKey>,
    connections: map<ConnectionId, Connection>,
    consensusHeights: map<ClientId, uint64>,
    nextSequenceSend: map<ChannelKey, uint64>,
    nextSequenceRecv: map<ChannelKey, uint64>,
    commitments: map<PacketKey, Bytes>,
    acknowledgements: map<PacketKey, Bytes>)

  /** The outcome of one transition: what the caller gets back and the store afterwards. */
  datatype Step<T> = Step(result: Result<T>, post: Store)

  /** The channel stored under `key`, if any, has a first connection hop to look up. */
  predicate FirstHopDefined(s: Store, key: ChannelKey)
  {
    key in s.channels ==> |s.channels[key].connectionHops| > 0
  }

  /** Every stored channel has a first connection hop (the channel handshake ensures it). */
  predicate WellFormed(s: Store)
  {
    forall key :: key in s.channels ==> |s.channels[key].connectionHops| > 0
  }

  /** GetPacketCommitment: the stored bytes, or nil, which compares equal to the empty string. */
  function StoredCommitment(commitments: map<PacketKey, Bytes>, key: PacketKey): Bytes
  {
    if key in commitments then commitments[key] else []
  }

  // ---------------------------------------------------------------- SendPacket

  /** The SendPacket checks that come before the timeout check all hold. */
  predicate SendGatesBeforeTimeout(s: Store, p: Packet)
    requires FirstHopDefined(s, SourceKey(p))
  {
    var key := SourceKey(p);
    key in s.channels &&
    var channel := s.channels[key];
    channel.state != Closed &&
    key in s.capabilities &&
    channel.counterparty == Counterparty(p.destPort, p.destChannel) &&
    FirstHop(channel) in s.connections &&
    var connection := s.connections[FirstHop(channel)];
    connection.state != ConnNone &&
    connection.clientId in s.consensusHeights
  }

  /** The height of the counterparty's latest consensus state tracked by the sending channel's client. */
  function CounterpartyHeight(s: Store, p: Packet): uint64
    requires FirstHopDefined(s, SourceKey(p))
    requires SendGatesBeforeTimeout(s, p)
  {
    s.consensusHeights[s.connections[FirstHop(s.channels[SourceKey(p)])].clientId]
  }

  /** Everything that must hold for SendPacket to accept `p`. */
  predicate SendAdmissible(s: Store, p: Packet)
    requires FirstHopDefined(s, SourceKey(p))
  {
    SendGatesBeforeTimeout(s, p) &&
    CounterpartyHeight(s, p) < p.timeoutHeight &&
    SourceKey(p) in s.nextSequenceSend &&
    p.sequence == s.nextSequenceSend[SourceKey(p)]
  }

  /** SendPacket's checks in the keeper's order; the first one that fails names the error. */
  function SendFailure(s: Store, p: Packet): (e: Option<Error>)
    requires FirstHopDefined(s, SourceKey(p))
    ensures e.None? <==> SendAdmissible(s, p)
  {
    var key := SourceKey(p);
    if key !in s.channels then Some(ChannelNotFound)
    else
      var channel := s.channels[key];
      if channel.state == Closed then Some(ChannelClosed)
      else if key !in s.capabilities then Some(CapabilityNotFound)
      else if p.destPort != channel.counterparty.portId then Some(InvalidDestPort)
      else if p.destChannel != channel.counterparty.channelId then Some(InvalidDestChannel)
      else if FirstHop(channel) !in s.connections then Some(ConnectionNotFound)
      else
        var connection := s.connections[FirstHop(channel)];
        if connection.state == ConnNone then Some(ConnectionClosed)
        else if connection.clientId !in s.consensusHeights then Some(ConsensusStateNotFound)
        else if s.consensusHeights[connection.clientId] >= p.timeoutHeight then Some(InvalidHeight)
        else if key !in s.nextSequenceSend then Some(NextSequenceSendNotFound)
        else if p.sequence != s.nextSequenceSend[key] then Some(InvalidPacketSequence)
        else None
  }

  /**
   * SendPacket: accepted exactly when admissible; a rejection writes nothing;
   * an acceptance advances the send counter of the source end by one and
   * commits the packet's data under (sourcePort, sourceChannel, sequence),
   * and changes nothing else.
   */
  function SendPacketSpec(s: Store, p: Packet): (t: Step<()>)
    requires FirstHopDefined(s, SourceKey(p))
    ensures t.result.Ok? <==> SendAdmissible(s, p)
    ensures t.result.Err? ==> t.post == s
    ensures t.result.Ok? ==>
      var key := SourceKey(p);
      && key in s.nextSequenceSend
      && t.post.nextSequenceSend == s.nextSequenceSend[key := WrappingIncrement(s.nextSequenceSend[key])]
      && t.post.commitments == s.commitments[CommitmentKey(p) := p.data]
      && t.post.(nextSequenceSend := s.nextSequenceSend, commitments := s.commitments) == s
  {
    match SendFailure(s, p)
    case Some(e) => Step(Err(e), s)
    case None =>
      var next := WrappingIncrement(p.sequence);
      Step(Ok(()), s.(nextSequenceSend := s.nextSequenceSend[SourceKey(p) := next],
                      commitments := s.commitments[CommitmentKey(p) := p.data]))
  }

  // ---------------------------------------------------------------- RecvPacket

  /** The RecvPacket checks that come before the timeout check all hold. */
  predicate RecvGatesBeforeTimeout(s: Store, p: Packet)
    requires FirstHopDefined(s, SourceKey(p))
  {
    var key := SourceKey(p);
    key in s.channels &&
    var channel := s.channels[key];
    channel.state == Open &&
    key in s.capabilities &&
    channel.counterparty == Counterparty(p.sourcePort, p.sourceChannel) &&
    FirstHop(channel) in s.connections &&
    s.connections[FirstHop(channel)].state == ConnOpen
  }

  /** Everything RecvPacket checks before it writes anything. */
  predicate RecvGatesPass(s: Store, p: Packet, proof: Proof, proofHeight: uint64,
                          blockHeight: int64, verify: Verifier)
    requires FirstHopDefined(s, SourceKey(p))
  {
    RecvGatesBeforeTimeout(s, p) &&
    AsUint64(blockHeight) < p.timeoutHeight &&
    var connection := s.connections[FirstHop(s.channels[SourceKey(p)])];
    verify(connection, proofHeight, proof, ChannelPath(p.sourcePort, p.sourceChannel), p.data)
  }

  /** RecvPacket's checks before its first write, in the keeper's order. */
  function RecvGateFailure(s: Store, p: Packet, proof: Proof, proofHeight: uint64,
                           blockHeight: int64, verify: Verifier): (e: Option<Error>)
    requires FirstHopDefined(s, SourceKey(p))
    ensures e.None? <==> RecvGatesPass(s, p, proof, proofHeight, blockHeight, verify)
  {
    var key := SourceKey(p);
    if key !in s.channels then Some(ChannelNotFound)
    else
      var channel := s.channels[key];
      if channel.state != Open then Some(ChannelNotOpen)
      else if key !in s.capabilities then Some(CapabilityNotFound)
      else if p.sourcePort != channel.counterparty.portId then Some(InvalidSourcePort)
      else if p.sourceChannel != channel.counterparty.channelId then Some(InvalidSourceChannel)
      else if FirstHop(channel) !in s.connections then Some(ConnectionNotFound)
      else
        var connection := s.connections[FirstHop(channel)];
        if connection.state != ConnOpen then Some(ConnectionNotOpen)
        else if AsUint64(blockHeight) >= p.timeoutHeight then Some(ReceiveTimeout)
        else if !verify(connection, proofHeight, proof, ChannelPath(p.sourcePort, p.sourceChannel), p.data)
        then Some(ChannelProofFailed)
        else None
  }

  /** Once past the gates, RecvPacket stores the acknowledgement when it is non-empty or the channel is unordered. */
  predicate WritesAck(channel: Channel, ack: Bytes)
  {
    |ack| > 0 || channel.ordering == Unordered
  }

  /**
   * RecvPacket: a failed gate writes nothing. Past the gates the
   * acknowledgement is written (or not) first; an unordered channel then
   * accepts and leaves the receive counters alone; an ordered channel
   * accepts exactly when the sequence is the destination end's next
   * expected one and then advances that counter by one. A rejection by the
   * ordered check keeps the acknowledgement already written. Channels,
   * capabilities, connections, consensus heights, send counters and
   * commitments never change.
   */
  function RecvPacketSpec(s: Store, p: Packet, proof: Proof, proofHeight: uint64,
                          blockHeight: int64, ack: Bytes, verify: Verifier): (t: Step<Packet>)
    requires FirstHopDefined(s, SourceKey(p))
    ensures !RecvGatesPass(s, p, proof, proofHeight, blockHeight, verify) ==>
      t.result.Err? && t.post == s
    ensures t.post.(acknowledgements := s.acknowledgements, nextSequenceRecv := s.nextSequenceRecv) == s
    ensures RecvGatesPass(s, p, proof, proofHeight, blockHeight, verify) ==>
      var channel := s.channels[SourceKey(p)];
      && (WritesAck(channel, ack) ==> t.post.acknowledgements == s.acknowledgements[AckKey(p) := ack])
      && (!WritesAck(channel, ack) ==> t.post.acknowledgements == s.acknowledgements)
      && (channel.ordering == Unordered ==> t.result.Ok?)
      && (channel.ordering == Ordered ==>
            (t.result.Ok? <==> DestKey(p) in s.nextSequenceRecv && s.nextSequenceRecv[DestKey(p)] == p.sequence))
    ensures t.result.Ok? ==> t.result.value == p
    ensures t.result.Ok? && s.channels[SourceKey(p)].ordering == Ordered ==>
      t.post.nextSequenceRecv == s.nextSequenceRecv[DestKey(p) := WrappingIncrement(s.nextSequenceRecv[DestKey(p)])]
    ensures t.result.Err? || s.channels[SourceKey(p)].ordering == Unordered ==>
      t.post.nextSequenceRecv == s.nextSequenceRecv
  {
    match RecvGateFailure(s, p, proof, proofHeight, blockHeight, verify)
    case Some(e) => Step(Err(e), s)
    case None =>
      var channel := s.channels[SourceKey(p)];
      var acked := if WritesAck(channel, ack)
                   then s.(acknowledgements := s.acknowledgements[AckKey(p) := ack])
                   else s;
      if channel.ordering == Ordered then
        var dest := DestKey(p);
        if dest !in acked.nextSequenceRecv then Step(Err(NextSequenceRecvNotFound), acked)
        else if p.sequence != acked.nextSequenceRecv[dest] then Step(Err(InvalidPacketSequence), acked)
        else
          var next := WrappingIncrement(acked.nextSequenceRecv[dest]);
          Step(Ok(p), acked.(nextSequenceRecv := acked.nextSequenceRecv[dest := next]))
      else
        Step(Ok(p), acked)
  }

  // ------------------------------------------------------------- CleanupPacket

  /**
   * What the cleanup proof must show about the counterparty's store: on an
   * ordered channel, that the destination end's next-sequence-recv path holds
   * the big-endian `nextSequenceRecv`; on an unordered channel, that the
   * packet's acknowledgement path holds `ack`.
   */
  function CleanupClaim(channel: Channel, p: Packet, nextSequenceRecv: uint64, ack: Bytes): (claim: (Path, Bytes))
    ensures channel.ordering == Ordered ==>
      && claim.0 == NextSequenceRecvPath(p.destPort, p.destChannel)
      && |claim.1| == 8 && FromBigEndian(claim.1) == nextSequenceRecv
    ensures channel.ordering == Unordered ==>
      claim == (PacketAcknowledgementPath(p.sourcePort, p.sourceChannel, p.sequence), ack)
  {
    match channel.ordering
    case Ordered => (NextSequenceRecvPath(p.destPort, p.destChannel), Uint64ToBigEndian(nextSequenceRecv))
    case Unordered => (PacketAcknowledgementPath(p.sourcePort, p.sourceChannel, p.sequence), ack)
  }

  /** The CleanupPacket checks that come before the sequence check all hold. */
  predicate CleanupGatesBeforeSequence(s: Store, p: Packet)
    requires FirstHopDefined(s, SourceKey(p))
  {
    var key := SourceKey(p);
    key in s.channels &&
    var channel := s.channels[key];
    channel.state == Open &&
    key in s.capabilities &&
    channel.counterparty == Counterparty(p.destPort, p.destChannel) &&
    FirstHop(channel) in s.connections
  }

  /** Everything that must hold for CleanupPacket to accept `p`. */
  predicate CleanupAdmissible(s: Store, p: Packet, proof: Proof, proofHeight: uint64,
                              nextSequenceRecv: uint64, ack: Bytes, verify: Verifier)
    requires FirstHopDefined(s, SourceKey(p))
  {
    CleanupGatesBeforeSequence(s, p) &&
    var channel := s.channels[SourceKey(p)];
    nextSequenceRecv < p.sequence &&
    StoredCommitment(s.commitments, CommitmentKey(p)) == p.data &&
    var claim := CleanupClaim(channel, p, nextSequenceRecv, ack);
    verify(s.connections[FirstHop(channel)], proofHeight, proof, claim.0, claim.1)
  }

  /** CleanupPacket's checks in the keeper's order. */
  function CleanupFailure(s: Store, p: Packet, proof: Proof, proofHeight: uint64,
                          nextSequenceRecv: uint64, ack: Bytes, verify: Verifier): (e: Option<Error>)
    requires FirstHopDefined(s, SourceKey(p))
    ensures e.None? <==> CleanupAdmissible(s, p, proof, proofHeight, nextSequenceRecv, ack, verify)
  {
    var key := SourceKey(p);
    if key !in s.channels then Some(ChannelNotFound)
    else
      var channel := s.channels[key];
      if channel.state != Open then Some(ChannelNotOpen)
      else if key !in s.capabilities then Some(CapabilityNotFound)
      else if p.destChannel != channel.counterparty.channelId then Some(InvalidDestChannel)
      else if FirstHop(channel) !in s.connections then Some(ConnectionNotFound)
      else if p.destPort != channel.counterparty.portId then Some(InvalidDestPort)
      else if nextSequenceRecv >= p.sequence then Some(PacketAlreadyReceived)
      else if StoredCommitment(s.commitments, CommitmentKey(p)) != p.data then Some(PacketNotSent)
      else
        var claim := CleanupClaim(channel, p, nextSequenceRecv, ack);
        if !verify(s.connections[FirstHop(channel)], proofHeight, proof, claim.0, claim.1)
        then Some(PacketVerificationFailed)
        else None
  }

  /**
   * CleanupPacket: accepted exactly when admissible; a rejection writes
   * nothing; an acceptance returns the packet and deletes the one commitment
   * under (sourcePort, sourceChannel, sequence), leaving every other entry
   * of the store as it was.
   */
  function CleanupPacketSpec(s: Store, p: Packet, proof: Proof, proofHeight: uint64,
                             nextSequenceRecv: uint64, ack: Bytes, verify: Verifier): (t: Step<Packet>)
    requires FirstHopDefined(s, SourceKey(p))
    ensures t.result.Ok? <==> CleanupAdmissible(s, p, proof, proofHeight, nextSequenceRecv, ack, verify)
    ensures t.result.Err? ==> t.post == s
    ensures t.result.Ok? ==>
      && t.result.value == p
      && t.post.commitments == s.commitments - {CommitmentKey(p)}
      && t.post.(commitments := s.commitments) == s
  {
    match CleanupFailure(s, p, proof, proofHeight, nextSequenceRecv, ack, verify)
    case Some(e) => Step(Err(e), s)
    case None => Step(Ok(p), s.(commitments := s.commitments - {CommitmentKey(p)}))
  }
}
