/**
 * The channel keeper's packet handlers over its key-value store. The store is
 * the keeper's mutable state: each handler checks its gates one by one,
 * returning at the first failure, and then writes the store entries the
 * handler owns. Each handler is proved to produce exactly the result and
 * the new store that its specification function in PacketSpec gives.
 */
module ChannelKeeper {
  import opened Uint64
  import opened ChannelTypes
  import opened PacketSpec

  class Keeper {
    /** The connection keeper's membership-proof check. */
    const verifyMembership: Verifier

    var channels: map<ChannelKey, Channel>
    var capabilities: set<ChannelKey>
    var connections: map<ConnectionId, Connection>
    var consensusHeights: map<ClientId, uint64>
    var nextSequenceSend: map<ChannelKey, uint64>
    var nextSequenceRecv: map<ChannelKey, uint64>
    var commitments: map<PacketKey, Bytes>
    var acknowledgements: map<PacketKey, Bytes>

    /** The store's contents as a value. */
    function Snapshot(): Store
      reads this
    {
      Store(channels, capabilities, connections, consensusHeights,
            nextSequenceSend, nextSequenceRecv, commitments, acknowledgements)
    }

    ghost predicate Valid()
      reads this
    {
      WellFormed(Snapshot())
    }

    constructor (verifier: Verifier, initial: Store)
      requires WellFormed(initial)
      ensures Valid()
      ensures Snapshot() == initial && verifyMembership == verifier
    {
      verifyMembership := verifier;
      channels := initial.channels;
      capabilities := initial.capabilities;
      connections := initial.connections;
      consensusHeights := initial.consensusHeights;
      nextSequenceSend := initial.nextSequenceSend;
      nextSequenceRecv := initial.nextSequenceRecv;
      commitments := initial.commitments;
      acknowledgements := initial.acknowledgements;
    }

    method SendPacket(packet: Packet) returns (r: Result<()>)
      requires Valid()
      modifies this
      ensures Valid()
      ensures r == SendPacketSpec(old(Snapshot()), packet).result
      ensures Snapshot() == SendPacketSpec(old(Snapshot()), packet).post
    {
      var key := SourceKey(packet);
      if key !in channels {
        return Err(ChannelNotFound);
      }
      var channel := channels[key];
      if channel.state == Closed {
        return Err(ChannelClosed);
      }
      if key !in capabilities {
        return Err(CapabilityNotFound);
      }
      if packet.destPort != channel.counterparty.portId {
        return Err(InvalidDestPort);
      }
      if packet.destChannel != channel.counterparty.channelId {
        return Err(InvalidDestChannel);
      }
      if channel.connectionHops[0] !in connections {
        return Err(ConnectionNotFound);
      }
      var connection := connections[channel.connectionHops[0]];
      if connection.state == ConnNone {
        return Err(ConnectionClosed);
      }
      if connection.clientId !in consensusHeights {
        return Err(ConsensusStateNotFound);
      }
      if consensusHeights[connection.clientId] >= packet.timeoutHeight {
        return Err(InvalidHeight);
      }
      if key !in nextSequenceSend {
        return Err(NextSequenceSendNotFound);
      }
      var next := nextSequenceSend[key];
      if packet.sequence != next {
        return Err(InvalidPacketSequence);
      }
      next := WrappingIncrement(next);
      nextSequenceSend := nextSequenceSend[key := next];
      commitments := commitments[CommitmentKey(packet) := packet.data];
      return Ok(());
    }

    method RecvPacket(packet: Packet, proof: Proof, proofHeight: uint64,
                      blockHeight: int64, acknowledgement: Bytes) returns (r: Result<Packet>)
      requires Valid()
      modifies this
      ensures Valid()
      ensures r == RecvPacketSpec(old(Snapshot()), packet, proof, proofHeight,
                                  blockHeight, acknowledgement, verifyMembership).result
      ensures Snapshot() == RecvPacketSpec(old(Snapshot()), packet, proof, proofHeight,
                                           blockHeight, acknowledgement, verifyMembership).post
    {
      var key := SourceKey(packet);
      if key !in channels {
        return Err(ChannelNotFound);
      }
      var channel := channels[key];
      if channel.state != Open {
        return Err(ChannelNotOpen);
      }
      if key !in capabilities {
        return Err(CapabilityNotFound);
      }
      if packet.sourcePort != channel.counterparty.portId {
        return Err(InvalidSourcePort);
      }
      if packet.sourceChannel != channel.counterparty.channelId {
        return Err(InvalidSourceChannel);
      }
      if channel.connectionHops[0] !in connections {
        return Err(ConnectionNotFound);
      }
      var connection := connections[channel.connectionHops[0]];
      if connection.state != ConnOpen {
        return Err(ConnectionNotOpen);
      }
      if AsUint64(blockHeight) >= packet.timeoutHeight {
        return Err(ReceiveTimeout);
      }
      if !verifyMembership(connection, proofHeight, proof,
                           ChannelPath(packet.sourcePort, packet.sourceChannel), packet.data) {
        return Err(ChannelProofFailed);
      }

      if |acknowledgement| > 0 || channel.ordering == Unordered {
        acknowledgements := acknowledgements[AckKey(packet) := acknowledgement];
      }

      if channel.ordering == Ordered {
        var dest := DestKey(packet);
        if dest !in nextSequenceRecv {
          return Err(NextSequenceRecvNotFound);
        }
        var next := nextSequenceRecv[dest];
        if packet.sequence != next {
          return Err(InvalidPacketSequence);
        }
        next := WrappingIncrement(next);
        nextSequenceRecv := nextSequenceRecv[dest := next];
      }
      return Ok(packet);
    }

    method CleanupPacket(packet: Packet, proof: Proof, proofHeight: uint64,
                         nextSequenceRecvProven: uint64, acknowledgement: Bytes) returns (r: Result<Packet>)
      requires Valid()
      modifies this
      ensures Valid()
      ensures r == CleanupPacketSpec(old(Snapshot()), packet, proof, proofHeight,
                                     nextSequenceRecvProven, acknowledgement, verifyMembership).result
      ensures Snapshot() == CleanupPacketSpec(old(Snapshot()), packet, proof, proofHeight,
                                              nextSequenceRecvProven, acknowledgement, verifyMembership).post
    {
      var key := SourceKey(packet);
      if key !in channels {
        return Err(ChannelNotFound);
      }
      var channel := channels[key];
      if channel.state != Open {
        return Err(ChannelNotOpen);
      }
      if key !in capabilities {
        return Err(CapabilityNotFound);
      }
      if packet.destChannel != channel.counterparty.channelId {
        return Err(InvalidDestChannel);
      }
      if channel.connectionHops[0] !in connections {
        return Err(ConnectionNotFound);
      }
      var connection := connections[channel.connectionHops[0]];
      if packet.destPort != channel.counterparty.portId {
        return Err(InvalidDestPort);
      }
      if nextSequenceRecvProven >= packet.sequence {
        return Err(PacketAlreadyReceived);
      }
      var commitment := StoredCommitment(commitments, CommitmentKey(packet));
      if commitment != packet.data {
        return Err(PacketNotSent);
      }

      var ok: bool;
      match channel.ordering {
        case Ordered =>
          ok := verifyMembership(connection, proofHeight, proof,
                                 NextSequenceRecvPath(packet.destPort, packet.destChannel),
                                 Uint64ToBigEndian(nextSequenceRecvProven));
        case Unordered =>
          ok := verifyMembership(connection, proofHeight, proof,
                                 PacketAcknowledgementPath(packet.sourcePort, packet.sourceChannel, packet.sequence),
                                 acknowledgement);
      }
      if !ok {
        return Err(PacketVerificationFailed);
      }

      commitments := commitments - {CommitmentKey(packet)};
      return Ok(packet);
    }
  }
}
