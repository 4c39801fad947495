/**
 * Properties of the packet transitions that relate several calls: send
 * sequences are contiguous, ordered receives are strictly in order, a replay
 * is rejected where the keeper guards against it and accepted where it does
 * not, a rejection is repeatable, and send followed by cleanup leaves no
 * commitment behind.
 */
module PacketProperties {
  import opened Uint64
  import opened ChannelTypes
  import opened PacketSpec

  // ---------------------------------------------------------------- SendPacket

  /**
   * After SendPacket accepts sequence n, sending n again is rejected as an
   * invalid sequence, and sending n + 1 on the same channel end is accepted
   * whatever its data, provided the rest of the packet is unchanged.
   */
  lemma SendSequenceAdvances(s: Store, p: Packet, data: Bytes)
    requires FirstHopDefined(s, SourceKey(p))
    requires SendPacketSpec(s, p).result.Ok?
    ensures SendPacketSpec(SendPacketSpec(s, p).post, p).result == Err(InvalidPacketSequence)
    ensures SendPacketSpec(SendPacketSpec(s, p).post,
                           p.(sequence := WrappingIncrement(p.sequence), data := data)).result.Ok?
  {
  }

  /** Sends `ps` one after another; None as soon as one is rejected. */
  function SendAll(s: Store, ps: seq<Packet>): Option<Store>
    requires WellFormed(s)
    decreases |ps|
  {
    if ps == [] then Some(s)
    else
      var t := SendPacketSpec(s, ps[0]);
      if t.result.Err? then None else SendAll(t.post, ps[1..])
  }

  /**
   * The sequences of any run of accepted sends on one channel end are the
   * counter's value at the start and its successors, without gaps, and the
   * counter ends |ps| further on (modulo 2^64).
   */
  lemma {:induction false} SendRunContiguous(s: Store, ps: seq<Packet>, key: ChannelKey)
    requires WellFormed(s)
    requires SendAll(s, ps).Some?
    requires forall i :: 0 <= i < |ps| ==> SourceKey(ps[i]) == key
    requires key in s.nextSequenceSend
    ensures key in SendAll(s, ps).value.nextSequenceSend
    ensures SendAll(s, ps).value.nextSequenceSend[key] == AddWrapping(s.nextSequenceSend[key], |ps|)
    ensures forall i :: 0 <= i < |ps| ==> ps[i].sequence == AddWrapping(s.nextSequenceSend[key], i)
    decreases |ps|
  {
    if ps != [] {
      var start := s.nextSequenceSend[key];
      var t := SendPacketSpec(s, ps[0]);
      SendRunContiguous(t.post, ps[1..], key);
      AddAfterIncrement(start, |ps| - 1);
      forall i | 0 <= i < |ps|
        ensures ps[i].sequence == AddWrapping(start, i)
      {
        if i > 0 {
          assert ps[i] == ps[1..][i - 1];
          AddAfterIncrement(start, i - 1);
        }
      }
    }
  }

  /** No run of up to 2^64 accepted sends on one channel end uses a sequence twice. */
  lemma SendRunNoDuplicates(s: Store, ps: seq<Packet>, key: ChannelKey)
    requires WellFormed(s)
    requires SendAll(s, ps).Some?
    requires forall i :: 0 <= i < |ps| ==> SourceKey(ps[i]) == key
    requires key in s.nextSequenceSend
    requires |ps| <= TWO_TO_THE_64
    ensures forall i, j :: 0 <= i < j < |ps| ==> ps[i].sequence != ps[j].sequence
  {
    SendRunContiguous(s, ps, key);
    forall i, j | 0 <= i < j < |ps|
      ensures ps[i].sequence != ps[j].sequence
    {
      AddWrappingDistinct(s.nextSequenceSend[key], i, j);
    }
  }

  /** A packet whose timeout height is zero is never sent: no height is below zero. */
  lemma SendZeroTimeoutRejected(s: Store, p: Packet)
    requires FirstHopDefined(s, SourceKey(p))
    requires p.timeoutHeight == 0
    ensures SendPacketSpec(s, p).result.Err?
    ensures SendPacketSpec(s, p).post == s
  {
  }

  /**
   * When every earlier check passes but the counterparty's tracked height has
   * reached the packet's timeout, SendPacket reports an invalid height and
   * writes nothing.
   */
  lemma SendReportsInvalidHeight(s: Store, p: Packet)
    requires FirstHopDefined(s, SourceKey(p))
    requires SendGatesBeforeTimeout(s, p)
    requires CounterpartyHeight(s, p) >= p.timeoutHeight
    ensures SendPacketSpec(s, p) == Step(Err(InvalidHeight), s)
  {
  }

  /** A rejected send writes nothing, so the same call is rejected again with the same error. */
  lemma SendRejectionRepeats(s: Store, p: Packet)
    requires FirstHopDefined(s, SourceKey(p))
    requires SendPacketSpec(s, p).result.Err?
    ensures SendPacketSpec(SendPacketSpec(s, p).post, p) == SendPacketSpec(s, p)
  {
  }

  // ---------------------------------------------------------------- RecvPacket

  /** One RecvPacket call's arguments. */
  datatype Delivery = Delivery(packet: Packet, proof: Proof, proofHeight: uint64,
                               blockHeight: int64, ack: Bytes)

  function Recv(s: Store, d: Delivery, verify: Verifier): Step<Packet>
    requires FirstHopDefined(s, SourceKey(d.packet))
  {
    RecvPacketSpec(s, d.packet, d.proof, d.proofHeight, d.blockHeight, d.ack, verify)
  }

  /** Receives `ds` one after another; None as soon as one is rejected. */
  function RecvAll(s: Store, ds: seq<Delivery>, verify: Verifier): Option<Store>
    requires WellFormed(s)
    decreases |ds|
  {
    if ds == [] then Some(s)
    else
      var t := Recv(s, ds[0], verify);
      if t.result.Err? then None else RecvAll(t.post, ds[1..], verify)
  }

  /**
   * On an ordered channel, the sequences of any run of accepted receives are
   * the destination end's next-receive counter at the start and its
   * successors, in that order, and the counter ends |ds| further on.
   */
  lemma {:induction false} RecvOrderedRunContiguous(s: Store, ds: seq<Delivery>, verify: Verifier,
                                                    local: ChannelKey, dest: ChannelKey)
    requires WellFormed(s)
    requires RecvAll(s, ds, verify).Some?
    requires local in s.channels && s.channels[local].ordering == Ordered
    requires forall i :: 0 <= i < |ds| ==> SourceKey(ds[i].packet) == local && DestKey(ds[i].packet) == dest
    requires dest in s.nextSequenceRecv
    ensures dest in RecvAll(s, ds, verify).value.nextSequenceRecv
    ensures RecvAll(s, ds, verify).value.nextSequenceRecv[dest] == AddWrapping(s.nextSequenceRecv[dest], |ds|)
    ensures forall i :: 0 <= i < |ds| ==> ds[i].packet.sequence == AddWrapping(s.nextSequenceRecv[dest], i)
    decreases |ds|
  {
    if ds != [] {
      var start := s.nextSequenceRecv[dest];
      var t := Recv(s, ds[0], verify);
      RecvOrderedRunContiguous(t.post, ds[1..], verify, local, dest);
      AddAfterIncrement(start, |ds| - 1);
      forall i | 0 <= i < |ds|
        ensures ds[i].packet.sequence == AddWrapping(start, i)
      {
        if i > 0 {
          assert ds[i] == ds[1..][i - 1];
          AddAfterIncrement(start, i - 1);
        }
      }
    }
  }

  /** On an ordered channel a packet that was accepted is rejected as an invalid sequence when delivered again. */
  lemma RecvOrderedReplayRejected(s: Store, d: Delivery, verify: Verifier)
    requires FirstHopDefined(s, SourceKey(d.packet))
    requires Recv(s, d, verify).result.Ok?
    requires s.channels[SourceKey(d.packet)].ordering == Ordered
    ensures Recv(Recv(s, d, verify).post, d, verify).result == Err(InvalidPacketSequence)
  {
  }

  /**
   * On an unordered channel the keeper does not guard against replay: a
   * packet that was accepted is accepted again, rewriting the same
   * acknowledgement, and nothing else changes.
   */
  lemma RecvUnorderedReplayAccepted(s: Store, d: Delivery, verify: Verifier)
    requires FirstHopDefined(s, SourceKey(d.packet))
    requires Recv(s, d, verify).result.Ok?
    requires s.channels[SourceKey(d.packet)].ordering == Unordered
    ensures Recv(Recv(s, d, verify).post, d, verify) == Step(Ok(d.packet), Recv(s, d, verify).post)
  {
  }

  /**
   * On an unordered channel RecvPacket neither reads nor writes the receive
   * counters: whatever they hold, the result and the acknowledgements
   * written are the same, and the counters are left as they were.
   */
  lemma RecvUnorderedIgnoresReceiveCounters(s: Store, d: Delivery, verify: Verifier,
                                            counters: map<ChannelKey, uint64>)
    requires FirstHopDefined(s, SourceKey(d.packet))
    requires SourceKey(d.packet) in s.channels
    requires s.channels[SourceKey(d.packet)].ordering == Unordered
    ensures Recv(s.(nextSequenceRecv := counters), d, verify).result == Recv(s, d, verify).result
    ensures Recv(s.(nextSequenceRecv := counters), d, verify).post
         == Recv(s, d, verify).post.(nextSequenceRecv := counters)
  {
  }

  /**
   * When every earlier check passes but the local block height has reached
   * the packet's timeout, RecvPacket reports a receive timeout and writes
   * nothing, not even the acknowledgement.
   */
  lemma RecvReportsTimeout(s: Store, d: Delivery, verify: Verifier)
    requires FirstHopDefined(s, SourceKey(d.packet))
    requires RecvGatesBeforeTimeout(s, d.packet)
    requires AsUint64(d.blockHeight) >= d.packet.timeoutHeight
    ensures Recv(s, d, verify) == Step(Err(ReceiveTimeout), s)
  {
  }

  /** An empty acknowledgement on an unordered channel is still written once the gates pass. */
  lemma RecvUnorderedWritesEmptyAck(s: Store, d: Delivery, verify: Verifier)
    requires FirstHopDefined(s, SourceKey(d.packet))
    requires RecvGatesPass(s, d.packet, d.proof, d.proofHeight, d.blockHeight, verify)
    requires s.channels[SourceKey(d.packet)].ordering == Unordered
    requires d.ack == []
    ensures AckKey(d.packet) in Recv(s, d, verify).post.acknowledgements
    ensures Recv(s, d, verify).post.acknowledgements[AckKey(d.packet)] == []
  {
  }

  /**
   * A rejected receive is rejected again with the same error when repeated,
   * even when the ordered sequence check rejected it after the
   * acknowledgement had been written.
   */
  lemma RecvRejectionRepeats(s: Store, d: Delivery, verify: Verifier)
    requires FirstHopDefined(s, SourceKey(d.packet))
    requires Recv(s, d, verify).result.Err?
    ensures Recv(Recv(s, d, verify).post, d, verify) == Recv(s, d, verify)
  {
  }

  // ------------------------------------------------------------- CleanupPacket

  /**
   * An accepted cleanup found the packet's data committed under its key, or
   * found no commitment at all for a packet with empty data (a missing
   * commitment reads as nil, which equals the empty string).
   */
  lemma CleanupChecksCommitment(s: Store, p: Packet, proof: Proof, proofHeight: uint64,
                                nextSequenceRecv: uint64, ack: Bytes, verify: Verifier)
    requires FirstHopDefined(s, SourceKey(p))
    requires CleanupPacketSpec(s, p, proof, proofHeight, nextSequenceRecv, ack, verify).result.Ok?
    ensures CommitmentKey(p) in s.commitments ==> s.commitments[CommitmentKey(p)] == p.data
    ensures CommitmentKey(p) !in s.commitments ==> p.data == []
    ensures CommitmentKey(p) !in CleanupPacketSpec(s, p, proof, proofHeight, nextSequenceRecv, ack, verify).post.commitments
  {
  }

  /**
   * A proven next-receive counter at or past the packet's sequence makes
   * CleanupPacket reject without writing; once the channel, capability,
   * counterparty and connection checks pass, the error is "packet already
   * received".
   */
  lemma CleanupReportsAlreadyReceived(s: Store, p: Packet, proof: Proof, proofHeight: uint64,
                                      nextSequenceRecv: uint64, ack: Bytes, verify: Verifier)
    requires FirstHopDefined(s, SourceKey(p))
    requires nextSequenceRecv >= p.sequence
    ensures CleanupPacketSpec(s, p, proof, proofHeight, nextSequenceRecv, ack, verify).result.Err?
    ensures CleanupPacketSpec(s, p, proof, proofHeight, nextSequenceRecv, ack, verify).post == s
    ensures CleanupGatesBeforeSequence(s, p) ==>
      CleanupPacketSpec(s, p, proof, proofHeight, nextSequenceRecv, ack, verify).result
        == Err(PacketAlreadyReceived)
  {
  }

  /**
   * When every earlier check passes but the stored commitment (nil when
   * absent) differs from the packet's data, CleanupPacket reports that the
   * packet has not been sent and keeps the store, commitment included.
   */
  lemma CleanupReportsNotSent(s: Store, p: Packet, proof: Proof, proofHeight: uint64,
                              nextSequenceRecv: uint64, ack: Bytes, verify: Verifier)
    requires FirstHopDefined(s, SourceKey(p))
    requires CleanupGatesBeforeSequence(s, p)
    requires nextSequenceRecv < p.sequence
    requires StoredCommitment(s.commitments, CommitmentKey(p)) != p.data
    ensures CleanupPacketSpec(s, p, proof, proofHeight, nextSequenceRecv, ack, verify)
         == Step(Err(PacketNotSent), s)
  {
  }

  /** A rejected cleanup writes nothing, so the same call is rejected again with the same error. */
  lemma CleanupRejectionRepeats(s: Store, p: Packet, proof: Proof, proofHeight: uint64,
                                nextSequenceRecv: uint64, ack: Bytes, verify: Verifier)
    requires FirstHopDefined(s, SourceKey(p))
    requires CleanupPacketSpec(s, p, proof, proofHeight, nextSequenceRecv, ack, verify).result.Err?
    ensures var t := CleanupPacketSpec(s, p, proof, proofHeight, nextSequenceRecv, ack, verify);
            CleanupPacketSpec(t.post, p, proof, proofHeight, nextSequenceRecv, ack, verify) == t
  {
  }

  // ---------------------------------------------------------------- Round trip

  /**
   * On the sending chain: after SendPacket commits `p` on an open channel,
   * a cleanup whose proof the verifier accepts and whose proven counter is
   * below the sequence is accepted, and afterwards no commitment for `p`
   * remains, the other commitments are those before the send, and the send
   * counter stays advanced.
   */
  lemma SendThenCleanup(s: Store, p: Packet, proof: Proof, proofHeight: uint64,
                        nextSequenceRecv: uint64, ack: Bytes, verify: Verifier)
    requires WellFormed(s)
    requires SendPacketSpec(s, p).result.Ok?
    requires s.channels[SourceKey(p)].state == Open
    requires nextSequenceRecv < p.sequence
    requires var channel := s.channels[SourceKey(p)];
             var claim := CleanupClaim(channel, p, nextSequenceRecv, ack);
             verify(s.connections[FirstHop(channel)], proofHeight, proof, claim.0, claim.1)
    ensures var sent := SendPacketSpec(s, p).post;
            var t := CleanupPacketSpec(sent, p, proof, proofHeight, nextSequenceRecv, ack, verify);
            && t.result == Ok(p)
            && t.post.commitments == s.commitments - {CommitmentKey(p)}
            && t.post.nextSequenceSend == sent.nextSequenceSend
  {
  }

  /**
   * The verifier is sound about the receiver's next-receive counter of `dest`:
   * it certifies a value on that path only if the receiver's store holds it.
   */
  ghost predicate SoundForReceiveCounter(verify: Verifier, receiver: Store, dest: ChannelKey)
  {
    forall c: Connection, h: uint64, proof: Proof, v: Bytes ::
      verify(c, h, proof, NextSequenceRecvPath(dest.port, dest.channel), v) ==>
        dest in receiver.nextSequenceRecv && v == Uint64ToBigEndian(receiver.nextSequenceRecv[dest])
  }

  /**
   * The verifier is sound about the receiver's acknowledgements: it certifies
   * a value on an acknowledgement path only if the receiver stores that ack.
   */
  ghost predicate SoundForAcknowledgements(verify: Verifier, receiver: Store)
  {
    forall c: Connection, h: uint64, proof: Proof, port: PortId, channel: ChannelId, sequence: uint64, v: Bytes ::
      verify(c, h, proof, PacketAcknowledgementPath(port, channel, sequence), v) ==>
        PacketKey(port, channel, sequence) in receiver.acknowledgements &&
        v == receiver.acknowledgements[PacketKey(port, channel, sequence)]
  }

  /**
   * The lifecycle of one packet on an ordered channel, as the code is
   * written: sent on one chain, received on the other, then cleaned up on the
   * first with a verifier that certifies only the receiver's real counter.
   * The send commits the data and the receive advances the receiver's
   * counter to one past the sequence. Every cleanup attempt is then
   * rejected and the commitment stays: presenting the real counter hits
   * "packet already received", and any smaller counter has no valid proof.
   */
  lemma OrderedLifecycle(a: Store, b: Store, p: Packet, d: Delivery, verify: Verifier,
                         proof: Proof, proofHeight: uint64, nextSequenceRecv: uint64, ack: Bytes)
    requires WellFormed(a) && WellFormed(b)
    requires d.packet == p
    requires p.sequence < UINT64_MAX
    requires SendPacketSpec(a, p).result.Ok?
    requires a.channels[SourceKey(p)].ordering == Ordered
    requires Recv(b, d, verify).result.Ok?
    requires b.channels[SourceKey(p)].ordering == Ordered
    requires SoundForReceiveCounter(verify, Recv(b, d, verify).post, DestKey(p))
    ensures SendPacketSpec(a, p).post.commitments[CommitmentKey(p)] == p.data
    ensures Recv(b, d, verify).post.nextSequenceRecv[DestKey(p)] == p.sequence + 1
    ensures var sent := SendPacketSpec(a, p).post;
            CleanupPacketSpec(sent, p, proof, proofHeight, nextSequenceRecv, ack, verify).result.Err? &&
            CleanupPacketSpec(sent, p, proof, proofHeight, nextSequenceRecv, ack, verify).post == sent
    ensures var sent := SendPacketSpec(a, p).post;
            nextSequenceRecv == Recv(b, d, verify).post.nextSequenceRecv[DestKey(p)] &&
            CleanupGatesBeforeSequence(sent, p) ==>
              CleanupPacketSpec(sent, p, proof, proofHeight, nextSequenceRecv, ack, verify).result
                == Err(PacketAlreadyReceived)
  {
    var sent := SendPacketSpec(a, p).post;
    var counter := Recv(b, d, verify).post.nextSequenceRecv[DestKey(p)];
    if FirstHop(sent.channels[SourceKey(p)]) in sent.connections {
      var connection := sent.connections[FirstHop(sent.channels[SourceKey(p)])];
      var value := Uint64ToBigEndian(nextSequenceRecv);
      if verify(connection, proofHeight, proof, NextSequenceRecvPath(p.destPort, p.destChannel), value) {
        Uint64ToBigEndianInjective(nextSequenceRecv, counter);
      }
    }
  }

  /**
   * The lifecycle of one packet on an unordered channel, as the code is
   * written: RecvPacket stores the acknowledgement under the packet's
   * destination port and channel, but CleanupPacket asks for a proof of the
   * acknowledgement under its source port and channel. When those differ
   * and the receiver holds no acknowledgement under the source fields, no
   * cleanup with a verifier sound for the receiver's acknowledgements is
   * accepted, and the commitment stays.
   */
  lemma UnorderedLifecycle(a: Store, b: Store, p: Packet, d: Delivery, verify: Verifier,
                           proof: Proof, proofHeight: uint64, nextSequenceRecv: uint64, ack: Bytes)
    requires WellFormed(a) && WellFormed(b)
    requires d.packet == p
    requires SendPacketSpec(a, p).result.Ok?
    requires a.channels[SourceKey(p)].ordering == Unordered
    requires Recv(b, d, verify).result.Ok?
    requires b.channels[SourceKey(p)].ordering == Unordered
    requires SourceKey(p) != DestKey(p)
    requires CommitmentKey(p) !in b.acknowledgements
    requires SoundForAcknowledgements(verify, Recv(b, d, verify).post)
    ensures AckKey(p) in Recv(b, d, verify).post.acknowledgements
    ensures CommitmentKey(p) !in Recv(b, d, verify).post.acknowledgements
    ensures var sent := SendPacketSpec(a, p).post;
            CleanupPacketSpec(sent, p, proof, proofHeight, nextSequenceRecv, ack, verify).result.Err? &&
            CleanupPacketSpec(sent, p, proof, proofHeight, nextSequenceRecv, ack, verify).post == sent
  {
  }
}
