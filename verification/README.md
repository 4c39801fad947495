# IBC channel keeper: packet lifecycle

This project models the packet handlers of the IBC channel keeper
(`x/ibc/04-channel/keeper/packet.go`). They implement the packet-flow part of
ICS 004 (Channel & Packet Semantics). There are three guarded transitions
over the keeper's key-value store:

- `SendPacket` commits an outgoing packet and advances the channel end's
  send counter.
- `RecvPacket` accepts a packet proven to have been committed on the
  counterparty. It may write an acknowledgement. On ordered channels it
  enforces strict in-order delivery through the receive counter.
- `CleanupPacket` deletes a packet's commitment once the counterparty's
  state proves it is no longer needed.

Files:

- `uint64.dfy` (module `Uint64`): Go's fixed-width integers as used by the
  handlers. This covers the wrap-around of `n++` on a uint64, the
  `uint64(...)` conversion of the int64 block height, and the 8-byte
  big-endian encoding of a counter (`sdk.Uint64ToBigEndian`). The encoding
  comes with round-trip lemmas in both directions.
- `channel_types.dfy` (module `ChannelTypes`): channel ends, connection ends,
  packets, and the store keys. It also holds the proof key paths, as an
  injective datatype, and the handlers' errors: one error kind per error
  message, except that the two spellings of "channel (is) not open" share
  `ChannelNotOpen`. Within one handler every failure site has its own kind.
- `packet_spec.dfy` (module `PacketSpec`): the store as a value (`Store`) and
  one specification function per handler. Each handler's checks are written
  twice. One copy is the keeper's ordered chain, where the first failure
  names the error. The other is an order-free conjunction of everything that
  must hold. The contracts prove the two agree and say what the new store is.
- `keeper.dfy` (module `ChannelKeeper`): class `Keeper`. Its fields are the
  store's maps, and `verifyMembership` is a constant. Its three methods check
  the gates one by one with early returns, then update the maps. Each method
  is proved to return the result and leave the store that its specification
  function gives.
- `packet_properties.dfy` (module `PacketProperties`): lemmas relating
  several calls. They cover contiguous send runs, in-order ordered receive,
  replay behaviour, repeatable rejections, and the send/receive/cleanup
  round trip.

The model follows the code as written in the places below. In some of them
the code does not do what the handlers' own comments or ICS 004 lead one to
expect.

- `CleanupPacket` rejects with "packet already received" when the proven
  `nextSequenceRecv >= sequence` (`packet.go:63`). Its doc comment says
  ordered cleanup proves that the packet "has been received on the other
  end" (`packet.go:18-19`). As written, though, a proof that the counterparty's
  receive counter is at or past the packet makes cleanup fail.
  `PacketProperties.CleanupReportsAlreadyReceived` states this.
  Ordered cleanup succeeds exactly when the proof is of a counter below the
  sequence, that is, of a counterparty state in which the packet had not yet
  been received (for example at an earlier proof height).
  `PacketProperties.SendThenCleanup` states this acceptance.
  `PacketProperties.OrderedLifecycle` shows the other side: after an ordered
  send and receive, no cleanup is accepted if the verifier certifies only the
  receiver's counter after that receive. Its verifier is sound for that one
  store, not for the counterparty's state at each proof height.
- `RecvPacket` writes the acknowledgement under the packet's destination
  port and channel (`packet.go:221-222`). The unordered branch of
  `CleanupPacket` asks for a proof of it under the source port and channel
  (`packet.go:83`). `PacketProperties.UnorderedLifecycle` states what follows
  when the two differ.
- A missing commitment reads as nil, and `bytes.Equal(nil, [])` holds
  (`packet.go:67-68`). So a packet with empty data passes the "packet hasn't
  been sent" check of `CleanupPacket` even if it was never sent.
  `PacketProperties.CleanupChecksCommitment` states this.
- The timeout checks compare `height >= timeoutHeight` (`packet.go:142`,
  `packet.go:208`). A timeout height of 0 therefore never means "no
  timeout": such a packet is always rejected.
  `PacketProperties.SendZeroTimeoutRejected` states this.
- `CleanupPacket` checks the destination channel before looking up the
  connection, and the destination port after it (`packet.go:50-61`). The
  model keeps this order, which decides which error is reported.
- `RecvPacket` writes the acknowledgement before it checks the ordered
  sequence (`packet.go:220-235`). A sequence mismatch is therefore reported
  with the acknowledgement already in the store.

## Model

| member | source | states |
|---|---|---|
| `Uint64.WrappingIncrement` | x/ibc/04-channel/keeper/packet.go:155 | `nextSequence++` on a uint64: one more below the maximum, zero at the maximum, never the same value |
| `Uint64.AddAfterIncrement` | x/ibc/04-channel/keeper/packet.go:155-156 | one increment followed by k more equals k + 1 increments (mod 2^64) |
| `Uint64.AddWrappingDistinct` | x/ibc/04-channel/keeper/packet.go:151-156 | fewer than 2^64 increments never return to the starting counter value |
| `Uint64.AsUint64` | x/ibc/04-channel/keeper/packet.go:208 | `uint64(ctx.BlockHeight())`: a non-negative height is kept; a negative one becomes height + 2^64 |
| `Uint64.ToBigEndian` | x/ibc/04-channel/keeper/packet.go:78 | the big-endian encoding at a given width has exactly that many bytes |
| `Uint64.FromBigEndian` | x/ibc/04-channel/keeper/packet.go:78 | the number a big-endian byte string denotes is below 256^length |
| `Uint64.FromToBigEndian` | x/ibc/04-channel/keeper/packet.go:78 | decoding the encoding of any number that fits the width gives the number back |
| `Uint64.ToFromBigEndian` | x/ibc/04-channel/keeper/packet.go:78 | encoding the decoded value of any byte string at its own width gives the bytes back |
| `Uint64.Uint64ToBigEndian` | x/ibc/04-channel/keeper/packet.go:78 | `sdk.Uint64ToBigEndian`: eight bytes that decode back to the counter |
| `Uint64.Uint64ToBigEndianInjective` | x/ibc/04-channel/keeper/packet.go:75-79 | distinct counters have distinct encodings, so the ordered cleanup proof pins one counter value (used by `OrderedLifecycle`) |
| `PacketSpec.CleanupClaim` | x/ibc/04-channel/keeper/packet.go:72-88 | ORDERED: the proof must be about `NextSequenceRecvPath(destPort, destChannel)` with an 8-byte value that decodes to nextSequenceRecv; UNORDERED: about `PacketAcknowledgementPath(sourcePort, sourceChannel, sequence)` with the ack |
| `PacketSpec.SendFailure` | x/ibc/04-channel/keeper/packet.go:102-153 | the ordered chain of SendPacket checks finds no failure exactly when every gate holds: channel present and not CLOSED, capability present, destination equals the counterparty, connection present and not NONE, consensus height below the timeout, send counter present and equal to the sequence |
| `PacketSpec.SendPacketSpec` | x/ibc/04-channel/keeper/packet.go:101-160 | accepted iff all gates hold; a rejection leaves the store unchanged; an acceptance advances the send counter by one, stores the data as the commitment at (sourcePort, sourceChannel, sequence), and changes nothing else |
| `PacketSpec.RecvGateFailure` | x/ibc/04-channel/keeper/packet.go:172-218 | the ordered chain of RecvPacket checks finds no failure exactly when every gate holds: channel present and OPEN, capability present, packet source equals the counterparty, connection present and OPEN, block height below the timeout, proof of `ChannelPath(sourcePort, sourceChannel)` mapped to the data |
| `PacketSpec.RecvPacketSpec` | x/ibc/04-channel/keeper/packet.go:164-242 | a failed gate writes nothing; past the gates the ack is written at (destPort, destChannel, sequence) iff it is non-empty or the channel is UNORDERED (the helper `WritesAck`); UNORDERED accepts and leaves receive counters alone; ORDERED accepts iff the sequence equals the destination's next-receive counter, then advances it by one; rejection keeps counters; channels, connections, send counters and commitments never change; success returns the packet |
| `PacketSpec.CleanupFailure` | x/ibc/04-channel/keeper/packet.go:32-92 | the ordered chain of CleanupPacket checks finds no failure exactly when every gate holds: channel present and OPEN, capability present, destination equals the counterparty, connection present, proven nextSequenceRecv below the sequence, stored commitment equal to the data, proof of the ordering-dependent claim |
| `PacketSpec.CleanupPacketSpec` | x/ibc/04-channel/keeper/packet.go:24-96 | accepted iff all gates hold; a rejection leaves the store unchanged; an acceptance returns the packet and deletes exactly the commitment at (sourcePort, sourceChannel, sequence), leaving every other entry unchanged |
| `ChannelKeeper.Keeper.SendPacket` | x/ibc/04-channel/keeper/packet.go:101-160 | the early-return handler returns exactly the result and leaves exactly the store of `SendPacketSpec`, and keeps the store well formed |
| `ChannelKeeper.Keeper.RecvPacket` | x/ibc/04-channel/keeper/packet.go:164-242 | the handler, including its ack write before the ordered sequence check, returns exactly the result and leaves exactly the store of `RecvPacketSpec` |
| `ChannelKeeper.Keeper.CleanupPacket` | x/ibc/04-channel/keeper/packet.go:24-96 | the handler, with its switch on ordering, returns exactly the result and leaves exactly the store of `CleanupPacketSpec` |
| `PacketProperties.SendSequenceAdvances` | x/ibc/04-channel/keeper/packet.go:151-156 | after sequence n is accepted, resending n fails with an invalid sequence, and n + 1 with any data is accepted |
| `PacketProperties.SendRunContiguous` | x/ibc/04-channel/keeper/packet.go:146-157 | in any run of accepted sends on one channel end, the i-th sequence is the starting counter + i, and the counter ends the length of the run further on (mod 2^64) |
| `PacketProperties.SendRunNoDuplicates` | x/ibc/04-channel/keeper/packet.go:151-156 | no run of at most 2^64 accepted sends on one channel end uses a sequence twice |
| `PacketProperties.SendZeroTimeoutRejected` | x/ibc/04-channel/keeper/packet.go:142-144 | a packet with timeout height 0 is always rejected and the store is unchanged |
| `PacketProperties.SendReportsInvalidHeight` | x/ibc/04-channel/keeper/packet.go:142-144 | with the earlier checks passing, a counterparty height at or past the timeout gives "invalid height" and no write |
| `PacketProperties.SendRejectionRepeats` | x/ibc/04-channel/keeper/packet.go:102-153 | repeating a rejected send gives the same error and the same store |
| `PacketProperties.RecvOrderedRunContiguous` | x/ibc/04-channel/keeper/packet.go:227-239 | on an ordered channel, the i-th accepted receive of any run carries the starting next-receive counter + i, and the counter ends the length of the run further on |
| `PacketProperties.RecvOrderedReplayRejected` | x/ibc/04-channel/keeper/packet.go:233-238 | on an ordered channel, redelivering an accepted packet fails with an invalid sequence |
| `PacketProperties.RecvUnorderedReplayAccepted` | x/ibc/04-channel/keeper/packet.go:220-241 | on an unordered channel, redelivering an accepted packet is accepted again and changes nothing further |
| `PacketProperties.RecvUnorderedIgnoresReceiveCounters` | x/ibc/04-channel/keeper/packet.go:227-239 | on an unordered channel, the result and the new store do not depend on the receive counters, which stay as they were |
| `PacketProperties.RecvReportsTimeout` | x/ibc/04-channel/keeper/packet.go:208-210 | with the earlier checks passing, a block height at or past the timeout gives "packet receive timeout" and no write, not even the ack |
| `PacketProperties.RecvUnorderedWritesEmptyAck` | x/ibc/04-channel/keeper/packet.go:220-225 | on an unordered channel past the gates, an empty acknowledgement is still written for the sequence (`WritesAck` holds) |
| `PacketProperties.RecvRejectionRepeats` | x/ibc/04-channel/keeper/packet.go:172-239 | repeating a rejected receive gives the same error and the same store, even when the rejection came after the ack write |
| `PacketProperties.CleanupChecksCommitment` | x/ibc/04-channel/keeper/packet.go:67-70 | an accepted cleanup found the packet's data committed, or no commitment and empty data, since `StoredCommitment` reads a missing commitment as nil; afterwards no commitment remains for the packet |
| `PacketProperties.CleanupReportsAlreadyReceived` | x/ibc/04-channel/keeper/packet.go:63-65 | a proven nextSequenceRecv at or past the sequence always makes cleanup reject without a write; once the channel, capability, counterparty and connection checks pass, the error is "packet already received" |
| `PacketProperties.CleanupReportsNotSent` | x/ibc/04-channel/keeper/packet.go:67-70 | with the earlier checks passing, a stored commitment (`StoredCommitment`, nil when absent) that differs from the data gives "packet hasn't been sent", and the store, commitment included, is unchanged |
| `PacketProperties.CleanupRejectionRepeats` | x/ibc/04-channel/keeper/packet.go:32-92 | repeating a rejected cleanup gives the same error and the same store |
| `PacketProperties.SendThenCleanup` | x/ibc/04-channel/keeper/packet.go:94-157 | on an open channel, an accepted send followed by a verified cleanup with a counter below the sequence is accepted; the commitments are then those before the send, without the packet's |
| `PacketProperties.OrderedLifecycle` | x/ibc/04-channel/keeper/packet.go:63-95 | ordered send, then receive on the counterparty, then cleanup, with a verifier that certifies only the receiver's real next-receive counter: the send commits the data, the receiver's counter becomes sequence + 1, every cleanup attempt is rejected with the commitment kept, and presenting the real counter gives "packet already received" |
| `PacketProperties.UnorderedLifecycle` | x/ibc/04-channel/keeper/packet.go:80-85 | unordered send, receive and cleanup, with a verifier sound for the receiver's acknowledgements: the ack is stored under the destination fields and not the source fields, so when the two differ every cleanup is rejected and the commitment is kept |

## Left out

- Membership-proof verification (`connectionKeeper.VerifyMembership`) is
  Merkle proof checking in the connection keeper, which is not part of this
  model. It is an arbitrary total predicate over (connection, proof height,
  proof, path, value), passed to the specification functions and held as a
  constant by the keeper. Nothing is assumed about it.
- The connection and client keepers (`GetConnection`, `GetConsensusState`)
  are not part of this model. Their data is two partial maps of the store:
  connections by id, and the consensus height by client id.
- The key-path builders (`ChannelPath`, `NextSequenceRecvPath`,
  `PacketAcknowledgementPath`) are represented by an injective datatype of
  paths, not by their byte encodings.
- Capability authentication is commented out in the handlers. Only the
  existence of the channel capability is modelled.
- The `default: panic` on an unknown channel ordering cannot be reached,
  because `Order` has exactly two values.
- Indexing `ConnectionHops[0]` on an empty list is a Go panic. Every stored
  channel is required to have at least one hop (`FirstHopDefined`,
  `Keeper.Valid`).
- Error messages are replaced by error kinds: one per message, with the two spellings of "channel (is) not open" sharing `ChannelNotOpen`. Kinds such as `ChannelNotFound` recur across handlers, but within one handler every failure site has its own kind.
- `sdk.Context` is not modelled. The block height `RecvPacket` reads from it
  is an int64 parameter.
- The SDK's revert of a failed transaction's writes belongs to the caller
  and is not modelled. At the keeper level an ordered `RecvPacket` that
  fails its sequence check keeps the acknowledgement it wrote, and the model
  says so.
- Commitments and acknowledgements store raw bytes, as the code does; there
  is no hashing.
- `x/staking/types/historical_info.go` (validator-set snapshots) is unrelated
  to packet flow and is not part of this model. It holds codec wrappers, a
  sort using a comparator that is not available, and string formatting.
- `PacketProperties.SendRunNoDuplicates`: distinctness is stated only for
  runs of at most 2^64 sends, because the uint64 counter wraps after that.
