# A verified model of the libp2p daemon

This project models, in Dafny, the parts of go-libp2p-daemon in which the most can go wrong, and
proves what they are for:

* **The protobuf codec** generated in `pb/p2pd.pb.go`: the encoder that fills a pre-sized buffer
  from its end, the decoder with its 64-bit wrap-around, presence bits, merging and unknown fields,
  and the group-aware skipper.
* **Unary calls over persistent connections** (`persistent_stream.go`, `daemon.go`,
  `p2pclient/unary_handlers.go`): two transition systems whose steps are lock sections, message
  writes and reads, and channel handoffs, for any number of clients, daemons and calls.
* **The control connection** (`conn.go`, `dht.go`, `p2pclient/dht.go`), the **frames** both sides
  share (`internal/utils/safe_writer.go`, `p2pclient/streams.go`) and the **bootstrap** loop.

`dafny verify dfyconfig.toml` checks everything.

## How it is built

| files | contents |
|---|---|
| `Options`, `Wire` | absent values; bytes, 32- and 64-bit conversions, varints, in-place varint encoder, varint reader |
| `Skip` | wire records as trees, their rendering, and the skipper |
| `Schema`, `P2pd` | message types as tables of fields, and the table of all 23 messages of `p2pd.proto` |
| `Fields`, `Message` | reading one field; message values and what makes them complete and canonical |
| `Encode`, `Decode` | forward encoding, size, backward in-place encoder; the decoding loop |
| `Pieces`, `Canonical`, `RoundTrip`, `WireOrder`, `Merge` | the theorems about the codec |
| `ByTag`, `P2pdFields` | decoding in terms of tag bytes, and what every message of the daemon means by its tag bytes |
| `Protocol`, `PersistentMessages` | the messages of a persistent connection, by field name and on the wire |
| `Registry` | one daemon: which connection owns which unary protocol; the wait group |
| `UnaryCalls`, `UnaryInvariant`, `UnarySteps` | the unary-call system over many daemons, each with its registry; its invariant, and that every step keeps it |
| `UnaryTheorems`, `UnaryRegistry`, `UnaryNil`, `UnaryWaiters`, `UnaryProgress`, `UnaryAnswers` | what follows for every run, and that calls and adds can go through, fail and be cancelled |
| `Agreement`, `UnaryIsolation` | maps that agree outside some keys, and that calls do not interfere |
| `Framing`, `Session`, `DhtStream`, `Bootstrap` | frames, the session loop, DHT streaming, shuffle and bootstrap loop |

The generated codec repeats the same code for every field of every message. The model has that code
once, driven by a table (`MsgTable`), and the theorems hold for every table that satisfies `DefOk`;
`P2pd.Table` is the table of this daemon. A message is a list of slots (one per field, or per oneof)
plus its unrecognized bytes. `MsgOk` grades messages: `Typed` (fields of the right kinds),
`Complete` (required fields set, at every depth), `Clean` (complete, and unrecognized bytes are
whole undeclared records), `Canonical` (clean, and no oneof wrapper around a nil payload).

In the transition systems a run is a sequence of labels, `Exec(run)` is the state it leads to if
every step was possible, and theorems speak about every run. Fields marked as history are read by
no step.

Assumptions, all about code outside the model: call ids are fresh; a host does not dial itself;
after a failed write a connection carries no more bytes; no protocol name is used both for a unary
handler and for a stream handler. Two things that end a process have no step: a client asked for a
handler it has not stored yet, and a daemon about to encode a nil response.

## Findings

* A disconnect may overtake an add: the protocol is then registered to a connection that is gone, for
  the life of the daemon (`Registry.Overtaken`, `Registry.OvertakenForever`). The add need not have
  been served at the clean-up (`Registry.PendingReachable`). For each protocol it comes to that in
  some continuation if and only if, at the clean-up, an add of the connection for it lies between its
  two sections of the mutex, or has yet to take the first while the protocol is not already stuck
  with a connection that is gone (`Registry.LeftBehindIff`).
* A handler error with an empty text reaches the caller as a success with an empty value
  (`UnaryProgress.EmptyErrorIsValue`); a call reports an error of its handler exactly when that had
  a text (`UnaryTheorems.HandlerErrorIff`).
* A cancelled call may leave its goroutine with a nil response to write (`UnaryNil.NilCanHappen`);
  only a Cancel of the call's own client does that (`UnaryNil.NilMeansCancel`). A call in exchange
  can come to that if and only if the exchange has no error to send (`UnaryNil.NilIff`).
* If it has, a Cancel can leave the exchange's goroutine sending on a channel from which nobody
  receives (`UnaryNil.BlockedCanHappen`). It ends in some continuation if and only if the call's
  goroutine still selects on it (`UnaryNil.ErrorTakenIff`).
* A response may come while its call's stream is being given up: the goroutine that hands it over then
  blocks for good (`UnaryWaiters.UnheardCanHappen`). It ends in some continuation if and only if the
  stream's handler has neither taken a response nor left (`UnaryWaiters.ResponseTakenIff`).
* A oneof wrapper around a nil payload encodes to nothing; the round trip is the identity exactly on
  messages without one (`RoundTrip.RoundTripUpToNil`). A client whose handler returns a nil slice
  makes such a message, and it is read back as an answer without a result
  (`PersistentMessages.NilResponseLost`).
* END on a DHT stream does not mean that everything found was sent: after a timeout it comes all the
  same, from every state in which no write has failed, right after the values already taken over
  (`DhtStream.EndAfterTimeout`).
  It means so if and only if the producer did not leave by its ended context with values still to
  send (`DhtStream.DaemonWrites`).

## Model

| member | source | states |
|---|---|---|
| Wire.SovIsLength | pb/p2pd.pb.go:4142-4144 | `sovP2Pd` is the number of bytes the varint encoder writes |
| Wire.EncVarintBound | pb/p2pd.pb.go:4142-4144 | a 64-bit value takes 1 to 10 bytes |
| Wire.EncVarintMinimal | pb/p2pd.pb.go:3463-3473 | no sequence of base-128 groups for a value is shorter than its encoding |
| Wire.EncVarintIsVarint | pb/p2pd.pb.go:3463-3473 | the encoder's bytes are one varint and stand for the value |
| Wire.VarintRoundTrip | pb/p2pd.pb.go:3463-3473 | every 64-bit value is read back by the decoding loop, which stops right after it |
| Wire.NegativeInt32TenBytes | pb/p2pd.pb.go:2850-2854 | a negative int32 is written in ten bytes, and what the decoding loop reads of them is that int32 again after truncation to 32 bits |
| Wire.EncodeVarint | pb/p2pd.pb.go:3463-3473 | in place: exactly the bytes before `offset` are overwritten, with the value's encoding |
| Wire.VarintAtSound | pb/p2pd.pb.go:4152-4168 | what the decoding loop accepts is a varint of at most ten bytes, and its value |
| Wire.VarintAtComplete | pb/p2pd.pb.go:4152-4168 | every such varint is accepted |
| Wire.OrStep | pb/p2pd.pb.go:4164 | the loop's shift and OR, in an accumulator of any width: it then holds the low bits of the number read so far with the new group |
| Wire.ReadVarint | pb/p2pd.pb.go:4152-4168 | the unrolled loop with a 32- or 64-bit accumulator, shifting and OR-ing, computes the value modulo its width, never reads past the end, and fails exactly on overflow and on a short slice |
| Skip.SkipRecord | pb/p2pd.pb.go:7798-7875 | the loop terminates on every slice, indexes inside it, and computes `SkipFrom` |
| Skip.SkipComplete | pb/p2pd.pb.go:7798-7875 | at a record of the grammar the skipper stops right after it, and inside a group goes on there |
| Skip.SkipSound | pb/p2pd.pb.go:7798-7875 | what was skipped is one record, or the rest of the open groups, each closed by its own end-group |
| Skip.SkipIffRecord | pb/p2pd.pb.go:7798-7875 | success inside the slice if and only if one record of the grammar stands there; the length is the record's, whatever follows |
| Skip.SkipPastEnd | pb/p2pd.pb.go:4453-4464 | a length past the end, which every caller rejects, means that no record fits |
| Skip.RecordsArePrefixFree | pb/p2pd.pb.go:7798-7875 | no record is a proper prefix of another |
| Skip.SkipLocal | pb/p2pd.pb.go:7798-7875 | skipping depends on the record's own bytes only |
| Schema.Lookup | pb/p2pd.pb.go:4180-4451 | a field number selects the slot that declares it, with its kind, and none exactly if no slot does |
| Fields.InvalidLengthExactly | pb/p2pd.pb.go:4218-4226 | the two sign tests fire exactly when the length, or index plus length, does not fit in 63 bits |
| Fields.ReadSpan | pb/p2pd.pb.go:4200-4230 | the length-delimited part of a field, with wrap-around, as specified |
| Fields.ReadKnown | pb/p2pd.pb.go:6037-6214 | a declared field: number of 32 or 64 bits, or delimited bytes |
| Fields.ReadUnknown | pb/p2pd.pb.go:4451-4469 | an undeclared field is skipped and kept, tag included |
| Fields.ReadField | pb/p2pd.pb.go:4152-4183 | tag, field number, wire type checks, then the field |
| Fields.FieldSame | pb/p2pd.pb.go:4152-4469 | a field depends on its own bytes only |
| Encode.SizeIsLength | pb/p2pd.pb.go:3474-3515 | `Size` of a message is the length of its encoding, at every depth |
| Encode.SizeEntryIsLength | pb/p2pd.pb.go:3577-3600 | the same for one field, oneof wrappers included |
| Encode.PutHeader | pb/p2pd.pb.go:2082-2095 | tag and varint go right before what is written already |
| Encode.MarshalEntry | pb/p2pd.pb.go:2328-2347 | one field in its window: exactly its encoding at the end, or an error when a required field is missing inside |
| Encode.MarshalSlot | pb/p2pd.pb.go:2975-2988 | a missing required field is an error |
| Encode.MarshalNext | pb/p2pd.pb.go:2305-2325 | a oneof gets a window of exactly its own size, and its bytes land right before the rest |
| Encode.MarshalEntries | pb/p2pd.pb.go:2961-2980 | repeated values, last first, end up in order |
| Encode.MarshalSlots | pb/p2pd.pb.go:2072-2173 | the fields, last first, end up in order |
| Encode.MarshalToSizedBuffer | pb/p2pd.pb.go:2072-2173 | on a window of at least `Size` bytes it fills exactly the last `Size` with the forward encoding, touches nothing else, returns `Size`; it fails exactly when a required field is missing somewhere |
| Encode.Marshal | pb/p2pd.pb.go:2057-2065 | the buffer is filled to index 0: the result is the forward encoding |
| Decode.Unmarshal | pb/p2pd.pb.go:4148-4475 | for every slice the loop terminates, stays inside it, and computes `DecodeMsg` |
| Decode.UpdateMsg | pb/p2pd.pb.go:4228-4234 | what one field does to the message: append, replace, or decode into what is there |
| Decode.DecodePrefix | pb/p2pd.pb.go:4148-4475 | what follows in the slice does not change how its beginning is decoded |
| Decode.DecodeSuffix | pb/p2pd.pb.go:4148-4475 | nor does what comes before |
| Decode.FeedsConcat | pb/p2pd.pb.go:4148-4475 | decoding a concatenation is decoding its parts in order |
| Decode.PresenceBits | pb/p2pd.pb.go:4149-4150 | presence bits only accumulate and influence nothing else |
| Pieces.UnmarshalKeepsUnknown | pb/p2pd.pb.go:4451-4474 | success means every byte was consumed, field by field; undeclared fields are kept byte for byte in order, however interleaved or encoded |
| Canonical.DecodeOk | pb/p2pd.pb.go:4148-4475 | whatever is accepted gives a message with required fields set at every depth, and keeps the shape of the target |
| Canonical.DecodeCanonical | pb/p2pd.pb.go:4148-4475 | into an empty message it gives a canonical one |
| Canonical.DeclaredFieldIff | pb/p2pd.pb.go:4180-4210 | a record is accepted for a declared field, with the value it says, if and only if its tag has the field's number and the wire type of its kind |
| Canonical.UnknownRecordIff | pb/p2pd.pb.go:4451-4469 | an undeclared field is a record of the grammar whose tag names no field of the message |
| RoundTrip.RoundTrips | pb/p2pd.pb.go:2057-2173 | `Unmarshal` of `Marshal` is the identity on canonical messages: presence, order of repeated fields and unknown bytes included |
| RoundTrip.Recoding | pb/p2pd.pb.go:2165-2172 | what was decoded from any bytes is never rejected by `Marshal`, and decoding the new bytes gives the same message |
| RoundTrip.CanonicalIffDecodable | pb/p2pd.pb.go:4148-4475 | a message is canonical if and only if some bytes decode to it |
| RoundTrip.NormalEncoding | pb/p2pd.pb.go:3339-3349 | a oneof wrapper around nil encodes to nothing |
| RoundTrip.RoundTripUpToNil | pb/p2pd.pb.go:3334-3365 | every clean message comes back without its wrappers around nil, and comes back itself if and only if it has none |
| PersistentMessages.NilResponseClean | p2pclient/unary_handlers.go:21-27 | the response around a nil slice is a clean message and not a canonical one |
| PersistentMessages.NilResponseLost | p2pclient/unary_handlers.go:21-27 | it encodes to no bytes, which are read back as a response without a result |
| WireOrder.EncodingOrder | pb/p2pd.pb.go:2072-2173 | what is read off an encoding is the declared fields by their slots, and after them the unrecognized bytes |
| Merge.MergeTyped | pb/p2pd.pb.go:4228-4234 | merging keeps messages well typed |
| Merge.MergeAssociative | pb/p2pd.pb.go:4228-4234 | merging is associative |
| Merge.MergeEmptyLeft | pb/p2pd.pb.go:4228-4234 | the empty message is its left unit |
| Merge.MergeEmptyRight | pb/p2pd.pb.go:4228-4234 | and its right unit |
| Merge.DecodeMerges | pb/p2pd.pb.go:7515-7518 | decoding into a message accepts the same bytes with the same errors as into an empty one, and merges: last scalar wins, repeated fields append, embedded messages merge, oneofs are replaced |
| Merge.ConcatenationMerges | pb/p2pd.pb.go:6376-6502 | decoding a concatenation is merging what its parts decode to |
| Merge.DecodeTwice | pb/p2pd.pb.go:4148-4475 | decoding a concatenation into any message is decoding the second part after the first |
| P2pd.RowNumbered | pb/p2pd.pb.go:2072-2173 | each of the 23 messages numbers its fields consecutively from 1, below 16, in slots of the right kinds |
| P2pd.RowsOk | pb/p2pd.pb.go:2072-2173 | the table satisfies what the codec theorems ask of a table |
| ByTag.DecodeByTag | pb/p2pd.pb.go:4148-4475 | decoding declared fields in any order and number gives in every slot what that slot gathers, and is refused exactly if an embedded message is or a required field is missing |
| P2pdFields.Request | pb/p2pd.pb.go:4148-4475 | reads: of any sequence of fields under tags 08, 12, 1A, 22, 2A, 32, 3A and 42: the last type in 32 bits, each embedded request decoded into what came before it; refused without a type |
| P2pdFields.Response | pb/p2pd.pb.go:4476-4765 | reads: type under 08, five embedded messages that merge and, under 32, all peers in order; refused without a type |
| P2pdFields.PersistentConnectionRequest | pb/p2pd.pb.go:4766-4995 | reads: call id under 0A; of 12 (add), 1A (call), 22 (response) and 2A (cancel) the last one wins, decoded afresh; refused without a call id |
| P2pdFields.PersistentConnectionResponse | pb/p2pd.pb.go:4996-5225 | reads: call id under 0A; of 12 (response), 1A (request), 22 (error) and 2A (cancel) the last one wins, decoded afresh; refused without a call id |
| P2pdFields.IdentifyResponse | pb/p2pd.pb.go:5226-5347 | reads: the last id under 0A and all addresses under 12 in order; refused without an id |
| P2pdFields.ConnectRequest | pb/p2pd.pb.go:5348-5489 | reads: the last peer under 0A, all addresses under 12 in order, the last timeout under 18 in 64 bits; refused without a peer |
| P2pdFields.StreamOpenRequest | pb/p2pd.pb.go:5490-5631 | reads: the last peer under 0A, all protocols under 12 in order, the last timeout under 18 in 64 bits; refused without a peer |
| P2pdFields.StreamHandlerRequest | pb/p2pd.pb.go:5632-5753 | reads: the last address under 0A and all protocols under 12 in order; refused without an address |
| P2pdFields.ErrorResponse | pb/p2pd.pb.go:5754-5842 | reads: the last message under 0A; refused without one |
| P2pdFields.StreamInfo | pb/p2pd.pb.go:5843-6007 | reads: peer under 0A, address under 12, protocol under 1A, the last of each; refused if one is missing |
| P2pdFields.DhtRequest | pb/p2pd.pb.go:6008-6259 | reads: type under 08 and count under 30 in 32 bits, peer, cid, key and value under 12 to 2A, timeout under 38 in 64 bits, the last of each; refused without a type |
| P2pdFields.DhtResponse | pb/p2pd.pb.go:6260-6405 | reads: type under 08, peers under 12 that merge into one, the last value under 1A; refused without a type |
| P2pdFields.PeerInfo | pb/p2pd.pb.go:6406-6527 | reads: the last id under 0A and all addresses under 12 in order; refused without an id |
| P2pdFields.ConnManagerRequest | pb/p2pd.pb.go:6528-6690 | reads: type under 08, peer under 12, tag under 1A, weight under 20 in 64 bits, the last of each; refused without a type |
| P2pdFields.DisconnectRequest | pb/p2pd.pb.go:6691-6780 | reads: the last peer under 0A; refused without one |
| P2pdFields.PsRequest | pb/p2pd.pb.go:6781-6923 | reads: type under 08, topic under 12, data under 1A, the last of each; refused without a type |
| P2pdFields.PsMessage | pb/p2pd.pb.go:6924-7176 | reads: all topics under 22 in order, and the last of each other field; nothing is required |
| P2pdFields.PsResponse | pb/p2pd.pb.go:7177-7291 | reads: all topics under 0A and all peers under 12 in order; nothing is required |
| P2pdFields.CallUnaryRequest | pb/p2pd.pb.go:7292-7456 | reads: peer under 0A, protocol under 12, data under 1A, the last of each; refused if one is missing |
| P2pdFields.CallUnaryResponse | pb/p2pd.pb.go:7457-7573 | reads: of responses under 0A and errors under 12 the last one wins; nothing is required |
| P2pdFields.AddUnaryHandlerRequest | pb/p2pd.pb.go:7574-7662 | reads: the last protocol under 0A; refused without one |
| P2pdFields.DaemonError | pb/p2pd.pb.go:7663-7746 | reads: the last message under 0A; nothing is required |
| P2pdFields.Cancel | pb/p2pd.pb.go:7747-7796 | has no fields |
| PersistentMessages.RequestRoundTrip | pb/p2pd.pb.go:4766-4995 | every request of a persistent connection is read as it was written |
| PersistentMessages.ReplyRoundTrip | pb/p2pd.pb.go:4996-5225 | and every response |
| PersistentMessages.RequestWritten | pb/p2pd.pb.go:2298-2412 | the bytes of every request, with its tags written out: 0A for the call id, 12, 1A, 22 and 2A for the alternatives, and those of their fields |
| PersistentMessages.ReplyWritten | pb/p2pd.pb.go:2427-2540 | and of every response |
| PersistentMessages.RequestsDistinct | pb/p2pd.pb.go:2298-2326 | different requests never have the same bytes |
| PersistentMessages.RepliesDistinct | pb/p2pd.pb.go:2427-2455 | nor do different responses |
| Registry.Daemon.constructor | daemon.go:59-65 | no protocol is registered at first |
| Registry.Daemon.DoAddUnaryHandler | persistent_stream.go:110-128 | the first section of the mutex: refused exactly if the protocol is taken, and then nothing changes; else its handler and its entry are set |
| Registry.Daemon.CleanUp | persistent_stream.go:20-29 | the deferred loop removes exactly the listed protocols from both maps |
| Registry.InvStep | persistent_stream.go:18-76 | every step, in any interleaving of adds and disconnects, keeps the ownership invariant |
| Registry.RunInv | persistent_stream.go:18-76 | so it holds after every run |
| Registry.OneOwner | persistent_stream.go:66-76 | a protocol is taken exactly when it has an owner; an uncleaned connection's list has no duplicates, names only what it owns, and shares nothing with another |
| Registry.AddsSeparated | persistent_stream.go:110-128 | two successful adds of one protocol have the first owner's clean-up of it between them |
| Registry.CleanUpRemoves | persistent_stream.go:18-29 | right after a clean-up a protocol of its connection is left registered if and only if an accepted add of it is still in flight; all others are as they were |
| Registry.CleanUpComplete | persistent_stream.go:18-29 | with no add in flight, nothing of the connection is left right after its clean-up |
| Registry.CleanedForGood | persistent_stream.go:18-29 | if all its adds were over, the connection owns nothing in any continuation |
| Registry.Overtaken | persistent_stream.go:67-76 | an add overtaken between its two sections of the mutex leaves the protocol with a connection that is gone |
| Registry.OvertakenReachable | persistent_stream.go:67-76 | such a run exists |
| Registry.OvertakenForever | persistent_stream.go:110-128 | in every continuation that protocol stays taken |
| Registry.PendingReachable | persistent_stream.go:48-76 | an add that no goroutine has served at the clean-up is accepted after it, and the protocol is with a connection that is gone |
| Registry.LeftBehindIff | persistent_stream.go:18-76 | after a clean-up some continuation has the connection own a protocol if and only if at the clean-up an add of it for that protocol is accepted and unlisted, or unserved while the protocol is not stuck with another connection that is gone |
| Registry.StartsOnce | persistent_stream.go:38 | at most one step of a run starts the goroutine that awaits termination |
| Registry.Lifecycle | daemon.go:211-214 | the counter is the number of connections between Add and Done, the goroutine waits only while a connection is in, and the daemon is closed only if, after some connection had entered, none was left at some time |
| Registry.DaemonCloses | daemon.go:211-214 | whenever a connection has reached `terminateOnce` and none is left, the awaiting goroutine's own steps close the daemon |
| UnarySteps.KeepClient | p2pclient/unary_handlers.go:45-226 | every step of a client keeps the invariant |
| UnarySteps.KeepDaemon | persistent_stream.go:58-153 | every step of a request goroutine does |
| UnarySteps.KeepStream | persistent_stream.go:155-277 | every step of `exchangeMessages` and of the stream handler does |
| UnarySteps.RunInv | persistent_stream.go:58-293 | so the invariant holds after every run |
| UnaryTheorems.RunIsForItsCall | persistent_stream.go:216-256 | every run of a handler is for one call, on its own data, by the stream's owner at the peer it names, with a handler that client registered |
| UnaryTheorems.AtMostOnce | persistent_stream.go:216-293 | no call has its handler run twice |
| UnaryTheorems.StreamWasOpened | persistent_stream.go:136-140 | a stream leads to the connection that held the protocol when it was opened |
| UnaryTheorems.Routing | p2pclient/unary_handlers.go:155-226 | a call that returns a value or a handler error returns what the only run of a handler for it gave, byte by byte (a response as a value, an error with a text as that error, anything else as an empty value): on the call's data, at the peer it names, by the client that held the protocol when the stream was opened, with a handler it had registered |
| UnaryTheorems.HandlerErrorIff | p2pclient/unary_handlers.go:215-222 | a call that returned reports an error of the handler if and only if its handler's error had a text |
| UnaryTheorems.CancelMapHolds | persistent_stream.go:83-95 | the cancel map holds exactly the calls in service, each under its daemon and its own id, whether or not their answers could be written |
| UnaryWaiters.WaitersHold | persistent_stream.go:241-242 | the waiters' map holds exactly the stream handlers at work, each under its daemon and its call's id |
| UnaryWaiters.ResponseTakenIff | persistent_stream.go:279-293 | a goroutine that hands over a response ends in some continuation if and only if the stream's handler has neither taken a response nor left |
| UnaryWaiters.UnheardCanHappen | persistent_stream.go:258-270 | it comes to that when the calling peer goes away while the response is on its way; the handler's client is told that the call is cancelled |
| UnaryTheorems.HistoryMeans | p2pclient/unary_handlers.go:190-204 | a call counts as cancelled, or its context as ended, exactly when a step of the run was its Cancel, or the end of its context |
| UnaryTheorems.NotCancelled | persistent_stream.go:130-192 | a call whose client sent no Cancel is never answered with Cancel or nil, its context at the daemon stays until it is over, and what it gets carries its own id |
| UnaryTheorems.ContextNeverEnded | p2pclient/unary_handlers.go:190-225 | a call whose context never ended sends no Cancel and never returns by its context |
| UnaryTheorems.AnswersCarryId | persistent_stream.go:83-98 | every non-nil answer of a daemon carries the id of the request it answers |
| UnaryIsolation.Erased | persistent_stream.go:58-293 | a step of a call changes nothing that belongs to another operation |
| UnaryIsolation.Kept | persistent_stream.go:58-293 | a step of another operation is possible, and does the same, whatever steps of the call were left out |
| UnaryIsolation.StepsCanBeLeftOut | persistent_stream.go:58-293 | from any point of any run the steps of a call can be left out: what remains is a run, and everything else is as it was |
| UnaryIsolation.CancelIsolated | persistent_stream.go:100-107 | for every run and every call there is a run in which the call's client sends no Cancel and every other operation is at the same point with the same outcome |
| UnaryNil.NilMeansCancel | persistent_stream.go:146-164 | a nil answer arises only for a call whose client has sent a Cancel |
| UnaryNil.NilCanHappen | persistent_stream.go:146-189 | in every reachable state a call in exchange without an error to send may yet be answered nil: by the end of its context, the Cancel, the serving of that, and at most one step that closes the call's own exchange |
| UnaryNil.NilIff | persistent_stream.go:146-189 | a call in exchange is answered nil in some continuation if and only if its exchange has no error to send |
| UnaryNil.ErrorTakenIff | persistent_stream.go:161-175 | an exchange with an error to send ends in some continuation if and only if its call's goroutine still selects on it |
| UnaryNil.BlockedForGood | persistent_stream.go:161-175 | otherwise it stays at its send in every continuation |
| UnaryNil.BlockedCanHappen | persistent_stream.go:146-175 | a Cancel while an error is on offer can lead there |
| UnaryTheorems.Rendezvous | p2pclient/unary_handlers.go:77-81 | caller and reader share a channel exactly when the reader holds the response to that operation, whoever came first, and there is one such response |
| UnaryTheorems.FutureGone | p2pclient/unary_handlers.go:118-128 | once an operation has returned its future is gone, in every continuation |
| UnaryTheorems.AddedMeansAccepted | p2pclient/unary_handlers.go:130-153 | `AddUnaryHandler` succeeds only if the daemon accepted that request |
| UnaryRegistry.DaemonsAreRegistries | persistent_stream.go:18-128 | after every run of the unary-call system each daemon's connections and handlers are as after a run of the registry: the `Registry` theorems hold of every daemon |
| UnaryRegistry.ListedLeadsHere | persistent_stream.go:66-76 | so what a connection's list names leads streams to that connection |
| UnaryRegistry.AddsNeverStuck | persistent_stream.go:66-76 | an add's goroutine can take its first section of the mutex, and then its second, in every reachable state it is at |
| UnaryProgress.CallCanSucceed | persistent_stream.go:130-293 | from every reachable state where another peer's client has protocol and handler, the run can be continued so that a new call returns what its handler answers, byte by byte, with the caller first at the future and with the reader first |
| UnaryProgress.CallIsPossible | persistent_stream.go:18-76 | every call between clients of different peers is available in some run from the start: both connect and the owner adds the handler |
| UnaryProgress.EmptyErrorIsValue | p2pclient/unary_handlers.go:215-222 | from every such state a handler's failure with an empty text can end in the caller returning an empty value |
| UnaryProgress.AddCanSucceed | p2pclient/unary_handlers.go:130-153 | from every reachable state the run can be continued so that a handler is added for a protocol that is free, and no other daemon's registry changes |
| UnaryAnswers.OutcomeIsAnswer | p2pclient/unary_handlers.go:130-226 | every operation returns what an answer written by its own task says: an error with the daemon's text, the context for Cancelled, the handler's result, or Added |
| UnaryAnswers.AnswerIsReturned | persistent_stream.go:83-98 | whatever a task has to answer, its operation can return it |
| UnaryAnswers.CancelReturnsCtx | persistent_stream.go:146-152 | a task that takes the Cancel answers Cancelled, and its call returns only by its context |
| UnaryAnswers.CancelIsReturned | persistent_stream.go:146-152 | a call whose context is done in exchange can return so |
| UnaryAnswers.CallCanFail | persistent_stream.go:136-175 | a call without a stream yet, or with its exchange under way, can fail at its daemon, and its caller then gets the error's text |
| Framing.ByteReaderConn.constructor | p2pclient/streams.go:44-46 | a reader starts before the first byte |
| Framing.ByteReaderConn.ReadByte | p2pclient/streams.go:48-55 | one byte, or the end of the stream |
| Framing.ByteReaderConn.ReadUvarint | p2pclient/streams.go:58-61 | the length prefix: at most ten bytes, and no more than 64 bits |
| Framing.ByteReaderConn.CopyN | p2pclient/streams.go:62-66 | a negative count copies nothing and is no error |
| Framing.ByteReaderConn.ReadMsgBytesSafe | p2pclient/streams.go:57-71 | exactly the frame's bytes are consumed and its payload returned, or an error |
| Framing.FrameRoundTrip | p2pclient/streams.go:57-71 | a whole frame gives its payload and leaves what follows |
| Framing.PartialFrame | p2pclient/streams.go:57-71 | part of a frame is never taken for a message |
| Framing.HugeLength | p2pclient/streams.go:63-69 | lengths of 2^63 and more are refused |
| Framing.OrderedStep | internal/utils/safe_writer.go:19-29 | every step of the writers keeps whole frames in lock order before at most one partial frame |
| Framing.FramesInLockOrder | internal/utils/safe_writer.go:19-29 | over every interleaving the connection carries whole frames in the order of the mutex and at most part of the next; the reader gets exactly the whole ones' payloads |
| Framing.FrameCanBeWritten | internal/utils/safe_writer.go:19-29 | while no write has failed, the writer with the mutex can finish, and the reader then gets every message so far |
| Session.WriteValues | conn.go:93-100 | the range over a query's channel writes its values in order until a write fails |
| Session.StreamQuery | conn.go:92-107 | values, then END, or cancellation on a failed write |
| Session.Serve | conn.go:40-156 | one request writes its reply as far as writes succeed, what it opens has one fate, the loop goes on exactly if the whole reply was written and the request does not end the session, and an upgrade takes place exactly if its response could be written |
| Session.HandleConn | conn.go:21-158 | the loop produces the trace of the requests, writes their replies in order as far as writes succeed, and upgrades exactly if an upgrade request is read while a write can succeed |
| Session.MessagesOfOne | conn.go:40-156 | one request is answered by one response, the upgrade included, and a streaming query by its values and END, as far as writes succeed |
| Session.RepliesInOrder | conn.go:21-158 | the connection carries all replies in order up to the first failed write, and none after a request that ends the session |
| Session.ReadAfterReplies | conn.go:27-36 | when a request is read, all earlier ones have their whole reply and none of them opened a stream, subscribed or upgraded |
| Session.NothingAfterHandover | conn.go:68-71 | after a handover to a pipe or an upgrade only the connection's close follows, once |
| Session.UpgradeTakesPlace | conn.go:149-151 | an upgrade request that is read while a write can succeed is the last: its response, the upgrade and the close follow, in this order |
| Session.UpgradeIff | conn.go:149-151 | and there is no other upgrade |
| Session.TraceInTurn | conn.go:57-151 | events come in their turn: what is opened right after its request, handed over right after its response, drained before END, released right after a failed write |
| Session.ResourcesLinear | conn.go:57-147 | each stream, query or subscription opened is given away exactly once: to its pipe, drained, or released, the last exactly when a write failed before that |
| DhtStream.RunInv | dht.go:99-116 | producer, writer, reader and converter keep their joint invariant over every interleaving |
| DhtStream.DaemonWrites | conn.go:81-107 | the daemon writes BEGIN, an in-order prefix of the values, and END exactly if it finished; then all values are there if and only if the producer was not cut short, which takes a timeout or a failed write |
| DhtStream.ClientDelivers | p2pclient/dht.go:220-272 | the client delivers an in-order prefix of what it can convert |
| DhtStream.ClientCompletes | p2pclient/dht.go:61-100 | unless its context ended or a read failed it delivers all that the daemon sent, which is everything if and only if the producer was not cut short |
| DhtStream.HistoryMeans | p2pclient/dht.go:61-100 | the client has failed exactly if a read failed, and the daemon exactly if a write did |
| DhtStream.AllCanBeSent | conn.go:81-107 | from every state without a timeout or failed write the daemon's own steps can send all values and END |
| DhtStream.AllCanBeReceived | p2pclient/dht.go:75-100 | once END is written, an undisturbed client's own steps deliver all that was sent and close the channel |
| DhtStream.EverythingCanArrive | p2pclient/dht.go:220-272 | from the start there is a run in which the caller gets everything |
| DhtStream.EndedClientStops | p2pclient/dht.go:80-83 | once its context has ended, a client with its stream open can close the channel without reading on |
| DhtStream.ProducerLeaves | dht.go:107-113 | after a timeout or a failed write the producer can leave at once |
| DhtStream.EndAfterTimeout | dht.go:107-113 | from every state without a failed write a timeout can lead to END right after the values already taken over |
| DhtStream.EndWithoutValues | dht.go:107-113 | a timeout at the start gives BEGIN and END whatever was to be found |
| Bootstrap.Shuffle | bootstrap.go:23-28 | in place, the result is the order the choices give |
| Bootstrap.ShufflePermutes | bootstrap.go:23-28 | for every choice sequence the result is a permutation |
| Bootstrap.ShuffleOnto | bootstrap.go:23-28 | every permutation comes from some choices |
| Bootstrap.ShuffleOneToOne | bootstrap.go:23-28 | of distinct peers the order determines the choices, so uniform choices give a uniform order |
| Bootstrap.ConnectEach | bootstrap.go:62-77 | the loop connects as many peers as asked for, or as there are to be had, and stops at the last it needed; asked for none, it stops early only if its first dial fails |
| Bootstrap.ConnectBootstrapPeers | bootstrap.go:54-81 | the same after the shuffle, which loses no peer |
| Bootstrap.KeepRound | bootstrap.go:88-94 | a round tops up to the target and never beyond |

## Left out

- Decode.Unmarshal: works on values; the source fills the message in place, so what it leaves behind after an error is not modelled, nor is the name of a missing required field in the error.
- Decode.Unmarshal: the final test that the index has not passed the end is left out, since every field read ends inside the slice.
- Encode.Marshal: a message whose encoding is 2^63 bytes or longer is not considered; no buffer of that size exists.
- UnaryTheorems.Routing: says nothing of a call whose caller's own context ended after its response came, beyond that it ends by its context or with that response.
- UnaryCalls.Exec: requests are goroutines from the moment they are written; that a message may be lost with its connection is covered by goroutines that take no step.
- UnaryProgress.CallCanSucceed: says that a call can go through, not that it will; liveness, fairness and timing are not modelled.
- UnaryCalls.Exec: the shared maps are values of a transition system, not objects with locks; of them only the registry's maps are also given as a class.
- Registry.Lifecycle: `KillOnTimeout` and the timer it cancels are not modelled.
- Framing.FramesInLockOrder: the size limit of the delimited readers is not modelled.
- DhtStream.ClientDelivers: conversion is any partial function; parsing of peer ids and addresses is not modelled.
- Session.HandleConn: what requests do at the libp2p host, the DHT and pubsub is given with each request; the contents of responses are opaque.
- Multiaddresses, peer ids, keys, CIDs, the connection manager, the pubsub pipe and the copying between streams and connections.
- `XXX_Marshal`, the getters, enum names and the descriptor of the generated code.
- Flags, configuration, identity files, signals and sockets.
