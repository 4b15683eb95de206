# dersp, modelled in Dafny

dersp is a relay server. Clients connect over TCP, identify themselves by a public key, and send
packets to other keys; servers that share a mesh key tell each other which clients they have and
forward packets to one another. This project models the three layers it is made of and proves what
they promise:

* **The codec** (`Bytes`, `Codec`, `CodecLaws`, `CodecShapes`, `Writers`, `Readers`). A `Schema`
  describes a type that implements `Encode` and `Decode`, by hand or through the derive macros;
  `Enc` and `Decode` give its wire format. Two facts make the format hard. `Option` and `Vec` are
  greedy: they take whatever is left in the buffer, so a value may read back at the end of a buffer
  and not in front of other bytes. And `SizeWrapper` writes its size after its contents, by going
  back. `Canon` says, by recursion on the schema, exactly which values survive the wire in which of
  the two positions. `CodecShapes` says which types always survive, from the schema alone. The
  writers and readers are imperative, as in the source, and are proved against `Enc` and `Decode`.
* **Streams of frames** (`Protocol`, `Stream`, `Wire`, `Octets`). The concrete frame types and
  payloads, the buffer that cuts a byte stream into frames, the reader that fills it, and the read
  and write loops of both ends of a connection, on bytes. `Octets` says what the loops do byte by
  byte, without the codec.
* **The relay** (`Routing`, `Notices`, `Links`, and the `Network` modules). `Routing` is one
  service: its two tables, the command loop and the notification tasks, as a class and as a step
  function with a log; `Notices` says who is told of which key. `Network` is any number of services,
  connections between them and to clients, and twelve kinds of moves that tasks, the network and
  clients make in any order. `NetworkInvariants` says what every reachable state satisfies,
  `NetworkMoves` that every move keeps it, and `NetworkHistory` that every node of the network is a
  service. `NetworkEffects` and `NetworkGrowth` say once what moves change and what they leave,
  `NetworkEntry` who gets in. The remaining modules draw the conclusions: routes have no loops and
  the mesh converges (`NetworkTheorems`), who is told of whom (`NetworkNotices`), what a connection
  is sent (`NetworkClaims`), packets are conserved (`NetworkConservation`, `NetworkDelivery`), when
  loops end and what becomes of the packets they hold (`NetworkFates`, `NetworkCalm`,
  `NetworkWitness`, `NetworkDead`), exactly when all packets arrive (`NetworkOutcome`), that the
  network comes to rest (`NetworkRest`), and that packets arrive in order (`NetworkTrails`,
  `NetworkFifo`).

The main results hold of every schema and value, of every way to cut a stream, and of every state of
every run, including runs in which clients announce keys that are not theirs.

## Reading the network model

* A run is any sequence of moves. A section that holds the lock is one move. The command loop looks
  up a sink and sends to it in two moves (`Handle`, `Hand`), between which anything may happen.
* Channels are unbounded first-in-first-out logs. The source's channels hold one message, so its
  sends can wait; every order in which its tasks can get through is an order of moves here. The
  sends of a notification task happen in any order. Notices are pairs of a sink and a key: a
  connection subscribes under its own key only, so no two mesh entries share a sink
  (`NetworkNotices.MeshSinksDiffer`).
* `hops`, `id`, `born`, `clock`, `dropped` and `lost` record history; no move looks at them. `id` is
  the frame that a packet began as: the client's connection and the number of the frame on it.
* A loop that ends keeps what it holds: the commands of a service that has stopped, the queue of a
  write loop that has ended, the frames behind one that a read loop has no arm for. Nobody takes
  these up again (`NetworkDead.DeadStaysDead`), as in the source, where the channel is dropped. When
  a service has stopped its read loops cannot hand over commands, so they read no more.
* `Remote` is the far side of a client, which may send any frames. A `Dialling` end is a
  `MeshClient`, an `Accepting` end a `Client`.

## Where the code differs from what one might expect

* The comment on `RecvPacket` says that it carries the source key. The code writes the target, and
  so does the model (dersp/src/proto/data.rs:29-31, dersp/src/client.rs:170-173).
* The read loop of a client passes on announcements without asking whether the client may mesh, so
  the write loop's `todo!()` arm for plain clients can be reached. A packet goes to an end of
  another key exactly if nobody has registered under its target at this node and that end was the
  first to announce it (`NetworkClaims.SentToClaimantIff`; for one service
  `Links.PlainClientPanicsIff`). Loop freedom does not depend on this: a route may end at a client
  that has claimed the key.
* A service with an empty mesh key dials out but is taken for a plain client
  (`NetworkTheorems.DialledLinksMesh`).
* The write loop of a `MeshClient` has no arm for packets. It panics on one and its sink closes. A
  packet that waits in its queue by then is dead; one that is handed to the sink after that ends the
  command loop. `NetworkWitness.ServiceCanStop` is a run in which this happens. `NetworkFates` says
  exactly when write loops and command loops end, in every run, and `NetworkCalm` that, as long as
  nothing else goes wrong, packets routed to dialled links are all that ends them.
* A packet addressed to the key of a service that has dialled in is written to the link as a
  `RecvPacket`, for which the dialling end has no arm. Such packets are counted apart from delivered
  ones (`NetworkDelivery.PacketsAreConserved`). `NetworkOutcome.AllDeliveredIff` says exactly when
  every packet reaches a client.
* When a client disconnects, its write loop ends at the next write, and what waits in its queue is
  not delivered (`NetworkDead.CloseKills`). The command loop learns of it only from the next packet
  for that client, which ends it (`NetworkFates.StopsIff`).
* `Vec<T>` decoding does not return if `T` can succeed without taking a byte
  (`CodecLaws.VecTerminatesIff`), which is why the reading methods ask for `WellFormed` schemas.
* A reader whose peer closes the connection in the middle of a frame reads for ever
  (`Stream.UnansweredWaits`), which is why `GetNextMessage` asks for `Answered`.

## Model

| member | source | states |
|---|---|---|
| `Bytes.IntegerThere` | codec/src/decode.rs:59-82 | u8, u16 and u32 read back from their bytes |
| `Bytes.IntegerBack` | codec/src/encode.rs:104-123 | and any bytes of that width are the bytes of the integer read from them |
| `Bytes.NetworkOrder` | codec/src/encode.rs:104-123 | the bytes are in network order: each is the digit of weight 256 to the number of bytes behind it |
| `Bytes.OrderIsKept` | codec/src/encode.rs:104-123 | so integers of one width compare as their bytes do from the front |
| `Codec.Arm` | codec-derive/src/lib.rs:182-217 | the arm taken is the first one whose tag matches or that is the unknown one; none matches before it |
| `CodecLaws.RoundTrip` | codec/src/decode.rs:59-150 | decoding the bytes of a canonical value followed by any bytes yields the value and leaves exactly those bytes, for every schema |
| `CodecLaws.SizedRoundTrip` | codec/src/decode.rs:122-142 | a size in front turns a value that reads back only at the end of a buffer into one that reads back anywhere |
| `CodecLaws.EnumRoundTrip` | codec-derive/src/lib.rs:209-217 | the same for tagged enums, with the tag of the unknown variant taken from its field |
| `CodecLaws.ItemsRoundTrip` | codec/src/decode.rs:110-120 | the `Vec` loop reads back all items, each in front of the bytes of the others |
| `CodecLaws.FieldsRoundTrip` | codec-derive/src/lib.rs:93-152 | fields read back in order, tag-holding fields from the tag |
| `CodecLaws.Exact` | codec/src/decode.rs:59-150 | whatever is accepted is the encoding of the result followed by what is left, and the result is canonical there |
| `CodecLaws.RoundTripIffCanonical` | codec/src/encode.rs:104-192 | the round trip holds in front of given bytes if and only if the value is canonical in that position |
| `CodecLaws.DecodedIsTyped` | codec-derive/src/lib.rs:154-217 | decoding yields values of the schema |
| `CodecLaws.DecodedFits` | codec/src/encode.rs:152-185 | re-encoding a decoded value never meets a size or tag panic, if unknown variants keep their tag |
| `CodecLaws.DecodeThenEncode` | codec/src/decode.rs:100-142 | decoding is exact: the value re-encodes without a panic to the very bytes that were read |
| `CodecLaws.SuffixIrrelevant` | codec/src/decode.rs:90-98 | without greedy types outside a `SizeWrapper` the two positions do not differ |
| `CodecLaws.SelfDelimitingRoundTrip` | codec/src/decode.rs:122-142 | self-delimiting schemas read back before any bytes, and no encoding of one is a proper prefix of another |
| `CodecLaws.ConsumingShrinks` | codec/src/decode.rs:34-42 | no decoder lengthens the buffer, and one of a consuming schema shortens a non-empty one, nested `Vec` and `Option` included |
| `CodecLaws.ItemsConsumeAll` | codec/src/decode.rs:110-120 | a `Vec` that decodes leaves nothing |
| `CodecLaws.DecodeTerminates` | codec/src/decode.rs:110-120 | every decoder of a well-formed schema returns, on every buffer |
| `CodecLaws.VecTerminatesIff` | codec/src/decode.rs:110-120 | the `Vec` loop ends on all buffers exactly when its elements always take a byte |
| `CodecLaws.EnumRoundTripIff` | codec-derive/src/lib.rs:353-419 | an enum value survives exactly when its fields are canonical behind the tag and no variant before its own takes the tag, wherever the unknown variants are, if any |
| `CodecLaws.RegularEnumRoundTripIff` | codec-derive/src/lib.rs:182-217 | with distinct tags and the unknown variant last: exactly known variants, and unknown ones whose tag is no known tag |
| `CodecLaws.PlainEnumRoundTripIff` | codec-derive/src/lib.rs:227-266 | an enum whose variants carry nothing but the tag always encodes, and survives exactly when no earlier variant takes its tag |
| `CodecLaws.ScalarsSurvive` | codec/src/decode.rs:59-109 | integers, arrays and opaque bytes survive in front of any bytes, and opaque bytes encode exactly up to the largest size their width can say |
| `CodecLaws.SizeInFront` | codec/src/encode.rs:172-185 | a size wrapper writes the size in front of the contents, and panics exactly if its width cannot say it |
| `CodecLaws.ItemsInOrder` | codec/src/encode.rs:162-170 | items are written one behind the other |
| `CodecLaws.FieldsInOrder` | codec-derive/src/lib.rs:227-266 | and so are fields |
| `CodecShapes.SteadySurvives` | codec/src/decode.rs:59-150 | every value of a type with nothing greedy outside a size wrapper and no enum reads back in front of any bytes |
| `CodecShapes.SteadyEndSurvives` | codec/src/decode.rs:59-150 | every value of a type whose last field alone is greedy, over something that takes bytes, reads back at the end of a buffer |
| `CodecShapes.NothingLeft` | codec/src/decode.rs:92-120 | an empty buffer reads as an absent option and as an empty vector |
| `Writers.VecWriter.FillFrom` | codec/src/encode.rs:64-67 | appends the bytes |
| `Writers.VecWriter.Reserve` | codec/src/encode.rs:69-76 | appends that many zero bytes and remembers where |
| `Writers.VecWriter.Patch` | codec/src/encode.rs:182-182 | overwrites skipped bytes only; refuses exactly what is too long |
| `Writers.EncodeToVec` | codec/src/encode.rs:104-192 | appends exactly `Enc` and returns its length, and panics exactly when the value does not fit; what was there before stays |
| `Writers.EncodeItemsToVec` | codec/src/encode.rs:162-170 | the loop appends the items one after another and sums their lengths |
| `Writers.EncodeFieldsToVec` | codec-derive/src/lib.rs:300-351 | fields are appended in order |
| `Writers.EncodeSizedToVec` | codec/src/encode.rs:172-185 | skip, encode, patch leaves the old contents and appends size and contents; the `unwrap` of the patch never fails |
| `Writers.EffectThen` | codec/src/encode.rs:35-44 | two encodings into a slice, one after the other, have the effect of the two together |
| `Writers.SliceWriter.FillFrom` | codec/src/encode.rs:35-44 | writes at the front of the slice and advances it if there is room, and changes nothing otherwise |
| `Writers.EncodeToSlice` | codec/src/encode.rs:104-192 | a fitting value is written if and only if there is room: the bytes of `EncodeToVec`, the view advanced by as many, all other memory unchanged; failures touch nothing outside the slice |
| `Writers.EncodeEnumToSlice` | codec-derive/src/lib.rs:413-418 | the same for tagged enums |
| `Writers.EncodeItemsToSlice` | codec/src/encode.rs:162-170 | the same for the loop over the items of a `Vec` |
| `Writers.EncodeFieldsToSlice` | codec-derive/src/lib.rs:300-351 | the same for the fields of a struct |
| `Writers.EncodeSizedToSlice` | codec/src/encode.rs:172-185 | the same for skip, encode and patch, at any depth of nesting |
| `Writers.LaterFill` | codec/src/encode.rs:46-58 | a slice too short for the gap is left alone; otherwise the callback sees the slice behind the gap, and if it fails the writer is left empty |
| `Writers.Finish` | codec/src/encode.rs:178-183 | no room for the size, a callback that failed, or a size too big for its bytes fails the whole and touches nothing outside the slice |
| `Writers.FillSize` | codec/src/encode.rs:182-183 | the size goes into the gap and nowhere else, and its `unwrap` never fails |
| `Readers.SliceReader.FillBuf` | codec/src/decode.rs:34-42 | takes bytes from the front, or fails and takes none |
| `Readers.DecodeFrom` | codec/src/decode.rs:59-150 | the decoders that advance the buffer return what `Decode` says and leave what it says |
| `Readers.DecodeItemsFrom` | codec/src/decode.rs:110-120 | so does the `Vec` loop, which ends because every turn shortens the buffer |
| `Readers.DecodeFieldsFrom` | codec-derive/src/lib.rs:93-152 | so do the generated field decoders |
| `Protocol.KnownInjective` | dersp/src/proto/data.rs:15-82 | the tags of the known frame types are distinct |
| `Protocol.TagsRise` | dersp/src/proto/data.rs:15-82 | the tags rise in the order of the variants |
| `Protocol.TagsAre` | dersp/src/proto/data.rs:15-82 | and are exactly 0x01 to 0x0A and 0x10 to 0x14 |
| `Protocol.TypeDecode` | dersp/src/proto/data.rs:15-82 | every byte decodes to a frame type, and that frame type encodes to the byte |
| `Protocol.TypeRoundTripIff` | dersp/src/proto/data.rs:80-81 | a frame type survives the wire exactly if it is not an unknown one with a known tag |
| `Protocol.HeaderDecode` | dersp/src/proto/data.rs:271-275 | any five bytes are a header: the type is the first, the size the other four |
| `Protocol.FrameEnc` | dersp/src/proto/data.rs:94-98 | a frame is its tag, the size of its payload and the payload; when it fits and when it is canonical |
| `Protocol.PayloadRoundTrip` | dersp/src/proto/data.rs:94-98 | a frame read back yields the payload it was written with |
| `Protocol.BodyEnc` | dersp/src/proto/data.rs:225-269 | the payloads of packets, announcements and subscriptions are their keys and bytes, and are canonical |
| `Stream.SplitConserves` | dersp/src/inout.rs:30-51 | the frames of a stream and its residue are the stream |
| `Stream.SplitYieldsFrames` | dersp/src/inout.rs:30-51 | each is one frame, and the residue holds no complete frame |
| `Stream.SplitAppend` | dersp/src/inout.rs:26-28 | more bytes leave the frames already found alone |
| `Stream.SplitOfFrames` | dersp/src/inout.rs:30-51 | frames written one after the other split into those frames with nothing left |
| `Stream.InputBuffer.InputData` | dersp/src/inout.rs:26-28 | appends to the buffer and keeps it consistent with the split of all bytes fed in |
| `Stream.InputBuffer.NextMessage` | dersp/src/inout.rs:30-51 | hands out the first frame with its type exactly when it is complete, and otherwise changes nothing; stays consistent with the split of all bytes fed in |
| `Stream.DecodeHeader` | dersp/src/inout.rs:35-39 | header decoding cannot fail |
| `Stream.MakeCall` | dersp/src/inout.rs:26-51 | a call on the buffer is a step of the model of calls |
| `Stream.Perform` | dersp/src/inout.rs:26-51 | any list of calls on a fresh buffer leaves it in the state that the results about lists of calls speak of |
| `Stream.ChunkingIndependence` | dersp/src/inout.rs:26-51 | for every interleaving of feeding and polling, the messages are a prefix of the split of the whole stream and nothing is lost; once drained they are all of it, however the stream was cut |
| `Stream.DerpReader.ReadMore` | dersp/src/inout.rs:74-75 | a read adds the bytes it got to the input buffer, none past the end of the stream, or fails and adds none |
| `Stream.DerpReader.GetNextMessage` | dersp/src/inout.rs:69-81 | terminates when a frame or a failure is still to come, reads only while no frame is complete, returns the first frame and keeps the rest |
| `Stream.UnansweredWaits` | dersp/src/inout.rs:69-81 | otherwise it still waits after any number of reads, those past the end of the stream included |
| `Stream.FirstOfStream` | dersp/src/inout.rs:69-81 | what it returns is the first frame of residue and unread stream together, and the remainder is theirs |
| `Stream.SentIsFrame` | dersp/src/proto/data.rs:94-98 | what the codec writes for a frame is one frame of the stream, with its type and payload |
| `Stream.PrefixOfFrames` | dersp/src/inout.rs:30-51 | of a stream of frames that has arrived in part, the first frames come out, and once drained all that are complete |
| `Stream.FrameStreamRoundTrip` | dersp/src/inout.rs:30-51 | any list of frames, written, concatenated and cut anyhow, comes out as those frames in order as far as it has arrived, each with its type and payload, and in the end all of them with nothing left |
| `Wire.MessageActsAsFrame` | dersp/src/client.rs:84-132 | a message with a frame's type and payload is acted on as that frame, by both read loops |
| `Wire.ClientReadLoop` | dersp/src/client.rs:80-134 | the loop sends the commands that the messages call for, in order, until one it has no arm for or cannot decode |
| `Wire.MeshClientReadLoop` | dersp/src/mesh_client.rs:116-154 | the same at the dialling end |
| `Wire.ClientWriteTurn` | dersp/src/client.rs:155-194 | a packet for the client is written as `RecvPacket`, another as `ForwardPacket` if the client may mesh; otherwise, or if it is too long, the loop panics with nothing written |
| `Wire.ClientWriteLoop` | dersp/src/client.rs:148-196 | the bytes on the wire are those of the frames for the commands, in order, up to a panic |
| `Wire.MeshClientWriteLoop` | dersp/src/mesh_client.rs:158-168 | the same at the dialling end, which panics on the first packet |
| `Wire.FrameLayout` | dersp/src/proto/data.rs:225-269 | the bytes of the five frames in literals: tag 0x04, 0x05, 0x0A, 0x09 or 0x10, the size, the keys, the payload |
| `Wire.TurnBytes` | dersp/src/client.rs:155-194 | the bytes that a turn of either write loop puts on the wire, in literals, and the lengths at which it panics |
| `Wire.WriteFrame` | dersp/src/proto/mod.rs:158-190 | a frame is written whole or, if its size does not fit, not at all |
| `Wire.WrittenFit` | dersp/src/client.rs:148-196 | every frame a write loop puts on the wire can be read back |
| `Wire.LinkConveys` | dersp/src/mesh_client.rs:111-155 | what one end writes, cut anyhow, the other end reads as the same frames in the same order as far as they have arrived, and acts on each as that frame |
| `Wire.LinkRelays` | dersp/src/mesh_client.rs:116-154 | over a mesh link, the commands given to the accepting end come out of the dialling end in order and unchanged as far as the bytes have arrived, up to a packet for the dialler's own key or one too long for a frame |
| `Wire.LinkRelaysBack` | dersp/src/client.rs:80-134 | the other way, the subscription comes out first, if the accepting end may mesh, and then the announcements in order, up to a packet |
| `Octets.ClientActsOn` | dersp/src/client.rs:84-132 | of every frame a stream can hold, byte by byte: packets of at least a key, announcements of exactly a key and subscriptions become commands; all others, those that cannot be decoded included, end the loop |
| `Octets.MeshClientActsOn` | dersp/src/mesh_client.rs:121-153 | the same at the dialling end, for announcements and forwarded packets of at least two keys |
| `Octets.UndecodableBreaks` | dersp/src/client.rs:86-88 | any message whose payload cannot be decoded, a whole frame or not, ends the loop, at either end |
| `Octets.ClientReadsAll` | dersp/src/client.rs:80-134 | the loop ends exactly at the first message that it cannot act on, and sends the commands of all messages before it |
| `Octets.MeshClientReadsAll` | dersp/src/mesh_client.rs:116-154 | the same at the dialling end |
| `Octets.ClientWritesAll` | dersp/src/client.rs:148-196 | the write loop writes one frame for each command, in order, and ends exactly at the first that it panics on |
| `Octets.ClientGets` | dersp/src/client.rs:167-178 | a packet for a client is one frame of the stream, of type `RecvPacket`, which the codec reads as its target and payload |
| `Octets.ClientReceives` | dersp/src/client.rs:148-196 | however the bytes are cut and as far as they have arrived, the client takes from them the packets for its key, in order and unchanged; in the end all of them, up to a panic |
| `Routing.FloodExcludesSubscriber` | dersp/src/service.rs:186-199 | the flood to a new subscriber is exactly of the known keys that are neither in the mesh nor the subscriber's, to its sink |
| `Routing.AdmissionIff` | dersp/src/service.rs:39-56 | a client is refused exactly if it offers a mesh key that is not the server's, and may mesh exactly if it offers the server's |
| `Routing.TableIsHistory` | dersp/src/service.rs:61-63 | after any steps, a key's entry is the sink of its latest registration, failing that of its first announcement, failing that absent |
| `Routing.MeshIsHistory` | dersp/src/service.rs:186-190 | after any steps, a key's mesh entry is the sink of its latest dialled link or subscription, and absent if there was none |
| `Routing.StepsKeepRoutes` | dersp/src/service.rs:205-216 | keys are never removed, and only a registration changes an entry |
| `Routing.PacketsKeepOrder` | dersp/src/service.rs:160-184 | packets passed on for a key, the one in hand included, are those routed for it, unchanged, in order and once each, less those from before the key was known; whatever happens between lookup and send |
| `Routing.LookupIff` | dersp/src/service.rs:172-177 | a sink that has not registered under a key is looked up for it exactly if nobody has and it was the first to announce the key |
| `Routing.SendsAreJustified` | dersp/src/service.rs:172-183 | every packet ever sent went to a sink that had registered under its target or was the first to announce it |
| `Routing.DerpService.AddNewClient` | dersp/src/service.rs:33-68 | refuses exactly a mesh key that is not the server's and changes nothing, or enters the client and schedules the notices to the mesh; it may mesh exactly with the server's key |
| `Routing.DerpService.NotifyAllMeshPeers` | dersp/src/service.rs:104-117 | one notice to each sink in the mesh |
| `Routing.DerpService.HandleCommand` | dersp/src/service.rs:160-219 | a turn of the command loop, for a packet up to the lookup: the new tables, notices, packet in hand and log |
| `Routing.DerpService.SendPacket` | dersp/src/service.rs:178-183 | the awaited send: the packet goes to its sink, or the loop ends with it in hand |
| `Routing.DerpService.CommandLoop` | dersp/src/service.rs:155-221 | the loop is the turns one after another until it is stopped or meets a closed sink |
| `Routing.DerpService.JoinMesh` | dersp/src/service.rs:88-91 | a dialled link enters the mesh and nothing else changes |
| `Routing.DerpService.DeliverNotice` | dersp/src/service.rs:109-114 | a notice is handed over, or dropped at a closed sink |
| `Routing.DerpService.NotifyAboutAllClients` | dersp/src/service.rs:223-235 | one notice per key to the subscriber |
| `Routing.LoopIsRun` | dersp/src/service.rs:155-221 | the command loop is a run of turns and sends, for all commands or until it has ended, so what holds of runs holds of it |
| `Routing.StopIsFinal` | dersp/src/service.rs:217-218 | a running loop that is told to stop stops there, and takes up nothing behind that |
| `Routing.TurnEndsIff` | dersp/src/service.rs:160-219 | a turn ends the loop exactly if it is a stop or a packet whose sink is closed |
| `Notices.StepsEnter` | dersp/src/service.rs:61-63 | what a registration, a dialled link, a subscription and an announcement leave in the tables |
| `Notices.AcceptNotifies` | dersp/src/service.rs:104-117 | a registration schedules one notice of its key to each sink in the mesh and no other |
| `Notices.SubscribeFloods` | dersp/src/service.rs:186-201 | a subscription schedules one notice of each known key that is neither in the mesh nor its own, to its sink, and no other |
| `Notices.NoticesAreHistory` | dersp/src/service.rs:185-235 | after any steps, an open sink has been told, or is about to be told, of a key exactly as often as the log calls for it: once for each registration while it was in the mesh, once for each subscription while the key was known and outside the mesh |
| `Links.PlainClientPanicsIff` | dersp/src/client.rs:114-130 | after a plain client has announced a key, a packet for it is sent there and makes its write loop panic exactly if the key is not its own and was unknown or led to it already |
| `NetworkMoves.RegisterKeeps` | dersp/src/service.rs:57-68 | registering a client keeps the invariants: routes, announcements, mesh, conveyance |
| `NetworkMoves.JoinKeeps` | dersp/src/service.rs:84-94 | so does entering a dialled link, since the listener does not run yet |
| `NetworkMoves.ReadKeeps` | dersp/src/client.rs:80-134 | so does a turn of a read loop, at either end |
| `NetworkMoves.HandleKeeps` | dersp/src/service.rs:160-219 | so does a turn of the command loop up to a send |
| `NetworkMoves.HandKeeps` | dersp/src/service.rs:178-183 | so does the send, however the tables have changed since the lookup |
| `NetworkMoves.InformKeeps` | dersp/src/service.rs:228-234 | so does a send of a notification task |
| `NetworkMoves.WriteKeeps` | dersp/src/client.rs:154-195 | so does a turn of a write loop, at either end |
| `NetworkMoves.RunKeeps` | dersp/src/service.rs:155-221 | the invariants hold in every state of every run |
| `NetworkHistory.RunIsMade` | dersp/src/service.rs:155-221 | every run is made by a sequence of moves, so what is said of moves that make a run holds of every run |
| `NetworkHistory.MoveIsStep` | dersp/src/service.rs:155-221 | every move is, at every node, one step of that node's service or no concern of it: tables, notices, packet in hand, sends, closed sinks and running agree |
| `NetworkHistory.NodeIsService` | dersp/src/service.rs:155-221 | in every run, every node is what its service's steps have made it |
| `NetworkHistory.NodeTableIsHistory` | dersp/src/service.rs:205-216 | in every run, every node's table is decided by its own latest registrations and first announcements |
| `NetworkHistory.NodeKeepsOrder` | dersp/src/service.rs:160-184 | in every run, at every node, packets put into queues for a key are those routed for it, in order and once each, less those from before the key was known |
| `NetworkNotices.NodeMeshIsHistory` | dersp/src/service.rs:186-190 | in every run, every node's mesh is decided by its own latest dialled links and subscriptions |
| `NetworkNotices.MeshSinksDiffer` | dersp/src/service.rs:186-190 | in every run, no two mesh entries of a node share a sink |
| `NetworkNotices.NodeNoticesAreHistory` | dersp/src/service.rs:185-235 | in every run, an end whose write loop runs has been handed a key, or is about to be, exactly as often as its node's history calls for it |
| `NetworkNotices.RefusedOnlyIfClosed` | dersp/src/service.rs:109-114 | in every run, a notice is refused only by a write loop that has ended |
| `NetworkNotices.HandleFloods` | dersp/src/service.rs:185-201 | a subscription that is taken up enters the mesh and schedules exactly the flood |
| `NetworkNotices.RegisterNotifies` | dersp/src/service.rs:57-68 | a client that registers is entered, and exactly the sinks in the mesh are to be told |
| `NetworkEntry.RegisterIff` | dersp/src/service.rs:39-56 | a connection that waits at a listening service can register exactly if it offers no mesh key or the service's |
| `NetworkEntry.RegisteredMeshes` | dersp/src/service.rs:39-56 | and may then mesh exactly if it offered one |
| `NetworkEntry.ClientEnters` | dersp/src/service.rs:33-68 | from any state, a client of any key can connect to a listening service; it gets in exactly under that condition, its key then leads to it, and it can send any frame |
| `NetworkEntry.ServiceDials` | dersp/src/service.rs:84-94 | from any state, a service with a mesh key that does not listen yet can dial any service; the link enters its mesh and can subscribe; the other side takes it in exactly if the mesh keys are equal or the dialler's is empty |
| `NetworkEntry.ReadIff` | dersp/src/client.rs:84-132 | at a running service, a registered end reads exactly the frames its loop has an arm for |
| `NetworkEntry.ReadBecomes` | dersp/src/client.rs:84-132 | and each becomes the command of its kind, a subscription only if the end may mesh |
| `NetworkGrowth.MoveKeepsEntry` | dersp/src/service.rs:205-216 | no move removes an entry, and an entry changes only to that of a client of the key itself |
| `NetworkGrowth.RegisteredStaysLocal` | dersp/src/service.rs:61-63 | in every run, a registered client's key leads to a client of that key at its service ever after |
| `NetworkClaims.LogIsTrue` | dersp/src/service.rs:205-216 | registrations in a node's history are those of ends with that key, announcements came by the ends they name |
| `NetworkClaims.QueuedForTheClient` | dersp/src/client.rs:156-181 | whatever is queued at an end is for the key its client registered under, or for a key that the end was the first to announce at this node |
| `NetworkClaims.SentToClaimantIff` | dersp/src/service.rs:172-183 | a packet taken up goes to an end of another key if and only if nobody has registered under its target at this node and that end was the first to announce it |
| `NetworkClaims.ForwardingArmUnreached` | dersp/src/client.rs:180-180 | a plain client that was first to announce no key but its own is queued only packets for its own key |
| `NetworkTheorems.RoutesHaveNoLoops` | dersp/src/service.rs:186-216 | in every run, following the entries for a key from node to node never visits a node twice |
| `NetworkTheorems.RoutesEnd` | dersp/src/service.rs:61-65 | and ends where the client with that key is registered, or at a client that has announced the key |
| `NetworkTheorems.PacketsNeverReturn` | dersp/src/mesh_client.rs:137-150 | a packet never comes back to a node that passed it on, though tables change while it travels, and is passed on fewer times than there are nodes |
| `NetworkTheorems.ForwardedNeverDropped` | dersp/src/service.rs:172-177 | a packet that was passed on finds an entry at the next node; only first nodes drop packets |
| `NetworkTheorems.DeliveriesAreGenuine` | dersp/src/client.rs:167-178 | what a client is given is addressed to it, and a client with the packet's source key sent it as it is |
| `NetworkTheorems.ForwardingGoesDownstream` | dersp/src/mesh_client.rs:158-168 | packets cross a mesh link only towards the node that dialled it |
| `NetworkTheorems.MeshAdmission` | dersp/src/service.rs:39-56 | every mesh entry is a dialled link, or a registered client that presented the server's own mesh key |
| `NetworkTheorems.DialledLinksMesh` | dersp/src/proto/mod.rs:121-128 | a dialled link may mesh exactly if the mesh key of the node that dialled is not empty |
| `NetworkTheorems.AnnouncementsAreComplete` | dersp/src/service.rs:185-201 | in every state, every mesh entry has a notice of every registered client outside the mesh pending, handed over or failed |
| `NetworkTheorems.MeshConverges` | dersp/src/service.rs:104-117 | once a link has settled, the service at its other end has an entry for each of those clients |
| `NetworkConservation.HandConserves` | dersp/src/service.rs:178-183 | handing a packet to a sink moves it, or loses it at a closed sink |
| `NetworkConservation.HandleConserves` | dersp/src/service.rs:172-177 | taking a command moves its packet, or drops it for want of an entry |
| `NetworkConservation.ReadConserves` | dersp/src/client.rs:85-99 | reading a frame moves its packet, with source, target and payload unchanged |
| `NetworkConservation.WriteConserves` | dersp/src/client.rs:156-181 | writing moves a packet to the client or to the link, or loses it in a panic; what is behind it in the queue then stays there, dead |
| `NetworkConservation.RunConserves` | dersp/src/service.rs:160-184 | in every state of every run, the packets read from clients are those held at nodes and ends, by running loops or by ended ones, and those dropped and lost |
| `NetworkDelivery.PacketsAreConserved` | dersp/src/service.rs:160-184 | in every state of every run, the packets read from clients are, with multiplicity, those received by clients of their target's key, those under way, those dead in the hands of loops that have ended, those sent astray to a node's own key or to a meshing client, those dropped and those lost |
| `NetworkDelivery.DeliveredOnce` | dersp/src/service.rs:160-184 | no packet is received by clients more often than it was sent |
| `NetworkFates.ClosedIff` | dersp/src/client.rs:148-196 | in every run, a write loop has ended if and only if it was ended from outside or took a command that it panics on |
| `NetworkFates.WrittenInOrder` | dersp/src/client.rs:148-196 | everything on an end's wire, subscriptions aside, are the frames of the commands taken, in order and once each; a packet it panicked on is lost |
| `NetworkFates.StopsIff` | dersp/src/service.rs:178-183 | in every run, a command loop has ended if and only if it handed a packet to a sink whose write loop had ended |
| `NetworkCalm.PanicsIff` | dersp/src/mesh_client.rs:158-168 | in a calm run a write loop panics on packets given to a dialled link and on nothing else |
| `NetworkCalm.CalmClosedIff` | dersp/src/mesh_client.rs:158-168 | so it has ended exactly if it is a dialled link's and has taken a packet |
| `NetworkCalm.CalmWrittenIff` | dersp/src/client.rs:156-181 | and a packet taken is written, unchanged, exactly if the end is not a dialled link's |
| `NetworkCalm.CalmStopsIff` | dersp/src/service.rs:178-183 | and a command loop ends exactly when a packet is handed to a dialled link that has already taken one |
| `NetworkWitness.FirstIsLost` | dersp/src/mesh_client.rs:164-164 | from any reachable state, a packet whose entry names an idle dialled link can be lost, and the link's write loop end |
| `NetworkWitness.SecondStops` | dersp/src/service.rs:178-183 | from any reachable state, a packet whose entry names a closed sink can be lost and end the command loop |
| `NetworkWitness.ServiceCanStop` | dersp/src/service.rs:178-183 | for any keys and payloads there is a run in which a service reads two packets from its client, loses both and stops |
| `NetworkDead.MoveReadsOn` | dersp/src/mesh_client.rs:118-155 | the other side of an end reads its frames in order, only while its service runs, and never one that it has no arm for |
| `NetworkDead.CloseKills` | dersp/src/client.rs:148-196 | ending a write loop makes exactly the packets in its queue dead |
| `NetworkDead.DeadStaysDead` | dersp/src/client.rs:148-196 | in every run, a packet held by a command, write or read loop that has ended is held by it in every later state |
| `NetworkOutcome.MoveGood` | dersp/src/service.rs:172-183 | a move keeps all packets on their way to clients exactly if it looks up an end good for the packet, sends to an open sink, ends a write loop with no packet in its queue, or does none of these |
| `NetworkOutcome.AllDeliveredIff` | dersp/src/service.rs:160-184 | in any state of any run in which no packet is under way, every packet has been received by clients of its target's key as often as it was sent if and only if every lookup found an end good for the packet, every send an open sink, and no write loop was ended with a packet in its queue |
| `NetworkRest.WorkProgresses` | dersp/src/service.rs:155-221 | every turn of a read, command or write loop, every send and every notice brings the network nearer to rest: fewer subscriptions, or as many and fewer steps ahead |
| `NetworkRest.WorkEnds` | dersp/src/service.rs:155-221 | under every schedule, without new frames, connections and registrations, the loops run out of work |
| `NetworkRest.ComesToRest` | dersp/src/service.rs:155-221 | from every state of every run the loops' own work leads to a state in which no loop has any left |
| `NetworkRest.RestIsQuiet` | dersp/src/service.rs:160-184 | at rest no packet is under way |
| `NetworkRest.RestingDeliveredIff` | dersp/src/service.rs:160-184 | so at rest every packet has been received as often as it was sent if and only if all moves were good |
| `NetworkRest.RestingMeshKnows` | dersp/src/service.rs:104-117 | at rest the service at the other end of a healthy link has an entry for every client registered at this one, the mesh aside |
| `NetworkTrails.SameTrail` | dersp/src/service.rs:205-216 | packets of one client for one key all travel the same way |
| `NetworkFifo.RunKeepsOrder` | dersp/src/service.rs:160-184 | in every state of every run, of one client's packets for one key those further along were sent earlier, wherever they are |
| `NetworkFifo.QueuedInOrder` | dersp/src/service.rs:178-183 | in every queue, one client's packets for one key stand in the order sent, none twice |
| `NetworkFifo.ReceivedInOrder` | dersp/src/client.rs:167-178 | what a client receives from another client comes in the order in which it was sent, and nothing twice, across any number of nodes |
| `NetworkFifo.ReceivedIsSent` | dersp/src/client.rs:85-99 | and each is, payload and target unchanged, the packet of the frame that its identity names |

## Left out

- Sockets, tasks and timers, DNS lookup, logging and the command line: replaced by moves that happen in any order and a source of reads.
- The HTTP upgrade, the key exchange, encryption and the JSON client info: a connection starts with the key and mesh key that the handshake yields; keys are opaque 32-byte values.
- Key generation and the hex and base64 forms of keys: they rest on libraries that are not part of this model.
- Attribute parsing, token quoting and generics of the derive macros: only what the generated code does for each schema is modelled.
- `Ignore`, `Infallible`, `u64`, pairs and references in the codec: they add no round trip, or only an easy one.
- Frame types without an arm: they end the read loop that meets them, and no more is said about them.
- Peer removal, shutdown and reconnection: the source does not implement them; `Close` only lets a write loop end at any time.
- Bounded channels: waiting for room in a channel, and so the possibility of a deadlock between tasks, is not modelled.
- `usize` of 32 bits: the sum of header size and payload size is taken not to overflow.
- Stream.DerpReader.GetNextMessage: asks that a frame or a failure is still to come, because the loop does not return otherwise.
- Readers.DecodeFrom: asks for a well-formed schema, because the `Vec` loop of others does not return.
- Readers.DecodeItemsFrom: asks for elements that always take a byte, for the same reason.
- Readers.DecodeFieldsFrom: asks for well-formed fields, for the same reason.
- Routing.DerpService.NotifyAboutAllClients: does not keep the order in which one task sends its notices, which is that of a hash map; any order is allowed.
- Fairness: nothing in the model makes a task run. `NetworkRest` says that the tasks' work ends, and what holds when it has.
