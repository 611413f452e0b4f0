# A verified model of the FastCGI responder engine

This project models a C library that answers FastCGI requests: the wire codec, the
connection loop that serves many multiplexed requests over one connection, the header
block, the application adapters, and the lifetime of the shared configuration. It proves
what the FastCGI Specification and the library's own design promise of them, and where
the code does less it says exactly when.

`dafny verify dfyconfig.toml` checks the whole project.

## How it is laid out

- `Bytes.dfy`, `Wire.dfy`: bytes, big-endian integers, and the record format as functions:
  what the parser reads and what the renderer appends.
- `ByteStream.dfy`: the stream object with the parser and the renderer as methods over it,
  each proved equal to the functions of `Wire`.
- `PairProofs.dfy`, `StreamProofs.dfy`: name-value pairs, round trips, frames.
- `ChunkProofs.dfy`: how the peer's chunks matter, and exactly when; termination measures.
- `Headers.dfy`: the header table, its three insertion modes, and the packer.
- `Engine.dfy`: the request API, callbacks as programs over it, and the connection loop
  as a step function over dispatched records.
- `RequestProofs.dfy`, `DispatchProofs.dfy`, `RunProofs.dfy`: what every call keeps, what
  every dispatch keeps, what holds of every run.
- `OutputProofs.dfy`: what reaches the peer, byte for byte and write by write, of every API
  call, reply and end of a request, and what a peer has got over whole sessions.
- `OwnershipProofs.dfy`, `QueueProofs.dfy`, `ParamProofs.dfy`, `HeaderProofs.dfy`: who owns
  a record, what a request's queues hold, parameter lookup, header tables over runs.
- `Sessions.dfy`: a whole connection as a function of the bytes the peer sends, parsing and
  dispatching in turns, with the rewinds of the shared input buffer.
- `SessionProofs.dfy`, `DeliveryProofs.dfy`, `SessionLimits.dfy`, `RelocationProofs.dfy`:
  body bytes read out of the input buffer, when everything sent is dispatched, the sessions
  in which a rewind costs a request its records or its bytes, and multiplexing on the wire.
- `FeedProofs.dfy`, `BufferProofs.dfy`: which deliveries no callback can lose a byte of, and
  exactly which queued bodies still read what was sent, over any number of rewinds.
- `Connection.dfy`: the request and the connection as objects updated in place, one
  method per record arm, each proved equal to the step it runs, up to the whole of
  `mnfcgi_handle_socket`.
- `App.dfy`, `Adapters.dfy`: the adapters that move the request state and the canned
  responses, as programs over the request API and as methods on the objects.
- `PhaseProofs.dfy`: how many times the headers of a request end, over runs.
- `FailingRuns.dfy`: the runs in which the code falls short, each at an input.
- `Lifetimes.dfy`: reference counting of the configuration.

## How the model reads the code

- **Builds.** `configure.ac:131-135` leaves assertions out unless they are asked for, and
  `src/Makefile.am:28` compiles without them; the one assertion this matters for is the
  length check in `mnfcgi_render`. Both builds are modelled: a `Config` says `Debug`, with
  assertions, or `Release`, without, and every theorem over runs and sessions is about
  either. In a `Release` an answer to GET_VALUES goes out in the order the hash lists it,
  which is a parameter.
- **Streams.** Bytes behind the end of data stay in the buffer, as they do in the C
  buffer: a parser that reads past the record sees them (and zero where nothing was ever
  written). `consume_data` appends the next chunk or fails; `produce_data` sends
  everything unsent or fails, the n-th write faring as a given function says.
- **Hashes.** The request table and the parameter tables are maps. The header table is
  the sequence of its pairs: iteration follows it, a lookup finds the first pair of a
  name, a duplicate goes last.
- **Callbacks.** A callback is any finite tree of API calls on its own request, with a
  continuation for every code a call can return, and a return code. It is a function of
  the record, the request and the body bytes of the record, so it is arbitrary but
  deterministic. A payload renderer either writes its bytes and returns their number or
  gives up after some of them.
- **Values formatted elsewhere** (header values, status lines, the answers to
  GET_VALUES, the library's own error codes) are parameters. A header is printed up to
  its first NUL, as `%s` does.
- **History.** Some fields record what happened and no branch reads them: `sent` and
  `finalized` of a request; `log`, `delivered`, `failed`, `lost`, `inRewinds`, `seen`,
  `freed`, `done`, `dangling`, `dispatched` and `dropped` of a connection. Records are
  numbered in order of arrival and carry their number in the queues they wait in; `freed`
  of a connection lists the numbers of the records destroyed, and `dropped` counts the
  unread bytes that rewinds during a dispatch threw away.
- **One write per `produce_data`.** A write that fails sends nothing.

## Where the code does less than the specification

The model follows the code in each case.

- A length's first byte is masked with 0x800, which no byte has, so a length always
  takes one byte (`src/mnfcgi_wire.c:223`). Section 3.4 means 0x80. The codec carries the
  mask as a parameter: `PairProofs.PairsBack` proves the round trip for every length below
  2^31 with the test of section 3.4, `PairProofs.CodedRoundTrip` gives the exact domain of
  the code.
- `mnfcgi_render_kvp` returns the absolute end of the stream (`src/mnfcgi_wire.c:572`), so
  an answer to GET_VALUES that answers anything fails the length assertion
  (`PairProofs.ResultRendersIffEmpty`). With assertions a query stops the process if and only
  if it has one of the three names the library knows or a value of its own
  (`FailingRuns.CrashIff`); `FailingRuns.MpxsSessionStops` is one from its bytes on. Without them it is answered with a
  frame shorter than it says (`FailingRuns.AnswerMalformed`), or, once the number reckoned
  exceeds the payload bound, with the error exit (`FailingRuns.AnswerEndsConnection`);
  `RunProofs.RunSucceeds` says exactly which runs that ends.
- The END_REQUEST body is protocol status, then application status, the reverse of
  section 5.5. `StreamProofs.EndBodyIff` says when a client reads it right all the same:
  for a finalized request, whose statuses are both zero, but not for a nonzero status of
  a failed callback.
  UNKNOWN_TYPE has no body where section 4.2 has eight bytes.
- BEGIN_REQUEST always takes eight bytes and the last pair of a record of pairs may run past
  it. What is read there depends on how the bytes arrive, unless it is zero:
  `ChunkProofs.BeginAnyChunksIff` and `ChunkProofs.SpillIff` give the exact conditions,
  `ChunkProofs.PairsAnyDeliveryIff` the one for every delivery of a record of pairs,
  `ChunkProofs.SpillDependsOnChunks` an input, and `ChunkProofs.ChunkIndependent` says that
  a whole input on which it is zero does not depend on its chunks. The zero is what
  `Bytes.At` gives for a cell that was never written; the C buffer holds whatever its
  allocation left there, and after a rewind older bytes.
- The STDIN and DATA arms delete a table entry and then test and delete it again when
  their callback fails. The model takes the exit of the PARAMS arm and sets `dangling`;
  `OwnershipProofs.DanglingIff` says exactly when that is, `FailingRuns.EntryUsedAfterFree` is
  a run.
- When a BEGIN_REQUEST or PARAMS callback fails and the write after it fails too, the
  error exit destroys the record a second time (`OwnershipProofs.StepPlaces`,
  `FailingRuns.RecordFreedTwice`). That is the last dispatch of the connection
  (`OwnershipProofs.RunPlaces`).
- Finalize and abort rewind the input buffer of the whole connection. Bytes
  that were received but not yet read, any request's, are dropped: everything a client sent is
  dispatched if and only if no rewind finds unread bytes (`DeliveryProofs.AllDispatchedIff`).
  Whether that can happen is a matter of the feed alone: no callbacks and no writes can cost a
  byte if and only if the last byte of every record ends a chunk (`FeedProofs.SafeFeedIff`).
  `SessionLimits.SecondNeverDispatched` is a session that loses a request.
- STDIN and DATA records are queued as ranges of that buffer. After a rewind, even one that
  drops nothing, the next chunk is written over the ranges of live requests:
  `SessionLimits.StaleQueueIff` and `SessionLimits.OneByteStale`. Before the first rewind
  they read back what was sent (`SessionProofs.BodyFaithful`, `Connections.LiveBodies`); over
  any number of rewinds `BufferProofs.QueueReadsIff` says exactly which queues still do.
- The adapter for PARAMS sets the state without looking at it, at every empty PARAMS record: an
  empty one that comes behind the headers allows them again, and so does a callback that ends
  them and succeeds (`App.ParamsReopensIff`, `App.FieldsAgain`). A request puts out one empty
  line for every such reopening (`PhaseProofs.AppLines`); `FailingRuns.TwoEmptyLines` is a run
  with two of them.
- A header table with nothing but too long headers puts out an empty STDOUT record, which
  closes the stream early (`Headers.EarlyCloseIff`, `FailingRuns.ClosedEarly`).
- A connection that drops the last reference to the configuration frees it without the
  application finalizer (`Lifetimes.FinalizedIff`, `Lifetimes.FreedUnfinalized`). A handler
  that is spawned but has not taken its reference does not keep it alive: if it takes it when
  nothing else is left, it holds a configuration that has been freed and will be freed again
  (`Lifetimes.FreedOnceIff`, `Lifetimes.FreedWhileHeld`).

## Model

| member | source | states |
|---|---|---|
| `Wire.Kvp` | src/mnfcgi_wire.c:209-267 | every name-value step moves at least two bytes forward, which is what ends the pair loops |
| `Wire.ParseOne` | src/mnfcgi_wire.c:426-533 | a successful parse consumes at least the eight header bytes and never more than there are |
| `ByteStreams.ByteStream.ParseKvp` | src/mnfcgi_wire.c:209-267 | the in-place reader returns the pair and the size of the pair function with the test as coded |
| `ByteStreams.ByteStream.ParseParams` | src/mnfcgi_wire.c:296-340 | the loop reads the pairs of the record, maybe past its end; the last pair of a name is kept and the position moves by their total size |
| `ByteStreams.ByteStream.ParseValues` | src/mnfcgi_wire.c:362-408 | the same for GET_VALUES: an empty name is skipped, an empty value is NULL |
| `ByteStreams.ByteStream.ParsePayload` | src/mnfcgi_wire.c:270-415 | each record type gives the body and the size of the payload function, and the position moves by that size only when there is a payload |
| `ByteStreams.ByteStream.Wait` | src/mnfcgi_wire.c:438-442 | the waiting loop takes chunks until enough is available or the peer is done, and changes nothing else |
| `ByteStreams.ByteStream.Parse` | src/mnfcgi_wire.c:426-533 | the parser on a growing buffer, wait by wait, gives the record and leaves the stream of the parse function |
| `ByteStreams.ByteStream.RenderPairs` | src/mnfcgi_wire.c:655-694 | the pairs with a value are appended in order; the number returned adds up absolute positions |
| `ByteStreams.ByteStream.RenderKvp` | src/mnfcgi_wire.c:554-573 | appends both lengths, name and value, and returns the stream's end |
| `ByteStreams.ByteStream.RenderPayload` | src/mnfcgi_wire.c:575-702 | appends the payload of the record type and returns the number the code returns |
| `ByteStreams.ByteStream.Patch` | src/mnfcgi_wire.c:773-778 | moving the end of data back and forth replaces exactly the four placeholder bytes |
| `ByteStreams.ByteStream.Render` | src/mnfcgi_wire.c:705-782 | back-patched rendering equals direct encoding: earlier bytes stay and the whole frame follows, or on failure the placeholder header and the partial payload; without assertions the patched length is the number reckoned, whatever was appended |
| `PairProofs.LongBack` | src/mnfcgi_wire.c:187-206 | four big-endian bytes with the high bit set read back as the same value |
| `PairProofs.LengthBack` | src/mnfcgi_wire.c:187-240 | the 31-bit mask undoes the high bit: an encoded length is read back with its width |
| `PairProofs.PairBack` | src/mnfcgi_wire.c:209-267 | an encoded pair is read back with its exact size, wherever it stands |
| `PairProofs.PairsBack` | src/mnfcgi_wire.c:296-339 | a list of pairs round-trips: for all lengths below 2^31 with the test of section 3.4, for one-byte lengths as coded |
| `PairProofs.CodedRoundTrip` | src/mnfcgi_wire.c:209-267 | with the test as coded, rendered pairs come back if and only if every name and value is shorter than 0x7f |
| `PairProofs.LongNameLost` | src/mnfcgi_wire.c:196-230 | a name of 127 bytes already does not come back |
| `PairProofs.RenderedPairs` | src/mnfcgi_wire.c:655-694 | the renderer's bytes are the encoding of the pairs with a value, and the number it returns is at least their end position |
| `PairProofs.ResultRendersIffEmpty` | src/mnfcgi_wire.c:735-747 | GET_VALUES_RESULT passes the length assertion if and only if no pair is rendered, and fails it otherwise |
| `StreamProofs.UncheckedFrameIffEmpty` | src/mnfcgi_wire.c:735-778 | without assertions the frame is as long as its header says if and only if no pair is rendered, and else shorter |
| `PairProofs.LastWins` | src/mnfcgi_wire.c:313-338 | in one PARAMS record the last pair of a name wins |
| `PairProofs.OnlyNamed` | src/mnfcgi_wire.c:313-338 | a parsed table has no name that was not in the record |
| `PairProofs.NamesAsked` | src/mnfcgi_wire.c:362-408 | a GET_VALUES table has a name if and only if it is not empty and some pair has it |
| `PairProofs.ValueAsked` | src/mnfcgi_wire.c:362-408 | the last pair of the name gives its value, an empty one being NULL |
| `StreamProofs.HeaderBack` | src/mnfcgi_wire.c:446-485 | a header laid out as in section 3.3 passes the checks and is read back field by field |
| `StreamProofs.PayloadBack` | src/mnfcgi_wire.c:270-415 | a well-formed payload is read back and takes exactly its length |
| `StreamProofs.StreamRoundTrip` | src/mnfcgi_wire.c:426-533 | any list of well-formed BEGIN_REQUEST, ABORT_REQUEST, PARAMS, STDIN, DATA, GET_VALUES and GET_VALUES_RESULT records with any padding, laid out with the type numbers of section 8, is parsed back as exactly that list, ending at the end of the input |
| `StreamProofs.AcceptsIff` | src/mnfcgi_wire.c:426-533 | which records are accepted, by version, type, id and sizes, which stop the process, and what an accepted one says of itself |
| `SessionProofs.RefusedEnds` | src/mnfcgi_wire.c:446-481 | a header of another version, of no known type, or with an id where none belongs or none where one does, ends the connection with nothing dispatched and nothing sent |
| `SessionProofs.UnimplementedEnds` | src/mnfcgi_wire.c:287-415 | so does a record of a type the code does not implement; an UNKNOWN_TYPE record stops the process |
| `ChunkProofs.PayloadAgrees` | src/mnfcgi_wire.c:270-415 | a payload depends on no cell outside those its type reads: role and flags, the declared size, or every pair that starts inside the record |
| `ChunkProofs.FillKeeps` | src/mnfcgi_wire.c:438-442 | waiting moves bytes from the peer into the buffer and loses none; it fails exactly if the peer will not send enough |
| `ChunkProofs.ParseWhole` | src/mnfcgi_wire.c:426-533 | parsing a record, or failing to, loses no byte of the input and makes none up |
| `ChunkProofs.ChunkIndependentOne` | src/mnfcgi_wire.c:426-533 | however the bytes arrive and whatever stale bytes the buffer holds, a record the parser stays inside of parses as if all were there |
| `ChunkProofs.SettledOne` | src/mnfcgi_wire.c:426-533 | in a buffer never rewound so does a record behind which the parser finds nothing but zero |
| `ChunkProofs.ChunkIndependent` | src/mnfcgi_wire.c:438-533 | in a buffer never rewound, for every split of the input repeated parsing gives the same records and stops at the same place for the same reason, as long as what the parser reads behind a record is zero |
| `ChunkProofs.StreamArrives` | src/mnfcgi_wire.c:438-533 | a client's well-formed records, cut into any chunks, are returned as exactly those records |
| `ChunkProofs.BeginAnyChunksIff` | src/mnfcgi_wire.c:277-286 | a BEGIN_REQUEST of any size and padding with anything behind it parses the same however it arrives if and only if it is refused anyway or the cells of role and flags behind its end are zero |
| `ChunkProofs.SpillIff` | src/mnfcgi_wire.c:296-340 | the pairs of a record cut at its end are those of the uncut input if and only if what the last pair covers behind the end is zero |
| `ChunkProofs.PairsCutAtIff` | src/mnfcgi_wire.c:296-408 | a record of pairs cut anywhere behind its payload parses the same if and only if the pairs take as many bytes and, unless bytes are lacking, amount to the same table |
| `ChunkProofs.PairsAnyDeliveryIff` | src/mnfcgi_wire.c:296-408 | it parses the same under every delivery if and only if it does however much of what lies behind it has arrived |
| `ChunkProofs.PairsAlwaysIff` | src/mnfcgi_wire.c:296-408 | and the pairs read are the same however much has arrived if and only if what the last one covers behind the record is zero |
| `ChunkProofs.PairsAnyChunks` | src/mnfcgi_wire.c:296-408 | with nothing but zero where its last pair runs past it, a record of pairs parses the same under every delivery |
| `ChunkProofs.SpillDependsOnChunks` | src/mnfcgi_wire.c:296-340 | a PARAMS record of two bytes gets one parameter in one chunk and another one in two |
| `ChunkProofs.ParseShrinks` | src/mnfcgi_wire.c:438-494 | every successful parse uses up at least header, declared size and padding of what is left, the measure that ends the connection loop |
| `StreamProofs.FrameAligned` | src/mnfcgi_private.h:76-77 | a frame is header, content and padding and a multiple of eight bytes long |
| `StreamProofs.EndBodyIff` | src/mnfcgi_wire.c:602-626 | END_REQUEST carries both statuses, and read in the order of section 5.5 it says what was meant if and only if all bytes of the application status equal the protocol status |
| `StreamProofs.FramesReadBack` | src/mnfcgi_wire.c:705-782 | a receiver that follows section 3.3 reads any sequence of rendered frames back as exactly those records in order |
| `Headers.AddResult` | src/mnfcgi_proto.c:439-602 | the code of a field call and what it leaves, by state, mode and whether the name is there: refused after the headers, a duplicate reported unless overridden, IFNOEXISTS leaving the table alone, overriding changing the first pair of the name and no other position |
| `Headers.FieldCount` | src/mnfcgi_proto.c:439-602 | a fold of field calls leaves each name exactly as often as the calls on that name alone say |
| `Headers.FieldValues` | src/mnfcgi_proto.c:439-602 | the values of a name, in order, are what the calls on that name alone make of those it had: nothing said of one header changes another |
| `Headers.NeverPlainOnce` | src/mnfcgi_proto.c:439-602 | of such calls, those that are all OVERRIDE or IFNOEXISTS never leave a name more than once |
| `Headers.OverrideFound` | src/mnfcgi_proto.c:605-617 | after an overriding call its value is the one found, and every other name has the values it had |
| `Headers.LinePrints` | src/mnfcgi_proto.c:632-673 | without NUL bytes a header prints as name, colon, space, value and CRLF, a NULL value as nothing |
| `Headers.CStringEnds` | src/mnfcgi_proto.c:652-671 | else it prints up to the first NUL of each |
| `Headers.EstimateExceeds` | src/mnfcgi_proto.c:645-678 | the packer's estimate of a header always exceeds the bytes printed |
| `Headers.PackBlock` | src/mnfcgi_proto.c:620-689 | one payload plus the block of what it leaves in the table is the block of the table |
| `Headers.PackTakes` | src/mnfcgi_proto.c:633-686 | a header payload stays below the bound, so it is never too large, and the packer stops only before a header that might exceed 0x8000 together with it, and fits the next record |
| `Headers.PackShrinks` | src/mnfcgi_proto.c:710-716 | every header record takes at least one header off the table, so `headers_end` terminates |
| `Headers.PackedBlock` | src/mnfcgi_proto.c:620-722 | wherever the record boundaries fall, the payloads concatenate to the lines of exactly the headers that, with ten bytes, or eleven if there is a value, stay below 0x8000, in iteration order |
| `Headers.EarlyCloseIff` | src/mnfcgi_proto.c:633-689 | an empty header payload, which would close STDOUT, is emitted if and only if the table holds nothing but too long headers |
| `RequestProofs.FlushConserves` | src/mnfcgi_proto.c:1359-1377 | a flush, with or without the rewind behind it, keeps delivered plus unsent equal to everything rendered |
| `RequestProofs.AbortKeeps` | src/mnfcgi_proto.c:899-939 | abort keeps conservation and the response grammar, leaves the request complete and nothing unsent, also when it was complete already |
| `RequestProofs.FinalizeKeeps` | src/mnfcgi_proto.c:1379-1427 | so does finalize, with an empty STDOUT before END_REQUEST, also when repeated |
| `RequestProofs.EndHeadersKeeps` | src/mnfcgi_proto.c:700-722 | ending the headers keeps conservation and grammar |
| `RequestProofs.DoKeeps` | src/mnfcgi_proto.c:439-978 | every API call keeps them, touches no queue, and logs exactly the records it adds to the request |
| `RequestProofs.RunKeeps` | src/mnfcgi_proto.c:439-978 | so does every callback, whatever calls it makes and however they fare |
| `RequestProofs.CompleteIsSilent` | src/mnfcgi_proto.c:899-978 | on a complete request no callback renders, sends or drops a byte |
| `RequestProofs.RunIndependent` | src/mnfcgi_proto.c:942-978 | while writes succeed a callback cannot tell what else is in the shared buffer |
| `DispatchProofs.FailureReported` | src/mnfcgi_proto.c:1030-1037 | a failing callback on an open request ends it with one END_REQUEST whose status is the negated code in 32 bits |
| `DispatchProofs.AnsweredNames` | src/mnfcgi_proto.c:1277-1295 | an answer has exactly the names asked for; the three known ones get the configured values, the others keep theirs |
| `DispatchProofs.ReplyGrows` | src/mnfcgi_proto.c:1008-1022 | a reply to a record no request takes is logged as a reply and leaves the entry alone; that it is written is `OutputProofs.RefusalsSent` |
| `DispatchProofs.BeginGrows` | src/mnfcgi_proto.c:1000-1078 | the BEGIN arm: unknown role and duplicate id get one reply, else what the new request put out; an entry joins the table only if open |
| `DispatchProofs.AbortGrows` | src/mnfcgi_proto.c:1080-1106 | the ABORT arm puts out exactly one END_REQUEST, the request's own if there was one, and the entry is gone |
| `DispatchProofs.StreamGrows` | src/mnfcgi_proto.c:1109-1270 | the PARAMS, STDIN and DATA arms add exactly what the request put out, or one reply if there is none |
| `DispatchProofs.ValuesGrows` | src/mnfcgi_proto.c:1272-1305 | the GET_VALUES arm adds one reply: with assertions the empty answer, else the process stops; without them the answer as it is, well-formed or not |
| `DispatchProofs.DispatchGrows` | src/mnfcgi_proto.c:999-1334 | any dispatch with any callbacks: the log grows by this id's records only, its entry stays open or its request is closed grammatically, the output is conserved |
| `DispatchProofs.EndHookNothing` | src/mnfcgi_proto.c:225-229 | with nothing unsent, the end_request callback of a complete request can do no more than rewind the input |
| `DispatchProofs.DispatchIndependent` | src/mnfcgi_proto.c:999-1334 | while writes succeed a dispatch on two connections that agree on the request puts out the same records and leaves the same request |
| `OutputProofs.RenderAppends` | src/mnfcgi_proto.c:942-978 | on an open request a payload is framed behind what is unsent, byte for byte; the code is success up to 0x8000 bytes, too large above, a render error if the renderer gave up; on a complete one nothing happens |
| `OutputProofs.FlushSends` | src/mnfcgi_proto.c:1359-1377 | on an open request everything unsent is written at once, or lost with an I/O error; the buffer starts over in both cases |
| `OutputProofs.FinalizeSends` | src/mnfcgi_proto.c:1379-1427 | finalize writes everything unsent with an empty STDOUT and END_REQUEST behind it at once, or loses it with an I/O error; both buffers start over |
| `OutputProofs.AbortSends` | src/mnfcgi_proto.c:899-939 | abort does so with END_REQUEST and the status |
| `OutputProofs.HeadersEndSends` | src/mnfcgi_proto.c:700-722 | ending the headers appends STDOUT records whose contents are together the lines of the headers that can be sent, and one of CRLF alone |
| `OutputProofs.FieldChanges` | src/mnfcgi_proto.c:439-602 | a field call puts nothing out and changes the table alone: the values of its name as mode and presence say, no other name's; the code says which |
| `OutputProofs.RefusalsSent` | src/mnfcgi_proto.c:1006-1069 | a record no request takes, an unknown role, a second BEGIN_REQUEST, an id without a request, a GET_VALUES_RESULT, is answered in one write behind everything unsent and freed; if the write fails the connection ends |
| `OutputProofs.AbortsSent` | src/mnfcgi_proto.c:1080-1106 | an ABORT_REQUEST writes END_REQUEST behind everything unsent, destroys the request, its records in order, runs its end_request callback, and writes once more |
| `OutputProofs.CallbackDecides` | src/mnfcgi_proto.c:1025-1270 | the callback of a record decides: a request it leaves open stays with everything it did, a complete one is destroyed, and if it fails an open one is ended first with the negated code, and behind BEGIN_REQUEST and PARAMS there is one more write, whose failure ends the connection |
| `OutputProofs.NoCallbackStays` | src/mnfcgi_proto.c:1025-1270 | without a callback a record begins a request or joins its queue, and no more |
| `OutputProofs.ApplicationCalls` | src/mnfcgi_app.c:11-68 | which callback of an application a BEGIN_REQUEST, PARAMS or STDIN record leads to, in which state, and what comes of its code |
| `OutputProofs.ApplicationIgnores` | src/mnfcgi_app.c:405-410 | DATA leads to none, and the end_request callback is the configuration's |
| `OutputProofs.QueryAnswered` | src/mnfcgi_proto.c:1272-1305 | with assertions a query for nothing known gets an empty answer, which waits for the next write |
| `OutputProofs.EndHookRuns` | src/mnfcgi_proto.c:225-229 | the end_request callback of a destroyed request runs and sees it without records and headers: all that shows are the rewinds it asks for |
| `OutputProofs.DropAllFinishes` | src/mnfcgi_proto.c:808-820 | requests destroyed in any order, each once, their end_request callbacks run |
| `OutputProofs.RunDelivers` | src/mnfcgi_proto.c:987-1356 | over every run on which writes succeed, however it ends, the peer has every END_REQUEST and every UNKNOWN_TYPE rendered and everything rendered before it |
| `OutputProofs.SessionDelivers` | src/mnfcgi_proto.c:981-1356 | and so over every session, from its bytes |
| `OutputProofs.ErrorDelivers` | src/mnfcgi_app.c:90-122 | an error response on the wire: the lines of its fields, the empty line, the empty STDOUT and END_REQUEST, in one write behind what was unsent |
| `OutputProofs.RedirDelivers` | src/mnfcgi_app.c:125-167 | and a redirect |
| `RunProofs.HangupEnds` | src/mnfcgi_proto.c:1338-1350 | after the error exit every remaining request is complete and nothing is unsent |
| `RunProofs.StepKeeps` | src/mnfcgi_proto.c:987-1356 | one dispatch keeps the connection invariant, or ends the connection in order |
| `RunProofs.RunKeepsInvariant` | src/mnfcgi_proto.c:987-1356 | over every run: every entry is an open RESPONDER request under its own id, every destroyed request ended grammatically, the output is conserved, and an id's own records are those of its requests one after the other |
| `RunProofs.OneEndRequestEach` | src/mnfcgi_proto.c:899-1427 | among an id's own records there is exactly one END_REQUEST per request that left the table and none for one still there |
| `RunProofs.AfterErrorSilent` | src/mnfcgi_proto.c:1338-1350 | after the error exit no callback of a remaining request can emit |
| `RunProofs.HangupDrops` | src/mnfcgi_proto.c:1338-1341 | the error exit drops exactly the unsent bytes; what was delivered is a prefix of what was rendered |
| `RunProofs.WireIsLog` | src/mnfcgi_proto.c:987-1336 | while writes and renders succeed a receiver reads off the wire and the unsent bytes exactly the records rendered, in order, and no byte is lost |
| `RunProofs.RunSucceeds` | src/mnfcgi_proto.c:987-1336 | while writes succeed none is counted as failed, and a run takes the error exit if and only if the build has no assertions and it comes to a query whose answer is reckoned above the payload bound |
| `RunProofs.Multiplexing` | src/mnfcgi_proto.c:999-1334 | from any two connections alike for an id, the interleaved run and the run of that id alone stay alike for it, request state included; without assertions as long as queries carry the id zero, which the parser sees to |
| `RunProofs.MultiplexingInvisible` | src/mnfcgi_proto.c:1290-1295 | from the start of a connection, under the same condition, an id gets exactly the records it would get if only its own were dispatched, which is what FCGI_MPXS_CONNS = 1 advertises |
| `OwnershipProofs.StepPlaces` | src/mnfcgi_proto.c:1025-1334 | whatever the callbacks and the writes do, each dispatch puts its record in exactly one place, destroyed or held; in two exactly if a BEGIN_REQUEST or PARAMS callback and the write behind it both fail, in none if the process stops |
| `OwnershipProofs.RunPlaces` | src/mnfcgi_proto.c:1025-1334 | every run, failing writes included, keeps each dispatched record in exactly one place; only the record of a dispatch that ended it can be in two or none |
| `OwnershipProofs.RecordsInOnePlace` | src/mnfcgi_proto.c:1025-1334 | the same from the start of a connection |
| `QueueProofs.HeldExactly` | src/mnfcgi_proto.c:169-221 | the numbers a request holds stand, one for one and in the order of destruction, for its begin_request and the records of its three queues |
| `QueueProofs.RunNumbered` | src/mnfcgi_proto.c:1130-1245 | over every run a request's queues are, in order, exactly the PARAMS, STDIN and DATA records its id received since its BEGIN_REQUEST, numbers and records alike |
| `QueueProofs.KeptOrDestroyed` | src/mnfcgi_proto.c:169-252 | a dispatch keeps the request in hand or destroys it and with it every record it holds |
| `QueueProofs.DestroysItsQueues` | src/mnfcgi_proto.c:169-252 | what a dispatch of a run destroys with a request are the records of its queues, named by their numbers |
| `OwnershipProofs.DropPlaces` | src/mnfcgi_proto.c:235-252 | destroying a request of the table moves its records from held to destroyed, each once |
| `OwnershipProofs.AllFreedOnce` | src/mnfcgi_proto.c:808-820 | with the table empty, a record in one place has been destroyed once |
| `OwnershipProofs.DanglingIff` | src/mnfcgi_proto.c:1191-1266 | the STDIN and DATA arms use a deleted entry if and only if the request is there and its callback returns a negative code |
| `ParamProofs.GetParamIsLookup` | src/mnfcgi_proto.c:255-277 | lookup over the queue is lookup in one merged map in which an earlier record wins |
| `ParamProofs.FoundStays` | src/mnfcgi_proto.c:255-277 | later PARAMS records never change an answer once given |
| `ParamProofs.StepExtends` | src/mnfcgi_proto.c:1130-1132 | a dispatch a request survives leaves its PARAMS records in place and in order |
| `ParamProofs.ParamStable` | src/mnfcgi_proto.c:255-277 | over any run a request lives through, a found parameter keeps its value |
| `HeaderProofs.TableIsFold` | src/mnfcgi_proto.c:439-722 | the header table a callback leaves is the fold of its field calls over the one it found, or empty if it ended the headers |
| `HeaderProofs.RunFieldCount` | src/mnfcgi_proto.c:439-722 | so over any callback each name is there as often as the calls on that name alone say |
| `HeaderProofs.RunFieldValues` | src/mnfcgi_proto.c:439-722 | and has the values those calls make of the ones it had |
| `HeaderProofs.RunOnce` | src/mnfcgi_proto.c:439-617 | over any callback a name at most once in the table and only added with OVERRIDE or IFNOEXISTS stays at most once in it |
| `HeaderProofs.NeverTwice` | src/mnfcgi_proto.c:439-617 | over any run no request's table holds a name twice that no callback adds plainly |
| `HeaderProofs.CannedSetStatus` | src/mnfcgi_app.c:90-167 | the canned responses touch `Status` only by overriding it |
| `HeaderProofs.StatusOnce` | src/mnfcgi_proto.c:605-617 | over any run of an application whose callbacks set `Status` by the status call, no request has two of them |
| `Sessions.ServeRuns` | src/mnfcgi_proto.c:981-1356 | the state a session leaves, by whichever exit, is that of the run over the records it dispatched |
| `Sessions.ServedIds` | src/mnfcgi_wire.c:464-481 | of the records a session dispatches only the id zero has queries |
| `Sessions.SessionMultiplexed` | src/mnfcgi_proto.c:1290-1295 | so over any session that ends with the input, in either build, an id gets exactly the records it would get if only its own were dispatched |
| `SessionProofs.ParsedBody` | src/mnfcgi_wire.c:342-354 | the body bytes a callback gets are those of the whole input, whatever the chunks |
| `SessionProofs.ClientRecords` | src/mnfcgi_proto.c:987-1336 | until the input is rewound the records dispatched are the first ones the client sent, contents included |
| `SessionProofs.QueuesReadable` | src/mnfcgi_wire.c:342-354 | until then a queue of any request in the table reads out of the buffer the bytes its callbacks got, in order |
| `SessionProofs.BodyFaithful` | src/mnfcgi_proto.c:1191-1245 | at every turn of a session until then, the STDIN or DATA queue of a live request reads out of the input buffer exactly what the client has sent for it, across interleaving, chunks and buffer growth |
| `SessionProofs.RangeSurvivesIff` | src/mnfcgi_proto.c:934-1423 | after a rewind a range keeps its bytes if and only if the next chunk has the same ones as far as it covers it |
| `BufferProofs.RangeKeptIff` | src/mnfcgi_proto.c:934-1423 | over any number of chunks and rewinds a range keeps its bytes if and only if every byte last written into it is the one that was there |
| `BufferProofs.QueueReadsIff` | src/mnfcgi_proto.c:1191-1245 | at any turn of any session, whatever is rewound how often, the STDIN or DATA queue of a live request reads what its callbacks got if and only if in none of its records a byte has since been overwritten by a different one |
| `BufferProofs.SessionTurns` | src/mnfcgi_proto.c:981-1356 | the turns that is about are those of the session: its events begin with theirs |
| `SessionProofs.SessionPlaces` | src/mnfcgi_proto.c:981-1356 | however a session ends, each record dispatched is destroyed or held once, but for the last one after a failed write or an assertion |
| `SessionProofs.EndsSilent` | src/mnfcgi_proto.c:1338-1350 | after the error exit nothing is unsent and every remaining request is complete |
| `SessionProofs.PrefixReceived` | src/mnfcgi_proto.c:1338-1350 | while writes succeed a peer that hangs up has received a prefix of the records rendered |
| `DeliveryProofs.ParseShift` | src/mnfcgi_wire.c:426-533 | parsing does not depend on where in the input a record lies |
| `DeliveryProofs.ServeContents` | src/mnfcgi_proto.c:981-1356 | as long as no rewind drops unread bytes, of an input of records the parser stays inside of the events dispatched, id, type, parameters and body bytes, are those the input holds: all of them when the peer hangs up, else a prefix |
| `DeliveryProofs.ServeAccounts` | src/mnfcgi_proto.c:981-1356 | what the dispatched records take plus what is dropped never exceeds what the peer sent |
| `DeliveryProofs.AllDispatchedIff` | src/mnfcgi_proto.c:934-1423 | everything a client sent is dispatched as it was sent if and only if no rewind dropped an unread byte |
| `FeedProofs.ItemTakes` | src/mnfcgi_wire.c:438-494 | the waits for a well-formed record receive exactly the chunks one wait for all of it would |
| `FeedProofs.NothingLost` | src/mnfcgi_proto.c:934-1423 | if every record of a client ends a chunk nothing is lost, whatever the callbacks do |
| `FeedProofs.SafeFeedIff` | src/mnfcgi_proto.c:934-1423 | for a client whose stream records and aborts belong to begun requests, no configuration and no writes can lose a byte if and only if the last byte of every record ends a chunk; at any other record there is a callback that loses bytes |
| `FeedProofs.SafeFeedDispatched` | src/mnfcgi_proto.c:934-1423 | on such a feed everything is dispatched as it was sent when the peer hangs up |
| `SessionLimits.FinalizeDropsChunk` | src/mnfcgi_proto.c:1423-1424 | a callback that finalizes at BEGIN_REQUEST costs the connection everything else in the same chunk, to the byte |
| `SessionLimits.SecondNeverDispatched` | src/mnfcgi_proto.c:1423-1424 | of two requests in one chunk the first is finalized and the second never dispatched |
| `SessionLimits.StaleQueueIff` | src/mnfcgi_proto.c:1191-1193 | a rewind by another request drops nothing, yet a live request's STDIN queue then reads what was sent if and only if the next chunk has the same bytes in that place |
| `SessionLimits.OneByteStale` | src/mnfcgi_proto.c:1191-1193 | a queued byte is lost to the body of a later record exactly if another one comes to lie in its place |
| `RelocationProofs.RunRelocated` | src/mnfcgi_proto.c:999-1334 | for callbacks that read body bytes and not places, the same records at other places give the same run |
| `RelocationProofs.SessionsAlike` | src/mnfcgi_proto.c:1290-1295 | two clients, one sending many requests interleaved and one the records of one id alone, each in its own chunks: if nothing is dropped the id gets exactly the same records from both connections |
| `App.HeaderPhases` | src/mnfcgi_proto.c:439-722 | over any sequence of API calls the state never goes back, at most one terminating empty line is put out, and no field is added behind it |
| `App.EndHeadersPutsBlock` | src/mnfcgi_proto.c:700-722 | ending the headers puts out the block and then CRLF, empties the table and ends the phase |
| `App.BeginAdapter` | src/mnfcgi_app.c:11-26 | the callback runs in state BEGIN and its failure, whatever its code, becomes the library's error code |
| `App.ParamsAdapter` | src/mnfcgi_app.c:29-45 | only the empty record calls params_complete, in state PARAMS_DONE; headers are allowed behind it if it succeeds |
| `App.StdinAdapter` | src/mnfcgi_app.c:48-68 | data goes to the stdin callback and the ending record to stdin_end, never both |
| `App.ParamsReopensIff` | src/mnfcgi_app.c:29-45 | across the PARAMS adapter the phase goes back, if the callback succeeds, exactly for a request whose headers had ended before the record came; if it fails, exactly when it leaves an earlier state |
| `App.FieldsAgain` | src/mnfcgi_app.c:29-45 | behind an empty PARAMS record whose callback succeeds fields are accepted and the headers of an open request can end again, whether they had ended before it or in it |
| `PhaseProofs.RunLines` | src/mnfcgi_proto.c:700-722 | over any callback the empty lines of a request that stays open, less the one that ended its headers, grow by one for every setting of the state back behind them and for every empty line written as body |
| `PhaseProofs.LinesExactly` | src/mnfcgi_proto.c:987-1356 | so over every run: a request in the table has put out exactly that many |
| `PhaseProofs.AdapterReopens` | src/mnfcgi_app.c:29-68 | of the adapters only the one for PARAMS sets the phase back, once if the headers are over when the empty record comes and once if they are over when its callback succeeds |
| `PhaseProofs.AppLines` | src/mnfcgi_app.c:29-45 | over every run of an application a request in the table has put out one empty line per such reopening, one per empty line written as body, and one if its headers are over; a second one if and only if they ended again after a reopening, or were reopened twice |
| `App.StatusFinalizes` | src/mnfcgi_app.c:101-109 | once status and headers may be sent, the tail of the canned responses finalizes an open request |
| `App.ErrorSends` | src/mnfcgi_app.c:90-122 | what an error response puts out: the fields of the request with Content-Length behind them and Status in the place of the first one or last, the empty line, the empty STDOUT and END_REQUEST, in this order |
| `App.RedirSends` | src/mnfcgi_app.c:125-167 | a redirect the same with Content-Length, the URI as Location, and Status |
| `App.NamesSpelled` | src/mnfcgi_proto.c:21-26 | the names of the fields and of the known values |
| `App.ErrorAnswersIff` | src/mnfcgi_app.c:90-122 | `mnfcgi_app_error` ends an open request if and only if fields are allowed and no Content-Length is set |
| `App.RedirAnswersIff` | src/mnfcgi_app.c:125-167 | a redirect needs Location to be unset as well |
| `Adapters.BeginRequest` | src/mnfcgi_app.c:11-26 | the BEGIN adapter on the objects does what its program does |
| `Adapters.Params` | src/mnfcgi_app.c:29-45 | the PARAMS adapter on the objects, state assignments around the callback, does what its program does |
| `Adapters.Stdin` | src/mnfcgi_app.c:48-68 | the STDIN adapter on the objects does what its program does |
| `Adapters.Error` | src/mnfcgi_app.c:90-122 | the steps of the error response, each only after the one before succeeded, leave the state of the program |
| `Adapters.Redir` | src/mnfcgi_app.c:125-167 | so do those of the redirect |
| `Lifetimes.Shared.constructor` | src/mnfcgi_app.c:472-494 | a new application has one reference and balanced counters; one whose callback fails is finalized and freed once, at once |
| `Lifetimes.Shared.Incref` | src/mnfcgi_app.c:430-434 | an owner takes a reference: one move of an interleaving, keeping the counters balanced |
| `Lifetimes.Shared.Destroy` | src/mnfcgi_app.c:497-507 | so is an owner dropping one; the last reference finalizes and frees |
| `Lifetimes.Shared.Begin` | src/mnfcgi_proto.c:1461-1467 | a handler is counted in: the next move |
| `Lifetimes.Shared.Attach` | src/mnfcgi_proto.c:782-790 | `mnfcgi_ctx_init` takes its reference: the next |
| `Lifetimes.Shared.Leave` | src/mnfcgi_proto.c:1470-1474 | it is counted out before it lets go: the next |
| `Lifetimes.Shared.Detach` | src/mnfcgi_private.h:283-292 | its connection drops the reference: the last; the last reference frees without the finalizer |
| `Lifetimes.RunBalances` | src/mnfcgi_proto.c:782-820 | over every interleaving, whatever has been freed, `nref` is owner references plus initialised connections and `nthreads` the handlers between its updates |
| `Lifetimes.FreedExactly` | src/mnfcgi_private.h:281-292 | since `mnfcgi_app_new`, over every interleaving, the configuration has been freed once for the references that are all gone, if they are, and once for every connection that took its reference after they were |
| `Lifetimes.FreedOnceIff` | src/mnfcgi_private.h:281-292 | so it is freed once when nothing holds it and not before if and only if no connection takes its reference too late; after one does it is freed while held, and twice when released |
| `Lifetimes.NeverFreedWhileHeld` | src/mnfcgi_private.h:281-292 | who holds a reference, owner or initialised connection, finds the configuration not freed if and only if no connection took its reference too late |
| `Lifetimes.FreedWhileHeld` | src/mnfcgi_proto.c:1461-1467 | start, the owner leaves, the handler takes its reference: held and freed |
| `Lifetimes.MisuseIff` | src/mnfcgi_proto.c:1461-1470 | from a configuration freed exactly if released, a move touches it after the free if and only if it starts a handler or takes its reference |
| `Lifetimes.RunMisuseIff` | src/mnfcgi_proto.c:1461-1470 | so over every interleaving: touched after the free if and only if a handler starts or takes its reference once every owner reference and every initialised connection is gone |
| `Lifetimes.FinalizedIff` | src/mnfcgi_app.c:461-507 | a move frees it if and only if it drops the last reference, and the finalizer runs if and only if an owner made that move |
| `Lifetimes.FreedUnfinalized` | src/mnfcgi_private.h:283-292 | the owner leaves while a connection is served: freed once, never finalized |
| `FailingRuns.TwoEmptyLines` | src/mnfcgi_app.c:29-45 | a run in which an open request puts out two empty lines, one for each body byte, with an empty PARAMS record between |
| `FailingRuns.CrashIff` | src/mnfcgi_proto.c:1272-1305 | a dispatch stops the process if and only if assertions are active and it is a GET_VALUES query with one of the three names the library knows or a value of its own |
| `FailingRuns.MpxsQueryStops` | src/mnfcgi_proto.c:1290-1295 | with assertions, asking for FCGI_MPXS_CONNS does so on any connection |
| `FailingRuns.MpxsSessionStops` | src/mnfcgi_proto.c:1290-1295 | so does any session in which the bytes of that query are next, whatever comes behind them and however they arrive |
| `FailingRuns.AnswerMalformed` | src/mnfcgi_wire.c:735-778 | without them an answer that answers anything is shorter than its header declares |
| `FailingRuns.AnswerEndsConnection` | src/mnfcgi_wire.c:735-754 | and it ends the connection, whatever the writes do, once the output buffer ends at or behind the payload bound |
| `FailingRuns.RecordFreedTwice` | src/mnfcgi_proto.c:1030-1047 | a BEGIN_REQUEST whose callback and writes fail leaves its record destroyed twice |
| `FailingRuns.EntryUsedAfterFree` | src/mnfcgi_proto.c:1191-1216 | a STDIN callback that fails leaves the arm with the entry it has deleted |
| `FailingRuns.ClosedEarly` | src/mnfcgi_proto.c:633-689 | one header with a name of the whole payload bound: the first STDOUT record of the response is the empty one |
| `Connections.Request.GetParam` | src/mnfcgi_proto.c:255-277 | the loop over the queue finds the first record that has the name |
| `Connections.Request.FieldAdd` | src/mnfcgi_proto.c:439-602 | the in-place table update and its code are those of the insertion mode, the state check first |
| `Connections.Request.RenderHeaders` | src/mnfcgi_proto.c:620-689 | the packing loop prints and removes headers exactly as the packer function |
| `Connections.Connection.RenderStdout` | src/mnfcgi_proto.c:942-978 | one STDOUT record of the request's id behind what was there, or nothing on a complete request |
| `Connections.Connection.FlushOut` | src/mnfcgi_proto.c:1359-1377 | everything unsent is sent or dropped and the buffer rewound, unless the request is complete |
| `Connections.Connection.Abort` | src/mnfcgi_proto.c:899-939 | END_REQUEST, a write, both buffers rewound, the request complete |
| `Connections.Connection.Finalize` | src/mnfcgi_proto.c:1379-1427 | empty STDOUT, END_REQUEST, a write, both buffers rewound, the request complete; only the rewinds if it was complete |
| `Connections.Connection.HeadersEnd` | src/mnfcgi_proto.c:700-722 | the loop puts out the packed table and the empty line, then ends the phase |
| `Connections.Connection.RunProgram` | src/mnfcgi_proto.c:439-978 | running a callback on the objects gives the state and code of its run on values, and the input is untouched or rewound |
| `Connections.Connection.DestroyRecords` | src/mnfcgi_proto.c:169-221 | the three queue walks take off and destroy the begin_request and every record queued, in that order, each once |
| `Connections.Connection.Destroy` | src/mnfcgi_proto.c:169-252 | the request's records are destroyed once each, then its end_request callback runs on the emptied request |
| `Connections.Connection.OnBegin` | src/mnfcgi_proto.c:1000-1078 | the BEGIN arm on the objects is the BEGIN dispatch: reply, keep, or destroy |
| `Connections.Connection.OnAbort` | src/mnfcgi_proto.c:1080-1106 | the ABORT arm on the objects is the ABORT dispatch |
| `Connections.Connection.OnParams` | src/mnfcgi_proto.c:1109-1167 | the record joins the PARAMS queue, the callback runs, and the entry stays or goes |
| `Connections.Connection.OnStdin` | src/mnfcgi_proto.c:1169-1219 | the same for STDIN, a failing callback leaving without a flush and marked as dangling |
| `Connections.Connection.OnData` | src/mnfcgi_proto.c:1221-1270 | the same for DATA |
| `Connections.Connection.FillIn` | src/mnfcgi_proto.c:1277-1295 | exactly the three known names are answered, if asked for |
| `Connections.AnswerRenders` | src/mnfcgi_wire.c:655-694 | in whatever order the pairs are listed, the answer renders if and only if none has a value |
| `Connections.Connection.EmitAnswer` | src/mnfcgi_wire.c:655-782 | without assertions the answer is put out as it is, its length field the number reckoned, or only begun if that is too much |
| `Connections.Connection.OnValues` | src/mnfcgi_proto.c:1272-1305 | the GET_VALUES arm on the objects is its dispatch in either build, assertion failure and error exit included |
| `Connections.Connection.OnOther` | src/mnfcgi_proto.c:1307-1333 | an incoming GET_VALUES_RESULT is answered with UNKNOWN_TYPE and a write |
| `Connections.Connection.HangUp` | src/mnfcgi_proto.c:1338-1350 | both buffers are rewound and the loop completes every request of the table |
| `Connections.Connection.Step` | src/mnfcgi_proto.c:987-1356 | one dispatched record takes the connection object to the state of the step function, error exit included |
| `Connections.Connection.DispatchNext` | src/mnfcgi_proto.c:987-1356 | seen from the input: it stays, or is rewound and the unread bytes are counted as dropped |
| `Connections.Connection.Round` | src/mnfcgi_proto.c:987-1356 | each turn of the loop keeps what was dispatched, dropped and left in step with the session, and uses up input |
| `Connections.Connection.Handle` | src/mnfcgi_proto.c:981-1356 | on any finite input, callbacks and writes the loop ends; the records dispatched, the bytes dropped, the state, the buffer and the way out are those of the session |
| `Connections.LiveBodies` | src/mnfcgi_proto.c:1191-1245 | between two turns, before the first rewind, the STDIN and DATA queues of a request object read out of the connection's `input.buf` exactly what the client has sent for it |
| `Connections.Connection.Fini` | src/mnfcgi_proto.c:808-820 | every remaining request is destroyed once and each of its records once; after the error exit nothing is sent and every end_request callback has run |
| `Connections.ErrorExit` | src/mnfcgi_proto.c:1338-1350 | at either error exit, a failed parse or a failed write, nothing is unsent and every record is in the places the session says |
| `Connections.HandleSocket` | src/mnfcgi_proto.c:1461-1478 | a whole connection: when the peer is gone every dispatched record has been destroyed exactly once, after a failed write too but for the last one, which is destroyed twice exactly if its BEGIN_REQUEST or PARAMS callback had failed as well; every request left is destroyed once and its end_request callback run; while writes succeed the peer has a prefix of what was rendered, at least up to the last END_REQUEST; of well-formed records all were dispatched if and only if nothing was dropped |

## Left out

- Connections.Connection.OnStdin: the second test and deletion of the deleted entry (lines 1205 and 1215) is not modelled beyond the `dangling` mark, because what freed memory holds is undefined.
- Connections.Connection.OnData: likewise for lines 1257 and 1266.
- Connections.Connection.Finalize: the loop over the request's `_stdout` queue is not modelled, because no code puts a record there; the `_stderr` queue has no writer either.
- Connections.Connection.OnValues: the state of the object after a failed assertion is not described, because the process has stopped.
- Connections.Request.RenderHeaders: the payload is packed first and then rendered as one chunk; that the code prints it between the placeholders and the padding piece by piece is not visible in the result.
- RunProofs.MultiplexingInvisible: is about writes that succeed, because a failing write ends the connection for every request on it; a failing render is covered.
- RelocationProofs.SessionsAlike: is about callbacks that do not look at where in the buffer a body lies, and about sessions in which nothing is dropped, because a rewind drops the records of any id.
- SessionProofs.BodyFaithful: ends at the first rewind of the input buffer, because after it the code overwrites the ranges it still points to; `BufferProofs.QueueReadsIff` goes on behind it.
- PhaseProofs.AppLines: is about applications whose callbacks do not set the request state themselves, because no API call does; `PhaseProofs.LinesExactly` is about callbacks that may set it to anything up to HEADERS_ALLOWED.
- FeedProofs.SafeFeedIff: is about request records and RESPONDERs, because no callback sees a GET_VALUES record or a BEGIN_REQUEST of another role.
- Connections.HandleSocket: a callback receives the input stream but is taken not to move it, and to read of it only the body of the record in hand.
- Lifetimes.Shared.Begin: serving the connection between `Attach` and `Leave` is `Connections.HandleSocket`, not repeated there.
- Sockets, the accept loop, green threads and interrupts: input and output of an unseen library.
- Query terms, cookies, number and date parsing and formatting: calls into other libraries; formatted values are parameters.
- Hash table internals, byte-string reference counts and out-of-memory failures.
- Endpoint registration, the method selector and the allowed-methods list: straight-line lookups over a fixed table.
- Client-side record types (rendering PARAMS, STDIN, DATA): the code does not implement them.
