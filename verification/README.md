# StoreFS RDMA clients: model and proofs

StoreFS is an S3 object store that can move object data by RDMA. The repository holds four clients (C, Go, Python, Java)
that upload objects this way: each part of a multipart upload is put into memory, offered to the server by a token sent
over a websocket control channel, and fetched by the server while an empty part request is pending. This project models
that client stack in Dafny and proves what it promises: that a successful upload has stored the file, that nothing it
acquires is leaked or released out of order, that tokens are safe to use, and that the hand-written codecs on the way are
lossless. Where a promise fails, the exact condition under which it holds is proved instead.

`dafny verify dfyconfig.toml` checks everything.

| module | subject |
|---|---|
| `Prelude`, `CStrings` | bytes, casts; `strstr`, decimal printing and scanning, `snprintf`, C strings in buffers |
| `CompleteXml` | printing and parsing the list of completed parts |
| `QpInfoJson`, `TokenJson` | the queue-pair message and the token message |
| `WebSocketFrames`, `WebSocketUpgrade` | frames on a byte stream, the upgrade response before them |
| `Base64`, `Endpoint`, `ResponseBuffer` | the websocket key, URLs, the doubling response buffer |
| `SyncWebSocket` | the Java fragment reassembly queue |
| `Partition` | part counts, offsets and lengths in four languages |
| `ResourceTrace` | which traces of acquisitions, releases, tokens and server reads are lawful, and what that implies |
| `UploadProtocol`, `S3Server`, `UploadSpec` | request histories, the server as seen by a client, the state of a part loop |
| `CSession`, `CMultipart` | the C client |
| `SortedComplete` | the complete request of the Python and Java clients |
| `PythonSession`, `PythonMultipart` | the Python client |
| `JavaSession`, `JavaMultipart` | the Java client, with its exceptions and `Error`s |
| `GoMultipart` | the Go client with its deferred releases |
| `WholeRun` | complete `all` runs from a clean start |

## How to read the model

Whether a call into libibverbs, a socket, the file system or an allocator succeeds is an input: a schedule gives the fault
at every program point and moment, and a network gives the C client whom it meets when it dials (the host's addresses, the
bytes the other side sends, whether the connection is sound). Contracts hold for every schedule and every network, so for
every pattern of failures; each step leaves an event with its site and its end in the trace, and the trace is proved to
follow the schedule. How the server answers each request is an input as well. Both directions are stated: with no fault and,
in C, a host that always accepts, the only failures left are those of requests, and if the server does whatever is asked a
run succeeds; a part request is sent only if no step on the way to it always fails. Each resource step of a client is an
event, too; a ledger accepts or rejects traces, and the lemmas about accepted traces speak about whole runs. The file does
not change during a run, and mapped memory is private to the client. Strings are sequences of 8-bit characters without NUL;
bytes are integers below 256. Narrowing casts and 64-bit wrap-around are written out where the clients perform them. A C
`long long` overflow of file size plus part size is undefined behaviour and excluded; Java's wraps and is modelled.

In Java a failing step ends in an exception or in an `Error`, and the handlers catch the first only; the schedule says
which. So "an `Error` was thrown" and "an `Error` was thrown while the device was held" are statements about the trace and
the input, not about results the client reports.

The server is upload status and stored parts. Any request may fail, and one that the client sees fail may still have taken
effect. What is assumed of the server:

- upload ids are at most 128 characters long, as its schema says, and a request for one upload touches no other;
- it reads client memory only while a part request is pending, and a part request reported successful has read the
  announced memory and stored it under the upload and part number;
- a complete request reported successful has concatenated the stored parts in the order in which its body lists them;
- it reads that body as the C client's own parser would (substring search, `atoi`), since its code is not part of this
  model; the Go library passes the list without such a body.

Statements that are false of the code as one might first put them, with what is proved in their place:

- A successful C run need not store the file: the part count is cast to `int`, and `-part` is honoured by `all`.
  `CMultipart.All` and `CMultipart.EndToEnd` give the exact condition; `Partition.CountWraps` and `CMultipart.HalfAFile`
  are concrete failures. `PythonMultipart.EndToEnd` and `JavaMultipart.EndToEnd` do the same for Python (unchecked part size)
  and Java (wrapping `long` sum, `Partition.JavaSumWraps`).
- A Java run that an `Error` leaves (a missing native library, no direct memory, an exhausted heap, a file beyond the
  2^31 - 9 bytes of `Files.readAllBytes`) neither completes nor aborts its upload, and leaks the session if its set-up or
  clean-up throws while the device is held: `WholeRun.RunJava` states both as equivalences over the trace, which follows the
  given schedule of faults, and which inputs are certain to throw or to leak; `WholeRun.MissingLibrary` and
  `WholeRun.NoDirectMemory` are concrete failures.
- A Python session whose websocket cannot be closed behind a sent token deregisters memory that the server was told of,
  though no part request follows: `PythonSession.SendSetup` states exactly when. C and Go never do this (`WholeRun.RunC`,
  `WholeRun.RunGo`); `ResourceTrace.TokenBalance` accounts for every token.
- A C run whose complete request fails, or finds no memory for its body, is not aborted: `UploadProtocol.CEndsOpen`.
- The Python and Java handshakes lose their websocket when they fail after the dial: `PythonSession.SendSetup`,
  `JavaSession.SendSetup`, and for whole runs `WholeRun.RunPython`, `WholeRun.RunJava`.
- Go narrows part numbers to 32 bits: they are the plan's own below 2^31 parts and distinct up to 2^32
  (`GoMultipart.All`).
- The XML parser returns what was printed unless an ETag is empty or contains `</ETag>` or `</Part>`:
  `CompleteXml.RoundTrip`.
- An ETag of exactly 255 characters is left unterminated in a slot that `realloc` provided: `CompleteXml.ReadSlot`.
- An upgrade response longer than 2047 bytes is accepted and misaligns the frame stream: `WebSocketUpgrade.Alignment`.
- The capacity-doubling loop does not terminate beyond 2^63 bytes: `ResponseBuffer.DoublingStops`.
- A text message that looks like an error or close sentinel is raised as one: `SyncWebSocket.MessagesDelivered`.
- Beyond the overflow of its sum Java refuses every `-part` option, or every one but 0: `Partition.PlanJavaRefuses`. A
  negative Python part size refuses nearly everything: `Partition.PlanPythonRefuses`.
- Any response that has ` 101 ` or `101 Switching` in it somewhere before the first NUL is taken for an upgrade, whatever its
  status: `WebSocketUpgrade.SwitchingMeans`, `WebSocketUpgrade.StatusDecides`.
- An endpoint without a port is dialed at port 80, under https, too: `Endpoint.EndpointWithoutPort`.
- The signed Host value is cut at 255 bytes and the port at seven digits, so they need not be what was asked for:
  `Endpoint.EndpointAgreement`.

## Model

| member | source | states |
|---|---|---|
| WholeRun.RunC | examples/rdma/c/s3rdmamultipart.c:697-725 | every C `all` run from a clean start, for every schedule of faults and every network, which the trace follows: everything acquired is released exactly once, children before parents; the request history is lawful and its part requests are those of the trace; every delivered token is answered by exactly one part request; whatever the server read while the request for a part was pending is that part's slice, and every read falls into such a request; success has stored the file exactly when all parts were asked for and their number fits an `int`, or the single part was asked for; complete is sent exactly if every part succeeded and its body can be allocated; all requests are for the one upload that was created, every other upload and its parts stay as they were, and the created one ends as the last request says; a `-part` option below 0 or above the number of parts sends no part and no complete and fails; with one in range, no fault and a welcoming host, a created run fails only behind a request that was seen to fail, and succeeds if the server does whatever is asked; a part is sent only if no step on the way always fails; a complete lists exactly the planned parts |
| WholeRun.RunGo | examples/rdma/go/s3rdmamultipart.go:77-93 | the same for Go, for any number of parts: nothing leaked in any run; no request is sent exactly if the file is empty or has no status; the requests carry the parts in order under their 32-bit numbers and the i-th let the server read the i-th slice; success has stored the file up to 2^32 parts; below 2^31 parts the history is a C history and each request let the server read the slice of the part it names; all requests are for the one upload that was created, every other upload and its parts stay as they were, and the created one ends as the last request says; for every schedule of faults: with none, a created run fails only behind a request that was seen to fail, and it succeeds if the server does whatever is asked and there are at most 2^32 parts |
| WholeRun.RunPython | examples/rdma/python/s3rdmamultipart.py:275-284 | every Python run with a created upload ends in exactly one successful complete or attempted abort, as its last request; everything but websockets is released, and websockets exactly if each one dialed was followed by a queue pair that became ready to send; every delivered token is answered by one part request or given up; each part request let the server read that part's slice; all requests are for the one upload that was created, every other upload and its parts stay as they were, and the created one ends as the last request says; for every schedule of faults: a `-part` option out of range sends no part and no complete, and with one in range and no fault only a request that was seen to fail leads to an abort; it returns if the server does whatever is asked and the part numbers stay below 2^31 |
| WholeRun.RunJava | examples/rdma/java/src/main/java/com/example/s3rdma/S3RdmaMultipart.java:365-376 | for every schedule of faults: the trace follows it; a created upload gets exactly one end if and only if the trace holds no `Error`; everything but websockets is released if and only if no set-up or clean-up threw an `Error` while the device was held, and websockets if and only if each was followed by a queue pair that became ready to send and no set-up threw while one was held; a readable, planned file too large for an array always throws, so does a missing native library as soon as there is a part to send, and without direct memory a queue pair that becomes ready to send is leaked; a `-part` option out of range sends no part and no complete, and with one in range and no fault only a request that was seen to fail leads to an abort, and the run returns if the server does whatever is asked; each part request let the server read that part's slice; all requests are for the one upload that was created, every other upload and its parts stay as they were, and the created one ends as the last request says |
| WholeRun.MissingLibrary | examples/rdma/java/src/main/java/com/example/s3rdma/RdmaSession.java:110-110 | a concrete schedule and ten bytes whose created upload is always left open, with nothing leaked: no native library |
| WholeRun.NoDirectMemory | examples/rdma/java/src/main/java/com/example/s3rdma/RdmaSession.java:249-277 | a concrete schedule and ten bytes that always leak: nothing fails but the allocation of direct memory; a created upload is left open and its device is never closed |
| WholeRun.ServerSeesItsPart | examples/rdma/c/s3rdmamultipart.c:516-547 | a server read belongs to the part request that is pending and returns next, and sees the slice of that part |
| CMultipart.All | examples/rdma/c/s3rdmamultipart.c:697-725 | the `all` action against any prior state, schedule and network: history, no leak, stored object, listed parts, exact end-to-end condition; which upload every request is for and how it ends; refusal exactly out of range; with no fault only a denied request makes it fail, and with a willing server it succeeds |
| CMultipart.Guarded | examples/rdma/c/s3rdmamultipart.c:706-725 | behind create: upload, then one abort if it failed or one complete if it succeeded, each for the given upload |
| CMultipart.WholeHistory | examples/rdma/c/s3rdmamultipart.c:697-725 | create, part requests and what follows them, all for one upload, are a lawful C history and leave every other upload alone |
| CMultipart.Finish | examples/rdma/c/s3rdmamultipart.c:432-460 | complete is requested exactly if its body can be allocated, lists the planned parts, is for the given upload, and a successful one has stored the planned slices |
| CMultipart.EndToEnd | examples/rdma/c/s3rdmamultipart.c:568-590 | the planned slices concatenate to the file if and only if part is 0 and the count is below 2^31, or part is 1 of 1 |
| CMultipart.HalfAFile | examples/rdma/c/s3rdmamultipart.c:575-577 | a concrete file and `-part` for which a successful run stores less than the file |
| CMultipart.UploadParts | examples/rdma/c/s3rdmamultipart.c:549-602 | a `-part` option outside of 0 and the number of parts is refused before anything is sent, and with no fault no other is; the returned list; requests in log and trace agree, each part request let the server read that part's slice, success has read and stored exactly the planned slices, and no other part of the server changed |
| CMultipart.UploadOneByOne | examples/rdma/c/s3rdmamultipart.c:568-602 | uploading with `-part 1`, `-part 2`, ... meets the very contract of one call for all parts, whether it succeeds or fails; with no fault it fails only behind a denied part request |
| CMultipart.UploadLoop | examples/rdma/c/s3rdmamultipart.c:578-600 | the part loop: parts are sent in order, each as its slice, into its array slot; a failure stops it |
| CMultipart.UploadOnePart | examples/rdma/c/s3rdmamultipart.c:516-547 | whatever fails, nothing stays held; success means that the server stored exactly the mapped bytes; with no fault and a welcoming host the only failure is a denied request, and a request is sent only if no step before it always fails |
| CMultipart.MmapPart | examples/rdma/c/s3rdmamultipart.c:490-514 | the mapping holds the requested bytes or is unmapped again; it succeeds if mapping, seeking and reading do |
| CMultipart.PrintBody | examples/rdma/c/s3rdmamultipart.c:435-455 | the complete body, read as a C string, is the whole document |
| CSession.Session.Cleanup | examples/rdma/c/rdmalib.c:437-445 | releases exactly what the session holds, in an order the ledger accepts |
| CSession.Session.AcquireVerbs | examples/rdma/c/rdmalib.c:464-489 | the session owns exactly what it acquired, also after a failure |
| CSession.Session.Handshake | examples/rdma/c/rdmalib.c:451-535 | the socket is open exactly on success; then the queue pair is ready to send and no token was sent; it succeeds with no fault and a welcoming host, and only if no step always fails and some host accepts |
| CSession.ConnectAny | examples/rdma/c/rdmalib.c:223-235 | a socket that cannot be connected is closed before the next address is tried; success exactly if some address connects |
| CSession.Dial | examples/rdma/c/rdmalib.c:204-276 | the socket is held exactly on success, every other socket opened on the way is closed; success has taken the upgrade response off the stream; on a sound connection it succeeds if and only if some address connects and the response announces 101: a response of status 101 does, one of another status with no 1 in the text behind it does not |
| CSession.BringUp | examples/rdma/c/rdmalib.c:491-532 | the queue pair passes INIT, RTR, RTS in this order and nothing else changes; it succeeds if no step fails, and only if none always does |
| CSession.Register | examples/rdma/c/rdmalib.c:590-608 | registration over exactly the buffer, one token, socket closed on every path |
| CSession.SendSetup | examples/rdma/c/rdmalib.c:574-609 | either nothing but the mapping is held, or a full session with its token delivered and its socket closed; a session with no fault and a welcoming host, and only if no step always fails |
| CSession.DropVerbs | examples/rdma/c/rdmalib.c:437-445 | the five releases leave nothing of the verbs library held, in an order the ledger accepts |
| PythonSession.RDMASession.Cleanup | examples/rdma/python/rdmalib.py:125-150 | releases everything, children first, clears every field; a second call does nothing |
| PythonSession.RDMASession.Handshake | examples/rdma/python/rdmalib.py:157-216 | an exception after the dial leaves the websocket open, and nothing else does |
| PythonSession.RDMASession.Offer | examples/rdma/python/rdmalib.py:262-275 | the buffer holds the data before it is registered and announced; a token is given up exactly when it was sent and the websocket could not be closed |
| PythonSession.SendSetup | examples/rdma/python/rdmalib.py:252-284 | on failure nothing is held but a websocket, and that exactly when one was dialed and no queue pair became ready to send behind it; a token is given up exactly when it was delivered and the call failed; a session with no fault, and only if no step always fails |
| JavaSession.RdmaSession.Cleanup | examples/rdma/java/src/main/java/com/example/s3rdma/RdmaSession.java:40-73 | releases everything, children first; throws exactly by an `Error` of the schedule, and then the device is held if it was before; throws whenever the library cannot be linked |
| JavaSession.RdmaSession.AcquireVerbs | examples/rdma/java/src/main/java/com/example/s3rdma/RdmaSession.java:110-130 | the session owns exactly what it acquired; the marks of the ledger tell what was held when an `Error` left it |
| JavaSession.RdmaSession.Handshake | examples/rdma/java/src/main/java/com/example/s3rdma/RdmaSession.java:97-180 | neither exception nor `Error` closes the websocket: it is held exactly if it was dialed; without the library nothing is acquired; if nothing fails the handshake returns |
| JavaSession.RdmaSession.Offer | examples/rdma/java/src/main/java/com/example/s3rdma/RdmaSession.java:247-264 | a buffer that cannot be allocated is an `Error`; the session owns what it got on every path |
| JavaSession.SendSetup | examples/rdma/java/src/main/java/com/example/s3rdma/RdmaSession.java:240-278 | verbs resources stay held if and only if the call returns or an `Error` was thrown while the device was held, a websocket if and only if no queue pair became ready to send behind it or an `Error` was thrown while it was held; `Error`s are those of the schedule; without the library every call throws, without direct memory none returns and one that reaches ready-to-send leaks; if nothing fails the call returns, and it returns only if no step always fails |
| JavaMultipart.UploadPart | examples/rdma/java/src/main/java/com/example/s3rdma/S3RdmaMultipart.java:244-260 | the session is destroyed however the part request ends; a normal return stored the data; if nothing fails on the client's side, only a failed part request raises |
| JavaMultipart.SendRequest | examples/rdma/java/src/main/java/com/example/s3rdma/S3RdmaMultipart.java:249-253 | the request let the server read the announced memory only, and the session is gone behind it unless an `Error` was thrown |
| JavaMultipart.SendParts | examples/rdma/java/src/main/java/com/example/s3rdma/S3RdmaMultipart.java:274-280 | the part loop: planned slices in order; what an exception and what an `Error` leave behind |
| JavaMultipart.UploadParts | examples/rdma/java/src/main/java/com/example/s3rdma/S3RdmaMultipart.java:262-282 | a `-part` option is refused exactly out of range; the returned list, the planned slices in order; what an exception and what an `Error` leave behind; which schedules always throw or leak |
| JavaMultipart.Finish | examples/rdma/java/src/main/java/com/example/s3rdma/S3RdmaMultipart.java:370-373 | complete, and one abort if it raises; none if the schedule ends a step in an `Error`; both for the given upload and no other |
| JavaMultipart.EndToEnd | examples/rdma/java/src/main/java/com/example/s3rdma/S3RdmaMultipart.java:264-280 | exact condition for Java, including the overflow of the `long` sum |
| JavaMultipart.EndedRun | examples/rdma/java/src/main/java/com/example/s3rdma/S3RdmaMultipart.java:365-376 | the requests behind a create form a managed history, or one that an `Error` has cut |
| JavaMultipart.All | examples/rdma/java/src/main/java/com/example/s3rdma/S3RdmaMultipart.java:365-376 | the `all` action against any prior state: history, what is held, stored object, exact end-to-end condition, each decided by the `Error`s of the schedule; which upload every request is for and how it ends; refusal exactly out of range; with no fault and a willing server it returns |
| JavaMultipart.Guarded | examples/rdma/java/src/main/java/com/example/s3rdma/S3RdmaMultipart.java:366-376 | behind create: upload and complete, one abort for the given upload on an exception, none on an `Error` |
| JavaMultipart.WholeHistory | examples/rdma/java/src/main/java/com/example/s3rdma/S3RdmaMultipart.java:365-376 | create, part requests and what follows them, all for one upload, are a managed or a cut history and leave every other upload alone |
| PythonMultipart.UploadPart | examples/rdma/python/s3rdmamultipart.py:146-157 | the session is destroyed however the part request ends; success stored the data; with no fault the only failure is a denied request, and one is sent only if no step before it always fails |
| PythonMultipart.UploadParts | examples/rdma/python/s3rdmamultipart.py:160-175 | the Python loop sends the planned slices in order; any exception leaves a failed upload; a `-part` option is refused exactly out of range, before anything is sent |
| PythonMultipart.SendParts | examples/rdma/python/s3rdmamultipart.py:171-175 | the part loop: planned slices in order, each sent only if no step before it always fails |
| PythonMultipart.SendPart | examples/rdma/python/s3rdmamultipart.py:172-174 | seek, read, upload: the slice of that part and no other bytes |
| PythonMultipart.Finish | examples/rdma/python/s3rdmamultipart.py:279-284 | a complete that fails is followed by one abort; both are for the given upload and no other |
| PythonMultipart.EndToEnd | examples/rdma/python/s3rdmamultipart.py:161-175 | exact condition for Python, for every part size including zero and negative ones |
| PythonMultipart.All | examples/rdma/python/s3rdmamultipart.py:275-284 | every run is one of the managed histories, its part requests are those of the trace, each saw its part's slice; a normal return has stored the planned slices; which upload every request is for and how it ends; refusal exactly out of range; with no fault only a denied request leads to an abort, and with a willing server it returns |
| PythonMultipart.Guarded | examples/rdma/python/s3rdmamultipart.py:278-284 | behind create: upload and complete, and one abort for the given upload if either raises |
| PythonMultipart.WholeHistory | examples/rdma/python/s3rdmamultipart.py:275-284 | create, part requests and what follows them, all for one upload, are a managed history and leave every other upload alone |
| SortedComplete.SortSorts | examples/rdma/java/src/main/java/com/example/s3rdma/S3RdmaMultipart.java:302-302 | the sort before complete yields an ascending permutation |
| SortedComplete.SortStable | examples/rdma/python/s3rdmamultipart.py:199-199 | parts of the same number keep their order |
| SortedComplete.PlainPrinted | examples/rdma/python/s3rdmamultipart.py:198-201 | the printed text, character by character around numbers and ETags |
| SortedComplete.SortNeedless | examples/rdma/python/s3rdmamultipart.py:197-201 | and it leaves the list of a run unchanged |
| SortedComplete.PrintSorted | examples/rdma/java/src/main/java/com/example/s3rdma/S3RdmaMultipart.java:302-308 | the loop prints the sorted parts between the two upload tags |
| SortedComplete.PlainIsXml | examples/rdma/python/s3rdmamultipart.py:198-201 | that body is the C client's if and only if no ETag is empty |
| SortedComplete.SortedBodyLists | examples/rdma/python/s3rdmamultipart.py:197-202 | the body of a run lists exactly its parts, in order |
| SortedComplete.CompleteRange | examples/rdma/python/s3rdmamultipart.py:197-204 | a successful complete over stored slices makes the object their concatenation |
| SortedComplete.CompleteSorted | examples/rdma/java/src/main/java/com/example/s3rdma/S3RdmaMultipart.java:301-312 | success means that the object is the stored parts in the order of the sorted body |
| GoMultipart.StackPop | examples/rdma/go/s3rdmamultipart.go:235-307 | last in, first out never releases a parent before its child |
| GoMultipart.RunDeferred | examples/rdma/go/s3rdmamultipart.go:235-307 | the deferred calls release everything that was acquired |
| GoMultipart.Connect | examples/rdma/go/s3rdmamultipart.go:237-317 | on every return path the deferred releases are exactly the resources held; it succeeds if no step fails, and only if none always does |
| GoMultipart.OpenVerbs | examples/rdma/go/s3rdmamultipart.go:243-265 | four acquisitions, each with its deferred release; early returns keep the stack exact |
| GoMultipart.UploadPart | examples/rdma/go/s3rdmamultipart.go:229-347 | nothing stays held on any path; success stored the part's bytes; the ETag is the server's own; with no fault the only failure is a denied request, and one is sent only if no step before it always fails |
| GoMultipart.UploadParts | examples/rdma/go/s3rdmamultipart.go:186-227 | for any number of parts: the requests carry the narrowed numbers in order, the i-th let the server read the i-th slice, and up to 2^32 parts success has stored every slice under its number; below 2^31 the numbers are the plan's |
| GoMultipart.UploadLoop | examples/rdma/go/s3rdmamultipart.go:206-224 | the part loop with narrowed numbers; it returns the list exactly if every part succeeded, with the server's own ETags up to 2^32 parts; parts of other uploads stay as they were |
| GoMultipart.WrapInjective | examples/rdma/go/s3rdmamultipart.go:218-218 | numbers less than 2^32 apart stay different on the wire |
| GoMultipart.PiecesByNumber | examples/rdma/go/s3rdmamultipart.go:218-222 | parts stored and listed under their narrowed numbers are the slices in order |
| GoMultipart.All | examples/rdma/go/s3rdmamultipart.go:77-93 | history for any number of parts, no leak, and success has stored the file up to 2^32 parts; the completed list carries the server's own ETags; which upload every request is for and how it ends; with no fault only a denied request makes it fail, and with a willing server it succeeds |
| GoMultipart.Guarded | examples/rdma/go/s3rdmamultipart.go:85-92 | behind create: upload, then one abort or one complete for the given upload |
| GoMultipart.WholeHistory | examples/rdma/go/s3rdmamultipart.go:84-92 | create, part requests and the request behind them, all for one upload, are a history on the wire and leave every other upload alone |
| GoMultipart.CHistory | examples/rdma/go/s3rdmamultipart.go:84-92 | with fewer than 2^31 parts it is a C history |
| GoMultipart.TaggedNext | examples/rdma/go/s3rdmamultipart.go:213-222 | one more part keeps every ETag listed with the number it was answered for, up to 2^32 parts |
| ResourceTrace.Balance | examples/rdma/c/rdmalib.c:437-609 | at every moment a resource is held exactly if it was acquired and not released, and neither happens twice |
| ResourceTrace.Conservation | examples/rdma/c/rdmalib.c:437-609 | a run that ends with nothing held released each resource exactly once, after its acquisition |
| ResourceTrace.ChildrenFirst | examples/rdma/c/rdmalib.c:437-445 | when something is released, all its children ever acquired have been released |
| ResourceTrace.OneAtATime | examples/rdma/c/s3rdmamultipart.c:585-596 | when something is acquired, no other of its kind is held: at most one session is alive |
| ResourceTrace.TokenSafety | examples/rdma/c/rdmalib.c:587-608 | from a delivered token until the part request returns or the client gives the token up, the queue pair is ready to send, region and mapping stay, the memory is unchanged and is exactly what was announced |
| ResourceTrace.ServerReadsAnnounced | examples/rdma/c/s3rdmamultipart.c:529-540 | whatever the server reads in that time is the memory as announced |
| ResourceTrace.ServerReadsFills | examples/rdma/c/s3rdmamultipart.c:496-512 | whatever the server ever reads was read from the file into a mapping before |
| ResourceTrace.ReadIsRecorded | examples/rdma/c/s3rdmamultipart.c:529-540 | a server read is recorded under the part request that was pending at the time |
| ResourceTrace.MemoryIsLastFill | examples/rdma/c/s3rdmamultipart.c:506-512 | the memory is what was last read into it |
| ResourceTrace.OneTokenPerSession | examples/rdma/c/rdmalib.c:600-605 | two tokens are separated by the opening of another device |
| ResourceTrace.TokenOnReadyPair | examples/rdma/c/rdmalib.c:491-532 | before a token its queue pair has gone through INIT, RTR and RTS, in this order and each once |
| ResourceTrace.TokenBalance | examples/rdma/c/s3rdmamultipart.c:529-540 | every delivered token has been answered by exactly one part request, or given up, or is still open |
| ResourceTrace.MarksShow | examples/rdma/java/src/main/java/com/example/s3rdma/RdmaSession.java:240-277 | the marks of the ledger are what the trace shows: an `Error`, an `Error` in set-up or clean-up with the device held, one in set-up with the websocket held, a dial with no ready queue pair behind it |
| UploadSpec.UploadMore | examples/rdma/c/s3rdmamultipart.c:585-596 | sending a range and then one more part on its own is sending the longer range; if that part fails, the upload of the whole range has failed |
| UploadSpec.CarriedBy | examples/rdma/c/s3rdmamultipart.c:697-721 | create, an upload call and its closing requests: the part requests of the history are those of the trace |
| UploadSpec.SettledBy | examples/rdma/c/s3rdmamultipart.c:708-716 | create, part requests and closing requests for one id: no other upload changes, and the created one is completed only by a complete, aborted only by an abort, and has ended if the last request was seen to succeed |
| UploadSpec.HandledTwice | examples/rdma/python/s3rdmamultipart.py:279-284 | a complete that fails and an abort, both for one upload: no other changes, and this one is aborted if the abort is seen to succeed |
| UploadSpec.Assembled | examples/rdma/c/s3rdmamultipart.c:717-722 | the stored parts in listed order are the slices of the file in order |
| UploadProtocol.TraceSafety | examples/rdma/c/s3rdmamultipart.c:697-725 | complete at most once, last, after every part of the range succeeded, and never without memory for its body; a failed part is followed by exactly one abort; nothing follows either |
| UploadProtocol.ExactlyOneEnd | examples/rdma/python/s3rdmamultipart.py:278-284 | a managed history has exactly one successful complete or attempted abort, and it is last |
| UploadProtocol.CEndsOpen | examples/rdma/c/s3rdmamultipart.c:717-721 | a C history lacks such an end exactly when its last request is a failed complete, or every part succeeded and no complete was sent; with memory for the body only the first |
| S3Server.BodyLists | examples/rdma/c/s3rdmamultipart.c:410-448 | the complete body of a run lists exactly its parts, in order |
| S3Server.BodyOfOne | examples/rdma/c/s3rdmamultipart.c:410-448 | the body for a file of one part, character by character |
| S3Server.Server.CompleteListed | examples/rdma/go/s3rdmamultipart.go:92-92 | the object is the stored parts in the order listed; only the given upload may change its status |
| S3Server.Server.Create | configs/init.sql:185-207 | a new upload is active under an unused id of at most 128 characters; a request seen to fail may have left one behind |
| S3Server.Server.Put | configs/init.sql:209-225 | whatever the server reads for the part is the announced memory, and a successful request has read it and stored it under (upload id, part number), with the ETag it answers |
| S3Server.Server.Complete | examples/rdma/c/s3rdmamultipart.c:450-460 | the object is the stored parts in the order of the body; only the given upload may change its status, and a request reported successful has completed it |
| S3Server.Server.Abort | examples/rdma/c/s3rdmamultipart.c:462-471 | an abort changes no part, no object and no other upload; one reported successful has aborted the given upload |
| Partition.ExactPartition | examples/rdma/c/s3rdmamultipart.c:568-590 | parts are non-empty, at most the part size, contiguous; only the last may be short, and it ends with the file |
| Partition.WholeFile | examples/rdma/c/s3rdmamultipart.c:585-590 | a run of consecutive parts is the file if and only if it is all of them |
| Partition.PlanCPart | examples/rdma/c/s3rdmamultipart.c:568-577 | `-part k` plans exactly part k, for every part of a file with fewer than 2^31 parts |
| Partition.PlanCIsWhole | examples/rdma/c/s3rdmamultipart.c:568-577 | exactly when the C range is the whole file |
| Partition.PlanCRefuses | examples/rdma/c/s3rdmamultipart.c:568-573 | an option is refused if and only if it is outside of 0 and the number of parts, as an `int`; below 2^31 parts, outside of 0 and the number of parts |
| Partition.PlanGoRefuses | examples/rdma/go/s3rdmamultipart.go:193-196 | an option is refused if and only if it is outside of 0 and the number of parts |
| Partition.CountWraps | examples/rdma/c/s3rdmamultipart.c:568-568 | 2^32 one-byte parts are planned as none |
| Partition.PlanPythonNegative | examples/rdma/python/s3rdmamultipart.py:164-168 | what an unchecked part size plans |
| Partition.PlanPythonRefuses | examples/rdma/python/s3rdmamultipart.py:164-166 | exactly which options are refused, for positive and negative part sizes |
| Partition.PlanJavaIs | examples/rdma/java/src/main/java/com/example/s3rdma/S3RdmaMultipart.java:266-271 | Java agrees with C until the sum overflows; then it refuses or plans nothing |
| Partition.PlanJavaRefuses | examples/rdma/java/src/main/java/com/example/s3rdma/S3RdmaMultipart.java:266-269 | exactly which options are refused, below and beyond the overflow of the sum |
| Partition.JavaSumWraps | examples/rdma/java/src/main/java/com/example/s3rdma/S3RdmaMultipart.java:266-266 | a ten-byte file with the largest part size is planned as no parts |
| Partition.PlansAgree | examples/rdma/go/s3rdmamultipart.go:193-203 | all four clients plan the same parts for files under 2^31 bytes |
| Partition.SliceCAndGo | examples/rdma/go/s3rdmamultipart.go:207-211 | the C and Go offset and length give the slice |
| Partition.SlicePython | examples/rdma/python/s3rdmamultipart.py:172-173 | Python's seek and bounded read give the same slice |
| Partition.SliceJava | examples/rdma/java/src/main/java/com/example/s3rdma/S3RdmaMultipart.java:275-278 | Java's casts and copy give the same slice |
| CompleteXml.RoundTrip | examples/rdma/c/s3rdmamultipart.c:341-386 | parsing the printed list returns it, in order, if and only if every ETag is non-empty and contains neither `</ETag>` nor `</Part>`; an empty ETag comes back as a pair of quotes |
| CompleteXml.RoundTripFails | examples/rdma/c/s3rdmamultipart.c:321-335 | a concrete ETag that is read back as something else |
| CompleteXml.PartPrinted | examples/rdma/c/s3rdmamultipart.c:444-447 | the printed text of a part, character by character around number and ETag |
| CompleteXml.BodyPrinted | examples/rdma/c/s3rdmamultipart.c:442-448 | the printed text around the parts; a longer list prints one more part behind the others |
| CompleteXml.AnyBlock | examples/rdma/c/s3rdmamultipart.c:347-381 | on any document, a block yields what is in it and the cursor ends behind it |
| CompleteXml.IncompleteBlock | examples/rdma/c/s3rdmamultipart.c:362-378 | a block that lacks one of the four inner tags yields no part |
| CompleteXml.UnclosedPart | examples/rdma/c/s3rdmamultipart.c:348-349 | a part that is never closed ends the parse |
| CompleteXml.TagTextAt | examples/rdma/c/s3rdmamultipart.c:321-335 | the text between the tags, cut to the output buffer |
| CompleteXml.ParseItem | examples/rdma/c/s3rdmamultipart.c:347-381 | one printed part is read back and the cursor ends exactly behind it |
| CompleteXml.XmlSeparated | examples/rdma/c/s3rdmamultipart.c:347-363 | `<Part>` is never confused with `<PartNumber>`, nor `</Part>` with `</PartNumber>` |
| CompleteXml.ParsedEtagsClean | examples/rdma/c/s3rdmamultipart.c:321-335 | on any input, stored ETags contain neither closing tag |
| CompleteXml.CompleteBody | examples/rdma/c/s3rdmamultipart.c:435-448 | no `snprintf` truncates within `256 + 384 * count` bytes; the buffer is the whole body, terminated |
| CompleteXml.ParsePartsInto | examples/rdma/c/s3rdmamultipart.c:341-386 | the loop with its doubling array stores exactly the parsed list; it fails if and only if one of its allocations does |
| CompleteXml.Push | examples/rdma/c/s3rdmamultipart.c:364-377 | growth preserves earlier entries; it fails exactly if the array is full and `realloc` fails |
| CompleteXml.StoreBlock | examples/rdma/c/s3rdmamultipart.c:362-378 | a block adds its part or nothing, earlier entries stay, and it fails exactly if the array is full and `realloc` fails |
| CompleteXml.ReadSlot | examples/rdma/c/s3rdmamultipart.c:375-375 | a stored ETag reads back as a C string exactly when it is shorter than 255 characters or the unwritten last byte is zero |
| QpInfoJson.QpInfoRoundTrip | examples/rdma/c/rdmalib.c:373-417 | every field value, with blanks anywhere behind colons and commas, is recovered |
| QpInfoJson.OtherTypeRejected | examples/rdma/c/rdmalib.c:401-404 | a message of another type is rejected, whatever it says and wherever it has blanks |
| QpInfoJson.ClientPrinted | examples/rdma/c/rdmalib.c:375-383 | the printed message, character by character around its numbers |
| QpInfoJson.ListPrinted | examples/rdma/c/rdmalib.c:379-381 | the sixteen numbers are printed with single commas |
| QpInfoJson.FindField | examples/rdma/c/rdmalib.c:107-115 | a key search among distinct keys stops at its own value: `"gid":` never matches `"gid_idx":` |
| QpInfoJson.ReadList | examples/rdma/c/rdmalib.c:141-150 | the sixteen-number loop reads a printed list |
| QpInfoJson.ReadBytesInto | examples/rdma/c/rdmalib.c:145-148 | the loop fills the array with what the cursor function reads |
| QpInfoJson.MtuCast | examples/rdma/c/rdmalib.c:414-415 | a negative number survives `strtoull` and the cast |
| QpInfoJson.ClientTextFits | examples/rdma/c/rdmalib.c:375-383 | the printed message fits its 512-byte buffer |
| TokenJson.TokenRoundTrip | examples/rdma/c/rdmalib.c:419-425 | for all 64-bit addresses, offsets and lengths and 32-bit keys, with blanks anywhere behind colons and commas, the four numbers are recovered |
| TokenJson.TokenPrinted | examples/rdma/c/rdmalib.c:419-424 | the printed message, character by character around its numbers |
| TokenJson.TokenFits | examples/rdma/c/rdmalib.c:420-423 | the printed message fits its 256-byte buffer |
| TokenJson.PrintToken | examples/rdma/c/rdmalib.c:419-424 | the buffer, read as a C string, is the whole message |
| TokenJson.AnnouncedOnWire | examples/rdma/c/rdmalib.c:600-605 | the text of an announced token reads back as offset 0 and the length of the memory it is for |
| CStrings.FindIsFirst | examples/rdma/c/rdmalib.c:110-111 | `strstr` finds the first occurrence, and fails only if there is none |
| CStrings.ScanDecInt | examples/rdma/c/rdmalib.c:117-122 | scanning a printed number yields it and stops exactly behind it |
| CStrings.DecDigits | examples/rdma/c/s3rdmamultipart.c:444-446 | the printed number is its decimal digits, without leading zeros |
| CStrings.AtoiDecInt | examples/rdma/c/s3rdmamultipart.c:374-374 | `atoi` of a printed number of any size |
| CStrings.AtollDecInt | examples/rdma/c/s3rdmamultipart.c:376-376 | `atoll` of a printed number of any size is the nearest 64-bit number |
| CStrings.StrtoullDecInt | examples/rdma/c/rdmalib.c:117-122 | `strtoull` of a printed number of any size, and where it stops |
| CStrings.ScanFront | examples/rdma/c/rdmalib.c:117-122 | leading white space and a plus sign change nothing; without digits the result is 0 |
| CStrings.SnPrintf | examples/rdma/c/s3rdmamultipart.c:443-448 | writes what fits, terminates, keeps what precedes |
| WebSocketFrames.StreamRoundTrip | examples/rdma/c/rdmalib.c:278-333 | any list of frames with any keys is received as exactly its messages, in order, consuming every byte |
| WebSocketFrames.RecvOne | examples/rdma/c/rdmalib.c:305-333 | one frame is received whole, and nothing behind it touched, if and only if it fits the buffer and is no close frame |
| WebSocketFrames.MaskBits | examples/rdma/c/rdmalib.c:299-299 | a text is the masked one if and only if each bit is set exactly where message and key octet i mod 4 differ |
| WebSocketFrames.MaskExample | examples/rdma/c/rdmalib.c:299-299 | `[65, 66]` under the key `[1, 2, 3, 4]` is `[64, 64]` |
| WebSocketFrames.RecvReads | examples/rdma/c/rdmalib.c:305-333 | on any stream: a received message has the declared length, its bits are those on the stream, unmasked if the mask bit is set, and what follows is left |
| WebSocketFrames.RecvComplete | examples/rdma/c/rdmalib.c:305-333 | any frame that is all there, fits the buffer and is no close frame is received |
| WebSocketFrames.BigEndianDigit | examples/rdma/c/rdmalib.c:287-289 | extended lengths are in network byte order |
| WebSocketFrames.ValueOfEight | examples/rdma/c/rdmalib.c:315-320 | eight length octets are weighed most significant first |
| WebSocketFrames.EncodeShort | examples/rdma/c/rdmalib.c:281-294 | a masked frame below 2^16 octets, octet by octet |
| WebSocketFrames.RecvText | examples/rdma/c/rdmalib.c:305-333 | the receive call agrees with the stream function under any chunking of reads |
| WebSocketFrames.ReadFull | examples/rdma/c/rdmalib.c:170-178 | all bytes or failure, however reads are chunked |
| WebSocketFrames.UnmaskInPlace | examples/rdma/c/rdmalib.c:327-329 | the in-place loop unmasks: bit by bit, the result is the exclusive or with octet i mod 4 of the key |
| WebSocketFrames.SendText | examples/rdma/c/rdmalib.c:278-303 | success wrote exactly one final masked text frame, octet by octet: 0x81, the length with the mask bit in one octet or behind 126 in two, the key, and the text masked with it bit by bit; failure a prefix of one; a sound connection fails only for a message that is too long or finds no memory |
| WebSocketFrames.ClientHeader | examples/rdma/c/rdmalib.c:281-294 | the header, octet by octet, never exceeds its eight bytes |
| WebSocketUpgrade.ReadResponse | examples/rdma/c/rdmalib.c:257-275 | how many bytes the byte-at-a-time loop takes, and that it accepts exactly if ` 101 ` or `101 Switching` stands in them before the first NUL |
| WebSocketUpgrade.Alignment | examples/rdma/c/rdmalib.c:257-269 | the stream stays aligned if and only if the response fits 2047 bytes |
| WebSocketUpgrade.SwitchingMeans | examples/rdma/c/rdmalib.c:270-270 | the status test holds if and only if the octets of ` 101 ` or `101 Switching` begin at some index before the first NUL |
| WebSocketUpgrade.StatusDecides | examples/rdma/c/rdmalib.c:270-274 | a response of status 101 passes it; one of any other status with no 1 in the text behind it fails |
| WebSocketUpgrade.AcceptsByStatus | examples/rdma/c/rdmalib.c:257-275 | the same for a stream that begins with such a response |
| WebSocketUpgrade.AcceptedAndRejected | examples/rdma/c/rdmalib.c:257-275 | `HTTP/1.1 101 Switching Protocols` is accepted and `HTTP/1.1 200 OK` rejected, whatever follows |
| WebSocketUpgrade.NoBlankLine | examples/rdma/c/rdmalib.c:257-269 | without a blank line 2047 bytes are taken, and a shorter stream fails |
| WebSocketUpgrade.UpgradeThenReceive | examples/rdma/c/rdmalib.c:257-333 | then the next receive call returns the first frame's message |
| WebSocketUpgrade.Conversation | examples/rdma/c/rdmalib.c:257-333 | messages are all sent if and only if each is short enough and finds memory; sent one after the other, behind an upgrade response on the same stream, they are received one per call as exactly those messages, however reads are chunked, and nothing is left over; the upgrade succeeds if the response has status 101, and fails with any other unless the text behind it has a 1 in it |
| Base64.DecodeEncode | examples/rdma/c/rdmalib.c:154-168 | the decoder of RFC 4648 returns the input, for every byte string |
| Base64.EncodeShape | examples/rdma/c/rdmalib.c:158-167 | four characters per three octets or part thereof |
| Base64.Alphabet | examples/rdma/c/rdmalib.c:155-156 | the symbols are those of RFC 4648, in its order |
| Base64.TestVectors | examples/rdma/c/rdmalib.c:154-168 | test vectors of section 10 of RFC 4648 |
| Base64.Injective | examples/rdma/c/rdmalib.c:154-168 | different keys are printed differently |
| Base64.EncodeInto | examples/rdma/c/rdmalib.c:154-168 | the loop writes the encoding and its terminator into a buffer of sufficient size |
| ResponseBuffer.ResponseBuf.Write | examples/rdma/c/s3rdmamultipart.c:225-240 | appends the chunk, or, exactly if the buffer is full and there is no memory, reports 0 and changes nothing; capacity 4096 times a power of two, 4096 or below twice the need; total allocation below twice the last |
| ResponseBuffer.ResponseBuf.NewCap | examples/rdma/c/s3rdmamultipart.c:229-230 | the doubling loop terminates with a capacity that suffices |
| ResponseBuffer.Collect | examples/rdma/c/s3rdmamultipart.c:287-304 | accepted chunks concatenate, and all are accepted if memory suffices |
| ResponseBuffer.DoublingStops | examples/rdma/c/s3rdmamultipart.c:229-230 | in 64-bit arithmetic the loop stops if and only if at most 2^63 bytes are needed |
| SyncWebSocket.Fifo | examples/rdma/java/src/main/java/com/example/s3rdma/SyncWebSocket.java:28-70 | under any interleaving, taken plus queued entries are the entries in arrival order, and the pending text is the uncut rest |
| SyncWebSocket.MessagesDelivered | examples/rdma/java/src/main/java/com/example/s3rdma/SyncWebSocket.java:58-70 | reads deliver the messages cut at the last-flags, as messages if and only if none looks like a sentinel |
| SyncWebSocket.EveryArrivalDelivered | examples/rdma/java/src/main/java/com/example/s3rdma/SyncWebSocket.java:40-70 | in any run the i-th entry taken is classified as the i-th arrival: an error with its text, a close as a close, a message as itself unless it looks like a sentinel |
| SyncWebSocket.CutConserves | examples/rdma/java/src/main/java/com/example/s3rdma/SyncWebSocket.java:30-38 | messages and pending text concatenate to the fragments |
| SyncWebSocket.Channel.ReceiveFragment | examples/rdma/java/src/main/java/com/example/s3rdma/SyncWebSocket.java:30-38 | the listener refines one step of the state machine |
| SyncWebSocket.Channel.ReceiveError | examples/rdma/java/src/main/java/com/example/s3rdma/SyncWebSocket.java:40-43 | an error enters the queue as a step of the state machine |
| SyncWebSocket.Channel.ReceiveClose | examples/rdma/java/src/main/java/com/example/s3rdma/SyncWebSocket.java:45-49 | so does a close |
| SyncWebSocket.Channel.Receive | examples/rdma/java/src/main/java/com/example/s3rdma/SyncWebSocket.java:58-70 | the reader takes the oldest entry and classifies it, or times out |
| Endpoint.EndpointAgreement | examples/rdma/c/s3rdmamultipart.c:124-166 | control URL and signed Host name the endpoint's host and port, and the port is looked up as given, if and only if `host:port` is below 256 bytes and the port has at most seven digits |
| Endpoint.ParseControlUrl | examples/rdma/c/rdmalib.c:181-202 | taking the derived URL apart gives host, port and `/rdma-ctrl` |
| Endpoint.ControlUrl | examples/rdma/c/s3rdmamultipart.c:124-134 | the control URL, character by character: `wss` exactly for https, everything behind the scheme kept |
| Endpoint.EndpointWithPath | examples/rdma/c/s3rdmamultipart.c:124-166 | a path stays in the control URL and out of the signed Host value |
| Endpoint.EndpointWithoutPort | examples/rdma/c/s3rdmamultipart.c:124-166 | without a port the websocket goes to port 80 |
| Endpoint.LongHostRejected | examples/rdma/c/rdmalib.c:181-202 | a URL is rejected exactly if host and port have 300 characters or more |
| Endpoint.EndpointWithoutScheme | examples/rdma/c/s3rdmamultipart.c:130-134 | without a scheme it is dialed like http |
| Endpoint.ServiceFits | examples/rdma/c/rdmalib.c:216-218 | the port survives its 8-byte buffer exactly up to seven digits |

## Left out

- GoMultipart.UploadParts: beyond 2^32 parts two parts share a number on the wire and the later overwrites the earlier; what is then stored is not described, the requests and reads are.
- GoMultipart.All: the same, for the same reason.
- WholeRun.RunGo: the same, for the same reason.
- CMultipart.UploadLoop: a range that ends with 2^31 - 1, the largest `int`, makes the loop counter of the C program overflow behind its last part, which C leaves undefined; the model's counter does not overflow, so for a file of exactly 2^31 - 1 parts `CMultipart.All`, `CMultipart.EndToEnd` and `WholeRun.RunC` speak about a program whose counter stops. The Java counter cannot get there, because an array is shorter.
- PythonMultipart.All: what it promises about the stored object presupposes part numbers below 2^31, the range in which the body's numbers are read back.
- PythonMultipart.Finish: the same restriction, for the same reason.
- WholeRun.RunPython: the same restriction, for the same reason.
- S3Server.Server.Complete: the server's own XML parser is not part of this model; the body is read as the C client's parser would read it.
- JavaSession.RdmaSession.Cleanup: the Java buffer is reclaimed by the garbage collector at some later time; the model releases it where the field is cleared, and keeps it after an `Error`.
- JavaMultipart.All: an `Error` in the create request, behind a complete request that succeeded, or inside the abort request is not modelled; no request follows any of them, so it changes only the exit status.
- PythonSession.SendSetup: `BaseException`s such as a keyboard interrupt are not modelled.
- `rdma_recv_setup` and the single-object get and put programs: the same session with another access flag; they would add only easy members.
- The register request and response: a fixed print and one key lookup, easier than the queue-pair message.
- Name resolution and the text of the upgrade request: arguments of `CSession.Dial`; `Endpoint` treats the URL and `Base64` the key.
- SigV4 signing, SHA-256, HMAC, CRC32, libcurl, DNS and HTTP plumbing.
- The `list` and `list-uploads` actions, argument parsing and logging.
- FIN, ping and pong handling, which the C receiver does not have either: any opcode but close is received as text.
- The contents of ETags as checksums: the C, Python and Java clients make them up from the part number.
- The server's own behaviour (Iceberg, IAM, locks, notification, lifecycle): its code is not part of this model.
