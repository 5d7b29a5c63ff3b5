# A verified model of DedupServer

DedupServer is a client/server file store with chunk-level deduplication. A client cuts a file into
4 KiB chunks, asks the server in batches of 1024 hashes which chunks it has, and uploads only the
others; the server packs new chunks into 4 MiB containers, keeps one shared index from hash to
address, and writes a recipe of addresses per file. A download walks the recipe.

The project proves that this works: what is uploaded is what is downloaded, over every interleaving
of any number of uploads, with the pipelined exchange, the short last chunk, the shared index and
the writer threads in place. Where the code falls short of what one would expect of it, the exact
condition is proved together with a concrete counterexample.

`dafny verify dfyconfig.toml` checks everything.

## How the modules fit together

- `Defs`, `Buffers`, `Keys`, `Chunking`: constants, byte copies, hex keys and recipe names, cutting
  and packing.
- `Upload`: the body of `receive_file` and `send_file` as functions on values, one per lock-held
  region or loop iteration.
- `Server`, `Client`: the classes with their real arrays, loops and handed-over buffers, each method
  proved against the functions of `Upload` and `Chunking`.
- `Store`: N connections over one store as a step relation (index, saved, queued and active
  containers, recipes, file table, and as history the placed chunks and the queried batches).
  `StoreInv` states the invariant, `StoreProof` proves that every step keeps it, `StoreTheorems`,
  `Tiling` and `Dedup` draw the conclusions over all reachable states and runs.
- `Tally`, `FlagTally`, `StoredTwice`: how many copies of a chunk are stored, exactly, without and with
  overlapping uploads, and a run that stores two.
- `Packing`, `Counters`: how an upload fills its containers and recipe buffers, and what its two chunk
  counters count, each for itself.
- `Isolation`: when one upload can change what another pair downloads.
- `StaleRead`, `LateRead`, `InProgress`, `EarlyRead`: exactly when a download is right, also while
  other uploads go on or the file itself is still being uploaded, and states where it is not.
- `Runs`, `Refine`, `Turns`, `EndToEnd`: a message handled by the objects is a run of the step
  relation, and so the objects themselves deliver the uploaded files.
- `BlockQueue`, `ThreadPool`, `ConnPool`: the monitors, with waiting and notified threads explicit.
- `Pipeline`: the client's reader thread and upload loop over one blocking queue, under every schedule.
- `Session`: client and server programs over two FIFO channels.
- `Framing`, `Wire`: length-prefixed messages over short reads and writes, sequentially and for
  every interleaving of sender and receiver.
- `DecimalLiteral`: the decimal-literal recogniser of the argument parser against its grammar.

Two predicates recur. `Reachable(w, s)` means some finite sequence of steps leads from a server that
has just accepted its connections to `s`. `WorldOk(w)` is the hypothesis that hashes are 32 bytes and
that the chunks and the recipe names in play do not collide; it is a hypothesis of the theorems, not
an assumption built into the model, and `EarlyRead.DemoWorldOk` exhibits a world that meets it.

## Where the code differs from what one might expect

- The recipe key joins client id and file name without a separator. Two names can be confused across
  clients exactly when one is the other with one to nine digits in front
  (`Keys.RecipeNamesCollideIff`); client 1 with `2a` and client 12 with `a` share a recipe. Two pairs
  are isolated from each other exactly if their keys differ (`Isolation.IsolatedIff`): with equal keys,
  merely starting the second upload erases the first file's recipe (`Isolation.CollisionDestroys`).
- A client object can upload only once. Its queue stays marked done after the first file, so there is a
  schedule in which a second upload sends nothing (`Pipeline.ReuseLosesFile`). An upload sends its file
  under every schedule exactly if it finds the queue empty and not marked done
  (`Pipeline.AlwaysWholeIff`).
- A finished upload need not be downloadable: an address is visible in the index before its container
  is saved (`EarlyRead.FinishedButNotDownloadable`). `StaleRead.DownloadRightIff` and
  `StaleRead.DownloadAlwaysRightIff` give the exact condition, for files of every size, and
  `LateRead.LateDownloadIff` gives it for downloads whose reads are spread over a run.
- A file is said to exist from the moment its upload is admitted, so EXIST may deliver nothing
  (`InProgress.ExistDeliversNothing`). What is delivered is the prefix the recipe writer has reached,
  and `InProgress.ExistDeliversIff` says exactly when it is the file.
- "Each chunk is stored once" is false, because a whole batch is queried before any of it is added
  (`StoredTwice.SameChunkTwice`). In runs without overlapping uploads a chunk is stored as often as it
  occurs in the first batch that contains it, so exactly once if and only if it occurs once there
  (`Tally.StoredOnceIff`), and all copies come from that batch (`Tally.CopiesComeFromOneBatch`).
- A thread pool with a worker shuts down with every request executed (`ThreadPool.ShutdownEnds`,
  `ThreadPool.DestructorReturns`). One with no workers drops its requests silently
  (`ThreadPool.AllRunAtJoinIff`, `ThreadPool.ZeroWorkersDropRequests`).

## Model

| member | source | states |
|---|---|---|
| `StoreTheorems.RoundTrip` | src/server/ClientConn.cc:102-318 | in every reachable state, once no connection still uploading holds a container its recipe names, the download of a finished upload is exactly the uploaded bytes, whatever the outgoing buffer held; the recipe has one entry per chunk and the count modulo 2^32 |
| `StoreTheorems.QuietRoundTrip` | src/server/ClientConn.cc:187-318 | when no upload is in progress, every finished file downloads exactly |
| `EndToEnd.UploadThenDownload` | src/client/DedupClient.cc:72-149 | the client object's upload into the connection object, the writers, and the download by name return the file, from every reachable store in which no other upload is in progress; the connection ends in step with a reachable state, ready for the next order; a client object that has uploaded before may have sent the file cut short after some batch, and then that is what comes back |
| `EndToEnd.UploadAll` | src/server/ClientConn.cc:46-70 | any number of upload orders one after the other over one connection, each from a client object of its own: afterwards every file downloads exactly |
| `EndToEnd.UploadToNewServer` | src/server/ClientConn.cc:14-71 | from a new server and connection, for any files with distinct names on which the hash does not collide: every file comes back byte for byte |
| `EndToEnd.AdmitUpload` | src/server/ClientConn.cc:86-95 | the uniqueness check answers yes and the file table gains the pair; the connection object stays in step with the step relation |
| `EndToEnd.UploadLoop` | src/client/DedupClient.cc:98-142 | after the last message of the loop the connection object is still in the state of a reachable state of the step relation, positioned behind the whole file |
| `EndToEnd.FinishUpload` | src/server/ClientConn.cc:104-190 | FILEEND and both writers leave disk, recipe files and connection exactly as a run of the step relation does |
| `EndToEnd.DownloadFinished` | src/server/ClientConn.cc:270-322 | with no upload in progress, a finished file is found by name and delivered exactly |
| `StoreProof.StepKeeps` | src/server/ClientConn.cc:73-254 | every step of every connection keeps the store invariant |
| `StoreProof.ReachableInv` | src/server/ClientConn.cc:73-254 | the invariant holds in every reachable state |
| `Tiling.IndexResolves` | src/server/ClientConn.cc:118-139 | every index entry resolves, in the union of saved, queued and active containers, to bytes with the indexed hash |
| `StoreTheorems.EntriesResolve` | src/server/ClientConn.cc:145-152 | the recipe entries emitted so far, written, queued or buffered, number the chunks handled, and entry j resolves to chunk j of the file |
| `StoreTheorems.CapturedResolve` | src/server/ClientConn.cc:140-171 | the k-th captured duplicate address resolves to the chunk behind the k-th 0-flag still to be handled, the order the pop relies on |
| `StoreTheorems.DupIssued` | src/server/ClientConn.cc:161-171 | the k-th captured address names the chunk behind the k-th 0-flag |
| `StoreTheorems.StepGrows` | src/server/DedupServer.cc:113-127 | no step overwrites an index entry, shrinks a container or changes a saved file |
| `StoreTheorems.RunGrows` | src/server/DedupServer.cc:113-127 | the same over whole runs |
| `StoreTheorems.AddressesAreStable` | src/server/ClientConn.cc:118-171 | over any run, an issued address resolves to the same bytes at both ends, and index entries stay |
| `StoreTheorems.FinishedStays` | src/server/ClientConn.cc:236-254 | no later step changes the recipe of a finished upload |
| `StoreTheorems.DownloadIsStable` | src/server/ClientConn.cc:270-322 | whatever other uploads do afterwards, a downloadable file keeps its contents |
| `StoreTheorems.NamesSuffice` | src/server/ClientConn.cc:80-84 | file names that do not start with a digit, with a hash that does not collide on them, give distinct recipe keys |
| `Isolation.IsolatedIff` | src/server/ClientConn.cc:80-84 | of two pairs in play, a right download of one survives every run exactly if the two recipe keys differ |
| `Isolation.RightStaysRight` | src/server/ClientConn.cc:270-322 | with names that do not collide, a download that is right, even by luck, is right ever after |
| `Isolation.NotIsolated` | src/server/ClientConn.cc:236-240 | with equal keys there is a run after which a finished file no longer downloads |
| `Isolation.CollisionDestroys` | src/server/ClientConn.cc:81-81 | client 1 with `2a` and client 12 with `a` are not isolated from each other |
| `Tiling.AddressesDisjoint` | src/server/ClientConn.cc:125-134 | in every reachable state, any two addresses from the index, the captured duplicates and the emitted or finished recipes that name one container are equal or disjoint, and each is a non-empty range inside the container wherever it lives |
| `Tiling.BytesCovered` | src/server/ClientConn.cc:130-151 | every byte of a saved, queued or active container belongs to exactly one address in use, and that address stands in an emitted or finished recipe: the addresses tile [0, occupied) |
| `Tiling.ExtraStep` | src/server/ClientConn.cc:73-254 | every step keeps: stored tiles are non-empty chunks in play, each cited by a recipe; every file-table pair is finished or being uploaded; every recipe file has an owner |
| `StoreTheorems.SavedContainers` | src/server/ClientConn.cc:226-266 | a saved file is the concatenation of the chunks placed in it, is never empty, never exceeds CONTAINERSIZE and never changes |
| `StoreTheorems.CountersBalance` | src/server/ClientConn.cc:118-192 | at FILEEND unique plus duplicated chunks are the chunks of the file, the received bytes are the bytes handed over in containers, and no captured address is left |
| `Packing.ContainersAreTight` | src/server/ClientConn.cc:125-134 | in every reachable state a container handed over before FILEEND is saved or queued with all its bytes, and its length plus the length of the chunk stored next exceeds CONTAINERSIZE, so at most the last container of an upload has room for a whole chunk |
| `Packing.RecipeBuffersAreFull` | src/server/ClientConn.cc:145-151 | in every reachable state every recipe buffer handed over before FILEEND holds BATCHSIZE entries |
| `Packing.UniqueIsStored` | src/server/ClientConn.cc:118-153 | in every reachable state the unique counter plus the chunks taken from the message in hand is the number of chunks in this upload's containers |
| `Packing.CountersAreExact` | src/server/ClientConn.cc:118-192 | at FILEEND the unique counter is the number of chunks this upload stored and the duplicate counter the number of all its other chunks |
| `Packing.PackStep` | src/server/ClientConn.cc:118-192 | every step of every connection keeps the packing of all uploads in progress |
| `Packing.RoomRule` | src/server/ClientConn.cc:125-134 | a chunk goes behind the others if the bytes left are at least its length, and otherwise into a new container |
| `Counters.CountersAreAnswers` | src/server/ClientConn.cc:153-191 | at FILEEND the duplicate counter is the number of lookups in the run that found this upload's chunk indexed, and the unique counter the number of its other chunks, however uploads overlap |
| `Counters.NewFileCounts` | src/server/ClientConn.cc:153-191 | a file none of whose chunks is found indexed ends with no duplicates and all chunks unique |
| `Counters.KnownFileCounts` | src/server/ClientConn.cc:153-191 | a file whose chunks are all indexed when it is accepted ends with no unique chunk and all chunks duplicates |
| `Counters.StepCounts` | src/server/ClientConn.cc:153-173 | a step of any connection raises the counted duplicates of an upload by one exactly if it is a lookup of that upload that succeeds |
| `StoreTheorems.DuplicateQueueMatches` | src/server/ClientConn.cc:140-171 | between messages there is one captured address per 0-flag and one flag per pending hash |
| `StoreTheorems.NeverStuck` | src/server/ClientConn.cc:102-192 | a busy connection can always move: no slice out of bounds, no missing duplicate address, no writer left waiting |
| `StoreTheorems.WritersNeverWait` | src/server/ClientConn.cc:226-266 | in every reachable state a writer with something in its queue can take it, whatever the message loop or other connections do, and the head of the queue reaches the disk or the end of the recipe |
| `Dedup.KnownFileIsFree` | src/server/ClientConn.cc:107-109 | an upload whose chunks are all indexed sends no chunk bytes and fills and hands over no container, under any interference |
| `Dedup.NothingNewOwn` | src/server/ClientConn.cc:154-172 | none of its steps changes the index, a container or the disk |
| `Tally.StoredOnceIff` | src/server/ClientConn.cc:118-172 | without overlapping uploads, a chunk is stored exactly once if and only if it occurs exactly once in the first batch that contains it, and in general as often as it occurs there |
| `Tally.CopiesPerBatch` | src/server/ClientConn.cc:118-172 | once queries are settled, batch n has stored a chunk never if an earlier batch asked about it, and otherwise once per occurrence in the batch |
| `Tally.CopiesSoFar` | src/server/ClientConn.cc:118-172 | the same in mid-message for the part of the last batch stored so far; a flag is 1 exactly when no earlier batch asked |
| `Tally.IndexedIffEarlier` | src/server/ClientConn.cc:161-171 | in a run without overlapping uploads, while a query is answered, exactly the chunks asked about by earlier batches are indexed |
| `Tally.SoloStep` | src/server/ClientConn.cc:118-172 | every step of a run without overlapping uploads keeps this count |
| `Tally.CopiesComeFromOneBatch` | src/server/ClientConn.cc:154-172 | in a run without overlapping uploads all copies of a chunk come from one query batch, at every moment |
| `FlagTally.CopiesPerFlag` | src/server/ClientConn.cc:118-172 | in every reachable state, however uploads overlap, a pending batch has stored a chunk once for each of its handled flags that is 1 and belongs to the chunk |
| `FlagTally.ClosedIsFinal` | src/server/ClientConn.cc:118-172 | once a batch is stored, no later step of any run adds to it |
| `FlagTally.FlagStep` | src/server/ClientConn.cc:118-172 | every step keeps these counts and the distinct numbers of pending batches |
| `StoredTwice.SameChunkTwice` | src/server/ClientConn.cc:118-172 | a reachable state in which uploading a file of two equal chunks has stored the chunk twice, for one batch |
| `StaleRead.DownloadRightIff` | src/server/ClientConn.cc:296-316 | for every file and buffer, the download of a finished upload is right exactly when each chunk whose container is missing equals the bytes left in its place |
| `StaleRead.DownloadAlwaysRightIff` | src/server/ClientConn.cc:296-316 | it is right for every buffer exactly when each such chunk lies beyond the first message and is a prefix of the chunk one message earlier |
| `StaleRead.DeliverRightIff` | src/server/ClientConn.cc:296-316 | the same for any recipe whose present containers hold its chunks |
| `StaleRead.GatherRightIff` | src/server/ClientConn.cc:302-311 | one gathered message is right exactly when every unreadable chunk was already in the buffer |
| `LateRead.LateDownloadIff` | src/server/ClientConn.cc:296-316 | over any run that goes on during the download, with every read at a state of its own: right exactly when each chunk whose container was not saved by the time of its read equals the bytes left in its place |
| `LateRead.LateRoundTrip` | src/server/ClientConn.cc:296-316 | so the file is delivered whenever each container is saved by the time it is read |
| `LateRead.LateDeliverIff` | src/server/ClientConn.cc:296-316 | the same for any recipe and any sequence of disk contents |
| `InProgress.ExistMeans` | src/server/ClientConn.cc:281-288 | a pair that exists is finished or being uploaded |
| `InProgress.PartialDownloadIff` | src/server/ClientConn.cc:289-316 | downloading a file that is being uploaded sends the prefix given by the entries written so far, exactly when every unreadable chunk of it is replaced by bytes that happen to be right |
| `InProgress.ExistDeliversIff` | src/server/ClientConn.cc:281-316 | for every buffer, EXIST delivers the file exactly when an entry has been written for each chunk and every unreadable chunk is replaced by bytes that happen to be right |
| `InProgress.SavedPrefixDelivered` | src/server/ClientConn.cc:281-316 | with the containers named so far saved, the prefix made up by the entries written so far is delivered |
| `InProgress.DeliverLength` | src/server/ClientConn.cc:309-315 | whatever can be read, the messages have the sizes the recipe says |
| `InProgress.ExistDeliversNothing` | src/server/ClientConn.cc:94-98 | a reachable state in which EXIST delivers nothing of a non-empty file |
| `EarlyRead.FinishedButNotDownloadable` | src/server/ClientConn.cc:138-234 | a reachable state in which a finished upload does not download correctly |
| `Chunking.PackingAgreement` | src/server/ClientConn.cc:118-124 | for every batch and flag vector the server's slice u is the u-th flagged chunk, and the subtraction does not underflow |
| `Chunking.PackRoundTrip` | src/client/DedupClient.cc:106-132 | cutting the packed payload gives back the flagged chunks in order, and it fits CHUNKSIZE times the batch |
| `Chunking.SplitShape` | src/client/DedupClient.cc:199-213 | the chunks concatenate to the file, none is empty and only the last is short |
| `Chunking.SplitUnique` | src/client/DedupClient.cc:199-213 | no other cut has that shape |
| `Chunking.PieceAt` | src/client/DedupClient.cc:210-213 | the range computed with min is chunk i |
| `Upload.GatherReads` | src/server/ClientConn.cc:302-311 | if every entry is readable, the gathered message is the chunks |
| `Upload.DeliverReads` | src/server/ClientConn.cc:296-318 | if every entry is readable, the whole download is the chunks, whatever the buffer held |
| `Server.DedupServer.AddChunk` | src/server/DedupServer.cc:113-116 | an existing entry stays, a missing one is added, nothing else changes |
| `Server.DedupServer.IsChunkStored` | src/server/DedupServer.cc:118-127 | says whether the key is indexed; the out-parameter changes only when it is |
| `Server.DedupServer.IsFileUnique` | src/server/DedupServer.cc:94-99 | true exactly when the pair is not in the table |
| `Server.DedupServer.IsFileExist` | src/server/DedupServer.cc:101-103 | true exactly when the pair is in the table |
| `Server.DedupServer.AddFile` | src/server/DedupServer.cc:105-111 | adds the pair and nothing else |
| `Server.ContainerBuffer.NewContainer` | src/server/ClientConn.cc:203-211 | a fresh, empty buffer that no queued container shares; occupied + capacity = CONTAINERSIZE |
| `Server.ContainerBuffer.HandOver` | src/server/ClientConn.cc:125-129 | the full container goes to the queue as it is, and the active buffer is a fresh one |
| `Server.ContainerBuffer.HandOverLast` | src/server/ClientConn.cc:107-109 | only a non-empty container is handed over |
| `Server.ContainerBuffer.AppendHere` | src/server/ClientConn.cc:130-134 | appends the bytes in place, leaves the queued containers alone, and the address is the range just filled |
| `Server.ContainerBuffer.Append` | src/server/ClientConn.cc:125-134 | the same, after handing the container over exactly if its length plus the chunk's exceeds CONTAINERSIZE |
| `Server.ContainerBuffer.WriteContainers` | src/server/ClientConn.cc:226-234 | every queued container becomes a file with exactly its contents, in queue order |
| `Server.RecipeBuffer.NewRecipe` | src/server/ClientConn.cc:213-216 | a fresh, empty buffer that no queued one shares |
| `Server.RecipeBuffer.HandOver` | src/server/ClientConn.cc:222-224 | the buffer's entries go to the end of the queue |
| `Server.RecipeBuffer.Append` | src/server/ClientConn.cc:145-151 | one entry is added behind all others, in a fresh buffer when the old one is full |
| `Server.RecipeBuffer.WriteRecipe` | src/server/ClientConn.cc:236-254 | the file is all queued entries in order, preceded by their number modulo 2^32 |
| `Server.ClientConn.constructor` | src/server/ClientConn.cc:14-26 | distinct buffers of the declared sizes and an empty upload state |
| `Server.ClientConn.ReceiveMessage` | src/server/ClientConn.cc:103-103 | the incoming buffer holds the message; pending flags and containers are untouched |
| `Server.ClientConn.StoreUnique` | src/server/ClientConn.cc:119-139 | the slice is in the active container and indexed under its hash |
| `Server.ClientConn.StoreIteration` | src/server/ClientConn.cc:118-152 | one iteration is one step of the specification, with every copy inside its buffer |
| `Server.ClientConn.StoreLoop` | src/server/ClientConn.cc:116-152 | the loop is the fold of those steps |
| `Server.ClientConn.TakeQuery` | src/server/ClientConn.cc:153-159 | the pending hash list is replaced by the message's hashes, and the unique counter, and no other, grows by the chunks taken from the message |
| `Server.ClientConn.QueryIteration` | src/server/ClientConn.cc:161-171 | flag and captured address of hash i are as the index says; earlier flags stay |
| `Server.ClientConn.QueryLoop` | src/server/ClientConn.cc:161-173 | the whole query is answered and the duplicates are counted |
| `Server.ClientConn.HandleMessage` | src/server/ClientConn.cc:114-175 | handling a message is exactly the specification of the whole branch |
| `Server.ClientConn.EndAndDrain` | src/server/ClientConn.cc:104-112 | with both writers drained, the disk has every container and the recipe every entry of the upload |
| `Server.ClientConn.ResetUpload` | src/server/ClientConn.cc:194-201 | fresh buffers, no pending hashes, a new container id |
| `Server.ClientConn.FinishFile` | src/server/ClientConn.cc:181-190 | end of upload: disk, recipe and a clean connection |
| `Server.ClientConn.ReadInto` | src/server/ClientConn.cc:304-310 | byte by byte: what exists of the range is read to its place and the rest of the buffer stays as it was |
| `Server.ClientConn.GatherBatch` | src/server/ClientConn.cc:302-311 | the buffer after the loop, and the number of bytes to send |
| `Server.ClientConn.SendFile` | src/server/ClientConn.cc:296-318 | the payloads of all messages, all built in one reused buffer, never beyond it |
| `Server.ClientConn.Download` | src/server/ClientConn.cc:270-322 | NOTEXIST exactly for pairs not in the file table; otherwise the contents named by the recipe under its hashed name, where a missing recipe file reads as empty; between uploads the upload state is untouched |
| `Server.ClientConn.RecipeFileName` | src/server/ClientConn.cc:80-84 | the hex form of the hash of client id and file name |
| `Server.ClientConn.SaveUpload` | src/server/ClientConn.cc:181-190 | every container and the recipe reach the disk, the recipe under its hashed name |
| `Client.HashBatch` | src/client/DedupClient.cc:206-213 | the hash buffer holds the hash of every chunk of the batch, in order |
| `Client.ReadData` | src/client/DedupClient.cc:188-219 | the reader pushes every batch of the file with its hashes, in order; nothing for an empty file |
| `Client.DedupClient.TakeBatches` | src/client/DedupClient.cc:122-125 | the loop's pops deliver all batches if the queue was not marked done, else any number of them; the flag stays set |
| `Client.BatchesDelivered` | src/client/DedupClient.cc:92-125 | that is exactly what the schedules of reader and loop allow |
| `Client.EveryScheduleSends` | src/client/DedupClient.cc:98-142 | under every schedule the messages are those of a file: the one to be uploaded if the queue was not marked done, and otherwise that file cut short |
| `Client.CutFile` | src/client/DedupClient.cc:197-207 | the first n batches of a file are a prefix of it whose batches they are |
| `Client.BatchIsChunkRange` | src/client/DedupClient.cc:197-207 | batch k holds exactly chunks 1024k to 1024(k+1)-1 of the file |
| `Client.DedupClient.PackChunks` | src/client/DedupClient.cc:105-114 | the flagged chunks lie packed at the front of the buffer, inside it |
| `Client.DedupClient.BuildBody` | src/client/DedupClient.cc:99-136 | flagged chunks of the pending batch, then the hashes of the next, within (CHUNKSIZE+HASHSIZE)*BATCHSIZE |
| `Client.DedupClient.SendMessages` | src/client/DedupClient.cc:98-142 | the whole sequence of messages for any verdicts: message k carries batch k-1 and asks about batch k, and only the last asks nothing |
| `Client.DedupClient.Upload` | src/client/DedupClient.cc:92-145 | the messages of the file, or, for an object that has uploaded before, of the file cut short after some batch; the queue is left marked done |
| `Client.BodiesAreClientBodies` | src/client/DedupClient.cc:98-142 | the loop's messages are the ones the store's step relation takes, turn by turn |
| `Refine.MessageFits` | src/server/ClientConn.cc:17-23 | every message of a reachable state meets what the loops need: one address per 0-flag, one slice per 1-flag, at most BATCHSIZE hashes |
| `Refine.HandleBodyIsARun` | src/server/ClientConn.cc:114-175 | handling a message without interference is a run of the connection's own steps |
| `Turns.AnyTurn` | src/client/DedupClient.cc:98-142 | from any reachable state, a turn of the client's loop leads to the next one and adds the keys of exactly its batch to the queried batches |
| `Turns.WholeUpload` | src/server/ClientConn.cc:73-192 | from any reachable state an upload that may be asked for can run to its end |
| `Refine.FinishIsARun` | src/server/ClientConn.cc:104-190 | so is the end of an upload, with the same disk and recipe |
| `Keys.ConvertArrayHashToString` | include/Util.h:138-158 | 64 characters that decode to the 32 bytes (their digits are `Keys.HexAt`) |
| `Keys.HexAt` | include/Util.h:138-158 | byte i of a hash becomes characters 2i and 2i+1, the high half first, in the digits 0-9a-f |
| `Keys.UnhexOfHex` | include/Util.h:138-158 | decoding inverts encoding, for every byte string |
| `Keys.HexInjective` | include/Util.h:138-158 | different hashes have different keys |
| `Keys.RecipeNamesCollideIff` | src/server/ClientConn.cc:81-81 | two names can collide across clients exactly when one is the other with 1 to 9 digits in front |
| `Keys.RecipeNameCollisionExample` | src/server/ClientConn.cc:81-81 | client 1 with `2a` and client 12 with `a` |
| `Keys.RecipeNameInjective` | src/server/ClientConn.cc:81-81 | injective for names that do not start with a digit |
| `BlockQueue.BlockQueue.PushRegion` | include/BlockQueue.h:24-32 | waits exactly when full, otherwise appends and clears the emptiness flag |
| `BlockQueue.BlockQueue.PopRegion` | include/BlockQueue.h:34-45 | an element from the front, end of stream only when empty and done, or a wait |
| `BlockQueue.StepKeeps` | include/BlockQueue.h:24-56 | every lock-held region keeps contents, thread roles and wake-up balance |
| `BlockQueue.QueueRefinesFifo` | include/BlockQueue.h:24-45 | popped items followed by the contents are the pushed items; bounded; the emptiness flag agrees |
| `BlockQueue.NoLostWakeUp` | include/BlockQueue.h:24-45 | un-notified producers exist only if the notified ones number at least the free slots; likewise consumers and elements |
| `BlockQueue.ProducerProceeds` | include/BlockQueue.h:24-32 | with a free slot and a sleeping producer, some producer is awake and its next step stores |
| `BlockQueue.ConsumerProceeds` | include/BlockQueue.h:34-45 | with an element and a sleeping consumer, some consumer is awake and its next step takes it |
| `BlockQueue.PopFalseMeansDrained` | include/BlockQueue.h:34-39 | when pop returns false everything pushed has been popped |
| `BlockQueue.DrainedStays` | include/BlockQueue.h:51-56 | and it stays so while nobody pushes or withdraws the end-of-stream flag |
| `BlockQueue.FlagIsLatest` | include/BlockQueue.h:51-56 | along every run the end-of-stream flag is up exactly if the latest call of set_done or undone was set_done, or it was up before and there was neither |
| `BlockQueue.PopOnEmpty` | include/BlockQueue.h:34-56 | on an empty queue pop returns false exactly if the latest of the two calls was set_done, and waits exactly if not; a false pop means everything pushed was popped |
| `BlockQueue.ReusedQueue` | src/server/ClientConn.cc:194-201 | a drained queue taken back with undone returns false only after a later set_done that was not taken back, and after everything pushed since was popped in order |
| `BlockQueue.EveryPushStored` | include/BlockQueue.h:24-32 | along every run the items a thread offered are those its own steps stored, in order, followed by the one it is blocked with, if any |
| `Pipeline.OutcomesIff` | src/client/DedupClient.cc:92-125 | over all schedules of reader and upload loop, what the pops can deliver is exactly what was left in the queue followed by the file's batches, and, if the queue was already marked done, that cut short after any batch |
| `Pipeline.AlwaysWholeIff` | src/client/DedupClient.cc:92-125 | an upload sends its file under every schedule exactly if it finds the queue empty and not marked done (for an empty file: empty) |
| `Pipeline.LeavesDone` | src/client/DedupClient.cc:215-218 | an upload leaves the queue empty, with nobody blocked, and marked done |
| `Pipeline.ReuseLosesFile` | src/client/DedupClient.cc:15-17 | after any first upload a second one on the same object has a schedule that sends nothing |
| `Pipeline.NeverStuck` | include/BlockQueue.h:24-45 | until the loop's last pop a step other than a wake-up is possible, except that a loop asleep when the flag is set needs its time-out |
| `Pipeline.PipeStepKeeps` | include/BlockQueue.h:24-56 | every step of either thread keeps the account of read, queued and popped batches |
| `ThreadPool.ExactlyOnce` | src/comm/ThreadPool.cc:23-33 | each taken request has one worker that is executing it or has executed it, never both, and no other worker has it |
| `ThreadPool.AllRunAtJoinIff` | src/comm/ThreadPool.cc:16-21 | in a state in which all workers have left, all requests have been executed exactly if there is a worker or there were no requests |
| `ThreadPool.DestructorReturns` | src/comm/ThreadPool.cc:16-33 | from every reachable pool whose destructor was called some run leads to all workers having left, with every request executed if there is a worker |
| `ThreadPool.ShutdownEnds` | src/comm/ThreadPool.cc:16-33 | after set_done every run takes exactly one off the steps left, and a run that cannot go on has all workers gone and, with a worker, all requests executed |
| `ThreadPool.ClosingStep` | src/comm/ThreadPool.cc:16-33 | after set_done only takes, returns, wake-ups and exits are possible, and each lowers the measure by one |
| `ThreadPool.WorkerMoves` | src/comm/ThreadPool.cc:23-33 | after set_done each worker that has not left can move: return, wake by time-out, take the next request, or leave a drained queue |
| `ThreadPool.CloseComesUp` | src/comm/ThreadPool.cc:16-33 | from every reachable pool with a worker and a positive bound a run unblocks all appends and reaches the destructor's set_done |
| `ThreadPool.ZeroWorkersDropRequests` | src/comm/ThreadPool.cc:4-21 | a run of a pool without workers that ends with an unexecuted request |
| `ConnPool.MysqlConnPool.constructor` | src/server/MysqlConnPool.cc:5-24 | the counter is the list length and no connection is listed twice |
| `ConnPool.MysqlConnPool.GetRegion` | src/server/MysqlConnPool.cc:32-42 | waits exactly when the list is empty, otherwise takes its front |
| `ConnPool.MysqlConnPool.ReleaseRegion` | src/server/MysqlConnPool.cc:44-56 | the list gains the connection at its end and signals, unless the connection is already free, and then changes nothing |
| `ConnPool.StepKeeps` | src/server/MysqlConnPool.cc:32-65 | every step keeps the partition and the wake-up balance |
| `ConnPool.PoolConserves` | src/server/MysqlConnPool.cc:5-65 | in every run free and held connections partition the opened ones, no two holders share one, the counter is right and a double release changes nothing |
| `ConnPool.HandedOutInTurn` | src/server/MysqlConnPool.cc:32-56 | in every run the connections handed out, followed by the free list, are the opened list followed by the released ones, so they are handed out first in, first out |
| `ConnPool.HolderReleases` | src/server/MysqlConnPool.cc:44-65 | a holder can always give its connection back; it is then last in the list and a sleeping waiter, if any, is notified |
| `ConnPool.WaiterProceeds` | src/server/MysqlConnPool.cc:32-56 | with a free connection and a sleeping waiter, the awake waiters number at least the free connections and the next step of one takes the front connection |
| `Session.StepKeeps` | src/client/DedupClient.cc:40-186 | every step of either program keeps the channels equal to the unread part of the two scripts and lowers the measure by one |
| `Session.MessagesMatch` | src/client/DedupClient.cc:40-186 | no receive ever meets a message of the wrong kind, and at most one query awaits its verdict |
| `Session.NoDeadlock` | src/client/DedupClient.cc:40-186 | unless both have ended, one side can move |
| `Session.SessionsEnd` | src/server/ClientConn.cc:35-71 | every session is bounded and a maximal one has ended on both sides with empty channels |
| `Session.UploadConversation` | src/client/DedupClient.cc:72-149 | a finished session with an accepted upload of n batches has sent n queries and an empty one, one FILEEND and one QUIT, and received n verdicts |
| `Session.DownloadConversation` | src/client/DedupClient.cc:151-186 | a finished download has received every message of the file and then FILEEND, the client sending only its login and two orders |
| `Session.RefusedConversation` | src/client/DedupClient.cc:72-186 | a refused order is answered once and no file data moves either way |
| `Framing.Stream.SendData` | include/Util.h:23-31 | whatever the short writes, exactly one frame goes out |
| `Framing.Stream.ReceiveData` | include/Util.h:34-43 | whatever the short reads, exactly one frame is taken and the buffer holds its body |
| `Framing.SendAndReceiveAll` | include/Util.h:23-43 | every message sequence is received as sent |
| `Framing.FramesInjective` | include/Util.h:23-31 | different message sequences give different streams |
| `Framing.WordRoundTrip` | include/Util.h:25-36 | the length word decodes to the length |
| `Framing.FrameShape` | include/Util.h:23-31 | a frame is the eight bytes of the length to base 256, lowest first, and then the data |
| `Wire.StepKeeps` | include/Util.h:23-43 | every interleaved step keeps received, buffered and unsent bytes together equal to the framed messages, and lowers the measure |
| `Wire.PrefixAlways` | include/Util.h:23-43 | at every moment the receiver has returned a prefix of the messages, and every run is bounded |
| `Wire.StopsIffReceived` | include/Util.h:23-43 | a run stops exactly when every message has been received and nothing is left over |
| `DecimalLiteral.IsDecimalLiteral` | include/argparse.hpp:835-944 | accepts a string exactly when the grammar derives it |
| `DecimalLiteral.GrammarAccepts` | include/argparse.hpp:800-834 | strings the grammar derives, among them 01. and 1.e-5 |
| `DecimalLiteral.GrammarRefuses` | include/argparse.hpp:800-834 | strings it does not derive, among them 01 and 1e |
| `DecimalLiteral.MunchFraction` | include/argparse.hpp:913-918 | taking the longest digit prefix loses no derivation of a fraction |
| `DecimalLiteral.MunchInteger` | include/argparse.hpp:892-911 | nor of a literal with an integer part |
| `DecimalLiteral.IsPositional` | include/argparse.hpp:958-973 | for the default prefix set, true exactly when the positional grammar derives the string; and its answer for any prefix set |
| `DecimalLiteral.IsOptional` | include/argparse.hpp:946-949 | the complement of positional |

## Left out

- Sockets, epoll, accept, disconnects and I/O errors: sessions run to QUIT over reliable channels, and every container file that is opened can be written.
- MySQL: the FILES table is a set of pairs and its query strings are not modelled; the check and the insert are separate steps.
- Same-pair races: two concurrent uploads of one (client, name) pair, which the separate check and insert would let through, are excluded by the guard of `Store.Ask`.
- SHA-256: an uninterpreted function of the theorems; the server does not re-hash, so the uploading client of the model is the honest one of `read_data`.
- UUIDs: container ids are numbers never used before; the 40-byte text form and the byte layout of `ChunkAddr_t` and of headers are values.
- File system: saving one container is one step, and a container popped by its writer but not yet saved counts as queued.
- Queue bounds in the store: the two pipelines of `Store` are unbounded queues; blocking on a full queue is the subject of `BlockQueue`.
- BlockQueue.BlockQueue.PushRegion: one pass through the lock-held region; waiting and notification are in the monitor beside it, where the one-second `wait_for` is a wake-up that may come at any time.
- BlockQueue.BlockQueue.PopRegion: one pass through the lock-held region, as above.
- ConnPool.MysqlConnPool.GetRegion: one pass through the lock-held region, as above.
- Dedup.KnownFileIsFree: other uploads may extend the index meanwhile; that the upload itself does not is `Dedup.NothingNewOwn`.
- EndToEnd.UploadThenDownload: other connections are idle while it runs; interference is covered by `StoreTheorems.RoundTrip` and `LateRead.LateRoundTrip` on the step relation.
- Framing.FrameShape: a host with 8-byte, little-endian size_t; the code writes the length as it lies in memory.
- Framing.Stream.ReceiveData: the frame has arrived when the call starts; a receiver running beside its sender is `Wire`.
- Framing.SendAndReceiveAll: all messages are sent before the first is received; interleaved sending and receiving is `Wire`.
- Server.ClientConn.SendFile: all reads see one disk; reads spread over a run are `LateRead`.
- Tally.CopiesComeFromOneBatch: for runs without overlapping uploads; overlapping ones are counted batch by batch, by their flags, in `FlagTally`.
- Client.ReadData: the reader's pushes only; the thread beside the loop is `Pipeline`, and `Client.DedupClient.TakeBatches` draws one of its outcomes for an empty queue. Batches that a cut-short upload left behind are in `Pipeline` only, and a second upload is assumed to start after the reader of the first has ended.
- Recipe buffering: a popped recipe buffer reaches its file as a whole, so a download in progress never sees half an entry.
- Repeated uploads: the DUPLICATE refusal changes nothing in the store, so it is a branch of `Session` and not a step of `Store`.
- Sizes of integers: 64-bit and 32-bit variables are unbounded except the 32-bit recipe count, which wraps; the others stay below the buffer sizes proved.
- Constants: CHUNKSIZE, BATCHSIZE, HASHSIZE and CONTAINERSIZE have the values of include/Config.h.
- Control-message layout: control messages are values; the sender leaves a byte of them uninitialised, so the bytes are not determined by the code.
- Logger, Config, the demo programs and the rest of the argument parser: formatting and wiring that no property above depends on.
- Server restart: the index is only in memory, so nothing about it survives in the code either.
