# A verified model of a replicated chunk store

The store keeps files as chunks on storage nodes. A client asks the controller where to put a new file, cuts the
file into chunks and sends each chunk to a main node, which saves it and forwards it to the replicas. Nodes report what
they store in heartbeats, and from these alone the controller builds the index that tells where chunks are. Reads are
answered only after a chunk has been validated against its recorded checksum; a node that finds its copy corrupted fetches
it from another holder first. When a node stops reporting, each of its chunks gets a new node. The controller keeps its
catalogue of files behind a Bloom filter and on disk, one text file per name, and reads it back when it starts.

## How the model is built

The running programs are classes with the fields the programs update in place. Their handlers are proved equal to
functions on values, and the theorems are about those functions. Two handlers agree with theirs only under a condition: a
heartbeat lists what the node stores if its records are legible, and the client's float64 byte counter counts like an
integer up to 2^53. `Legibility.dfy` proves both conditions for every reachable state.

| part | functions | running form |
|---|---|---|
| a storage node | `NodeSpec.dfy` | `StorageNode.dfy`, `Wire.dfy` |
| a storage node's metadata files and heartbeats as text | `ChunkRecords.dfy` | `StorageNode.dfy` |
| the controller's index and its random choices | `ControllerSpec.dfy`, `Placement.dfy` | `Controller.dfy` |
| the controller's catalogue | `CatalogueSpec.dfy` | `Catalogue.dfy` |
| the client | `ClientSpec.dfy`, `Chunking.dfy` | `Client.dfy` |
| the Bloom filter | `Bloom.dfy` | `Bloom.dfy` |
| framing | `Framing.dfy` | `Framing.dfy` |
| text records and Go's text routines | `Records.dfy`, `Text.dfy` | used by the classes |
| the float64 chunk count | `Float64.dfy` | a function, as in the source |

`Cluster.dfy` puts these functions together as one state machine. A state holds the disks of all nodes, the controller's
index and node table, heartbeats on their way, readers with the globals of their client, and a pool of messages and
sleeping repair handlers. One handler run is one step. Messages are delivered in any order or dropped, any dial may fail,
stored bytes may be replaced silently, nodes may stop, be declared dead and be replaced, clients may type commands at any
time, and the controller may restart. `Safety.dfy` and `SafetySteps.dfy` prove the invariant every step keeps;
`StoreTheorems.dfy`, `Agreement.dfy`, `Quiescence.dfy`, `Mending.dfy`, `Reading.dfy`, `Readers.dfy`, `Completion.dfy`,
`Legibility.dfy`, `Cascades.dfy` and `Deleting.dfy` draw the conclusions for every reachable state and every run.
`Effects.dfy` says of single steps what they do to the whole store, in terms of the store alone.

Replication, repair, reads and deletion are proved to come to their end once nothing of them is under way or was lost. What
was lost is recorded from which dials failed and which files were missing, not from what a handler sent. `Scenarios.dfy`,
`Recoveries.dfy`, `Erasures.dfy` and `Witness.dfy` construct runs that reach such ends, and runs in which the program fails.

The runs are restricted, and the code does not enforce the restrictions:

- A file is written under a name no older file has had, without comma, colon, newline, slash, edge whitespace or leading
  dot, such that the metadata line of each chunk fits the line scanner (`Cluster.Writable`). With a comma in the name a
  heartbeat reports another file's chunk: `ChunkRecords.CommaIsMisread`.
- A file has at most 2^53 bytes, and its chunk size is positive. Beyond that a chunk may be missed: `Float64.LastByteLost`.
- Storage directories hold no comma and no newline and do not start with whitespace; checksums are hexadecimal.
- A node that was declared dead does not report again, and a failure is handled only while three nodes are active.
- A client starts a read only when nothing of an earlier read of its own is under way.

The hash is an injective function, the message library an encoder with its decoder, the murmur sums two arbitrary
functions; random draws, map iteration orders, and which nodes can be dialled are parameters.

Where the repository's README and its code differ, the model follows the code. The README says that a name found in the
filter is rejected; the code also consults the map, and `CatalogueSpec.FilterRedundant` shows that the map alone decides.

## Model

| member | source | states |
|---|---|---|
| SafetySteps.StepKeeps | hdfs/nodes/storagenode.go:432-462 | every step of the store keeps: stored and carried checksums are those of the chunk the writer cut, copies differ only if corrupted since written, messages and index name only nodes a chunk was placed on, at most three of them live |
| StoreTheorems.ReadIntegrity | hdfs/nodes/storagenode.go:360-395 | in every reachable state each message that carries a chunk carries exactly the bytes the writer cut and their checksum |
| StoreTheorems.StoredCopies | hdfs/nodes/storagenode.go:43-104 | in every reachable state a stored copy has metadata with the right checksum, and its bytes are right unless corrupted since last written |
| StoreTheorems.ReplicaBound | hdfs/controller/controller.go:215-273 | in every reachable state at most three nodes hold a chunk or are about to, leaving out those whose failure was handled for it |
| StoreTheorems.ReplacementAlwaysWorks | hdfs/controller/controller.go:225-253 | in every reachable state with three active nodes, replacing a failed node starts with at most two survivors, never fails, ends with an active node without a copy, and can always still be ended |
| StoreTheorems.TableInBounds | hdfs/controller/controller.go:133-151 | filling a file's location table never passes its chunk count, and a full table lists every chunk of the file exactly once; `Agreement.EmptyRowExactly` says which rows have no holder |
| Agreement.IndexAgreesWithReports | hdfs/controller/controller.go:313-368 | unless its file is deleted, a chunk has a node in the index exactly when the node is active and last reported it, or is dead with that failure unhandled; indexed nodes store the chunk under its file |
| Agreement.TableRowsStored | hdfs/controller/controller.go:133-151 | every node the location table of a file not deleted lists for a chunk stores it, with the right checksum, and with the right bytes unless corrupted since written |
| Agreement.EmptyRowExactly | hdfs/controller/controller.go:140-146 | a row of the table is without a holder exactly when no active node last reported the chunk and no unhandled failure lists it |
| Witness.EmptyRowHappens | hdfs/client/client.go:220-221 | a run after which the table of a one-chunk file is full, its row has no holder, and the client that reads the file ends: the file was written while one node was active, and that node died |
| Effects.WriteIsForwarded | hdfs/nodes/storagenode.go:107-177 | a write handled at a node that can dial all its replicas leaves the node with the bytes and their record, a write of the same bytes and checksum under way to each replica, in order and without a list of its own, and the rest of the store, losses included, as it was |
| Scenarios.WriteIsReplicated | hdfs/nodes/storagenode.go:107-177 | for any four nodes and any file of one chunk, a run from the client's write to a state in which nothing of it is under way or was lost, and all three nodes of the placement hold the chunk |
| Quiescence.WriteReplicates | hdfs/nodes/storagenode.go:107-177 | the main node and each replica of a write hold each chunk with the bytes and checksum cut, as soon as nothing that leads that chunk to that node is under way or was lost |
| Effects.ReplicaIsAsked | hdfs/nodes/storagenode.go:398-425 | a node told of replicas, the first of which it can dial, leaves a read of that chunk under way to it, with itself as sender and the others as the list, and nothing else changes, losses included |
| Effects.ReadIsAnswered | hdfs/nodes/storagenode.go:330-395 | a read of a copy that matches its recorded checksum, by somebody who can be dialled, leaves a write of exactly the stored bytes under way to the asker, with the list the read carried |
| Effects.CorruptionIsReported | hdfs/nodes/storagenode.go:305-327 | a read of a copy that does not match sends nobody any bytes: the request to the controller is under way exactly if the controller can be dialled, and a handler that remembers the asker sleeps |
| Effects.SleeperAnswers | hdfs/nodes/storagenode.go:369-379 | a sleeping handler that finds its copy valid again sends the stored bytes to whoever had asked |
| Effects.ReplacementIsAsked | hdfs/controller/controller.go:215-297 | a replacement takes the failed node, and only it, from the holders of that chunk alone, and leaves one request under way to the new node, if it can be dialled, that names exactly the survivors, each once |
| Effects.HoldersAreTold | hdfs/controller/controller.go:466-494 | a node that asked for replicas and can be dialled has an answer under way to it from the controller whose list has exactly the chunk's other indexed holders, each once |
| Recoveries.ReplacementArrives | hdfs/nodes/storagenode.go:398-429 | a run from the replacement of a failed node, its copy one of three, to a state in which nothing of the repair is under way or was lost, and the new node and both survivors have the bytes cut |
| Recoveries.CorruptionHeals | hdfs/nodes/storagenode.go:305-327 | for any bytes that overwrite one of three copies, a run from a client's read of it to a state in which nothing of the repair is under way or was lost, and the node has the bytes cut again |
| Recoveries.CorruptedReadSucceeds | hdfs/nodes/storagenode.go:360-395 | the same run goes on: the sleeping handler wakes, its reply reaches the client, and the client keeps the file as written |
| Mending.RepairReplicates | hdfs/nodes/storagenode.go:398-429 | after a replacement the new node and every survivor have the bytes cut and their checksum, hence the same, even a survivor whose copy was corrupted before: as soon as nothing of the repair that concerns the node is under way or was lost since, as long as its copy was not corrupted since and the file is not deleted |
| Mending.ReadHeals | hdfs/nodes/storagenode.go:305-327 | a corrupted copy that is read is made right: once the repair the read started, from its request to the controller on, has gone all its way without a loss, the node has the bytes the writer cut, unless the copy was corrupted again or the file deleted |
| Mending.RequestHeals | hdfs/controller/controller.go:470-494 | the same for every request for replicas under way in a sound state, however it came about |
| Quiescence.ReplacementHolds | hdfs/controller/controller.go:259-297 | without any assumption on corruption: after a replacement the new node holds the chunk with the checksum cut as soon as nothing that leads it there is under way or was lost since, and every survivor holds it all along; the bytes are right unless corrupted since last written; both as long as the file is not deleted |
| Readers.ReadBack | hdfs/client/client.go:208-300 | a read that met no row without a holder and during which its client typed no command saves every chunk in the folder the file was written with, never fails, merges at most once, exactly when every chunk has arrived once with all bytes counted, and then keeps the file written in that folder under its name, for every arrival order |
| Completion.ReadCompletes | hdfs/client/client.go:208-300 | a read that asked for every chunk and during which its client typed no command is complete and has kept the file, in its own folder and under its own name, as soon as nothing bound for the client is under way and nothing that would have reached it was lost since the read began |
| Readers.KeepsOnlyTheFile | hdfs/client/client.go:470-477 | whatever commands were typed and whatever was merged, the bytes of a file the client keeps are those of the file it asked for, as written |
| Readers.LastChunkDecides | hdfs/client/client.go:408-432 | when the last chunk arrives the client fails exactly when a chunk file it looks for under the current path and folder was neither found by the read nor saved there; globals still those of the read suffice for keeping the file, and on a clean disk they are also necessary, else the client fails |
| Witness.CommandBreaksRead | hdfs/client/client.go:562-574 | a run in which a command naming another file, typed before the last chunk comes, makes the client fail when it comes |
| Witness.ReadSucceeds | hdfs/client/client.go:290-300 | the same run without the command: the client keeps the file's bytes under its name in the folder it was written with |
| Effects.ReadStartsOver | hdfs/client/client.go:208-217 | a read starts with the folder, size, checksum and number of chunks the file was written with and with nothing counted, and keeps the client's disk; the client has ended exactly if it met a row without a holder |
| Effects.ReadIsSent | hdfs/client/client.go:218-242 | one read of each row's own chunk is under way to the first node of the row, in order, with the client as sender |
| Effects.CommandsOverwrite | hdfs/client/client.go:540-580 | a command changes the current name and folder of the client who typed it to those it gives, and nothing else of any client's read |
| Effects.ChunkIsSaved | hdfs/client/client.go:245-262 | a complete chunk that does not complete the counters changes exactly one file of the client's disk, in its current folder, and both counters |
| Effects.ShortChunkEnds | hdfs/client/client.go:254-262 | a chunk that ends early is on the disk as far as it came, is not counted, and ends the client |
| Effects.MergeTakesItsFiles | hdfs/client/client.go:425-463 | a merge that finds all its chunk files removes exactly these from the disk |
| Readers.AtMostOneReply | hdfs/nodes/storagenode.go:330-395 | per client and chunk at most one request, sleeping handler or reply is under way, and none once it has arrived |
| Cascades.CascadesEnd | hdfs/nodes/storagenode.go:107-165 | in every run from a reachable state that starts no write, read, delete or replacement, the handling steps are at most the weight of the work under way at its start plus a constant for each corrupted chunk found, whatever heartbeats, failures, corruptions, commands and restarts come in between |
| Legibility.RecordsAreLegible | hdfs/nodes/storagenode.go:215-232 | in every reachable state the metadata line of every stored chunk gives back to a heartbeat the file, chunk and path it was saved under |
| Legibility.WritesAreLegible | hdfs/nodes/storagenode.go:64-84 | every write on its way to a node in a reachable state will be recorded legibly there, checksum included |
| Legibility.OnlyWritesCarryBytes | hdfs/nodes/storagenode.go:432-462 | in every reachable state only writes carry bytes, so a handler that reads none after any other message misses none |
| Legibility.CountersAreExact | hdfs/client/client.go:258-262 | whatever chunk a client may receive in a reachable state, its byte counter stays within 2^53, as `Client.HandleChunk` assumes |
| Deleting.DeleteRemovesExactly | hdfs/nodes/storagenode.go:139-202 | after a file's deletion, once no request to delete a chunk on a node its table listed is under way or was lost since, the node has neither of the chunk's files exactly if the last message about the chunk it handled since was not a write |
| Erasures.DeleteGoesThrough | hdfs/controller/controller.go:579-616 | a run from the deletion of a chunk on three nodes to a state in which nothing of it is under way or was lost, and none of the three has either file |
| Erasures.RepairUndoesDelete | hdfs/nodes/storagenode.go:168-177 | a run in which a file is deleted while a node repairs its copy: every request to delete is handled, and then the node stores the chunk again |
| Effects.DeleteTakesAway | hdfs/nodes/storagenode.go:139-202 | a request to delete a chunk whose files are there, handled at a node that can dial all its replicas, leaves the node without them and otherwise as it was, counter aside, and one such request under way to each replica without a list of its own |
| Effects.DeleteIsRequested | hdfs/controller/controller.go:579-616 | after a deletion, each row before the first without a holder, whose first node can be dialled, has a request under way to that node that names the row's others |
| Effects.FileIsForgotten | hdfs/controller/controller.go:104-118 | a deletion that met no row without a holder takes exactly the file's chunks from the index |
| Effects.EndsExactly | hdfs/nodes/storagenode.go:432-462 | a handled message ends its node exactly if it names no replica to ask, asks for a chunk that is not there, or deletes one of which a file is missing |
| Effects.RestartFindsNothing | hdfs/controller/controller.go:791-811 | after a restart and before any heartbeat every location table is without filled rows, and a client that reads a file with chunks ends |
| Effects.DeadDisksStay | hdfs/nodes/storagenode.go:432-462 | in every run a node that went down handles nothing more: its disk changes by decay alone |
| Effects.WriteIsSent | hdfs/client/client.go:109-168 | each chunk sent is under way to the first node of the placement with its own bytes and checksum, naming the others as replicas |
| Placement.PlacementChoice | hdfs/controller/controller.go:154-180 | a new file goes to three different active nodes, or one when fewer than three are active; an unfinished draw can be ended by at most three more |
| Placement.ReplacementChoice | hdfs/controller/controller.go:225-253 | with at most two survivors and three other active nodes the loop ends only with an active node that neither failed nor survived, and can always be ended |
| Placement.BlankExactly | hdfs/controller/controller.go:239-253 | the loop can end without a new node exactly when another survivor is active and there are three survivors or fewer than three active nodes |
| Placement.ChosenExactly | hdfs/controller/controller.go:239-253 | the loop can end with a new node exactly when one is available for it, in terms of the active nodes and the survivors |
| Controller.Controller.GetStorageNodes | hdfs/controller/controller.go:154-180 | every chunk gets the same node list, the set the placement draws end with |
| Controller.Controller.GetStorageNodesForClient | hdfs/controller/controller.go:133-151 | the filled rows are the indexed chunks of the file, each once with exactly its holders, the rest of the table stays empty, and one chunk too many is fatal |
| Controller.Controller.ReplaceFailedNode | hdfs/controller/controller.go:215-297 | the failed node leaves the index through the shared holder map, the outcome is the one of the draws, and the request lists exactly the survivors |
| Controller.Controller.DropHolder | hdfs/controller/controller.go:217-231 | deleting from the aliased inner map removes one holder of one chunk from the whole index and nothing else |
| Controller.Controller.RemoveFailed | hdfs/controller/controller.go:221-231 | ranging over the holders removes the failed node and collects all others as working |
| Controller.Controller.ChooseReplacement | hdfs/controller/controller.go:240-253 | the draw loop ends as the replacement function says for every stream of draws |
| Controller.Controller.MonitorNodes | hdfs/controller/controller.go:314-329 | exactly the nodes with a late heartbeat leave the table, with what they last listed |
| Controller.Controller.GetAndSaveChunkInfoToMemory | hdfs/controller/controller.go:339-368 | a heartbeat indexes its sender under everything it lists and removes nothing |
| Effects.HeartbeatLists | hdfs/nodes/storagenode.go:235-256 | a heartbeat joins those on their way, in order, and names exactly the chunks the node has a record of, each under the file of its record |
| Effects.HeartbeatIsIndexed | hdfs/controller/controller.go:339-368 | taking in a heartbeat adds its sender to the holders of every chunk it lists and of no other, and takes no holder away |
| Controller.Controller.SaveStorageNodeInfo | hdfs/controller/controller.go:371-425 | the index gains the report, every indexed file gets a location record, and the node table remembers the report, so that both go to what the protocol's step makes of them; a name the directory refuses is fatal before the node table changes |
| Controller.Controller.GetReplicasForStorageNode | hdfs/controller/controller.go:452-467 | the message gets the chunk's holders but its sender, each once |
| Controller.Controller.SendReplicasToStorageNode | hdfs/controller/controller.go:470-494 | if the node that asked can be dialled, one message goes to it from the controller, with exactly the chunk's other indexed holders, each once; otherwise none |
| Controller.Controller.DeleteFromStorageNodes | hdfs/controller/controller.go:579-616 | one delete request for each indexed chunk of the file in the order of its map, to the first holder with the others to pass it on to, up to the first chunk without a holder, which is fatal |
| Controller.Controller.DeleteChunkFileInfo | hdfs/controller/controller.go:104-110 | the location record goes, the index forgets the file and nothing else, and a record that is not there is fatal |
| Float64.RoundRounds | hdfs/client/client.go:63-65 | the rounding used for the count is roundTiesToEven of section 4.3.1 of IEEE 754-2019 on 2^-64 to 2^65 |
| Float64.ChunkCountExact | hdfs/client/client.go:63-65 | up to 2^53 bytes the float64 divide and ceiling equal the integer ceiling for every chunk size |
| Float64.OneByteChunksExactly | hdfs/client/client.go:63-65 | with one-byte chunks the count is right exactly when the file size is a binary64 number, beyond 2^53 too |
| Float64.LastByteLost | hdfs/client/client.go:63-65 | a file of 2^53 + 1 bytes in one-byte chunks is counted one chunk short |
| Float64.ByteCountExact | hdfs/client/client.go:258-262 | the float64 byte counter is exact up to 2^53 |
| Chunking.CeilingBounds | hdfs/client/client.go:63-65 | the integer ceiling is the least number of chunks that covers the file |
| Chunking.CutsConserve | hdfs/client/client.go:121-165 | the cuts are as many as the ceiling, full but the last, the last not empty, and concatenate to the file |
| Chunking.SentPartsAreCuts | hdfs/client/client.go:121-165 | told the ceiling, the send loop with its early stop sends exactly the cuts |
| Chunking.MergeRestores | hdfs/client/client.go:425-463 | merging chunk files in index order gives the concatenation of the parts |
| Client.UploadLosesNothing | hdfs/client/client.go:82-168 | float64 count, send loop and reassembly together give back every file up to 2^53 bytes |
| Client.Client.SendFileDataToStorageNodes | hdfs/client/client.go:109-168 | the messages sent are the parts in order, each with its name, size, checksum and the main node and replicas of its own location, up to the first failed dial, or to the first missing or empty location, which is fatal; to locations all the same, as the controller hands them out, they are the messages of the state machine (`SentAsPlaced`) |
| Client.PaddedReads | hdfs/client/client.go:220-242 | reading a table as it is sent, with empty rows for chunks nobody has reported, asks for the same chunks and ends the client in the same cases as the state machine |
| Client.Client.RetrieveChunkDataFromStorageNodes | hdfs/client/client.go:208-242 | counters start over, the folder becomes the file's, the path and the disk stay, and the first holder of every row is asked once, up to the first failed dial or to the first row without a holder, which is fatal |
| Client.Client.HandleChunk | hdfs/client/client.go:245-300 | with a float64 byte counter: save in the current folder, count, and merge exactly when both counters are complete, as an integer counter would up to 2^53; a short chunk is saved as far as it came and is fatal |
| Client.Client.MergeChunks | hdfs/client/client.go:408-478 | the chunk files named after the current path in the current folder are appended in index order and removed, a missing one is fatal, and the result is kept only if its checksum is that of the file being read |
| Records.FileRecordRoundTrip | hdfs/controller/controller.go:99-100 | a saved file record reads back as it was exactly when name, checksum and folder hold no comma, colon, newline or edge whitespace and the line fits the scanner |
| Records.CleanParses | hdfs/controller/controller.go:736-761 | parsing the printed line gives back all six fields, numbers included |
| Records.FileLine | hdfs/controller/controller.go:99-100 | the text of a saved record, spelt out field by field |
| Records.ChunkChecksumRoundTrip | hdfs/nodes/storagenode.go:98-101 | a chunk's checksum reads back exactly when it holds no comma and no edge whitespace, whatever the names hold |
| Records.ChecksumReadsAs | hdfs/nodes/storagenode.go:87-104 | for all names and checksums, what is read back is decided by the checksum alone |
| Records.ChunkNamesRoundTrip | hdfs/nodes/storagenode.go:215-232 | a chunk's metadata line gives back file, chunk and path for comma-free fields without edge whitespace |
| ChunkRecords.RecordReadsExactly | hdfs/nodes/storagenode.go:215-232 | a heartbeat lists a recorded chunk as it was saved and nothing else exactly when file, chunk and path hold no comma, newline or edge whitespace and the line fits the scanner |
| ChunkRecords.GoodNameIsLegible | hdfs/nodes/storagenode.go:64-84 | chunks of a file under a permitted name have legible records in every plain directory, as long as the line fits |
| ChunkRecords.CommaIsMisread | hdfs/nodes/storagenode.go:224-226 | a heartbeat reports the first chunk of a file called "a,b" as chunk "b" of a file "a" |
| ChunkRecords.HeartbeatIsListing | hdfs/nodes/storagenode.go:235-256 | with legible records the heartbeat text lists exactly what the node stores, each chunk once, in any directory order |
| Records.ChunkNameInjective | hdfs/client/client.go:143 | chunk names never collide, even for file names that end like chunk names |
| Bloom.ProbesAreDouble | hdfs/filters/bloom_filter.go:20-30 | the probes are the remainders, modulo the number of bits, of 32-bit values that start at the text's sum and grow by its seeded sum, modulo 2^32 |
| Bloom.AbsentIsNotFound | hdfs/filters/bloom_filter.go:40-51 | with 10000 bits and 3 hashes, a text whose probes are 10, 20, 30 is not found after one whose probes are 1, 2, 3 was put in, which is |
| Bloom.BitsExactly | hdfs/filters/bloom_filter.go:32-37 | after any sequence of puts a bit is set exactly when it is a probe of some text put in |
| Bloom.FoundExactly | hdfs/filters/bloom_filter.go:40-51 | a text is found exactly when there are hashes and every probe of it is a probe of some text put in |
| Bloom.NeverMissed | hdfs/filters/bloom_filter.go:40-51 | a text that was put in is found exactly when the filter has a hash function |
| Bloom.BloomFilter.constructor | hdfs/filters/bloom_filter.go:14-17 | a new filter has no bit set |
| Bloom.BloomFilter.GetBits | hdfs/filters/bloom_filter.go:20-30 | as many probes as hashes, found by the double hashing of `ProbesAreDouble` |
| Bloom.BloomFilter.Put | hdfs/filters/bloom_filter.go:32-37 | the bits stay those of the texts put in so far, the new one included |
| Bloom.BloomFilter.Get | hdfs/filters/bloom_filter.go:40-51 | true exactly when all probes are set and there is one, hence for everything put in |
| CatalogueSpec.FilterRedundant | hdfs/controller/controller.go:634-638 | after any requests and restarts the filter and the map together decide like the map alone |
| CatalogueSpec.RestartRestoresExactly | hdfs/controller/controller.go:791-811 | a restart brings back the saved catalogue exactly when every record is clean, short enough and not named with a leading dot |
| CatalogueSpec.CatalogueIsTable | hdfs/controller/controller.go:629-693 | over any writes, deletes, reads and restarts the answers and metadata are those of one plain table of files |
| Catalogue.Catalogue.constructor | hdfs/controller/controller.go:35-37 | a controller started on an empty disk is the empty catalogue |
| Catalogue.Catalogue.HandleWrite | hdfs/controller/controller.go:632-649 | a present name is rejected without effect; otherwise map, disk and filter gain it before nodes are chosen |
| Catalogue.Catalogue.HandleDelete | hdfs/controller/controller.go:650-670 | an unknown name is not found; without a saved location record the controller stops and the file's record stays; otherwise the file is gone from map and disk |
| Catalogue.Catalogue.HandleRead | hdfs/controller/controller.go:671-692 | the metadata saved under the name, or not found |
| Catalogue.Catalogue.ReadLines | hdfs/controller/controller.go:772-781 | every scanned line adds its record to map and filter in order; a line with missing fields stops the controller |
| Catalogue.Catalogue.ReadRecord | hdfs/controller/controller.go:764-785 | one record file adds what its text parses to, or stops the controller |
| Catalogue.Catalogue.LoadData | hdfs/controller/controller.go:791-811 | map and filter are rebuilt from the record files not starting with a dot, in directory order |
| Framing.LittleRoundTrip | hdfs/messages/message_handler.go:28-40 | the little-endian length reads back |
| Framing.LittleAt | hdfs/messages/message_handler.go:28-29 | byte i of the length is the one that is left after dividing by 256 i times: the lowest comes first |
| Framing.ReceivesExactly | hdfs/messages/message_handler.go:36-54 | with a whole message and any tail on the connection, Receive consumes exactly the message if and only if its first read returned all 8 bytes, and then returns it |
| Framing.ChunkArrivesWhole | hdfs/nodes/storagenode.go:58 | for every fragmentation whose first read is complete, decoding and the copy that follows give back the chunk message with exactly its bytes |
| Framing.Conn.Read | hdfs/messages/message_handler.go:46 | one read moves a prefix of the stream into the buffer and nothing else |
| Framing.MessageHandler.Send | hdfs/messages/message_handler.go:22-34 | the length, then the message, are appended to the connection |
| Framing.MessageHandler.FillPayload | hdfs/messages/message_handler.go:44-49 | the payload is the next bytes of the stream for every fragmentation; a connection that ends early is never noticed |
| Framing.MessageHandler.Receive | hdfs/messages/message_handler.go:36-54 | the outcome and the rest of the stream for every first read, complete or short |
| Framing.MessageHandler.CopyN | hdfs/nodes/storagenode.go:58 | the copy takes exactly the announced bytes, or all there are |
| NodeSpec.Forwards | hdfs/nodes/storagenode.go:112-136 | copies go to the replicas in order up to the first that cannot be dialled |
| NodeSpec.CounterBalances | hdfs/nodes/storagenode.go:30-40 | over any messages a live node's chunk counter is the writes less the deletes, modulo 2^64 |
| StorageNode.StorageNode.SaveChunkMetadata | hdfs/nodes/storagenode.go:64-84 | the metadata file is the printed record, whatever the names and the checksum |
| StorageNode.StorageNode.GetChunkInfoFromDisk | hdfs/nodes/storagenode.go:87-104 | the message takes over the size on disk and what the recorded checksum reads back as; missing files read as empty |
| StorageNode.StorageNode.SendChunkMetadataToReplicas | hdfs/nodes/storagenode.go:107-137 | each reachable replica in order gets the stored chunk and no replica list |
| StorageNode.StorageNode.SendDeleteRequestToReplicas | hdfs/nodes/storagenode.go:139-165 | each reachable replica in order gets the delete request and no replica list |
| StorageNode.StorageNode.SaveChunkInfoToDisk | hdfs/nodes/storagenode.go:168-177 | the bytes announced, or all that came, are stored with the record the message gives; if all replicas can be dialled each is sent one copy of what was stored, in order; and the counter goes up with wrap-around |
| StorageNode.StorageNode.DeleteChunk | hdfs/nodes/storagenode.go:180-190 | metadata goes first; a missing file is fatal |
| StorageNode.StorageNode.DeleteChunkInfoFromDisk | hdfs/nodes/storagenode.go:193-202 | if one of the two files is missing the node ends; otherwise neither is left, all others are, and if all replicas can be dialled each is sent the request once, in order; the counter goes down with wrap-around |
| StorageNode.StorageNode.RequestReplicaInfoFromController | hdfs/nodes/storagenode.go:305-327 | request and sleeping handler share one message, whose sender changes only if the controller was dialled |
| StorageNode.StorageNode.SendChunkDataToClient | hdfs/nodes/storagenode.go:330-357 | the reply is a write with the chunk's bytes, to the given address |
| StorageNode.StorageNode.ServeOrSleep | hdfs/nodes/storagenode.go:360-395 | a valid chunk is answered to the remembered address; a corrupted one is requested and the handler sleeps |
| StorageNode.StorageNode.GetChunkInfoAndSendToClient | hdfs/nodes/storagenode.go:382-395 | a read is answered to its sender after validation, or put to sleep |
| StorageNode.StorageNode.RequestDataFromReplicationNode | hdfs/nodes/storagenode.go:398-429 | if the first listed replica can be dialled one read of the chunk goes to it, from this node, with the rest of the list, otherwise nothing; an empty list is fatal |
| StorageNode.StorageNode.HandleClientRequest | hdfs/nodes/storagenode.go:432-462 | for every message, disk, messages sent, sleeping handler and fatal end are those of the node function; bytes after anything but a write are not read |
| StorageNode.StorageNode.ReadFile | hdfs/nodes/storagenode.go:215-232 | the first three fields of every line; a line with fewer, or one too long for the scanner, is fatal |
| StorageNode.StorageNode.GetStoredFilesInfo | hdfs/nodes/storagenode.go:235-256 | a heartbeat lists what the metadata files not starting with a dot read as, in directory order, or ends the node; with legible records it lists every stored chunk exactly once under its own file |

## Left out

- Check-then-act gaps: handlers are atomic steps, so races between goroutines on unlocked globals, and a corruption between reading a chunk and validating it, are not captured.
- Placing a file and sending its chunks are one step of `Cluster.dfy`, and so are looking up a table and sending its requests. A message sent later is one that stays longer on the network, and a dial that fails then is one of the failures the step allows; but a command typed between a request and the controller's answer is not captured, although a /write answered after it would send the file at the newer path.
- Connections that end in the middle of a chunk: a node ignores the error of the copy (hdfs/nodes/storagenode.go:58) and stores what came. `NodeSpec.SavedBytes` and `StorageNode.SaveChunkData` have that case, the steps of `Cluster.dfy` do not.
- Reuse of a deleted name, nodes that come back after being declared dead, and failures handled with fewer than three active nodes are outside the runs of `Cluster.dfy`; `Placement.BlankExactly` says when the last of these makes the controller fail.
- Programs started again after they ended, other than the controller: a client that failed does nothing more, and a node that went down stays down.
- Agreement.IndexAgreesWithReports: claims nothing for a deleted file, because a heartbeat sent before the deletion and taken in after it puts the deleted chunks back into the index. The same holds for `Agreement.TableRowsStored` and `Agreement.EmptyRowExactly`.
- Mending.RepairReplicates: claims nothing once deletion of the file has begun. The same holds for `Mending.ReadHeals` and `Quiescence.ReplacementHolds`.
- Deleting.DeleteRemovesExactly: a write that reaches a node after its delete brings the chunk back, as `Erasures.RepairUndoesDelete` shows, so it does not say that a deleted file stays deleted.
- Readers.ReadBack: a read starts only when the client has nothing outstanding, and of a file whose deletion has not begun.
- Completion.ReadCompletes: speaks of one read, until its client starts another.
- Readers.LastChunkDecides: merged files are not among the chunk files it looks for, so a file called like a chunk of another file and kept in the same folder is not captured.
- Readers.AtMostOneReply: delivery is not claimed after a second failed repair round, because the handler then answers its own node.
- Zero-byte files: they have no chunks, so nothing triggers the merge, and the model shows that none happens. Deleting a file no chunk of which is indexed is a stop of `CatalogueSpec.DeleteStep` and not a step of `Cluster.dfy`.
- Cascades.CascadesEnd: counts steps and says nothing about time, such as the five seconds a handler sleeps.
- Controller.Controller.ReplaceFailedNode: with no active node the draw itself would panic; the model only says that the loop has not ended.
- Controller.Controller.SaveStorageNodeInfo: says which files have a location record, not what it contains, because nothing reads it back.
- Client.Client.HandleChunk: says nothing of the float64 counter beyond 2^53, where it is no longer exact.
- Client.Client.SendFileDataToStorageNodes: a negative chunk size, which the client accepts and for which it cannot make its buffer, is not modelled.
- Client.Client.MergeChunks: how a file name is got from a path is a parameter, so two paths with the same name are the same file.
- CatalogueSpec.CatalogueIsTable: names are those the file system can create and hold no path separator, so that different names are different files.
- Framing.MessageHandler.Receive: a payload too large to allocate is not modelled.
- Text lengths are counted in characters, not bytes, and addresses are whole texts: splitting them at the colon for dialling is not modelled.
- Available space, request totals and file extensions, which nothing in the protocol reads back.
- Listing nodes and folders, reading console input, logging and the shell scripts.
- Sockets, timers, SHA-256, murmur3 and protobuf encoding themselves.
