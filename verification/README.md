# Minnal's vector index, verified

A Dafny model of how Minnal keeps a semantic-search index without
transactions, and proofs of what it promises about it. It covers one
namespace's documents, embedding queue, vector namespaces, partition and
maintenance journal; the clients, the vector worker and partition maintenance
that write them; and crashes at any write.

## How it is modelled

`Store.Index` is the store: an object whose methods update fields, as the
source's functions update namespaces. Every write is preceded by a crash point,
as in the crash audit: `budget` of them are let through before the process is
killed, or, with none given, it is not killed. `Crashed` is what a method returns
when the process dies there, and every contract says that it does so only if its
budget is used up (`Spent`): a process that is not killed completes.

- **Two logs.** `log` holds every state of the vector namespaces a crash could
  leave now, one for each surviving prefix of the vector index WAL, the present
  one last. A logged write adds a state; a durable write changes all of them; a
  sync leaves one. Queue removals skip the WAL: `lost` remembers them, and a
  crash may bring any of them back.
- **Safe** is the invariant of every write. In every state a crash could leave:
  the journal has one of the shapes an operation goes through, the stored
  postings and centres fit its step, each document's keys lie under live
  postings and are listed by its meta (except under a posting an operation in
  state `Copied` is emptying), a document not queued has exactly its text's
  vectors, and a document maintenance alone has touched holds what it held.
- **Others run** at `Yield`: before each batch, after a publication and at each
  epoch barrier, any number of client requests and worker turns, any of which may
  die part way. A worker that entered the routing epoch before a publication
  routes by the snapshot before it (`entered`) until the publication has waited it
  out. During recovery no one runs.
- **Marks** of postings that cannot be split or merged are true: 2-means refused
  the chunks the posting held in the partition `refused` records, or it found no
  room in the one `declined` records.
- **Effects** of a drain and of a reassignment on a document are stated chunk by
  chunk: how many copies end under each posting, when no one else writes.
- **Recovery** is a reload of what survived followed by `RecoverLocked`; `Recovered`
  says what it makes of the documents, whatever stage the journal is in.
- **Requests** are taken in order; `Answered` says the documents are what those taken
  leave, and how many were cut short by a kill.
- **LIRE**, what moving chunks is for, is stated by distances alone: a chunk under an
  active posting none is nearer than is still so after a merge, after a split if it is
  in the postings the reassignment looks through, and so through whole runs.
- Codes are opaque up to bit equality; distances are real; embedding, encoding,
  2-means and reconstruction are uninterpreted functions.

The files follow the source: `Vectors`, `Counts`, `Queue`, `Partition` and
`Geometry` define the state and its rules, `Neighbours` which postings are
nearest, `Marks` what maintenance remembers, `Requests` what clients ask for;
`Store` holds the vector and queue writes of `vector_kv.rs` and the clients and
worker that make them; `Steps`, `Publishing`, `Copying`, `Draining`,
`Shrinking`, `Effects`, `Reassigning`, `Protocol`, `Maintenance` and `Recovery`
the maintenance of `ivf_split.rs`; `Lire` what maintenance is for; `Loading`
reopens a partition; `Worker` and `Runs` state what holds of whole runs;
`Epoch`, `Stripes`, `PrefixRange`, `Hashing` and the codecs stand on their own.

Where the code does not meet a promise on every input, the lemma says exactly
when it does: `Counts.AgreesIffNeverShort` (deltas landing out of order),
`Store.UpsertIsExactIff` (no whole-document code), `Marks.StillNoRoomIff` (a mark
that outlives its reason), and the `RoundTripIff` lemmas of the codecs.

## Model

| member | source | states |
|---|---|---|
| `Runs.MaintainThroughCrashes` | minnal_db/src/ivf_split.rs:25-82 | Maintenance with clients and worker running, killed before any write, and again before any write of each recovery: every document no request names holds exactly the hash, chunks and whole-document code it held, in every state a crash could still leave; the documents are what the requests taken leave, in order, but perhaps for one being served when the process was killed; ids are never reused; if the first process or one restart is not killed it ends with an empty journal and nothing draining, and the first, unless stopped, at a fixpoint or at the cap |
| `Runs.Run` | minnal_db/src/ivf_split.rs:67-76 | Every history of client requests, worker turns, maintenance, kills at any write and restarts keeps `Safe` (queue-first, meta lists keys, journal shape), never ends corrupt, and stores no id for two different objects; through all of it every document no request names keeps exactly what it held; the requests taken are the first of those that arrived, and the documents what they leave, in order, but for at most one cut short by each process killed; a history that ends with a restart that is not killed ends recovered |
| `Runs.Restart` | minnal_db/src/ivf_split.rs:595-625 | A restart from any surviving log prefix and any subset of lost queue removals recovers to rest, unless it is killed too, and dies only where it is killed; of what survived it makes exactly what the journal's operation stands for, stage by stage, and with an empty journal nothing; always safe, touching no document and no kept content |
| `Runs.RestartUntilRecovered` | minnal_db/src/ivf_split.rs:1146-1165 | Through any list of crashes during recovery itself one restart that is not killed is enough; no document, request or kept content is touched |
| `Runs.RestartAndMaintain` | minnal_db/src/ivf_split.rs:767-837 | After a restart that is not killed, maintenance that is not stopped ends with nothing left to split or merge, every refusal by 2-means and every want of room found by that process in a partition it went through, or at the cap |
| `Runs.QueueFirst` | minnal_db/src/vector_kv.rs:47-59 | In every state a crash may leave, a document that is not queued has exactly its text's vectors, none if it has no text |
| `Runs.EmptyQueueIsFunctionOfDocuments` | minnal_db/src/vector_kv.rs:47-59 | With the queue empty the index is a function of the documents: two stores with the same documents agree |
| `Runs.MetaListsEveryKey` | minnal_db/src/ivf_split.rs:53-58 | Every stored key is listed by its document's meta, except under a posting whose drain, or whose reassignment's scope, is in the journal in state `Copied`; and lies under a posting that is not retired |
| `Runs.NothingNamesPlannedChildren` | minnal_db/src/ivf_split.rs:59-61 | While the journal has a split in state `Planned` no key and no meta names its children |
| `Runs.JournalStaysSmall` | minnal_db/src/ivf_split.rs:984-1005 | Two records at most: a split and its own reassignment, so one reassignment per parent at every crash point |
| `Runs.Step` | minnal_db/src/ivf_split.rs:67-76 | One event keeps the store safe and the content of documents its requests do not name, and leaves the documents the requests taken leave, but for one cut short if the process is killed; a process that is not killed goes on |
| `Worker.DrainQueue` | minnal_db/src/vector_kv.rs:3792-3814 | With no client writes two passes empty the queue, unless the process is killed, and every document then has exactly its text's vectors in every state a crash may leave |
| `Worker.TwoPassesEmpty` | minnal_db/src/vector_kv.rs:1066-1130 | The first pass leaves only entries that did not describe their documents, rewritten once; the second leaves none |
| `Worker.Pass` | minnal_db/src/doc_store/vec_index_worker.rs:560-575 | One pass, if not killed, applies to each queued entry exactly the worker's turn and touches no other |
| `Worker.RestartAndDrain` | minnal_db/src/vector_kv.rs:3712-4015 | From any crash, reload, recovery and draining repair the index, unless that process is killed too: what the crash audit checks, for every run |
| `Queue.UpdatesLeaveOthersAlone` | minnal_db/src/vector_kv.rs:1066-1130 | No conditional update removes or overwrites an entry asking for another kind or text; only a check that finds the document different rewrites one, to what the document asks |
| `Queue.FailCounts` | minnal_db/src/vector_kv.rs:1195-1219 | A failure adds one to the retry count and stores the error, on the entry it was made with; on any other it changes nothing and reports no count |
| `Queue.CompleteRemovesIff` | minnal_db/src/vector_kv.rs:1108-1130 | Completing removes an entry exactly if it asks for what the one carried out did; what is found instead, a tombstone or a newer embed, is told apart |
| `Queue.ResetForgetsFailures` | minnal_db/src/vector_kv.rs:1295-1312 | An admin's retry clears the count and the error and nothing else |
| `Queue.Turn` | minnal_db/src/vector_kv.rs:1240-1269 | What a worker's turn leaves of an entry describes the document |
| `Hashing.OneByteTellsApart` | minnal_db/src/vector_kv.rs:387-395 | Texts that differ in one byte never hash the same |
| `Hashing.KnownHashes` | minnal_db/src/vector_kv.rs:2557-2563 | The hash of the empty text and of `a` are the values the format is pinned to |
| `Store.Index.constructor` | minnal_db/src/vector_kv.rs:1403-1429 | A fresh namespace (root posting at the zero centre, no documents) satisfies every invariant |
| `Store.Index.UpsertVectors` | minnal_db/src/vector_kv.rs:499-583 | Stale keys deleted, then the meta, then keys and dense code, safe at each write; the new record, groups and delta are the text's; an empty list changes nothing |
| `Store.UpsertIsExactIff` | minnal_db/src/vector_kv.rs:499-583 | An upsert leaves exactly the text's vectors if and only if its chunk codes represent the chunks and a whole-document code was written now or the right one was held before |
| `Store.Index.DeleteVector` | minnal_db/src/vector_kv.rs:642-666 | Every listed key, the meta and the dense code are gone in every crash survivor; the delta removes what the meta listed |
| `Store.Index.ClearVectors` | minnal_db/src/vector_kv.rs:1279-1286 | Tombstone first, then the vectors: gone in every survivor; counts stay equal to a recount |
| `Store.Index.CompleteEntry` | minnal_db/src/vector_kv.rs:1108-1130 | Removes the entry only if it is still the one completed; anything else in the queue is untouched |
| `Store.Index.CompleteEmbed` | minnal_db/src/vector_kv.rs:1165-1177 | A tombstone found instead takes what was just written with it, and the tombstone; otherwise no vector changes, and the entry goes exactly if it is still the one carried out |
| `Store.Index.ProcessClear` | minnal_db/src/vector_kv.rs:1179-1190 | The document's vectors are gone before the tombstone is completed |
| `Store.Index.FinishEmbed` | minnal_db/src/vector_kv.rs:1132-1142 | Write, sync, then complete: safe at each write, keys only under routed postings, the delta accounts for the change |
| `Store.Index.CheckEntry` | minnal_db/src/vector_kv.rs:1240-1269 | The stored entry becomes what the specification of the check says, others unchanged |
| `Store.Index.EmbedText` | minnal_db/src/doc_store/vec_index_worker.rs:605-622 | One whole-document code, then one code per chunk in order, each encoded against the centre of a nearest active posting of the writer's snapshot and filed there |
| `Store.Index.Route` | minnal_db/src/semantic_search/cluster/mod.rs:412-424 | A chunk is routed to an active posting none is nearer than, by its routing centroid; the scan meets them in no particular order, so on a tie to any of them |
| `Store.Index.Put` | minnal_db/src/doc_store/store/docs.rs:43-80 | Queue entry first, then the document |
| `Store.Index.Delete` | minnal_db/src/doc_store/store/docs.rs:118-140 | Tombstone and vectors first, then the document |
| `Store.Index.PutWithoutText` | minnal_db/src/doc_store/store/vector.rs:412-421 | A document without embedding text clears its vectors and leaves a tombstone exactly if it is queued, has a meta or a whole-document code; the document goes last |
| `Store.Index.Work` | minnal_db/src/doc_store/vec_index_worker.rs:576-647 | One turn, with clients running before and after the check, by the current snapshot or, if late, by the one before: no entry of another document changes; alone, the entry becomes what the turn specifies |
| `Store.Index.Serve` | minnal_db/src/vector_kv.rs:926-936 | Each request, served, leaves exactly what it asks for: a put its text and an entry to embed it, a delete no document, no vectors and a tombstone, a put without text no document and, if it had vector state, neither vectors, a re-index only an entry; nothing of another document changes; cut short, the document is as it was |
| `Store.Index.Yield` | minnal_db/src/ivf_split.rs:53-58 | Others' writes at a yield keep every invariant and route only to active postings of the snapshot they entered by; the requests taken are the first, and the documents exactly what they leave, in order; nothing is taken while recovery is needed |
| `Store.Index.TakeRequest` | minnal_db/src/ivf_split.rs:53-58 | One request taken is the next, and leaves what it asks for; a worker's turn leaves the documents what the clients served meanwhile leave |
| `Requests.AnsweredCompose` | minnal_db/src/ivf_split.rs:53-58 | Serving some requests and then more is serving them all, in order |
| `Vectors.DurableKeeps` | minnal_db/src/ivf_split.rs:40-46 | A durable write that keeps a document good in every surviving prefix keeps the store good |
| `Vectors.LoggedKeeps` | minnal_db/src/ivf_split.rs:40-46 | A logged write need only be good on top of everything logged before it |
| `Vectors.CrashKeeps` | minnal_db/README.md:379 | Whatever prefix survives, every document is still good |
| `Counts.ApplyIsExactIff` | minnal_db/src/semantic_search/cluster/layout.rs:299-313 | Applying one delta is exact for a posting if and only if the table and the additions cover the removals; otherwise it saturates |
| `Counts.LandedExactlyIff` | minnal_db/src/semantic_search/cluster/layout.rs:299-313 | Deltas landing in any order never count too little, and count exactly what they add and remove together if and only if none lands short of what it removes |
| `Counts.AgreesIffNeverShort` | minnal_db/src/semantic_search/cluster/layout.rs:224-248 | If the deltas together account for a change, the table agrees with a recount once all have landed if and only if none landed short; otherwise some posting counts too many |
| `Counts.InOrderNeverShort` | minnal_db/src/semantic_search/cluster/layout.rs:224-248 | Deltas that land in the order of their writes are never short, and leave the table equal to a recount |
| `Counts.ApplyKeepsAgreement` | minnal_db/src/semantic_search/cluster/layout.rs:224-248 | A delta that accounts for a change keeps the table equal to a recount, nothing saturating |
| `Counts.RecordAccounts` | minnal_db/src/vector_kv.rs:537-557 | A delta between one document's two records accounts for the change of every posting's recount |
| `Counts.RecountAnyOrder` | minnal_db/src/vector_kv.rs:1485-1511 | The recount does not depend on the order records are scanned in |
| `Counts.OutOfOrderDeltasDrift` | minnal_db/src/semantic_search/cluster/layout.rs:299-313 | Two deltas applied out of order: the later lands short, and the posting is counted for ever |
| `Loading.CountPostings` | minnal_db/src/vector_kv.rs:1485-1511 | The paged scan counts exactly what the recount specifies |
| `Codes.MatchedWith` | minnal_db/src/ivf_split.rs:480-501 | The loop over shared flags computes the matching specification and its claims |
| `Codes.Matched` | minnal_db/src/ivf_split.rs:474-479 | Matching with fresh flags |
| `Codes.MatchingIsMaximal` | minnal_db/src/ivf_split.rs:480-501 | In every class of equal codes the matching pairs the smaller of wanted and unclaimed, and claims exactly those |
| `Codes.SharedClaims` | minnal_db/src/ivf_split.rs:480-501 | Calls that share flags decide as one call on the joined lists, so no copy is claimed twice |
| `Codes.MergedIsMultisetMaximum` | minnal_db/src/ivf_split.rs:656-666 | A destination ends with the larger of held and moving copies of each class |
| `Codes.RedoneCopyAddsNothing` | minnal_db/src/ivf_split.rs:656-666 | Redoing a copy adds nothing |
| `Codes.MergedHolds` | minnal_db/src/ivf_split.rs:656-666 | A destination holds exactly the chunks of both lists |
| `Codes.SameCodeIsSameChunk` | minnal_db/src/ivf_split.rs:469-478 | Equality up to the posting is equality of the chunk |
| `Codes.Group` | minnal_db/src/vector_kv.rs:533-536 | Each group is exactly the codes of its posting, in order, and none is empty |
| `Geometry.FindNearest` | minnal_db/src/ivf_split.rs:447-459 | The loop returns the first of the nearest candidates |
| `Geometry.NearestIsFirstLeast` | minnal_db/src/ivf_split.rs:447-459 | `nearest` is a least candidate, on a tie the first |
| `Geometry.DestinationIsATarget` | minnal_db/src/ivf_split.rs:520-549 | A rule sends a chunk only to its targets |
| `Geometry.MergeNeverGoesFarther` | minnal_db/src/ivf_split.rs:534-545 | A merge keeps a chunk or sends it to its nearest active posting, strictly nearer than the kept centre |
| `Geometry.RebuildGoesToNearest` | minnal_db/src/ivf_split.rs:546-549 | A rebuild sends a chunk to a nearest new posting, the first on a tie |
| `Geometry.NeighboursAreTheLeast` | minnal_db/src/ivf_split.rs:461-468 | `neighbours` returns exactly the n least by distance, then id, in order |
| `Copying.CopyDoc` | minnal_db/src/ivf_split.rs:1060-1075 | Under its lock each chunk of a document's drained key ends where the rule sends it, safe at each write |
| `Copying.CopyKey` | minnal_db/src/ivf_split.rs:688-694 | A destination key becomes its multiset maximum with what moves, written only if something is missing |
| `Copying.ListDestinations` | minnal_db/src/ivf_split.rs:670-687 | Every destination is listed, and the delta accounts for the relisting |
| `Copying.CopyBatch` | minnal_db/src/ivf_split.rs:629-704 | A synced batch: one survivor, counts equal to a recount, other documents untouched, the batch placed |
| `Copying.DrainCopy` | minnal_db/src/ivf_split.rs:1049-1080 | Whatever others did between the batches, in every survivor each chunk still under the drained posting is also where the rule sends it; with no one else about every document is exactly its copy |
| `Copying.GainedIsPlaced` | minnal_db/src/ivf_split.rs:656-700 | Once a document has gained what its drained key was to give, each of that key's chunks is where the rule sends it |
| `Copying.PlacedIsCovered` | minnal_db/src/ivf_split.rs:49-69 | A chunk that is where the rule sends it is under another posting than the drained one |
| `Copying.CopyInto` | minnal_db/src/ivf_split.rs:636-704 | One document's copy, exactly: each destination holds the multiset maximum and is listed at its size, nothing else changes, and the delta accounts for it |
| `Draining.DeleteDoc` | minnal_db/src/ivf_split.rs:1099-1125 | Meta first, then key: safe between the two; the document loses exactly that key and its listing; counts stay equal to a recount |
| `Draining.DeleteBatch` | minnal_db/src/ivf_split.rs:1099-1127 | A synced batch of deletes |
| `Draining.DrainDelete` | minnal_db/src/ivf_split.rs:1084-1130 | No survivor keeps a key under the drained posting; the second pass finds none; with no one else about every document loses exactly that key and its listing |
| `Draining.UnlistRemovesOne` | minnal_db/src/ivf_split.rs:1109-1121 | Removing the first listing keeps every other posting listed, and its delta is exact |
| `Protocol.RuleExists` | minnal_db/src/ivf_split.rs:1015-1044 | A published drain's rule exists and sends no chunk to the drained posting or to one not live; which chunks it sends where, `HalvesTakeTheNearer` and `Lire.MergeTakesTheNearest` say |
| `Protocol.CopyPhase` | minnal_db/src/ivf_split.rs:961-972 | `Copied` is recorded only when every chunk is durably elsewhere |
| `Protocol.Barrier` | minnal_db/src/ivf_split.rs:966-971 | The sync before the record keeps every document covered |
| `Protocol.DeletePhase` | minnal_db/src/ivf_split.rs:973-983 | After the epoch barrier the originals go and the posting is retired and published |
| `Protocol.Retire` | minnal_db/src/ivf_split.rs:976-983 | A posting is retired only when no survivor has a key under it, and writers waited out by its publication file none |
| `Protocol.RecordReassign` | minnal_db/src/ivf_split.rs:985-1003 | A recorded reassignment is found and never recorded twice |
| `Protocol.FoundIfRecorded` | minnal_db/src/ivf_split.rs:988-1002 | Searching the journal finds the split's own reassignment exactly if there is one |
| `Protocol.FinishDrain` | minnal_db/src/ivf_split.rs:953-1012 | From `Published` or `Copied`, wherever recovery finds it, a drain ends with an empty journal and exactly its posting retired; with no one else about, of each chunk every document has the larger of what was where the rule sends it and what came, none under the drained posting, elsewhere what it had, and after a split the reassignment's effect on that |
| `Protocol.MoveOut` | minnal_db/src/ivf_split.rs:953-983 | The drain without its follow-up: every document drained, chunk by chunk, and the posting retired with no key left |
| `Protocol.RehomeAfter` | minnal_db/src/ivf_split.rs:984-1003 | The split's record goes once its reassignment is recorded, and that is run as planned |
| `Effects.CopiedThenEmptied` | minnal_db/src/ivf_split.rs:49-69 | A copy and then a delete move every copy of each chunk to its destination, keep the larger number there, and touch nothing else |
| `Effects.MovedThenShrunken` | minnal_db/src/ivf_split/reassign.rs:272-368 | A move and then a shrink leave no source a chunk that moves, give its home the larger of what was there and what all sources had together, and touch nothing else |
| `Geometry.MovesHome` | minnal_db/src/ivf_split/reassign.rs:215-246 | A chunk moves only to its nearest active posting, strictly nearer, and a copy there never moves away; exactly which move, `Lire.MovesIff` says |
| `Protocol.ScopeIsNearest` | minnal_db/src/ivf_split/reassign.rs:36-54 | The scope is the halves and exactly the other active postings before which, around the old centre, come fewer than the range, by distance and then id; each once; the record names the split's posting, its centre and its halves |
| `Geometry.NeighboursDiffer` | minnal_db/src/ivf_split.rs:461-468 | Neighbours of different candidates are different candidates |
| `Neighbours.NeighboursInOrder` | minnal_db/src/ivf_split.rs:461-468 | Neighbours come by distance, then id, and none before one of them is left out |
| `Neighbours.NeighbourIffFewCloser` | minnal_db/src/ivf_split.rs:461-468 | A candidate is among the n nearest exactly if fewer than n come before it |
| `Reassigning.SourcesAreActive` | minnal_db/src/ivf_split/reassign.rs:288-292 | A scope's sources are its active postings, every one, with their centres |
| `Reassigning.MovesExist` | minnal_db/src/ivf_split/reassign.rs:195-212 | Every centre a recorded reassignment names is known, its sources differ, and it moves chunks only to active postings |
| `Reassigning.MoveDoc` | minnal_db/src/ivf_split/reassign.rs:310-341 | A document's moving chunks are copied home, exactly, safe at each write |
| `Reassigning.MoveBatch` | minnal_db/src/ivf_split/reassign.rs:309-342 | A synced batch of moves: every document of it has its moving chunks copied home, no other changes, counts equal to a recount |
| `Reassigning.MayRecordMoved` | minnal_db/src/ivf_split/reassign.rs:347-353 | Once `Copied` is recorded sources may be unlisted: nothing is yet |
| `Shrinking.ClaimCounts` | minnal_db/src/ivf_split.rs:480-501 | A claim succeeds exactly if a copy is free where the chunk moves to, and takes only that one |
| `Shrinking.TakeEntry` | minnal_db/src/ivf_split/reassign.rs:480-493 | Of each moving chunk a source gives up the smaller of what it holds and what is unclaimed at home; the rest remain |
| `Shrinking.PlanShrink` | minnal_db/src/ivf_split/reassign.rs:442-494 | Sources in order share the claims: together they keep exactly what exceeds the copies at home, and every source that is leaving is emptied |
| `Shrinking.Relist` | minnal_db/src/ivf_split/reassign.rs:507-522 | The delta accounts for the relisting, and only emptied sources are unlisted |
| `Shrinking.UnlistIsAllowed` | minnal_db/src/ivf_split/reassign.rs:499-529 | The meta's write unlists only sources a redo would empty |
| `Shrinking.RewriteIsAllowed` | minnal_db/src/ivf_split/reassign.rs:530-538 | Rewriting one source's key loses no chunk of the document, and a redo still empties every unlisted source |
| `Shrinking.HomesStay` | minnal_db/src/ivf_split/reassign.rs:215-246 | Shrinking a source leaves the copies chunks move to where they are |
| `Shrinking.ShrinkDoc` | minnal_db/src/ivf_split/reassign.rs:419-541 | Sources give up, of each moving chunk, exactly as many copies as are at home; every other chunk stays under its source and other postings are untouched; the meta then lists every key; safe at each write |
| `Reassigning.UnselectedIsListed` | minnal_db/src/ivf_split/reassign.rs:370-413 | A redo selects every document with an unlisted key |
| `Reassigning.ShrinkSources` | minnal_db/src/ivf_split/reassign.rs:354-365 | After the shrinks no key is unlisted; with no one else about every selected document's sources have given up exactly the moving copies that are at home |
| `Reassigning.RunReassign` | minnal_db/src/ivf_split/reassign.rs:272-368 | From `Planned` or `Copied`, wherever recovery finds it, a reassignment that is not killed ends with an empty journal and every invariant; with no one else about every document is rehomed from `Planned`, shrunken from `Copied`, where which chunks move is what `Lire.MovesIff` says |
| `Lire.MovesIff` | minnal_db/src/ivf_split/reassign.rs:205-246 | Exactly which chunks a reassignment moves and where, by distances and by how far the code's error lets each comparison be off: in a half, if the old centre beats the half's; elsewhere, if the nearer half beats the old centre and its own; and then to the nearest active posting if that beats its own; one that cannot be reconstructed stays |
| `Lire.NoneLeftBehind` | minnal_db/src/ivf_split/reassign.rs:205-246 | With the gate off, a chunk of a source filed under the nearest before the split that is let stay is under an active posting none is nearer than |
| `Lire.RehomedLeavesNoneBehind` | minnal_db/src/ivf_split/reassign.rs:272-368 | So after a reassignment every copy under a source is under an active posting none is nearer than |
| `Lire.SplitLeavesNoneBehind` | minnal_db/src/ivf_split/reassign.rs:1-35 | A split, its reassignment run, leaves no chunk in reach behind: if every copy was under an active posting none is nearer than, every copy in the halves and in the postings the reassignment looks through is again |
| `Lire.MergeTakesTheNearest` | minnal_db/src/ivf_split.rs:536-545 | A merge takes a drained chunk to the nearest other active posting exactly if the drained centre beats the kept one and that posting's does too, to the kept one otherwise; every posting's copies afterwards |
| `Lire.MergeLeavesNoneBehind` | minnal_db/src/ivf_split.rs:1023-1044 | With the gate off a merge leaves no chunk behind: every copy under an active posting none is nearer than still is under one |
| `Lire.MaintenanceLeavesNoneBehind` | minnal_db/src/ivf_split.rs:767-837 | Whole runs of maintenance: with the gate off, no one else writing and a range that takes in every active posting, every copy that was under an active posting none is nearer than is so in every partition on the way, and in the last |
| `Publishing.EvolvesToStored` | minnal_db/src/semantic_search/cluster/layout.rs:613-638 | Evolving the snapshot by what was written yields exactly what is stored, passing every check |
| `Publishing.Publish` | minnal_db/src/semantic_search/cluster/layout.rs:1001-1007 | The installed snapshot is what is stored, those inside are waited out while they and others write, and on return nobody routes by an older snapshot; marks stay true |
| `Publishing.Replace` | minnal_db/src/semantic_search/cluster/layout.rs:1001-1007 | The next snapshot is exactly what is stored; marks of postings no longer active are dropped, the others kept |
| `Publishing.WaitOut` | minnal_db/src/semantic_search/cluster/layout.rs:868-890 | Writers that entered by the snapshot before may still file under its active postings until the wait ends; afterwards none does |
| `Partition.SoundPartsLoad` | minnal_db/src/semantic_search/cluster/layout.rs:552-604 | Sound stored parts load as themselves |
| `Partition.LoadedPartsAreSound` | minnal_db/src/semantic_search/cluster/layout.rs:552-604 | Whatever parts load, every posting's centre is known, a live one has its centroid, some posting is live, and nothing else is changed |
| `Partition.ActiveCentresAreAll` | minnal_db/src/semantic_search/cluster/layout.rs:703-712 | Every active posting with a known centre is there, once, in id order |
| `Partition.NextOpId` | minnal_db/src/ivf_split.rs:339-343 | A new operation's id is above every unfinished one's |
| `Partition.AscendingAscends` | minnal_db/src/ivf_split.rs:320-337 | Scans are in key order |
| `Recovery.Abandon` | minnal_db/src/ivf_split.rs:1170-1221 | An unpublished drain ends with exactly its children retired and its posting active, writing no vector, from wherever a cut left it |
| `Recovery.RestoredIs` | minnal_db/src/ivf_split.rs:1170-1221 | An abandoned drain's posting is active again, the children a split stored retired without a centroid, every other posting as it was |
| `Recovery.RecoverOne` | minnal_db/src/ivf_split.rs:1155-1160 | Each stage of each operation leaves the journal empty, and makes of every document exactly what it stands for: a reassignment planned is run, one copied shrinks its sources; a drain never published changes none, one published is carried out, of one copied the originals go, and after a split the reassignment recorded, or planned now, is run |
| `Recovery.RecoverLocked` | minnal_db/src/ivf_split.rs:1146-1165 | Recovery terminates, and ends at rest unless it is killed; it makes of the documents and postings what the journal's operation stands for, and with an empty journal nothing; it never meets a record twice, reuses no id, changes no document and no content |
| `Recovery.OldestIsFirst` | minnal_db/src/ivf_split.rs:320-337 | The oldest record is the operation to finish first |
| `Recovery.Reload` | minnal_db/src/vector_kv.rs:1460-1479 | What survived is reloaded whole: snapshot equal to what is stored, counts equal to a recount, the queue with the removals that did not survive, the newer entry where there is one |
| `Maintenance.SplitLocked` | minnal_db/src/ivf_split.rs:839-929 | Divided exactly if active, over the limit by its stored chunks, not marked at that size, and 2-means yields halves both above the merge limit; not needed exactly if not active or within the limit. Not divided changes only marks; divided, exactly two centres and two halves are added under fresh ids and the posting retired, and with no one else about each chunk goes to the nearer half, and from there or from a posting around home |
| `Lire.SplitParts` | minnal_db/src/ivf_split.rs:889-929 | What a split leaves of the partition, posting by posting and centre by centre: ids above all in use, each half active with its own centre to route by, the posting retired without one, the rest as it was |
| `Maintenance.HalvesTakeTheNearer` | minnal_db/src/ivf_split.rs:520-533 | After a split's drain the posting's copies of a chunk are in the half nearer to it, the first on a tie or if it cannot be reconstructed, and no other posting has more or fewer than before |
| `Maintenance.PrepareSplit` | minnal_db/src/ivf_split.rs:892-926 | Record, centres, children, parent: safe at each write, fresh ids, nothing published |
| `Maintenance.FreshChildren` | minnal_db/src/ivf_split.rs:885-887 | Ids from `max_ids` are stored for nothing yet |
| `Maintenance.PublishDrain` | minnal_db/src/ivf_split.rs:936-949 | Recorded first, then installed |
| `Maintenance.MergeLocked` | minnal_db/src/ivf_split/merge.rs:22-67 | A merge is made exactly if the posting is active, at or under the limit, not marked, and some near posting has room; not made changes only marks. Its partner is the first with room: every active posting before it around the posting's centre is too large; the smaller of the two is retired, the posting itself on a tie, and with no one else about each of its chunks goes where the merge rule sends it |
| `Marks.CandidateIffFewCloser` | minnal_db/src/ivf_split/merge.rs:40-48 | A posting is a merge candidate exactly if it is another active one and fewer than 64 of those come before it, by distance and then id |
| `Marks.FirstIsClosest` | minnal_db/src/ivf_split/merge.rs:45-51 | The partner found is the first with room: every active posting before it is too large |
| `Marks.StoredCodesAnyOrder` | minnal_db/src/ivf_split.rs:850-856 | Of each chunk a posting's stored codes have as many copies as its documents together, any counted first |
| `Marks.StillNoRoomIff` | minnal_db/src/semantic_search/cluster/layout.rs:975-984 | Whatever splits and merges came between, a posting that found no room still has none if and only if none of those near it now has room that were not near it, or have shrunk, since |
| `Maintenance.RoomOnlyIfChanged` | minnal_db/src/ivf_split.rs:808-826 | At the fixpoint a posting at or under the merge limit has no room, unless a posting has come near it or shrunk since it was declined: exactly then |
| `Maintenance.MarkOutlivesItsReason` | minnal_db/src/semantic_search/cluster/layout.rs:975-984 | A mark stands while its own posting's size does, though a full neighbour has been split into halves with room: the concrete case |
| `Maintenance.MaintainLocked` | minnal_db/src/ivf_split.rs:767-837 | The loop ends: finished, capped or, only if asked, stopped. The partitions it goes through, each with sizes equal to a recount, are each exactly one split or merge away from the one before, by the centres 2-means yields or for a posting that fits, and with no one else writing its documents exactly what that makes of them. Finished, every active posting is within the limits, or 2-means refused the chunks it held, or it found no room, when it had this size, in a partition gone through or known before |
| `Maintenance.Round` | minnal_db/src/ivf_split.rs:783-833 | A round that makes nothing leaves no split and no merge to make; what it makes first is a split of the largest posting that can be split, or, if none can, a merge for the smallest posting for which one can be made; a round follows the same path |
| `Maintenance.SplitLargest` | minnal_db/src/ivf_split.rs:783-804 | The first split of a pass is of the largest posting that can be split: every larger active one is within the limit, or was refused at its size |
| `Maintenance.MergeSmallest` | minnal_db/src/ivf_split.rs:805-833 | The first merge of a pass is for the smallest posting for which one can be made |
| `Maintenance.SortKeepsAll` | minnal_db/src/ivf_split.rs:797-817 | Ordering by size loses no posting |
| `Maintenance.SmallestFirstAscends` | minnal_db/src/ivf_split.rs:797-817 | Splits go largest first, merges smallest first, then by id |
| `Maintenance.SplitRetiresOne` | minnal_db/src/ivf_split.rs:892-926 | A split retires one posting and adds two that are not |
| `Epoch.NoSearchMissesAChunk` | minnal_db/src/ivf_split.rs:40-66 | In every run of a drain or a reassignment, a search that scans its postings in any order, begun before or during the run, has seen every moving chunk of every document |
| `Epoch.StepKeepsInv` | minnal_db/src/ivf_split.rs:961-974 | Every chunk is one a search has seen, or one it has yet to come to where it will still be |
| `Epoch.WithoutTheBarrierAChunkIsMissed` | minnal_db/src/ivf_split.rs:62-66 | Passing the barrier without waiting, a run loses any chunk, whatever its source and destination: every other step is enabled, and the search leaves without having seen it |
| `Epoch.Grace.StartWait` | minnal_db/src/semantic_search/cluster/layout.rs:868-890 | Everyone inside is of the barrier's generation or before |
| `Epoch.Grace.IsOver` | minnal_db/src/semantic_search/cluster/layout.rs:868-890 | The barrier is over exactly when no one who was inside when it began still is |
| `Epoch.Grace.Enter` | minnal_db/src/semantic_search/cluster/layout.rs:860-866 | A reader registers in the current generation |
| `Epoch.Grace.Leave` | minnal_db/src/semantic_search/cluster/layout.rs:844-858 | A reader leaves the generation it entered in |
| `Stripes.NeverDeadlocked` | minnal_db/src/vector_kv.rs:606-636 | Whatever tasks hold and wait for, some task can proceed |
| `Stripes.HoldersShareNoDocument` | minnal_db/src/vector_kv.rs:591-612 | Two tasks holding all their stripes never share a document |
| `Stripes.StripesToTake` | minnal_db/src/vector_kv.rs:625-636 | Exactly the documents' stripes, strictly ascending |
| `Stripes.Dedup` | minnal_db/src/vector_kv.rs:630-631 | Strictly ascending with the same members |
| `Stripes.RunAll` | minnal_db/src/vector_kv.rs:606-636 | Running all tasks, choosing any that can proceed, ends with every task finished |
| `Stripes.EveryScheduleFinishes` | minnal_db/src/vector_kv.rs:606-636 | However the next task is chosen, a schedule takes no more steps than there are stripes and ends to take, and it can stop only when all tasks have finished |
| `Stripes.ProceedKeepsValid` | minnal_db/src/vector_kv.rs:606-636 | No step lets two tasks hold one stripe |
| `PrefixRange.EndOf` | minnal_db/src/vector_kv.rs:298-307 | The carry loop computes the key past the prefix |
| `PrefixRange.RangeIsExact` | minnal_db/src/vector_kv.rs:298-307 | A key is in the range if and only if it starts with the prefix |
| `PrefixRange.WrappedRangesPartition` | minnal_db/src/vector_kv.rs:308-319 | For every seed the two ranges share no key and cover exactly the prefix's keys |
| `JournalCodec.EncodeRecord` | minnal_db/src/ivf_split.rs:228-261 | The loop writes the specified bytes |
| `JournalCodec.DecodeEncode` | minnal_db/src/ivf_split.rs:222-299 | A record of 32-bit ids reads back as it was |
| `JournalCodec.EncodeDecode` | minnal_db/src/ivf_split.rs:263-299 | Accepted bytes are exactly what their record is written as |
| `JournalCodec.RecordLayout` | minnal_db/src/ivf_split.rs:213-261 | Version, kind and state as the numbers the format fixes, then each id in its place, four bytes each |
| `MetaCodec.Encode` | minnal_db/src/vector_kv.rs:416-425 | The loop writes the specified bytes |
| `MetaCodec.DecodeEncoded` | minnal_db/src/vector_kv.rs:427-458 | Each of the three forms reads back as written |
| `MetaCodec.RoundTripIff` | minnal_db/src/vector_kv.rs:416-458 | A record reads back if and only if it lists fewer than 65,536 postings; otherwise it is unreadable |
| `MetaCodec.MetaLayout` | minnal_db/src/vector_kv.rs:416-425 | The hash, the number of entries, and each posting's id before its count |
| `PostingCodec.RoundTripIff` | minnal_db/src/vector_kv.rs:1345-1386 | A row reads back (a retired one without its centroid) if and only if its parent is not the id that means none |
| `PostingCodec.SeedRowsReadBack` | minnal_db/src/vector_kv.rs:1363-1386 | A seed row never passes for a current one and reads back as it was |
| `PostingCodec.EncodeDecode` | minnal_db/src/vector_kv.rs:1345-1386 | Accepted current rows are what their posting is written as |
| `PostingCodec.RowLayout` | minnal_db/src/vector_kv.rs:1345-1362 | Marker, centre id, state, parent and origin in their places and by their numbers; floats least significant byte first |
| `QueueCodec.RoundTripIff` | minnal_db/src/vector_kv.rs:782-890 | A value reads back if and only if its error is not empty and fits its length field |
| `QueueCodec.ValueLayout` | minnal_db/src/vector_kv.rs:782-820 | Version, kind, retry count, the error's length, the error and the text, in their places |
| `QueueCodec.OldValuesReadBack` | minnal_db/src/vector_kv.rs:835-890 | Values of versions 1 and 2 read back as embeds |
| `QueueCodec.KeyRoundTripIff` | minnal_db/src/vector_kv.rs:892-913 | A key reads back if and only if the namespace's length fits its field |
| `QueueCodec.KeysAreInjective` | minnal_db/src/vector_kv.rs:892-913 | No two entries share a key |
| `QueueCodec.PrefixMatchesOwnEntries` | minnal_db/src/vector_kv.rs:981-992 | A namespace's prefix matches exactly its own entries |
| `QueueCodec.LongNamespaceCollides` | minnal_db/src/vector_kv.rs:892-913 | A namespace of 65,536 bytes or more shares keys with its own beginning: which ones |

## Left out

- The LSM tree, value log, group commit and field index: only their contracts are used (highest sequence wins, a crash keeps a prefix of the vector index WAL, WAL-backed writes are durable on return).
- Reassigning.RunReassign: a live run shrinks, of each document it copied from, the sources it selected; the model decides over all the document's sources, as a redo does. LIRE's conditions are decided on the reconstruction, which the scorer reproduces up to rounding.
- Shrinking.TakeEntry: the source groups a source's codes by destination and matches each group; the model claims code by code in order, which `Codes.SharedClaims` shows to be the same.
- Rebuild beyond its record's codec and its drain rule.
- In-process retry after an I/O error: an operation that fails is followed by a reload.
- Four interleavings in which the queue-first rule does not hold of the code: a client write of a document inside its own `finish_embed`, two embeds of one document in flight, an admin removing an entry in flight, and a re-index enqueued while an embed of that document is in flight.
- `DocStore::put_no_wal` (minnal_db/src/doc_store/store/docs.rs:88-113), for which the queue-first rule does not hold either: a crash loses the document, while the synced vectors and the completion of its entry may survive.
- Store.Index.FinishEmbed: the worker completes a batch after one sync; the model syncs and completes one document at a time.
- Store.Index.Work: turns on different documents run one after the other, not side by side.
- Store.Index.Yield: others run between batches and at barriers, not between two writes of a batch, whose documents are locked; a document outside the batch is independent of it.
- Wrap-around of 32-bit ids and counts, and the reserved id of the zero centre; the codecs do model the widths they write.
- Dropped namespaces and the check that stops maintenance of one.
- Retry limits, in-flight write tracking and what wakes the worker.
- Floating point, quantisation, 2-means itself and rotation.
- Maintenance.MaintainLocked: at the fixpoint a posting may have found no room in an earlier partition than the last, because its mark lasts while its own size does (`Maintenance.MarkOutlivesItsReason`); likewise 2-means may have refused other chunks, as many as it has now. The fixpoint is of the sizes at the last scan; a posting whose table count differs from its stored chunks counts as settled by the recount the split makes.
- Lire.MaintenanceLeavesNoneBehind: with the gate on, a chunk for which a comparison is within the code's error may stay behind, and a split may leave behind chunks in postings beyond the reassignment's range; which move, `Lire.MovesIff` says exactly.
- Runs.RestartUntilRecovered: what a recovery makes of the documents is stated of one that is not cut short (`Runs.Restart`), from any state a crash left; through a list of recoveries cut short, that every document keeps its content.
