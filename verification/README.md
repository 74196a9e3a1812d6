# Verified model of a code-graph service

The service builds knowledge graphs of repositories, composes the graphs of several repositories
into group graphs, publishes both as immutable versions, and shows them in a console. This project
models the parts of it whose correctness is hardest to see by reading, and proves what they are for.

| files | what they model |
|---|---|
| `GroupState`, `GroupInvariant`, `GroupProof`, `GroupTheorems`, `GroupCapture`, `GroupProgress`, `Collector` | group builds: leased workers, fenced commits, content-addressed artifacts, the paging collector, and what an undisturbed worker achieves |
| `SourceState`, `SourceProof`, `SourceWindow`, `SourceProgress` | source versions: the publisher, completion events and the collector |
| `Composition`, `Quotes`, `Merge`, `Build`, `Discover` | composition of source graphs: quotes, merge, evidence placement, relations, the index join |
| `Decisions`, `DecisionReplies`, `TokenMeter`, `ModelRelations`, `ModelPass`, `Inference`, `DroppedPair` | model judgments: the decoder, the token budget, the replay cache, the pass over all pairs, the relations it infers, and a build that drops a remembered pair |
| `Adjacency`, `Paths`, `Ego`, `Connected` | the console's graph algorithms over its adjacency index |
| `OcrRecord`, `OcrState`, `OcrProof`, `OcrTheorems`, `OcrReplies`, `OcrProgress` | page transcription shared by threads: cache records and their validator, page budget, accounting |
| `DocumentParts`, `PartAssembly`, `PartTexts` | cutting a converted document into parts |
| `ReadSource` | the numbered-line printer of the runtime and the console parser that reads it back |

**Protocols.** The group build, the source publisher and the page transcription are step relations
over values: one step is one service call, or the work between two points where another actor can
run. Theorems quantify over every run from the empty system, that is over every interleaving of
claims, retried and outlived workers, owner edits, revocations, lost replies and collector pages. For
each protocol a second set of theorems says what its steps can do: an undisturbed worker, publisher or
call reaches its end, and exactly when it may not go on. A
claim is a step of the environment that starts a build under a name never used before and need not
clear the previous worker's token. A digest is the thing digested, so equal digests mean equal bytes.
The access check, the contents of graphs and the composition engine's output are arbitrary in the
protocol; the tables are read consistently. The platform's own writes are arbitrary within two stated
limits: only a claim starts a build and only a worker moves the active pointer (`EditAllowed`), and a
ledger row keeps everything but its status and notes and, once closed, its status (`LedgerEditAllowed`).

**Engine, console, assembly.** These follow the code's own form: classes whose methods update their
fields, loops with invariants over arrays and sequences, and pure functions. Each method is proved
against a specification about which the promised properties are then lemmas. Services the code calls
(the clock, the model, the file store) are parameters that may answer anything.

**Where the code does less than one would expect**, the model keeps the code and a theorem says
exactly when the expected property holds:

- a source version loses its pins while its row is disabled, so a collector page judged in that
  window can delete what the row, enabled again, still points at;
- a worker whose ledger read itself fails leaves the ledger row QUEUED although the build is FAILED;
- relation ids do not tell apart two candidates that differ only in their signal, and are distinct
  exactly when no two candidates do;
- once an unjudged pair, the deadline or a missing model ends the model loop, later pairs are dropped
  from the cache even if the previous build had judged them; a remembered pair is carried over exactly
  when the loop gets to it, and a deadline that passes at the first new pair empties the cache;
- the console reads back a printed window if and only if the file name holds no line terminator;
- `egoSet` shows the whole neighbourhood if and only if no scan passes 6000 nodes before the last
  node is found: always within one hop or up to 6000 nodes, and not always beyond.

A `_Stale` raised by a checkpoint inside the engine's model call is caught by the engine's own
handler and counted as a failed call; the worker goes on and is stopped by its next checkpoint. In
the protocol this is a checkpoint that is passed, which the step relation allows.

## Model

| member | source | states |
|---|---|---|
| GroupProof.RunInv | lambdas/group_worker/handler.py:520-655 | every state of every run satisfies the protocol invariant: claims, worker knowledge, leases, pointers, collector pages and exits |
| GroupProof.StepKeepsInv | lambdas/group_worker/handler.py:467-517 | no step of any actor breaks the invariant |
| GroupTheorems.ActivePointerIntact | lambdas/group_worker/handler.py:634-645 | the active version of a live group has its manifest, graph and every listed file stored with the recorded digests, in every reachable state |
| GroupTheorems.SweepDeletesOnlyDead | lambdas/group_worker/garbage.py:27-61 | what a collector deletes, acting on an older listing and an older row, belongs to a version that is not active or reserved then or ever after |
| GroupTheorems.PinnedContentIsFinal | lambdas/group_worker/handler.py:341-354 | an object stored for a version still pinned later is still there with the same bytes |
| GroupTheorems.CommittedBytesStay | lambdas/group_worker/handler.py:606-645 | whichever of several workers on one build commits, every object of its plan holds the bytes that worker composed, as long as the version is active |
| GroupTheorems.MembersMean | lambdas/group_worker/handler.py:118-131 | the members of a group are valid exactly when they are one to eight sources, none twice; their ids are those of the list |
| GroupTheorems.CommitIsConsistentSnapshot | lambdas/group_worker/handler.py:467-487 | when a build is published, its versions and description versions are the registry's for exactly the members, the requester is still authorized, and the ledger row, if there is one, shows the same status, requester, versions and description versions |
| GroupCapture.CommitFindsMeta | lambdas/group_worker/handler.py:467-487 | at the commit the group row has the status, build, revision, members, settings, access fields and token it had when this worker first read it, before it loaded anything |
| GroupCapture.CommitFindsGrants | lambdas/group_worker/handler.py:386-408 | at the commit the account is not deleted, and the group grant and the grant of every non-public source have every field with the value it had when this worker read them |
| GroupCapture.CommitFindsRows | lambdas/group_worker/handler.py:357-408 | at the commit every member's source row has the fields it had when this worker read it |
| GroupCapture.CommitFindsLedger | lambdas/group_worker/handler.py:435-464 | at the commit the ledger row is, notes apart, the row this worker read, and records exactly the members, settings, versions and description versions that are published |
| GroupCapture.LedgerEntryStays | lambdas/group_worker/handler.py:445-464 | along a run a ledger row changes nothing but its status and notes |
| GroupCapture.StageConfirmed | lambdas/group_worker/handler.py:102-115 | loading, composing, uploading and committing each start after a checkpoint that found the group's inputs and the claim as captured |
| GroupCapture.StageRowsConfirmed | lambdas/group_worker/handler.py:102-115 | and each captured source row as captured |
| GroupTheorems.RowsWereRead | lambdas/group_worker/handler.py:540-560 | every source row a worker holds was in the registry at an earlier instant, before the worker loaded anything |
| GroupTheorems.PublishedVersionsSpanTheBuild | lambdas/group_worker/handler.py:357-408 | a published source version was active both when the worker captured it and when it committed |
| GroupTheorems.FencedWorkerNeverExits | lambdas/group_worker/handler.py:150-170 | once its claim is taken over, a worker neither publishes nor marks the build failed |
| GroupTheorems.BuildExitsOnce | lambdas/group_worker/handler.py:435-517 | a build leaves BUILDING at most once by a worker |
| GroupTheorems.ExitSetsBothRows | lambdas/group_worker/handler.py:435-517 | an exit writes row and ledger in one step; they agree after a publication, and after a failure exactly when the worker held a matching ledger row or the ledger was already FAILED |
| GroupTheorems.PublishedLedgerStays | lambdas/group_worker/handler.py:435-464 | the ledger of a published build keeps showing how it was published, as long as no other writer reopens a closed ledger row |
| GroupTheorems.NoTwoLiveHolders | lambdas/group_worker/handler.py:32 | with the 900 second limit and the 960 second lease on whole-second clocks, no two live workers hold one claim |
| GroupTheorems.FailureCanLeaveLedgerQueued | lambdas/group_worker/handler.py:490-517 | there is a run in which the row is FAILED and the ledger still QUEUED |
| GroupTheorems.PublicationMeans | lambdas/group_worker/handler.py:467-487 | a publication shows the build as PARTIAL exactly when the stored manifest says so, else as READY, gives up token and lease, and changes nothing else of the row but the active version |
| GroupTheorems.FailureMeans | lambdas/group_worker/handler.py:490-517 | a failure sets the status to FAILED, gives up token and lease, and changes nothing else of the row |
| GroupProgress.TakesIffMayTake | lambdas/group_worker/handler.py:150-170 | a worker takes the claim if and only if the build is BUILDING at its revision and no token is set or the lease ended before its clock reading; it then leases it for 960 seconds |
| GroupProgress.HolderPublishes | lambdas/group_worker/handler.py:520-655 | a worker that holds the claim of a build whose inputs are in order, undisturbed, stores every object of its plan and publishes, also over identical objects of an earlier worker, and closes the ledger row alike |
| GroupProgress.PlanOfFiles | lambdas/group_worker/handler.py:606-632 | any graph and any files of the captured sources make a plan: each file under its own key, listed with its digest, then the graph, then the manifest |
| GroupProgress.NoBuildIsStuck | lambdas/group_worker/handler.py:150-170 | from any state of any run, whatever became of its workers, a BUILDING build with its inputs in order can be published by a new worker once the lease is over |
| GroupProgress.FirstBuildIsPublished | lambdas/group_worker/handler.py:520-655 | from the empty system a group whose sources have active versions, for one who holds the grants, is created, claimed and published |
| GroupProgress.UnpinnedIsReclaimed | lambdas/group_worker/garbage.py:27-61 | an object at least an hour old whose version its group neither shows nor reserves can be reclaimed |
| Collector.JudgePage | lambdas/group_worker/garbage.py:27-55 | the loop over a page discards what the protocol's judging steps discard, whatever happens to the rows between its reads |
| Collector.DiscardMeans | lambdas/group_worker/garbage.py:31-55 | an object is discarded exactly when it is at least an hour old and its group, by the row read at the first old object of that group on the page, is missing, deleted, or shows and reserves other versions |
| Collector.CacheMeans | lambdas/group_worker/garbage.py:38-40 | a group's row is read once per page, at its first old object |
| SourceProof.ActiveVersionIntact | cdk/build_scripts/publish_source_version.py:23-80 | the active source version has its manifest, graph and snapshot with their digests, unless a page judged it while its row was missing or disabled |
| SourceProof.EnabledNeverExposed | lambdas/group_worker/garbage.py:42-55 | a version whose row stays enabled from its claim on is never condemned |
| SourceProof.EnabledActiveIntact | lambdas/group_worker/garbage.py:42-55 | so while the row stays enabled the pointer is good, despite any collector |
| SourceProof.SupersededForGood | cdk/build_scripts/publish_source_version.py:23-80 | a superseded build stays superseded |
| SourceProof.SupersededNeverWrites | lambdas/completion/handler.py:39-50 | no publish step or completion event of a superseded build changes any row, however late or repeated |
| SourceProof.ActiveFollowsClaimOrder | cdk/build_scripts/publish_source_version.py:60-80 | the active version moves only forward in the order of claims |
| SourceProof.CompletionContract | lambdas/completion/handler.py:53-171 | redelivery changes nothing more; pointer, claim and all other fields are untouched; the status becomes FAILED, READY or TOO_LARGE, past 512 MiB, exactly as the event says; the SHA moves exactly on success with a graph, to the stored content hash for a source that is not a repository and has one, else to the target SHA |
| SourceWindow.CondemnsActiveIffDisabled | lambdas/group_worker/garbage.py:49-53 | a collector condemns an old object of a version in use exactly when the row it goes by, read now or kept from earlier on its page, is missing or disabled |
| SourceWindow.DeletedWasExposed | lambdas/group_worker/garbage.py:54-61 | whatever is deleted of a version in use was condemned under a missing or disabled row |
| SourceWindow.DeleteNeedsDisabled | lambdas/group_worker/garbage.py:42-61 | over runs: an object of a version in use is deleted only if its row was missing or disabled at some instant since the version was claimed |
| SourceWindow.DisabledWindowBreaksPointer | lambdas/group_worker/garbage.py:52-53 | there is a run that ends with an enabled row whose active version is gone |
| SourceProgress.BeginsBy | cdk/build_scripts/publish_source_version.py:23-35 | a publisher gives up if its build is not the claimed one of an enabled row; else it clears the version exactly when graph or snapshot is missing, empty or over 32 MiB or 200 MiB |
| SourceProgress.CurrentIsPublished | cdk/build_scripts/publish_source_version.py:48-80 | undisturbed, the publisher of the current build stores graph, snapshot and the manifest that names both with their digests, and makes it the active version |
| SourceProgress.FirstBuildIsPublished | cdk/build_scripts/publish_source_version.py:23-80 | from the empty system a source that is added, enabled and built has that build as its active version |
| SourceProgress.IncompleteIsCleared | cdk/build_scripts/publish_source_version.py:36-47 | an incomplete build leaves the row without an active version, marked with an error |
| SourceProgress.EndsBy | cdk/build_scripts/publish_source_version.py:36-80 | whatever happened since it began, the last write of a publisher changes the row only if its build is then the claimed one of an enabled row |
| SourceProgress.RefusedGoesOnIffSame | cdk/build_scripts/publish_source_version.py:55-66 | a put refused by an existing object goes on exactly when that object has the same bytes |
| SourceProgress.CondemnsExactly | lambdas/group_worker/garbage.py:31-55 | a collector condemns an object exactly when it is at least an hour old and no enabled row, kept from earlier on the page or read now, shows or has claimed its version |
| SourceProgress.UnpinnedIsReclaimed | lambdas/group_worker/garbage.py:27-61 | such an object can be reclaimed |
| Merge.SourceReadBack | lambdas/group_worker/engine.py:304-348 | from the merged graph alone every source's nodes and links are read back exactly, in order, with ends, files, line ranges and attributes, parallel links included |
| Merge.CopiesAreMarked | lambdas/group_worker/engine.py:326-347 | every copied node and link carries the id and version of its source; a node is located exactly by a range of lines, from line 1 on and not backwards, in a file of its source; a link is directed unless its source says otherwise |
| Merge.IdsAreUnique | lambdas/group_worker/engine.py:76-78 | no two merged nodes and no two merged links share an id |
| Merge.LinksStayHome | lambdas/group_worker/engine.py:334-348 | no merged link crosses sources |
| Merge.CountsAdd | lambdas/group_worker/engine.py:330-348 | node and link counts are the sums of the sources' counts |
| Merge.DisjointUnion | lambdas/group_worker/engine.py:304-352 | a successful merge is a disjoint union, all of the above together |
| GroupBuild.MergeSucceeds | lambdas/group_worker/engine.py:304-352 | a merge succeeds if and only if every source is sound, the totals and the serialized size fit, and no deadline check fails |
| GroupBuild.MergeAccepts | lambdas/group_worker/engine.py:304-352 | in plain numbers: it succeeds exactly when every node has a scalar id of its own and no unsafe path, links join known nodes, there are at most 50000 nodes and 200000 links, the result is at most 32 MiB and time lasts |
| GroupBuild.Build.MergeNodes | lambdas/group_worker/engine.py:309-333 | accepts exactly lists of usable nodes with distinct identities, and appends their copies and locations |
| GroupBuild.Build.MergeLinks | lambdas/group_worker/engine.py:334-348 | accepts exactly links between known nodes, and appends their copies in order |
| GroupBuild.Build.Merge | lambdas/group_worker/engine.py:304-352 | returns the first failure in order, or composes all nodes and links |
| GroupBuild.LocatedMeans | lambdas/group_worker/engine.py:331-333 | the location list of a file holds exactly its located nodes |
| GroupBuild.Build.FindTightest | lambdas/group_worker/engine.py:354-359 | finds the tightest located node around a quote, first in id order among the tightest, or that there is none |
| GroupBuild.Build.Endpoint | lambdas/group_worker/engine.py:354-373 | a quote lands on its tightest enclosing node, else on its one anchor; it fails exactly when neither exists and the node limit is reached |
| GroupBuild.Build.Relate | lambdas/group_worker/engine.py:388-409 | a relation is emitted exactly when both quotes are valid and can be placed and the edge limit allows; every relation stays grounded and both limits hold |
| GroupBuild.Build.RelateAll | lambdas/group_worker/engine.py:820-821 | it fails only on a quote that no snapshot holds; the candidates that can be placed and find room become relations, in order, and unless a limit is recorded that is every candidate |
| GroupBuild.Build.RelateEach | lambdas/group_worker/engine.py:388-409 | the nodes, and which candidates become relations, are a function of the graph and the candidates |
| GroupBuild.SameRecords | lambdas/group_worker/engine.py:388-409 | the same candidates related from the same graph give the same records |
| GroupBuild.QuoteIsValid | lambdas/group_worker/engine.py:174-208 | whatever is quoted from a source of the build passes the evidence check |
| Quotes.QuoteMeans | lambdas/group_worker/engine.py:174-188 | a quote of lines exists if and only if they are in the file, hold some text and are at most 2048 bytes of UTF-8; cut at its line ends it is exactly those lines, under that id, version, file and range |
| Quotes.ValidMeans | lambdas/group_worker/engine.py:191-208 | evidence passes the check if and only if it is such a quote of a source of the build |
| Quotes.RelationsCite | lambdas/group_worker/engine.py:388-409 | both quotes of every relation of a build are exactly lines of two of its pinned sources |
| GroupBuild.AnchorMeans | lambdas/group_worker/engine.py:360-373 | two anchors are one exactly when they cite the same lines of the same file, and an anchor is no located node |
| GroupBuild.Build.MergedIsValid | lambdas/group_worker/engine.py:349-352 | after a merge the build invariant holds: limits, unique ids, locations, anchors |
| GroupBuild.Build.Propose | lambdas/group_worker/engine.py:375-386 | candidates pair different sources, none twice, at most 1000; only a full table stops the search |
| GroupBuild.GroundedLater | lambdas/group_worker/engine.py:354-373 | placing further quotes leaves every relation grounded |
| GroupBuild.LandsOnce | lambdas/group_worker/engine.py:354-373 | where a quote lands depends on nothing but the quote |
| GroupBuild.SameIdIffSameClaim | lambdas/group_worker/engine.py:399 | two relations share an id exactly when they make the same claim on the same quotes by the same kind of method |
| GroupBuild.IdsDistinctIff | lambdas/group_worker/engine.py:399 | when every candidate has become a relation, relation ids are distinct if and only if no two candidates agree in relation and both quotes |
| Discover.Index | lambdas/group_worker/engine.py:443-445 | the index lists each feature's occurrences in scan order |
| Discover.GroupBySource | lambdas/group_worker/engine.py:467-470 | occurrences are grouped under their own source, sources ascending |
| Discover.CompareGroups | lambdas/group_worker/engine.py:473-484 | all lines of one source are compared with all lines of another, or a limit is recorded |
| Discover.JoinFeature | lambdas/group_worker/engine.py:465-484 | one feature's join yields exactly its compatible cross-source pairs, unless a limit stops it |
| Discover.Join | lambdas/group_worker/engine.py:464-484 | the index join adds only naive all-pairs candidates, all of them unless a limit stops it, in at most 16000 comparisons and 1000 candidates |
| Discover.JoinIsNaive | lambdas/group_worker/engine.py:464-484 | from an empty table, a join that meets no limit finds exactly the naive candidates |
| Discover.NaiveMeans | lambdas/group_worker/engine.py:464-484 | a naive candidate pairs lines of two sources, the lower id first, that share relation and feature, unless both give host names and none in common |
| Discover.JoinedIsQuoted | lambdas/group_worker/engine.py:432-484 | every candidate of the join quotes lines of its sources, so relating it cannot fail the evidence check |
| Discover.TwoSignalsOneId | lambdas/group_worker/engine.py:378-399 | two sources with one line naming two requirements give two candidates of the join, with valid quotes, that become two distinct grounded relations with one id |
| Decisions.ReadDecisions | lambdas/group_worker/engine.py:531-581 | the decoding loop computes the decoding, giving up at the first bad judgment |
| DecisionReplies.ReplyMeans | lambdas/group_worker/engine.py:531-583 | a reply decodes if and only if it is a list of at most as many items as candidates, each naming a candidate not named before, a known relation, a direction or none, and its evidence as [0, 1] or quoted in full, and nothing else; and then to exactly what it says, in order, with the server-owned quotes |
| DecisionReplies.PrescribedDecodes | lambdas/group_worker/engine.py:558-563 | a reply in the prescribed form about distinct candidates decodes to exactly its judgments |
| DecisionReplies.ReferencesAreExact | lambdas/group_worker/engine.py:559-563 | references other than [0, 1] refuse the whole reply |
| DecisionReplies.BatchNames | lambdas/group_worker/engine.py:669-671 | candidate k of batch b is known as c1 to c8, in order, and no other name is |
| DecisionReplies.BatchesHold | lambdas/group_worker/engine.py:668-669 | candidates are put to the model in as few batches of eight as hold them |
| Decisions.DecodedIsProper | lambdas/group_worker/engine.py:544-580 | whatever the model replies, decoded judgments are on distinct offered candidates, with allowed relations and the server's own quotes |
| Decisions.ReplayIsExact | lambdas/group_worker/engine.py:656-662 | the stored form of proper judgments decodes to exactly those judgments, in order |
| Decisions.DecodeIdempotent | lambdas/group_worker/engine.py:564-581 | decoding is idempotent on its own normalised output |
| Decisions.ShortIdsMeanCanonical | lambdas/group_worker/engine.py:670-674 | a reply in short batch ids decodes to what the same reply in canonical ids decodes to |
| Decisions.ProperFits | lambdas/group_worker/engine.py:536-537 | proper judgments never exceed the candidate count, so a stored entry is never refused for its length |
| TokenMeter.AtMostNineteen | lambdas/group_worker/engine.py:685-691 | reservations kept within both caps at every call allow at most nineteen calls |
| TokenMeter.UsedWithinReserved | lambdas/group_worker/engine.py:584-608 | without over-reports, observed tokens are within what was reserved |
| TokenMeter.OneMoreCall | lambdas/group_worker/engine.py:690-692 | a call reserved for within the caps keeps every budget invariant, whatever the reply |
| TokenMeter.Meter.Bounds | lambdas/group_worker/engine.py:584-608 | observed never exceeds reserved, and there are at most nineteen calls |
| TokenMeter.Meter.ObserveUsage | lambdas/group_worker/engine.py:584-608 | a reply is fully reported or counted unknown; an over-report is made good, flagged, and nothing is refunded |
| TokenMeter.Meter.ObserveRaised | lambdas/group_worker/engine.py:701-704 | a call that raises counts as unknown and keeps its reservation |
| TokenMeter.Meter.Ask | lambdas/group_worker/engine.py:680-711 | at most two attempts, the second only after the first raised; no answer means both raised, or that the clock or a cap refused the call; nothing is called after an over-report; it is clean exactly when every call made reported its usage |
| ModelRelations.ReadReply | lambdas/group_worker/engine.py:712-737 | a reply yields its judgments exactly when it is whole, within its reservation and well formed; otherwise a notice is left |
| ModelRelations.JudgePair | lambdas/group_worker/engine.py:664-743 | a pair is judged when every batch was answered in full by a call reserved for it, and its judgments are what those answers mean; else some batch could not be judged; what is judged is a function of the replies alone, calls that raised not counting; it is clean exactly when every call reported its usage |
| ModelRelations.CachedPairReplays | lambdas/group_worker/engine.py:744-745 | a judged pair put into the cache replays exactly the judgments it was stored with |
| ModelRelations.ReplayIsProper | lambdas/group_worker/engine.py:656-662 | whatever a cache holds, what it replays is proper |
| ModelRelations.UsePair | lambdas/group_worker/engine.py:653-745 | a remembered pair is used as remembered without a call; a pair is cacheable exactly when all calls made for it reported their usage |
| ModelPass.JudgeAll | lambdas/group_worker/engine.py:632-752 | relations, judgments and cache are those of the trace of the pass; a pair is in the cache exactly when it was worked through, judged, and replayed or judged by calls that all reported their usage; budget bounds hold at the end |
| ModelPass.ReachedIffGoesOn | lambdas/group_worker/engine.py:632-743 | pair i is worked through exactly when the pair before did not stop the pass unjudged under a budget or deadline notice, the clock allows, and the pair is remembered or a model is available |
| ModelPass.CarriedIffReached | lambdas/group_worker/engine.py:653-745 | a remembered pair is in the new cache exactly when the pass gets to it |
| ModelPass.AllRememberedAllKept | lambdas/group_worker/engine.py:632-745 | with every pair remembered and time for one look at the clock each, all are carried over and no call is made |
| ModelPass.DeadlineDropsRest | lambdas/group_worker/engine.py:643-742 | when the deadline passes between the look before a new pair and the look before its first call, that pair and every later one is missing from the cache, remembered or not |
| DroppedPair.ClaimsAreJoined | lambdas/group_worker/engine.py:464-484 | in three sources that name one requirement, the index join finds exactly one candidate for each two of them, with valid quotes |
| DroppedPair.DropsRememberedPair | lambdas/group_worker/engine.py:633-743 | on these sources, with only the second pair remembered and a deadline that passes after the first look, the new cache is empty, whatever the prompts reserve and the model would answer |
| ModelPass.CachedPairIsReplayed | lambdas/group_worker/engine.py:656-662 | a second pass uses each cached pair it gets to with the first one's judgments, without a call |
| ModelPass.ReplayedBuildIsSame | lambdas/group_worker/engine.py:632-752 | if the first pass stored every pair and time lasts, the second emits the same judgments in the same order, stores the same cache and makes no call |
| ModelPass.PartlyReplayedIsSame | lambdas/group_worker/engine.py:642-752 | on a partly filled cache, as far as both passes get, if the other pairs get the same replies again, the second emits the same judgments in the same order and keeps every stored entry |
| ModelPass.SecondPassFinishes | lambdas/group_worker/engine.py:642-743 | if the first pass judged every pair, stored or not, a second with a model, time and the same replies gets to every pair |
| Inference.PairUp | lambdas/group_worker/engine.py:633-642 | candidates are grouped by pair of sources, pairs ascending, each group in candidate order |
| Inference.PairsForOk | lambdas/group_worker/engine.py:642-655 | the pairs offered to the model have distinct candidates and distinct cache keys |
| Inference.JudgedIsFound | lambdas/group_worker/engine.py:746-749 | a judgment is on one candidate of its pair and carries that candidate's own quotes |
| Inference.ChosenMeans | lambdas/group_worker/engine.py:746-751 | a judgment becomes a candidate with the judged relation and the candidate's signal, its quotes exchanged exactly when it is reversed |
| Inference.OfferMeans | lambdas/group_worker/engine.py:184-188 | a candidate is offered under its id, each quote by source, version, file, lines, text and digest |
| Inference.ModelRelate | lambdas/group_worker/engine.py:632-752 | the judgments of the pass over a build's candidates become relations of the build, grounded, in order, reversed where judged so; it fails only on a quote that no snapshot holds |
| Inference.SameEmissionsSameRecords | lambdas/group_worker/engine.py:746-751 | two builds with the same graph and the same emissions append the same relation records, whatever limits they meet |
| Inference.ReplayedBuildSameRecords | lambdas/group_worker/engine.py:632-752 | a second build on the first one's cache appends the same relation records in the same order without a model call |
| Inference.PartlyReplayedBuildSameRecords | lambdas/group_worker/engine.py:632-752 | so does a build on a partly filled cache whose other pairs get the same replies, when both passes get equally far |
| Adjacency.BuildAdjacency | console/graph.js:329-341 | the index holds every block at its final place; offsets start at 0 and end at twice the edge count |
| Adjacency.AccumulateOffsets | console/graph.js:332 | the running sums turn the counts into block starts in place |
| Adjacency.StartTotal | console/graph.js:329-341 | the blocks fill the slots exactly |
| Adjacency.StartMonotone | console/graph.js:329-341 | blocks of smaller nodes lie before blocks of larger ones |
| Adjacency.BlockSound | console/graph.js:335-339 | every slot of a node names an incident edge, its other end and its direction |
| Adjacency.BlockComplete | console/graph.js:335-339 | every half-edge of a node has its slot |
| Adjacency.BlockOrdered | console/graph.js:335-339 | slots of a block come in edge order, none repeated |
| Adjacency.EdgeHasBothSlots | console/graph.js:335-339 | each edge has one out-slot, at its source, and one in-slot, at its target; a self-loop has both in one block |
| Paths.ShortestPath | console/graph.js:1230-1255 | returns a shortest valid walk, or nothing exactly when no walk of at most `maxHops` edges exists |
| Paths.TracePath | console/graph.js:1244-1246 | following parents terminates and yields a walk as long as the node's depth |
| Paths.TreeGrows | console/graph.js:1239-1242 | reaching a node from a reached one keeps the parent tree |
| Ego.EgoSet | console/graph.js:762-777 | shows what a breadth-first search has found after the first scan that leaves more than 6000 nodes found, or after the last scan |
| Ego.ExactIff | console/graph.js:762-777 | what is shown lies within `hops` edges, and is all of it if and only if no scan passes 6000 nodes before the last node is found |
| Ego.SmallIsHarmless | console/graph.js:762-777 | up to 6000 nodes, and within one hop at any size, everything is shown |
| Ego.CutMeans | console/graph.js:766-776 | a search cut in a ring shows all nodes up to that ring and the neighbours of the ring's first nodes |
| Ego.CapHidesNodes | console/graph.js:772 | with two hubs of 5998 nodes or more each around the start, two hops show the nodes of only one hub |
| Connected.TallyMeans | console/graph.js:1765-1782 | a source has a row exactly when an incident edge leads to it, and the row counts each such edge once |
| Connected.TallyTotal | console/graph.js:1768-1782 | over all rows, incoming plus outgoing is the length of the node's block |
| Connected.ConnectedSources | console/graph.js:1765-1782 | the loop over the index computes that tally |
| OcrProof.RunInv | cdk/build_scripts/document_ocr.py:561-641 | every state of every interleaving satisfies the transcription invariant |
| OcrRecord.GeneratedIsAccepted | cdk/build_scripts/document_ocr.py:541-545 | every record that is generated passes the validator under its own bindings and key, and is returned as it was |
| OcrRecord.AcceptedWasEncoded | cdk/build_scripts/document_ocr.py:394-419 | whatever the validator accepts is the record of a success for exactly the requested bindings |
| OcrRecord.RecordSays | cdk/build_scripts/document_ocr.py:541-544 | the record field by field: version 1, the digest of the bindings as key, the bindings, the page as status and text, the counts, and a digest of all that |
| OcrRecord.PageMeans | cdk/build_scripts/document_ocr.py:112-131 | a page is valid exactly when it is transcribed with some text or blank without, readable, and free of control characters but tabs and line ends |
| OcrRecord.RawUsageMeans | cdk/build_scripts/document_ocr.py:184-189 | raw usage is valid exactly when the three counts are there and every count of tokens is a natural number |
| OcrRecord.RecordsAreBound | cdk/build_scripts/document_ocr.py:402-406 | no record is accepted for two sets of bindings, and none after a change under its signature |
| OcrTheorems.PageBudget | cdk/build_scripts/document_ocr.py:596-601 | `new_pages` is the number of reserved keys and never exceeds the maximum; only reserved keys are generated |
| OcrTheorems.SingleFlight | cdk/build_scripts/document_ocr.py:330-345 | generations for one key never overlap |
| OcrTheorems.StaysStored | cdk/build_scripts/document_ocr.py:463-480 | a stored entry nobody else touches stays stored |
| OcrTheorems.StoredNeverRegenerated | cdk/build_scripts/document_ocr.py:421-461 | once an entry is stored and while nobody else touches it, no call for its key reaches the model |
| OcrTheorems.ReturnedWasGenerated | cdk/build_scripts/document_ocr.py:394-419 | what a call returns from untouched files was generated for exactly its bindings |
| OcrReplies.FreshIsTheReply | cdk/build_scripts/document_ocr.py:482-559 | what a call returns as fresh is the page and usage of one of its own successful answers, with the tokens of all its answers and the number of those that reported none |
| OcrReplies.HitWasAnswered | cdk/build_scripts/document_ocr.py:421-461 | what a call finds in untouched files was an entry at the start or is what the SDK answered a call for the same page |
| OcrProgress.CallGenerates | cdk/build_scripts/document_ocr.py:561-641 | an undisturbed call for a page stored nowhere, with budget left, returns the SDK's answer and stores it locally and remotely |
| OcrProgress.CallHitsLocal | cdk/build_scripts/document_ocr.py:421-461 | an undisturbed call for a page with a local file returns it and changes only counters |
| OcrProgress.CallHitsRemote | cdk/build_scripts/document_ocr.py:421-461 | an undisturbed call for a page with only a remote file returns it and copies it |
| OcrProgress.SecondCallHits | cdk/build_scripts/document_ocr.py:561-641 | from an empty cache, one call generates a page and a second for the same page is served from the local file, one page being counted against the budget |
| OcrProgress.ReservesIffBudget | cdk/build_scripts/document_ocr.py:596-601 | a page may be generated exactly when it is reserved already or the budget has room |
| OcrProgress.TriesAgainIff | cdk/build_scripts/document_ocr.py:495-559 | a transient failure is tried again exactly when fewer than three attempts were made, a fatal one never |
| OcrProgress.SkipsIff | cdk/build_scripts/document_ocr.py:498-510 | an attempt without a client passes without a call, as long as one is left |
| OcrTheorems.BooksBalance | cdk/build_scripts/document_ocr.py:495-559 | at rest, pages are transcribed, blank or errors; hits are local or remote; attempts are retries plus calls that reached the SDK; every token of every kind is reported by a success or lost in a failure |
| OcrProof.CallStepAccounts | cdk/build_scripts/document_ocr.py:618-641 | every step moves each counter and each kind of token by exactly what its own call contributes |
| DocumentParts.TitleKeepsHeading | cdk/build_scripts/convert_docs.py:655-662 | a trimmed heading of at most 80 characters is its part's title unchanged |
| Common.BlankMeans | cdk/build_scripts/convert_docs.py:655-662 | which characters are stripped, by code point |
| PartTexts.TitleMeans | cdk/build_scripts/convert_docs.py:655-662 | a title is the heading, or the document's name for none, without the blanks at its ends, and past 80 characters its first 79 without the blanks they end in and an ellipsis |
| DocumentParts.FormatMeans | cdk/build_scripts/convert_docs.py:722-729 | a line is written as its text, a heading behind as many signs as its level and a blank |
| DocumentParts.NoteAbove | cdk/build_scripts/convert_docs.py:683-697 | on a transcribed page every line stands below the page's marker and, right under it, its provenance |
| PartTexts.DocumentSays | cdk/build_scripts/convert_docs.py:651-732 | the texts of the assembled parts, titles read as their headings, are the texts of the pages' lines in order; only a heading without text or with a blank at an end may be shown otherwise, as its title |
| PartTexts.SizeIsLength | cdk/build_scripts/convert_docs.py:241-243 | the size of a part is the length of its lines as written |
| DocumentParts.OwnMarker | cdk/build_scripts/convert_docs.py:683-697 | in a marked part each line stands below its own page's marker, with nothing of another page between |
| PartAssembly.WrittenReads | cdk/build_scripts/convert_docs.py:683-697 | writing a line adds exactly that line to what is read, or that image to what is shown; markers and provenance add nothing |
| PartAssembly.WriteKeeps | cdk/build_scripts/convert_docs.py:683-697 | writing a line, with its marker if needed, keeps parts sound and sized by what was written |
| PartAssembly.OpenKeeps | cdk/build_scripts/convert_docs.py:654-662 | opening a part keeps all parts sound and in page order |
| PartAssembly.Assembler.Emit | cdk/build_scripts/convert_docs.py:683-697 | the marker is written with the first line of a page in a part, once |
| PartAssembly.Assembler.StartPage | cdk/build_scripts/convert_docs.py:706-720 | a page opens a part exactly at the start, from size 16000 on, or at a heading that splits: of level 1 or 2 from 8000, of level 3 from 12000, of any level from 15000; its top heading is the title or stays in the body |
| PartAssembly.Assembler.EmitLine | cdk/build_scripts/convert_docs.py:722-729 | a line opens a part exactly when it is such a heading, and is read exactly once: as a body line, or as that part's title |
| PartAssembly.Assembler.EmitImages | cdk/build_scripts/convert_docs.py:699-720 | a page's saved images are written once each, in order, before any of its text |
| PartAssembly.Assembler.EndPage | cdk/build_scripts/convert_docs.py:729-732 | a transcribed page leaves its marker and provenance even if its only line became a title |
| PartAssembly.Assembler.AddPage | cdk/build_scripts/convert_docs.py:671-732 | after each page, what is read is the lines of the pages so far, what is shown is their saved images, and every part is within the size bound |
| PartAssembly.Assembler.Assemble | cdk/build_scripts/convert_docs.py:651-732 | read part by part, titles and bodies are the pages' lines in order, and the images are the saved ones in order; page ranges never go back; every part is below 16000 plus what its own last page contributes |
| ReadSource.WindowInFile | runtime/entrypoint.py:346-355 | a window starts at the requested line, or line 1, and ends at the last line that is in the file, within 400 lines and not past a requested end |
| ReadSource.DecimalRoundTrip | console/graph.js:2107 | a printed number is read back |
| ReadSource.HeaderReadBack | console/graph.js:2102 | the parser finds the printed header, even if the file name looks like one |
| ReadSource.RowReadBack | console/graph.js:2106-2107 | a printed row gives back its number and its line, or the first 500 characters of it |
| ReadSource.RowLayout | runtime/entrypoint.py:356 | a printed row is the number, padded to six characters, a bar, a blank and at most 500 characters of the line |
| ReadSource.HeaderAlone | console/graph.js:2102 | a header with nothing after it is a window without rows |
| ReadSource.FailureMeans | console/graph.js:2103 | a text is an error exactly in so far as no header is in its first line, and is then reported without the white space at its ends |
| ReadSource.ParseReadSource | console/graph.js:2100-2110 | the parsing loop computes the parse |
| ReadSource.WindowReadBack | console/graph.js:2100-2110 | parsing a printed window recovers file, range and total and, for each line of the range in order, its number and its text or the first 500 characters of it, if and only if the file name holds no line terminator |
| ReadSource.BeyondEndFails | runtime/entrypoint.py:347-348 | a start past the end is printed as that error and parsed as exactly that |
| ReadSource.EmptyIsSaid | runtime/entrypoint.py:343-344 | an empty file is printed as such |
| ReadSource.CharactersMean | console/graph.js:2102-2107 | which characters end a line, and which are white space, by code point |

## Left out

- RunInv: the workers, publishers, completion events and transcription threads are step relations on values rather than methods, because what is proved is about their interleaving; in-place update of their local variables is not captured.
- ActivePointerIntact: tables and the object store are modelled as atomic steps with consistent reads; the extra update by which the webhook records a build's ARN after setting BUILDING is one step with its claim.
- SupersededNeverWrites: builds are named by their ARN; a version id is a digest of the ARN cut to 32 characters, and the cut is taken to keep ARNs apart.
- CommitIsConsistentSnapshot: the access check of `group_access` is any predicate over the rows it reads; the composed graph is arbitrary in the protocol, and composition is proved separately.
- PublishedLedgerStays: assumes of the platform's own writes that they do not reopen a closed ledger row; nothing in the modelled files enforces it.
- DiscardMeans: the cursor by which a later tick resumes the listing is not modelled; pages are arbitrary lists of stored objects.
- Join: the regular expressions that extract features are abstract: occurrences are given, and with them the order in which features are worked through and the cap on scanned occurrences. Cross-file and symbol references, which are single lookups, are not modelled.
- Relate: `label` and `type` defaults and other attributes of nodes and links are carried along unread; JSON text is represented by the value it encodes, and the serialized size is any function of the graph.
- JudgeAll: the sources' names, descriptions and the prompt text are represented by a pair's context; prompts are represented by the number of bytes they reserve; hidden reasoning blocks and the counters for them are not modelled.
- Infer: makes the relations when the pass is over rather than pair by pair inside it; relating a candidate touches nothing the pass reads.
- GeneratedIsAccepted: JSON text is represented by the value it encodes; whether the unreadability pattern leaves no readable character is given with a text; a text and a name are two kinds of JSON string.
- ReturnedWasGenerated: files changed by other processes or by hand are excluded, since a record with a consistent digest cannot be told from a generated one; the audit log is not modelled.
- Assemble: font and heading detection, image extraction and the text of markers are given with each page.
- ConnectedSources: the final sort of the rows by counts and localized name is not modelled.
- BuildAdjacency: the 32-bit width of typed arrays is not modelled.
- WindowReadBack: number parsing is exact; the console loses precision beyond 2^53. The reply for an empty file, which the console can misread if the file name looks like a header, is printed as it is but nothing is proved about parsing it.
- Snapshot archives, graph rendering, the poller, the proxy, infrastructure declarations and operator scripts are not modelled.
