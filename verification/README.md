# Verification of the input archive and the retrieval evidence

A Dafny model of the parts of the repository that keep durable state or compute
something with a precise meaning, and proofs of what those parts promise. It
covers the collector's admission and publication, its join indexes and relation
statuses, the annotation journal and its pages, the dataset partition, the
restore switch with its source fencing, the producer's queue, and the
retrieval-evidence computation. `dafny verify dfyconfig.toml` checks everything.

## How the model is built

Code that updates state in place is modelled by classes and methods with loops.
Each method is proved equal to a function of the old state. The main ones also state
what they do to the contents without that function; what the source promises is
proved about the functions over whole runs, in which
admissions, publication steps, edits, write failures, crashes and restarts
interleave.

| files | what they model |
|---|---|
| `Common`, `Lines` | integer and token checks; sorting by an order, filtering, sums over a queue; newline-terminated lines in a byte file |
| `Continuity`, `LegalCuts`, `CutSearch`, `Partitioning`, `DependencyLinks`, `CorpusContext` | `archive/datasets.py`, `inspect` |
| `AnnotationRows`, `AnnotationLog`, `AnnotationStore`, `AnnotationRuns`, `AnnotationCodec`, `AnnotationPages`, `AnnotationWalk`, `AnnotatedArchive` | `archive/annotations.py`; annotation queries of `archive/collector.py` |
| `JoinIndex`, `Relations` | join state of `archive/collector.py`; `archive/querying.py`, `RelationContext` |
| `ProducerQueue` | `archive/producer.py` |
| `CollectorQueue`, `CollectorPublish`, `ArchiveFile`, `CollectorRuns`, `CollectorClaims`, `CollectorDurability`, `CollectorFailures`, `CollectorQuarantine`, `CollectorCodec` | `archive/collector.py`; the observation loop of `archive/management.py` |
| `ContentGate`, `Authority`, `RestoreProtocol`, `RestoreSafety`, `RestoreResults`, `RestoreServing`, `RestoreState`, `RestoreExamples` | `archive/management_gate.py`, `archive/management_authority.py`, `archive/management.py` |
| `FencedAdmission` | admission of `archive/collector.py` behind the source register of `archive/management_authority.py` |
| `Evidence`, `EvidenceMeaning`, `EvidenceBounds` | `daemon/ann.py` |

Three devices recur. SHA-256 and canonical JSON are injective: a digest is a
datatype that carries what was hashed, and an encoding is a parameter whose
decoding undoes it and which writes one line a row. For annotation rows that line
is also assumed to be as long as the canonical encoding; since digests that carry
what they hash cannot all have one length, this is assumed only of the rows a run
ends up having published, and every journal has an encoding that meets it. A crash
may leave any bytes after the published offset, and every write is a parameter that
says where it failed. History that the code does not keep (admission tickets,
tallies, the rows published so far) is carried beside the state in order to state
order, conservation and fencing; no step reads it.

## Where the code is weaker than its limits suggest

These are proved as they are, with the exact condition and a state that shows it.

- Displacement appends without testing the byte limit again, in both queues: the
  bytes are bounded by the count limit times the largest event, not by the byte limit.
- After a failed append the publisher goes on to the next batch, and the count
  `os.write` returns is not looked at. Published-prefix recovery is therefore proved
  for runs in which an observations append lands whole or raises having added
  nothing. Without that the next watermark names its rows exactly when what was left
  on file happens to begin with them; runs from an empty archive show both outcomes.
- The quarantine file is appended before the observations. When a publication fails after
  its quarantine lines are on file, nothing takes them back or counts them, and the next
  watermark counts as many bytes as its own quarantine lines are long. That each append
  lands whole or adds nothing is therefore not enough: the file begins with the counted
  lines over runs in which no publication fails so, and after one that does exactly when
  what was left, followed by the new lines, begins with the new lines; a run from an
  empty archive shows it. A restart still finds the file long enough.
- When the watermark write fails, the batch stays counted as being published,
  including units of it already counted as refused for capacity; the unit count is
  then exact only if there were none.
- A checkpoint request takes no content lease and no publication mutex. Its state is
  read under the admission lock and written later to a path read after that. One that
  straddles the restore switch, or starts before the reload that follows it, can put
  the replaced archive's state into the new archive; written before the reload it is
  loaded and kept, written between the reload and its state write it is undone, and
  no other step has this effect. One written between the recheck and the control
  write makes the replaced state file differ from the confirmed one.
- Admission sets no upper bound on a source's local sequence, and a published row keeps
  it. A backup verification refuses the whole archive, an annotation page the whole page,
  and an edit its reference, when a local sequence is above 2^63 - 1. Verification of a
  reachable archive within the size bounds, and a walk over a pinned prefix of distinct
  identities, succeed exactly when no row is; runs that publish such a row show both
  refusals.
- The annotation manifest's offset is not bounded when it is written, but is read
  back only up to 2^63 - 1; recovery accepts a published log exactly when its length
  is within that range.

## Model

| member | source | states |
|---|---|---|
| `Continuity.Classify` | `archive/datasets.py:325-363` | The one-pass loop leaves, for every segment and process key, the entry its rows determine, and the last row of every owner. |
| `Continuity.UpdateSegments` | `archive/datasets.py:345-363` | One row changes only its own segment and the one its owner leaves, with the reappearance and local-gap rules. |
| `Continuity.ClosedMeans` | `archive/datasets.py:348-350` | The `closed` flag holds exactly when some row of the segment is followed, as its owner's next row, by a row of another segment. |
| `Continuity.BadMeans` | `archive/datasets.py:345-363` | The `bad` flag holds exactly when the segment is unnamed, holds a loss, exclusion or unknown row, reappears, or touches a gap in its owner's local sequence. |
| `Continuity.ExtentMeans` | `archive/datasets.py:345-347` | `first` and `last` are the first and last rows of the segment and `processes` the processes of its rows. |
| `Continuity.SegmentMeans` | `archive/datasets.py:345-363` | Put together, the dictionary entry of a segment holds its extent, its processes and exactly those two flags. |
| `Continuity.ProcessMeans` | `archive/datasets.py:358-362` | A process entry holds its first and last row, whether it started and ended, and exactly the segments it was seen in. |
| `Continuity.GaplessBlock` | `archive/datasets.py:345-363` | A segment that is not bad is one gapless block of its owner's rows: no other row of the owner lies between two of its rows and the local sequence advances by exactly their number. |
| `Continuity.ClosedBlockEnds` | `archive/datasets.py:348-357` | A closed segment that is not bad ends at a row whose owner goes on to another segment without losing a local sequence number. |
| `LegalCuts.Merge` | `archive/datasets.py:410-415` | Merging the sorted intervals gives separated blocks, in order, that reach the same positions and straddle the same cuts as the intervals. |
| `LegalCuts.SeparatedCoverTiles` | `archive/datasets.py:410-415` | When the intervals leave no position of the range out, the merged blocks tile it without gap or overlap. |
| `LegalCuts.FindCuts` | `archive/datasets.py:410-418` | The cuts are exactly the positions before the first uncertain row, and before the last row, that no interval straddles, in increasing order. |
| `CutSearch.SuffixMinima` | `archive/datasets.py:423-427` | Entry i is the least (cost, cut) offered by the cuts from i on. |
| `CutSearch.FindBoundary` | `archive/datasets.py:419-432` | The linear search returns the lexicographically least (cost, a, b) over all pairs a < b of cuts, and none exactly when there are fewer than two cuts. |
| `CutSearch.OptimalPairUnique` | `archive/datasets.py:421-432` | The optimum is unique, so every correct search returns the same pair. |
| `Partitioning.Partition` | `archive/datasets.py:372-432` | From the rows and their dependency links: the cuts are exactly the legal cuts, and the boundary is the optimal pair of them or none when there are fewer than two. |
| `Partitioning.LeastUneven` | `archive/datasets.py:419-432` | Against every other pair of legal cuts, the boundary has parts that are less uneven, or as uneven with an earlier first cut, then an earlier second. |
| `Partitioning.LabelStraddled` | `archive/datasets.py:372-373` | The extent intervals of segments and processes are straddled by a cut exactly when the cut separates two rows of one of them. |
| `Partitioning.UncertainMeans` | `archive/datasets.py:416-417` | The test that bounds the cuts is that the segment is open, bad, or holds a row of a process not seen whole within one segment. |
| `Partitioning.PartsNonEmpty` | `archive/datasets.py:437-441` | Whenever a boundary exists, train, validation and test each hold a row. |
| `Partitioning.NothingSplit` | `archive/datasets.py:437-441` | Two rows of one segment, one process or one recorded dependency always fall in the same part. |
| `Partitioning.UncertainIsTest` | `archive/datasets.py:416-418` | Every row of an open, bad or incompletely observed segment falls in test. |
| `DependencyLinks.FindLinks` | `archive/datasets.py:374-408` | The dependency pass finds, for every row in order, the span to the one row declaring the update it refers to and the span to the daemon request it is linked to. |
| `DependencyLinks.WitnessMeans` | `archive/datasets.py:376-396` | A row has a witness exactly when it refers to an update that one row of the range alone declares under that source and process, and then that row is the witness. |
| `DependencyLinks.LinkMeans` | `archive/datasets.py:399-406` | A plugin row is linked to a request exactly when that is the one daemon request of the range with the identifier it issued and the two do not give different plans. |
| `DependencyLinks.LinksMean` | `archive/datasets.py:374-408` | The links are the spans from each row to those rows, and no others. |
| `DependencyLinks.PartitionRecorded` | `archive/datasets.py:372-432` | The partition computed from the rows and the dependencies they record: its cuts are exactly the positions before the last row and before all that is uncertain that separate no two rows of one segment or process and no row from one it depends on, in order; its boundary is the optimal pair of them, none when there are fewer than two. |
| `DependencyLinks.DependentTogether` | `archive/datasets.py:393-406` | A row and the one row that declares the update it refers to, or the daemon request it is linked to, always fall in one part. |
| `DependencyLinks.AkinTogether` | `archive/datasets.py:437-441` | Two rows of one segment or one process always fall in one part. |
| `CorpusContext.CountUpdates` | `archive/datasets.py:377-382` | The counter holds, for every owner and update, the number of rows that declare it. |
| `CorpusContext.Export` | `archive/datasets.py:446-513` | The corpus, from the rows alone. When some earlier row is a frontend commit of the same segment and part and the only row of the range that declares the parent update for that owner, a row is exported exactly when it passes its own checks (part assigned, normal, target there, no exclusion, dependency, uncertainty or issue) and that row is exported, and its reference is that row; when there is none, exactly when it passes its own checks, with no reference. Rows are in order, each once. |
| `CorpusContext.CorpusIs` | `archive/datasets.py:446-513` | The export function gives, for every range of rows, the rows that pass their own checks and whose one earlier declaring frontend commit, when there is one, is exported, with that reference, in order and each once. |
| `CorpusContext.ContextClosed` | `archive/datasets.py:479-489` | Every context reference names a strictly earlier exported row of the same segment: a frontend commit, and the one row of the range that declares the parent update for that owner. |
| `CorpusContext.ChainAdmitted` | `archive/datasets.py:479-489` | Every row on the whole context chain of an exported row is itself exported, so none is excluded or inadmissible. |
| `CorpusContext.ExclusionPropagates` | `archive/datasets.py:482-489` | A row that fails its own checks keeps out every row whose context chain reaches it. |
| `CorpusContext.PartTestRedundant` | `archive/datasets.py:484-488` | Under boundaries that split no segment the same-partition test decides nothing. |
| `CorpusContext.PartitionFollowsSegments` | `archive/datasets.py:437-441` | The boundaries of the partition are such boundaries, whatever the dependencies. |
| `AnnotationRows.StoredIffNormalized` | `archive/annotations.py:176-198` | Recovery accepts a stored value exactly when some request value normalizes to it. |
| `AnnotationRows.NormalizeMeans` | `archive/annotations.py:57-82` | Exactly which values are refused and with which error, and what is stored for the others: the text of a correction, the reason and the flag of an exclusion, the topic, severity and note of an experience with an empty note when none was given, nothing for a confirmation. |
| `AnnotationRows.RowFitsLine` | `archive/annotations.py:250-252` | No row a mutation writes is longer than the 131072-byte line recovery accepts, even with every character of its text escaped to ASCII. |
| `AnnotationLog.ReplayReadsLog` | `archive/annotations.py:152-163` | Whatever bytes follow the published prefix, streaming it reads exactly the published rows and rebuilds their index, when the encoding is right about those rows. |
| `AnnotationLog.ReplayIsValid` | `archive/annotations.py:152-163` | Conversely, whatever streaming accepts is a chain of rows each valid after the ones before it. |
| `AnnotationLog.ValidIffHonest` | `archive/annotations.py:174-198` | Row by row against the index kept so far a log is accepted exactly when each row, from the rows alone, has its place, an operation of its own, hashes of what it holds, the chain value of the row before it, and a value and a reference the store accepts. |
| `AnnotationLog.ChainedFacts` | `archive/annotations.py:176-187` | Such a chain numbers its revisions consecutively and repeats no operation. |
| `AnnotationLog.OperationFacts` | `archive/annotations.py:200-207` | The operation table holds exactly the operations of the rows, each with its hash and revision. |
| `AnnotationLog.OperationsDistinct` | `archive/annotations.py:181-182` | Each operation identifier owns at most one row. |
| `AnnotationLog.LinkedDetermines` | `archive/annotations.py:176-187` | Two chains of one length and one last chain value are the same rows: none can be changed, dropped or reordered unnoticed. |
| `AnnotationLog.ChainDetermines` | `archive/annotations.py:176-187` | So a valid log is determined by its length and chain value. |
| `AnnotationLog.LogFacts` | `archive/annotations.py:176-187` | Row i has revision i + 1 and was made against revision i; the index carries the count and the last chain value. |
| `AnnotationStore.AnnotationStore.Prepare` | `archive/annotations.py:123-171` | Start-up initializes an empty set journal first and identity last, refuses a set that lacks a file as it is, and otherwise accepts, cuts and indexes as the recovery function says: of a set that is there only the journal changes, cut where an accepted manifest ends, and a store that comes up ends where its journal does. |
| `AnnotationStore.StartMeans` | `archive/annotations.py:123-171` | For every disk and however far the start gets: a set that lacks a file is left as it is, of a full one only the journal changes, cut where its manifest ends, and a store comes up only at the end of its journal with the archive, revision and chain of the manifest. |
| `AnnotationStore.AnnotationStore.Stream` | `archive/annotations.py:152-163` | The streaming loop succeeds exactly when every line up to the offset is a valid next row, and leaves their index. |
| `AnnotationStore.AnnotationStore.Append` | `archive/annotations.py:264-276` | The write loop leaves exactly the bytes the write results account for, and reports success only when all landed and were synced. |
| `AnnotationStore.AnnotationStore.Mutate` | `archive/annotations.py:228-262` | One edit on memory and disk together. One that fails a test is refused by the first it fails and changes nothing; a fresh acknowledgement puts on the journal a row with the operation, reference, kind and expected revision of the request and exactly what it asked to be stored; a repeat is answered, a stale or last revision refused, and a failed write poisons the store. |
| `AnnotationStore.CheckMeans` | `archive/annotations.py:228-241` | An edit passes exactly when it is acceptable and is otherwise refused by the first test it fails; what passes is what was requested. |
| `AnnotationStore.WrittenMeans` | `archive/annotations.py:243-256` | A row is written exactly for an acceptable edit of a new operation made against the current revision while revisions last, and it holds the request; one made against another revision is stale, and a known operation is answered or in conflict. |
| `AnnotationStore.FreshAck` | `archive/annotations.py:251-262` | A fresh acknowledgement is of such a row, put over the unpublished tail of the journal. |
| `AnnotationRuns.RecoverIffInRange` | `archive/annotations.py:145-170` | A disk that publishes a log is accepted and yields its index exactly when its offset is within the integer range the manifest is read in. |
| `AnnotationRuns.AcceptedIsLog` | `archive/annotations.py:145-170` | Whatever bytes a start accepts are as many rows as the manifest says, chained to its chain value; under the manifest of a log they are that log. |
| `AnnotationRuns.InitialDiskPublishes` | `archive/annotations.py:128-140` | A first initialization is complete exactly when it wrote all three files, and then publishes the empty log; stopped earlier it leaves a set that is refused. |
| `AnnotationCodec.EveryJournalIsEncoded` | `archive/annotations.py:152-163` | The assumption on the encoding excludes no journal: the rows of any journal form one under an encoding that is right about all of them. |
| `AnnotationCodec.RunPublishes` | `archive/annotations.py:123-262` | A run from an empty disk, under such an encoding, that publishes a row and acknowledges its edit. |
| `AnnotationRuns.StepKeeps` | `archive/annotations.py:123-262` | Every start, edit with any write outcome, and crash keeps the invariant that the disk publishes the log and a healthy store indexes it; the log and the acknowledgements only grow. |
| `AnnotationRuns.ReachableDiskRecovers` | `archive/annotations.py:123-171` | Over every run, any disk with all three files recovers exactly the rows ever published. |
| `AnnotationRuns.AcknowledgedIsKept` | `archive/annotations.py:243-262` | Over every run an acknowledged edit stays in the log at its revision, as a row that holds the operation, reference, kind, expected revision and content of the request; no other row has that operation, and every row was made against exactly the revision before it. |
| `AnnotationRuns.RepeatIsAnswered` | `archive/annotations.py:241-245` | Repeating a recorded operation changes nothing: equal content is answered with its revision, different content with a conflict. |
| `AnnotationRuns.ExactlyOnce` | `archive/annotations.py:251-262` | An edit whose write fails in any way, then a crash leaving anything after the published bytes, a restart and the same edit again, is acknowledged and is in the log exactly once. |
| `AnnotationPages.Effective` | `archive/annotations.py:310-332` | Bisection over the per-kind history plus one journal read per kind returns the edits a linear scan of the log finds at the revision, or an error when an entry is for another record of the same identity. |
| `AnnotationPages.BisectRight` | `archive/annotations.py:316-318` | The position is the number of entries at or below the revision. |
| `AnnotationPages.LastEditIsLast` | `archive/annotations.py:310-332` | The scan returns the last row of the key at or below the revision, or none exactly when there is none. |
| `AnnotationPages.EditsMean` | `archive/annotations.py:310-332` | For each kind what is shown is the last edit of that key at or below the revision, when it names this record, and nothing when there is none; an error exactly when the last edit of some kind names another record. |
| `AnnotationPages.EditsStable` | `archive/annotations.py:310-332` | Later edits never change what a pinned revision shows. |
| `AnnotationPages.Resolve` | `archive/collector.py:2614-2633` | The shape test, then the reference scan: it accepts exactly when the reference is well shaped, one row of the identity is visible, and that row has the reference's number and digest. |
| `AnnotationPages.ResolveMeans` | `archive/collector.py:2614-2633` | A reference is accepted exactly when it is well shaped, is that of a visible row in every field, and no other visible row has the identity; otherwise its archive, its shape, then the rows decide the error. |
| `AnnotationPages.OwnReferenceResolves` | `archive/collector.py:2614-2633` | A row's own reference resolves to it exactly when no other visible row has its source identity and its local sequence is at most 2^63 - 1; which of the two fails decides the error. |
| `AnnotationPages.CollectPage` | `archive/collector.py:2742-2757` | Binary search and the page loop return the rows after the cursor up to the prefix, at most a page of them, and whether more follow. |
| `AnnotationPages.StaleIff` | `archive/collector.py:2715-2741` | A query is refused as out of date exactly when its prefix or revision is not there yet or its cursor lies outside the prefix. |
| `AnnotationPages.Query` | `archive/collector.py:2715-2763` | The whole query (bounds checks, page of references, shape test and resolution of each, edits and cursor) computes the page the walking results speak of. |
| `AnnotationWalk.ResolvedOnAdmission` | `archive/collector.py:2614-2633` | A reference that resolved when its edit was made names, for good, a row with no earlier row of the same identity. |
| `AnnotationWalk.RowAnsweredIff` | `archive/collector.py:2758-2762` | A visible row is answered exactly when its identity is alone in the prefix and a reference can hold its local sequence; the answer holds its edits of the linear scan. |
| `AnnotationWalk.WalkReturnsPrefix` | `archive/collector.py:2722-2763` | Pages of any sizes taken from later and later moments return the rows of the pinned prefix in order, each once, with their answers at the pinned revision, and no cursor exactly when the prefix is exhausted; or fail when one of the rows is not answered. |
| `AnnotationWalk.FullWalkIff` | `archive/collector.py:2722-2763` | The whole walk succeeds exactly when every row of the prefix has its source identity to itself and a local sequence of at most 2^63 - 1, and then equals, row by row, the prefix with the edits of the linear scan, whatever is published or edited between pages. |
| `AnnotatedArchive.StepKeeps` | `archive/annotations.py:228-262` | Publishing a row, and every start, edit and crash of the annotation store, keeps the invariant that each edit in the journal names the first published row of its identity; the source of an edit may be looked up before later rows are published. |
| `AnnotatedArchive.EveryEditNamesItsRow` | `archive/collector.py:2614-2633` | Hence over every run of store and archive from nothing. |
| `AnnotatedArchive.WalkOverRun` | `archive/collector.py:2722-2763` | Pinning a prefix and a revision after any run and following the cursor while the run goes on, with any page sizes: the walk succeeds exactly when every row of the prefix is readable, and then holds the prefix row by row with its edits at the pinned revision. |
| `AnnotatedArchive.EditedRowIsShown` | `archive/collector.py:2722-2763` | A run that publishes a row and edits it, and a walk over it that returns the row with its edit. |
| `AnnotatedArchive.OversizedRowEndsWalk` | `archive/collector.py:2616` | A run that publishes a row of local sequence 2^63, after which every walk over that row is refused as an invalid request. |
| `JoinIndex.JoinState.Remember` | `archive/collector.py:1032-1073` | Publishing one more row keeps the first-witness index that of all published rows. |
| `JoinIndex.RelationContext.constructor` | `archive/querying.py:549-596` | The rebuild loop fills the nine tables with what the rows determine. |
| `JoinIndex.SnapshotIsRebuild` | `archive/collector.py:2073-2099` | For rows of increasing durable number, the kept index projected at any watermark equals the context rebuilt from the rows up to it, in all nine tables. |
| `JoinIndex.LaterRowsHidden` | `archive/collector.py:2073-2099` | Later publications never change what a pinned prefix shows. |
| `JoinIndex.KeepAndProject` | `archive/collector.py:2073-2099` | Remembering rows one by one and projecting computes the rebuilt context. |
| `Relations.OwnersMean` | `archive/querying.py:564-596` | An owner is recorded for a token exactly when some row of the prefix declares the pair. |
| `Relations.TablesMean` | `archive/querying.py:549-596` | All nine tables from the fields of the rows: the owners under which capture rows declare each update, commit, segment and process, the first and the owned witnesses of each update, and the plans and daemon requests of each request identifier. |
| `Relations.SnapshotMeans` | `archive/collector.py:2073-2099` | The index the collector keeps, projected at a prefix, is those tables of the rows of the prefix. |
| `Relations.TokenMeans` | `archive/querying.py:660-674` | A token is conflicting exactly when two rows claim it under different owners, and valid exactly when some row names an owner and no two differ. |
| `Relations.TokensMean` | `archive/querying.py:660-674` | So for updates, commits and segments, from the fields of the capture rows. |
| `Relations.TokenClimbs` | `archive/querying.py:660-674` | As the prefix grows a token only climbs unmatched, valid, conflicting. |
| `Relations.ProcessMeans` | `archive/querying.py:676-700` | A process is observed exactly when a row records it under a named source, conflicting exactly when two rows name different ones, and else valid to the observer and to that source alone. |
| `Relations.ProcessClimbs` | `archive/querying.py:676-700` | Once observed, a process relation keeps its status until a second source makes it conflicting. |
| `Relations.AssociationMeans` | `archive/querying.py:739-795` | A fully qualified reference is valid exactly when a capture row declares that update under that source and process, stale exactly when capture rows declare the update only under other owners, else unmatched. |
| `Relations.PartialMeans` | `archive/querying.py:739-795` | A reference that leaves out source or process is unmatched when no capture row declares the update, stale exactly when none declares it under just what is named and the first that declares it contradicts what is named, else of unknown owner. |
| `Relations.AssociationClimbs` | `archive/querying.py:739-795` | As the prefix grows the association of any fixed reference, partial ones included, only climbs: unmatched, stale, then valid or, without a full owner, unknown. |
| `Relations.LinkedIsUnique` | `archive/querying.py:839-883` | A linked request names the only daemon request with that identifier in the prefix. |
| `Relations.RequestMeans` | `archive/querying.py:839-883` | An issued request is unmatched exactly when no daemon request row has its identifier, conflicting exactly when such rows give two plans or only others than the one referred to, else linked to the row when it is the only one and ambiguous when there are more. |
| `Relations.PlanMeans` | `archive/querying.py:812-828` | A plan digest is conflicting exactly when requests with two identifiers give it, and valid exactly when those of one do. |
| `Relations.RequestClimbs` | `archive/querying.py:839-883` | As the prefix grows an issued request only climbs unmatched, linked, ambiguous, conflicting, and a link never moves. |
| `Relations.PlanClimbs` | `archive/querying.py:812-828` | As the prefix grows a plan digest only climbs unmatched, valid, conflicting. |
| `Relations.StatusesOfSnapshot` | `archive/collector.py:2073-2099` | Statuses read from the collector's projected index are those of the rows of the prefix alone. |
| `ProducerQueue.Producer.Enqueue` | `archive/producer.py:217-236` | Admission: append when it fits, displace the first low item for a high one, else count and record the refusal. |
| `ProducerQueue.EnqueueMeans` | `archive/producer.py:217-236` | Every capture takes the next number; it joins the end exactly when it fits, or when it is high and some queued item is low, in place of the first such item; every loss is counted and the last 64 are remembered. |
| `ProducerQueue.Producer.Drain` | `archive/producer.py:269-276` | Takes the first items up to the limit and all recorded losses, and the byte counter drops by their sizes. |
| `ProducerQueue.Producer.Requeue` | `archive/producer.py:278-286` | Puts back, last first, each item that still fits and drops the others as counted losses. |
| `ProducerQueue.RequeueMeans` | `archive/producer.py:278-286` | In front of the queue again, in order, are exactly the items that fit, taken from the last on; the others are counted losses. |
| `ProducerQueue.EveryRun` | `archive/producer.py:217-286` | Over every run the count stays within its limit, the byte counter is the exact sum, losses stay within 64, the batch being sent followed by the queue is in strict capture order, and every numbered capture is sent, in flight, queued, dropped or refused. |
| `ProducerQueue.HighsAreKept` | `archive/producer.py:227-233` | Admission never removes a high-priority item. |
| `ProducerQueue.BytesWithinLimitIff` | `archive/producer.py:227-233` | Admission leaves the bytes within the limit exactly when it was tested, refused, or the displaced item makes room: displacement is not tested. |
| `ProducerQueue.BytesCanExceedLimit` | `archive/producer.py:227-233` | A concrete run in which displacement exceeds the byte limit. |
| `ProducerQueue.BytesBound` | `archive/producer.py:238-242` | The bytes are at most the count limit times the largest admitted event. |
| `CollectorQueue.Admission.AcceptOne` | `archive/collector.py:1469-1519` | One observation, on the state before and after. An oversized one, or one met by an unavailable archive, a source not allowed, a storage failure, the capacity stop, or capture off for a kind with content, gets the refusal of the first of these and leaves queue, bytes, identities and publishing count as they were. Otherwise a known identity with equal content is a duplicate, with other content it goes to quarantine, and a new one is queued with its hash recorded exactly when there is room or a displaceable item. |
| `CollectorQueue.AcceptMeans` | `archive/collector.py:1469-1519` | The admission function gives, for every state, observation and gate, that code and leaves that state: the refusal of the first test that fails with queue and identities untouched, or the duplicate, the conflict, or the item queued exactly when there is room. |
| `FencedAdmission.Collector.AcceptOne` | `archive/collector.py:1489-1495` | With the gate read from the source register: what is queued is of a source registered at the serving generation, and one that is not leaves everything as it was. |
| `FencedAdmission.GateIsAdmission` | `archive/collector.py:1489-1495` | The gate that the collector reads is open exactly when the restore protocol enables the admission of that source. |
| `FencedAdmission.QueuedIff` | `archive/collector.py:1469-1519` | So an observation enters the queue exactly when the protocol lets its source in, no other test refuses it, its content is not known already, and there is room or a displaceable item. |
| `FencedAdmission.FencedAddsNothing` | `archive/collector.py:1489-1495` | Over every run of the restore protocol, the admission of a source of an older generation is refused and leaves the queue, its bytes and the identities untouched. |
| `CollectorQueue.Admission.QueueItem` | `archive/collector.py:1608-1637` | Append when it fits, else displace the first low-priority item that is not quarantined for a high one, releasing its identity. |
| `CollectorQueue.Admission.TakeBatch` | `archive/collector.py:1667-1690` | Takes the first items up to the batch size and counts them as being published. |
| `CollectorQueue.AcceptSafe` | `archive/collector.py:1469-1519` | Admission keeps the count limit, the exact byte sum and the event size bound. |
| `CollectorQueue.HighsAreKept` | `archive/collector.py:1608-1622` | Neither high-priority nor quarantined items are ever displaced. |
| `CollectorQueue.BytesBound` | `archive/collector.py:1624-1628` | The queue's bytes are at most the count limit times the event size limit. |
| `CollectorQueue.BytesWithinLimitIff` | `archive/collector.py:1614-1621` | Queueing leaves the bytes within the byte limit exactly when it fitted or the displaced item makes room. |
| `CollectorQueue.BytesCanExceedLimit` | `archive/collector.py:1614-1621` | A state and an item for which displacement exceeds the byte limit. |
| `ArchiveFile.StartUpRecovers` | `archive/collector.py:824-881` | A start truncates the observations to the last durable watermark, re-indexes exactly its rows, and reports a storage failure only when one was recorded or a file is short. |
| `ArchiveFile.StartUpMeans` | `archive/collector.py:824-881` | On any disk a start cuts each file at its watermark, keeps the counters, and sets the failure flag exactly when it was recorded, a file is shorter than its watermark, or a row below the watermark crosses it or does not decode. |
| `ArchiveFile.RebuildFailsIff` | `archive/collector.py:948-977` | Re-indexing fails exactly when, following complete rows from the start, some position below the watermark holds no line that ends by the watermark and decodes. |
| `ArchiveFile.RebuildIndex` | `archive/collector.py:948-977` | The re-indexing loop reads rows up to the watermark and marks a failure at a line that crosses it or does not decode. |
| `ArchiveFile.RebuildReadsLog` | `archive/collector.py:948-977` | Whatever follows the published bytes, the rebuilt index and identities are those of the published rows. |
| `ArchiveFile.OffsetsTile` | `archive/collector.py:979-988` | The offsets and lengths of the index tile the published bytes from 0. |
| `ArchiveFile.VerifyObservations` | `archive/management.py:495-524` | The backup verification loop accepts exactly the files its line, number, local sequence and identity checks allow, and counts their rows. |
| `ArchiveFile.VerifySound` | `archive/management.py:495-521` | What it accepts is numbered consecutively, has local sequences of at most 2^63 - 1, and at most one row that is not a loss notice for each identity. |
| `ArchiveFile.VerifyAccepts` | `archive/management.py:495-521` | A published prefix numbered from 1 with distinct identities is accepted whole exactly when it is within the size bounds and every local sequence is at most 2^63 - 1, and refused otherwise. |
| `CollectorPublish.Publisher.PublishInner` | `archive/collector.py:1696-1808` | One publication on memory, index and disk together, from the batch and what happens to its writes: the items taken are those whose line fits after those taken before; each file gains what its append leaves; one whose append raises counts every taken line as failed, lets go of every ordinary identity and shows nothing; one whose watermark write fails shows nothing; one that is kept counts its lines, claims its identities and indexes each row at the place of its line. |
| `CollectorPublish.PublishMeans` | `archive/collector.py:1696-1808` | The publication function leaves, for every batch, state and outcome of the writes, those files, ledger, identities and index, and reports the publisher alive exactly when its watermark write succeeded. |
| `CollectorPublish.PublishWrites` | `archive/collector.py:1696-1756` | In particular, when both appends land whole, each file is the old one followed by the lines of exactly the items of its kind that fit, in batch order, and the watermark counts them. |
| `CollectorPublish.Publisher.PlanLines` | `archive/collector.py:1708-1739` | The batch loop plans each line within the capacity, numbers the kept rows, and releases the identities it refuses. |
| `CollectorPublish.Publisher.Fail` | `archive/collector.py:1746-1754` | A failed append counts every planned line as failed and releases the identities of the planned rows. |
| `CollectorRuns.SaneStep` | `archive/collector.py:1469-1808` | Every admission, publication step, failure, crash and restart keeps the queue bounds, the unit count and the admission order. |
| `CollectorRuns.UnitsConserved` | `archive/collector.py:1681-1808` | Over every run, outside a running publication each inserted unit is counted once among published rows, quarantine lines, displaced, capacity-refused and failed units, the queue and units being published; after an error that ends the publisher this holds exactly when its batch had no capacity refusal. Dropped units grow by displacements plus saturation refusals. |
| `CollectorRuns.OrderAndBounds` | `archive/collector.py:1608-1690` | Over every run items are published in admission order and the queue keeps its count and byte bounds. |
| `CollectorClaims.AcceptClaims` | `archive/collector.py:1503-1519` | Admission keeps the claims of published rows, planned rows, the batch and the queue on source identities distinct and known. |
| `CollectorClaims.RowsUnique` | `archive/collector.py:1503-1519` | Hence the rows shown, and those with the planned ones, hold each identity at most once, loss notices apart. |
| `CollectorClaims.LoadedClaims` | `archive/collector.py:1013-1016` | After a restart the identity table holds exactly what the published rows claim. |
| `CollectorDurability.StepInv` | `archive/collector.py:1469-1816` | When observation appends land whole or add nothing, every step keeps the durable rows numbered, unique, within capacity and exactly where the watermark says. |
| `CollectorDurability.EveryRestartRecovers` | `archive/collector.py:824-977` | After any such run, any crash and whatever it leaves, a restart recovers exactly the rows of the last durable watermark: numbered from 1, each identity once, durable bytes equal to the offset, within capacity. |
| `CollectorDurability.ShownIsDurable` | `archive/collector.py:1795-1808` | The rows a running collector shows are durable, equal to the durable ones when idle, and their index tiles their bytes. |
| `CollectorDurability.ReachableArchiveVerifies` | `archive/management.py:495-524` | Every reachable published archive is accepted by the observation checks of a backup verification exactly when it is within the size bounds and every local sequence is at most 2^63 - 1. |
| `CollectorQuarantine.HeldStep` | `archive/collector.py:1696-1816` | When appends land whole or add nothing and no publication fails after its quarantine lines are on file, every step keeps the durable quarantine bytes the length of the lines of the counted observations, and the file beginning with those. |
| `CollectorQuarantine.QuarantineRecovered` | `archive/collector.py:1741-1816` | After any such run, any crash and whatever it leaves, a restart cuts the quarantine file to exactly those lines and finds it long enough. |
| `CollectorQuarantine.NothingNewReported` | `archive/collector.py:824-881` | Without that condition too: while quarantine appends are not short and observations land whole or not at all, a restart never finds the quarantine file short and reports no failure that was not recorded. |
| `CollectorQuarantine.WatermarkNamesHeldIff` | `archive/collector.py:1741-1756` | Over a file on which a failed publication left some bytes, the next watermark counts lines the file begins with exactly when what was left, followed by the new lines, begins with the new lines. |
| `CollectorQuarantine.StrayLineCounted` | `archive/collector.py:1741-1756` | A run from an empty archive in which a quarantine line lands and the row append after it raises: the next watermark counts its own line, and the file begins with that exactly when the two lines are equal. |
| `CollectorCodec.SoundCodecExists` | `archive/collector.py:1716-1726` | An encoding as the recovery results assume it exists, even with one given row as short as a line can be. |
| `CollectorFailures.WatermarkNamesRowsIff` | `archive/collector.py:1741-1808` | Over a file on which a failed append left some bytes, the append and the watermark write that follow name the new rows exactly when those bytes, followed by what landed, begin with the lines of the new rows. |
| `CollectorFailures.WholeAppendIff` | `archive/collector.py:1746-1756` | When it lands whole this needs that nothing was left or that what was left begins with the first new row, and for one row it is exactly that. |
| `CollectorFailures.ShortAppendIff` | `archive/collector.py:1810-1816` | An append whose byte count is not looked at publishes its rows exactly when it was not short. |
| `CollectorFailures.FailedAppendIff` | `archive/collector.py:1646-1808` | From any sound idle state with one ordinary item queued and the next admitted meanwhile: after a failed append and the next batch, the durable watermark names its rows exactly when nothing was left or what was left begins with the next row. |
| `CollectorFailures.FailedAppendFromNothing` | `archive/collector.py:1646-1808` | The same over a run from an empty archive. |
| `CollectorFailures.FailedAppendBreaksPrefix` | `archive/collector.py:1746-1756` | A run from an empty archive in which one stray byte of a failed append leaves a durable watermark that does not name its rows. |
| `CollectorFailures.RefusalCountedTwice` | `archive/collector.py:1704-1795` | A run from an empty archive in which a unit refused for capacity is counted as being published too, after the watermark write fails. |
| `CollectorFailures.OversizedRowRefused` | `archive/management.py:505-510` | A run from an empty archive that publishes one row of local sequence 2^63: a restart recovers it, and verification refuses the archive. |
| `EvidenceBounds.ComputeEvidence` | `daemon/ann.py:710-835` | The whole computation, from events and cosines. Each kept contribution is of an allowed event whose cosine with its own query exceeds tau, with relevance (min(cosine, 1) - tau) / (1 - tau) and that times the age factor as weight; at most K, best first; and every allowed event left out has a cosine of at most tau, matches no candidate in that mode, or is no better than any of K kept. Masses and scores follow, within the evidence bound. |
| `EvidenceMeaning.KeptIs` | `daemon/ann.py:771-814` | For any allowed set and in both query modes the kept list holds at most K contributions, best first, each of an event above tau with the relevance and weight of its cosine and usage age, and leaves out only events at or below tau, unmatched ones, or ones no better than K kept. |
| `EvidenceMeaning.NearerWeighsMore` | `daemon/ann.py:771-806` | At equal usage age an event of a higher cosine never weighs less. |
| `EvidenceMeaning.SameKeyIs` | `daemon/ann.py:710-718` | The same-key events are exactly those of the key that are not excluded, each as often as it is active, earliest first. |
| `EvidenceMeaning.AllowedMeans` | `daemon/ann.py:719-750` | An event is allowed exactly when it is one of those and some search found it or it is in the delta. |
| `EvidenceMeaning.ScoreIs` | `daemon/ann.py:821-835` | With total M and saturation k, score * M * (mass + k) is the square of the mass, or the score is 0 when M is. |
| `EvidenceBounds.CollectAllowed` | `daemon/ann.py:719-750` | The allowed set is the hits outside the delta, with the delta, restricted to the same-key events. |
| `EvidenceBounds.Accumulate` | `daemon/ann.py:821-824` | The mass of each candidate is the sum of the kept weights matched to it. |
| `Evidence.RetrievedIsExact` | `daemon/ann.py:807-835` | If every event of the exact top K is allowed, the kept list, and with it every mass and score, is the exact one, in both query modes. |
| `Evidence.HitsSuffice` | `daemon/ann.py:719-750` | It is enough that the hits contain every event of the exact top K outside the delta. |
| `Evidence.RetrievedWeighsAtMostExact` | `daemon/ann.py:807-810` | Whatever was retrieved, the kept weights sum to at most the exact sum. |
| `EvidenceBounds.UsageAgeCountsAll` | `daemon/ann.py:775-782` | The usage age of a kept event is the number of later same-key active events, retrieved or not. |
| `EvidenceBounds.EvidenceBound` | `daemon/ann.py:821-835` | Every score is non-negative and positive exactly with its mass, the total mass is at most K, and the scores sum to at most M/(M+k) <= K/(K+k) < 1. |
| `EvidenceBounds.BruteForceIndex.Search` | `daemon/ann.py:217-228` | Returns the first `count` identifiers by falling cosine, ties by identifier, and none below one. |
| `EvidenceBounds.SearchIsNearest` | `daemon/ann.py:217-228` | Nothing outside the answer is nearer than something inside it. |
| `EvidenceBounds.BruteForceIsExact` | `daemon/ann.py:217-228` | With overfetch at least the index size the brute-force index gives the exact evidence in both modes. |
| `ContentGate.ContentGate.AcquireLease` | `archive/management_gate.py:19-24` | A lease is granted exactly when no other thread holds the transition. |
| `ContentGate.ContentGate.BeginTransition` | `archive/management_gate.py:32-37` | The transition begins exactly when nobody holds it or a lease. |
| `ContentGate.ExclusionKept` | `archive/management_gate.py:19-43` | Over every sequence of calls the count is the number of leases held, and while a thread holds the transition no other thread holds a lease. |
| `ContentGate.TransitionExcludes` | `archive/management_gate.py:32-43` | Once begun, nobody else can acquire a lease or begin or end a transition. |
| `Authority.Authority.Register` | `archive/management_authority.py:195-206` | A known source is answered and never re-registered; a new one is written at the current generation before it is used. |
| `Authority.RegisterMeans` | `archive/management_authority.py:195-206` | A registration adds at most its own source, at the serving generation; refused or failed writes add nothing; an uncertain write leaves old or new on disk and the failed mark. |
| `Authority.Authority.SeedHistory` | `archive/management_authority.py:178-193` | Sources of existing rows are registered at generation 0 at the first cutover and below the current generation later. |
| `Authority.SeedMeans` | `archive/management_authority.py:178-193` | Seeding adds exactly the unknown sources, at one below the serving generation or 0, and changes no known one. |
| `Authority.SeededIsFenced` | `archive/management_authority.py:178-193` | Once generations have begun, seeding lets none of its sources in. |
| `Authority.Authority.Switch` | `archive/management_authority.py:230-235` | One control write moves the generation, the serving job and the commitment together. |
| `Authority.Authority.WriteControl` | `archive/management_authority.py:160-170` | A write refused for size changes nothing; one that fails before or after the replacement leaves the old value and the failed mark. |
| `Authority.RegisterKeeps` | `archive/management_authority.py:195-211` | Registration keeps the file well formed and existing generations, and is refused to a source of an older generation for good. |
| `Authority.SwitchKeeps` | `archive/management_authority.py:230-234` | A switch keeps the file well formed, whatever its write does, and takes nothing back. |
| `Authority.SwitchFencesAll` | `archive/management_authority.py:208-211` | Right after a switch no source is allowed. |
| `Authority.CommittedCount` | `archive/management_authority.py:94-104` | The committed jobs of a well-formed file are one to one onto 1..generation, so there are exactly as many. |
| `RestoreSafety.StepInv` | `archive/management.py:556-659` | Every step of admission, publication, edits, registration, checkpoints, restore, cleanup, crash and start-up, with the tails it cuts and the state it writes, keeps the whole protocol invariant. |
| `RestoreResults.CommitPoint` | `archive/management.py:560-585` | When the control write happens admission is fenced, nothing is queued or being published, no reader holds a lease, and the replaced content is the confirmed one in every core file but the state file, at the confirmed generation. |
| `RestoreResults.FrontierIff` | `archive/management.py:572-585` | From the recheck to the control write the replaced content stays the confirmed one, state file included, exactly unless a checkpoint rewrites the state file in between. |
| `RestoreResults.CommitReplacesFrontier` | `archive/management.py:572-585` | So over every run without such a checkpoint the control write replaces exactly the confirmed frontier. |
| `RestoreResults.PublishedAfterSwitch` | `archive/collector.py:1489-1495` | Over every run, rows published once a generation serves come from sources registered at it or later, each at exactly the generation serving at its publication; generations never go down. |
| `RestoreResults.FencedForever` | `archive/management_authority.py:195-211` | Over every run no source of an older generation is ever allowed again. |
| `RestoreServing.HistoryIsFenced` | `archive/management_authority.py:178-193` | Every source with a row in the restored content is known and fenced from the moment the switch lands, and after the restart of a process that did not learn that it landed. |
| `RestoreServing.LandingServes` | `archive/management.py:583-592` | Landing the control write puts the whole backup and nothing else in service, rows included, and writes no other file. |
| `RestoreServing.OldOrNew` | `archive/management.py:556-659` | One step leaves a core file of the content a restart would serve as it was, unless it writes that file for the service or at start-up, or is the control write, which puts the backup's there. |
| `RestoreServing.AllOrNothing` | `archive/management.py:556-659` | Over every run: from any reachable moment on, whatever steps, crashes and restarts follow that do not write a core file for the service or at start-up, a restart serves that file as it was if no control write landed, and the backup's if one did. |
| `RestoreServing.RestartSettles` | `archive/management.py:63-80` | After any run a restart, wherever it stops, serves a complete root; once it is up no job is pending and a job has succeeded exactly when it is committed; committed jobs are one to one onto 1..generation with the serving one at the top. |
| `RestoreResults.StartDisk` | `archive/collector.py:718-746` | Of all content a start writes only the serving root: the tails it cuts, and the state file, which gets back the state that was found in it. |
| `RestoreServing.SucceededIsCommitted` | `archive/management.py:603-605` | Between restarts too, a job that has succeeded is committed. |
| `RestoreServing.ReachableControlAccepted` | `archive/management_authority.py:79-104` | Every control file a run can leave passes the checks of start-up. |
| `RestoreServing.CleanFiles` | `archive/management.py:638-650` | The cleanup loop unlinks only files whose bytes are the confirmed ones, and completes exactly when all present ones are. |
| `RestoreServing.CleanOnlyReplaced` | `archive/management.py:618-650` | Cleanup touches only the content a committed discard replaced, never the serving root or the root a restart would serve. |
| `RestoreState.CoherentIff` | `archive/collector.py:1824-1827` | The state file in service describes the archive it lies in after every step, except exactly after a checkpoint that writes another archive's state into the serving root. |
| `RestoreState.CoherentRun` | `archive/collector.py:1824-1827` | Hence over every run in which no checkpoint does so. |
| `RestoreState.StraightUntilSwitch` | `archive/management.py:583-597` | A checkpoint can do so only if it straddles a landed control write or reads the state before the reload that follows it. |
| `RestoreState.SaveHeals` | `archive/management.py:586-597` | One that is written between the reload and the state write that follows it is undone by that write. |
| `RestoreExamples.SwitchReached` | `archive/management.py:556-592` | From any new archive a restore can reach its control write and land it. |
| `RestoreExamples.StraddlingCheckpoint` | `archive/collector.py:1824-1827` | A run from a new archive in which a checkpoint reads the state before the control write and writes it before the reload: the restore succeeds, serving the restored rows with the replaced archive's state, in memory and on disk. |

## Left out

- Sockets, framing, the command line, the text interface, ownership, permission, alias and path checks: input and output plumbing.
- Hashing, JSON and base64 cursors as algorithms; only the length of an annotation row's encoding is computed.
- Field-by-field validation of plugin and daemon observations and the timing canonicalization: an observation arrives as malformed, unsupported or prepared.
- Concurrency below the granularity of one critical section, one append, one state write: each is one step, with any step of other threads between two of them.
- The publication, phase and control holds, and cancellation hooks: test seams.
- Continuity epochs, break reasons, `clean_stop`, `crash_tail`, discarded-byte reports and the policy file: they decide nothing modelled here.
- The state file write of the collector is atomic and whole; that `atomic_write` also ignores the count `os.write` returns is not modelled.
- Datasets outside `inspect`'s partition and corpus passes: choice rows, overlap statistics, bundles, freezing and their jobs; a row's own checks are one flag.
- In the dependency pass, exclusions that spread along a link, and scoring rows attached to a row: they feed the row's own checks.
- The bound on the bytes of one response (`page_bytes_bound`), which can end a walk at a page of rows too large to send, and a query for one exact reference.
- Evidence vectors: a cosine is any function of the event, or of the candidate and the event; vector faults and floating-point rounding are not modelled.
- Dataset copies, backup jobs step by step, manifests and preview counts in the restore: a backup is the served files at one moment, as its verification demands of it.
- The restore thread and the management jobs are a step relation on values; how `job` dictionaries are updated in place is not captured.
- The policy lock of the restore switch, and the policy revision and dataset inventory in its frontier.
- RestoreResults.CommitPoint: leaves out the state file, because a checkpoint may rewrite it between the recheck and the commit; exactly when it does is stated by `FrontierIff`.
- RestoreServing.AllOrNothing: speaks of the content in service; the replaced root can still be written by a checkpoint that read its path before the switch, and by cleanup.
- Start-up in the restore model settles all jobs at once; its cleanup of a committed discard is the cleanup step that follows it, and a set of files that is not there yet is not created.
- A publisher thread that dies holding its batch keeps the publication mutex in the restore model; the code releases it, and the restore is then refused at the recheck.
