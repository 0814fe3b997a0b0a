# DBReduce: a verified model

DBReduce shrinks a PostgreSQL database while a failure seen by an external oracle stays
reproducible. This project models its hard core in Dafny and proves what the program relies on.

## What is modelled

**Ownership and cleanup.** `Server` is the catalog as the run sees it: names with OID, owner,
marker and content, CREATE and DROP statements that finish after their reply was lost, and
everything other people can do between two statements. `Cluster` has one method per statement,
`Cleanup` the single removal contract, `Tracking` what a client knows of its databases and why
every step keeps it, `CloneStore` and `Workspace` the two objects that create databases,
`Ownership` whole runs of both and the meaning of the cleanup report.

**The reducer.** `Rows`, `States` and `Deletion` read and delete rows, `Fingerprint` and
`Caching` identify candidates, `Verdicts` and `Oracle` decide and confirm them. `Steps` is one
abstract attempt; `SnapshotBackend` and `CloneBackend` are the two implementations, both proved
to take exactly that step and to log it for a true reason; `Backends` draws the conclusion that they
agree, and `Engine` proves what the reduction loop returns. `LogicalWorld` is the world without
triggers, where what these proofs assume of deletion and digest is derived from `Deletion` and
`Fingerprint`. `Ddmin` has the chunk schedule, `Components` the table groups.

**Schema reduction.** `TocFields` tokenizes archive entries, `Removal` closes removals over
dependencies, `SchemaReduction` is the search over whole tables with its accounting.

**Cancellation.** `Cancellation` is the signal state machine with nested sections and the object
that implements it; `Watchdog` is the race between forced exit and a finished shutdown.

`Ordering`, `Reachability`, `Keeping`, `Schema` and `Wrappers` support the others.

## How steps, replies and signals are modelled

A statement takes effect and replies in one call, with every combination of effect and reply the
server allows chosen at will. Between two statements `Turn` lets any number of foreign and late
steps happen and any number of signals arrive, so a contract holds for all of them. `Moves(s, t, c)`
says how far the server can go when, besides the environment, only client `c` acts; contracts
relate the states before and after a call with it.

Assumptions, stated in `Server`: OIDs are never reused; nobody renames a database; nobody but this
run writes its markers or writes into its databases; nothing happens between the catalog check and
the DROP inside one removal; a reply with a SQLSTATE means the statement has ended; generated names
are fresh. `Deterministic` says that the digest tells contents apart and that deletion and oracle
answer alike on equal content; `LogicalWorld.LogicalIsDeterministic` derives it, without triggers,
from dumps that differ in more than row order and an oracle steady on each content. `Robust` says that
nothing stops a run from inside; `LogicalWorld.LogicalIsRobust` derives it from an oracle that decides
every execution, and `LogicalWorld.EveryRowIsNeeded` says what a reduction then leaves. Everything
else - oracles that answer differently each time, write anything, time out or fail; triggers that
add rows - is covered by the contracts that do not mention these hypotheses.

`calm` says that from some point on nothing goes wrong: nobody else acts, no statement fails, no
signal comes. It is never assumed; clauses with `Peaceful` or `Smooth` on their left say what an
operation must then achieve - the exact catalog it leaves, and that it returns - so that an
operation doing nothing, or giving up, would not meet its contract.

`squatted` is the set of generated names under which somebody else created a database. Contracts
about content hold where it is empty at the end of the call. `recorded` is the history of every
identity this run recorded as its own, `dropped` of every database its DROP statements removed,
`listed` the names on the lists of leftovers. `Postgres.trail` is what statements about single
databases did and read, and which failures a removal met, in order; `Postgres.looks` is every state
in which the watchdog could have looked: they let contracts speak of order and of every moment inside
an operation.
`missed` counts oracle executions that did not reach their database; a run is `undisturbed` while
no name is taken and none was missed.

Every probe of a reduction carries what it was asked on, the answer with its reason, and the
accepted content after it. `Steps.Explained` ties the reason to the deletion function and to the
oracle's own record of executions, and `Steps.ExplainedSteps` shows that such a probe is the abstract
step, so that the claims of `Engine` are about deletion and oracle, not about labels.
`SchemaReduction.RulingExact` does the same for whole tables.

Where a method and its specification share a definition, a lemma says in other terms what that
definition means, if and only if: verdicts from the fields of the evidence (`Verdicts.DecidedIff`),
abstract steps from row counts and evidence (`Steps.StepExact`), counters from the log
(`Steps.CountersExact`), marked rows from chains of references (`Deletion.MarkedIff`), digest input
from the bytes of printed dumps (`Fingerprint.PrintedExact`), removal sets from dependencies, comments
and sequences (`Removal.RemovalExact`), selections from decimal ids (`Removal.SelectedIff`), rulings
from restores, tables and evidence (`SchemaReduction.RulingExact`), and the result of a removal from
what it met (`Cleanup.OneStatus`).

## Where the code does less than it seems to

- A database created by somebody else under the new random name, between the CREATE and reading
  its identity back, is recorded, marked and later dropped (`Ownership.SquatterIsDropped`). What was
  read back is the database made if and only if nobody created one under the name in that window
  (`Ownership.ReadBackIsOwnIffNotTaken`). A replacement made later survives, even one made before the
  COMMENT: the identity recorded is the one read before it (`CloneStore.CloneStore.Record`), and a
  DROP only hits an OID and owner read so (`Ownership.RecordedMeansReadBack`). docs/guide.md:422-423
  promises a match with what DBReduce created; the code compares with what it read back.
- The watchdog's report of leftovers reads `owned` and then `unproven` while the main thread goes on
  (src/dbreduce/postgres/clone.py:110-133, in the same way the flags in
  src/dbreduce/postgres/database.py:380-396). At every single moment the two together name everything
  of this run (`Ownership.Session.Run`), but a database recorded between the two reads is in neither
  part (`Ownership.TornReportMisses`); the report is complete if and only if no database that is left
  was (`Ownership.TornReportCompleteIff`).
- `created = |owned| + dropped + already_absent` fails by one when a first signal comes between
  forgetting a database and counting it (src/dbreduce/postgres/clone.py:359-364,
  `CloneStore.SignalLosesCount`). The two statements keep it for all signals if and only if they are
  reached inside a section, after commit, or with a signal already requested
  (`CloneStore.BalancedIffShielded`); a `drop` called so always keeps it.
  A removal whose section was interrupted is counted as already absent by the next one.
- A checkpoint raises inside a protected section and can raise again
  (`Cancellation.CheckpointRaisesInsideSection`); `CheckpointRaises` says exactly when.
- A COPY block without its end-of-rows line has its last line hashed twice, so row order shows:
  for two lists of lines, the same lines are then hashed if and only if they agree up to row order in
  blocks and end in the same line (`Fingerprint.CanonExact`).
- A signal between `self.accepted_db = candidate_db` and `promoted = True`
  (src/dbreduce/postgres/backend.py:198-202) makes the `finally` clause drop the database just
  made the accepted one, and the drop's own exception can replace `Cancelled`. Likewise one between
  replacing the archive and updating the state (src/dbreduce/postgres/backend.py:104-105) leaves
  the two apart. Both backends are in order after every return and after every exception unless
  `Cancelled` was delivered; the run then ends without a result.

## Model

| member | source | states |
|---|---|---|
| Server.EnvironmentMoves | src/dbreduce/postgres/database.py:240-306 | no step of anybody else, and no late statement, makes an earlier DROP unsafe, reuses an OID, changes the content of a database of this run, or makes one appear except from a CREATE that was still running |
| Server.MovesTransitive | src/dbreduce/postgres/database.py:223-342 | any number of steps of the environment and one client stays within what each of them may do, so the guarantees hold over whole runs |
| Server.GoneMoves | src/dbreduce/postgres/database.py:268-271 | a DROP taking effect, late or not, removes exactly the checked database and keeps every earlier guarantee |
| Cluster.Postgres.CreateDatabase | src/dbreduce/postgres/clone.py:192-194 | the four things a CREATE can come to: made, refused as a duplicate, rejected, or its reply lost with the statement possibly still running; a template's content is copied; on a calm server a free name gets exactly the new database |
| Cluster.Postgres.Drop | src/dbreduce/postgres/database.py:268-271 | the DROP may only be sent for the entry just checked; a confirmed one leaves the name free, a lost one may finish later |
| Cluster.Postgres.Turn | src/dbreduce/cancellation.py:133-152 | between two statements anything others do can happen, and a signal raises only outside sections and before commit |
| Cleanup.DropOwnedDatabase | src/dbreduce/postgres/database.py:223-306 | the result is exactly what the call met, for every failure of the server: unknown if and only if the shutdown budget was used up, the connection or a reply was lost without the catalog showing the database gone, or the catalog could not be read after the DROP; not removed if and only if the server rejected a statement and, after the DROP, the database is still there; absent if and only if no entry was read; unverified if and only if an entry with another OID, owner or marker was; removed if and only if the DROP was confirmed or the OID was not under the name afterwards. A result that counts as done means the OID is under no name any more; only the database asked for, checked by OID, owner and marker, can have been dropped; on a calm server an intact database is removed and nothing else changes |
| Cleanup.OneStatus | src/dbreduce/postgres/database.py:240-306 | what a removal can meet determines its result: no two results fit the same history |
| Cleanup.AfterLostDrop | src/dbreduce/postgres/database.py:282-306 | after an error the one reading that follows decides: removed if it shows no database of that OID, not removed if it does and the server had rejected the DROP, unknown if the reply was lost or the reading failed; removed only if the OID is really gone |
| Cleanup.FindForDrop | src/dbreduce/postgres/database.py:256-268 | the check before the DROP passes only the entry with the recorded OID, owner and marker; otherwise the result follows from the one failure or the one reading it met: unknown exactly for a lost connection or reply, not removed for a rejection, absent for no entry, unverified for another one; absent means the OID is gone |
| Cleanup.SettleUnprovenCreate | src/dbreduce/postgres/database.py:309-342 | False is answered only when the database is not there and its CREATE can no longer finish; an answer is what the only reading of the name showed, and without a reading there is none; on a calm server it answers whether the database is there, and the CREATE no longer runs |
| Cleanup.AbsentStays | src/dbreduce/postgres/database.py:296-297 | a database found gone stays gone, whatever anybody does under its name |
| Tracking.TrackedStays | src/dbreduce/postgres/clone.py:110-133 | every live database of a client stays recorded or unproven through any steps of others, late CREATEs included |
| Tracking.TrackedRecord | src/dbreduce/postgres/clone.py:197-211 | moving a name from unproven to recorded loses no live database, even if the identity read back was not the one created |
| Tracking.TrackedPop | src/dbreduce/postgres/clone.py:359-359 | forgetting a recorded database that is gone loses nothing |
| Tracking.NotOursStays | src/dbreduce/postgres/clone.py:213-217 | after a duplicate-name reply no database of this run can appear under the name |
| CloneStore.CloneStore.Create | src/dbreduce/postgres/clone.py:174-241 | on return exactly one new database is recorded, holding the template's content; on an exception nothing recorded before is lost and only Cancelled can leave a new record; every database that may exist stays tracked; attempts and failures are counted; on a calm server the catalog gains exactly the new database, marked and open for connections |
| CloneStore.CloneStore.Record | src/dbreduce/postgres/clone.py:196-212 | reading back, marking and recording is one section: no signal splits it; on a return the identity recorded is the one read, once, before the COMMENT was sent, of a database that existed then; any exception but Cancelled leaves the name unproven and nothing recorded |
| CloneStore.CloneStore.AfterFailure | src/dbreduce/postgres/clone.py:213-241 | the name is given up as unproven only after a duplicate reply, or a rejection with the catalog showing no such database and no CREATE running; unless Cancelled comes instead, a name still unproven is reported as such and any other error is passed on; on a calm server a rejection that made nothing is settled |
| CloneStore.CloneStore.Verify | src/dbreduce/postgres/clone.py:254-273 | returns only if the catalog shows the recorded OID, owner and marker under the name; an unrecorded handle is always refused |
| CloneStore.CloneStore.Freeze | src/dbreduce/postgres/clone.py:275-284 | only a recorded handle is frozen, exactly when the call returns, and then this call banned connections and after that saw no session in the database; on a calm server it returns, and the only change in the catalog is that the database admits no connections |
| CloneStore.CloneStore.WaitQuiescent | src/dbreduce/postgres/clone.py:286-306 | a return means the last look found no session in the database; polling changes nothing of the store and always ends |
| CloneStore.CloneStore.Clone | src/dbreduce/postgres/clone.py:308-329 | only a recorded, frozen source is cloned: in this call it was seen as recorded with this run's marker, after that closed for connections, last without sessions, and right after that the CREATE from it was sent; where nobody took a name the clone holds the source's content; on a calm server cloning a closed, frozen source succeeds |
| CloneStore.CloneStore.Drop | src/dbreduce/postgres/clone.py:331-364 | a return means the record is gone and so is the OID; an ordinary failure keeps the record; nothing else is touched, and only the recorded identity can have been dropped; Cancelled cannot come from inside an enclosing section; last_cleanup and the three counters follow the result; inside a section, after commit or with a signal pending no count is lost; on a calm server a database that is as recorded is removed |
| CloneStore.CloneStore.PopAndCount | src/dbreduce/postgres/clone.py:359-364 | the record disappears; exactly one of dropped and already absent goes up on a return; the count is skipped only by Cancelled outside sections, and never inside a section, after commit or with a signal pending |
| CloneStore.BalancedIffShielded | src/dbreduce/postgres/clone.py:359-364 | from balanced books, forgetting and counting keep created = owned + dropped + already absent for all signals between the two statements if and only if the call is made inside a section, after commit, or with a signal already requested |
| CloneStore.SignalLosesCount | src/dbreduce/postgres/clone.py:359-364 | a concrete run: pop, a first signal, and the count is lost by one |
| CloneStore.CloneStore.Close | src/dbreduce/postgres/clone.py:366-384 | a normal return means no leftovers, and that under no name of this store a database lives or can still appear; on a calm server it returns and leaves the entries of all other databases as they were |
| Workspace.Workspace.Create | src/dbreduce/postgres/database.py:398-453 | a return means one new recorded database and no unproven name; any exception keeps the workspace tracked; a replaced workspace is dropped only under its recorded OID and owner; on a calm server it returns with the database there and recorded |
| Workspace.Workspace.AfterFailure | src/dbreduce/postgres/database.py:432-453 | the unproven flag is cleared only after a duplicate reply, or a rejection with the catalog showing no such database and no CREATE running; unless Cancelled comes instead, a standing flag is reported and any other error is passed on |
| Workspace.Workspace.CloseProtected | src/dbreduce/postgres/database.py:465-511 | a return means neither a recorded nor an unproven database is left; only the recorded OID and owner can have been dropped; created = present + dropped + absent always |
| Workspace.Workspace.Close | src/dbreduce/postgres/database.py:460-463 | as above, with cancellation only after the section; a return means no database lives or can appear under the name; only the recorded OID and owner can have been dropped |
| Workspace.Workspace.Reset | src/dbreduce/postgres/database.py:455-458 | after a return the new database holds what the archive restores; a restore that stops raises its reason; only the recorded OID and owner of the old one can have been dropped; on a calm server the archive alone decides whether it returns |
| Ownership.Session.Run | src/dbreduce/cli/__init__.py:117-144 | over any sequence of operations of workspace and clone store - lost replies, rejections, late statements, foreign actions and signals in between - every DROP that took effect hit an OID that this run had recorded with that owner, as read back between CREATE and COMMENT, under a name of this run and the marker of the client that recorded it; that database was made by this run or is one read back in place of its own; at every moment in between, whatever of this run lived or could still appear was on the lists; and empty leftovers mean nothing remains |
| Ownership.RecordedMeansReadBack | src/dbreduce/postgres/clone.py:196-212 | every identity dropped was read after a CREATE of its name and before the COMMENT that followed, with nothing in between, and no database made after that reading has it |
| Server.ReportedStays | src/dbreduce/postgres/clone.py:110-133 | no step of anybody else, and no late statement, makes a database of this run live, or a CREATE of it run, that the lists of leftovers do not name |
| Ownership.Session.ListedIsLeftovers | src/dbreduce/postgres/database.py:380-396 | the names listed are exactly those the two objects report |
| Ownership.TornReportCompleteIff | src/dbreduce/postgres/clone.py:110-133 | a report that reads the recorded names first and the unproven ones a moment later is complete if and only if nothing left by the client was recorded in between |
| Ownership.TornReportMisses | src/dbreduce/postgres/clone.py:110-133 | a concrete run in which a live, tracked database is in neither part of such a report |
| Ownership.SafeMeansRecorded | src/dbreduce/postgres/database.py:240-306 | what every step keeps gives the guarantee about every database dropped so far, whatever others made and replaced under the same names |
| Ownership.EmptyLeftovers | src/dbreduce/cli/__init__.py:131-139 | empty leftovers of both objects: no database made by this run lives on the server and no CREATE of it is still running |
| Ownership.Session.ReportCancellation | src/dbreduce/cli/__init__.py:117-144 | the cleanup is reported complete exactly when there are no leftovers, and then nothing remains and the exit status is 128 plus the number of the signal requested, or plus that of SIGTERM if none was; otherwise it is 1 |
| Ownership.Session.CloseBoth | src/dbreduce/postgres/clone.py:366-384 | closing store and workspace is complete only if nothing made by this run remains; on a calm server, with what is recorded there as recorded or gone, it is complete |
| Workspace.Workspace.DropRecorded | src/dbreduce/postgres/database.py:466-494 | only the recorded OID under the recorded owner can have been dropped; last_cleanup, the record and the counters follow the result: exactly one of dropped, absent and failed goes up |
| Cluster.Postgres.Acknowledge | src/dbreduce/postgres/clone.py:197-211 | an identity enters the history only if it was read under a name of this run after its CREATE and before its COMMENT with nothing in between, and is that of the database made or of one somebody else put there |
| Ownership.ReadBackIsOwnIffNotTaken | src/dbreduce/postgres/clone.py:197-202 | over every sequence of foreign and late steps between the CREATE and reading its identity back, whatever happened under the name before: the identity read is that of the database made if and only if none of these steps created another under the name |
| Ownership.SquatterIsDropped | src/dbreduce/postgres/clone.py:196-212 | a concrete run in which somebody replaces the new database before its identity is read back, and the later check before the DROP accepts the replacement |
| Keeping.KeepsTransitive | src/dbreduce/postgres/clone.py:308-329 | work on clones in sequence keeps every database recorded before, and its content |
| Keeping.WritingKeeps | src/dbreduce/postgres/backend.py:155-207 | whatever is written into a candidate or an oracle clone, databases recorded before it keep their content |
| Cancellation.FlagsMean | src/dbreduce/cancellation.py:133-180 | over every run each flag is a fact about the events so far: depth, a signal came, committed, somebody raised |
| Cancellation.RaiseOnce | src/dbreduce/cancellation.py:133-169 | the handler and the section exits together raise at most once, never inside a section and never after commit |
| Cancellation.HandlerRaises | src/dbreduce/cancellation.py:133-152 | the handler raises exactly for the first signal, outside sections, before commit |
| Cancellation.ShieldedNeverRaises | src/dbreduce/cancellation.py:133-152 | a batch of signals between two statements raises exactly if there is one and the code is outside sections, before commit, with none pending |
| Cancellation.ExitRaises | src/dbreduce/cancellation.py:154-169 | leaving a section raises exactly when it was the outermost, a signal came, nobody raised yet and nothing was committed |
| Cancellation.DeferredSignalIsRaised | src/dbreduce/cancellation.py:154-169 | a signal deferred by a section before commit is raised when the outermost section closes, unless a checkpoint raised it or commit came first - if and only if |
| Cancellation.CheckpointRaises | src/dbreduce/cancellation.py:171-175 | a checkpoint raises exactly when a signal came and nothing was committed, inside sections too |
| Cancellation.CheckpointRaisesInsideSection | src/dbreduce/cancellation.py:171-175 | a concrete run where a checkpoint raises twice inside an open section |
| Cancellation.RunControl.Handle | src/dbreduce/cancellation.py:133-152 | the object follows the state machine; the deadline is set by the first signal only, later ones are counted |
| Cancellation.RunControl.CheckSection | src/dbreduce/cancellation.py:161-169 | the second half of leaving a section follows the state machine |
| Cancellation.RunControl.CheckpointHere | src/dbreduce/cancellation.py:171-175 | the object's checkpoint follows the state machine |
| Cancellation.RunControl.CommitResult | src/dbreduce/cancellation.py:177-180 | commit takes effect only on the active control |
| Cancellation.RunControl.Bounded | src/dbreduce/cancellation.py:191-194 | the timeout is the default without a deadline; with one it is the smaller of default and time left where both are at least a second, and one second otherwise |
| Watchdog.ExitOrFinish | src/dbreduce/cancellation.py:224-249 | in every interleaving of main thread and watchdog, forced exit and a returned finish exclude each other, and forced exit needs a signal and the deadline plus the report margin to have passed |
| Watchdog.ExitWhenDue | src/dbreduce/cancellation.py:224-249 | while the watchdog waits, nobody holds the lock and the shutdown is not finished, it can time out, decide and exit now if and only if both the deadline and the moment it woke lie the margin back: not earlier, and without waiting any longer |
| Watchdog.DeadlineIsFirstSignal | src/dbreduce/cancellation.py:141-143 | the deadline is that of the first signal, whatever comes later |
| Watchdog.FinishWins | src/dbreduce/cancellation.py:107-110 | once finish has returned no forced exit follows |
| Rows.ReadTable | src/dbreduce/postgres/rows.py:24-37 | numbering equal rows in value order: the keys, and for each key the row id it came from |
| Rows.NumberedKeys | src/dbreduce/postgres/rows.py:29-36 | the keys are exactly (v, k) with k below the number of rows equal to v |
| Rows.StateIsMultiset | src/dbreduce/postgres/rows.py:30-36 | two listings in value order give equal keys if and only if they hold equal rows, counting duplicates |
| Rows.SameKeysSameRows | src/dbreduce/postgres/rows.py:24-37 | two tables have equal keys if and only if they hold equal rows, whatever their row ids |
| Rows.SubmultisetKeys | src/dbreduce/postgres/rows.py:29-36 | after a deletion the surviving keys are old keys: numbering starts again at zero |
| Ordering.TextLeqIff | src/dbreduce/postgres/rows.py:23-27 | texts are compared by the first unit in which they differ, or one is the beginning of the other |
| Rows.ReadNames | src/dbreduce/postgres/rows.py:34-37 | the mapping names every row of the table once, by a key with its value |
| States.ReadRows | src/dbreduce/postgres/rows.py:14-38 | the state of every schema table of a content, or an error if one is missing |
| States.StateDeterminesRows | src/dbreduce/postgres/rows.py:14-38 | two contents have equal states if and only if every schema table holds equal rows, counting duplicates |
| Deletion.Closure | src/dbreduce/postgres/rows.py:48-96 | terminates with the least set that contains the seed and is closed under incoming relationships, cycles and self-references included |
| Deletion.DeleteRows | src/dbreduce/postgres/rows.py:41-117 | marks exactly the rows asked for and those that refer to one of them directly or through others, the least closed set; a missing key, an empty request and each reply of the server give their own result; without triggers what is left is the database without the marked rows, and relationships stay satisfied |
| Deletion.MarkedIff | src/dbreduce/postgres/rows.py:48-96 | a row is in the least closed set if and only if it is asked for or a chain of rows, each referring to the one before by a relationship, leads to it from one that is |
| Deletion.ClosedDeletionKeepsReferences | src/dbreduce/postgres/rows.py:51-96 | deleting a closed set keeps every relationship satisfied that was |
| Deletion.MarkingDistributes | src/dbreduce/postgres/rows.py:46-96 | marking two groups together marks what marking each alone marks |
| Deletion.MarkedKeys | src/dbreduce/postgres/rows.py:41-50 | named by row key, the marked set is the least closed set over the logical rows: row ids play no part |
| Deletion.DeletionIsLogical | src/dbreduce/postgres/rows.py:41-117 | two databases with equal states, in any physical layout, hold equal rows after deleting the same keys (no triggers) |
| Deletion.DeletionNeverGrows | src/dbreduce/postgres/rows.py:97-113 | deleting rows leaves a sub-multiset of each table: without triggers no table grows |
| LogicalWorld.PrunedIsDeletion | src/dbreduce/postgres/rows.py:41-117 | whatever the row ids, what is left of each table after deleting the marked rows is what pruning the logical rows leaves |
| LogicalWorld.LogicalShrinks | src/dbreduce/postgres/rows.py:97-113 | in the world without triggers no deletion leaves a table with more rows |
| LogicalWorld.LogicalIsDeterministic | src/dbreduce/cache/store.py:5-20 | without triggers, with dumps that tell contents apart beyond row order and an oracle steady on each content, the world is deterministic and its digest injective |
| LogicalWorld.LogicalIsRobust | src/dbreduce/postgres/backend.py:50-207 | without triggers, where the oracle decides every execution, nothing stops a run from inside |
| LogicalWorld.RefusedIffNeeded | src/dbreduce/reducer/engine.py:14-35 | without triggers, removing a row is a refused step if and only if the oracle does not see the failure once the row and everything that refers to it are gone |
| LogicalWorld.EveryRowIsNeeded | src/dbreduce/reducer/engine.py:14-35 | after an undisturbed reduction without triggers, for every remaining row the oracle does not see the failure once it is gone with everything that refers to it; at most 3N(N + 1) attempts were made |
| LogicalWorld.DeletedIsPruned | src/dbreduce/postgres/rows.py:41-117 | what deleting the marked rows leaves of a content is, in any physical layout, the content without the logical closure |
| Components.Dependencies | src/dbreduce/graph/dependencies.py:4-8 | a table depends on exactly those that one of its foreign keys refers to |
| Components.Search | src/dbreduce/graph/dependencies.py:14-23 | the worklist computes exactly what the node reaches, itself included |
| Components.Components | src/dbreduce/graph/dependencies.py:11-33 | a partition of the tables into classes of mutual reachability, ordered by least member, each class sorted |
| Components.PartitionMeaning | src/dbreduce/graph/dependencies.py:24-33 | two tables share a group if and only if each reaches the other, and every table is in exactly one group |
| Reachability.LeastClosedIsReachable | src/dbreduce/graph/dependencies.py:14-23 | the least closed set is exact reflexive-transitive reachability along paths |
| Reachability.LeastClosedUnion | src/dbreduce/postgres/rows.py:48-96 | the closure of a union is the union of the closures |
| Fingerprint.Feed | src/dbreduce/cache/store.py:5-20 | the nested loops over one shared stream feed the digest the canonical form of the file |
| Fingerprint.FingerprintExact | src/dbreduce/cache/store.py:5-20 | for files whose COPY blocks are terminated the digest input is equal if and only if they agree line by line up to row order inside blocks, counting duplicates |
| Fingerprint.PrintedExact | src/dbreduce/cache/store.py:5-20 | two dumps printed as plain lines and COPY blocks, header, rows and end-of-rows line in their literal bytes with either line end, have the same digest input if and only if plain lines and headers are the same in order and each block holds the same rows, counting duplicates |
| Fingerprint.CanonIdempotent | src/dbreduce/cache/store.py:5-20 | canonicalising a canonical file changes nothing |
| Fingerprint.CanonExact | src/dbreduce/cache/store.py:5-20 | for all line lists, terminated or not: equal canonical forms mean agreement up to row order in blocks and, where the last block has no end-of-rows line, the same last line - if and only if |
| Caching.Cache.Get | src/dbreduce/cache/store.py:31-40 | the cached answer if there is one; lookups, hits and accepted and rejected hits stay consistent |
| Ddmin.SizesOf | src/dbreduce/reducer/ddmin.py:12-18 | the loop yields the schedule |
| Ddmin.SizesShape | src/dbreduce/reducer/ddmin.py:12-18 | the schedule starts with the whole table and ends with single rows, never a zero size |
| Ddmin.SizesClosedForm | src/dbreduce/reducer/ddmin.py:12-18 | entry k is n / 2^k rounded up, although each entry is rounded from the one before |
| Ddmin.ChunksOf | src/dbreduce/reducer/ddmin.py:7-9 | the loop yields consecutive slices |
| Ddmin.ChunksCover | src/dbreduce/reducer/ddmin.py:7-9 | chunks lose nothing, duplicate nothing and keep the order, and all but the last have exactly the size asked for |
| Ddmin.SingleChunks | src/dbreduce/reducer/ddmin.py:7-9 | chunks of one row are exactly the rows |
| Ddmin.PassBound | src/dbreduce/reducer/ddmin.py:12-18 | the whole schedule over n >= 1 rows makes fewer than 3n chunks |
| Verdicts.ExpectedOnlySplits | src/dbreduce/oracle/runner.py:117-190 | the expected identity only splits reproduced failures into same and different; every other decision is taken without it |
| Verdicts.SameFailureHasIdentity | src/dbreduce/oracle/runner.py:117-190 | a same-failure decision carries the expected identity; not-reproduced and invalid ones carry none |
| Verdicts.DecidedIff | src/dbreduce/oracle/runner.py:117-190 | each decision, with its identity, from the fields of the evidence: a same failure if and only if the status is 1 to 125 and as expected, if one is, and the patterns match, if there are any, or the status is 0 with a single verdict that reproduces, reports no error, has no outcome field and carries an acceptable signature - and the identity is the expected one, if one is; likewise not reproduced, invalid, different failure, timeout and error |
| Verdicts.OutcomeIff | src/dbreduce/oracle/runner.py:117-190 | the same by outcome: of any evidence exactly one of the six descriptions holds, and it names the outcome |
| Verdicts.ReproducedIff | src/dbreduce/oracle/runner.py:279-328 | the failure counts as reproduced, as not reproduced or as undecided if and only if the evidence shows it as expected, shows none, an invalid candidate or another failure, or shows a timeout or nothing |
| Verdicts.LockedIff | src/dbreduce/oracle/runner.py:326-327 | the identity kept is the expected one, or, where none is, the one the evidence shows |
| Verdicts.LockedDecides | src/dbreduce/oracle/runner.py:188-190 | keeping the first identity does not change how the same evidence is decided |
| Oracle.Oracle.Fails | src/dbreduce/oracle/runner.py:279-328 | True rests on exactly confirm executions whose evidence all shows one failure, the identity kept; False on fewer or as many, of which the last shows no failure, an invalid candidate or another failure, as the outcome recorded says, and all before it the failure kept; an oracle error on a last execution that ran out of time or showed nothing; no count is lost; each execution saw the content it was prepared with; a clone target leaves the store as it was; with steady evidence the answer is what the evidence says; on a calm server, given steady evidence, it returns if and only if the evidence is decided |
| Oracle.Oracle.RoundInClone | src/dbreduce/oracle/runner.py:286-320 | prepare, execute, cleanup: the clone is dropped after every round, and only a signal or a failing cleanup leaves an execution without an outcome |
| Oracle.Oracle.RoundInWorkspace | src/dbreduce/oracle/runner.py:286-320 | prepare, execute: as above, on a freshly restored workspace |
| Oracle.Oracle.Conclude | src/dbreduce/oracle/runner.py:304-315 | timeouts and infrastructure errors are counted before the error is raised |
| Oracle.TriedFollows | src/dbreduce/oracle/runner.py:279-328 | each execution directly follows a successful prepare and on a clone is directly followed by cleanup, and is counted exactly once or cut off |
| Oracle.RoundScored | src/dbreduce/oracle/runner.py:321-327 | counting an outcome and keeping the first identity extends an unbroken confirmation, or ends it |
| Oracle.IdentityWrittenOnce | src/dbreduce/oracle/runner.py:321-327 | over any sequence of calls the expected identity is written once, and executions equal the outcomes counted plus at most one cut off per call |
| Oracle.RanHonestly | src/dbreduce/oracle/runner.py:279-328 | an outcome recorded of an execution on some content is how the evidence of an execution on that content is decided |
| Steps.RunKeepsFailing | src/dbreduce/postgres/backend.py:50-108 | if the accepted content reproduces the failure, it still does after any run of abstract steps |
| Steps.StepExact | src/dbreduce/postgres/backend.py:50-108 | an attempt is accepted if and only if the deletion left every table, fewer rows, and evidence of the failure expected; it is refused if and only if the server refused the deletion, no fewer rows are left, or the evidence shows otherwise; then nothing changes |
| Steps.CountersExact | src/dbreduce/postgres/backend.py:50-108 | each counter of a backend is the number of probes in the log with that answer; each outcome is counted once for each answer the oracle was asked for and gave with it |
| Steps.ExplainedSteps | src/dbreduce/postgres/backend.py:50-207 | in a deterministic world a probe whose reason is true of deletion, row counts and oracle executions is exactly the abstract step from the content it was asked on |
| Steps.FaithfulMore | src/dbreduce/postgres/backend.py:98-98 | adding a verdict keeps every cached answer what the oracle would say again, even when it fixes the identity |
| Steps.HitAnswers | src/dbreduce/postgres/backend.py:91-92 | a cache hit answers as the oracle would and would not change the identity |
| SnapshotBackend.PostgresBackend.Attempt | src/dbreduce/postgres/backend.py:50-108 | on a normal return exactly the abstract step was taken - same answer, same accepted content, same identity - and the archive holds the current state whatever the oracle wrote; one probe is logged, with a reason true of the deletion made and of the oracle executions, cached ones included; the outcome counters are exactly those of the log; lookups of present rows fail only if somebody took a name; where nothing goes wrong it returns and the workspace stays usable |
| SnapshotBackend.PostgresBackend.Candidate | src/dbreduce/postgres/backend.py:53-67 | the candidate is the accepted content after the deletion, or the refusal the server gave |
| SnapshotBackend.PostgresBackend.Reconstruct | src/dbreduce/postgres/backend.py:68-77 | what is compared and judged is the candidate as its dump restores it |
| SnapshotBackend.PostgresBackend.Consult | src/dbreduce/postgres/backend.py:81-101 | the answer, cached or not, is the oracle's on this content; the outcome it rests on is that of an execution on a content with this digest, counted exactly if the oracle was asked now |
| SnapshotBackend.PostgresBackend.Promote | src/dbreduce/postgres/backend.py:102-105 | an accepted candidate replaces archive and state together; only a signal between the assignments can part them, and then the run is cancelled |
| SnapshotBackend.PostgresBackend.AttemptAll | src/dbreduce/postgres/backend.py:50-108 | every completed run of attempts is the abstract run; where nothing goes wrong and the rows asked for are there along the abstract run, it completes |
| SnapshotBackend.ReadInitial | src/dbreduce/postgres/backend.py:43-45 | the state read at the start is that of the snapshot |
| CloneBackend.CloneBackend.Attempt | src/dbreduce/postgres/backend.py:155-207 | on a normal return exactly the abstract step was taken; the store records what it did before, but for an accepted candidate in place of the old accepted database; the accepted database is recorded, frozen and holds the current state; one probe is logged, with a reason true of the deletion made and of the oracle executions; the outcome counters are exactly those of the log; where nothing goes wrong it returns and the accepted database can be cloned again |
| CloneBackend.CloneBackend.Prune | src/dbreduce/postgres/backend.py:160-173 | the candidate holds what the deletion leaves of the accepted content, or the refusal is counted |
| CloneBackend.CloneBackend.AskOracle | src/dbreduce/postgres/backend.py:180-193 | the oracle works on disposable clones: the candidate keeps its content and the answer is the oracle's on it |
| CloneBackend.CloneBackend.Promote | src/dbreduce/postgres/backend.py:197-203 | the candidate becomes accepted and the old database is dropped; a signal between any two of the assignments leaves it unpromoted, and only then |
| CloneBackend.CloneBackend.OnCandidate | src/dbreduce/postgres/backend.py:159-207 | unless it was promoted the candidate is out of the store on every way out but a delivered Cancelled, or its drop is on record as not done |
| CloneBackend.CloneBackend.ConfirmInitialState | src/dbreduce/postgres/backend.py:138-153 | a True answer means the accepted content reproduces the identity kept; the store is left as it was |
| CloneBackend.CloneBackend.AttemptAll | src/dbreduce/postgres/backend.py:155-207 | every completed run of attempts is the abstract run, and the store records as many databases after it as before; where nothing goes wrong and the rows asked for are there, it completes |
| CloneBackend.CreateInitial | src/dbreduce/postgres/clone.py:243-252 | the database the clone backend starts on is recorded, frozen and holds the snapshot, whose rows are the initial state |
| Backends.BothAgree | src/dbreduce/postgres/backend.py:50-207 | from equal contents, with deterministic deletion and oracle, any run that completes on both backends gives the same answers, the same accepted content and the same state; where nothing goes wrong and the rows asked for are there along the abstract run, it completes on both |
| Backends.Attempt | src/dbreduce/reducer/engine.py:8-11 | either backend: one probe, its reason true of the deletion and the oracle, and exactly the abstract step where the world is deterministic; staying undisturbed keeps the failure; where nothing goes wrong an attempt on present rows returns, and nothing has gone wrong after it |
| Engine.SizePass | src/dbreduce/reducer/engine.py:22-34 | one size over one table: chunk by chunk, in order, the rows of the chunk that are still there are asked for once, and a chunk without such rows is passed over; each asking is a real attempt that was answered for a true reason, and the row count error cannot be raised |
| Engine.FilteredParts | src/dbreduce/reducer/engine.py:22-34 | what is asked for of a chunk are its rows still present, in their order |
| Engine.InTurnAsked | src/dbreduce/reducer/engine.py:22-34 | as long as nothing is accepted, every chunk of rows of the table, of any size, was tried as it is in the same state and refused |
| Engine.TablePass | src/dbreduce/reducer/engine.py:21-34 | one table: if nothing was accepted every row was tried alone by an attempt and refused; if the table never grows, n rows take at most 3n attempts |
| Engine.Pass | src/dbreduce/reducer/engine.py:18-34 | one pass: if nothing was accepted the state is unchanged and every row of every table was tried alone in it by an attempt and refused |
| Engine.Reduce | src/dbreduce/reducer/engine.py:14-35 | terminates; it makes whole passes, each over the tables in order, over the halving chunk sizes and over the chunks, asking for what is left of each, and the last pass accepts nothing; undisturbed in a deterministic world the result is 1-minimal: removing any single remaining row is a refused abstract step from the final content, whose rows are the result; every remaining row was tried alone in the exact final state; a failing initial content leaves a failing final one; at most 3N(N + 1) attempts on N rows where deletions never leave more rows, or where none did; row lookups fail only if somebody took a name; where nothing goes wrong it returns |
| Engine.RowRefused | src/dbreduce/reducer/engine.py:14-35 | a row refused alone in the last pass is refused by deletion and oracle on the final content |
| Engine.ShrinkingNeverGrows | src/dbreduce/reducer/engine.py:14-35 | where deletions never leave more rows, no accepted candidate has grown: the attempt bound needs no condition on the run |
| Engine.ClaimIsSound | src/dbreduce/cli/__init__.py:441-447 | with the candidate-invalid and different-failure counters at zero, each remaining row was refused on the final content because the server refused its deletion, no row went, or the oracle ran on what the deletion left (or on a content with its digest, for cached refusals) and the failure was not reproduced |
| Engine.LocallyIrreducible | src/dbreduce/cli/__init__.py:441-447 | the reported claim is made exactly when the two counters are zero, and is then true of every remaining row in the sense of deletion and oracle executions |
| TocFields.TocFields | src/dbreduce/postgres/schema_reduction.py:51-75 | the index loop computes the fields |
| TocFields.RoundTrip | src/dbreduce/postgres/schema_reduction.py:51-75 | any fields, printed as delimited identifiers with doubled quotes (section 5.2 of ISO/IEC 9075-2) or bare when safe and separated by spaces, parse back to the same list |
| Removal.CloseDependents | src/dbreduce/postgres/schema_reduction.py:203-208 | the worklist computes exactly what depends on the seed |
| Removal.ComputeRemovalIds | src/dbreduce/postgres/schema_reduction.py:178-243 | an id is in the result if and only if an entry with it names an object that a removed table, or a foreign key pointing at one, reaches along the dependencies; or is a comment on a removed table or one of its columns; or is a SEQUENCE SET or OWNED BY of a sequence that goes for one of these reasons |
| Removal.RemovalExact | src/dbreduce/postgres/schema_reduction.py:178-243 | the removal set defined step by step holds exactly these ids |
| Removal.RemovalUnion | src/dbreduce/postgres/schema_reduction.py:189-243 | removing two sets of tables together removes exactly what removing each removes: through foreign keys, dependencies, comments and owned sequences |
| Removal.JoinedIsRemoval | src/dbreduce/postgres/schema_reduction.py:310-312 | the joined per-table closures are the removal set of the whole group |
| Removal.JoinIds | src/dbreduce/postgres/schema_reduction.py:310-312 | the loop joins the closures of the group |
| Removal.SelectedList | src/dbreduce/postgres/schema_reduction.py:246-251 | exactly the lines that are archive entries - three decimal numbers in the entry syntax - whose first number is excluded get a semicolon in front; all others stay as they are, in order |
| Removal.SelectedIff | src/dbreduce/postgres/schema_reduction.py:246-251 | an entry is commented out if and only if its id, read as a decimal number with any leading zeros, is one of those excluded |
| SchemaReduction.SchemaReducer.Run | src/dbreduce/postgres/schema_reduction.py:274-300 | for any number of rounds: it returns only when the result is minimal - for every remaining table an attempt to remove it alone from the final archive found a reason against it; each accepted attempt leaves fewer tables, so unless somebody takes the workspace's name it ends after one round more than there are tables; over returned attempts attempted - accepted is the sum of the six rejection counters; a failing archive stays failing; where nothing goes wrong it returns |
| SchemaReduction.MinimalAlways | src/dbreduce/postgres/schema_reduction.py:274-300 | where restores repeat, every attempt to remove a single table of a minimal archive finds a reason against it, and none shows the failure |
| SchemaReduction.SchemaReducer.Attempt | src/dbreduce/postgres/schema_reduction.py:302-389 | one attempt, undisturbed: True if and only if something goes with the group, restoring the archive without it gives exactly the other tables, that reloads, and the evidence on it shows the failure expected, and the new archive is such a restore; each verdict if and only if its own reason holds - a constraint violated, a restore incomplete or invalid or with other tables missing, no failure, an invalid candidate, another failure, no decision - and the one counter that moves is the verdict's; what it excludes is the removal set of the whole group; other failures are passed on |
| SchemaReduction.SchemaReducer.Stopped | src/dbreduce/postgres/schema_reduction.py:321-334 | a restore stopped for a known reason is a counted refusal, for another it is an infrastructure error and passed on |
| SchemaReduction.SchemaReducer.Search | src/dbreduce/postgres/schema_reduction.py:291-298 | the groups tried follow the schedule: tables without rows first, in halving sizes, each with one attempt, up to the first accepted; if none was, every table was tried alone under this plan and refused |
| SchemaReduction.SchemaReducer.MakePlan | src/dbreduce/postgres/schema_reduction.py:276-290 | the closure of every table is computed before any candidate, on the archive's own content |
| SchemaReduction.SchemaReducer.Report | src/dbreduce/postgres/schema_reduction.py:391-431 | rejected is the number of refused attempts and faults; the irreducibility claim is made exactly when the five other counters are zero, and then every refusal was a selection restored with exactly the other tables on whose evidence the failure does not show |
| SchemaReduction.RulingExact | src/dbreduce/postgres/schema_reduction.py:302-389 | what an attempt comes to, spelled out for acceptance, for each of the six refusals and for the error passed on: each if and only if the removal set, the restore, the tables left, the reload and the evidence say so |
| SchemaReduction.RuledFound | src/dbreduce/postgres/schema_reduction.py:302-389 | a trial counted under a verdict is one to which that verdict, and no other, applies |
| SchemaReduction.OrderedIs | src/dbreduce/postgres/schema_reduction.py:290-290 | tables without rows come before those with rows, each half in order of schema and name |
| SchemaReduction.CloseEach | src/dbreduce/postgres/schema_reduction.py:286-289 | one closure for every table |

## Left out

- psycopg, SQL text, operators, collations, `pg_dump` and `pg_restore`: a relationship is a join
  condition on row values, a dump keeps the content, a restore yields a content or a reason.
- Subprocesses, pipes, regular expressions and JSON parsing of the oracle: `Verdicts` starts from
  a parsed verdict, `Oracle` from what an execution shows.
- Deletion in the backends is a function of probe, content and rows, so that triggers are covered;
  `Deletion` proves what it is without them.
- Handles are values, with their `frozen` flags kept in the store: identity of two handles with
  equal fields is not modelled. The order in which `close` drops databases is left open.
- Advisory locks, `WITH (FORCE)`, `SET` statements other than their failure, `record_cleanup`,
  the texts of messages, and directories among the leftovers.
- The schema reduction's object counts before and after. Its loop is cut after any number of rounds;
  whether it ends where somebody takes the workspace's name again and again is left open.
- The command line beyond the cleanup report and the irreducibility claim: publishing the result,
  the final normalization, measuring, and introspection of the schema.
- SHA-256, wall-clock accuracy and UUIDs: injective hashing, a monotone clock, fresh names.
- The watchdog's process groups and the installation of handlers.
