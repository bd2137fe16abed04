# Vibe, modelled in Dafny

This project models the parts of the vibe engine whose correctness spans several
functions, runs or processes, and proves what their comments and tests promise.
`dafny verify dfyconfig.toml` checks all of it.

## Container replacement and its recovery

`Containers`, `Recovery`, `Environment` (Host.dfy), `Rollback`, `Runtime`,
`Transaction`, `Reconcile`, `Desired` (Plan.dfy), `Upgrade` (Up.dfy),
`Repetition` (Repeat.dfy), `Teardown`, `Ownership`.

`Host` is the Docker daemon and the state directory: a table of containers under
unique names with ids that are never reused, and one journal that is replaced
atomically. Every call may be refused, or take effect and lose its reply; an
arbitrary schedule decides. `Host` logs each durable state, so a crash is any
prefix of that history. `Up`, rollback and sweep are written as the sequences of
calls the engine makes.

`Recovery.Recoverable(b, d, j, p)` is the central invariant: with journal `j`
present, fleet `d` can be rolled back to base fleet `b`. Each journaled step and
each undo step keeps it. A `Scope` says what a run may journal: an up of a plan
replaces what is outdated at the planned names and starts what is off there. From
it follow: the states of an up are on the old side until the journal is deleted
and on the new side from then on (`Upgrade.Up`); a sweep after a crash anywhere
restores the one generation or completes the other, never both
(`Upgrade.SweepAfterCrash`); undo may be cut off and repeated, and attempts every
entry although others fail (`Runtime.Service.Undo`, `Ownership.ExactRecovery`).

What the decisions and their outcome come to is also said of names, labels and
addresses alone: `Reconcile.ReconcileContainer`, `Desired.SyncedFields`,
`Desired.Fulfilled`.

What undo may touch does not depend on that invariant. The undo methods are
proved for any journal: they act on listed containers that the journal names or
that carry its full label conjunction (`Rollback.Confined`). Where those it names
are gone or managed (`Rollback.Guarded`, which ups, sweeps and teardowns all keep,
cut off or not), only the project's own managed containers are ever touched
(`Ownership.AcrossCrashes`). The ghost flag `intact` of `Recover`, `Sweep` and `Up`
says that no teardown has come between an up and its recovery.

Undo lists containers by their full project label, while names carry only a
prefix of the project id and reconciliation checks the managed label alone. So a
managed container of another project that holds a planned name is journaled but
not seen by undo. If what holds the planned names carries the project's label, a
sweep restores exactly the base fleet; `Ownership.StrandedExactly` says which
fleets make a run pass through states no sweep can leave,
`Ownership.ForeignLabelStrands` that there is such a run, and
`Ownership.RecoverOutcome` exactly when a recovery is exact.

An up that succeeds has cleared the retired generation unless a call failed, and
only then has the next one something to do (`Repetition.Again`);
`Repetition.DebrisExactly` says which runs have something to clear.

## Intent gate

`Gate` is one gate as a transition system: a step is one section under the mutex,
one channel operation or one system call, and requests are numbered as they queue.
`IntentGate` is the object with its sections, each proved to be one step. An
acquisition is for the request that was first when it began, and for no other
(`Gate.AcquiredForHead`).
`Overtaking` puts any number of gates, in any number of processes, before one main
lock.

## Diff and terminal text

`Lcs` is the reference, `Edits` the table and the walk, `Hunks` the layout, `Diff`
the whole. `Terminal` is the encoder every untrusted text passes through. A string
is a sequence of code points.

## Collection beside publishers

`Collection` is a transition system of publishers (under the shared hold), one
collection (under the exclusive hold) and everyone else (under none), with one
invariant. `Collector` is the collection as a program: between any two of its
steps others may take any number of theirs; `Seen` is what it has read of them on
the way, and `Needed` what must survive by that. `Publishing` is one up, likewise.

## Build rows, build stream, roster, line protocols, ids

`Install` generates the plan, `BuildRows` announces and credits its rows,
`BuildRuns` follows whole builds; `BuildStream` classifies the daemon's stream;
`Roster` folds a project's rows into its height; `Porcelain` prints and parses the
sidebar's lines; `Ids` encodes project ids; `Numerals` writes and reads numbers.

A plan-less build whose stream announces a step with an empty instruction opens a
row under the empty title, and every later step is credited to it without being
counted (internal/progressui/progressui.go:174-189). `BuildRuns.ExtensionRowsFinish`
states exactly when all rows of such a build finish.

## Model

| member | source | states |
|---|---|---|
| Containers.NamesApart | internal/model/names.go:17-31 | canonical, retired and staged names never collide, and each transient name determines the name it came from |
| Environment.Host.CreateContainer | internal/dockerapi/fake/client.go:171-205 | create is atomic, mints an id never used before, and fails without effect on a taken name; a lost reply leaves the created container |
| Environment.Host.StartContainer | internal/dockerapi/fake/client.go:215-243 | start changes one container's running flag and address and nothing else, also when the reply is lost; a container may exit at once |
| Environment.Host.StopContainer | internal/dockerapi/fake/client.go:244-264 | stop turns one existing container off and nothing else |
| Environment.Host.RenameContainer | internal/dockerapi/fake/client.go:286-315 | rename keeps names unique: it fails without effect when the name is taken |
| Environment.Host.RemoveContainer | internal/dockerapi/fake/client.go:265-285 | remove takes away one container and nothing else |
| Environment.Host.WriteJournal | internal/runtime/journal.go:135-146 | the journal is replaced atomically: afterwards it is the old one or the new one |
| Environment.Host.DeleteJournal | internal/runtime/journal.go:148-164 | deleting the journal is atomic and is the commit point |
| Recovery.NothingLost | internal/runtime/transaction.go:177-247 | while the journal exists every container of the base fleet still exists with its labels, and one that is unmanaged or unnamed in the journal is unchanged |
| Recovery.MadeOnce | internal/runtime/journal.go:49-58 | no container counts as the creation of two journal entries |
| Recovery.MadeUnique | internal/runtime/transaction.go:289-299 | one entry created at most one container |
| Recovery.Append | internal/runtime/transaction.go:47-56 | journaling a step before taking it keeps the fleet recoverable |
| Recovery.Backfill | internal/runtime/transaction.go:58-66 | recording the id of a container just created keeps the fleet recoverable |
| Recovery.CreateMade | internal/runtime/transaction.go:248-271 | a container created under a journaled entry is covered by recovery whether or not its id was recorded |
| Recovery.RenameMade | internal/runtime/reconcile.go:450-470 | swapping the staged container in keeps the fleet recoverable |
| Recovery.MoveOld | internal/runtime/reconcile.go:443-460 | stopping and parking the old container keeps the fleet recoverable |
| Recovery.AllUndone | internal/runtime/transaction.go:152-175 | entries that are undone one by one leave the base fleet restored, but for starts undo could not see, and with exactly its containers once every creation is erased |
| Recovery.UndoneFrame | internal/runtime/transaction.go:152-175 | undoing one entry leaves the other entries undone |
| Rollback.FindsNew | internal/runtime/transaction.go:289-299 | the replacement is found exactly when it exists, by its recorded id or by the full label conjunction at the two names it may have |
| Rollback.FindsCreated | internal/runtime/transaction.go:248-271 | the created container is found exactly when it exists |
| Rollback.FoundByLabels | internal/runtime/journal.go:49-58 | where no id was recorded, what undo finds bears all four labels (nonce, managed, project, candidate) and one of the names the creation may have |
| Rollback.FoundMine | internal/runtime/transaction.go:249-299 | for any journal and fleet: what undo finds to act on is listed for the project and named by the journal or labelled as its transaction's own |
| Rollback.ConfinedOurs | internal/runtime/transaction.go:152-175 | undoing a guarded journal touches only the project's own managed containers |
| Rollback.TendedGuarded | internal/runtime/runtime.go:104-134 | a journal stays guarded while only the project's own containers are stopped, renamed, started or removed |
| Rollback.RecoverableGuarded | internal/runtime/journal.go:49-58 | every journal an up leaves is guarded |
| Rollback.RestoredSwept | internal/runtime/transaction.go:121-151 | clearing debris from a restored fleet leaves it restored, and with exactly the base containers once no debris is left |
| Runtime.Service.UndoReplace | internal/runtime/transaction.go:177-247 | undoing a replacement, for any journal: where the old container cannot be found it fails with nothing touched; else at most the old one and the found replacement are, and where it fails nothing has been removed; with an intact journal every step keeps the fleet recoverable, and in the end the old container is back under its name and running as before |
| Runtime.Service.UndoCreate | internal/runtime/transaction.go:249-271 | undoing a creation touches at most the container found for it, and with an intact journal removes that entry's own creation and nothing else |
| Runtime.Service.UndoStart | internal/runtime/transaction.go:273-287 | undoing a start stops the started container if it is listed, and touches nothing else |
| Runtime.Service.Undo | internal/runtime/transaction.go:152-175 | undo can be cut off after any call and run again: every state on the way touches only what is the journal's own, and with an intact journal is recoverable; a completed undo found every replaced container and has undone every entry; also in an undo that fails all entries are attempted, one after another, and each whose own calls succeed, and whose old container was to be seen, is undone when undo returns, whatever became of the others |
| Runtime.Service.ClearDebris | internal/runtime/transaction.go:121-151 | runs with no journal only; only the project's managed containers under transient names are stopped or removed, and none is left on success |
| Runtime.Service.Recover | internal/runtime/transaction.go:99-119 | a found journal is rolled back and then deleted, and kept unless every container it replaced is there; on the way only what is its own is touched, and with an intact journal every state is on the old side; with no failing call it succeeds when undo sees every replaced container |
| Runtime.Service.Sweep | internal/runtime/transaction.go:99-119 | after a sweep there is no journal and no debris; a fleet that had an intact journal is its base fleet again, but for starts undo could not see; without a journal only debris was touched; a journal whose old container is gone is kept |
| Transaction.Txn.Append | internal/runtime/transaction.go:47-56 | a failed journal write drops the entry from memory only, and the fleet can be rolled back either way |
| Transaction.Txn.Backfill | internal/runtime/transaction.go:58-66 | the id is recorded; if that may not have become durable the transaction may only be rolled back |
| Transaction.Txn.Commit | internal/runtime/transaction.go:68-80 | commit deletes the journal if one was written and changes no container |
| Transaction.Txn.Rollback | internal/runtime/transaction.go:82-97 | a failed transaction goes back to the old side, and if no later call fails and undo sees what was replaced, to the base containers with the journal gone; one that wrote nothing changes nothing |
| Transaction.Txn.CreateOnly | internal/runtime/reconcile.go:497-507 | a creation under a journaled entry, with its failures, keeps the transaction able to go on or to roll back; where the daemon lacks the image there is one more attempt after a pull, which succeeds where a first one would have, and no third |
| Transaction.Unnamed | internal/runtime/reconcile.go:415-442 | a canonical name no entry mentions still holds what it held at the start |
| Reconcile.ReplaceExisting | internal/runtime/reconcile.go:443-478 | stage, stop, park, swap, start: success means the requested container holds the name, the old one is parked and off, it runs if no call fails, and everything at other names is as before; a failure can be rolled back |
| Reconcile.CreateFresh | internal/runtime/reconcile.go:480-495 | journal, create, record, start: success means the requested container holds the name, runs if no call fails, and everything at other names is as before; a failure can be rolled back |
| Reconcile.StartExisting | internal/runtime/reconcile.go:424-442 | a stopped container of the right candidate is journaled and started, and everything at other names is as before; a failure can be rolled back |
| Reconcile.ReconcileContainer | internal/runtime/reconcile.go:415-478 | per container: success means the request is present at its name, what held the name stays, is switched on or is parked and off, everything elsewhere is as before, and a failure can be rolled back; untouched exactly when not forced and a managed container there runs with the same candidate and resolver labels, started exactly when one is there but off; what is there afterwards has these labels |
| Desired.ScopeAdmits | internal/runtime/reconcile.go:424-442 | what reconciling one planned container may journal is what deploying the plan may: replace what is outdated, start what is off |
| Desired.SyncedFields | internal/runtime/reconcile.go:424-442 | in sync means, name by name, that a managed container runs there with the candidate's label and the resolver label wanted at that name |
| Desired.OutdatedFields | internal/runtime/reconcile.go:424-442 | outdated means forced, or another candidate label, or another resolver label |
| Upgrade.ResolveDNS | internal/runtime/reconcile.go:272-296 | the resolver is the sidecar's live address, which is not empty; with no failing call there is one exactly if the plan has a network and a container of that name an address on it, and else the error says which is missing |
| Upgrade.CheckLiveness | internal/runtime/reconcile.go:162-181 | success means that every planned container was found running |
| Upgrade.UpServices | internal/runtime/reconcile.go:109-130 | sidecars in plan order, each on top of what the ones before it left |
| Upgrade.UpDev | internal/runtime/reconcile.go:126-143 | the dev container last, with the resolver label of the sidecar that now runs |
| Upgrade.Transact | internal/runtime/reconcile.go:109-151 | before the commit the plan is deployed or the transaction can only be rolled back; nothing is called where the plan was converged |
| Desired.DeployedNew | internal/runtime/reconcile.go:144-151 | at the commit point the fleet is the planned one; unplanned and unmanaged containers are as they were, and each container that held a planned name still does or is parked and off |
| Desired.FulfilledNow | internal/runtime/reconcile.go:50-160 | what success comes to: at each planned name a managed container runs with the plan's candidate label; dev bears the address its resolver has now, and none if the plan has no resolver; and what was not there before bears the project's label |
| Desired.NewSwept | internal/runtime/transaction.go:121-151 | clearing debris keeps the new generation, and takes of the old one only the project's own parked containers |
| Desired.OldGeneration | internal/runtime/reconcile.go:149-151 | with no debris left, a container of the project that held a planned name holds it still, in sync, or is gone: the generations are never mixed |
| Upgrade.Transition | internal/runtime/reconcile.go:50-160 | one transaction: its durable states are on the old side up to one point and on the new side from it on, and that point is the deletion of the journal; what it journals is within what the plan demands; a failed one whose later calls succeed restores exactly the base fleet where the planned names are the project's own |
| Upgrade.Ousted | internal/runtime/reconcile.go:443-478 | when a run commits, a managed container at a planned name that was not what the plan wanted there is parked and off |
| Upgrade.OustedOnly | internal/runtime/reconcile.go:424-442 | and no other container has been moved from its name |
| Upgrade.Up | internal/runtime/reconcile.go:50-160 | recovery, then one transaction, from any state: success means converged, label by label (`Desired.Fulfilled`: every planned name runs the candidate and dev points at the address its resolver has now), and with no failing call nothing left over; an unforced up of a converged plan only clears debris, and does nothing where there is none; with no failing call, an intact journal that undo can see and nothing foreign in the way, it succeeds |
| Upgrade.AlwaysResumable | internal/runtime/transaction.go:99-119 | wherever an up is cut off, the next one can start from the state it left |
| Upgrade.SweepAfterCrash | internal/runtime/transaction.go:99-144 | crash after any step, then sweep: if the journal was not yet deleted the old fleet, exactly where the project's label is on what holds the planned names; if it was, the new one, with nothing of the old generation left but what is in sync; no debris in either case; and only a failing call or a replaced container undo cannot see keeps the sweep from succeeding |
| Repetition.Again | internal/runtime/reconcile.go:109-151 | after a successful up, whatever failed in it, an unforced one writes no journal and only clears debris, and with no failing call it changes nothing if and only if there is no debris |
| Repetition.Twice | internal/runtime/reconcile.go:109-160 | an up in which no call fails leaves nothing to do for the next |
| Repetition.DebrisExactly | internal/runtime/reconcile.go:144-151 | a run that commits leaves debris behind the commit if and only if, before it, a managed container of the project held a planned name and was not what the plan wanted there |
| Repetition.DebrisRemains | internal/runtime/reconcile.go:144-151 | such a run exists: an up of one container in which no call fails passes, at its commit, through a converged state with debris, which is left to the next up if it is cut off there or clearing fails |
| Desired.ConvergedSwept | internal/runtime/transaction.go:121-151 | clearing the retired generation leaves a converged plan converged |
| Ownership.ExactRecovery | internal/runtime/transaction.go:152-287 | when the managed containers at journaled names carry the project's label, every completed undo, however often interrupted, ends in exactly the base fleet |
| Ownership.ExactlyRestored | internal/runtime/transaction.go:273-287 | a completed recovery ends in exactly the base fleet if and only if no start that undo cannot see was left running |
| Ownership.RecoverOutcome | internal/runtime/transaction.go:177-205 | with no failing call recovery succeeds if and only if undo can see every replaced container, and is then exact if and only if no start it cannot see was left running; otherwise the journal stays and nothing is lost |
| Ownership.StrandedExactly | internal/runtime/reconcile.go:424-430 | a run that commits passes through a state no sweep can leave if and only if, before it, a managed container of another project held a planned name and was not what the plan wanted there |
| Ownership.StrandedKnown | internal/runtime/reconcile.go:272-275 | for a plan without a resolver that condition is known before the run |
| Ownership.ForeignLabelStrands | internal/runtime/reconcile.go:424-430 | such a run exists: an up of one container in which no call fails succeeds, and on its way journals the other project's container |
| Ownership.StrandedSweep | internal/runtime/transaction.go:185-205 | a sweep from such a state fails with the journal kept, whatever calls succeed |
| Ownership.UpRespects | internal/runtime/transaction.go:121-299 | in every durable state an up adds, cut off or not, whatever journal it recovers from, a container without the managed label is as it was, and the journal is guarded |
| Ownership.DownRespects | internal/runtime/runtime.go:104-134 | so it is in every durable state of a teardown, finished or not |
| Ownership.CommandRespects | internal/runtime/transaction.go:121-299 | an up or a teardown, as its contract reports it, touches no container without the managed label and leaves only a guarded journal |
| Ownership.AcrossCrashes | internal/runtime/runtime.go:110-116 | over any number of ups and teardowns, each cut off anywhere, a container without the managed label is never stopped, renamed, started or removed |
| Teardown.Down | internal/runtime/runtime.go:93-155 | a completed down has removed the project's own containers and journal; in every durable state on the way nothing is touched that is not provably the project's, and no label changes |
| Lcs.LengthAttained | internal/terminal/diff.go:85-114 | the recurrence counts a common subsequence |
| Lcs.LengthMaximal | internal/terminal/diff.go:85-114 | no common subsequence is longer |
| Lcs.LengthFramed | internal/terminal/diff.go:51-61 | a common prefix and suffix always belong to a longest common subsequence, so trimming loses nothing |
| Edits.FillTable | internal/terminal/diff.go:103-114 | every cell of the flat table is the length for what is left of the two sides, within 32 bits |
| Edits.Walk | internal/terminal/diff.go:115-137 | the walk yields ops that read one side, write the other and keep as many lines as can be kept |
| Edits.DiffOps | internal/terminal/diff.go:88-138 | a minimal edit script while the table is affordable, delete-all insert-all above it, a correct script always |
| Edits.KeptCommon | internal/terminal/diff.go:79-83 | no script whatever keeps more lines than the longest common subsequence has |
| Diff.Trim | internal/terminal/diff.go:51-60 | the frame is the longest common prefix and then the longest common suffix of the rest |
| Diff.FrameUnique | internal/terminal/diff.go:51-60 | there is only one such frame |
| Diff.Reframed | internal/terminal/diff.go:66-76 | putting the frame back around an optimal middle gives an optimal script for the whole inputs |
| Diff.Diff | internal/terminal/diff.go:40-77 | size note past the limit, with both numbers of lines; otherwise the rendering of ops aligned with both whole inputs, minimal while the middle is affordable, and each of its rows reads as what it stands for: the kind's two characters and the line, or how many lines are not shown |
| Diff.LinesKeep | internal/terminal/diff.go:207-215 | the lines of a text are all of it but for the returns that end them and one final line feed |
| Diff.EmptyIffEqual | internal/terminal/diff.go:40-77 | within the input limit zero lines come out if and only if the inputs are equal; never more than the row limit; truncated if and only if something was dropped |
| Diff.Limits.WithDefaults | internal/terminal/diff.go:15-30 | limits are usable whatever was asked, kept where they were usable, and 80 rows, 120 columns and 4000 input lines where nothing was asked |
| Hunks.LayoutAccounts | internal/terminal/diff.go:142-190 | the layout is the one list of rows that covers every op once and in order, showing what is near a change and counting the rest, no two counts adjacent, none empty |
| Hunks.LayoutConserves | internal/terminal/diff.go:142-190 | rows shown plus lines counted are all the ops |
| Hunks.LayoutShows | internal/terminal/diff.go:163-185 | an op is shown if and only if it is near a change |
| Hunks.Merge | internal/terminal/diff.go:166-172 | a merged hunk shows nothing that is not near a change |
| Hunks.RenderHunks | internal/terminal/diff.go:142-190 | the cursors emit exactly the reference layout, cut at the row limit |
| Hunks.RenderOp | internal/terminal/diff.go:192-205 | the two characters of the op's kind and then its line: sanitized, whole if it fits, else as much as leaves room for an ellipsis; a clean line that fits is shown verbatim |
| Hunks.RenderingShows | internal/terminal/diff.go:142-205 | every row of a rendering reads as the row of the layout it stands for, a count line by a numeral that reads back as the count; rows are dropped, and the rendering is marked truncated, exactly past the limit |
| Hunks.OpTextSafe | internal/terminal/diff.go:192-205 | a rendered op fits its width, holds no control character, and cannot be mistaken for another kind or for a count line |
| Terminal.SanitizeLine | internal/terminal/sanitize.go:77-95 | no control or format character is left |
| Terminal.SanitizedClean | internal/terminal/sanitize.go:77-95 | and clean text is left as it is |
| Terminal.SanitizedDisplays | internal/terminal/sanitize.go:77-95 | every character is shown, in order: as itself, a tab as four spaces, and one that could act on the terminal by its number, whose digits read back as it |
| Terminal.Encode | internal/terminal/sanitize.go:40-56 | the block is every wrapped row of the text, the first of them up to the row limit, truncated exactly if there were more; every row fits and holds no control or format character |
| Terminal.Wrap | internal/terminal/sanitize.go:97-108 | rows of at most the width that make up the text |
| Terminal.WrappedWhole | internal/terminal/sanitize.go:97-108 | cutting loses nothing, and every row but the last is full |
| Terminal.RowsWhole | internal/terminal/sanitize.go:47-54 | the rows of a block are all of the sanitized text |
| Terminal.RowsGrouped | internal/terminal/sanitize.go:47-54 | line by line: the rows of a line hold all of it, sanitized, and are full but for the last |
| Terminal.UnixPairs | internal/terminal/sanitize.go:42-43 | each CRLF becomes one LF |
| Terminal.UnixAlready | internal/terminal/sanitize.go:42-43 | and a text without one is left as it is |
| Terminal.Line | internal/terminal/sanitize.go:58-75 | the first row, with an ellipsis exactly where there was more |
| Terminal.LineShows | internal/terminal/sanitize.go:58-75 | the first line, sanitized, whole if it is all there is and fits, and else as much of it as leaves room for an ellipsis |
| Terminal.LineBounded | internal/terminal/sanitize.go:58-75 | a line is within its width and holds no control or format character |
| Terminal.LineIdempotent | internal/terminal/sanitize.go:58-75 | encoding a line twice is encoding it once |
| Terminal.SplitJoined | internal/terminal/sanitize.go:42-46 | splitting at a separator loses nothing and leaves no separator |
| Gate.StepInv | internal/lock/flock_unix.go:150-304 | one invariant kept by every step of every caller and of the worker |
| Gate.OneGrant | internal/lock/flock_unix.go:199-228 | over every interleaving at most one grant stands, the kernel lock is held while one does, and no request is sent a second outcome |
| Gate.SendNeverBlocks | internal/lock/flock_unix.go:277-295 | every send finds its buffered channel empty and a caller still waiting |
| Gate.FirstComeFirstServed | internal/lock/flock_unix.go:277-304 | no live request is answered after a later one |
| Gate.GrantsInOrder | internal/lock/flock_unix.go:199-228 | grants follow the order of arrival, and never outnumber the kernel acquisitions |
| Gate.AcquiredForHead | internal/lock/flock_unix.go:203-228 | over every run an acquisition serves the request that was first when it began, or none: if that one gave up meanwhile nobody is told anything, and a lock that was obtained is given up; else it alone is told the outcome |
| Gate.OwnAcquisition | internal/lock/flock_unix.go:211-227 | every outcome handed on is that of an acquisition of its own, before which this gate did not hold the lock: other processes contend at every hand-off |
| Gate.PendingPrunes | internal/lock/flock_unix.go:255-266 | looking for work drops the canceled head of the queue and nothing else, and the worker acquires only if a live request is left |
| Gate.NoLostWakeup | internal/lock/flock_unix.go:150-166 | while a live request waits the worker has a step, or serves a caller that has one, or a wake token waits for it |
| Gate.PoisonReachesAll | internal/lock/flock_unix.go:230-253 | a failed unlock delivers the error to every live queued request, leaves none behind and lets none in |
| Gate.ReleasedOnce | internal/lock/flock_unix.go:168-197 | a grant is handed back exactly once, however cancellation raced the hand-off, and never twice |
| IntentGate.IntentGate.Enqueue | internal/lock/flock_unix.go:150-166 | the entry section is one step of the transition system |
| IntentGate.IntentGate.Receive | internal/lock/flock_unix.go:168-173 | so is taking the outcome |
| IntentGate.IntentGate.Cancel | internal/lock/flock_unix.go:174-190 | so is the cancellation section, whichever side won the race: a grant that was there is on its way back, any other request is marked |
| IntentGate.IntentGate.Release | internal/lock/flock_unix.go:193-197 | done is never closed twice |
| IntentGate.IntentGate.DropCanceled | internal/lock/flock_unix.go:297-304 | exactly the canceled requests at the head go |
| IntentGate.IntentGate.PendingWork | internal/lock/flock_unix.go:255-266 | the worker goes idle only on an empty queue |
| IntentGate.IntentGate.HandOff | internal/lock/flock_unix.go:268-295 | the outcome goes to the head of the queue; when the head it was for was canceled the kernel lock is given back instead: one step of the transition system, of which `Gate.GrantDelivers` says whom it tells what |
| Gate.GrantDelivers | internal/lock/flock_unix.go:268-295 | the hand-off, field by field, for whoever is first in the queue |
| IntentGate.IntentGate.PoisonAll | internal/lock/flock_unix.go:237-253 | the poison section is one step of the transition system and no send in it blocks: each live queued request has the failure, and no other request is told anything |
| Overtaking.OneIntent | internal/lock/flock_unix.go:49-61 | at most one caller has a name's intent, over all processes |
| Overtaking.NoOvertaking | internal/lock/flock_unix.go:15-23 | over every run of all processes, while a caller has the intent no other comes by the main lock: its other holders only become fewer |
| Overtaking.NeverPassed | internal/lock/flock_unix.go:78-100 | whoever shares the main lock with a caller held it when the caller was granted the intent; an exclusive caller is alone |
| Collection.StepInv | internal/app/gc.go:47-303 | one invariant kept by every step of publishers, collections and everyone else |
| Collection.ReachedSurvives | internal/app/gc.go:130-260 | over every interleaving and whatever the minimum age, an approved, pending or running candidate has its object, its record and its snapshot |
| Collection.PointsAt | internal/app/lifecycle.go:222-275 | deploying, approving and asking each make what the publisher has recorded something that is referred to |
| Collection.RemovalJustified | internal/store/gc.go:84-123 | no removal takes what is reachable, leased or younger than the cutoff |
| Collection.ReadingDeletesNothing | internal/app/gc.go:62-66 | a collection that gives up while computing its roots has deleted nothing |
| Collection.WholeSpared | internal/app/gc.go:239-260 | dropping what the roots do not name leaves whole everything they name |
| Collector.World.ReadLive | internal/app/gc.go:155-199 | the live roots are read, or refused if any label cannot be trusted |
| Collector.World.ReadProjects | internal/app/gc.go:201-224 | approved, pinned and pending references of every registered project become roots although others act between the listings: the registry as it was listed, and each project's requests as they were when they were; it gives up only for a failing call |
| Collector.World.NewestRelease | internal/app/gc.go:225-234 | the newest artifact that is no dev build is a root |
| Collector.World.Snapshots | internal/app/gc.go:235-259 | the roots hold the snapshots of every rooted candidate, and a running candidate without a readable record refuses the collection |
| Collector.World.RemoveObject | internal/store/gc.go:84-123 | an object in use is left alone, and only one in use; a failure between the object and its record leaves nothing else undone; what is removed has neither object nor record left |
| Collector.World.RemovePass | internal/app/gc.go:69-100 | a pass removes exactly the listed garbage that is not in use, and a dry run removes nothing and reports the same |
| Collector.World.RemoveOrphans | internal/app/gc.go:263-303 | only records without an object and without a root go, and with no failing call all of these |
| Collector.World.Collect | internal/app/gc.go:47-128 | it refuses with the store untouched, and only if a call fails or a container cannot be trusted; else, of what there was, nothing is gone that a project pins or approves, a container runs, a request asks for, or that is the newest artifact a release brought (all as it has seen them, at some time since it began), nor a snapshot of these, nor anything younger than the cutoff; and all the rest is gone with its record but for what was in use; a dry run only reports it |
| Collector.NeededKept | internal/app/gc.go:130-260 | the roots keep exactly what must survive by what was read |
| Publishing.Undisturbed | internal/app/lifecycle.go:222-232 | while one publishes, no collection holds the store and no one else speaks for it |
| Publishing.Session.PrepareCandidate | internal/app/candidates.go:90-128 | snapshot, candidate and record are published in this order, a failure before, between or after any of them; a record that says otherwise is a conflict, and an equal one is none |
| Publishing.Session.Up | internal/app/lifecycle.go:222-275 | the approved pointer moves last, after every deployment, and only to a candidate that is whole; an up that fails has not moved it, and fails only for a failing call, a held store, a record with other inputs, a taken name or an unregistered project; the hold is always released |
| Ids.NewProjectID | internal/domain/ids.go:22-41 | 16 bytes become exactly the 26 characters of their base32 encoding although the accumulator wraps |
| Ids.IdReadsBack | internal/domain/ids.go:22-41 | read as a number in base 32 an id is the number its bytes write, two zero bits further left |
| Ids.ShiftedIn | internal/domain/ids.go:29-31 | wrapping at the word's width never disturbs the bits still to be emitted |
| Ids.IdsParse | internal/domain/ids.go:43-53 | every id made is accepted by the parser |
| Ids.IdsDiffer | internal/domain/ids.go:8-11 | different bytes give different ids |
| Ids.ParseProjectID | internal/domain/ids.go:43-53 | accepts exactly the strings of 26 alphabet characters |
| Install.CountInstructions | internal/builder/install.go:218-231 | counts the lines that are instructions |
| Install.LineCounts | internal/builder/install.go:218-231 | line by line: one for each line that is neither empty nor begins with a hash, a space or a tab |
| Install.InstructionsJoined | internal/builder/install.go:283-290 | fragments that end their last line can be counted one by one |
| Install.OwnersCount | internal/builder/install.go:283-308 | there is one owner for each instruction of the whole file |
| Install.GenerateInstallPlan | internal/builder/install.go:233-318 | one step per instruction of the generated file, each owned by the part whose recipe it is from (chrome by the part that follows, or the last), parts listed once |
| BuildRows.AnnounceInstall | internal/app/candidates.go:192-216 | each part is announced with the number of steps it owns |
| BuildRows.Renderer.Announce | internal/progressui/progressui.go:101-107 | an announced row waits, in order, for the build to begin |
| BuildRows.Renderer.BeginBuild | internal/progressui/progressui.go:130-146 | the announced rows, indexed by title |
| BuildRows.Renderer.Credit | internal/progressui/progressui.go:224-239 | the step that ended is booked on its row, once |
| BuildRows.Renderer.StartStep | internal/progressui/progressui.go:172-200 | a step starts on its part's row, or on one of its own that counts it |
| BuildRows.Renderer.Finish | internal/progressui/progressui.go:241-253 | the last step is booked and no row stays active |
| BuildRows.Renderer.BuildEvent | internal/progressui/progressui.go:167-222 | an event changes the books as the reference fold does |
| BuildRuns.EveryRowFinishes | internal/progressui/progressui.go:224-253 | in a build of the generated plan whose steps start in order and which ends well every announced row ends with exactly the steps it was announced with done, as many of them cached as were found in the cache, and neither active nor failed |
| BuildRuns.ExtensionRowsFinish | internal/progressui/progressui.go:172-189 | rows of an extension's build all finish if and only if no step but the last has an instruction that renders as nothing; else a row ends with more steps done than it counts |
| BuildRuns.UntitledOverruns | internal/progressui/progressui.go:174-189 | such a build: an empty first instruction and one more, and once done a row has more steps done than it counts |
| BuildStream.ForwardBuildProgress | internal/dockerapi/build.go:83-136 | the events are those of the concatenated text split at line feeds, an unterminated tail included, or up to the last whole line and then the error |
| BuildStream.SaidLines | internal/dockerapi/build.go:83-136 | line by line, the unterminated tail included: each is classified, with the returns at its end taken off, as the beginning of a step, a step found in the cache, chatter that is dropped, or output |
| BuildStream.StepLineReads | internal/dockerapi/build.go:72-75 | a line is read as the beginning of step N of M if and only if it says so, digits, marks and all |
| BuildStream.SaidNumbered | internal/dockerapi/build.go:83-107 | over a whole stream every event bears the numbers of the step that began last |
| BuildStream.ChunkInvariance | internal/dockerapi/build.go:77-80 | splitting a payload in two changes nothing |
| BuildStream.SplitAcross | internal/dockerapi/build.go:124-134 | text that arrives in parts splits like text that arrives at once |
| Roster.SignalCap | internal/tmuxui/frame.go:382-416 | the cap counts headers, rows that ask for attention and the marker |
| Roster.CapLeast | internal/tmuxui/frame.go:382-391 | it is the least height at which no more rows fold than are dim |
| Roster.HidePass | internal/tmuxui/frame.go:464-473 | a pass hides from the bottom what it may, until enough are hidden |
| Roster.FoldRows | internal/tmuxui/frame.go:457-475 | exactly as many rows fold as must, dim ones before any other, services before agents, from the bottom up |
| Roster.FoldingExact | internal/tmuxui/frame.go:457-462 | rows fold only where not all fit, and no more than must: with headers and marker the rest fills the height, unless none is left |
| Roster.RosterBlock | internal/tmuxui/frame.go:434-509 | the block is the reference layout of the folded rows, cut at its height |
| Roster.LayoutReads | internal/tmuxui/frame.go:476-509 | row by row: each group its header with its count, where the block is grouped, then the rows not hidden in their order, each behind its connector; a folded group its header alone, bright if one of its rows asks for attention; then how many rows are hidden |
| Roster.RosterAccounts | internal/tmuxui/frame.go:434-509 | never more rows than the height, and entries drawn plus entries hidden are the entries laid out |
| Roster.SignalsStay | internal/tmuxui/frame.go:418-425 | a fold of no more rows than are dim hides none that asks for attention |
| Roster.SignalsShow | internal/tmuxui/frame.go:382-509 | at its signal cap a block draws every agent row that asks for attention, and every such service row unless services are folded, when their header is bright exactly if one was |
| Roster.TreeConns | internal/tmuxui/frame.go:311-322 | every row but the last of a group branches, the last closes it |
| Porcelain.Agents | internal/tmuxui/views.go:217-243 | prints the addressable entries in order |
| Porcelain.PrintedInOrder | internal/tmuxui/views.go:217-243 | the printed lines are those of the addressable entries, in their order |
| Porcelain.LineFields | internal/tmuxui/views.go:226-241 | the fields of a line: version, project, session, state, tool, model, epoch as a numeral or nothing, and the kind of what is no agent session |
| Porcelain.ParseAgents | internal/tmuxui/frame.go:134-159 | reads the lines of this version and the one before, and drops every other |
| Porcelain.ParsedExactly | internal/tmuxui/frame.go:134-159 | a line is read as an entry if and only if it has the shape of one of the two versions |
| Porcelain.ParsedInOrder | internal/tmuxui/frame.go:134-159 | and the lines that can be read are, in their order |
| Porcelain.EntryRoundTrip | internal/tmuxui/views.go:199-243 | a printed entry is read back with its text made lines if and only if its project is free of the separator |
| Porcelain.ExactRoundTrip | internal/tmuxui/views.go:199-243 | an entry whose text fits comes back exactly as it was |
| Porcelain.AgentsRoundTrip | internal/tmuxui/frame.go:124-159 | reading what was printed gives the addressable entries in order, their text made lines |
| Porcelain.AgentsReprint | internal/tmuxui/views.go:217-243 | printing again what was read gives the same bytes |
| Porcelain.AgentsTransport | internal/tmuxui/frame.go:124-159 | and so through one text with a line feed between lines |
| Porcelain.PrintFleet | internal/tmuxui/views.go:256-271 | prints every project, one line each |
| Porcelain.Atoi | internal/tmuxui/frame.go:111-118 | a pending count that does not fit 64 bits reads as the nearest that does, one that is no number as none |
| Porcelain.AtoiSaturates | internal/tmuxui/frame.go:111-118 | what that comes to, sign by sign |
| Porcelain.ParseFleet | internal/tmuxui/frame.go:103-122 | reads both versions and drops lines of another shape or without an id |
| Porcelain.FleetParsedExactly | internal/tmuxui/frame.go:103-122 | a line is read as a project if and only if it has the shape of one of the two versions |
| Porcelain.FleetRoundTrip | internal/tmuxui/frame.go:96-122 | projects with an id are read back with their text made lines |
| Porcelain.ExactFleetRoundTrip | internal/tmuxui/frame.go:96-122 | a project whose text fits comes back exactly as it was |
| Porcelain.FleetReprint | internal/tmuxui/views.go:256-271 | printing again gives the same bytes if and only if every project had an id |

## Left out

- Restoration after a crash of `Down` with a live journal: both generations may be gone, and the next sweep fails closed by design. `Teardown.Down` claims its completed outcome; that nothing foreign is touched, then or by any later up, is `Ownership.AcrossCrashes`.
- Decoding and validating the journal file (internal/runtime/journal.go:76-133): a journal is read as it was written; temporary files and fsync are below the atomic write and delete.
- Networks, volumes, the env file, leases and lifecycle hook contents during `Up`: calls that may fail.
- Containers that exit, are renamed or change address by themselves between two calls; two engines on one project at once (the project lock excludes them).
- Containers of services dropped from the plan: `Up` never removes them, and no lemma says it does.
- Upgrade.Up: that a second up makes no call is stated as no change of containers, journal, history or addresses, because read-only calls still advance the clock of the schedule.
- Image pulls and builds, exec, attach and log streaming, DNS crash details in error texts.
- The intent gate's fairness: progress is stated as an enabled step, not as eventual service; kernel wake order is unspecified.
- IntentGate.IntentGate.Cancel: requests are values indexed by arrival rather than heap objects, so aliasing of a request record is not modelled.
- Opening the intent or lock file, and the poll interval: failures and cancellations of a poll are one step, `GiveUp`.
- `RequestDecide` (internal/app/requests.go:335-361), which moves the approved pointer without the shared hold.
- Artifacts named inside an approved plan but neither pinned nor carried by a live label; binaries, project state and staging clean-up of the collector.
- Collector.World.Collect: the store, the registry and the requests are one value that steps replace, so file-level partial states within one rename or one write are not modelled; publication and leases are steps of `Collection` rather than methods of their own.
- Publishing.Session.Up: containers are deployed under names no container has, and a taken name ends the up; that a running container's name passes to its replacement is the subject of `Reconcile`, not of this module. Each publication is one step that either happens or does not.
- SHA-256 and content verification of staged trees: a digest is a name.
- Width of the count lines of a diff, which the source does not clip; decoding of bytes into code points.
- Install.GenerateInstallPlan: the recipes' texts and the selection of layers are inputs, required only to be named, titled by their id and newline-terminated as all engine recipes are; the release details they pin are not modelled.
- Colours, paint, elapsed times and the replayed output tail of the build renderer.
- `Frame` beyond one block's roster: the fleet tally, the footer, click maps and ghost cells; the model slot, age and glyph of a row.
- Porcelain.FleetRoundTrip: token and mode are required to be free of the separator, as their closed vocabularies are; the computation of the token from container states is not modelled.
- CLI, tmux client, releases, egress, presets, doctor, manifest validation: no property beyond their own bodies.
