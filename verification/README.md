# Models of the Plex cluster's state machines

The repository turns one Plex server into a cluster: it projects clustarr's
MediaFiles into Plex's library rows, elects one pod with a lease, stages Live TV
guide loads in PostgreSQL, coalesces scans and refreshes, remuxes streams and
restores databases from psql scripts. This project models the parts of it that are
state machines over shared state, or algorithms with a much simpler meaning than
their code, and proves what they promise for every input, every run and every
interleaving.

Verify everything with `dafny verify dfyconfig.toml`.

| file | what it holds |
|---|---|
| `Library.dfy`, `Trash.dfy`, `Cycles.dfy`, `Items.dfy`, `Chains.dfy`, `MediaRows.dfy`, `Apply.dfy`, `Effects.dfy`, `Removal.dfy`, `Sweep.dfy`, `Runs.dfy`, `Projector.dfy` | the library projection: rows, item chains, the apply and delete transactions, removal and revival, runs of them, the projector with its reconcile and sweep; what trashing, a chain, an apply and a delete do, said of the library before and after |
| `Lease.dfy` | the lease protocol, Get and compare-and-swap interleaved |
| `Guides.dfy` | guide loads: the staging schema, Plex's steps and the manager's |
| `Scheduler.dfy`, `SeedQueue.dfy`, `Restarts.dfy`, `Activity.dfy` | the coalescing scheduler, the seed queue, the restart hand-off, the activity meter |
| `Sorting.dfy`, `Decimals.dfy`, `HashRing.dfy`, `Fmp4.dfy`, `Timeline.dfy`, `FilterGraph.dfy` | sorting, numbers in decimal and the hash ring, the fMP4 splitter, the SegmentTimeline encoder, the filter-graph resolver |
| `PsqlText.dfy`, `PsqlGrammar.dfy`, `PsqlPrint.dfy`, `Psql.dfy` | what a psql script means, what it is written as, printing it, and the parser |
| `Markers.dfy`, `Labels.dfy`, `Sidecars.dfy` | the marker, label and sidecar reconcilers |
| `Options.dfy` | an optional value and a fact about sets |

Code that only computes is a function. Code that changes state step by step is a
method, or a class whose methods are proved against a function of the old state;
the theorems about whole runs are then about those functions. A protocol is a step
relation or a step function, and its theorem ranges over every sequence of steps.

## Where the code departs from what it promises

Each of these is proved both ways: inputs where the promise fails, and exactly when it
holds.

- Guides, the copy: `ImportGuide` takes the staging schema whatever its mark, relying
  on "nothing but this copy fills one" (pkg/plex/bootstrap/guides.go:526-529). When the
  poll copies a guide file (one whose copy failed at its rename, say) while a load
  staged in PostgreSQL is being written, the schema is taken from under the load,
  `PrepareStaging` makes a clean one, the load writes on into it, and the next load is
  staged onto those rows: `Guides.TwoLoadsGoLive` reaches that from a start. A copy is
  safe exactly when no routed load is running (`Guides.CopyIsSafeExactly`).
- Guides, the inode: `RecoverLoads` takes a guide file with the recorded inode for the
  staged load, renamed (pkg/plex/bootstrap/guides.go:1146-1153). File systems use a freed
  inode again: when a staged load fails, and the next, not staged, gets its inode and is
  renamed, the failed load's rows go live (`Guides.FailedLoadGoesLive`, from a start;
  `Guides.InodeReused`, from any running staged load). The poll swaps in the load that
  is the guide exactly when the guide file is a shadow put over a load, rather than
  Plex's own database or the shadow a start built (`Guides.PollIsRightExactly`); the
  manager writes both kinds of shadow, so it can mark them apart.
- Activity: a meter is documented as what moved "lately" (pkg/proxy/tcp.go:43-50), but
  the window before the current one counts however long ago it ended
  (`Activity.HoweverLong`). A report says something about the last `back`, whatever was
  delivered, exactly when no delivery that counts is older (`Activity.ReportIsRecentExactly`).
- Fmp4: `OnInit` is documented as called once (pkg/remux/fmp4.go:9-12); it is called
  once for every moov of the stream (`Fmp4.InitsOfStream`), twice for two
  (`Fmp4.TwoInits`).
- Removal: `revive` puts back "the parts it removed with it"
  (pkg/plexproject/missing.go:341-343), which it tells by their deletion second: a part
  deleted before in the same second comes back too, and removal and revival are inverse
  exactly when there is none (`Removal.ReviveUndoesRemove`).
- Watched state: re-keying a row moves what accounts kept under its old guid to its new
  one (pkg/plexproject/items.go:186-194). A season or episode below that is itself
  re-keyed from that new guid moves it on (`Chains.StatePassesOn`). No account's state is
  ever lost (`Chains.ChainEffects`), and whoever kept some under a re-keyed row's old guid
  or its new one keeps some under the new, whatever the watched state was, exactly when
  the chain's re-keyings carry both guids there (`Chains.RowKeepsExactly`): as they do of
  every row that alone was re-keyed from them (`Chains.AloneGathers`).
- Timeline: the encoder is lossless exactly when the first segment does not start at
  -1, the value it uses for "nothing before" (`Timeline.Template`).
- Projection: `trashIfEmpty` climbs while it finds parents, so rows that are each
  other's parents can keep it for ever (`Cycles.ParentsInACycle`). It ends exactly when
  the way up, taken for one row more than there are, meets a missing row, one without a
  parent, or one that holds something live not met before (`Cycles.WalkEndsExactly`); in
  the typed forest, which every transaction keeps, it always does
  (`Cycles.TypedWalkEnds`).

Two laws the code does not state are given with their exact conditions as well: printing
a parsed psql script and parsing it again (`PsqlPrint.RoundTrip`), and the second run of
the marker reconciler, which is quiet of a kind exactly when none are desired, the rows
were there before the first, or `ours` recognises every source
(`Markers.SeedMarkersTwice`).

## Model

| member | source | states |
|---|---|---|
| `Library.TrashWalk` | pkg/plexproject/items.go:232-260 | the loop that recounts an item, trashes it when nothing live is on or under it and goes on to its parent; it ends because the depth in the typed forest drops |
| `Library.TrashFrame` | pkg/plexproject/items.go:232-260 | trashing touches only count, trash mark and update time, only of the item and the rows above it, and revives nothing |
| `Library.TrashSound` | pkg/plexproject/items.go:232-260 | from a library whose only stale count is the item's, trashing leaves a sound one |
| `Trashing.TrashMeans` | pkg/plexproject/items.go:232-260 | after trashing, the item and each row above it are trashed at that time if and only if no live media row is on it and no live item under it; every other item is as it was |
| `Cycles.WalkEndsExactly` | pkg/plexproject/items.go:232-260 | over any table: the walk ends if and only if the way up, one row more than there are, is not all empty, and then within as many turns |
| `Cycles.TypedWalkEnds` | pkg/plexproject/items.go:232-260 | over a typed forest it ends |
| `Cycles.TypedWalkIs` | pkg/plexproject/items.go:232-260 | over a typed forest, turn by turn, it leaves what the recursion of the other theorems leaves |
| `Cycles.ParentsInACycle` | pkg/plexproject/items.go:232-260 | from a row whose parent is trashed, empty and its child, the walk never ends |
| `Guids.BaseGUID` | pkg/plexproject/guid.go:69-74 | the guid cut at its first edition marker; without one it is its own base |
| `ItemChain.Locate` | pkg/plexproject/items.go:117-143 | the row found matches the node and comes first of all that do; none is found exactly when none matches |
| `ItemChain.LocateFinds` | pkg/plexproject/items.go:103-143 | a row is found if and only if one is known by the node's guid, its prior one or its place, and it is taken before every other: live ones first, then a movie of exactly the guid, then by what they are known by, the latest trashed, the lowest id |
| `ItemChain.LocatedLeads` | pkg/plexproject/items.go:117-143 | the located row comes first of all candidates, and another row is chosen only when that one is trashed |
| `ItemChain.WatchStateMoves` | pkg/plexproject/items.go:186-194 | re-keying loses no account's watched state and overwrites none it already had |
| `ItemChain.EnsureNodeFrame` | pkg/plexproject/items.go:31-79 | one step writes one row, live, typed, keyed and placed as the node says, and no media row or part |
| `ItemChain.EnsureChain` | pkg/plexproject/items.go:31-79 | the loop down the chain gives the walk that EnsureChainSound and EnsureChainTwice are about |
| `ItemChain.EnsureChainSound` | pkg/plexproject/items.go:31-79 | from a sound library the chain leaves a sound one, with a live leaf of the last node's type and base guid |
| `ItemChain.StepSettles` | pkg/plexproject/items.go:117-184 | after a step its row is the one locate finds for the node, by hint, revival or Plex's own edition escaping alike |
| `ItemChain.EnsureChainTwice` | pkg/plexproject/items.go:31-79 | run again with the same chain, any hint and any time: same leaf and root, no row or watched state changed, no refresh asked, so no twin is ever made |
| `Chains.StepKeys` | pkg/plexproject/items.go:164-184 | a step gives its row the node's guid unless it has Plex's own escaping of the same edition, rehashes the bundle of a re-keyed row that had one, and moves its update time exactly when the row changed |
| `Chains.ChainEffects` | pkg/plexproject/items.go:31-79 | a chain asks for exactly the refreshes of the rows it inserted or gave another bundle, an episode's of its season, each once; every account keeps its watched state where the re-keyed rows carry it, no view count changes, settings of other guids stay |
| `Chains.RowKeepsExactly` | pkg/plexproject/items.go:164-194 | for every watched state, whoever kept some under a re-keyed row's old or new guid keeps some under the new, if and only if the chain's re-keyings carry both guids there |
| `Chains.AloneGathers` | pkg/plexproject/items.go:164-194 | they do when no other row was re-keyed from either guid |
| `Chains.StatePassesOn` | pkg/plexproject/items.go:164-194 | a show takes its season's guid and the season another: the show's watched state ends under the season's |
| `Chains.HintKept` | pkg/plexproject/items.go:31-48 | the row the file hangs off stays the leaf while no live row is known for the node |
| `Projection.RetireSound` | pkg/plexproject/delete.go:48-54 | soft-deleting a row and its parts leaves only its item's count stale |
| `Projection.ClearSound` | pkg/plexproject/delete.go:66-89 | removing superseded rows keeps the library sound |
| `Projection.ClearFrame` | pkg/plexproject/delete.go:66-89 | every live row stays as it is, every part of a row that stays does too, and of the items only the one's update time moves |
| `Projection.UpsertSound` | pkg/plexproject/media.go:97-122 | writing the row on a live item, found or new, leaves a sound library: backed, counted, its stamp its own |
| `Projection.StampSound` | pkg/plexproject/media.go:128-147 | stamping the only live row of the file keeps the library sound |
| `Projection.DetachSound` | pkg/plexproject/apply.go:83-132 | a file that moves leaves its old item soundly, every other live row and every other leaf untouched |
| `Projection.DetachLeaves` | pkg/plexproject/delete.go:26-89 | a row that leaves goes, with its parts; its item and those above are live exactly while they hold something, trashed at that time if not; superseded rows are cleared and nothing else changes |
| `Projection.FindsFirst` | pkg/plexproject/media.go:57-81 | of the file's stamped row a live part before a deleted one; of the unstamped rows at its path one on a preferred item, then the lowest |
| `Transactions.FindsAll` | pkg/plexproject/media.go:57-81 | the row found carries the file's stamp or is unstamped at its path, and no other live row of the section carries the stamp |
| `Transactions.ApplySound` | pkg/plexproject/apply.go:60-193 | a committed apply leaves the library sound |
| `Transactions.ApplyLands` | pkg/plexproject/apply.go:60-193 | the file ends on one live row, stamped and current, on its chain's leaf, every other file's row as it was |
| `Transactions.ApplyTwice` | pkg/plexproject/apply.go:60-193 | the same apply again changes nothing and asks for no refresh |
| `Transactions.ApplyProjects` | pkg/plexproject/apply.go:60-193 | seen as the section's stamps by file, an apply sets its own file's, current, and no other's |
| `Transactions.DeleteSound` | pkg/plexproject/delete.go:16-43 | a delete leaves a sound library, the file without a live row, every other live row as it was |
| `Transactions.DeleteProjects` | pkg/plexproject/delete.go:16-43 | seen as the section's stamps by file, a delete removes its own file's and no other's |
| `Effects.ApplyEffects` | pkg/plexproject/apply.go:60-193 | a committed apply of a change that was not current, said of the databases before and after: watched state follows re-keyed rows; exactly the refreshes of filled rows are asked for, with the leaf's when its file's path or seeded probe is another, each once, and that leaf is updated; the item a file left, and those above it, are live exactly while they hold something; no superseded row is left beside the file's |
| `Effects.ApplyCommits` | pkg/plexproject/apply.go:60-160 | an apply commits if and only if the change has a chain, the database takes it, and the file has a current row or its path is under the location |
| `Effects.ApplyKeepsItem` | pkg/plexproject/apply.go:94-132 | a file stamped with this very item stays on the row it is on while no live row is known for the item |
| `Effects.DeleteTrashes` | pkg/plexproject/delete.go:16-43 | deleting a file's row trashes the item it left, and each row above, if and only if nothing live is left on it or under it |
| `Effects.DeleteNothing` | pkg/plexproject/delete.go:16-25 | a file without a row is nothing to delete |
| `Removal.RemoveSound` | pkg/plexproject/missing.go:315-339 | a sweep's removal leaves a sound library and a row that can be revived |
| `Removal.ReviveSound` | pkg/plexproject/missing.go:344-377 | a revival leaves a sound library with the row live |
| `Removal.RemoveLeaves` | pkg/plexproject/missing.go:315-339 | a removal marks the row and drops it and its live parts; its item and those above are trashed if and only if they hold nothing live, a live item is updated, and nothing else changes |
| `Removal.ReviveLeaves` | pkg/plexproject/missing.go:344-377 | a revival clears the mark and brings back the row and the parts that went in its second; its item and those above are live, and nothing else changes |
| `Removal.ReviveUndoesRemove` | pkg/plexproject/missing.go:315-377 | revival right after removal restores the row, the liveness of the item and its ancestors and every count, update times aside, and every part if and only if none was deleted in the second of the removal |
| `Sweeps.LongestRoot` | pkg/plexproject/missing.go:399-407 | the longest root that holds the file, or "" when none does |
| `Sweeps.AllGone` | pkg/plexproject/missing.go:300-308 | Gone exactly when the disk answers so for every file, else the first other answer |
| `Sweeps.FilesAre` | pkg/plexproject/missing.go:240-247 | a row's files are those of its live parts, of a deleted row's all, in the order of the part ids |
| `Sweeps.JudgedAre` | pkg/plexproject/missing.go:240-293 | judged are the section's live rows and those a sweep removed, on the item or under it, that have a file |
| `Sweeps.UnderFolderIs` | pkg/plexproject/reconcile.go:114-116 | a path is under a folder if and only if it is the folder, a slash and the rest |
| `Runs.RunKeepsLibrary` | pkg/plexproject/apply.go:83-132 | over every run of applies, deletes, removals and revivals: live rows on live items and backed, live items under live parents, counts exact, one live row per file and section |
| `Projectors.Leave` | pkg/plexproject/delete.go:26-41 | the three steps give the detached library of which DetachSound proves what it keeps |
| `Projectors.PutFile` | pkg/plexproject/apply.go:83-192 | the steps after the chain give the row and the refreshes of the committed transaction |
| `Projectors.Transact` | pkg/plexproject/apply.go:60-193 | step by step, early returns included, the transaction gives what ApplySound, ApplyLands and ApplyTwice are about |
| `Projectors.Projector.Apply` | pkg/plexproject/apply.go:60-193 | rows and refreshes change together or not at all |
| `Projectors.Projector.Delete` | pkg/plexproject/delete.go:16-43 | the delete transaction, or nothing when it fails |
| `Projectors.Projector.ApplyDue` | pkg/plexproject/reconcile.go:47-74 | every due change whose row is missing or stale is applied, no other file's stamps move |
| `Projectors.Projector.DeleteUnwanted` | pkg/plexproject/reconcile.go:75-84 | exactly the rows no change names are deleted, in any order |
| `Projectors.Projector.Reconcile` | pkg/plexproject/reconcile.go:35-85 | refused exactly for an empty want on a non-empty section; whatever fails, no wanted file's row is lost and no row moves that is neither listed under the folder nor due there; a clean run of a folder keeps or applies exactly what is due or wanted and drops the rest of its listing, and of the whole section reaches exactly the resolved wanted files, current, plus the unresolved ones that had a row; every stale change and unwanted row is counted once, every loose path as adopted or unknown; a section already there is left alone |
| `Projectors.Projector.ReconcileTwice` | pkg/plexproject/reconcile.go:35-85 | after a clean run a second one applies, deletes and asks nothing: rows and refreshes stay as they were |
| `Projectors.HaveProjected` | pkg/plexproject/reconcile.go:89-112 | what is listed are stamps of live rows, and the whole section lists all of them |
| `Projectors.ListingsAre` | pkg/plexproject/reconcile.go:89-112 | the two listings are exactly the live rows of the section with a live part under the folder: the stamped by file, the stamp-less by path |
| `Projectors.Projector.RemoveRow` | pkg/plexproject/missing.go:315-339 | removes the row unless an apply took it meanwhile or the transaction fails |
| `Projectors.Projector.ReviveRow` | pkg/plexproject/missing.go:344-377 | writes over whatever deleted row is there the stamps that were read, less the mark, raising its parts, item and ancestors; nothing when the row is gone or live by then or the transaction fails; sound when the row is still as the sweep left it |
| `Projectors.Projector.Sweep` | pkg/plexproject/missing.go:159-229 | removes only rows Plex scanned with every file gone, restores only rows a sweep removed with a file back, both under a trusted root; never touches a stamped row, nor one not judged or not under the folder; counts exactly what it took and put back; unless the disk stalls or a transaction fails, handles and counts every row it judges and reports the first file of each stamped row whose files are all gone |
| `Lease.MutualExclusion` | pkg/lease/lease.go:61-135 | in every interleaving of Get and compare-and-swap, from any lease left behind, with writes lost, unanswered or landing after their call was given up, restarts and any durations, no two pods are inside the validity window of a lease they acquired and have not begun to release |
| `Lease.HolderIsTold` | pkg/lease/lease.go:138-165 | while a pod is inside its window every other is told it holds the lease and refused it |
| `Lease.Replaceable` | pkg/lease/lease.go:61-98 | a free or expired lease is taken by an acquire no write comes between, for one duration from the call |
| `Lease.AcquireIs` | pkg/lease/lease.go:61-98 | an acquire no write comes between, whatever else the other pods do: its own, a free or an expired lease becomes its own, for its own duration from the time of the call, acquired then unless it had it; any other stays |
| `Lease.RenewIs` | pkg/lease/lease.go:102-117 | a renew no write comes between leaves the holder the holder, renewed at its stamp, duration and acquire time as they were; every other pod is refused exactly until that time plus the duration |
| `Lease.RenewedWindow` | pkg/lease/lease.go:102-117 | the pod is inside its window exactly until one duration after the stamp |
| `Lease.ReleaseIs` | pkg/lease/lease.go:121-135 | a release no write comes between, of the holder, leaves the lease free |
| `Lease.ReleasedIsTaken` | pkg/lease/lease.go:61-135 | another pod's acquire right after takes it |
| `Lease.NotTheHolder` | pkg/lease/lease.go:102-135 | a pod that does not hold the lease renews and releases nothing |
| `Guides.PrepareStaging` | pkg/plex/bootstrap/guides.go:565-592 | makes a clean clone only when there is no staging schema |
| `Guides.StageLoad` | pkg/plex/bootstrap/guides.go:1042-1102 | a load already staged is left alone; else, failure by failure, the schema is untouched, gone, clean or marked; when all works it is marked loading with the shadow's inode recorded |
| `Guides.SwapLoaded` | pkg/plex/bootstrap/guides.go:1108-1144 | swaps exactly a schema marked loading |
| `Guides.RecoverLoads` | pkg/plex/bootstrap/guides.go:1154-1219 | a recorded load whose file is gone is swapped in exactly when the guide file has its inode, else cloned clean again |
| `Guides.ImportGuide` | pkg/plex/bootstrap/guides.go:483-560 | copies a newer file with airings and swaps, or drops the schema; a clean schema is left holding rows exactly when copy commits, swap fails and the drop fails |
| `Guides.EveryGuideIsOneLoad` | pkg/plex/bootstrap/guides.go:565-1219 | over every run, inodes used again included, in which no copy takes a routed load's schema and no swap rests on a guide file that is not a load's shadow: a clean schema is a fresh clone, and what was swapped in is exactly the rows of one load, one Plex ended |
| `Guides.PollIsRightExactly` | pkg/plex/bootstrap/guides.go:1146-1219 | on a guide file with the recorded inode, the poll makes live the load whose file that is if and only if the file is a shadow put over a load |
| `Guides.RenameIsEvidence` | pkg/plex/bootstrap/guides.go:1085-1095 | Plex's rename of a staged load leaves the poll the inode it looks for |
| `Guides.TakenUnderALoad` | cmd/manager/guides.go:96-160 | after a copy takes a routed load's schema, nine further steps put rows of two loads live |
| `Guides.CopyIsSafeExactly` | pkg/plex/bootstrap/guides.go:524-538 | a copy that takes the schema keeps every later run clean if and only if no routed load is running |
| `Guides.InodeReused` | pkg/plex/bootstrap/guides.go:1146-1219 | from any staged load that runs, five steps with its inode used again make live what it wrote, though Plex never ended it |
| `Guides.LoadIsRouted` | pkg/plex/bootstrap/guides.go:1042-1102 | from a start, careful steps lead to a routed load beside a guide file that can be copied |
| `Guides.TwoLoadsGoLive` | cmd/manager/guides.go:96-160 | a run from a start ends with rows of two loads live |
| `Guides.FailedLoadGoesLive` | pkg/plex/bootstrap/guides.go:1154-1219 | a run from a start ends with a load live that Plex never ended |
| `HashRing.RemoveMovesOnlyItsKeys` | pkg/hashring/hashring.go:35-73 | removing a member changes the owner only of keys it owned, for any hash, collisions included |
| `HashRing.AddMovesKeysOnlyToIt` | pkg/hashring/hashring.go:35-73 | adding a member moves keys only to it |
| `HashRing.OneOwner` | pkg/hashring/hashring.go:35-73 | a key has one owner |
| `HashRing.PointsApart` | pkg/hashring/hashring.go:35-58 | the names hashed for the points are all different, so that with a hash that is one to one every member has points of its own, one for each replica |
| `HashRing.RingsAgree` | pkg/hashring/hashring.go:35-59 | rings over the same names are equal |
| `HashRing.New` | pkg/hashring/hashring.go:35-59 | builds the ring of the set of names given, whatever their order and repetition |
| `HashRing.BinarySearch` | pkg/hashring/hashring.go:62-73 | the least index whose point is not below the hash |
| `HashRing.Locate` | pkg/hashring/hashring.go:62-73 | the owner: the member of the first point at or after the key's hash, wrapping; "" for an empty ring |
| `HashRing.LocateWithout` | pkg/hashring/hashring.go:35-73 | of two rings built and asked, one without a member, only a key of that member is answered differently |
| `HashRing.LocateWith` | pkg/hashring/hashring.go:35-73 | of two, one with a member more, a key answered differently is the new member's |
| `Fmp4.Splitter.Write` | pkg/remux/fmp4.go:24-56 | new state and calls are those of draining the buffer with the bytes appended, 0 bytes taken once failed |
| `Fmp4.Splitter.TakeBox` | pkg/remux/fmp4.go:58-78 | what each box does to init, fragment and calls |
| `Fmp4.PeekIs` | pkg/remux/fmp4.go:29-50 | a box's 32-bit size is read in order: refused when 0 or less than the header, whole as soon as that much is there |
| `Fmp4.PeekIsLarge` | pkg/remux/fmp4.go:31-50 | so is the 64-bit size after a size of 1 |
| `Fmp4.PeekWaits` | pkg/remux/fmp4.go:29-36 | a header that is not all there is waited for |
| `Fmp4.CutDoesNotMatter` | pkg/remux/fmp4.go:24-78 | any division of a stream into writes makes the same calls with the same bytes in order and reaches the same error as one write |
| `Fmp4.CallsCarryTheStream` | pkg/remux/fmp4.go:24-78 | the stream is the boxes taken and the bytes behind them, and the calls are exactly those the boxes ask for, a refused one included; a stream fails at the last box taken or at the front of the rest, and until then the rest is unread and holds no whole box |
| `Fmp4.OneInitPerMoov` | pkg/remux/fmp4.go:58-78 | the init is handed over once for each moov |
| `Fmp4.InitsOfStream` | pkg/remux/fmp4.go:24-78 | of any stream, failed or not, as many inits as moovs among the boxes taken |
| `Fmp4.TwoInits` | pkg/remux/fmp4.go:58-78 | a stream of two moovs hands over two inits, the second with the first before it |
| `Timeline.Repeats` | pkg/remux/mpd.go:119-148 | the segments counted are exactly a run, and the next one breaks it |
| `Timeline.Template` | pkg/remux/mpd.go:119-148 | the elements read back as the timeline if and only if it does not start at -1; no shorter list reads back as it; no start is written that follows on |
| `Timeline.NoFewer` | pkg/remux/mpd.go:119-148 | any list of S elements has at least as many elements as the timeline it reads as has runs |
| `Timeline.EndOfLast` | pkg/remux/mpd.go:119-148 | the end carried along is the end of the last segment |
| `PsqlPrint.RoundTrip` | pkg/plex/bootstrap/psql.go:39-94 | parse, print and parse again gives the same commands, line numbers aside, if and only if no statement begins with a backslash and every COPY has its rows |
| `PsqlPrint.PrintedIsRead` | pkg/plex/bootstrap/psql.go:39-94 | any list of proper commands, printed, is read back under the same condition, and under no other |
| `PsqlPrint.ParseIsProper` | pkg/plex/bootstrap/psql.go:55-94 | every command of a parse is a one-line meta-command or a statement that lexes to its own end, with rows only for a COPY |
| `PsqlPrint.PieceMoves` | pkg/plex/bootstrap/psql.go:137-224 | a comment, quote, dollar quote or character lexes the same wherever its statement is moved |
| `PsqlPrint.PrintedRows` | pkg/plex/bootstrap/psql.go:228-264 | COPY rows printed with their end line are read back exactly |
| `PsqlGrammar.DollarPiece` | pkg/plex/bootstrap/psql.go:207-224 | for any tag not behind an identifier and any body in which it does not occur, tag, body and tag are one piece |
| `PsqlGrammar.QuotePiece` | pkg/plex/bootstrap/psql.go:189-205 | so is a quoted text with doubled quotes inside |
| `PsqlGrammar.EscapePiece` | pkg/plex/bootstrap/psql.go:177-205 | and, after an E of its own, one with backslash escapes |
| `PsqlGrammar.BlockPiece` | pkg/plex/bootstrap/psql.go:149-173 | a block comment with comments nested in it, however deep, is one comment |
| `PsqlGrammar.LinePiece` | pkg/plex/bootstrap/psql.go:137-146 | so is the rest of a line after two dashes |
| `PsqlGrammar.OneStatement` | pkg/plex/bootstrap/psql.go:39-94 | a script of one statement, made of such pieces, and its semicolon is exactly one command |
| `PsqlGrammar.DollarBlock` | pkg/plex/bootstrap/psql.go:207-264 | a dollar-quoted block is one command whatever semicolons and quotes it holds |
| `PsqlGrammar.ScriptIs` | pkg/plex/bootstrap/psql.go:39-264 | a script written as statements of such pieces, COPYs with their rows, meta-commands, blanks and comments, and at its end a statement left open, is exactly the commands written, each on its line |
| `PsqlGrammar.NeverEndsFails` | pkg/plex/bootstrap/psql.go:149-224 | after any such script a comment or quote whose end is not in the rest fails it, with what it is and the line it begins on |
| `PsqlGrammar.LinesAre` | pkg/plex/bootstrap/psql.go:104-119 | a line number is one more than the line ends before |
| `Psql.ParsePSQL` | pkg/plex/bootstrap/psql.go:39-42 | the parser finds the script's commands with their line numbers, or the line of what never ends |
| `Psql.Parser.Run` | pkg/plex/bootstrap/psql.go:55-94 | the loop finds exactly the commands the script holds, the statement left open at the end among them |
| `Psql.Parser.Step` | pkg/plex/bootstrap/psql.go:59-88 | one turn keeps found commands plus the rest equal to the script's |
| `Psql.Parser.Take` | pkg/plex/bootstrap/psql.go:104-119 | text joins the statement, lines counted and the statement's start marked at its first non-blank |
| `Psql.Parser.Meta` | pkg/plex/bootstrap/psql.go:122-132 | a backslash line is a command, without its carriage returns |
| `Psql.Parser.LineComment` | pkg/plex/bootstrap/psql.go:137-146 | skipped before a statement, kept inside one |
| `Psql.BlockCommentEnd` | pkg/plex/bootstrap/psql.go:149-173 | the end of a comment that may nest, or none |
| `Psql.Parser.Quoted` | pkg/plex/bootstrap/psql.go:189-205 | the end of a quote, doubled quotes and escapes passed over |
| `Psql.Parser.DollarQuoted` | pkg/plex/bootstrap/psql.go:216-224 | up to the next occurrence of its own tag |
| `Psql.Parser.EndStatement` | pkg/plex/bootstrap/psql.go:228-264 | a statement becomes a command, a COPY takes its rows or fails with its line |
| `Psql.Parser.CopyRows` | pkg/plex/bootstrap/psql.go:243-263 | the rows up to the end line, and where the script goes on |
| `Scheduler.NothingIsLost` | pkg/clustarrwatch/scheduler.go:58-164 | after any interleaving of enqueues with flush phases every folder or guid is still queued, or a send covering it succeeded that began after the enqueue |
| `Scheduler.CollectsWhatIsDue` | pkg/clustarrwatch/scheduler.go:93-125 | a flush misses nothing due and each send carries the due times it was collected with |
| `Scheduler.SectionSends` | pkg/clustarrwatch/scheduler.go:93-125 | a section with more folders queued than the threshold is sent whole, once, with all of them, due or not; of any other every due folder is sent for itself, and no other |
| `Scheduler.RefreshSends` | pkg/clustarrwatch/scheduler.go:126-139 | exactly the guids and ids that are due are sent |
| `Scheduler.GivenUpAtTheFifth` | pkg/clustarrwatch/scheduler.go:166-187 | a refresh by id stays queued through four failures on end and is given up at the fifth |
| `Scheduler.Coalescer.EnqueueKey` | pkg/clustarrwatch/scheduler.go:58-89 | an enqueue, of a folder, a guid or an id, is the step that NothingIsLost speaks of: due one delay after now, whatever it was due before |
| `Scheduler.Coalescer.Flush` | pkg/clustarrwatch/scheduler.go:93-193 | an undisturbed flush is a run of those steps; where every send succeeds nothing due stays, and what a failed send carried does |
| `FilterGraph.FollowIsTheWalk` | pkg/video/filter.go:105-153 | with one round more than chains, following equals the unbounded walk, second inputs of overlays walked too: it resolves exactly when a walk of accepted shapes ends, to that walk's stream, filters and overlay |
| `FilterGraph.SecondIsTheWalk` | pkg/video/filter.go:147-153 | the bounded following of an overlay's second input is a stream or what a plain walk from it ends in, and nothing when none ends |
| `FilterGraph.WalkFits` | pkg/video/filter.go:105-143 | a walk that ends has no more steps than there are chains (a pigeonhole) |
| `FilterGraph.WalkResolves` | pkg/video/filter.go:105-143 | a walk of accepted shapes, with a round for each of its chains, resolves to its stream, its filters in source-to-output order and its overlay |
| `FilterGraph.ResolvedIsWalk` | pkg/video/filter.go:105-143 | what resolves in any number of rounds is a walk of accepted shapes |
| `FilterGraph.Follow` | pkg/video/filter.go:105-143 | the loop gives what the recursion by rounds gives, of which FollowIsTheWalk proves the meaning |
| `FilterGraph.FollowSecond` | pkg/video/filter.go:147-153 | an overlay's second input: a stream, or a walk without overlays |
| `FilterGraph.Resolve` | pkg/video/filter.go:93-103 | a stream named outright, a bracketed label followed, anything else refused |
| `FilterGraph.StreamRefIs` | pkg/video/filter.go:93-97 | a stream is "0:" and its number in decimal, zeros before it or not |
| `FilterGraph.LabelIs` | pkg/video/filter.go:98-102 | a label stands between brackets and holds no closing one |
| `FilterGraph.SplitUnescaped` | pkg/video/filter.go:67-80 | joined by the separator the parts are the string again, and none holds an unescaped separator |
| `SeedQueue.QueueStaysConsistent` | pkg/clustarrwatch/watcher.go:633-739 | over every run: the order lists the queue without repeats, no file is queued and backing off, neither is older than its last change, and it is tried at most once more than there are backoff steps |
| `SeedQueue.FailingIsTriedAgain` | pkg/clustarrwatch/watcher.go:663-701 | a file that fails with backoff steps left waits out exactly its next step and is queued again, one attempt further on; after the last it is not; one queued again meanwhile keeps its newer version |
| `SeedQueue.Watcher.EnqueueSeed` | pkg/clustarrwatch/watcher.go:644-660 | a change replaces what is queued and ends its backoff |
| `SeedQueue.Watcher.ForgetSeed` | pkg/clustarrwatch/watcher.go:633-642 | the file is nowhere in the queue, its order, the backoff or the attempts |
| `SeedQueue.Watcher.PromoteSeedRetries` | pkg/clustarrwatch/watcher.go:663-680 | exactly the files whose step has passed are queued, none replacing a queued version |
| `SeedQueue.Watcher.Dequeue` | pkg/clustarrwatch/watcher.go:727-739 | the first files of the order, with the attempts made before |
| `SeedQueue.Watcher.FinishSeed` | pkg/clustarrwatch/watcher.go:684-701 | a failing file backs off one step, unless it was the last or a newer version is queued |
| `Activity.NeverMisses` | pkg/proxy/tcp.go:53-77 | a connection that moved streamBytes in the last streamIdle is reported |
| `Activity.QuietIsNotReported` | pkg/proxy/tcp.go:53-77 | one that moved nothing for twice streamIdle is not |
| `Activity.ReportMeans` | pkg/proxy/tcp.go:53-77 | a report is exactly streamBytes since the start of the window before, or of the current one once it is old |
| `Activity.ReportIsRecentExactly` | pkg/proxy/tcp.go:53-77 | whatever was delivered at these times, a report means streamBytes within the last `back`, if and only if no delivery that counts is older or the current window is two streamIdle old |
| `Activity.ReportIsFresh` | pkg/proxy/tcp.go:53-77 | so of a connection never silent for streamIdle, a report means streamBytes within the last three |
| `Activity.HoweverLong` | pkg/proxy/tcp.go:53-77 | after a burst and any silence of streamIdle or more, the first byte is reported as a stream |
| `Activity.Meter.Add` | pkg/proxy/tcp.go:53-61 | a delivery leaves the windows that the theorems over delivery histories speak of |
| `Activity.Meter.Streaming` | pkg/proxy/tcp.go:65-77 | the answer those theorems are about |
| `Restarts.NoRequestIsLost` | cmd/manager/livetvrestart.go:71-118 | in every interleaving: pending providers imply a token, an awake worker or a requester about to kick; rounds start at least `every` apart; rounds and what is pending took every request once, in order |
| `Restarts.RequestIsInTheNextRound` | cmd/manager/livetvrestart.go:71-118 | a provider asked for is in the first round that starts after, as it was asked for last before that round |
| `Restarts.PendingCanBeTaken` | cmd/manager/livetvrestart.go:95-118 | from every reachable state steps lead to a round that takes what is pending |
| `Restarts.Requests.Add` | cmd/manager/livetvrestart.go:71-84 | the later request of a key wins, the others stay |
| `Restarts.Requests.Take` | cmd/manager/livetvrestart.go:86-92 | hands over all that is pending and leaves none |
| `Markers.IsSame` | pkg/plexseed/seeder.go:306-324 | true exactly when there are as many rows as desired markers and each desired one is matched by a row of ours |
| `Markers.SameMeansPermutationExactly` | pkg/plexseed/seeder.go:306-324 | of any desired list: `same` means a permutation for every set of rows if and only if no two desired are alike |
| `Markers.MarkerRows` | pkg/plexseed/rows.go:338-372 | nothing when nothing was answered; else the segments of each kind in order of start, numbered |
| `Markers.OfTextIs` | pkg/plexseed/rows.go:344-365 | intros and recaps become intro markers, credits and previews credits, as often as they are there |
| `Markers.InTimeIsStable` | pkg/plexseed/rows.go:344-347 | segments that start together stay in the order they were given |
| `Markers.SameIsExactlyPermutation` | pkg/plexseed/seeder.go:306-324 | of the rows MarkerRows makes, `same` holds if and only if the existing rows are ours and a permutation of them |
| `Markers.KindReached` | pkg/plexseed/seeder.go:242-303 | of the rows MarkerRows makes, one run leaves exactly the desired markers of a kind, each once, all ours if and only if they were there or every source is recognised; of a kind with none, Plex's own |
| `Markers.KindTwice` | pkg/plexseed/seeder.go:242-343 | of any desired list: a second run has nothing to do if and only if none are desired, the first had nothing to write, or every span it wrote has a recognised source |
| `Markers.ReconcileMarkers` | pkg/plexseed/seeder.go:242-303 | every kind asked about is reached, every other untouched, and nothing is written or removed if and only if every kind is as asked |
| `Markers.SeedMarkersTwice` | pkg/plexseed/seeder.go:111-138 | of what was fetched, run twice: every kind is reached, and the second run writes and removes nothing if and only if, of every kind, none are desired, the rows were there, or every source is recognised |
| `Labels.ReconcileLabels` | pkg/plexseed/labels.go:34-91 | owner-set labels and ours still wanted stay as they are, unwanted ones of ours go, a wanted one nobody set is added, and a second run has nothing to do |
| `Sidecars.SyncSidecars` | pkg/plexseed/sidecars.go:82-149 | one run leaves exactly one row per wanted file, as wanted; a file keeps the stream id of its first row; a run with nothing to do writes nothing |
| `Sidecars.FirstOfUrl` | pkg/plexseed/sidecars.go:82-149 | of a file's rows the one kept is the one with the lowest id |
| `Sidecars.WantIs` | pkg/plexseed/sidecars.go:82-149 | of two sidecars with one url the later is wanted |
| `Sidecars.SyncedIsQuiet` | pkg/plexseed/sidecars.go:82-149 | what one run leaves gives the next nothing to do |

## Left out

- The projection's labels, streams, sidecars and directories inside Apply, and the title, year and other display columns: rows of their own with no part in the invariants.
- The item key digest and the bundle hash: an opaque field and a function parameter; nothing depends on their values.
- SQL text, `LIKE` matching and JSON: each query by its meaning, stamps as record fields; one sequence gives all ids.
- Concurrent transactions of the projection: each is one atomic step, as its database transaction makes it.
- Projectors.Projector.Sweep: the disk answers each path the same throughout one sweep; how the answers and their timeouts come about is not modelled.
- ItemChain.EnsureChainTwice: chains are those the resolver builds (a movie, or show, season and episode without editions); other shapes are never made.
- Lease.MutualExclusion: one shared clock, and one call at a time per pod, as the elector's loop makes them; clocks that drift apart are not modelled. A pod counts as inside a window only from an acquire of its own on, as the manager's loop has it.
- Time-outs and cancelled contexts, apart from a call that stops anywhere (a lease call given up, a stalled sweep, a step of the guide protocol that fails).
- Guides.EveryGuideIsOneLoad: one guide and one manager; a stage is asked by the load that runs and a swap by one Plex has closed; an abandoned load writes no more once its load file is replaced or removed; the drop after a failed copy works (`Guides.ImportGuide` says what happens when it does not).
- Guides.ImportGuide: the clone of a schema and the copy of a file are single steps; which rows they hold is not modelled.
- Psql.ParsePSQL: ASCII scripts; the COPY recogniser is any predicate on statements, so its regular expression is not modelled.
- Scheduler.NothingIsLost: a refresh by id may also be given up after five failures, which the theorem states apart.
- SeedQueue.QueueStaysConsistent: nothing is claimed of a file forgotten while its apply is in flight.
- Timeline.Template: 64-bit overflow of times is not modelled.
- Activity.ReportMeans: 64-bit overflow of byte counts is not modelled.
- FilterGraph.Resolve: the regular expressions that cut a filter_complex into chains, and integer overflow of a stream index.
- SidecarRows, which builds the rows the sidecar reconciler is given, and the tag rows the taggings point to.
- Markers.MarkerRows: the 32-bit width of a marker's index is not modelled.
- Rounds of `runLiveTVRestarts` past their start: which pods are restarted, and how.
- Generated code, telemetry, configuration, HTTP clients, process supervision and sockets: no state machine of their own, or I/O.
- Path mapping, health checks, stale-grab timing, probe and codec tables: one branch each.
