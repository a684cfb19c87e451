# newfile, modelled in Dafny

newfile creates files with the mode, owner, size and content asked for. A file
appears finished or not at all, an existing file is replaced only with `-f`, and
a signal or a crash must not cost a file that a backup was to keep. This project
models how the program does that, and proves what it promises.

Four parts are modelled.

**The protocol** that builds, flushes, names and settles a batch of operands.
`World` is the state: names, inodes, open descriptors, what each directory has on
disk and which changes it has not flushed, the pending table of 65 slots, and the
signal mask. `Steps` gives the effect of every system call, `Kernel` lets each of
them fail for any reason and records every state the run goes through, each one
call away from the last, and the
modules from `Pending` to `Program` are the code of `pending.c`, `place.c`,
`backup.c`, `flush.c` and `batch.c`, call by call. A crash keeps, of each
directory's unflushed changes, any subset; a change whose source is missing does
nothing (`World.Replay`). The main theorem is `Program.BatchRun`: whatever calls
fail, every state of every run is safe (`Safety.Safe`): a signal, a crash, or a
crash in the middle of the signal handler takes away no name and no file that a
backup is to keep, and shows nothing unfinished. A run that returns true has left
nothing behind, has each replaced file under a backup's name, and has made every
operand durable whose name no later operand's backup takes. A run that returns false
had a call that failed, or an operand that was in the way from the start
(`Order.Hindered`); without `-f`, and where no call fails, it returns true exactly if
each path can name a file, is free and is given once. `Order` says which
names those are, from the command line and the names at the start; for simple
backups of distinct operands that is an if-and-only-if. `World.Harmless` says in
the same terms when backups keep every old file; `Limits` shows that nothing less
will do, by runs of the modelled program that lose a file. `Coherence` ties the crash model to the names
processes see, in every state of a run. `Race` puts arbitrary other processes
between the calls that make, name and remove files without `-f`, and says exactly
when a file of theirs loses its name.

**The flush pool** (`Pool`), a lock and two condition variables, as a state
machine over all interleavings with spurious wakeups, and the directory flush set
(`Flush`).

**The option parser** (`Options`, `OptParse`, `Parser`): the option string as it is
made from the list of options and read back, permuting the argument array in
place, then parsing call by call, against a parser that goes through the words
once.

**Content and backup numbers**: copying by `copy_file_range`, `sendfile` or
`pread`/`pwrite` with short transfers and refusals (`Files`, `Template`), and the
unbounded decimal backup numbers with their cache (`Digits`, `BackupCache`).

## Assumptions

- In the protocol, no other process changes the names the run works on, and
  looking at a name and removing it (`remove_ours`) is one step. `Race` drops both
  for runs without `-f`. A file is never taken for another because its inode number
  was used again.
- Memory can be allocated.
- A failure is a call that fails for a reason of its own (`Machine.faults`): not one
  that finds a name taken or missing, not a rename onto a directory, and not one the
  system does not have, after which the program goes another way. A hundred temporary
  names that are all taken are one failure.
- Different path strings name different directory entries, and no operand has the
  form of a temporary name, `.newfile.` and six letters or digits.
- Renaming and exchanging names is atomic; renaming one link of a file to another
  link of the same file does nothing (the DESCRIPTION of rename() in
  POSIX.1-2008). Writing a file and changing its owner clear its set-id bits.
- A directory can be flushed or not (`Config.flushes`), each for itself. What is
  said of crashes is said of names in directories that can, because a refusal
  counts as success (src/flush.c:253 and 313); that an old file keeps a name while
  there is no crash, and whatever a signal does, is said of all.
- What is said of the file an operand had before needs `World.Harmless`: the
  operands are distinct, none that had a file is the simple backup name of another
  that may have one when its turn comes, and, where both kinds of backup may be
  made, no simple backup name is a numbered one of another operand. For distinct
  operands and one kind of backup only the second part is left, none at all for
  numbered backups (`Limits.HarmlessIff`), and where it fails an old file can be
  lost: in every run that succeeds, if the backup comes first
  (`Program.EndLost`, `Limits.RunLosesOld`), and otherwise by a crash in every run
  that backs up over a name before its directory was flushed (`Limits.BackupTakes`,
  `Limits.BackupTakesUnflushed`).
- Which file a backup's name holds after a signal, and that a backup replaces no
  name but those of the start, needs `World.Separate`: besides, no operand at all is
  a name that the backup of another may get.
- What names show after a crash is said of runs in which no temporary name is made
  again while its directory still owes the disk a change of it, and of none that was
  an old file's before (`World.again`). `Limits.MadeAgainShows` is what happens
  otherwise.
- A copied template does not change while it is read, and bytes outside the extents
  that `SEEK_DATA` and `SEEK_HOLE` report read as NUL.

## Where the documentation says more than the code does

- doc/newfile.1:47-50 has an exit status of 0 mean that each file will survive a
  crash. With `-f` and simple backups of `a~` and then `a`, the old `a` takes the
  name of the finished `a~`, and the status is 0 (`Limits.RunTakesOperand`).
- doc/newfile.1:251 has no crash lose the old file. With simple backups of `a` and
  `a~`, which both exist, the old `a~` is lost without any crash and the exit status
  is 0 (`Limits.RunLosesOld`); given as `a~` and `a`, a crash can lose it
  (`Limits.BackupTakesUnflushed`). If both kinds of backup may be made, `f` and
  `f.~3` can share a backup name (`Limits.SharedBackupLoses`).
- README.md:7 has no existing path replaced without `-f`. After a failed fstat,
  create_excl removes whatever is at the path by then (`Race.FstatRaceLoses`).

## Model

| member | source | states |
|---|---|---|
| `Program.BatchRun` | src/batch.c:78-130 | In every state of every run all of `Safety.Safe` holds: a signal or a crash, or a signal and then a crash, is safe, nothing is clobbered, only finished files show, before and after a crash, and nothing is left behind that the system did not refuse to remove or whose own directory was not flushed; each state comes from the last by one call, and the names are what disk and unflushed changes together give. The run ends with every slot clear, the mask as it was and every descriptor closed. If it returns true, no temporary name remains, every replaced file has its backup, and each operand whose name no later one takes holds a finished file, flushed under that name, that any crash keeps; for simple backups of distinct operands all of them do if and only if `Order.Lasting`, and the file of an operand that is the backup name of an earlier one is gone. If it returns false, some call failed, or an operand was hindered from the start: its path names no file; without `-f` it was there or is given twice; with `-f` it is a directory, or no backup can be made because it is no regular file or a directory has the name of the backup. It never returns true for an operand of the first three kinds, so without `-f` and without failures the answer is an if-and-only-if |
| `Program.OneBatch` | src/batch.c:93-121 | One batch keeps earlier operands durable and later ones untouched; its verdict is that of its reports and of the flushes; a report of failure comes from a call that failed or an operand that was hindered, and a directory counts as failed only for a call that did |
| `Program.InitialPoint` | src/batch.c:78-92 | The state a run starts from satisfies every invariant |
| `Program.InitialTied` | src/batch.c:78-92 | It starts with all names on disk |
| `Program.InitialKinds` | src/batch.c:78-92 | And with what each name is on record |
| `Program.Report` | src/batch.c:570-587 | True exactly when no operand failed or left a name behind |
| `Program.FlushAll` | src/batch.c:113-113 | After the flush each queued directory is on disk or under suspicion |
| `Program.SettleAll` | src/batch.c:112-114 | Settling, flushing and dropping the spares make nothing fail unless a call fails, and nothing that failed succeed |
| `Program.DescriptorBound` | src/batch.c:176-189 | With a limit of at least 18, open operand files and directories leave the reserve of 16 but for the one descriptor of a probe or placeholder; the batch fits the arrays |
| `Program.EndDurable` | src/batch.c:78-130 | If all went well, each operand whose name no later operand takes survives every crash, finished and flushed |
| `Program.EndLost` | src/backup.c:493-533 | For simple backups of distinct operands, an operand that is the backup name of a later one with a file does not; and the old file of one that is the backup name of an earlier one with a file has no name left, if it had but that one |
| `Program.EndBackedUp` | src/batch.c:514-567 | If all went well and operands do no harm to each other, the file each operand had is on disk under a name its backup may have, or that of the backup of an operand which was such a backup |
| `Order.LastingIff` | src/backup.c:493-533 | For distinct operands, every finished file keeps its name exactly unless one is the simple backup name of a later one that has a file by then |
| `Order.LastingUnless` | src/backup.c:388-429 | Without simple backups, and for operands that are apart, every finished file keeps its name |
| `Order.HinderedUnforced` | src/batch.c:214-261 | Without `-f` an operand is hindered exactly if its path is empty or ends in a slash, or it was there or is given before |
| `Batch.BuildUnhindered` | src/batch.c:214-261 | Where no operand is hindered, the path to build next can name a file and without `-f` is free |
| `NameBatch.NameUnhindered` | src/batch.c:438-567 | And nothing but a failing call keeps the operand whose turn has come from its name |
| `Batch.NotClaimed` | src/batch.c:214-261 | Without `-f`, an operand that has no name when its turn comes was not there and is not given before |
| `Kernel.MoveKinds` | src/place.c:288-302 | A rename leaves directories the names they had, and gives no new name to what is no regular file |
| `NameBatch.FateNext` | src/batch.c:438-488 | After each operand's turn it is known which operands have a name, that the names of later ones, and those a backup took, are of old files, and which old files have lost their last name |
| `NameBatch.DoomNext` | src/backup.c:493-533 | The turn of an operand takes the last name of a later one's old file if that name is its backup's, and leaves every other such file its one name |
| `NameBatch.KnownNext` | src/batch.c:438-488 | Whatever fails, only operands that had a file at first, were handled, or are a backup name of one that had a file have a name |
| `Stable.NamingOutside` | src/batch.c:438-488 | Naming an operand touches no earlier operand's name, unless it takes it |
| `Program.TraceSafe` | src/batch.c:78-130 | Every recorded state is safe |
| `Safety.HandlerRemoves` | src/pending.c:49-66 | The handler removes a name exactly if it still holds what some slot says |
| `Safety.SignalSafety` | src/pending.c:49-66 | After the handler each name is as it was, an operand that holds a finished file, one whose removal was refused, or a backup: where operands are apart, one that holds the old file of its operand, and either was there before or its operand holds the finished file; no temporary name is left but those refused |
| `Safety.ReplaySwap` | src/batch.c:132-158 | Of an unflushed exchange, any crash leaves the old inode at the operand or at the spare |
| `Safety.CrashSafety` | src/batch.c:514-567 | Where operands do no harm to each other, which is exact for distinct ones and one kind of backup, every inode a backup is to keep has a name after a crash that kept any subset of the changes, if its own directory can be flushed |
| `Safety.CrashShowing` | src/batch.c:534-566 | After such a crash every name of the start is there; one the run may not replace names what it named; and each name others use shows an old file, a finished and flushed one, or the empty file that holds it |
| `Safety.ReplayShows` | src/batch.c:534-566 | Replaying any subset of any part of a sound log gives a name only what it may show |
| `Safety.LiveSafety` | src/batch.c:514-567 | While there is no crash it has one in any directory, and keeps one however far the handler gets |
| `Safety.OwnRemoved` | src/pending.c:155-176 | What a slot names is a file this run made, or an old one; while signals are let through, that one is in the slot for backups and has another name |
| `Safety.SignalCrashSafety` | src/batch.c:534-549 | A crash during or after the handler loses no old file either |
| `Safety.PointSafe` | src/batch.c:78-130 | The invariants of a point give all of the above, that temporary names show mode 0600 until content and owner are final, that what is left behind was refused or is the spare of an operand whose own directory failed to flush, could not be examined beside a failure, or was flushed when more had failed than the record holds, and that a backup replaces only names that were there at the start |
| `Coherence.NothingLost` | src/flush.c:298-357 | A crash that keeps every change leaves the names processes see |
| `Coherence.LoggedCoherent` | src/flush.c:298-357 | Every change of names goes to the log of its directory as it was made |
| `Coherence.MoveTied` | src/fastio.c:212-219 | So it is for a rename, which may do nothing |
| `Coherence.SwapTied` | src/fastio.c:222-229 | And for an exchange |
| `Coherence.FsyncDirCoherent` | src/flush.c:298-357 | Flushing one directory says nothing of another |
| `Limits.UnflushedLoses` | src/flush.c:247-265 | Of the changes a replacement makes, if none is flushed, some crash leaves the old file without a name, for any operand, spare and backup. The effects of the calls are composed; it is not a run of `Program` |
| `Limits.HarmlessIff` | src/backup.c:388-533 | For distinct operands and backups of one kind, numbered ones never harm, and simple ones do just when one takes the name of an operand that had a file |
| `Limits.UnflushedTaken` | src/backup.c:493-533 | Whatever happened before: when a backup replaces a name that is, on disk, the one name of another file, some crash leaves that file without a name |
| `Limits.BackupTakes` | src/backup.c:493-533 | So every run that makes a simple backup there comes through a state from which a crash loses that file |
| `Limits.BackupTakesUnflushed` | src/backup.c:493-533 | Operands `a~` and `a`, both with files: after the exchange of `a~`, the backup of `a` lets a crash lose the old `a~` |
| `Limits.MadeAgainShows` | src/place.c:103-144 | If a temporary name is made again before anything was flushed, some crash shows the file that was given up under the operand's name |
| `Limits.DuplicateLoses` | src/backup.c:493-533 | An operand given twice loses its first file with simple backups (effects of the calls, composed) |
| `Limits.SharedBackupLoses` | src/backup.c:465-533 | Operands `f` and `f.~n` with one backup name lose the file of the first (effects of the calls, composed) |
| `Limits.BackupIsOperandLoses` | src/backup.c:493-533 | Operands `a` and `a~`, both with files: backing up the first takes the last name of the file that the second has (effects of the calls, composed) |
| `Limits.RunLosesOld` | src/batch.c:78-130 | A run over them that returns true has lost the old file of `a~`; one that returns false had a call that failed, or an operand that was hindered |
| `Limits.OneKindShares` | src/backup.c:388-429 | With backups of one kind only, `f` and `f.~n` are no trouble |
| `Backup.SeparateHarmless` | src/backup.c:388-429 | Operands that are apart do no harm to each other |
| `Limits.BackupTakesOperand` | src/backup.c:493-533 | Operands `a~` and `a`, where `a` has a file: the first does not last |
| `Limits.RunTakesOperand` | src/batch.c:78-130 | A run over them that returns true has `a`, and has lost the finished `a~`; one that returns false had a call that failed, or an operand that was hindered |
| `Race.NeverClobbers` | src/place.c:63-320 | However other processes come between the calls that create, link, rename and remove, no step of a run without `-f` takes a name from a file that is not its own, as long as none of them puts its file under a name the run goes by: a temporary one, or another between two calls |
| `Race.ClobbersIffExposed` | src/place.c:63-285 | And exactly then: from any state, what the run does by itself may clobber if and only if another's file has such a name |
| `Race.GivenOnlyIfFree` | src/place.c:226-285 | A name that is given was free or held a file of this run, and is given to one |
| `Race.LookSpares` | src/pending.c:35-47 | What another process put there before lstat looks is not removed |
| `Race.FstatRaceLoses` | src/place.c:63-77 | The plain way: a file put at the path between the open and a failing fstat is removed |
| `Race.HolderRaceLoses` | src/place.c:257-285 | If another process replaces the empty file, its file is lost |
| `Race.LookRaceLoses` | src/pending.c:35-47 | So is one put there between lstat and unlink |
| `Kernel.Machine.Release` | src/pending.c:126-133 | Signals are only let through where every name is accounted for, no slot guards an old file, and none names a spare |
| `Kernel.Machine.Arm` | src/pending.c:135-140 | A slot is armed only while clear and with signals blocked |
| `Kernel.OnlyFsyncAnchors` | src/batch.c:380-395 | In a run, a file counts as flushed under a name only by an fsync of that file while it has the name |
| `Kernel.OnlyFsyncSyncs` | src/batch.c:380-395 | And as flushed at all only by an fsync of it, until it is written to again |
| `Pending.RemoveOurs` | src/pending.c:35-47 | Removes a name only while it holds that inode; says which of the three outcomes it was |
| `Pending.PendingRemove` | src/pending.c:155-176 | The slot is clear, and its name gone or reported; everything else is as it was; it stays only if a call failed |
| `Pending.RemovedFrame` | src/pending.c:155-176 | Removing what a slot names concerns only that operand |
| `Place.CreateExcl` | src/place.c:63-77 | A new file under a free name, or no trace of one, and without one either the name is there or a call failed |
| `Place.TempTry` | src/place.c:124-135 | One attempt: the name is armed before a signal can come |
| `Place.TempMake` | src/place.c:103-144 | A fresh temporary name beside the target, armed, or nothing; nothing only if a call failed or a hundred names were taken |
| `Place.MakeName` | src/place.c:146-161 | The three ways a temporary name is made |
| `Place.PlaceCreate` | src/place.c:164-183 | The operand's own name, armed as it is made, or nothing if the name is there or a call failed |
| `Commit.PlaceCommit` | src/place.c:226-254 | The finished file has the operand's name, without replacing anything, or nothing changed, which is so only if the name was there or a call failed |
| `Commit.PlaceOver` | src/place.c:257-285 | The same over an empty file, with signals blocked throughout |
| `Commit.RenamedPublished` | src/place.c:233-237 | Renaming a hidden finished file publishes it and touches no other operand |
| `Commit.LinkedPublished` | src/batch.c:464-469 | So does linking one that has no name |
| `Replace.PlaceRename` | src/place.c:288-302 | The operand is replaced and both slots are clear, or nothing changed and the operand is a directory or a call failed |
| `Replace.PlaceExchange` | src/place.c:305-320 | The old file takes the temporary name, which the slot then guards |
| `Replace.ExchangedPoint` | src/place.c:305-320 | Every state on the way is safe from crashes, also where what is replaced is itself a backup |
| `Steps.SwapCrash` | src/batch.c:534-549 | An exchange keeps every old file that was safe under the operand's name safe under one of the two, those of earlier operands included |
| `Steps.RebasePoint` | src/batch.c:549-566 | Once the backup is on disk, all that was safe under the operand's name is safe under the backup's |
| `Build.ProbeMode` | src/place.c:326-375 | The mode the directory grants, found once; the probe is gone or reported; it is an error, or reported, only if a call failed |
| `Build.OpFail` | src/batch.c:192-212 | The file is closed and its name removed, unless the name is an old file's spare |
| `Build.OpenBuilt` | src/batch.c:267-311 | An empty private file without a name or under an armed temporary one, with the mode that will be granted |
| `Build.FillOne` | src/batch.c:363-377 | However many writes it takes, the content ends as the copying code makes it, which is as asked; not so only if a call failed |
| `Build.FinishBuilt` | src/batch.c:313-360 | Content, owner and mode are final, in an order in which nothing unfinished shows; given up only if a call failed |
| `Spec.FilledIff` | src/batch.c:363-377 | With a size given, the content asked for has that many bytes, each the template's, or NUL past its end or without one; with no size it is the template, or nothing |
| `World.DoneIff` | src/batch.c:313-360 | A finished file is a regular one with that content, with each id that -o gives and the process's own for each it does not, and with the mode asked for, or the bits the directory grants and the special bits asked for |
| `Spec.PrivateIff` | src/batch.c:267-305 | What is called private lets no process of another user read, write or run it, whatever its groups |
| `Build.BuildOne` | src/batch.c:214-261 | The operand is built as its way says, or given up with nothing held: only if its path names no file, or it is there and there is no `-f`, or a call failed; and always for a path that names no file |
| `Backup.BackupLink` | src/backup.c:448-462 | A second name, armed as it is made |
| `Backup.BackupNumbered` | src/backup.c:465-487 | The first free number from the given one up; the search ends in any finite directory; none only if a call failed |
| `Backup.TakenShrinks` | src/backup.c:465-487 | Each number tried leaves fewer taken ones ahead |
| `Backup.BackupSimple` | src/backup.c:493-533 | The old file has the name `p~` as well, even over an older backup, and the temporary name is gone or reported; not so only if a call failed or a directory has that name |
| `Backup.BackupAgain` | src/backup.c:513-533 | Over an older backup: the run comes through the state in which a second link took its name, with nothing flushed in between |
| `Backup.BackupMake` | src/backup.c:539-574 | A backup of the kind asked for, none needed, or a refusal that leaves nothing: only if a call failed, the operand is no regular file, or a directory has the name of a simple backup |
| `Flush.FlushDir` | src/flush.c:247-265 | On success the directory is on disk, if it can be flushed at all; success exactly if no call failed |
| `Flush.FlushSet.Add` | src/flush.c:272-296 | The directory is queued; whatever an early run took out is on disk or on record |
| `Flush.FlushSet.Run` | src/flush.c:298-357 | Every queued directory is on disk, or its failure is on record under its name or identity; at most one failure is counted for each call that failed |
| `Flush.FlushSet.OpenAll` | src/flush.c:309-341 | Each directory is opened once by identity, and each queued one is covered |
| `Flush.FlushSet.DirFailed` | src/flush.c:359-381 | The failure is recorded, or the record is marked as incomplete; nothing recorded is lost |
| `Flush.FlushSet.Failed` | src/flush.c:384-414 | True whenever a recorded failure concerns the directory, and exactly when one may; and if so the directory did fail, or stat of it did beside another failure, or more failed than the record holds |
| `Naming.NameFile` | src/batch.c:438-488 | The operand is named for good, or given up with nothing held; signals stay blocked once an old file has only a spare name. It is given up only if a call failed or there is a file in the way: without `-f` any, with it a directory or one that cannot be backed up; and without `-f` never named over a file |
| `Naming.ReplaceOne` | src/batch.c:514-567 | Backup and exchange, or backup, flush and rename, or nothing, and nothing only for a call that failed, a directory, or a file that cannot be backed up |
| `Naming.LinkFlushRename` | src/batch.c:549-566 | Where names cannot be exchanged the backup is on disk before the operand is replaced |
| `Backup.BackupsDiffer` | src/backup.c:431-445 | Operands that do not interfere have no backup name in common |
| `NameBatch.NameAll` | src/batch.c:107-110 | Every operand is named or given up, and the directories of the named ones are queued, flushed or on record; given up only as `Naming.NameFile` says |
| `Batch.BuildAll` | src/batch.c:100-103 | Every operand of the batch is built or given up; at most as many files are open as operands; given up only as `Build.BuildOne` says |
| `Batch.BatchStep` | src/batch.c:78-130 | Handling one operand leaves every other where it stands |
| `Sync.SyncFiles` | src/batch.c:380-395 | Every open file was flushed under the names it has, or is among the bad ones; these are as many as calls failed |
| `Sync.FlushOps` | src/batch.c:380-408 | Operands whose flush failed are given up, all others are flushed |
| `Sync.CloseOp` | src/batch.c:411-423 | The descriptor is gone; a failed close gives the operand up, and only a failed call does |
| `Sync.FlushBatch` | src/batch.c:425-436 | All are flushed, and those that have their name are closed |
| `Sync.Settle` | src/batch.c:490-511 | All are flushed again, closed, and rid of a second temporary name; given up only if a call failed |
| `Spares.DropSpares` | src/batch.c:132-158 | A spare is removed only where its directory was flushed, kept and reported otherwise; then the mask is restored; reported only if a call failed |
| `Spares.SpareUnprotected` | src/batch.c:132-158 | Once the backup is on disk, nothing depends on the spare |
| `Phases.HoldsStable` | src/batch.c:31-75 | The state of an operand in any phase survives what is done for another |
| `Pool.StepKeeps` | src/flush.c:101-169 | Every step of every thread keeps the pool's invariant |
| `Pool.TakenOnce` | src/flush.c:132-152 | done plus in flight is next, at most n; each index is held by the one worker that took it, and flushed once |
| `Pool.ReturnsAll` | src/flush.c:101-129 | flush_threaded returns only when one fsync was done of each descriptor and its result is stored at that descriptor's index |
| `Pool.FlushInOrder` | src/flush.c:211-225 | The loop without threads does the same |
| `Pool.ArraysAlive` | src/flush.c:132-152 | A worker touches the caller's arrays only while the call is active, and within bounds |
| `Pool.NeverStuck` | src/flush.c:101-169 | While a job or a stop is under way some step other than a spurious wakeup is possible |
| `Pool.InnerRank` | src/flush.c:101-169 | Every such step lowers the work that is left |
| `Pool.RunBound` | src/flush.c:101-169 | A call is over after a number of steps bounded by its rank and the spurious wakeups |
| `Pool.JobBound` | src/flush.c:101-129 | The rank at the start of a job of n descriptors and W threads is at most 3n + 3W + 2 |
| `Pool.WorkersFit` | src/flush.c:172-206 | The threads never outnumber the array of 64 |
| `Options.BuildTables` | src/options.c:179-203 | The option string has each letter with no, one or two colons, and the table of long options each name with its arity, both in the order of the list |
| `Options.ShortIff` | src/optparse.c:171-173 | Of that string the parser reads the arity of the first option with the letter, and of any other character nothing |
| `Options.ShortDistinct` | src/optparse.c:252-287 | So, where letters differ, of every letter its own arity |
| `Options.LongIff` | src/optparse.c:188-199 | And of that table the arity of the first option with the name, or none |
| `Options.ProgramLetters` | src/options.c:36-66 | Of the program's own letters, m, o and s take an argument and p, f, b, A and v take none; there are no others |
| `OptParse.WordKinds` | src/optparse.c:62-72 | An operand is a word that does not begin with a dash, or is one; a long option is two dashes and a name |
| `OptParse.Reverse` | src/optparse.c:121-133 | The block is reversed, in place |
| `OptParse.Rotate` | src/optparse.c:114-119 | Two adjacent blocks are exchanged, in place |
| `OptParse.ThreeReversals` | src/optparse.c:114-119 | Three reversals are that exchange |
| `OptParse.Permute` | src/optparse.c:79-111 | Options with their arguments, `--`, operands |
| `OptParse.SameWords` | src/optparse.c:79-111 | The same words, as a multiset |
| `OptParse.PartsInOrder` | src/optparse.c:79-111 | Options and operands each keep their order |
| `OptParse.LongTakesArg` | src/optparse.c:135-153 | Whether a long option takes the next word |
| `OptParse.ClusterTakesArg` | src/optparse.c:155-176 | Whether a cluster takes the next word, by the arity `Options.ShortIff` says of each letter |
| `Parser.Parser.Parse` | src/optparse.c:33-77 | One call permutes once, and then reads one option |
| `Parser.Parser.Cluster` | src/optparse.c:245-290 | The next option of a cluster |
| `Parser.Parser.LongWord` | src/optparse.c:178-243 | A long option |
| `Parser.ParseAll` | src/spec.c:45-61 | The calls up to the end or the first error |
| `Parser.WordAgrees` | src/optparse.c:135-290 | Both phases agree on how many words an option without error is |
| `Parser.Refines` | src/optparse.c:33-290 | Both parsers give the same options, arguments, error and operands, and stop at the first operand, if and only if not the last word lacks its argument after an operand was set aside |
| `Parser.RefinesOnWords` | src/optparse.c:33-290 | Told from the words: they differ only if the last word is an option that takes an argument and is none, no `--` is before it and an operand is; and always then, if the options can be read |
| `Parser.LastTakesMeans` | src/optparse.c:79-176 | What that says of the last word |
| `Parser.OperandTaken` | src/optparse.c:101-109 | `file -m` takes the operand for the mode |
| `Files.WrittenAt` | src/io.c:45-64 | What a write at an offset changes |
| `Template.IoWrite` | src/io.c:23-42 | All of the buffer, however short the writes |
| `Template.IoPwrite` | src/io.c:45-64 | The same at an offset |
| `Template.IoFill` | src/io.c:93-136 | The file is longer by NUL bytes, by allocating or by writing |
| `Template.FastCopy` | src/fastio.c:87-112 | What was copied is the source from its offset on, and 0 means all of it |
| `Template.FastSendfile` | src/fastio.c:126-155 | The same by way of the file's own offset |
| `Template.CopySlow` | src/template.c:141-181 | The same by reading and writing; 1 means that the source has no more |
| `Template.HoleNextData` | src/holes.c:40-72 | The next extent that is reported, which may lie past the claimed size |
| `Template.CopyExtents` | src/template.c:92-138 | On success the target cannot be told from the source below the claimed size, and its length is exactly what the extents make it |
| `Template.AllZeroMeans` | src/template.c:183-186 | Comparing a buffer with itself one byte on means that all of it is NUL |
| `Template.CopyZeros` | src/template.c:200-253 | Leaving out blocks of NUL bytes does not show |
| `Template.CopyStream` | src/template.c:58-89 | All the source has left |
| `Template.ChooseKind` | src/template.c:357-380 | Blocks of NUL are looked for exactly where few blocks are used and seeking is not supported; a stream is what is neither a file from its start nor spooled; all else is copied by extents |
| `Template.TmplApply` | src/template.c:397-407 | The template's content, by the way chosen, whatever size it claims; if not, a call failed |
| `Template.WholeIff` | src/template.c:92-138 | A copy by extents has the length of what the source has below its claimed size exactly if, for a source that ends early, its last byte is data and data is reported past it, and otherwise the byte before that size is data or no data is past it |
| `Template.CopiedAsked` | src/template.c:397-407 | Every copy becomes what was asked once it is resized, and is that at once exactly unless it was made by extents that do not reach it |
| `Template.EarlyEndLoses` | src/template.c:129-137 | Three bytes of a source that claims eight, the last two in a hole: one is copied |
| `Template.EarlyEndGains` | src/template.c:134-136 | One byte of a source that claims four, with no data after it: four are made |
| `Template.GrownLoses` | src/template.c:129-137 | A source that has grown past a hole at its old end: the hole is not copied |
| `Template.ApplySize` | src/batch.c:590-609 | Truncated or padded with NUL bytes, whichever call does it |
| `Template.FillFile` | src/batch.c:363-377 | The content is what was asked, for every kind of template, source, claimed size and block size, if and only if it is not the one case: copied by extents that do not reach the source's end, and no size given |
| `Template.MakeContent` | src/batch.c:363-377 | So it is for whatever source gives the template of a run; not made only if a call on one of the files failed |
| `Digits.Increment` | src/backup.c:79-103 | The canonical numeral of the next number, at any length |
| `Digits.CompareIsNumeric` | src/backup.c:65-76 | The sign of the comparison of the numbers |
| `Digits.Split` | src/backup.c:112-135 | Succeeds exactly on `base.~n~` with a base and a canonical n, and recovers both |
| `Digits.ValueInjective` | src/backup.c:65-76 | A number has one canonical numeral |
| `Digits.NumberedInjective` | src/backup.c:431-445 | A numbered backup name has one base and one number |
| `BackupCache.KeepHighest` | src/backup.c:201-223 | Of sorted entries, in place, one for each base with its highest number |
| `BackupCache.ListDir` | src/backup.c:138-198 | The best of what the directory lists |
| `BackupCache.FindBase` | src/backup.c:308-320 | Finds the base if it is there |
| `BackupCache.NoteIn` | src/backup.c:322-368 | The entries stay sorted and hold the highest number, the new one included |
| `BackupCache.BestIsMaximum` | src/backup.c:201-223 | An entry has the maximum of the numbers seen |
| `BackupCache.Cache.Get` | src/backup.c:226-262 | A directory is known once it was looked up and could be listed, and listed once; within a batch nothing is evicted |
| `BackupCache.Cache.Note` | src/backup.c:322-368 | The number counts from then on |
| `BackupCache.Cache.NextNumber` | src/backup.c:388-429 | One more than every number listed or noted. A simple name exactly where control is simple, or existing and no number is listed or noted, or where the directory may not be listed and the first number is not there; a refusal exactly where a listing was needed and failed; and a directory that was listed is known from then on |
| `BackupCache.NeverEvicts` | src/backup.c:245-247 | The directories of a batch of operands fit the cache |
| `Parents.Tree.MakeParents` | src/paths.c:58-106 | Every directory above the path exists, unless one could be neither made nor found; the parent of each that was made is queued or was flushed since |
| `Parents.Tree.MakeAll` | src/paths.c:58-106 | True exactly if every directory could be made or found and every flush worked; then every directory above every operand is there, and those that were made last, the directory that names each having been flushed since |
| `Names.DirThenBase` | src/paths.c:21-55 | From any working directory, the directory of a path and then its last name lead where the path does, in any tree of directories, links included: for a path with no slash, one directly under the root, and one that ends in a slash |
| `Names.SameDir` | src/paths.c:21-55 | A name made in the directory part of a path is in the directory of that path |
| `Names.TempNameFacts` | src/place.c:103-121 | A temporary name is one, and beside its target |
| `Names.BackupFacts` | src/backup.c:431-445 | A backup name is beside its file, is no temporary name, and differs from the file |

## Left out

- Program.BatchRun: with backups of either kind, or an operand given twice, it is only said which operands are durable for certain; for simple backups of distinct operands it is an if-and-only-if.
- Program.BatchRun: with `-f` an operand of which no backup can be made may be given its file all the same, because an earlier backup replaced the special file it was, or because a numbered backup is made; for these the answer is only bounded from one side.
- Safety.CrashSafety: where both kinds of backup may be made, the condition is sufficient; whether a backup is then numbered depends on what the directory listed. That a file is lost where the condition fails is said of runs that succeed, and of states that runs come through; a run may also fail before it comes to that.
- Safety.SignalSafety: where operands are not apart, of a backup's name it is only said that the backup replaced a file or that its operand was given one.
- Safety.CrashShowing: a crash in the middle of place_over may leave the empty file under the operand's name, as the program's notes say.
- Safety.CrashShowing: which old file a name shows is not said; after a backup it may be another operand's.
- Build.BuildOne: making parent directories is, where -p is given, one outcome that may fail; `Parents.Tree` models it with its own queue, and mkdir is no step of `World`.
- Build.FillOne: a template that `Template.Misjudged` excludes is not one the run asks for.
- Sync.SyncFiles: the files are flushed one after the other; `Pool.ReturnsAll` is what lets the pool stand for that loop.
- Backup.BackupMake: which number comes first, and whether numbered backups exist, is arbitrary, so what is proved holds for what the cache answers too; `BackupCache.Cache.NextNumber` says what that is.
- Place.TempMake: the random letters of a temporary name are an arbitrary choice that may collide.
- Pending.RemoveOurs: looking at a name and removing it is one step; `Race` has two.
- Race.NeverClobbers: runs with `-f`, which take names from files by intent.
- Parser.Parser.LongWord: a long option with a flag is an option like any other; the table of this program has none.
- The operands of a batch are a sequence of values that is reassigned; that a path armed in a slot is memory not yet freed is not modelled.
- Memory allocation that fails, errno, and the wording of messages.
- Process setup, messages, the usage text and the parsing of modes, sizes and owners (src/main.c, src/error.c, src/options.c but for its tables, src/parse.c, src/spec.c): easy members only.
- Spooling a template, splice, memfd, buffer alignment and early writeback: a spooled template is a source with the same bytes.
- Special files and directories as operands, but for being refused by backup and rename.
- The memory model of threads: a stretch of code with the lock held is one step.
