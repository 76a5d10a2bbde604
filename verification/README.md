# The git CSI driver's protocols, modelled and proved

The driver mounts git repositories in pods. This project models, in Dafny, the
parts of it that are state machines, and proves what they promise.

**Write-back** (`Git.dfy`, `Checkout.dfy`, `Protocol.dfy`, `Marks.dfy`,
`StaleMark.dfy`, `LostEdits.dfy`, `Repositories.dfy`, `WriteBack.dfy`,
`StageTime.dfy`). A writeable volume's tree is committed, pushed, rebased, moved to
a side branch, healed and at last swept, while people and other volumes move the
same refs. `Git` is the slice of git all of it stands on: commits as values with
the files they track, ancestry, the edits a commit carries, and what a rebase
leaves. `Checkout` is what git's own writes to the files do to an edit no commit
carries. `Protocol` states each git operation of a driver as a step over the
remote and one tree, states what everyone else may do between two steps, and
proves what every run keeps; a second half interleaves any number of volumes with
people and shows that each volume's view is such a run. `Marks` and `StaleMark`
say exactly when the pushed mark, which the sweep trusts, can name work the remote
never took, and `LostEdits` gives one ordinary state for each way an uncommitted
edit is lost. The classes in `Repositories`, `WriteBack` and `StageTime` follow the
code method by method. Each method yields to the rest of the world between its git
operations and records its own history, and every contract proves that history to
be a run, so the theorems about runs are theorems about the methods.

**Pull on demand** (`Backoff.dfy`, `FetchLoop.dfy`, `Rendezvous.dfy`). One
fetch loop per repository serves demands through one-slot channels, timers, a
backoff and a gate. `Loop` runs the loop's goroutine against any number of
steps of every other goroutine and proves that no wakeup is lost, no demand is
missed and the gate holds. `Rendezvous` takes the read of a demand and the
stage of its volume apart and shows that one of them sees the other.

**Placement, text and matching** (`Placement.dfy`, `Metadata.dfy`,
`Match.dfy`, `Text.dfy`). The recursive replacement of a tree pods already read, with every
state a reader can see on the way; the printed and parsed metadata record; and
the key that makes every form of a repository's URL one.

**The watch and the node** (`Watch.dfy`, `Arming.dfy`, `Bookkeeping.dfy`). The quiesce
timer against writes and classes, the slot between the claim's watch and the
reads that arm a volume, and the maps that stage, publish, unpublish, unstage
and restart have to keep in step with each other, the disk and the kernel.

Git, ssh, the filesystem and the kernel are contracts with an unforced failure:
a push is taken only as a fast-forward and may be declined all the same, a
rebase fails or lands above upstream with both sides' edits, a read-tree refuses
to write over an uncommitted edit unless an ignore list names its untracked file or
it is a deletion, as git does since 2.34, and any query may fail. An arbitrary choice
(`:= *`) stands for each outcome, and for the order in which goroutines run.
Ghost counters record what failed and who refused, so a contract that allows a
failure says so only where one was counted, and says what happens when none was.

## Where the code and its comments differ

The model follows the code. Each of these is a lemma or a clause of a contract.

- `stage.go:172-178`: a stage that reads no mark marks HEAD, because it takes the
  tree for one of a driver that never committed. A rev-parse that fails reads the
  same (`worktree.go:213-221`), and so does a tree whose first mark was never
  written, in which the driver commits all the same. Then no push sends what the
  tree holds and the sweep removes it (`Marks.UnpushedWorkIsSwept`). Over every
  run the mark is worth what the sweep takes it for if and only if each such
  stage stood on a HEAD the remote had taken (`Marks.MarksSettleExactly`), which
  a stage could ask before it marks (`Marks.MarkingHeadIsSafeExactly`).
- `push.go:151-181`: a heal before a push can move HEAD and then fail to clear
  the diverged key, which always happens when the key was never written. The push
  goes on with the HEAD it read before, and the mark can end on a commit the
  remote never held. A push does that to no volume but one that is diverged and
  whose HEAD has commits since the mark that the remote never held
  (`WriteBack.Volume.PushNow`), and to every such volume in some run when the
  remote held what its mark names (`StaleMark.WaitingWorkCanBeMarked`). Otherwise
  only one who had that commit from the node could merge it. Every edit of the
  commit the mark ends on was held, and the sweep stays safe, because HEAD has left
  the mark for good (`Marks.SweepTakesOnlyHeld`).
- `diverged.go:158-166`: a side branch that outlived an earlier tree of the
  same volume can be deleted with work only it holds. It cannot if and only if
  the new tree covered the branch when it was made
  (`Protocol.FreshTreeDeletesSafely`).
- `reconcile.go:12-15` and `28-33`: a tree with uncommitted writes is rewritten when
  status names none of them, and it names no untracked file that an ignore list
  names. A fast-forward then writes over such a file, and so does the read-tree of
  a rebase (`StageTime.ReconcileKept`, `LostEdits.IgnoredFileGoes`). An edit
  outlives the fast-forward if and only if neither tree holds its path and
  upstream's holds no path that clashes with it.
- `worktree.go:181-186`: a read-tree does not refuse every path the pod wrote. It
  writes over an untracked file that an ignore list names, and it writes a file the
  pod deleted again (`Repositories.WorkTree.Take`, `LostEdits.DeletionGoes`). An
  edit outlives it if and only if the two trees agree on its path and the new one
  changes no path that clashes with it (`Repositories.WorkTree.Take`). A push takes
  the tree more than once, and what the first brings can be an ignore list that
  gives the second a file status had named (`LostEdits.NamedFileGoesLater`). What a
  push never loses is an edit of a tracked file that is there, unless the pod itself
  took it back or deleted the file (`Protocol.PresentOutlives`,
  `WriteBack.Volume.PushNow`).
- `diverged.go:108-111`: a heal at stage resets before anything asks about
  uncommitted edits. One of them outlives the heal if and only if neither HEAD's
  tree nor upstream's holds its path and upstream's holds no path that clashes with
  it, as `data` does with `data/y` (`StageTime.HealOrHold`, `StageTime.Reconcile`,
  `LostEdits.LateEditGoes`, `LostEdits.ClashingFileGoes`). `reconcile.go:34` takes
  a status that failed for a clean tree.
- `sweep.go:130`: a key that cannot be read counts as no key, so a diverged tree
  can be swept. It costs nothing unless the mark does (`StageTime.Sweep`).
- `worktree.go:69-74`: create does not write HEAD last. `git init` writes it
  first, so a creation that fails after it leaves a tree that counts as made and
  that no later stage makes or reads (`Repositories.WorkTree.Create`,
  `StageTime.StageTree`).
- `records.go:174-241`: a restart never reads the diverged key
  (`StageTime.Restart`), against `diverged.go:15-17`.
- `worktree.go:193-199`: an update-ref that fails comes after the files have
  moved (`Repositories.WorkTree.Take`).
- `follow.go:280-294`: the least wait holds if and only if demandMin is at most
  five minutes (`Backoff.WaitKeepsFloor`).
- `match.go:170-198`: an scp-like URL with two slashes or more after its colon
  is read as a scheme, and its key is another repository's
  (`Match.AllFormsAgree`).
- `metadata.go:117-173`: a file whose path ends in a slash, or any path that
  is not local or not on one line, does not come back (`Metadata.RoundTrip`).
- `node.go:345-347`: an unpublish whose unmount fails has already dropped the
  volume, and a restart brings it back (`Bookkeeping.Node.Unpublish`,
  `Bookkeeping.Node.Restart`). An unpublish that names another target than the
  published one drops an inline or writeable volume while its mount stands.
- `records.go:82-104`: a record write that fails part way leaves a record no
  restart can read, and the call that wrote it reports success
  (`Bookkeeping.Node.Unpublish`).
- `records.go:122-166`: a record or a mount table that cannot be read makes a
  restart drop a volume whose mounts stand, or publish it with fewer targets
  (`Bookkeeping.Node.Restart`, `Bookkeeping.RestartExact`).
- `records.go:118-141`: a volume that is staged and published nowhere is not
  staged after a restart (`Bookkeeping.Node.Restart`).
- `store.go:240-252`: an entry whose Lstat fails is renamed over whatever stands
  there, and an empty directory a pod holds loses its identity
  (`Placement.ReadersSeeOldOrNew`).

## Model

| member | source | states |
|---|---|---|
| `Git.RangeExact` | push.go:22-33 | The commits a rebase replays, or the push counts, are exactly those HEAD reaches and the base does not. |
| `Git.RebaseKeepsBoth` | reconcile.go:128-141 | A rebase that lands stands on upstream and carries exactly what upstream and the old HEAD carried. |
| `Git.RebaseRange` | reconcile.go:77-94 | After a rebase, upstream..HEAD holds the replayed commits in their order and no other. |
| `Git.AncestorAntisymmetric` | reconcile.go:46-51 | Two commits that hold each other are one commit, so the ancestor rows of the table do not overlap but at equality. |
| `Git.ChainOnHead` | commit.go:149-153 | A commit keeps the tree's own commits one line that a rebase can replay, and adds its edits to what HEAD carried. |
| `Protocol.StepKeepsSound` | push.go:138-240 | Every git operation of a driver keeps: HEAD is one line above the ref, a committed edit is in the files, and the pushed mark names work the remote took unless a stage set it from a HEAD the remote had not taken. |
| `Protocol.ElsewhereKeepsSound` | worktree.go:158-199 | Whatever people, other volumes and the pod do between two operations keeps the same. |
| `Protocol.RunKeepsSound` | push.go:132-240 | Every state of every run of one volume, whatever others do, keeps the invariant. |
| `Protocol.CommittedWorkStays` | diverged.go:106-156 | Every change a tree's history ever carried stays in its history through commit, fast-forward, rebase, heal and divergence, until the sweep. |
| `Protocol.RefMovesForward` | push.go:51-62 | With any number of writers the followed ref only moves forward, and what a branch held once stays in the record of what the remote held. |
| `Protocol.SideStaysCovered` | diverged.go:158-166 | From the moment a tree carries all its side branch holds, it does for as long as it stands. |
| `Protocol.FreshTreeDeletesSafely` | diverged.go:158-166 | No later deletion of a side branch drops an edit HEAD lacks if and only if the tree covered that branch when the driver made it; otherwise a run of the code, refused on the ref and on the branch and then healed, deletes it. |
| `Protocol.ViewsAreRuns` | push.go:132-240 | In every interleaving of any number of volumes with people, from an empty store, each volume's view is a run of its own and sound throughout. |
| `Protocol.OthersStepIsElsewhere` | diverged.go:22-29 | What one volume's driver does is, for every other volume, something its own protocol already allows for. |
| `Protocol.ExecutionKeepsWork` | reconcile.go:63-115 | Over any interleaving of volumes and people the ref moves forward and no committed change leaves a tree that stands. |
| `Protocol.HistoryIsRun` | push.go:138-190 | The history each method keeps of its own git operations is a run, so what is proved of runs holds of the methods. |
| `Protocol.HistoryKeepsSound` | push.go:138-190 | Every history that begins sound stays sound. |
| `Protocol.HistoryKeeps` | push.go:138-190 | What the remote and a tree keep between two moments of one history. |
| `Protocol.OutlivesExactly` | worktree.go:181-199 | Over any stretch in which no pod wrote and the driver reset nothing and committed nothing, an uncommitted edit outlives it if and only if no read-tree in it wrote over its path or a path that clashes with it. |
| `Protocol.LostGaveWay` | worktree.go:183-186 | Whoever holds the tree, an edit that is gone after a stretch in which the driver reset nothing and committed nothing left it at one of its read-trees, as a file an ignore list named or a deletion, or at a step of the pod's. |
| `Protocol.StaysExactly` | worktree.go:183-186 | With or without a pod, an edit that did not come back is in the files after such a stretch if and only if it left at no read-tree as one that gives way and the pod did not take it back. |
| `Protocol.PresentOutlives` | worktree.go:183-186 | An edit of a tracked file that is there outlives every such stretch, or is committed in it, unless the pod took it back or deleted its file. |
| `Protocol.EditStaysUntilLost` | reconcile.go:28-33 | Over every run an edit that is gone left at a step that took it out of the files while no commit carried it: the pod took it back, a read-tree wrote over a path that yields, or a hard reset wrote the path. |
| `Marks.MarksSettleExactly` | stage.go:172-178 | Over every run the pushed mark names work the remote took if and only if every stage that read no mark stood on a HEAD the remote had taken. |
| `Marks.HeadSettles` | stage.go:174-178 | A mark set from HEAD is worth what the sweep takes it for exactly when the remote held HEAD. |
| `Marks.SweepTakesOnlyHeld` | sweep.go:113-145 | Where the marks settle, mark equal to HEAD is enough, key or no key: a swept tree held no commit the remote had not taken, although the mark alone may name one it never held. |
| `Marks.MarkingHeadIsSafeExactly` | stage.go:172-178 | From any sound state, every run that begins with a stage marking HEAD keeps the mark and the sweep safe if and only if the remote had taken HEAD. |
| `Marks.MarkedHeldHeadKeeps` | stage.go:172-178 | A HEAD the remote held may be marked: every later mark names held edits and every later sweep takes held commits only. |
| `Marks.UnpushedWorkIsSwept` | sweep.go:130-139 | The loss: from every tree with an edit the remote lacks, one stage that reads no mark and one sweep remove it, and no remote holds it. |
| `Marks.ExecutionMarksExactly` | push.go:160-181 | The same of each volume over any interleaving of volumes and people. |
| `Marks.ExecutionSweepsOnlyHeld` | sweep.go:130-139 | Over any interleaving, a sweep takes a tree whose every commit the remote held, unless a stage marked a HEAD it had not. |
| `StaleMark.WaitingWorkCanBeMarked` | push.go:151-181 | From every diverged volume with a held mark whose HEAD the remote never held, a run without a stage ends with the mark on that HEAD, never held. |
| `StaleMark.SettledWaits` | push.go:151-181 | Under a mark that names work the remote took, PushNow's exception is a diverged volume with a HEAD the remote never held, and such a volume with a held mark is one of those. |
| `LostEdits.IgnoredFileGoes` | reconcile.go:28-42 | A clean status over a sound tree with an ignored file: the fast-forward and the read-tree both write over it. |
| `LostEdits.DeletionGoes` | worktree.go:181-199 | A deletion that status names, which a read-tree undoes. |
| `LostEdits.LateEditGoes` | diverged.go:106-120 | A diverged tree a person merged, with an edit of a tracked file that the heal writes over. |
| `LostEdits.ClashingFileGoes` | diverged.go:106-120 | The same of a file in neither tree, which lies in a directory where upstream holds a file. |
| `LostEdits.NamedFileGoesLater` | push.go:200-240 | A file that status names, lost to the second of two read-trees after the first brought an ignore list. |
| `Repositories.Remote.TakeBranch` | push.go:51-62 | An unforced push of the ref is taken only as a fast-forward and may be declined for any other reason. |
| `Repositories.Remote.TakeSide` | diverged.go:66-90 | The side branch takes a push on its own terms, the ref untouched. |
| `Repositories.Remote.TakeRecord` | push.go:64-72 | The metadata ref takes a push on its own terms. |
| `Repositories.Remote.DropSide` | diverged.go:202-211 | A deletion of the side branch takes it away or leaves everything. |
| `Repositories.WorkTree.Create` | worktree.go:76-101 | A new tree is at the commit with its files, no mark and no key; a creation that fails can leave a git directory that counts as a tree and has no HEAD to read. |
| `Repositories.WorkTree.MarkPushed` | push.go:46-49 | The mark moves to the commit or stays; an empty commit is an error. |
| `Repositories.WorkTree.MarkHead` | stage.go:174-178 | The mark moves to HEAD whatever the remote holds, or stays. |
| `Repositories.WorkTree.WriteKey` | diverged.go:52-64 | The diverged key is set or cleared or left; clearing a key that is not there is an error. |
| `Repositories.WorkTree.Reset` | reconcile.go:53-58 | A hard reset leaves the commit's edits and the uncommitted edits of paths that neither tree holds and that clash with no path of the commit's. |
| `Repositories.WorkTree.Exclude` | commit.go:84-99 | The ignore list may be another one, and which files are missing does not change. |
| `Repositories.WorkTree.Status` | worktree.go:115-125 | Names every uncommitted edit of a tracked path, and of the others those that no ignore list names, or fails. |
| `Repositories.WorkTree.CommitStaged` | commit.go:146-153 | A commit on HEAD of exactly what was staged, or nothing. |
| `Repositories.WorkTree.Replay` | reconcile.go:128-141 | The rebase beside the tree fails or makes a commit above upstream, and never touches the pod's tree. |
| `Repositories.WorkTree.Take` | worktree.go:181-199 | The two-tree read-tree refuses unless every uncommitted edit it would write over is an ignored file or a deletion, leaves exactly the edits it does not write over, and when update-ref fails after it the files have moved and HEAD has not. |
| `Repositories.WorkTree.Reparent` | metadata.go:301-315 | The volume's record ends on top of the remote's with its content unchanged, or a ref could not be read and it stays, reported as success. |
| `WriteBack.Volume.SendTo` | push.go:51-62 | A send that worked leaves the branch at HEAD; each ref is taken or refused on its own; a send fails exactly when it broke or the remote declined a ref, one that is not read as rejected broke, and a record whose ref cannot be read is not sent though the send works. |
| `WriteBack.Volume.Report` | diverged.go:31-40 | A push the remote declined fails and reads as a rejection; one it took fails only when the connection broke, and may then read as either. |
| `WriteBack.Volume.Fetch` | push.go:242-263 | What a fetch that worked names is what the ref holds, usable for a rebase; the record comes with it or not. |
| `WriteBack.Volume.Wait` | push.go:138-240 | Between two git operations the fetched commit stays usable. |
| `WriteBack.Volume.FetchUpstream` | push.go:242-263 | A fetch that worked names a commit the ref held, at or above all it held before. |
| `WriteBack.Volume.TakeTree` | worktree.go:181-199 | The tree moves to the commit in one step; an uncommitted edit outlives it if and only if its path is not written over, and none is written over that does not yield. |
| `WriteBack.Volume.RebaseAside` | reconcile.go:96-115 | The tree's own commits go on top of upstream beside the tree and come in by one read-tree, or HEAD stays where it was. |
| `WriteBack.Volume.SetMark` | push.go:44-49 | The mark moves only to work the remote took, by a commit it held or one HEAD has left for good. |
| `WriteBack.Volume.RemoveSide` | diverged.go:158-166 | The side branch is deleted only once the ref has taken what the mark names and HEAD stands on it; a branch that stays stops nothing. |
| `WriteBack.Volume.Diverge` | diverged.go:73-90 | The volume is diverged in memory whether or not its key was written. |
| `WriteBack.Volume.Healed` | diverged.go:168-183 | The key goes before the state in memory, and a key that does not go leaves the volume diverged. |
| `WriteBack.Volume.HealInTree` | diverged.go:146-156 | A heal under a running pod changes the files by one read-tree; when it fails after HEAD moved, the old HEAD is behind for good. |
| `WriteBack.Volume.HealOnto` | diverged.go:132-154 | A heal under a pod happens only if the fetched commit holds the mark that was read; one that fails after HEAD moved leaves the old HEAD behind for good and the mark held. |
| `WriteBack.Volume.HealIfMerged` | diverged.go:122-144 | A diverged volume heals only once the ref holds what the mark names and its key was on disk, and then it does unless something failed or refused; when it fails with HEAD moved, the old HEAD was held unless it had commits since the mark that no push had sent. |
| `WriteBack.Volume.EditOutlives` | worktree.go:183-186 | Of one edit, published volume or not: one that did not come back is in the files exactly when it left at no read-tree and the pod did not take it back; one of a tracked file that was there goes only if the pod took it back or deleted the file; and with no pod it is there exactly when no read-tree wrote over its path. |
| `WriteBack.Volume.ReparentRecord` | push.go:216-222 | The record pushed next stands on the one just fetched. |
| `WriteBack.Volume.RebaseOntoRef` | push.go:200-222 | HEAD ends above what the ref held when the call began, and the record above the remote's. |
| `WriteBack.Volume.RebaseOnce` | push.go:200-240 | One attempt sends to the ref at most once; one that leaves the loop open sent exactly once and was turned away, and one that gives up could not rebase and sent nothing. |
| `WriteBack.Volume.RebaseAndRetry` | push.go:192-240 | At most rebaseAttempts sends; when one lands, the ref is HEAD and HEAD holds what the ref held before; when none does, all of them were turned away or a rebase could not be made. |
| `WriteBack.Volume.PushNow` | push.go:132-190 | A push reported on the ref leaves it at a commit with all the ref held and all the tree held; at most 1+rebaseAttempts sends to the ref and one to the side branch; the mark it moves names a commit the remote held unless the volume was diverged with commits since the mark that the remote never held; every edit in the files, with a running pod or without, outlives it as `EditOutlives` says; it fails with the volume not diverged only when a send broke or had no credential, sends again or diverges only after an answer that reads as a rejection, and diverges only after the ref turned away the first send and the one of every rebase, or a rebase that could not be made; and with no failure and no refusal it lands on the ref, or on the side branch of a volume nobody merged, and the mark moves. |
| `WriteBack.Volume.PushHead` | push.go:144-190 | The same of a push whose HEAD was read, from the heal to the mark. |
| `WriteBack.Volume.HealTree` | diverged.go:146-154 | The tree goes above upstream by one read-tree before the side branch goes, and the branch is gone when nothing failed. |
| `WriteBack.Volume.EndHeal` | diverged.go:168-183 | The key goes last, and the tree stays healed whether it goes or not. |
| `WriteBack.Volume.RetryOrDiverge` | push.go:164-177 | After a refusal either a rebase lands, or every rebase was turned away or one could not be made, and then the volume is diverged and its HEAD was sent to the side branch once. |
| `WriteBack.Volume.SendAside` | push.go:167-176 | What goes to the side branch is the HEAD the tree holds now, not the one the push began from. |
| `WriteBack.Volume.SendAndRetry` | push.go:157-178 | One send to the ref, and without an answer that reads as a rejection nothing more; it fails with the volume not diverged only when the send broke or had no credential, and diverges only after the sends of the rebases too, or a rebase that could not be made. |
| `WriteBack.Volume.MarkLanded` | push.go:179-183 | The mark goes to the HEAD that landed, and what landed stays. |
| `WriteBack.Volume.PushToRef` | push.go:157-190 | A volume that has not diverged sends to the ref; it fails there only when the send broke or had no credential, and diverges only after a rejection and then the ref turned away every send or a rebase could not be made; the mark goes to the HEAD that landed. |
| `WriteBack.Volume.PushToSide` | push.go:153-190 | A diverged volume sends to its side branch once and nowhere else, and the mark goes to the HEAD the push began with. |
| `WriteBack.Volume.PushHealed` | push.go:144-190 | After a heal HEAD is read again, and the push goes to the ref. |
| `WriteBack.Volume.PushOn` | push.go:148-190 | After the search for a merge the push goes to the ref if the heal worked and to the side branch otherwise. |
| `WriteBack.Volume.PushDiverged` | push.go:144-190 | A diverged volume looks for a merge first, and reaches the ref only if its key was on disk and the heal worked. |
| `WriteBack.Volume.MarkSent` | push.go:179-183 | The pushed HEAD is one the remote held, and stays held while the mark is moved. |
| `WriteBack.Volume.Others` | push.go:138-240 | Between two git operations people move the ref, other volumes push and the pod writes, and the history records it. |
| `StageTime.AskAncestor` | reconcile.go:46-51 | A git that fails answers that the commit is no ancestor. |
| `StageTime.ResetTo` | reconcile.go:60-66 | A reset to a commit above HEAD keeps HEAD's work and leaves exactly the edits a hard reset spares. |
| `StageTime.MarkAndRestore` | reconcile.go:66-74 | The mark follows the tree to upstream before the record is replayed, or a failed git says so, and with nothing failed the record is one the remote held meanwhile. |
| `StageTime.TakeUpstream` | reconcile.go:60-74 | A fast-forward ends with HEAD and the mark at upstream, or says which of the two failed. |
| `StageTime.EndDivergence` | diverged.go:116-119 | The side branch goes, then the key; a key that stays fails the heal; with nothing failed or refused the branch is gone from the remote. |
| `StageTime.Heal` | diverged.go:106-120 | A heal at stage ends with HEAD and mark at upstream and no key; one that fails keeps the key; and upstream alone holds every edit of the deleted branch when the tree covered it. |
| `StageTime.RebaseTree` | reconcile.go:76-94 | A rebase at stage ends on upstream with the mark there, or diverges with HEAD and mark where they were. |
| `StageTime.Reconcile` | reconcile.go:12-44 | The whole stage-time table: which row runs, what each leaves, when a tree waits, exactly which uncommitted edits outlive a reset, that a rebase takes the files by one read-tree, and that only a failed git breaks it off. |
| `StageTime.HealOrHold` | diverged.go:92-104 | A diverged tree heals exactly when upstream holds its HEAD, and is untouched otherwise; an uncommitted edit outlives the reset if and only if neither tree holds its path and upstream's holds none that clashes with it. |
| `StageTime.LooksClean` | reconcile.go:34-39 | A tree looks clean when status names nothing or fails. |
| `StageTime.ReconcileKept` | reconcile.go:26-44 | The rows for a tree that is not diverged: it waits exactly when status names an edit, and an edit outlives the fast-forward if and only if the reset does not write its path or one that clashes with it. |
| `StageTime.Restore` | stage.go:233-254 | The replay of the record changes the record and no commit, mark or key. |
| `StageTime.MakeTree` | stage.go:148-165 | A new tree ends at the fetched commit with the mark on it. |
| `StageTime.ReadMark` | stage.go:172-178 | A stage marks HEAD only when it reads no mark, which is a failure or a mark never written; the mark is blind exactly when the remote had not taken HEAD. |
| `StageTime.StageKept` | stage.go:166-189 | A kept tree that reads no mark is given one on HEAD, and reconciled; the mark can be blind only if HEAD was neither held nor below upstream, and the tree waits only for edits that status names. |
| `StageTime.StageStanding` | stage.go:166-189 | A tree with no HEAD to read fails the stage, and any other is kept; a divergence that ended with nothing failed or refused took its side branch with it. |
| `StageTime.FetchSide` | stage.go:192-218 | The side branch is found only when the key names it and the remote holds it, and then always when nothing failed. |
| `StageTime.NoAnswer` | stage.go:128-147 | A fetch that did not work fails the stage, unless the remote no longer holds the ref, a tree is there and its HEAD is read; then, and only then, the pushes stop and the stage works. |
| `StageTime.StageTree` | stage.go:119-189 | A stage that worked leaves a tree above what the ref held, or diverged, or waiting with edits that status names; a fetch that failed leaves the tree untouched, and is a success, with the pushes stopped, exactly when the ref is gone and a tree with a HEAD is there; a half-made tree fails every stage; no committed work is lost. |
| `StageTime.Exclude` | commit.go:51-65 | The ignore list is written before the status is read, and decides what it names. |
| `StageTime.CommitNamed` | commit.go:66-72 | One commit of exactly what was staged, or none. |
| `StageTime.CommitTree` | commit.go:51-72 | A commit adds to HEAD exactly the edits that status names under the ignore list just written and the size guard lets through, mark or no mark. |
| `StageTime.PushAll` | push.go:101-117 | The last push before a volume leaves: when it reports no failure and the mark was not blind, every edit of HEAD reached the remote; a tree whose commits cannot be counted, as with no mark, is not pushed; and every edit in the files outlives it as it does a push; nothing is sent of a tree with no mark, with nothing above it or with no credential, and the last is reported. |
| `StageTime.Restart` | records.go:174-241 | A restart forgets the diverged branch while the key stays on disk, against what diverged.go:15-17 says. |
| `StageTime.Sweep` | sweep.go:113-145 | A swept tree was held by nothing, old, and marked at HEAD, diverged only if its key could not be read; every commit of it was held by the remote unless the mark was blind. |
| `Backoff.BackoffDoubles` | follow.go:271-278 | The k-th failure in a row backs off by the floor doubled k-1 times, at most five minutes. |
| `Backoff.BackoffBounds` | follow.go:271-278 | For every floor the backoff stays within the smaller of the floor and five minutes, and five minutes. |
| `Backoff.WaitKeepsFloor` | follow.go:280-294 | Every wait is at least the floor if and only if the floor is at most five minutes, against the comment that it always is; none is under half the backoff, and the least is over it only for the floor. |
| `Backoff.Jittered` | follow.go:285-294 | The jitter comes off the backoff and never goes under the floor. |
| `FetchLoop.SpacedApart` | follow.go:161-175 | Starts demandMin apart are n times demandMin apart after n of them. |
| `FetchLoop.WindowHolds` | demand.go:309-330 | A window W holds at most W/gap + 1 of any starts a gap apart. |
| `FetchLoop.Loop.GateHolds` | demand.go:309-330 | In every state of the loop, a window W holds at most W/demandMin + 1 of the passes demands ran. |
| `FetchLoop.Loop.NoDemandIsMissed` | demand.go:174-205 | Every demand read within the skew is followed by a fetch of that volume that worked and started no earlier, or is wanted, about to be, in the running pass, or waits for its credential. |
| `FetchLoop.Loop.IntervalIsKept` | follow.go:139-196 | Whenever the loop waits with no wake on its way, the timer was set at or after the last pass and fires when the least interval has passed since, so at or before each volume's. |
| `FetchLoop.Loop.Stage` | node.go:251-286 | A fetch at stage answers what was stamped before it started; a stale stage answers nothing. |
| `FetchLoop.Loop.Resume` | records.go:209-232 | A restart counts earlier demands as answered and owes the pull that answers them. |
| `FetchLoop.Loop.Join` | follow.go:93-98 | A volume joins the loop and the loop reads its interval again. |
| `FetchLoop.Loop.Follow` | follow.go:49-74 | A volume that follows its ref and is not writeable joins the loop, which is then to wake, and no other does. |
| `FetchLoop.Loop.Leave` | follow.go:100-111 | A volume that leaves takes its demand with it and wakes the loop. |
| `FetchLoop.Loop.TakeDemand` | volume.go:453-475 | A demand counts exactly when its stamp is new and no fetch answers it, and then counts up to now less the skew: the watermark rule that Rendezvous proves worth its pulls. |
| `FetchLoop.Loop.CarryDemand` | demand.go:274-307 | A demand reaches the wanted set unless the volume left or waits for its credential, with a wake on its way. |
| `FetchLoop.Loop.TakeCredential` | republish.go:100-110 | A returned credential ends the wait and owes a pass. |
| `FetchLoop.Loop.CarryCredential` | republish.go:227-243 | The pass for a returned credential is wanted past the gate. |
| `FetchLoop.Loop.Others` | follow.go:139-187 | Any number of other goroutines' steps keep every invariant of the loop. |
| `FetchLoop.Loop.ShortestInterval` | follow.go:123-136 | The interval is the least of those the volumes name, and there is one exactly when some volume names one. |
| `FetchLoop.Loop.Arm` | follow.go:188-196 | The timer fires once the least interval of the loop's volumes has passed from now, and is stopped when none names one. |
| `FetchLoop.Loop.OnWake` | follow.go:154-156 | A wake sets the timer to fire once the least interval has passed from now, and stops it when no volume names one. |
| `FetchLoop.Loop.OnDemanded` | follow.go:157-168 | A demand runs a pass when the gate is open, and waits out the rest of demandMin otherwise. |
| `FetchLoop.Loop.OnDelay` | follow.go:169-172 | The gate's own timer opens it. |
| `FetchLoop.Loop.StartPass` | follow.go:205-221 | A pass is timed from when it has the repository's lock, and a gated one counts at that time. |
| `FetchLoop.Loop.TakeWanted` | demand.go:321-330 | The pass takes every wanted volume at once and times the pull. |
| `FetchLoop.Loop.ListVolumes` | follow.go:221-224 | The pass fetches the volumes on the loop when it started. |
| `FetchLoop.Loop.Visit` | follow.go:306-322 | A volume that waits for its credential is passed over and its demand stays owed. |
| `FetchLoop.Loop.FetchWorked` | follow.go:323-346 | A fetch that worked answers what was stamped before the pass started. |
| `FetchLoop.Loop.FetchFailed` | follow.go:224-246 | A failed fetch of a demanded volume wants it again, and a retry will run. |
| `FetchLoop.Loop.Settle` | follow.go:260-269 | A retry is set exactly when a demanded fetch failed, within the backoff and at or after the least wait. |
| `FetchLoop.Loop.EndPass` | follow.go:188-196 | A pass ends with the interval timer set to fire once the least interval the volumes name has passed from now, or stopped when none names one. |
| `FetchLoop.Loop.BeginPass` | follow.go:198-224 | The lock, the wanted set and the list, with other goroutines between any two. |
| `FetchLoop.Loop.FinishPass` | follow.go:214-269 | The fetches of a pass leave a retry set exactly when demands stay unanswered by failure. |
| `FetchLoop.Loop.VisitAll` | follow.go:214-233 | Every listed volume is fetched or passed over. |
| `FetchLoop.Loop.FetchOne` | follow.go:306-346 | One volume's fetch, with demands read while it runs. |
| `FetchLoop.Loop.Tick` | follow.go:198-269 | A whole pass keeps no wakeup lost and no demand missed, sets a retry exactly when demands stay unanswered by failure, and ends with the interval timer a least interval away. |
| `FetchLoop.Loop.Select` | follow.go:150-186 | One turn of the select, whichever ready event it takes: what it takes was there and is consumed, a wake sets the timer, a demand enters a pass as the gate allows, and every other event enters one. |
| `FetchLoop.Loop.Run` | follow.go:139-187 | Any number of turns: the gated starts stay demandMin apart, and whenever the loop waits every invariant holds, and a wanted volume has a token or a timer to wake it. |
| `Rendezvous.PullKeeps` | volume.go:453-475 | A later pull of one volume is for a demand stamped after the earlier one began, less the skew, and a stamp comes back only after another was taken. |
| `Rendezvous.Demands.Read` | demand.go:174-205 | A read records the demand, staged or not, before it looks for the volume. |
| `Rendezvous.Demands.Stage` | stage.go:88-92 | A stage adds the volume before it looks for a demand. |
| `Rendezvous.Demands.Arrived` | demand.go:219-230 | A stage carries the last demand read for its handle. |
| `Rendezvous.Demands.ActOn` | demand.go:232-251 | The staged volume takes the demand, and pulls exactly when its watermark says so. |
| `Rendezvous.Demands.TakeDemand` | volume.go:464-475 | A stamp taken just now, or one a fetch answers, pulls nothing; the watermark moves by the same rule as the loop's. |
| `Rendezvous.Demands.Unstage` | stage.go:269-275 | An unstage leaves nothing of the handle to find. |
| `Rendezvous.Demands.Forget` | demand.go:207-217 | A deleted object's demand is forgotten. |
| `Rendezvous.Demands.Run` | demand.go:219-230 | In every interleaving, once the goroutines have finished, each staged volume was asked the last demand read for its handle. |
| `Placement.Published.Replace` | store.go:210-257 | From any standing tree the published tree ends with the fresh names and contents, and as the merged tree, standing directories kept, when every Lstat is answered; at every call and every failure each reader sees whole old or new files. |
| `Placement.Published.RemoveGone` | store.go:225-236 | Entries upstream removed go first, and nothing else. |
| `Placement.Published.Arrive` | store.go:238-255 | One entry arrives by recursion or with one rename, over a file or where nothing stands; an Lstat that fails leaves it to the rename. |
| `Placement.Published.Rename` | store.go:252-254 | The rename replaces a file by a file, and a directory by a directory only if it is empty and its Lstat failed. |
| `Placement.Published.RemoveAll` | store.go:231-234 | A removal that stops part way is never seen in an entry both trees share. |
| `Placement.Published.LiftKept` | store.go:243-246 | What the recursion keeps inside a directory is kept of the whole tree. |
| `Placement.MergedIsArriving` | store.go:210-214 | What a placement leaves has the fresh tree's names and contents. |
| `Placement.EndedIsMerged` | store.go:210-214 | When every Lstat is answered, what a placement leaves is the merged tree and no other. |
| `Placement.EndedIsArriving` | store.go:210-214 | What a placement leaves has the fresh tree's names and contents, whatever Lstat did. |
| `Placement.ReadersSeeOldOrNew` | store.go:140-149 | At any path, a file both trees have reads as the old or the new one, and a directory both have keeps its identity, but for an empty one whose Lstat failed. |
| `Placement.StoppedAndPlacedAgain` | store.go:164-176 | The same across a placement that stopped half done and one that starts over. |
| `Metadata.MetadataContent` | metadata.go:117-129 | The loop prints one line for each record, in order. |
| `Metadata.ParseMetadataContent` | metadata.go:131-141 | The loop reads each line on its own and leaves out what it cannot read. |
| `Metadata.RoundTrip` | metadata.go:117-173 | Parsing what was printed gives the same records if and only if every path is local, on one line, and no file's path ends in a slash. |
| `Metadata.LinesAsPrinted` | metadata.go:117-129 | Two lines letter by letter: the mode in octal with its zeros, the owners in decimal, the slash of a directory. |
| `Metadata.BadLineIsAlone` | metadata.go:131-141 | A line the driver cannot read changes no other line's result. |
| `Metadata.ReadsOn` | metadata.go:131-141 | Text that ends in a newline reads the same whatever follows it. |
| `Metadata.LineReads` | metadata.go:143-173 | One record reads back from its own line exactly when the line can carry its path. |
| `Metadata.ReadsStayInside` | metadata.go:159-163 | No record that is read names a rooted path, and no step of a walk along its path leaves the directory the walk begins in. |
| `Metadata.LocalStaysInside` | metadata.go:159-163 | A path is local exactly when no step of the walk along it leaves the directory it begins in, `..` climbing to the parent. |
| `Metadata.ModeReads` | metadata.go:126-151 | A mode printed in octal with leading zeros reads back. |
| `Metadata.IntReads` | metadata.go:126-158 | An owner printed in decimal reads back, negative or not, within 64 bits. |
| `Match.AllFormsAgree` | match.go:170-198 | Every https, ssh, scp-like and bare form of a URL, with or without user, port, .git and edge slashes, makes the one key, lowercased host and path, if and only if an scp-like form has at most one slash before its path. |
| `Match.KeysTellApart` | match.go:170-198 | Two repositories share a key exactly when they share the path and their hosts are one letter for letter, but for a capital and its own small letter. |
| `Match.FormsMatch` | match.go:160-198 | A push and a volume that write their repositories in any two readable forms match if and only if they name one path and, but for case, one host. |
| `Match.HostAlone` | match.go:190-197 | A URL with nothing but slashes for a path is its lowercased host, which is no repository's key. |
| `Match.LowerFolds` | match.go:194-197 | Two hosts are lowercased to one exactly when they differ at most in a capital and its own small letter. |
| `Match.LowerHasNoCapital` | match.go:194-197 | A lowercased host has no capital left and differs from the host in case alone. |
| `Match.TrimWritten` | match.go:194-196 | Edge slashes and .git come off a path in one way. |
| `Match.LostHost` | match.go:176-189 | With two slashes after its colon the scp-like form's host is read as a scheme and its key is another repository's. |
| `Watch.Watcher.constructor` | watch.go:246-256 | The quiesce starts with the watch. |
| `Watch.Watcher.OnChanges` | watch.go:265-266 | A write restarts the rest: the timer runs out no sooner than the quiesce after it, and the token is gone unless another was sent. |
| `Watch.Watcher.OnClassed` | watch.go:226-242 | A class sets the timer for what is left of its quiesce, at once when nothing is left, and the token is gone unless another was sent. |
| `Watch.Watcher.OnQuiesce` | watch.go:269-270 | When the timer runs out and nothing is on its way to the loop, the scan passes its own rest test and covers the last write. |
| `Watch.Watcher.Scan` | watch.go:288-300 | A scan commits a tree that had rested for the quiesce when it began, unless a write or a class came meanwhile, and no scan commits one that has not. |
| `Watch.Watcher.OnSweep` | watch.go:271-272 | A sweep commits what has rested and breaks no timer. |
| `Watch.Watcher.Run` | watch.go:244-278 | Over any wakes in any order no rest is lost: while the volume is armed and nothing is outstanding, a tick is to come after the rest or a commit covers the last write; the watch begins with a scan. |
| `Watch.Watcher.Others` | watch.go:197-242 | The inotify reader and the claim's watch lose no token. |
| `Arming.Slot.Drain` | arming.go:89-94 | The drain empties the slot for the newest copy. |
| `Arming.Slot.Send` | arming.go:86-96 | The send after a drain finds the slot empty, so it never blocks. |
| `Arming.Slot.Take` | arming.go:128-150 | The reader takes only a copy newer than the one it holds. |
| `Arming.Slot.Read` | arming.go:133-144 | A copy is read until its class is, or a newer one takes its place. |
| `Arming.Slot.Run` | arming.go:79-153 | Over any interleaving copies are acted on in offer order, the last one offered is never lost, and at rest the volume is armed from it. |
| `Bookkeeping.LoopsExact` | follow.go:49-91 | A repository has a loop exactly when some following read-only volume here names it, and the loop holds exactly those. |
| `Bookkeeping.Follows` | follow.go:49-74 | A volume joins its repository's loop, and every other entry of every loop stays. |
| `Bookkeeping.Unfollows` | follow.go:76-91 | A volume leaves its loop, which stops with its last volume, and every other entry stays. |
| `Bookkeeping.TidyIsEven` | records.go:114-141 | A restart that reads everything publishes a volume as it is if and only if the disk and the kernel bear the node out: a record of what it is, every target recorded and mounted, and no other recorded target mounted. |
| `Bookkeeping.RestartExact` | records.go:122-166 | The same of a restart that missed mounts: with none missed the volume comes back as it was exactly when it was tidy, and a tidy volume with one missed never does. |
| `Bookkeeping.Node.PublishInline` | node.go:153-221 | An inline publish binds one target, joins the loop and writes its record, or publishes nothing; it fails only when a call of its own failed or the volume has another target. |
| `Bookkeeping.Node.PublishStaged` | stage.go:291-347 | Every publish of a staged volume: a claim for a pod that would write is refused; a publish repeated at a target of the volume works and changes nothing, whatever its Secret; a second target of a writeable volume is refused, and any new target to another Secret; any other publishes the staged object at the target too, and fails only when a call failed. |
| `Bookkeeping.Node.PublishClaim` | readonly.go:72-120 | A claim keeps every target it is bound at, and a publish at one of them works; a pod that did not ask for read-only is refused, and so is a new target with another Secret. |
| `Bookkeeping.Node.PublishWriteable` | stage.go:320-346 | A writeable volume is published with its watch, or its publish leaves the maps alone; another Secret than the volume holds is refused. |
| `Bookkeeping.Node.Unpublish` | node.go:312-380 | A claim gives up one target and any other volume leaves, with its loop or watch; a tidy volume stays tidy if and only if the mount came away, when the call named its target and its record was not torn; with nothing failed a claim's record keeps its other targets and any other record goes. |
| `Bookkeeping.Node.UnpublishClaim` | node.go:334-341 | The last target takes a claim off the published volumes and not off the staged ones or its loop. |
| `Bookkeeping.Node.UnpublishOther` | node.go:342-380 | An inline or writeable volume leaves whichever target the call names. |
| `Bookkeeping.Node.Stage` | stage.go:19-94 | A stage adds one new object with its loop or its claim's watch, or nothing; a second stage answers from the first; a claim's record is written with no target, or goes with a stage that failed, and a work tree's stage writes none. |
| `Bookkeeping.Node.Unstage` | stage.go:256-289 | After an unstage no map, loop or watch names the volume; a claim's record goes with its directory, and a work tree's stays. |
| `Bookkeeping.Node.Restart` | records.go:114-241 | A crash in the middle of any calls and a resume publish a volume as it was if and only if it was tidy, when no mount of it was missed; every map agrees again for every volume, and every volume is tidy but those a read missed or whose record was torn. |
| `Bookkeeping.Node.Resume` | records.go:122-241 | A record with a target the mount table shows is rebuilt with those targets; one with none is dropped; one that cannot be read is passed over; the record left is the one of the targets that stand. |
| `Bookkeeping.Node.DropUnseen` | records.go:155-166 | A work tree keeps its record, and any other volume loses its directory or some of it. |
| `Bookkeeping.Node.ResumeOne` | records.go:174-241 | The volume comes back with the targets seen, and is tidy when those were all and its record was not torn. |
| `Bookkeeping.Node.Others` | node.go:55-73 | Calls on other volumes change nothing of this one, whatever statements of theirs run in between. |
| `Bookkeeping.Node.Call` | node.go:153-380 | No call on a volume that went well leaves it untidy, whatever calls on others do meanwhile. |
| `Bookkeeping.Node.Calls` | node.go:153-380 | Over any sequence of calls, with restarts and calls on other volumes between, a volume is tidy when its record writes and unmounts worked and each unpublish named its target. |
| `Bookkeeping.CallsAndRestart` | records.go:114-121 | From an empty node, after any such calls, a restart that misses no mount publishes the volume as it was. |

## Left out

- Protocol.Meanwhile: people do not force-push or delete the followed ref, and one tree per volume writes its side branch; a fetch may still find the ref missing.
- WriteBack.Volume.Valid: all volumes of an execution follow one ref of one remote.
- FetchLoop.Loop.GateHolds: bounds the passes of one loop. A loop that stops with its last volume and starts again (`follow.go:52-91`) has no last pull, so nothing bounds a repository's passes across the two.
- Git.Edit: a file's content is the set of edits made to it, so a rebase that lands is one where every edit kept its meaning; conflicts are the failure outcome.
- Bookkeeping.Node.Unstage: asks that the volume is not published, which the CSI specification asks of the caller (section NodeUnstageVolume), and Stage and PublishInline ask that inline and staged volumes do not share an id.
- Placement.Published.Replace: links and files are one kind of entry.
- Metadata.RoundTrip: strings are sequences of characters, and IsLocal is the rule of Unix paths.
- Match.AllFormsAgree: only the letters A to Z change case, and hosts and paths hold no colon and no at sign.
- Watch.Watcher.Scan: a commit that fails waits for the next sweep, and the push a scan may make is the one of `WriteBack.dfy`.
- FetchLoop.Loop.TakeDemand: a demand whose writer's clock lags by the skew or more, or that repeats the stamp taken last, is not counted among those that are owed, as in the code.
- The sweep of bare repositories and their refs (`sweep.go:217-348`): a stage lets go of the repository's lock before the node knows the volume, so nothing holds of it without a stage that is atomic to the sweep.
- The abandoned and kept maps of the node, which only the sweep's report reads.
- recordsUnder and the replay of modes and owners on real files (`metadata.go:283-348`).
- place and recordPlaced around the replacement (`store.go:149-200`): one rename each.
- The index apart from HEAD: what a commit leaves there when it fails after the add, and a read-tree when its update-ref fails, counts as untracked, and a path whose stat alone changed counts as clean.
- A git operation is one step: a pod's write in the middle of one comes before or after it, and one that the disk stops half way has written nothing, but for a read-tree whose update-ref fails.
- Packfiles, scratch work trees, gc and shallow depth.
- gRPC, informers, the webhook's listener, HMAC and Secrets on disk, and parsing of attributes, policies and payloads.
- Metrics, Events, log lines and the wording of reports.
- The mount table and inotify decoding: a mount is a member of a set, and a batch of events is one nudge.
- Trees from before this driver: every store starts empty, so a tree without a mark is one whose first mark failed.
