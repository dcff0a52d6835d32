# sshkeytx: a verified model of the transaction

sshkeytx changes many users' `authorized_keys` files on one host as a single transaction: additions land and are
proven on fresh connections, then removals land and are proven, then a commit marker disarms a dead-man trap that
until then would put every file back the moment the guard connection dies. This project models that transaction,
its undo log, the trap, the editor underneath, the write policy, the shell quoting and the break-glass `restore`
command, and proves what they promise of each other.

## How to read it

| file | models |
|---|---|
| `AuthKeys.dfy`, `AuthKeysLaws.dfy`, `AuthKeysText.dfy` | the line-preserving editor (`internal/authkeys`), its laws, and its edits as bytes |
| `Shell.dfy`, `Scripts.dfy` | `remote.Quote`, the `sh -c` line, the privilege drop and the scripts sent through them, against a POSIX shell-word lexer |
| `WritePolicy.dfy` | `CheckWriteTarget`, `DecideWriteOpts`, the attributes a swap leaves |
| `Manifest.dfy` | the trap's manifest as bytes: what is appended, what `read` delivers |
| `World.dfy`, `Host.dfy` | the remote side: files, links, backups, manifest, markers, guard, connection; every event has a fate, and all are on record |
| `TrapLaws.dfy` | the trap as a loop over manifest lines, idempotent and resumable |
| `TxState.dfy`, `TxSteps.dfy` | a transaction's plan, the write-ahead invariant, and each remote step keeping it |
| `Ledger.dfy` | the orders to write, file by file: what they are through the phases, and what a failure makes of the client's memory |
| `Probing.dfy` | verification by fresh connections |
| `Loading.dfy` | checking the request, connecting, reading the targets |
| `Ending.dfy` | commit marker, cleanup, abort, and what every state of a whole run satisfies |
| `Records.dfy` | reading the record of a run that turned back: exactly when it was all or nothing, and its report true |
| `Tx.dfy` | the transaction itself: class `T` with its `UserFile` objects, phase by phase, and `Run` |
| `TxLaws.dfy` | what a run means for keys, for sshd, for owners, for the next run |
| `Pitfalls.dfy` | whole runs that end in each exception, the half-removed directory, and the clashing snapshot |
| `Instances.dfy` | hosts and requests all this happens on, for every list of user names |
| `Restore.dfy` | the per-file loop of `restore` |

A `Host` is given a `script: (nat, World, Event) -> Tick`: what the environment has in store for any event, at any time,
in any state. An order may succeed, exit non-zero, or lose its reply with any part of it done; the connection may break
during it; the guard session may end during a health check; a closing guard may be late; sshd's verdict is whatever the
script says. Every theorem about `Run` is for every script. `Host.trace` records every state and `Host.calls` every
event with its tick and its reply. A client crash between any two events is one of the states of the trace, and
`EndGuard` of that state is what the trap then leaves behind.

`Plan` holds what the operations make of each target: its original, its content after the add phase (`Mid`) and after
the remove phase (`Fin`). `Sound` is what every state of every run satisfies: each file holds one of these three
contents under its old attributes or the swap's, and so it does after a crash and the trap; one that is not at its
original has its whole original on the operator's disk; no removal has landed before every addition is proven; without a
commit marker a crash now restores every original (or the cleanup is complete and every file is final); under a marker
the files are final, or reverted except for a forgotten one, or, if the client never learnt of its marker, in the middle
of a revert.

A committed run is all or nothing at every moment (`T.Run`). For one that turned back, `T.Run` hands over its record
(`Fell`), and `Records` reads it: `forgotten`, the set of files whose mark `swap` erased, has at most one member and is
decided by the replies to the orders to write it (`ForgottenExactly`); `lost`, the commit's marker landing unheard, by
the fate of one order (`LostExactly`); the two exclude each other; `HonestAbortExactly` and `AtomicExactly` say, in
terms of these orders alone, when "reverted" is true and when the run was all or nothing at every moment. No other
failure matters to either (`OtherFailuresAreHarmless`). `Pitfalls` has the runs the other way round: each remaining
mixture is where some whole transaction ends.

`Config.keepDirty` selects `swap`'s rule after a clean failure: false is the code as written, true keeps the earlier
mark. With it nothing is ever forgotten.

## What is assumed

- Nobody else writes the targets, their links or the transaction directory.
- A remote command is atomic towards the trap; one whose reply is lost has landed, or never will, before the next step.
  Only `cat >` can stop half way.
- A non-zero exit of a swap, of `rm -f` or of `rm -rf` means it did nothing; a swap does what its script means, which
  supposes a path without a single quote (`Scripts.SwapScriptReads`).
- The guard session does not end on its own while the connection lives, except at a moment a health check sees.
- The transaction directory is new and empty, and the guard starts once (`Fresh`).
- `Separate`: no two users share a target, and no path or backup name holds a tab or a newline.
- `NamesApart`: no user with additions whose file exists is named like another one followed by `.pre-remove` that has
  additions and effective removals. `Pitfalls.NamesApartExactly` shows that this is what the snapshots' safety needs,
  and `Pitfalls.ClashingSnapshot` what happens without it.
- The SSH library is three arbitrary functions (`Codec`). Where a theorem is about re-reading a written file it asks
  one thing of them, `Faithful`: the line written for an added key is one line and parses back to that key.
- Where a theorem needs more it says so: `NoCollision` and `SpecsAgree` for removals named by fingerprint, `Obeys` or
  `Answers` for an sshd that follows the files, `Smoothly` for a run in which nothing failed before it turned back.

## Where the code and its comments part

- `swap` clears `dirty` on a clean failure even if an earlier swap of the same file landed
  (`internal/tx/tx.go:593-604`). The abort then skips the file, disarms the trap and reports a verified revert.
  `Pitfalls.ForgottenAddition` is that run of the whole transaction, on every host that would let it through;
  `Records.HonestAbortExactly` says exactly when the report is true.
- The commit marker may land unheard (`internal/tx/tx.go:972-973`); if reverts that follow fail, the trap is disarmed
  and the files stay mixed: `Pitfalls.UnheardMarkerMixes`, for every choice of the files that come back.
- The directory is removed even when the guard did not exit in time (`internal/tx/tx.go:975-980`):
  `Pitfalls.LateTrapSafeExactly` says which half-removed directories are safe.
- `SwapFile` quotes the path everywhere but in one message, where it stands between single quotes as it is
  (`internal/remote/remote.go:192`). For a path with a single quote the script is not read as it is meant, and for no
  other: `Scripts.SwapScriptReads`; where the message then ends: `Scripts.QuoteEndsMessage`.
- A forensic snapshot is written to `backup/<user>.pre-remove` (`internal/tx/tx.go:545`), which is the backup name of a
  user called `<user>.pre-remove`, a valid name. Once both are armed, the snapshot replaces the second user's original,
  and a lost connection gives that user the first one's file: `Pitfalls.ClashingSnapshot`, on every host that admits
  the request (`Instances.SomeHostAdmits` has one for every list of names). When such a write is safe:
  `Pitfalls.SnapshotSafeExactly`, `Pitfalls.SafeHoweverFarExactly`.
- A path template without `%u` or `%h` gives all users one file (`internal/tx/tx.go:440`):
  `Loading.PlainTemplateIsShared`.
- `restore` asks the write policy with an empty entry uid (`internal/cli/cli.go:553-559`), so it refuses a user's own
  file in the user's own directory: `WritePolicy.RestoreRefusesExactly`, `Restore.OwnFileIsNotRestorable`.
- `meta.json` lists every loaded file (`internal/tx/tx.go:1120-1130`) though only files that reached `ensureCAS` have a
  local backup, so one existing file the operations do not concern makes the whole list impossible to restore:
  `Restore.RestoreOfRun` has the exact condition. A local backup cut short by a failing write is taken for a whole one,
  the recorded hash not being looked at: `Restore.TornBackupIsWanted`; such a file is still at its original
  (`TxState.Insured`), so it is restore that then breaks it.
- A privilege-dropped write keeps uid and mode but not a non-primary gid: `WritePolicy.GroupConservedExactly`.

## Model

| member | source | states |
|---|---|---|
| AuthKeys.File.constructor | internal/authkeys/authkeys.go:34-53 | parsing in a loop gives the document the specification functions speak of |
| AuthKeys.File.RenderText | internal/authkeys/authkeys.go:56-70 | the loop writes every line back, the last newline only if there was one |
| AuthKeys.File.RemoveMatching | internal/authkeys/authkeys.go:112-127 | in place: exactly the lines go whose key is the matcher's or has its fingerprint; the others stay in order, the deleted ones are returned in order |
| AuthKeys.File.AddKey | internal/authkeys/authkeys.go:135-149 | in place: one line is appended unless some line has this key, and the result says which |
| AuthKeys.Find | internal/authkeys/authkeys.go:101-109 | the keys of the matching lines, all of them and in their order; something is found exactly if a line matches |
| AuthKeysLaws.RoundTrip | internal/authkeys/authkeys.go:34-70 | rendering what was parsed gives back every byte sequence |
| AuthKeysLaws.DiskAgrees | internal/authkeys/authkeys.go:34-70 | a canonical document, rendered and re-read, has the same keys in the same order |
| AuthKeysLaws.DiskAgreesAfterEdits | internal/authkeys/authkeys.go:112-149 | so has every document reached from a parsed file by any additions and removals |
| AuthKeysLaws.PhaseOrderIrrelevant | internal/authkeys/authkeys.go:112-149 | with no self-cancelling pair, adding then removing equals removing then adding, lines and final newline |
| AuthKeysLaws.FinalLines | internal/authkeys/authkeys.go:112-149 | the end state is the original lines no removal matches, in order, then the new lines in operation order |
| AuthKeysLaws.FinalKeys | internal/authkeys/authkeys.go:112-149 | its keys are (original minus removed) plus added, so every addition survives |
| AuthKeysLaws.AddAllKeys | internal/authkeys/authkeys.go:135-149 | after the additions a key is present exactly if it was before or was added |
| AuthKeysLaws.RemoveAllKeys | internal/authkeys/authkeys.go:112-127 | after the removals a key is present exactly if it was before and no matcher selects it |
| AuthKeysLaws.AddPhaseAppends | internal/authkeys/authkeys.go:135-149 | the original bytes, newline supplied if a line follows, are a prefix of the add phase's content |
| AuthKeysLaws.RerunIsNoOp | internal/authkeys/authkeys.go:112-149 | the same edits on the re-read result change nothing |
| AuthKeysText.MatchesExactly | internal/authkeys/authkeys.go:90-98 | a matcher is about a key exactly if it is that key's encoding or its fingerprint |
| AuthKeysText.RemovedExactly | internal/authkeys/authkeys.go:112-127 | which lines a removal takes and which it leaves, by key and by fingerprint |
| AuthKeysText.RemovalsExactly | internal/tx/tx.go:629-645 | the same for a sequence of removals: afterwards no line has a named key or fingerprint, and every other line is still there |
| AuthKeysText.RemovalText | internal/authkeys/authkeys.go:56-127 | a removal leaves the old text without the lines that went, and a missing last newline stays missing |
| AuthKeysText.GrantTextExactly | internal/authkeys/authkeys.go:139-145 | a new line is the options with commas between them, a blank, the key, a blank and the comment |
| AuthKeysText.AdditionsText | internal/authkeys/authkeys.go:135-149 | additions leave the old bytes, supply a missing newline, and append the new keys' lines in order |
| AuthKeysText.AdditionText | internal/authkeys/authkeys.go:135-149 | the bytes one addition writes, options and comment included |
| AuthKeysText.AddedLine | internal/authkeys/authkeys.go:147-148 | in memory the new line carries the key, the comment and the options |
| AuthKeysText.AdditionReadsBack | internal/authkeys/authkeys.go:34-149 | if the parser reads such a line as what it says, the re-read file ends in the granted key with these options and this comment |
| AuthKeysText.KeyLinesExactly | internal/authkeys/authkeys.go:42-49 | which lines are offered to the key parser, as they stand: all but blank ones and comments, whatever their indentation |
| AuthKeysText.Indentation | internal/authkeys/authkeys.go:44-45 | every line is space and then a rest that does not begin with space, so that says it of every line |
| AuthKeysText.EditedText | internal/authkeys/authkeys.go:56-149 | the text after any removals and additions |
| Shell.QuoteIsOneWord | internal/remote/remote.go:26-28 | a quoted string before a delimiter is read as exactly that string in one word, the rest untouched |
| Shell.QuoteInjective | internal/remote/remote.go:26-28 | different strings are quoted differently |
| Shell.UsernameExactly | internal/remote/remote.go:30-34 | a user name is letters, digits, dots, underscores and hyphens, no hyphen in front |
| Shell.TokensCompose | internal/remote/remote.go:57-86 | complete texts joined by a blank are read as the two token lists in sequence |
| Shell.RunCommandTokens | internal/remote/remote.go:71-71 | the remote shell receives any script as the one argument of sh -c |
| Shell.DropPrivilegesTokens | internal/remote/remote.go:215-224 | both branches of the privilege drop hand the user's shell the whole script as one word |
| Scripts.SwapScriptReads | internal/remote/remote.go:180-206 | the script that replaces a file is read as its list of words, written out, if and only if the path holds no single quote |
| Scripts.SwapMeant | internal/remote/remote.go:190-204 | the pieces it is put together from mean exactly these words: link tests, directory, temporary file, content, mode, owner, rename |
| Scripts.QuoteEndsMessage | internal/remote/remote.go:192-192 | at a quote that a delimiter follows the message ends, and the rest of the path is read as shell text |
| Scripts.SwapCommandReads | internal/remote/remote.go:180-224 | that script from the client through sh -c and either branch of the privilege drop to the innermost shell: the one word after each -c on the way, and there read as meant exactly for paths without a quote |
| Scripts.FileScriptsRead | internal/remote/remote.go:226-244 | the scripts that store, append and remove are read, for every path, as these words: cat into the path, cat onto its end, rm of it |
| WritePolicy.WritableIsLastTwoDigits | internal/remote/remote.go:311-317 | for every parseable mode the bit test is a test of the last two octal digits |
| WritePolicy.ParsesExactly | internal/remote/remote.go:311-317 | which modes parse: octal digits and, leading zeros aside, at most ten of them, or eleven beginning with 1 to 3 |
| WritePolicy.RootManagedExactly | internal/remote/remote.go:341-341 | a directory counts as root's exactly if it exists, belongs to uid 0, and neither of the last two digits of its octal mode grants write |
| WritePolicy.OwnershipConserved | internal/remote/remote.go:391-431 | a root guard's write leaves an existing file's uid and mode as they were |
| WritePolicy.CreatedBelongsToEntryUser | internal/remote/remote.go:391-431 | a file it creates belongs to the entry user with mode 600 |
| WritePolicy.GroupConservedExactly | internal/remote/remote.go:391-431 | the gid survives exactly if the write is not dropped or it was the user's own |
| WritePolicy.DroppedWriteLosesGroup | internal/remote/remote.go:180-210 | a target whose group a permitted write changes |
| WritePolicy.PrivilegeRule | internal/remote/remote.go:403-430 | root writes itself exactly for its own file or in such a directory, the condition written out; never a drop together with a chown |
| WritePolicy.RefusedExactly | internal/remote/remote.go:337-351 | what the check refuses, all of it and written out: a root guard acting for another user on an existing file of a third, in a directory that is not root's alone to write |
| WritePolicy.MkdirExactly | internal/remote/remote.go:392-398 | the parent directory is made exactly for an absent file |
| WritePolicy.UnprivilegedGuardWritesAsItself | internal/remote/remote.go:400-403 | a non-root guard's writes carry the guard's own ids |
| WritePolicy.RefusedExactlyHandover | internal/remote/remote.go:337-351 | the check refuses exactly the writes that would change an existing file's owner |
| WritePolicy.RestoreRefusesExactly | internal/cli/cli.go:553-562 | exactly which targets the check refuses when it is asked without an entry uid |
| WritePolicy.RestoreRefusesOwnFile | internal/cli/cli.go:553-562 | a target that apply may write and restore refuses |
| Manifest.RoundTrip | internal/tx/guard.go:34-59 | the shell's read loop sees exactly the records the client wrote |
| Manifest.PrefixDecodesToPrefix | internal/tx/guard.go:46-59 | a manifest cut anywhere loses records from the end and invents none |
| Manifest.AppendDecodes | internal/tx/guard.go:34-59 | appending to a whole manifest leaves the earlier records alone |
| Manifest.PartialAppend | internal/tx/tx.go:534-538 | a torn append adds its record only if all of it landed |
| TrapLaws.TrapShell.RestoreAllLoop | internal/tx/guard.go:43-63 | the loop over manifest lines computes the specification function RestoreAll |
| TrapLaws.PathwiseRestore | internal/tx/guard.go:46-59 | what the trap does to one path depends on that path's records alone |
| TrapLaws.Idempotent | internal/tx/guard.go:43-63 | a second run of the trap changes no file |
| TrapLaws.Resumable | internal/tx/guard.go:43-63 | stopped after any number of records and run again, it ends where one full run ends |
| TrapLaws.RefusedExactly | internal/tx/guard.go:47-58 | a path is recorded as refused exactly if a record writes it through a link or a linked directory, or deletes a link |
| TrapLaws.LinkedTargetKept | internal/tx/guard.go:47-58 | whatever the records say, a linked path is neither written nor removed |
| TrapLaws.LinkedDirectoryExactly | internal/tx/guard.go:47-58 | in a linked directory no content is written, but a record of an absent file still deletes |
| World.DirOfJoined | internal/remote/remote.go:288-294 | the directory of a path is what stands before its last component |
| World.LinkedSwapDoesNothing | internal/remote/remote.go:191-193 | a swap of a linked target, or in a linked directory, changes nothing and does not report success |
| World.AliveExactly | internal/tx/tx.go:402-420 | a health check passes exactly if the connection is up, the guard session runs, its trap has not fired and nothing goes wrong meanwhile |
| TxSteps.TrapNode | internal/tx/guard.go:43-63 | over a good log the trap brings every logged original back under the file's present owner and mode |
| TxSteps.GuardEnds | internal/tx/guard.go:64-67 | whenever the guard session ends every target holds its original, and the invariant still holds |
| TxSteps.PerformKeeps | internal/remote/remote.go:57-86 | a command that is harmless however much of it lands keeps the write-ahead invariant under every fate |
| TxSteps.BackupHarmless | internal/tx/tx.go:526-533 | a backup no log record names may be written in whole or in part |
| TxSteps.AppendHarmless | internal/tx/tx.go:534-538 | so may a manifest line, once its backup is complete |
| TxSteps.WriteHarmless | internal/tx/tx.go:588-609 | so may a file, if it is logged, marked, and the moment allows the content |
| TxSteps.UnlinkHarmless | internal/tx/tx.go:1020-1022 | a file that was absent may be deleted at any time |
| TxSteps.StepSwap | internal/remote/remote.go:180-210 | what each reply to a swap means: done, nothing happened, or unknown |
| TxSteps.NoteCleanFailure | internal/tx/tx.go:595-604 | clearing the mark keeps the invariant only by remembering what an earlier mark stood for |
| TxSteps.NoteUnconfirmed | internal/tx/tx.go:605-607 | a lost reply leaves the file marked, and the invariant holds |
| TxSteps.OneMoreTry | internal/tx/tx.go:893-905 | one more connection: a verdict ends the run of tries, none within the bound lengthens it |
| TxSteps.OneMoreKey | internal/tx/tx.go:910-930 | one more key: an acceptance settles the question, a missing verdict is remembered |
| TxSteps.SomebodyIsLetIn | internal/tx/tx.go:910-930 | against an sshd that follows the files, asking for keys a file holds ends in an acceptance |
| Probing.ProbeVerdict | internal/tx/tx.go:893-905 | at most max(1, attempts) connections for one key, exactly that many if none brought a verdict; a verdict is returned at once and never discarded |
| Probing.SomeKeyAccepted | internal/tx/tx.go:910-930 | true exactly if an acceptance was seen, false only if every key was rejected, otherwise no answer and then some key was asked about max(1, attempts) times in vain; never more often than that for any key |
| Probing.VerifyAddition | internal/tx/tx.go:805-838 | success while the guard lives means this key was accepted, signed for if its private half is at hand, with every file at its add-phase content; an sshd that follows the files makes it succeed |
| Probing.VerifyAdditions | internal/tx/tx.go:795-841 | success while the guard lives means every addition is proven |
| Probing.Control | internal/tx/tx.go:700-722 | success while the guard lives means the user was let in with a remaining key, every file being final, or none remains |
| Probing.ControlAll | internal/tx/tx.go:696-722 | one control for every user who loses a key, before any rejection counts |
| Probing.VerifyRemoval | internal/tx/tx.go:724-748 | success while the guard lives means the key was refused after the control, every file being final, or, without key material, is absent from the final document |
| Probing.VerifyRemovals | internal/tx/tx.go:680-750 | success while the guard lives means that of every removal |
| Probing.ProveAccess | internal/tx/tx.go:938-960 | success while the guard lives means every changed file has let its user in with a key it holds, every file being final |
| Loading.RejectSelfCancellingOps | internal/tx/tx.go:283-301 | accepts exactly if no user's added key is matched by that user's removals |
| Loading.Validate | internal/tx/tx.go:260-273 | accepts exactly the requests with operations, valid names, full keys to add and no self-cancelling pair |
| Loading.AcceptedIsCompatible | internal/tx/tx.go:274-301 | an accepted request satisfies what the phase-order theorem asks |
| Loading.AcceptableExactly | internal/tx/tx.go:260-301 | which requests are accepted, written out: an addition and a removal clash only within one user, by key or by fingerprint |
| Loading.LessExactly | internal/tx/tx.go:433-433 | the order of the names is by the first byte that differs |
| Loading.UsersAreSorted | internal/tx/tx.go:425-433 | the users are processed in byte order |
| Loading.SortedUsersOnce | internal/tx/tx.go:425-433 | and each once |
| Loading.PlainTemplateIsShared | internal/tx/tx.go:440-440 | a template without placeholders yields the same path for all users |
| Loading.ExpandsPlaceholder | internal/tx/tx.go:440-440 | %u becomes the user and %h the home directory, and what they bring in is not expanded again |
| Loading.DefaultPath | internal/tx/tx.go:188-190 | without a template, or with the default one, the file is home + "/.ssh/authorized_keys" |
| Loading.LoadableExactly | internal/tx/tx.go:435-473 | for whom a file loads, in terms of account, links, owners, the configured guard user and the directory |
| Loading.WriterExactly | internal/tx/tx.go:576-586 | who writes for a root guard and what the file then looks like: the guard for its configured user and in root's directories, elsewhere the user |
| Loading.PlanIsPlanned | internal/tx/tx.go:482-489 | the plan of a run is what the host held and what the operations make of it |
| Loading.PlanIsDistinct | internal/tx/tx.go:524-526 | separate targets give separate backups, and clean fields in their log records |
| Loading.LoadFile | internal/tx/tx.go:435-486 | a file loads only without links in its way and with the policy's consent, and then exactly as it is; a calm load fails for no other reason |
| Loading.Connect | internal/tx/tx.go:329-398 | success leaves the trap armed and nothing else changed; failure changes no file |
| Loading.Release | internal/tx/tx.go:987-996 | closing an unused guard, removing the directory and hanging up changes no file |
| Loading.FreshIsSane | internal/tx/tx.go:424-494 | every state before the first write satisfies what later states do |
| Loading.FreshIsSteady | internal/tx/tx.go:424-494 | after loading the write-ahead invariant holds with nothing written and nothing logged |
| Tx.UserFile.ApplyAdds | internal/tx/tx.go:771-779 | the loop over one user's additions is AddAll, and reports whether the document changed |
| Tx.UserFile.ApplyRemoves | internal/tx/tx.go:629-645 | the loop over one user's removals is RemoveAll, fills in fingerprint-matched keys, and reports whether the document changed |
| Tx.T.CopyOriginal | internal/tx/tx.go:515-533 | success leaves the original whole in both backups |
| Tx.T.ArmEntry | internal/tx/tx.go:534-540 | the file counts as armed exactly if the append of its manifest line was confirmed; a line that landed unheard leaves it unarmed in the client and harmless in the log |
| Tx.T.Snapshot | internal/tx/tx.go:542-556 | success leaves the intermediate content whole in both snapshots, on the host and on the operator's disk, and no target or log touched |
| Tx.T.EnsureCAS | internal/tx/tx.go:511-560 | success means armed, with no target changed; a file armed before has its two snapshots |
| Tx.T.Swap | internal/tx/tx.go:588-610 | the mark precedes the write; what each reply leaves: new content, mark, doubt, and the one case in which the file is forgotten; exactly one order more on record |
| Tx.T.AfterCleanFailure | internal/tx/tx.go:602-604 | the mark is cleared as written, or with keepDirty falls back to what it was; the file is forgotten exactly if it was marked and the rule is the written one |
| Tx.T.AfterLostReply | internal/tx/tx.go:605-607 | the mark stays and the doubt is noted |
| Tx.T.CheckHealth | internal/tx/tx.go:402-420 | succeeds exactly if the guard is found alive and its trap unfired, and then changes nothing |
| Tx.T.PhaseAddFile | internal/tx/tx.go:760-787 | one file through the add phase: its content is the plan's, every other path as before, its order on record; a failure leaves its replies and the client's memory in accord |
| Tx.T.PhaseAdd | internal/tx/tx.go:753-790 | success means a passed health check and every file through the add phase, no order but its own on record; where nothing fails it succeeds |
| Tx.T.PhaseVerifyAdded | internal/tx/tx.go:795-841 | success while the guard lives means every addition is proven |
| Tx.T.PhaseRemoveFile | internal/tx/tx.go:621-657 | the same through the remove phase, its operations' keys filled in; after a clean failure it still holds its add-phase content |
| Tx.T.EnrichRemovalKeys | internal/tx/tx.go:663-675 | each keyless removal gets the key of the last copy with its user and spec that has one |
| Tx.T.PhaseRemove | internal/tx/tx.go:613-659 | success means every file is final and every operation carries its key; where nothing fails it succeeds |
| Tx.T.PhaseVerifyRemoved | internal/tx/tx.go:680-750 | success while the guard lives means every removal is proven |
| Tx.T.ProveAccess | internal/tx/tx.go:938-960 | success while the guard lives means access is proven for every changed file |
| Tx.T.Commit | internal/tx/tx.go:964-985 | success means final from the marker on, disarmed, access proven, a complete record, and whole copies of exactly the concerned files that existed; any failure leaves a state and a record an abort can start from, the unheard marker included |
| Tx.T.Abort | internal/tx/tx.go:1002-1066 | every outcome delivers what it reports; every marked file was ordered back; if nothing goes wrong meanwhile the revert is verified and the trap disarmed |
| Tx.T.HeldFalls | internal/tx/tx.go:230-246 | from any state before the marker an abort may start, the record in accord with the client's memory |
| Tx.T.Proceed | internal/tx/tx.go:230-251 | phases, then commit or abort; with an sshd that follows the files it commits if nothing failed before it turned back and no changed file is left keyless |
| Tx.T.Run | internal/tx/tx.go:181-252 | for every script: each outcome's promise, every state Sound, a commit all or nothing at every moment; an unacceptable request or host is always refused, anything else only if something failed, and a refusal orders nothing at all; otherwise the record of the commit or of the turning back, over the plan's users, and after a commit whole local copies of exactly the concerned files that existed; if nothing failed before, it turns back exactly if a changed file would be left keyless |
| Ending.SoundIsAtomic | internal/tx/tx.go:230-251 | without forgotten files and unheard markers every state is all or nothing once the guard has ended |
| Ending.StepMark | internal/tx/tx.go:972-973 | the commit marker under every fate: final and disarmed, or a state an abort can start from |
| Ending.MarkCommitted | internal/tx/tx.go:971-974 | success means the marker is known to be there over final files; the marker is lost exactly if it is there and the reply was not success |
| Ending.CleanUp | internal/tx/tx.go:975-985 | the guard is closed and then the directory removed; a late guard, a lost reply or a failed removal no longer matters; a calm cleanup leaves no directory |
| Ending.StepUndo | internal/tx/tx.go:1015-1028 | a revert's write under every fate, with or without an unheard marker: success means the original is back, and originals in place stay |
| Ending.RevertFile | internal/tx/tx.go:1006-1042 | one file: success is a write and a read-back that shows the original |
| Ending.RevertAll | internal/tx/tx.go:1006-1043 | if no revert failed every marked file holds its original |
| Ending.StepDisarm | internal/tx/tx.go:1043-1047 | the marker after a complete revert, under every fate: closing then leaves every file reverted but the forgotten ones |
| Ending.Disarm | internal/tx/tx.go:1043-1049 | disarming may fail: the trap would only restore what is back |
| Ending.CloseCommitted | internal/tx/tx.go:212-251 | after a commit closing the connection changes nothing |
| Ending.CloseReverted | internal/tx/tx.go:1043-1053 | after a verified revert it leaves the originals, but for forgotten files under the marker |
| Ending.CloseUnverified | internal/tx/tx.go:1055-1066 | dropping the connection makes the trap restore everything, unless an unheard marker disarmed it |
| Records.ForgottenExactly | internal/tx/tx.go:593-609 | a file is forgotten if and only if an order to write it was carried out, a later one exited non-zero, and the rule is the written one |
| Records.ForgottenIsOff | internal/tx/tx.go:593-609 | a forgotten file's add-phase content is neither its original nor its final content |
| Records.LostExactly | internal/tx/tx.go:972-973 | the marker was lost if and only if the commit's order for it landed; its reply was then not success |
| Records.HonestAbortExactly | internal/tx/tx.go:1006-1053 | "reverted" is true if and only if it is not so that a file's addition was carried out, a later order for it refused and forgotten, and the abort's marker landed |
| Records.AtomicExactly | internal/tx/tx.go:964-1066 | every state of a run that turned back, crashed at that point, ends all original or all final, if and only if neither that happened nor, under a commit marker that landed unheard, one of at least two changed files was put back |
| Records.FinalUntilUndone | internal/tx/tx.go:1006-1043 | under an unheard marker a file is final until its own revert takes place, and original from then on |
| Records.MixedStates | internal/tx/tx.go:964-1066 | the two mixtures that remain, never both in one run: one file changed by both phases at its add-phase content, or each file original or final |
| Records.OtherFailuresAreHarmless | internal/tx/tx.go:181-252 | if no write exits non-zero and no marker's reply is anything but success, whatever else fails the run is all or nothing and its report true |
| Records.QuietAbortReverts | internal/tx/tx.go:1002-1053 | an abort during which nothing goes wrong reverts, verifies and disarms, whatever made it necessary, if the connection lasted so far |
| Records.CalmAbort | internal/tx/tx.go:181-252 | a run in which nothing failed and a verdict made it turn back has every original back |
| Records.IdleFallWritesNothing | internal/tx/tx.go:593-657 | a run whose operations change no document orders no change, however it ends |
| TxLaws.DiskHolds | internal/tx/tx.go:588-593 | in each of its three states the file on disk has exactly the keys of the working copy |
| TxLaws.DocKeys | internal/tx/tx.go:613-790 | the keys after each phase, in terms of the request alone |
| TxLaws.OpsOfSplits | internal/tx/tx.go:1078-1087 | a user's operations of one kind keep the order of the request |
| TxLaws.OpsOfOne | internal/tx/tx.go:1078-1087 | and only those of this user and this kind are among them |
| TxLaws.OpsInOrder | internal/tx/tx.go:629-779 | each addition brings its key, comment and options, each removal its matcher, in that order |
| TxLaws.CommittedKeys | internal/tx/tx.go:224-251 | the keys in a file after a commit, by the request's own words: what was added, and what it had and no removal names by key or by fingerprint |
| TxLaws.MidText | internal/tx/tx.go:753-787 | the bytes a file holds after the add phase |
| TxLaws.FinText | internal/tx/tx.go:613-657 | the bytes a file holds in the end: the original's lines no removal names, then the new keys' lines |
| TxLaws.EitherOrder | internal/tx/tx.go:224-230 | the final document is the same whichever phase runs first |
| TxLaws.KeysInEveryState | internal/tx/tx.go:224-246 | in every state of every run: until all additions are proven no original key is missing, and never one nobody revoked; no key is there that was neither there before nor granted |
| Records.ProvenIsMidOrFin | internal/tx/tx.go:795-841 | from the moment every addition is proven, until the trap goes off or the run turns back, every file holds what a phase made of it |
| TxLaws.GrantedUntilTurned | internal/tx/tx.go:224-246 | so in each such state of a run that turned back every granted key is on disk |
| TxLaws.GrantedForGood | internal/tx/tx.go:224-251 | and in a run that committed also in every state from its marker on |
| TxLaws.NeverKeyless | internal/tx/tx.go:224-246 | a user with an addition and at least one original key never has a keyless file |
| TxLaws.FirstDeleter | internal/tx/tx.go:629-645 | a key the removals delete is deleted by a first one, which then carries a key |
| TxLaws.FirstLineGivesKey | internal/tx/tx.go:629-645 | a removal without a key gets that of the first line it deletes; otherwise it keeps what it has |
| TxLaws.WriteBackKey | internal/tx/tx.go:663-675 | the write-back changes nothing but the key, and takes one from a copy with the same spec |
| TxLaws.LastCopyWins | internal/tx/tx.go:663-675 | of the copies with the same spec and a key the last one gives its key |
| TxLaws.DeletedKeyIsCarried | internal/tx/tx.go:629-675 | every key deleted from a file ends up in an operation of its user |
| TxLaws.EveryDeletionIsRefused | internal/tx/tx.go:724-748 | so a committed run has seen every deleted key refused, after the user's control |
| TxLaws.RequestIsExpected | internal/tx/tx.go:680-841 | what an sshd that follows the files must answer follows from the accepted request |
| TxLaws.CalmRunIsExpected | internal/tx/tx.go:181-252 | the same for the plan of a loadable host, which closes the last hypothesis of Run's undisturbed case |
| TxLaws.StillWelcome | internal/tx/tx.go:932-960 | under a fixed policy every user whose file changed can log in after a commit |
| TxLaws.RefusalIsAboutTheKey | internal/tx/tx.go:692-722 | a refusal after a control means the key is not in the final file, not that the user is denied |
| TxLaws.OwnerInEveryState | internal/tx/tx.go:576-586 | in every state of every run by a root guard an existing file keeps its owner and mode, and so it does after a crash in that state and the trap |
| TxLaws.CreatedInEveryState | internal/tx/tx.go:576-586 | and a created file belongs to its user with mode 600, a crash and the trap included |
| TxLaws.NothingLeftToDo | internal/tx/tx.go:629-647 | planned on its own result a transaction changes no document |
| TxLaws.SecondRun | internal/tx/tx.go:613-787 | whatever the environment does, a second run with the same request on the first one's result orders no change to any file, and in none of its states, crashed or not, is any target different |
| Pitfalls.ForgottenAddition | internal/tx/tx.go:593-604 | a whole run in which one removal's swap exits non-zero: as written it ends aborted-reverted with that file at its add-phase content; keeping the mark every original is back |
| Pitfalls.UnheardMarkerMixes | internal/tx/tx.go:972-974 | whole runs whose marker lands unheard: for every set of users the files of these, and no others, come back, the trap disarmed; revert-unverified if a changed file stayed |
| Pitfalls.Transact | internal/tx/tx.go:181-252 | in an environment where only orders can fail and sshd follows the files, a welcome request commits unless some order before the abort met with another fate |
| Pitfalls.LateTrapSafeExactly | internal/tx/tx.go:975-980 | a directory removed in any part is safe against a late guard if and only if the marker is still there, or the manifest is gone, or every changed file existed and has lost its backup |
| Pitfalls.SnapshotNamesClash | internal/tx/tx.go:524-545 | for every valid user name the snapshot's name is the backup name of another valid user name |
| Pitfalls.SnapshotSafeExactly | internal/tx/tx.go:545-552 | between two steps, storing a text in the transaction directory as far as it gets leaves every original within the trap's reach if and only if nothing comes of it, or no armed file that existed has its backup under that name with another content |
| Pitfalls.SafeHoweverFarExactly | internal/tx/tx.go:545-552 | it is safe however far it gets if and only if no armed file that existed has its backup under that name |
| Pitfalls.NamesApartExactly | internal/tx/tx.go:511-556 | after the add phase the snapshots of the remove phase can do no harm if and only if no name of an armed existing user is that of a snapshotted one with the snapshots' ending |
| Pitfalls.ClashingSnapshot | internal/tx/tx.go:545-552 | a run in which nothing fails reaches, after a complete and verified add phase, a state in which the trap gives one user another user's file; before the snapshot it would have restored everything, after it exactly if the two contents are the same |
| Instances.SomeHostAdmits | internal/tx/tx.go:181-252 | for every list of different valid names some host admits a request that changes each of their files twice, and lets it through if and only if no name is another one with the snapshots' ending |
| Restore.RestoreOne | internal/cli/cli.go:513-573 | success means the entry holds what its backup says, or is absent if it was, and only this path changed; a restored file has the recorded mode, a root guard leaves its owner and group, and one it creates belongs to its user unless the directory is root's |
| Restore.Restore | internal/cli/cli.go:513-574 | stops at the first failure: entries before it are restored, attributes included, entries after it untouched; it gets past an entry only if that could be restored, and where nothing fails it finishes exactly if all could |
| Records.WholeExactly | internal/tx/tx.go:519-523 | a run's copy of an original is there exactly if a write of it left something, and whole exactly if the last such write was not cut short |
| Restore.RestoreUndoes | internal/cli/cli.go:513-574 | finished on a transaction's own list it has put every original back if and only if no last write of a copy was cut short |
| Restore.RestoreOfRun | internal/cli/cli.go:513-574 | after a run that wrote, whatever its outcome: every file left changed that restore gets to is put back, and every existing one has the mode it had; it gets past no existing file the operations do not concern; if it finishes, the run is undone exactly if no copy was cut short, and after a commit none was; after a commit, where nothing fails, it finishes exactly if every existing file is concerned, passes links and policy and has a user to write as |
| Restore.TornBackupIsWanted | internal/tx/tx.go:519-523 | a local write cut short leaves a backup that restore would install |
| Restore.OwnFileIsNotRestorable | internal/cli/cli.go:553-562 | a user's own file in the user's own directory is refused |

## Left out

- SSH itself: dialing, key exchange, agent, known_hosts, the keepalive watchdog; a dead connection and a timeout are
  fates of the next call. A probe keeps only its three-valued result and whether it signed or only asked.
- Time: attempts are counted, the waits between them are not.
- The key-line grammar, base64, fingerprints and JSON are arbitrary functions.
- Real shells, `mktemp`, `stat`, `runuser`: each helper is its effect on the modelled host. The lexer leaves expansions
  as they are written, has no comments, and reads operators of several characters one by one.
- Making the transaction directory, a missing parent directory or the local directories has no state of its own; an
  attribute value that `SwapFile` refuses before running anything is a lost reply without effect.
- `dirname` in the trap and `dirOf` in the client are one function here; they differ only on paths with doubled or
  trailing slashes.
- Space is ASCII space: `TrimSpace` also trims Unicode spaces around a comment line.
- The step log, the transaction id and the printed plan of a dry run.
- A directory removal is atomic in `Run`; the partial one is `Pitfalls.LateTrapSafeExactly` alone.
- What `restore` checks of `meta.json` before it connects (host, user names, path shapes), and its own dry run.
- Somebody else editing the same files, a reboot, `kill -9` of the guard, a trap that is itself cut off inside one
  `cat`: sshkeytx does not claim to survive them.
- Loading.Connect: a failed start also closes the guard, which then is not there.
- Tx.T.Run: verdicts come from the script; that they follow the files is a hypothesis (`Answers`, `Obeys`) of the
  clauses that need it.
