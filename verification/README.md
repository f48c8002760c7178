# Verified model of the Standard Stack controller and the protocols around it

This project models, in Dafny, the parts of the repository whose correctness cannot be read off one
function, and proves what they promise.

- **The stack controller** (`Manifests`, `State`, `Store`, `Cluster`, `Ticks`, `Runs`, `Reconcile`). A
  controller with a rewritable Secret for its memory installs, upgrades, falls back, disables and purges a
  backend. The class `Reconcile.Controller` keeps the source's fields and takes its steps. Every effect may
  fail, having happened or not, and a step that returns `!ok` also stands for the process dying there, so
  each contract speaks about every crash point. Each tick leaves one entry in an append-only log: what it
  found, worked from, rendered, applied, deleted, saved, reported and left (`Ticks.TickOk` is what
  holds of every entry). `Runs` proves theorems about any number of entries, and `Reconcile.Controller.Run`
  is the theorem about whole runs: ticks, restarts, other actors in the cluster, and somebody rewriting
  the Secrets. A run with rewrites falls into runs without, and `Run` starts from any valid state.
- **Handing tokens to scpd** (`Wiring`): mint, hand over, and only then revoke, with answers that get lost.
- **The fingerprint** (`Fingerprints`): unique readability of the canonical JSON.
- **The DER encoder** (`Der`): a strict reader that is its inverse in both directions.
- **The estate emitter** (`Estate`, `EstateCalls`, `EstateProgram`): what each call says, and that the
  interpreter and the generated program make the same ones.
- **Paging, idempotency keys, checksum manifests** (`Pagination`, `Idempotency`, `Checksums`).

`sha256` is a free constructor or a function without collisions between the values compared. What the
chart comes out as, each time a tick renders it, which CRDs come to be established and which workloads
are ready are inputs of the tick (`Ticks.Tick`), so that what is rendered, applied, deleted and promoted is
said in their terms; every network answer is arbitrary.

What the theorems about the controller rest on:

- Where applied and deleted objects come from (`Ticks.Effects`), and where the digests handed to scpd come
  from (`Runs.ReportsSourced`): nothing. They hold whoever rewrites the Secrets.
- Remembered failures and purge generations: only that nobody rewrote the Secrets in between. The invariant
  is `State.Faithful`, which ticks that trust nothing keep too.
- Holds: besides, that the last good record is trusted at each tick. One that is not is dropped, and the
  hold with it.
- Known data (`Runs.DataKept`): besides, that inventories were trusted and renders named core objects at `v1`.
- What is in the cluster (`Reconcile.Controller.Valid`, ghost field `sound`): that every load was fully
  trusted since the start. Every object of the backend that can be pruned is then listed, or is one of the
  `orphans` a promotion left behind when its prune was cut short (apps/stackd/src/reconcile.ts:807-808
  says nothing lists those). In no other tick do orphans appear, wherever it ends.
- Trust itself (`Runs.TrustKept`, `Runs.AnsweredVerified`): ticks that are answered, meaning that the load
  succeeded, no save happened behind an error and the closing report reached scpd, pass trust on; one that
  stores anything earns it anew. After a refused load a promotion puts the state in order again: data
  known then is kept from there on (`Runs.RunRecovers`), and nothing but what was out of sight then is so
  later (`Reconcile.Controller.RunOn`).

## Where the code promises more than it keeps

- apps/stackd/src/reconcile.ts:567 says a crash after that save still knows what exists. The state does,
  but scpd has not heard of it: the next tick trusts the saved inventory exactly when the one before listed
  no key twice and had, for every key the attempt names, the reference that wins
  (`State.CrashedAttemptTrusted`); otherwise it works from the render alone.
- apps/stackd/src/state.ts:20-21 says a mismatch on read-back is refused. The digests cover the two lists
  and the last good set's hash, nothing else (`State.TrustedAlike`). A rewrite that keeps them cannot change
  what is known to be owned or which set is restored (`State.RewriteKeeps`), but it can set the purge
  generation, the remembered failure and the rest of the last good record at will
  (`State.RewriteUnnoticed`): some rewrite has a disabled backend's data purged again
  (`Ticks.RewritePurgesAgain`), and whatever was held or remembered, some rewrite has it attempted
  (`State.RewriteForcesAttempt`).
- apps/stackd/src/reconcile.ts:518 says a failed set waits for a change or a request. Its failure is also
  forgotten when another set fails, another is promoted, or the backend is disabled (`Ticks.FailureStays`),
  and then it is applied again.
- A refused inventory is replaced by the render's references (apps/stackd/src/reconcile.ts:432-449). Data
  the release no longer renders is then forgotten, not deleted: it is kept exactly when the
  inventory is trusted or the render names it (`State.EffectiveKeepsData`).
- Gitea's account is read once for the comparison (apps/stackd/src/wiring.ts:551) and once for minting
  (apps/stackd/src/wiring.ts:679). If the two differ, a hand-off can repeat what scpd already records, and
  the token scpd uses is revoked (`Wiring.RepeatedHandOffLosesToken`). An errored hand-off is safe to
  remember exactly when it does not repeat the record (`Wiring.ErroredHandOffIsSafe`).
- `oid` writes the first two arcs into one octet: identifiers from 2.48 on do not read back
  (`Der.OidReads`). `time` is right exactly for the years 1950 to 9999 (`Der.TimeReads`).
- The loser of an idempotency race re-reads the winner's row and replays it
  (apps/server/src/idempotency.ts:76-88). Were that to succeed and commit, the request would be applied
  twice (`Idempotency.AppliedOnce`, `Idempotency.LoserCouldCommit`); it is not, because the database
  refuses statements after a violated insert (`Idempotency.AbortedLosersApplyNothing`).

## Model

| member | source | states |
|---|---|---|
| Manifests.RefKeyIdentifies | apps/stackd/src/manifests.ts:64-67 | the text key is equal exactly for references with the same group, kind, namespace and name |
| Manifests.InventoryLineIdentifies | apps/stackd/src/state.ts:180-188 | the digest's lines are equal exactly for equal references, API version included |
| Manifests.CrdByKey | apps/stackd/src/manifests.ts:69-70 | being a CRD is decided by group and kind alone |
| Manifests.PrunableByKey | apps/stackd/src/reconcile.ts:252-269 | what a prune or a purge may delete depends only on an object's key, once core references carry v1 |
| Manifests.StampAllKeeps | apps/stackd/src/manifests.ts:74-88 | stamping keeps every object's reference, body and other labels, and adds the two labels and the release |
| Manifests.OursAlone | apps/stackd/src/manifests.ts:90-93 | what is stamped for a backend is that backend's only, and only while it carries both labels |
| Manifests.AdmissibleMeans | apps/stackd/src/manifests.ts:165-186 | a reference is admissible exactly when the first listed kind of its group and name allows it where it is |
| Manifests.PruneSpares | apps/stackd/src/reconcile.ts:252-269 | no prune touches CRDs, Namespaces or other namespaces; volumes and generate-once Secrets go only in a purge |
| Manifests.RemovedRefs | apps/stackd/src/manifests.ts:112-115 | keeps exactly the references whose key the second list lacks |
| Manifests.MergedKeepsLast | apps/stackd/src/manifests.ts:117-121 | the last reference with a key wins a merge |
| Manifests.UnionKeys | apps/stackd/src/manifests.ts:117-121 | a merge has the keys of both lists, each once |
| Manifests.UnionRefsOf | apps/stackd/src/manifests.ts:117-121 | the loop over a Map computes that merge |
| State.StampedAccepted | apps/stackd/src/reconcile.ts:185-188 | a stamped render in the backend's kinds and namespace carries its labels, and stamping again changes nothing |
| State.RestorableOurs | apps/stackd/src/reconcile.ts:617-623 | whatever the stored copy says, what a fall back applies carries the backend's labels and is one of its kinds |
| State.RestampedKeeps | apps/stackd/src/reconcile.ts:617-623 | a restored set is the stored one object by object, stamped with its own release |
| State.WithInventoryOk | apps/stackd/src/reconcile.ts:563-567 | saving an attempt's inventory keeps the state's invariants and adds exactly the attempt's keys |
| State.FellBackOk | apps/stackd/src/reconcile.ts:641-652 | falling back: last good set in the inventory, inventory and retained disjoint, no data of the attempt forgotten |
| State.FailedOk | apps/stackd/src/reconcile.ts:595-628 | remembering a failure alone keeps the invariants and everything known |
| State.PromotedOk | apps/stackd/src/reconcile.ts:790-806 | promoting from any well formed state: in order again, inventory and retained disjoint, retained is exactly the other data known, no data forgotten, purge generation never smaller |
| State.RemovedOk | apps/stackd/src/reconcile.ts:718-723 | disabling forgets everything but the data, and all of the data is kept |
| State.TrustedIsRecorded | apps/stackd/src/reconcile.ts:358-381 | once scpd has a record, a state is trusted exactly when it has the recorded digests |
| State.TrustByHalves | apps/stackd/src/reconcile.ts:358-381 | inventory and last good record are each judged by their own digest |
| State.EffectiveParts | apps/stackd/src/reconcile.ts:432-449 | what is trusted or not covered by a digest stays; a refused inventory is the render's, its data retained |
| State.EffectiveKeepsData | apps/stackd/src/reconcile.ts:432-449 | a tick starts from all stored data exactly when the inventory is trusted or the render names it |
| State.CrashedAttemptTrusted | apps/stackd/src/reconcile.ts:563-567 | after a crash behind this save the next tick trusts the inventory exactly when no key was listed twice and each key the attempt names was listed with the reference that wins |
| State.TrustedAlike | apps/stackd/src/reconcile.ts:358-381 | two states are trusted alike against every record exactly when they share their digests |
| State.RewriteKeeps | apps/stackd/src/state.ts:20-21 | a rewrite that keeps the digests keeps what is owned and the objects a fall back restores |
| State.RewriteForcesAttempt | apps/stackd/src/state.ts:20-21 | for every state and tick some rewrite that keeps the digests has the set attempted |
| State.SameFingerprint | apps/stackd/src/reconcile.ts:469-474 | a set with the last good fingerprint is of its release and adds nothing to the inventory |
| State.NewReleaseNeedsUpgrade | apps/stackd/src/reconcile.ts:493-500 | under manual updates another release is held exactly while the upgrade generation has not passed the stored one |
| State.FailureNotRetried | apps/stackd/src/reconcile.ts:518-525 | a remembered failure is never steady, and attempted only once the upgrade generation passes it |
| Store.SplitCount | apps/stackd/src/state.ts:126-127 | the number of cells computed is the number of pieces |
| Store.SplitAt | apps/stackd/src/state.ts:128-129 | the i-th piece is the clipped subarray at i times the cell size |
| Store.StoredReadsBack | apps/stackd/src/state.ts:120-163 | cells holding the pieces join to the stored bytes, for every length and cell size |
| Store.StateStore.SaveLastGood | apps/stackd/src/state.ts:120-141 | on success the cells hold exactly the new set and none of the old tail; cut short, every cell is an old one or a new piece |
| Store.StateStore.DeletePast | apps/stackd/src/state.ts:136-138 | removes every cell past the new count and touches none before |
| Store.StateStore.LoadLastGood | apps/stackd/src/state.ts:143-163 | reads a set exactly when every cell is there and the bytes decode, with the hash of what was read |
| Store.StateStore.DropLastGood | apps/stackd/src/state.ts:165-170 | on success no cell of the set is left; nothing else is touched |
| Cluster.CrdsLead | apps/stackd/src/reconcile.ts:208-238 | in the order of application nothing precedes a CRD but CRDs, and no other object a Namespace |
| Cluster.PutAllAdds | apps/stackd/src/reconcile.ts:210-238 | applying adds exactly the set's keys, each holding one of its objects, and changes nothing else |
| Cluster.PrunedTracked | apps/stackd/src/reconcile.ts:273-292 | once nothing prunable of the references is live, only what was to be left is tracked |
| Cluster.PromotedTracked | apps/stackd/src/reconcile.ts:807-810 | what a promotion stops listing is exactly what it is about to prune |
| Cluster.FellBackTracked | apps/stackd/src/reconcile.ts:641-652 | after the prune of a fall back the state about to be stored lists all that is left |
| Cluster.RemovedTracked | apps/stackd/src/reconcile.ts:702-723 | with the workloads gone only the data is left |
| Cluster.PurgedTracked | apps/stackd/src/reconcile.ts:728-745 | with the retained data gone nothing of the backend is left |
| Ticks.MovesFaithful | apps/stackd/src/reconcile.ts:383-668 | every state a tick can store, whatever it trusted, names its last good set rightly and remembers no failure of that set |
| Ticks.FailureStays | apps/stackd/src/reconcile.ts:518-553 | a tick forgets a remembered failure exactly when another set's failure replaces it, the backend is disabled, or a set is promoted |
| Ticks.PromotedAfterAll | apps/stackd/src/reconcile.ts:543-552 | the failed set itself is promoted only as a first install that came up after all, or on a later upgrade request |
| Ticks.TickSettles | apps/stackd/src/reconcile.ts:465-652 | after a finished enabled tick its set is the last good one, remembered as failed at its generation, or held back |
| Ticks.FailureRemembered | apps/stackd/src/reconcile.ts:579-652 | an attempt ends promoted, or remembered as failed with this fingerprint, release and generation |
| Ticks.SteadyTick | apps/stackd/src/reconcile.ts:469-491 | the last good set rendered again changes nothing stored but a spent purge, and applies nothing but itself |
| Ticks.RenderKeeps | apps/stackd/src/reconcile.ts:173-190 | a render is the chart's output object by object, with labels and release |
| Ticks.AppliesUntouched | apps/stackd/src/reconcile.ts:555-652 | whatever the Secrets hold, an applied object is as this tick's chart or the hash-recorded set has it |
| Ticks.HeldTick | apps/stackd/src/reconcile.ts:493-500 | under a hold another release applies and deletes nothing, and the release stays |
| Ticks.PurgeSpent | apps/stackd/src/reconcile.ts:457-462 | an enabled tick leaves its purge generation recorded exactly when it was already or the tick stored anything, which it has once it rendered |
| Ticks.PromotionRestores | apps/stackd/src/reconcile.ts:784-806 | a promotion puts the state in order from whatever was loaded, keeping the data it worked from |
| Ticks.TickKeeps | apps/stackd/src/reconcile.ts:383-668 | a tick that ends anywhere forgets none of the data it works from but by a recorded purge |
| Ticks.TurnedOff | apps/stackd/src/reconcile.ts:718-745 | a disabled backend ends with its data known and nothing else, after a due purge with nothing |
| Ticks.RewritePurgesAgain | apps/stackd/src/state.ts:20-21 | for every state and purge request some rewrite that keeps the digests has the disabled backend purged |
| Runs.RunHoldsFailures | apps/stackd/src/reconcile.ts:518-553 | over any run: a set whose failure is remembered at some generation is not applied at that one or below, unless the failure was forgotten in between |
| Runs.RunSticksToFailures | apps/stackd/src/reconcile.ts:518-652 | over any run: a set that came to nothing is not applied again at its generation or below, unless the failure was forgotten in between |
| Runs.RunKeepsHolds | apps/stackd/src/reconcile.ts:493-500 | over any run: while no upgrade is asked for, no tick of another release touches anything and the release stays |
| Runs.RunPurgesOnce | apps/stackd/src/reconcile.ts:457-462 | over any run: a purge generation recorded, or asked of an enabled backend that stored or rendered, never deletes data later |
| Runs.NothingPurged | apps/stackd/src/reconcile.ts:728-745 | over any run: no data is deleted when no purge past the recorded generation is asked for |
| Runs.RunKeepsData | apps/stackd/src/reconcile.ts:383-745 | from any tick on, data known stays known over ticks that trust their inventory and record no purge |
| Runs.RunKeepsTrust | apps/stackd/src/reconcile.ts:395-412 | answered ticks hand trust on; one that stores anything earns it |
| Runs.RunRecovers | apps/stackd/src/reconcile.ts:784-806 | after any refused load, an answered promotion restores order, and data known then is kept over answered ticks until a purge |
| Runs.AnsweredVerified | apps/stackd/src/reconcile.ts:395-412 | in a run of answered ticks every load is trusted |
| Runs.OrphansThroughout | apps/stackd/src/reconcile.ts:807-810 | nothing falls out of sight but in a tick cut short behind its stored promotion |
| Runs.RunReportsSourced | apps/stackd/src/reconcile.ts:398-412 | over any run, rewritten Secrets included: every report hands scpd digests the run started with, of a state saved before, or of one taken while there was no record; none erases the record |
| Reconcile.Controller.Render | apps/stackd/src/reconcile.ts:173-190 | passes exactly when the output is not empty and all admissible; each object keeps the chart's reference, body and labels |
| Reconcile.Controller.ApplyManifestSet | apps/stackd/src/reconcile.ts:208-238 | success puts the whole set in the order proved; cut short, a prefix of that order; nothing behind its CRDs unless they are established |
| Reconcile.Controller.PruneRemoved | apps/stackd/src/reconcile.ts:273-292 | deletes only listed, labelled, prunable objects; success leaves none of them live |
| Reconcile.Controller.AwaitGone | apps/stackd/src/reconcile.ts:294-309 | reports gone only when no prunable reference is there with the backend's labels |
| Reconcile.Controller.Verify | apps/stackd/src/reconcile.ts:398-407 | the memory after a load: the state's digests only if it is fully trusted, else what was remembered or scpd's own record |
| Reconcile.Controller.LoadVerified | apps/stackd/src/reconcile.ts:395-449 | a tick starts from the loaded state as far as it is trusted; a refused inventory is what the chart comes out as then, or the tick fails |
| Reconcile.Controller.SaveState | apps/stackd/src/reconcile.ts:408-412 | digests become those of what was stored only when the save is known to have happened |
| Reconcile.Controller.Promote | apps/stackd/src/reconcile.ts:772-812 | only a set found healthy; the state stored is the old one or the promoted one behind its set and no older cells; pruning and orphans only behind the promoted one |
| Reconcile.Controller.RecordedSet | apps/stackd/src/reconcile.ts:610-623 | a fall back set is restored exactly when the cells hold the recorded bytes and every object is admissible |
| Reconcile.Controller.FallBack | apps/stackd/src/reconcile.ts:605-652 | restores exactly the recorded set, leaving that set, data, CRDs and Namespaces; or applies nothing, which it does exactly when the cells are not intact, short of a failed read |
| Reconcile.Controller.RemoveWorkloads | apps/stackd/src/reconcile.ts:700-727 | the forgetting state is stored only after every prunable object and the last good cells are gone |
| Reconcile.Controller.PurgeData | apps/stackd/src/reconcile.ts:729-745 | the purge generation is recorded only after the data is gone, trusted load or not, and only then is data forgotten |
| Reconcile.Controller.Disable | apps/stackd/src/reconcile.ts:671-745 | the state of every end; data is deleted only for a generation not yet recorded |
| Reconcile.Controller.StartAttempt | apps/stackd/src/reconcile.ts:555-571 | the attempt's inventory is stored before anything is applied |
| Reconcile.Controller.Attempt | apps/stackd/src/reconcile.ts:555-668 | ends promoted with the set in place, or failed or rolled back with the whole state of each end, and only if not ready or an error came between; cut short, what can be stored and how orphans are bounded |
| Reconcile.Controller.KeepSteady | apps/stackd/src/reconcile.ts:469-491 | re-applies on the resync cadence only, and then the set is in place and the cadence starts again |
| Reconcile.Controller.Act | apps/stackd/src/reconcile.ts:469-668 | the branch taken, what each may store, apply and delete, how it ends, and orphans at every end |
| Reconcile.Controller.SpendPurge | apps/stackd/src/reconcile.ts:457-462 | a purge generation overtaken by an enabled tick is spent without deleting |
| Reconcile.Controller.ReconcileBackend | apps/stackd/src/reconcile.ts:383-668 | whatever the Secrets hold and wherever it stops: the start state, every state stored, applied objects from this tick's chart or hash-recorded, deletions named by it or by a trusted inventory, held and failed sets apply nothing, orphans, purges and endings |
| Reconcile.Controller.RunTick | apps/stackd/src/reconcile.ts:831-898 | all of that for a tick with its report, as one log entry that accounts for every change to cluster, store, record and memory and for the digests of every report; holds and failures while records are faithful; spent purges stored; agreement after an answered tick |
| Reconcile.Controller.Report | apps/stackd/src/reconcile.ts:874-893 | a failed tick hands back the remembered digests, or the record it came with; a process that died sends nothing |
| Reconcile.Controller.Run | apps/stackd/src/reconcile.ts:831-898 | over every run: the log accounts for every tick, only own objects are touched, no rewritten state's digests are ever reported or recorded; without rewrites failures, holds, purge generations, data, trust and tracking are kept as the rows of `Runs` say |
| Reconcile.Controller.RunOn | apps/stackd/src/reconcile.ts:784-810 | from any state in order that scpd agrees with, answered ticks lose no data until a purge, and what was in sight stays in sight unless a tick is cut short behind its stored promotion |
| Wiring.SteadyReadsNeverRepeat | apps/stackd/src/wiring.ts:652-673 | with one account read twice nothing is minted for what scpd already records |
| Wiring.ErroredHandOffIsSafe | apps/stackd/src/wiring.ts:697-706 | remembering an errored hand-off is safe, stored or not, exactly when it does not repeat scpd's record |
| Wiring.RepeatedHandOffLosesToken | apps/stackd/src/wiring.ts:660-682 | a repeated hand-off that was not stored makes the next step revoke the live token |
| Wiring.Wires.RevokeOthers | apps/stackd/src/wiring.ts:402-499 | deletes exactly the account's other tokens, never a Gitea admin's own; cut short, some of them |
| Wiring.Wires.Confirm | apps/stackd/src/wiring.ts:658-671 | a hand-off scpd turns out to hold has its older tokens revoked then, once |
| Wiring.Wires.HandOver | apps/stackd/src/wiring.ts:674-709 | nothing is revoked unless the hand-off was acknowledged; an errored one is remembered |
| Wiring.Wires.WireBackend | apps/stackd/src/wiring.ts:633-719 | success means scpd holds what was read at the generation asked for or a later one, behind an open policy for exactly that endpoint; nothing is minted for what it has; no older token stays behind a confirmed hand-off |
| Wiring.Wires.UnwireBackend | apps/stackd/src/wiring.ts:726-785 | scpd forgets before the network closes and before any token goes; then the account's tokens go unless the backend fails to |
| Wiring.Wires.Run | apps/stackd/src/wiring.ts:611-785 | over every run: a wiring scpd holds has its egress policy, its token was never revoked, an admin's own tokens never are, and a rotation once reached is kept |
| Fingerprints.JsLePair | apps/stackd/src/manifests.ts:99-101 | the comparison of member names is total and antisymmetric |
| Fingerprints.PrintThen | apps/stackd/src/manifests.ts:96-102 | the text built piecewise is the text printed |
| Fingerprints.TextReads | apps/stackd/src/manifests.ts:96-102 | a printed document is told apart from whatever follows it |
| Fingerprints.NormalMeans | apps/stackd/src/manifests.ts:99-101 | dropping undefined members and sorting changes nothing a document means |
| Fingerprints.NormalFixed | apps/stackd/src/manifests.ts:95-103 | a sorted document is fixed by what it means |
| Fingerprints.CanonicalIsMeaning | apps/stackd/src/manifests.ts:95-103 | two documents have one canonical text exactly when they differ only in member order and undefined members |
| Fingerprints.AscendingUnique | apps/stackd/src/manifests.ts:106-108 | order and content fix a list with distinct keys |
| Fingerprints.FingerprintIsContent | apps/stackd/src/manifests.ts:105-109 | equal fingerprints mean equal contents; without repeated references equal contents have one fingerprint |
| Fingerprints.OneFingerprint | apps/stackd/src/manifests.ts:105-109 | a set in which no group, kind, namespace and name occur twice has one fingerprint exactly for one content, however listed |
| Der.Len | apps/stackd/src/tls.ts:20-25 | the loop writes the definite length octets of section 8.1.3 of X.690 |
| Der.LengthReads | apps/stackd/src/tls.ts:20-25 | a strict reader gets the length back, whatever follows |
| Der.LengthUnique | apps/stackd/src/tls.ts:20-25 | the form written is the only, hence shortest, one a strict reader takes (section 10.1) |
| Der.EncodeReads | apps/stackd/src/tls.ts:27-31 | reading an encoding followed by anything returns the tree and exactly the rest |
| Der.ReadEncodes | apps/stackd/src/tls.ts:27-31 | whatever the reader accepts is the encoding of the tree it returns |
| Der.IntegerBody | apps/stackd/src/tls.ts:38-43 | minimal two's-complement octets with the magnitude's value |
| Der.MinimalUnique | apps/stackd/src/tls.ts:38-43 | those octets are the only minimal ones (section 8.3) |
| Der.SerialAsIs | apps/stackd/src/tls.ts:92-93 | the serial is positive, written in exactly its octets, and keeps all random bits but two |
| Der.Oid | apps/stackd/src/tls.ts:45-55 | the loops write one octet for the first two arcs and base-128 groups for the others |
| Der.GroupsUnique | apps/stackd/src/tls.ts:48-53 | the groups are the only ones without padding (section 8.19.2) |
| Der.OidReads | apps/stackd/src/tls.ts:45-55 | an object identifier reads back exactly when 40a+b is below 128 |
| Der.TimeReads | apps/stackd/src/tls.ts:57-65 | a time reads back to the second exactly for the years 1950 to 9999 (section 4.1.2.5 of RFC 5280) |
| Estate.BuildEstateManifest | packages/coordination-as-code/src/estate-program.ts:167-211 | makes the specified calls in order and counts the pipelines without a source |
| Estate.CamelShape | packages/coordination-as-code/src/products.ts:27-39 | a generated name is letters and digits and begins with no capital |
| Estate.CamelLetters | packages/coordination-as-code/src/products.ts:27-39 | a name has exactly the input's letters and digits in order, case aside |
| Estate.CamelScans | packages/coordination-as-code/src/products.ts:27-39 | read left to right, each word after the first begins with a capital and all else is small |
| EstateCalls.CallsSay | packages/coordination-as-code/src/estate-program.ts:167-211 | every call by its position: stack, service, and for each component its creation, placements and pipelines with exactly the given properties |
| EstateCalls.PlaceholderSays | packages/coordination-as-code/src/estate-program.ts:99-106 | a missing repository's placeholder: marker, the name's letters and digits with single dashes, the kind |
| EstateProgram.RenderEstateProgram | packages/coordination-as-code/src/estate-program.ts:284-402 | writes the specified statements and imports, and counts the same placeholders as the interpreter on every spec |
| EstateProgram.PipelineEval | packages/coordination-as-code/src/estate-program.ts:351-377 | a pipeline's written properties evaluate to those the interpreter sets, in another order |
| EstateProgram.WaveEval | packages/coordination-as-code/src/estate-program.ts:251-282 | a written wave evaluates to the wave, its targets by URN |
| EstateProgram.ComponentRuns | packages/coordination-as-code/src/estate-program.ts:306-380 | only its name can keep a component's statements from running; they make its calls |
| EstateProgram.RenderedRuns | packages/coordination-as-code/src/estate-program.ts:284-402 | the program runs exactly when the names are distinct, legal and not its own three; all it uses is imported |
| EstateProgram.DistinctIdsRun | packages/coordination-as-code/src/estate-program.ts:284-402 | construct ids that differ in letters and digits, and spell none of the three own names, give a program that runs and makes the calls |
| EstateProgram.ProgramAgrees | packages/coordination-as-code/src/estate-program.ts:167-402 | it makes the interpreter's calls exactly when, besides, every pipeline has a source |
| Pagination.PageIsPrefix | apps/server/src/graph/objects-repo.ts:545-561 | a page is in order of stored millisecond and id, within the limit, after its cursor, and leaves out nothing up to where it ends |
| Pagination.CollectAll | packages/cli/src/estate-reader.ts:22-34 | ends; every row once and in order; rows present throughout never skipped while others come and go; the sorted table when nothing changes |
| Idempotency.StepKeeps | apps/server/src/idempotency.ts:36-104 | every move keeps one holder or one row, and rows never change |
| Idempotency.OneOutcome | apps/server/src/idempotency.ts:36-104 | in every interleaving at most one row, every success carries its reply, and all that succeed asked the same |
| Idempotency.RetryReplays | apps/server/src/idempotency.ts:62-75 | a later request with the key gets the stored reply and runs nothing if it asks the same, else is refused |
| Idempotency.FirstApplies | apps/server/src/idempotency.ts:36-104 | a first request's answer is stored and returned; a failing handler leaves nothing |
| Idempotency.AppliedOnce | apps/server/src/idempotency.ts:62-90 | effects are committed twice exactly when a loser of the race commits |
| Idempotency.AbortedLosersApplyNothing | apps/server/src/idempotency.ts:76-88 | nothing is applied twice when statements after the violated insert are refused |
| Idempotency.LoserCouldCommit | apps/server/src/idempotency.ts:76-88 | two concurrent requests would both apply were the re-read to go through |
| Checksums.FormatReadsBack | deploy/airgap/src/checksums.ts:61-82 | a manifest reads back exactly when digests are 64 hex digits and paths single non-empty lines |
| Checksums.LineReads | deploy/airgap/src/checksums.ts:66-82 | a line of 64 hex digits, two spaces and a path is read as that digest and path |
| Checksums.RefusedFor | deploy/airgap/src/checksums.ts:66-82 | a text is refused exactly for a line neither blank nor of that form |
| Checksums.ComputeChecksums | deploy/airgap/src/checksums.ts:47-59 | an entry for every file but the manifest and its signature |
| Checksums.VerifyChecksums | deploy/airgap/src/checksums.ts:92-139 | every report is true, every difference reported, and none exactly when all is clean |
| Checksums.CleanIsSame | deploy/airgap/src/checksums.ts:47-139 | clean against a tree's entries exactly when the trees are the same apart from the two files |
| Checksums.ManifestDecides | deploy/airgap/src/checksums.ts:47-139 | the same through the manifest's text |

## Left out

- Reconcile.Controller.Run: one backend; two backends share only the report body, in which each has its own entry.
- Reconcile.Controller.CheckReadiness: readiness (apps/stackd/src/readiness.ts) is an input of the tick, one answer for each set asked about; how a workload's status is judged is not modelled.
- Reconcile.Controller.Attempt: the hooks that wire and unwire a backend (apps/stackd/src/reconcile.ts:476-479, 685-699, 813-815) are modelled in `Wiring`, not called from here.
- Reconcile.Controller.Settle: an object being deleted may vanish while the controller waits and between ticks, not between two other calls of one tick.
- Cluster.PutAllAdds: an apply replaces the object; fields other managers own are not merged.
- Manifests.RefKeyIdentifies: kinds and namespaces without '/', as Kubernetes names are; the controller then works with keys instead of their text.
- Manifests.InventoryLineIdentifies: parts without '|'; the digest itself is the multisets of references it hashes.
- Store.StateStore.LoadLastGood: JSON, gzip and base64 are a pair of inverse functions; a malformed state.json is not modelled.
- Fingerprints.CanonicalIsMeaning: numbers that print as null, undefined inside arrays and strings with unpaired surrogates are outside the document type.
- Fingerprints.FingerprintIsContent: the order localeCompare gives is a parameter; the hash is taken to have no collisions.
- Wiring.Wires.Run: a hand-off that ended in an error is stored or not by the time the next step reads scpd's record; random token suffixes never repeat.
- Wiring.Wires.WireBackend: Argo Workflows and Argo Events, whose tokens the controller does not mint; rotating Argo Workflows deletes its token before the hand-off (apps/stackd/src/wiring.ts:602), so the token property would not hold there.
- Der.EncodeReads: trees with single-octet tags; the assembly of the certificate's fields and its signature are not modelled.
- Der.OidReads: arcs as numbers; splitting the dotted text is not modelled.
- EstateProgram.ProgramAgrees: statements, not their text; which words a language accepts as names is a parameter.
- Pagination.CollectAll: the table changes finitely often; the base64 form of a cursor and permission filters are not modelled.
- Idempotency.OneOutcome: one organisation and key; requests without a key run unguarded and are not modelled; stored rows are never removed.
- Checksums.VerifyChecksums: regular files by their listed paths; directories, links and paths with dots are not modelled.
- Report wording, needs, details and log lines: no state depends on them.
- Release values, YAML parsing, Helm, the Kubernetes and HTTP transports, timeouts: parameters or arbitrary answers.
