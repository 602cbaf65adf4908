# Verification of karpenter-provider-pve

A Dafny model of the parts of karpenter-provider-pve that hold state or transform data, with proofs of
what they promise.  Paths below are relative to the root of that repository.

`dafny verify dfyconfig.toml` checks everything.

## What is modelled

**The PVENodeImage reconciler as a protocol** (`internal/controller/pvenodeimage_controller.go`).
`Cluster.dfy` is a state machine over the stored object with its resource versions, the versions still on
their way to the informer cache, the Jobs likewise, the clock, the work queue, the requeue timer, and a
reconcile pass that is several steps: dequeue, read, list, write, return.  Between any two of them users
edit, touch, delete or recreate the object, Jobs come, change and go, the template VMID is set or cleared,
watches deliver late, requests or replies get lost, the controller restarts.  Creating Jobs and setting
`TemplateVMID` are steps of the environment, because the code leaves both as TODO.

- `Invariants.dfy`: over every run, conditions are well formed, no success is reported for another spec,
  and transition times move only when a status flips.
- `Wakeup.dfy`: no wakeup is lost, and which Jobs a lookup can return.
- `Provenance.dfy`: where an observed spec hash comes from.
- `StatusWrites.dfy`, `WriteTurns.dfy`: how many status writes a frozen world costs, from any state, and
  exactly when there is a bound at all.
- `Convergence.dfy`: one complete pass brings the conditions up to date, and they stay so.
- `Progress.dfy`, `Phases.dfy`: going back to a built spec needs no rebuild, and the phases that passes
  find and report only advance, however far the caches lag behind.
- `Witnesses.dfy`: runs from the beginning in which the bound on writes fails, in two ways, and two that
  come to rest over unfinished work, because Jobs disagree or because a Job has no controller owner.
- `Decisions.dfy`, `Conditions.dfy`: what one pass decides, and `apimeta.SetStatusCondition`.
- `Reconciler.dfy`: the methods of the reconciler as imperative code against a control plane on which
  others act before every API call.  Each `Reconcile` is proved to be a pass of the state machine, so the
  results above hold of it.

**The pkrvars printer** (`internal/controller/pkvars.go`).  `Utf8.dfy` and `Quoting.dfy` model Go's rune
decoding and `strconv.Quote` byte by byte, and two readers: Go string literals and HCL quoted templates.
`Pkrvars.dfy` proves that reading the printed file gives the input back (for HCL: exactly when the strings
are of a kind that a predicate decides), `PkrvarsText.dfy` proves the line structure and the imperative
printer, and `SpecHash.dfy` relates the file to `hashSpec`.

**Deep copies** (`api/v1alpha1/zz_generated.deepcopy.go`).  `GoMemory.dfy` is a memory of blocks in which
allocation appends; slices are windows that may overlap.  `ImageCopy.dfy`, `ClassCopy.dfy` and
`ListCopy.dfy` are the generated copies and the proof that a copied list and its original are apart.

**UncommentCode and GetNonEmptyLines** (`test/utils/utils.go`), in `Uncomment.dfy`.

**extractDir and the preparation in RunPacker** (`internal/packer/pcli/pcli.go`), in `Extract.dfy`.

## Where code and documentation differ

The model follows the code.

- The status is not always left alone when nothing changed (`pvenodeimage_controller.go:117-120`).  Once
  all Job changes are delivered, the writes of a frozen world are bounded if and only if the object is
  current, or no Job of its own for the spec has succeeded while `TemplateVMID` is unset and those that have
  not succeeded are all running or all failed (`WriteTurns.WritesBoundedExactly`).  It fails in two ways.  A pass that finds a succeeded Job
  always writes; while `TemplateVMID` is unset, there are runs of any length in which each such write wakes
  the next pass, although a pass within the same second stores nothing
  (`Witnesses.SuccessWithoutTemplate`).  And a failed Job beside a running one, such as a retry by hand
  (`:196-198`), makes the status depend on the order in which the cache lists them
  (`Witnesses.RetryBesideFailure`).
- `renderPkrvars` is documented to print valid HCL (`pkvars.go:67-69`).  It quotes as Go does, and HCL
  reads back the input exactly for the strings of `Quoting.HclSafe` (`Pkrvars.RoundTrip`).
- The watch on Jobs is documented to wake the reconciler whenever a build Job changes state
  (`pvenodeimage_controller.go:208-210`).  It does so only for Jobs with the object as controller
  (`Witnesses.LostWakeup`).  And being woken is not enough when relevant Jobs disagree: the controller can
  come to rest on a failed Job while a retry is running (`Witnesses.RestsBesideRetry`).  At rest every
  further pass would change nothing if and only if the relevant Jobs agree (`Wakeup.NoLostWakeup`).
- `hashSpec` is documented to prefer a needless rebuild over a silent miss
  (`pvenodeimage_controller.go:310-313`).  Exactly when a miss happens depends on the text that YAML makes
  of the spec (`SpecHash.SilentMissExactly`).  Given a digest without collisions, and a text that tells
  trees of fields apart, there is none for any spec that the controller can read from the API server
  (`SpecHash.NoSilentMiss`, `SpecHash.DecodedIsValid`), and only specs built in Go code, which can hold bad
  UTF-8, are missed when they differ in nothing else.  Should the YAML step fold two texts into one, such
  as a line-break character in a string into a space, the specs with these texts are missed too.  Needless
  rebuilds happen exactly for changes that show in the text and that the build does not see, or that
  there is no file for (`SpecHash.NeedlessRebuildExactly`).
- `internal/controller/pkvars_test.go:173-227` expects errors for missing fields.  `pkrvarsFromImage` has
  no such checks, and neither has the model.

## Model

| member | source | states |
|---|---|---|
| `Conditions.UpsertLaws` | internal/controller/pvenodeimage_controller.go:323-340 | setting a condition twice is setting it once; exactly one entry has the type afterwards, with the given status, reason, message and generation and the old transition time if the status stays; no other entry changes |
| `Decisions.DecideConditions` | internal/controller/pvenodeimage_controller.go:123-205 | whatever a pass finds, it leaves exactly the two conditions of that case, both for the generation read, each transition time moved only if the status flips |
| `Decisions.DecideQuiet` | internal/controller/pvenodeimage_controller.go:117-131 | outside job success the change flag is set if and only if the conditions did not already say so |
| `Decisions.ConditionsMean` | internal/controller/pvenodeimage_controller.go:123-205 | for every object and Job: Building is True if and only if the template is not current and no Job has ended; BuildSucceeded is True if and only if the template is current or the Job holds Complete=True; both for the generation read |
| `Decisions.ReasonsMean` | internal/controller/pvenodeimage_controller.go:127-203 | the reasons and messages of both conditions in each of the five cases |
| `Decisions.RecordMeans` | internal/controller/pvenodeimage_controller.go:117-206 | the hash and the time are recorded if and only if a completed Job was consulted; VMID and node never change; the update is forced then, else made exactly when the status differs; a requeue is asked for exactly while nothing is current and no Job has ended |
| `Decisions.VerdictMeans` | internal/controller/pvenodeimage_controller.go:286-305 | a Job holding Complete=True has succeeded, whatever else it holds; else one holding Failed=True has failed; any other is running |
| `Invariants.ConditionsSound` | internal/controller/pvenodeimage_controller.go:127-203 | in every reachable state condition types are unique, Building and BuildSucceeded are not both True, and both carry the same generation |
| `Invariants.SuccessIsFresh` | internal/controller/pvenodeimage_controller.go:125-193 | in every reachable state a success reported for the present generation is for the hash of the present spec |
| `Invariants.TransitionTimes` | internal/controller/pvenodeimage_controller.go:323-340 | over any step, a condition's transition time stays unless its status flips, and then becomes the time of the pass that wrote it |
| `Invariants.StepInv` | internal/controller/pvenodeimage_controller.go:90-206 | every step, of the pass or of the environment, keeps the invariant on versions, conditions and timers |
| `Invariants.AcceptedIsSnap` | internal/controller/pvenodeimage_controller.go:231-239 | a status update that the API server accepts meets the very object the pass read |
| `Invariants.DeletingIsLeft` | internal/controller/pvenodeimage_controller.go:103-107 | over any step of the controller from a reachable state, an object that is stored as being deleted stays as it is |
| `Wakeup.NoLostWakeup` | internal/controller/pvenodeimage_controller.go:143-226 | with nothing pending, a live object is not Building and some pass would change nothing; every pass would, for any listing order, exactly when the relevant Jobs agree |
| `Wakeup.BuildingIsPolled` | internal/controller/pvenodeimage_controller.go:153-172 | while a live object says Building, it is queued, in flight, about to be delivered, or a timer is at most one interval away |
| `Wakeup.UnaccountableIsLost` | internal/controller/pvenodeimage_controller.go:211-226 | while nothing is pending, an owned Job whose controller is not the object can vanish, and still nothing is pending although every pass would now ask for a requeue, and, if the controller had settled on the Job, change the status |
| `Witnesses.RestsBesideRetry` | internal/controller/pvenodeimage_controller.go:196-205 | a run from the beginning that comes to rest over a failed Job beside a running one, all controlled by the object: nothing is pending, although a pass that finds the running one would change the conditions |
| `Witnesses.LostWakeup` | internal/controller/pvenodeimage_controller.go:211-226 | a run from the beginning that comes to rest over a failed Job without a controller owner; the Job is deleted, and nothing is pending although every pass would change the conditions |
| `Wakeup.LookupExact` | internal/controller/pvenodeimage_controller.go:246-284 | the results of the lookup over all listing orders are exactly: a Job in the namespace whose two labels are the hash and the name and one of whose owners has the UID, or none if there is none |
| `Wakeup.RelevantMeans` | internal/controller/pvenodeimage_controller.go:251-284 | the namespace, the two labels and the owner UID that make a Job one of the object |
| `Wakeup.AttainableMeans` | internal/controller/pvenodeimage_controller.go:246-268 | for every result: it can be found if and only if it is such a Job of the list, or none and there is no such Job |
| `Wakeup.AccountableMeans` | internal/controller/pvenodeimage_controller.go:211-226 | what lets a Job wake the object: its controller owner is of kind PVENodeImage and has the name |
| `Wakeup.FindJobFirst` | internal/controller/pvenodeimage_controller.go:262-267 | the first listed owned Job, and none exactly when no listed Job is owned |
| `Wakeup.LookupOrderIndependent` | internal/controller/pvenodeimage_controller.go:246-268 | with at most one such Job the result is the same for every listing order |
| `Wakeup.SilentChange` | internal/controller/pvenodeimage_controller.go:215-222 | a Job change that wakes nobody leaves the possible lookup results alone, if Jobs have a controller owner |
| `Wakeup.SettlesAgain` | internal/controller/pvenodeimage_controller.go:125-205 | after a pass that changed nothing, another lookup result changes nothing exactly when it gives the same verdict or is not consulted |
| `Provenance.ObservedHashWasBuilt` | internal/controller/pvenodeimage_controller.go:95-193 | in every reachable state a non-empty observed hash is that of a spec this object had, when a Job in the namespace, with that hash and the name as labels and an owner with the UID, had already reported Complete=True |
| `Provenance.BuiltMeans` | internal/controller/pvenodeimage_controller.go:182-284 | the Job behind a recorded build: its namespace, labels, owner UID and condition |
| `StatusWrites.WritesBounded` | internal/controller/pvenodeimage_controller.go:121-206 | from any state, with a pass in flight, versions and Job changes undelivered: with spec, Jobs and VMID frozen and the Jobs steady, any run stores at most three versions, one more for each undelivered Job change, and one more for a pass that has found its Job |
| `StatusWrites.AtMostTwoWrites` | internal/controller/pvenodeimage_controller.go:121-206 | with all Job changes delivered, and read by the pass in flight, two versions, unless a succeeded Job stands beside one that has not |
| `WriteTurns.WritesBoundedExactly` | internal/controller/pvenodeimage_controller.go:121-206 | for any state with a live object, wherever the pass is and whatever is undelivered: writes are bounded if and only if the object is current, or in every list of Jobs that the controller can be made to look at no relevant Job has succeeded with the VMID unset and no two that have not succeeded differ |
| `Convergence.PassConverges` | internal/controller/pvenodeimage_controller.go:90-206 | with spec, Jobs and VMID frozen and agreeing, a pass that reads the stored object and writes without a fault leaves conditions that report what the object and its Jobs say, and they do so in every later state, or report current after success |
| `Convergence.PassTellsTruth` | internal/controller/pvenodeimage_controller.go:90-206 | the same with the conditions spelled out: from the write on, in every later state, Building is True if and only if the object read was not current and none of its Jobs has ended, and BuildSucceeded if and only if it was current or one of its Jobs has completed |
| `WriteTurns.MostWritesExactly` | internal/controller/pvenodeimage_controller.go:121-206 | where they are bounded, the exact number of writes that runs from the start of a pass can make, at most three |
| `Witnesses.SuccessWithoutTemplate` | internal/controller/pvenodeimage_controller.go:176-193 | a run from the beginning to a succeeded Job with the VMID unset, and no bound on the writes from there |
| `Witnesses.RetryBesideFailure` | internal/controller/pvenodeimage_controller.go:196-205 | a run from the beginning to a failed Job beside a running one, and no bound on the writes from there |
| `StatusWrites.OnlyBuildTimeMoves` | internal/controller/pvenodeimage_controller.go:182-193 | when every lookup tells success and the VMID is unset, every write after the first changes the build time at most |
| `WriteTurns.Turn` | internal/controller/pvenodeimage_controller.go:121-215 | a pass whose decision differs from the status stores it, and the watch event starts the next pass |
| `WriteTurns.OneTurn` | internal/controller/pvenodeimage_controller.go:182-215 | with a succeeded Job and the VMID unset the decision always differs a second later |
| `Progress.RevertNeedsNoRebuild` | internal/controller/pvenodeimage_controller.go:125-132 | after any chain of steps without another stored success, a return to the built spec is decided as current, without consulting Jobs |
| `Progress.BuildSurvives` | internal/controller/pvenodeimage_controller.go:182-186 | only a stored success changes what is recorded about the build |
| `Phases.PassesAdvance` | internal/controller/pvenodeimage_controller.go:123-162 | for a fixed spec, Jobs that stay, verdicts that last and at most one relevant Job, from caught-up caches: the phases that successive passes find, in caches however far behind, never fall in the order no Job, running, finished, current |
| `Phases.ReportsAdvance` | internal/controller/pvenodeimage_controller.go:123-205 | under the same conditions the phases that the stored conditions report for the object's generation never fall, if at first they report nothing beyond the Jobs |
| `Phases.EditReportsNothing` | internal/controller/pvenodeimage_controller.go:323-340 | and right after the object is created or its spec edited they report nothing for its generation |
| `Progress.StoredRankAdvances` | internal/controller/pvenodeimage_controller.go:125-176 | the rank of the latest stored object and Jobs never falls |
| `Progress.RankIsPhase` | internal/controller/pvenodeimage_controller.go:286-305 | with at most one relevant Job, the rank is that of the case a lookup leads to |
| `Reconcilers.SetCondition` | internal/controller/pvenodeimage_controller.go:327-340 | field by field, the condition list becomes the specified one, and the result tells exactly whether it changed |
| `Reconcilers.ChangesAccumulate` | internal/controller/pvenodeimage_controller.go:127-130 | or-ing the two change flags tells exactly whether the two calls together changed anything |
| `Reconcilers.SetBoth` | internal/controller/pvenodeimage_controller.go:145-148 | the two calls of a case, with an exact accumulated flag |
| `Reconcilers.OwnedBy` | internal/controller/pvenodeimage_controller.go:277-284 | true exactly when an owner reference has the UID |
| `Reconcilers.JobFinished` | internal/controller/pvenodeimage_controller.go:287-295 | true exactly if the Job holds Complete=True or Failed=True |
| `Reconcilers.JobSucceeded` | internal/controller/pvenodeimage_controller.go:298-305 | true exactly if the Job holds Complete=True |
| `Reconcilers.ControlPlane.Get` | internal/controller/pvenodeimage_controller.go:95-106 | the read step of the machine, after any steps of others; it may fail |
| `Reconcilers.ControlPlane.List` | internal/controller/pvenodeimage_controller.go:251-260 | the list step of the machine; the listed Jobs are exactly those of the cache in the namespace with the two labels |
| `Reconcilers.ControlPlane.UpdateStatus` | internal/controller/pvenodeimage_controller.go:235-237 | the write step of the machine, callable only with the status the pass decided |
| `Reconcilers.FindBuildJob` | internal/controller/pvenodeimage_controller.go:246-268 | the scan returns what the machine's lookup returns: a Job of the cache with the namespace, both labels and an owner with the UID, and none exactly when there is none |
| `Reconcilers.UpdateStatusIfChanged` | internal/controller/pvenodeimage_controller.go:231-239 | the object in memory holds the decided status and the flag is the decided one; skipping is a step too |
| `Reconcilers.SkippingIsExact` | internal/controller/pvenodeimage_controller.go:117-121 | skipping the update stores what always updating would |
| `Reconcilers.ReportCurrent` | internal/controller/pvenodeimage_controller.go:123-132 | case 1 ends as the machine's pass does |
| `Reconcilers.ReportUnfinished` | internal/controller/pvenodeimage_controller.go:142-173 | cases 2 and 3 end as the machine's pass does, with a requeue after the interval unless the update fails |
| `Reconcilers.ReportSucceeded` | internal/controller/pvenodeimage_controller.go:175-194 | case 4, success, ends as the machine's pass does |
| `Reconcilers.ReportFailed` | internal/controller/pvenodeimage_controller.go:196-205 | case 4, failure, ends as the machine's pass does |
| `Reconcilers.Reconcile` | internal/controller/pvenodeimage_controller.go:90-206 | a call takes the machine from a started pass to a returning one, with the matching result, and fails exactly when one API call failed |
| `Reconcilers.ProcessNextItem` | internal/controller/pvenodeimage_controller.go:211-226 | working off the queue is a run of the machine, which keeps the invariant |
| `Utf8.EncodeHead` | internal/controller/pkvars.go:79-81 | decoding a rune and encoding it again gives its bytes |
| `Utf8.HeadEncode` | internal/controller/pkvars.go:79-81 | encoding a rune and decoding it again gives the rune, whatever follows it |
| `Utf8.HeadExactly` | internal/controller/pkvars.go:79-81 | a string starts with a rune if and only if it starts with that rune's bytes |
| `Quoting.BodyReads` | internal/controller/pkvars.go:79-97 | reading a quoted string, in either dialect, stops at its end, and gives the string back if and only if it survives the dialect |
| `Quoting.StringReads` | internal/controller/pkvars.go:79-97 | the same for the string with its quotes |
| `Quoting.RawQuoted` | internal/controller/pkvars.go:79-97 | a string of printable runes other than the quote and the backslash stands between quotes as it is: 0x20 to 0x7E, 0xA1 to 0xFF but 0xAD, and above what the table has |
| `Quoting.UnitEscaped` | internal/controller/pkvars.go:79-97 | every other rune and every bad byte has its escape: two characters, or x, u or U with two, four or eight lower-case hexadecimal digits |
| `Quoting.UnitByUnit` | internal/controller/pkvars.go:79-97 | a quoted string is that of its units one after another |
| `Pkrvars.RoundTrip` | internal/controller/pkvars.go:67-125 | reading the file gives the fifteen assignments back: always with Go strings, and with HCL's escapes and template rules, its normalisation to NFC apart, if and only if every string is HCL-safe |
| `Pkrvars.RenderInjective` | internal/controller/pkvars.go:74-125 | two inputs have the same file if and only if they are equal, nil and empty lists identified |
| `Pkrvars.KeysDistinct` | internal/controller/pkvars.go:99-122 | fifteen assignments to fifteen different keys |
| `Pkrvars.KeysAreIdentifiers` | internal/controller/pkvars.go:99-122 | every key is an identifier |
| `Pkrvars.NumberReads` | internal/controller/pkvars.go:83-85 | a decimal number is read back, negative ones too |
| `Pkrvars.DigitsMean` | internal/controller/pkvars.go:83-85 | numbers are decimal digits without leading zeros, behind a minus sign if negative |
| `PkrvarsText.LineStructure` | internal/controller/pkvars.go:77-124 | the file has exactly 2 + 13 + L(packages) + L(keys) lines; the lines are the listed ones, each list item on its own, in order |
| `PkrvarsText.FileLinesMean` | internal/controller/pkvars.go:74-125 | the lines of the file spelled out: the title, an empty line, and the fifteen keys with their values, in order |
| `PkrvarsText.ListLines` | internal/controller/pkvars.go:87-97 | an empty list is one line; any other is an opening line, one indented line with a comma for each item, and a closing line |
| `PkrvarsText.RenderPkrvars` | internal/controller/pkvars.go:74-125 | the writes to the builder amount to the specified text |
| `PkrvarsText.WriteTexts` | internal/controller/pkvars.go:87-97 | the list writer's loop appends the specified text of the list |
| `PkrvarsText.WriteText` | internal/controller/pkvars.go:79-81 | the string writer appends one assignment |
| `PkrvarsText.WriteNumber` | internal/controller/pkvars.go:83-85 | the number writer appends one assignment |
| `SpecHash.MarshalReturns` | api/v1alpha1/pvenodeimage_types.go:53-159 | a decoder recovers the spec from the marshalled tree, strings coerced to UTF-8; omitted and empty lists stay apart |
| `SpecHash.TreeMeans` | api/v1alpha1/pvenodeimage_types.go:53-159 | which fields the tree has: a list is left out when nil but not when empty, an optional string when empty, the interval when there is none, the policy when it is zero; all others are there |
| `SpecHash.CoerceMeans` | internal/controller/pvenodeimage_controller.go:315-321 | coercion keeps every rune and writes U+FFFD for every byte that starts none |
| `SpecHash.HashTells` | internal/controller/pvenodeimage_controller.go:307-321 | without collisions, two specs have the same hash if and only if they have the same text, and, if the text tells trees apart, if and only if they are equal once coerced to UTF-8 |
| `SpecHash.NoSilentMiss` | internal/controller/pvenodeimage_controller.go:307-321 | without collisions, and with a text that tells trees apart, the hash tells specs of valid UTF-8 apart, so any change of the variables file changes the hash |
| `SpecHash.DecodedIsValid` | internal/controller/pvenodeimage_controller.go:95-111 | a spec decoded from JSON holds valid UTF-8 only |
| `SpecHash.SilentMissExactly` | internal/controller/pvenodeimage_controller.go:310-321 | for any specs and any text: the file changes and the hash does not, if and only if there is a file for one of them, the build's view differs and the text does not; for a text that tells trees apart, the specs then differ in bad UTF-8 only |
| `SpecHash.BadBytesAreMissed` | internal/controller/pvenodeimage_controller.go:310-321 | two specs, built in Go code, for which that happens |
| `SpecHash.NeedlessRebuildExactly` | internal/controller/pvenodeimage_controller.go:310-313 | for any specs and any text: the hash changes and the file does not, if and only if the text differs and either the build sees the same or there is a file for neither |
| `SpecHash.FileTells` | internal/controller/pkvars.go:132-169 | two specs give the same file if and only if the build sees the same, the pool default applied and nil lists taken as empty, or there is a file for neither |
| `SpecHash.FileSays` | internal/controller/pkvars.go:99-169 | read back, the file of a spec holds these fifteen keys with these fields of the spec, the description in full, nil lists as empty and the pool default applied; there is no file exactly if the time zone does not load |
| `GoMemory.Memory.CopySlice` | api/v1alpha1/zz_generated.deepcopy.go:300-309 | a new block with the elements of the window; nil stays nil; all old memory stays |
| `GoMemory.Memory.CopyConditions` | api/v1alpha1/zz_generated.deepcopy.go:327-333 | the same, element by element |
| `GoMemory.Memory.CopyTarget` | api/v1alpha1/zz_generated.deepcopy.go:334-338 | a new target with the same value; nil stays nil |
| `GoMemory.AscendApart` | api/v1alpha1/zz_generated.deepcopy.go:264-275 | ascending references are within their range and pairwise different |
| `ImageCopies.CopySpec` | api/v1alpha1/zz_generated.deepcopy.go:296-313 | the copied spec means the same, and its references ascend through new memory |
| `ImageCopies.CopyStatus` | api/v1alpha1/zz_generated.deepcopy.go:325-343 | the same for the status |
| `ImageCopies.CopyImage` | api/v1alpha1/zz_generated.deepcopy.go:237-243 | the same for the object |
| `ImageCopies.ImageMeans` | api/v1alpha1/zz_generated.deepcopy.go:237-343 | two objects mean the same if and only if each of their fields does: the metadata, seven of the spec and five of the status |
| `ClassCopies.CopyNetwork` | api/v1alpha1/zz_generated.deepcopy.go:89-96 | the same for the network settings, with the VLAN tag |
| `ClassCopies.CopySpec` | api/v1alpha1/zz_generated.deepcopy.go:183-203 | the same for the class's spec |
| `ClassCopies.CopyClass` | api/v1alpha1/zz_generated.deepcopy.go:124-130 | the same for the class |
| `ClassCopies.ClassMeans` | api/v1alpha1/zz_generated.deepcopy.go:89-203 | the same for two classes |
| `ListCopies.CopyItems` | api/v1alpha1/zz_generated.deepcopy.go:268-274 | the loop over the items, which fills a new block while it allocates more |
| `ListCopies.CopyList` | api/v1alpha1/zz_generated.deepcopy.go:264-275 | a list of any length is copied: old memory stays, the copy means the same with nil kept, all its references are new and ascend |
| `ListCopies.CopyFieldwise` | api/v1alpha1/zz_generated.deepcopy.go:76-343 | element by element and field by field: every plain field of the copy is equal, every list and every target holds the same with nil kept, and every reference of every element is to new memory |
| `ListCopies.ListKept` | api/v1alpha1/zz_generated.deepcopy.go:264-275 | what a list means depends only on the blocks it refers to |
| `ListCopies.CopyIsApart` | api/v1alpha1/zz_generated.deepcopy.go:151-275 | no reference of a copy is old or occurs twice; memory changed within the copy leaves the original's meaning alone, and the other way round |
| `ListCopies.WritesStayApart` | api/v1alpha1/zz_generated.deepcopy.go:151-275 | the same for every sequence of writes |
| `Uncomment.Strip` | test/utils/utils.go:198-213 | the scanner's loop writes the lines without the prefix, with a line break between two |
| `Uncomment.UncommentCode` | test/utils/utils.go:178-226 | it fails, and changes nothing, exactly when the file cannot be read or the target is not in it; else the file becomes the specified text |
| `Uncomment.UncommentUndoes` | test/utils/utils.go:187-217 | if the commented block is first found where it was put, text before and after stays, and the block's lines are restored if and only if the prefix and the lines allow it |
| `Uncomment.UncommentLines` | test/utils/utils.go:187-217 | for any block of non-empty lines without a carriage return at the end, first found where it was put: what the file becomes is exactly the same text with each line that starts with the prefix without it, once, and every other line as it was |
| `Uncomment.TokensOfJoin` | test/utils/utils.go:198-213 | scanning joined lines gives them back, but for one carriage return at the end of each |
| `Uncomment.TokensAreSplit` | test/utils/utils.go:198-213 | for any text: its tokens are its pieces between line breaks, an empty last one left out, each without one carriage return at its end |
| `Uncomment.GetNonEmptyLines` | test/utils/utils.go:154-164 | the non-empty pieces in order, with no character lost but the breaks |
| `Uncomment.NonEmptyMeans` | test/utils/utils.go:154-164 | keeping the non-empty lines goes piece by piece |
| `Uncomment.NonEmptyOne` | test/utils/utils.go:157-161 | a line is kept unless it is empty |
| `Uncomment.SplitKeepsText` | test/utils/utils.go:156 | splitting loses only the breaks, and joining undoes it |
| `Extract.Visit` | internal/packer/pcli/pcli.go:119-146 | the callback continues at the root, skips other directories, and writes a file under its base name |
| `Extract.Walk` | internal/packer/pcli/pcli.go:118-147 | the walk writes exactly what the root's own listing holds, in order, up to the first failure |
| `Extract.ExtractDir` | internal/packer/pcli/pcli.go:118-147 | it fails without writing when the source does not exist, else it does what the walk does |
| `Extract.ExtractionIsOverlay` | internal/packer/pcli/pcli.go:118-147 | it succeeds exactly when the source exists and no file is in the way of a folder, and then each name holds what the source offers, or what it held |
| `Extract.RunPacker` | internal/packer/pcli/pcli.go:28-82 | the preparation succeeds under an exact condition, and then, spelled out: user.auto.pkrvars.hcl holds the user's file; any other name the shared file below templates, if there is one, else the version directory's file; else packer holds the binary, plugins is a folder, and nothing more is there |
| `Extract.PreparedMeans` | internal/packer/pcli/pcli.go:28-82 | the same of the specification the method is proved against |
| `Extract.PrepareMeans` | internal/packer/pcli/pcli.go:28-82 | the exact condition spelled out: the three files can be read, the sources exist, and neither offers a file named plugins |
| `Extract.OffersMean` | internal/packer/pcli/pcli.go:118-147 | a source offers its direct children that are files, or itself if it is a file |
| `Extract.PlainTemplateDir` | internal/packer/pcli/pcli.go:60-66 | ordinary names lead to templates, the template's name and the version |
| `Extract.CleanMeans` | internal/packer/pcli/pcli.go:63-68 | cleaning a path drops empty elements and dots, and two dots take back the element before them unless that is two dots too |
| `Extract.ElementsMean` | internal/packer/pcli/pcli.go:63-68 | with slashes between them the elements of a path are the path |
| `Extract.ElementsBare` | internal/packer/pcli/pcli.go:63-68 | and no element holds a slash |

## Left out

- Reconcile: all time.Now calls of one pass read one instant, that of its last read.
- NoLostWakeup: Jobs that carry the object's label and have owners are taken to have it as controller; `Witnesses.LostWakeup` shows why.
- Pending: informers resync after hours by default, which enqueues every object; "nothing is pending", here and in the runs of `Witnesses`, speaks of the time until then.
- CollisionFree: SHA-256 is a collision-free function where that is said, and the text of YAML any function of the tree of fields, whose names are an enumeration and whose durations are numbers; the error path of marshalling is left out.
- FromImage: whether a time zone loads is a parameter.
- IsPrint: Go's table of printable code points above 0xFF is a parameter.
- ReadBody: octal escapes, which `strconv.Quote` never writes, and the normalisation of HCL strings to NFC.
- ObjectMeta is its name and its labels, ListMeta its version and its count; their copies are library code.
- CopyList: the nil checks of `DeepCopy` and `DeepCopyObject` around it, and the plain structs that are copied by assignment.
- WritesStayApart: a program that stores a reference to the original in the copy, and then writes through it, writes to the original.
- UncommentCode: the scanner's limit on a line, and errors of reading or writing beyond a file that is not there.
- WriteFile: errors of the disk and file modes; what RunPacker leaves behind when it fails.
- RunPacker: what is in the plugin folder, the checksum file, running Packer.
- The limit of 63 characters on label values, which a hash of 64 exceeds: the API server would refuse such a Job.
- One object: other names in the queue do not matter to it, and the controller works on one name at a time.
- Whether `TemplateVMID` belongs to the present spec: a success updates the hash and not the VMID.
- The rebuild triggers Periodic and Manual: no code reads them.
- `controllerNamespace` is a constant of the model, and logging is not modelled.
- `pkg/cloudprovider`, `internal/controller/pvenodeclass_controller.go`, `cmd`, manifests and HCL templates: stubs, flags and configuration.
