# Verification of the run controller

This project models the run controller of the review loop in Dafny and proves what its documentation promises: that a
merge is executed only behind its gates, that no integrity violation is lost, that a checkpoint restores the state it was
written from, and that posting, submitting, locking and stopping survive crashes and concurrent callers.

`dafny verify dfyconfig.toml` checks everything.

## How the model is built

- **The state machine.** `Vocabulary`, `MachineStates` and `Events` hold the values and their construction checks. `Guards`
  derives the guard values of a state and an event. `Rules` is the registry, one row per rule under its identifier (`T-B03`
  is `TB03`, `I-D5'` is `ID5u`; the rows generated for procedures are `ProcedureRule(stage, trigger)`), with effects as data and a failed cast or table
  lookup as a value of its own. `Machine` selects and applies rules. `Readiness` says what every effect may rely on,
  `Invariant` strengthens the construction checks until they are inductive, `Runs` defines runs of any length.
- **Properties of runs.** `GateOrder`, `Conservation`, `Cancellation`, `Detection`, `Endings`, `Recovery`, `Driving`,
  `HappyPath`, `Publication`, `Audit`, `Preflight`. Each starts from a fact about one step and carries it over every run by induction. The premise `Inv` of
  these lemmas holds in every reachable state (`Runs.ReachableInv`).
- **What a run works on.** `Tasks` names the pieces of work of review, host, checks and user, and says which event
  decides on which, independently of the registry; `TaskRuns` shows that every run does the work its last deciding event
  set and accepts only answers to it. `UserDecisions` (when the user is asked), `Outcomes` (the whole state after each
  answer), `Blocks` (what a block goes back to and gives back) and `Responsive` (no answer is refused) build on it.
- **The checkpoint.** `Names` and `CheckpointCodec` write and read the state section; `Persistence` shows that every
  reached state can be stored.
- **The record chain.** `RecordMarkers` composes and parses marker payloads with their projection, `RecordChain` defines what is reported about a set of
  comments and what an intact chain is, `Redelivery` and `ChainVerifier` are the loops that compute it, `Reposts`
  says what a verdict means for repeated posts and for an intact chain in plain comments, `Evidence` gives the bindings of
  findings. The chain takes an injective body hash, a marker reader and a producer allowlist as parameters.
  `MarkerText` (canonical JSON text of a payload, its length and its tokens), `TokenCounts` and `MarkerReading` (attaching a
  marker and reading it back out of a body) give the reader of the code; the result words of a kind are a parameter.
- **Protocols around the machine.** `Posting`, `PendingPosts` and `Reissue` (idempotent posting, reissue and its recognition), `SubmitOnce` (advance and
  submit over the stored checkpoint), `Handover` and `Demands` (what a submit leaves behind and what advance then asks for), `GuardedLedger`, `UnguardedSaves` and `PrLock` (directory guards, as steps of any number of processes),
  `Stopping`, `StopOutcomes` and `StopHistory` (halts and emergency stops, alone and mixed). What the network, the operating system or a crash decides is a parameter of each
  call, so every lemma holds for all of it.
- **Marker escaping.** `MarkerEscape`.

Where the code updates something in place the model has a class or a method with loops (`Conversation`, `Controller`,
`Site`, `Canonicalize`, `WithMachineState`, `Collect`, the stages of `ChainVerifier`), proved equal to the functions that the
lemmas are about. The rules of the state machine are pure in the code and pure here.

## What turned out differently from the comments in the code

- The construction checks of a state are not inductive on their own. One fact restores inductiveness: a stored continuation is
  a registered one. Without it the code builds an illegal state (`Invariant.UnregisteredContinuationBreaks`). Four more facts
  hold along every run and are what later theorems need: merging outside a procedure awaits the preconditions or an outcome;
  an active state has an awaited response or a pending record; a failed run that can be resumed still holds such work; an
  incident that completes a merge is recorded while merging.
- The comment in `workflow/emergency.py` says that the completion of an emergency stop is accepted in every non-terminal
  state outside a procedure. It is refused exactly while merging (`Stopping.EmergencyRefusedOnlyInMerging`), and since the
  request is checked before anything is stopped, the trees then keep running (`Stopping.EmergencyStuckWhileMerging`, at
  a reachable state `StopHistory.MergingTreeKeepsRunning`).
- A cancel of a run blocked on record integrity ends it without recording the violations of the block
  (`Conservation.CancelDropsBlockedViolations`, as a whole run `Detection.DetectionLostToCancel`).
- Composing a marker does not check that the projection is one of the record's kind; with any other the verifier takes the
  composed marker for an irregular one (`MarkerReading.AttachedReads`, at an input `MarkerReading.EmptyProjectionRefused`).
- Nor does it check that no value holds the reserved token, and the body is checked in upper case while texts are escaped letter
  by letter; either way the record that was posted is irregular (`MarkerReading.TokenInRunRefused`,
  `MarkerReading.EscapedTextRefused`).
- The checkpoint is also saved without the guard, and such a save forgets the trees registered since its load
  (`UnguardedSaves.AdditionLost`).
- The comment on `initialize` says that a run whose preflight failed can only be replaced by a new run. It does start
  nothing by itself (`Preflight.FailedPreflightStartsNothing`), but it accepts a detected violation, and settling that one
  starts its first review (`Preflight.SettledPreflightReviews`).
- An ASK_USER verdict is not the last word: the fallback after a failure drops the question and reviews afresh
  (`UserDecisions.RestartPassesOver`). Short of such a restart nothing passes the user over
  (`UserDecisions.FixingNeedsTheUser`).
- The rule that drives a recovered state afresh never applies (`Invariant.DriveNeverNeeded`).
- Escaping matches the token letter by letter, while the chain looks for it in the upper-cased body. The two differ for one
  character, U+1E9A, in the place of the last letter (`MarkerEscape.EscapedTextVisible`, for one text `MarkerEscape.VisibleAfterEscape`).

## Model

| member | source | states |
|---|---|---|
| Violations.Canonicalize | src/claude_code_codex_review_loop/domain/values.py:419-427 | the dictionary loop computes the canonical form that the lemmas below are about |
| Violations.CanonFixedPoint | src/claude_code_codex_review_loop/domain/values.py:419-427 | a sequence is its own canonical form exactly if its bindings ascend strictly |
| Violations.CanonIdempotent | src/claude_code_codex_review_loop/domain/values.py:419-427 | canonicalising twice is canonicalising once |
| Violations.CanonAbsorbs | src/claude_code_codex_review_loop/domain/values.py:419-427 | canonicalising a part first changes nothing, so unions may be taken one detection at a time |
| Violations.CanonBindingsFixedBySet | src/claude_code_codex_review_loop/domain/values.py:419-427 | two inputs give the same binding sequence exactly if they have the same set of bindings |
| Violations.CanonAdd | src/claude_code_codex_review_loop/domain/_rules_integrity.py:61-63 | adding a detection adds its binding, keeps the order, and is a no-op exactly if the binding was present |
| Violations.CanonKeeps | src/claude_code_codex_review_loop/domain/values.py:419-427 | the evidence first reported for a binding is never replaced |
| Machine.SelectIsRegistryScan | src/claude_code_codex_review_loop/domain/machine.py:69-78 | scanning all rules finds none or exactly the selected one: never two rules match |
| Machine.TransitionBy | src/claude_code_codex_review_loop/domain/machine.py:81-86 | a transition is the effect of the one enabled rule, followed by the construction checks |
| Readiness.EnabledReady | src/claude_code_codex_review_loop/domain/_ruledefs.py:269-298 | an enabled rule of the registry finds the state and event its effect relies on, for every row |
| Invariant.TransitionPreserves | src/claude_code_codex_review_loop/domain/machine.py:69-86 | every accepted event keeps the strengthened invariant, and the only failure of a transition is a rejection: no cast, table lookup or construction check fails |
| Invariant.DriveNeverNeeded | src/claude_code_codex_review_loop/domain/_rules_recovery.py:563-567 | the rule that drives a recovered state afresh is enabled in no state of any run |
| Invariant.UnregisteredContinuationBreaks | src/claude_code_codex_review_loop/domain/_rules_integrity.py:410-415 | the construction checks alone are not inductive: a constructible block with an unregistered continuation builds an illegal state |
| Invariant.IdleMergingRefusesDetection | src/claude_code_codex_review_loop/domain/values.py:443-453 | a constructible merging state that awaits nothing refuses a detection, so accepting every detection needs the added fact |
| Runs.RunPreserves | src/claude_code_codex_review_loop/domain/values.py:430-579 | every state along every run satisfies the invariant |
| Runs.ReachableInv | src/claude_code_codex_review_loop/domain/values.py:430-579 | every reachable state satisfies the invariant and so passes every construction check |
| HappyPath.MergeIsReachable | src/claude_code_codex_review_loop/domain/_rules_workflow.py:413-813 | a run can merge, with exactly these events and commands |
| Driving.StepDrives | src/claude_code_codex_review_loop/domain/_ruledefs.py:301-321 | every newly awaited response is exactly what the commands of the step ask for, and every new pending record is published by its step |
| TaskRuns.RunDoesTask | src/claude_code_codex_review_loop/domain/_rules_workflow.py:413-813 | every run does the work its last deciding event set, however it was interrupted since: in the one state of that work, with a record that answers it pending, or its response or a permission awaited |
| TaskRuns.RunAnswers | src/claude_code_codex_review_loop/domain/_rules_workflow.py:51-813 | outside procedures every record and every signal a run accepts answers the work set by its last deciding event |
| TaskRuns.StepGoesOn | src/claude_code_codex_review_loop/domain/machine.py:69-86 | each step does the work it decides on, or goes on with the work before, in blocks, permissions and failures too |
| UserDecisions.DecisionWasAskedFor | src/claude_code_codex_review_loop/domain/_rules_workflow.py:567-585 | the user is asked to decide only after an ASK_USER verdict and its brief, with no other decision since either |
| UserDecisions.RecordedWasProceeded | src/claude_code_codex_review_loop/domain/_rules_workflow.py:587-605 | a decision is recorded without the user only after a PROCEED verdict on the last decision request, with nothing decided in between |
| UserDecisions.VerdictWasRequested | src/claude_code_codex_review_loop/domain/_rules_workflow.py:556-624 | a verdict is accepted only on the last decision request, with nothing decided in between |
| UserDecisions.FixingNeedsTheUser | src/claude_code_codex_review_loop/domain/_rules_workflow.py:567-645 | from an ASK_USER verdict no run goes on fixing before a user decision is verified or the review restarts; a later PROCEED alone cannot happen |
| UserDecisions.RestartPassesOver | src/claude_code_codex_review_loop/domain/_rules_recovery.py:640-665 | the restart is no idle exception: from every decision in progress a failure and a fallback start a new review |
| UserDecisions.ClarificationWasAsked | src/claude_code_codex_review_loop/domain/_rules_workflow.py:480-520 | an answer to a clarification is accepted only on the last question, with nothing decided in between |
| Outcomes.AnswerLeads | src/claude_code_codex_review_loop/domain/_rules_workflow.py:206-377 | a verified record leads to exactly the work it decides on, asked for by the commands, or, exactly if its report is limited, to a block with the evidence, budget and continuation of that report |
| Outcomes.SignalLeads | src/claude_code_codex_review_loop/domain/_rules_workflow.py:231-285 | outside procedures a signal leads to exactly the work it decides on and its commands ask for it |
| Outcomes.ApprovalLeads | src/claude_code_codex_review_loop/domain/_rules_recovery.py:85-129 | a merge approval leads to exactly the precondition check of the merge |
| Outcomes.OutcomeSettles | src/claude_code_codex_review_loop/domain/_rules_recovery.py:173-262 | an outcome of the merge merges, cancels or fails the run by what it was asked for, and detections made meanwhile are recorded or block it |
| Blocks.BlockWasRaised | src/claude_code_codex_review_loop/domain/_rules_workflow.py:287-411 | every progress or dependency block of a run carries what one report said, with nothing decided since |
| Blocks.LiftedByEvidence | src/claude_code_codex_review_loop/domain/_ruledefs.py:207-230 | a block is lifted only by evidence about the very report that raised it, by the route its reason demands |
| Blocks.WorkResumes | src/claude_code_codex_review_loop/domain/_rules_integrity.py:410-485 | a lifted block or a granted permission asks again for exactly the work that the last decision of the run set |
| Publication.VerifiedWasProduced | src/claude_code_codex_review_loop/domain/_ruledefs.py:183-200 | a record not made by the user is verified only if the run produced it under that binding and it has been the pending one since |
| Responsive.AnswerIsTaken | src/claude_code_codex_review_loop/domain/_rules_workflow.py:78-377 | during live work every answer, with any verdict and any progress, is accepted: produced, then verified |
| Responsive.CommentIsTaken | src/claude_code_codex_review_loop/domain/_rules_workflow.py:259-285 | a record the user comments directly is accepted while it is waited for |
| Responsive.SignalIsTaken | src/claude_code_codex_review_loop/domain/_rules_workflow.py:259-285 | during live work every signal that means something then is accepted |
| Responsive.ResolutionIsTaken | src/claude_code_codex_review_loop/domain/_rules_integrity.py:440-515 | evidence that agrees with a block lifts it, by the route its kind and reason call for |
| Responsive.PermissionIsTaken | src/claude_code_codex_review_loop/domain/_rules_workflow.py:646-658 | a granted permission is accepted whenever one is waited for |
| Demands.StepCalls | src/claude_code_codex_review_loop/domain/commands.py:1-119 | every command of an accepted step leaves a state in which exactly that is to be done |
| Demands.CommandsAreDemanded | src/claude_code_codex_review_loop/workflow/engine.py:634-772 | after every accepted step the next advance demands what its commands asked for: the halt, the incident, the publication, or a fresh action of that kind |
| Demands.ResumeReasks | src/claude_code_codex_review_loop/domain/_rules_recovery.py:538-632 | a resume goes back to the interrupted work and asks again for exactly what was to be done |
| Demands.ProcedureReasks | src/claude_code_codex_review_loop/domain/_rules_recovery.py:440-530 | while a procedure runs, every signal it accepts changes nothing and asks for its step again |
| Preflight.FailedPreflightStartsNothing | src/claude_code_codex_review_loop/domain/machine.py:55-66 | a run from a failed preflight that settles no integrity block asks for no review, no host action, no check and no merge |
| Preflight.SettledPreflightReviews | src/claude_code_codex_review_loop/domain/_rules_integrity.py:418-515 | settling a detected violation does start it: two accepted steps lead from a failed preflight to a review |
| GateOrder.StepGated | src/claude_code_codex_review_loop/domain/_rules_recovery.py:106-288 | each step passes at most the next gate, by its own event; a revocation loses all gates; executing a merge answers a precondition check and uses up the approval |
| GateOrder.GatesPassed | src/claude_code_codex_review_loop/domain/_rules_recovery.py:106-288 | every run has passed exactly the gates of its stage, in order, with no revocation since the first and no merge since the approval |
| GateOrder.MergeIsGated | src/claude_code_codex_review_loop/domain/_rules_recovery.py:106-288 | every executed merge is preceded, since the last revocation, by review approval, CI success, verified report, human approval and the precondition check, in that order |
| GateOrder.MergesNeedOwnApproval | src/claude_code_codex_review_loop/domain/_rules_recovery.py:106-142 | between two executed merges lies another human approval |
| GateOrder.MergedWasApproved | src/claude_code_codex_review_loop/domain/_rules_integrity.py:336-395 | no run ends merged, by any path including an incident, but out of an unbroken stretch of merging that a human approval started, with all gates passed before it in order and nothing revoked in between |
| GateOrder.StepRevokes | src/claude_code_codex_review_loop/domain/_rules_workflow.py:413-813 | a run going on never loses its review approval without emitting the revocation |
| Conservation.StepTracks | src/claude_code_codex_review_loop/domain/_rules_integrity.py:61-114 | each step accounts for every violation: still tracked, newly detected, settled by its event, or dropped by a cancel |
| Conservation.DetectedIsKept | src/claude_code_codex_review_loop/domain/_rules_integrity.py:241-262 | a detected violation is tracked until a later event settles it, or a cancel of the integrity block drops it |
| Conservation.MergedSettlesAll | src/claude_code_codex_review_loop/domain/_rules_integrity.py:319-333 | a run that ends merged has settled every violation it detected |
| Conservation.CancelledSettlesOrDrops | src/claude_code_codex_review_loop/domain/_rules_recovery.py:296-393 | a run that ends cancelled has settled every violation except those of the integrity block it was cancelled in |
| Conservation.TrackedWasDetected | src/claude_code_codex_review_loop/domain/_rules_integrity.py:61-114 | nothing is tracked at the end of a run that was not tracked at its start or detected in it |
| Conservation.RunTracksItsDetections | src/claude_code_codex_review_loop/domain/_rules_integrity.py:61-114 | a run from its start answers for a violation only because it detected it |
| Conservation.CancelDropsBlockedViolations | src/claude_code_codex_review_loop/domain/_rules_recovery.py:296-393 | from every state blocked on record integrity a cancel ends the run in two steps with none of its violations recorded |
| Detection.DetectionLostToCancel | src/claude_code_codex_review_loop/domain/_rules_recovery.py:296-393 | a whole run at which conservation fails: a violation detected at the start is halted for, blocked on and cancelled away with nothing recorded |
| Cancellation.CancelAbsorbs | src/claude_code_codex_review_loop/domain/_rules_recovery.py:296-393 | from the start of a cancel only halts, revocations and incident records are commanded, and the only end is cancelled |
| Cancellation.CancelEnds | src/claude_code_codex_review_loop/domain/_rules_recovery.py:323-393 | cancelled is reached only by the completion of the exact attempt and with every deferred violation recorded |
| Cancellation.CancelRecordsDetections | src/claude_code_codex_review_loop/domain/_rules_recovery.py:309-321 | a violation detected during a cancel is in an incident verified later |
| Audit.AuditNamesTheCutShort | src/claude_code_codex_review_loop/domain/_rules_recovery.py:296-321 | from the start of a cancel to its end the incident names the record whose publication the cancel cut short, and none if that was the cancel itself |
| Endings.CanEnd | src/claude_code_codex_review_loop/domain/machine.py:69-86 | every run can end, by at most four accepted events that are constructed; merged only if it records a merge that happened, else cancelled |
| Endings.ReachableCanEnd | src/claude_code_codex_review_loop/domain/machine.py:69-86 | the same for every reachable state |
| Endings.CancelStarts | src/claude_code_codex_review_loop/domain/_rules_recovery.py:323-350 | a verified cancel is accepted in every state outside a procedure and outside merging, with its whole new state |
| Detection.DetectionAccepted | src/claude_code_codex_review_loop/domain/_rules_integrity.py:117-233 | every state of a run in progress accepts a violation by exactly one rule, revokes approvals and tracks the binding |
| Detection.ReachableDetection | src/claude_code_codex_review_loop/domain/_rules_integrity.py:117-233 | the same for every reachable state |
| Detection.HaltCollects | src/claude_code_codex_review_loop/domain/_rules_integrity.py:84-114 | during a halt the attempt stays fixed and the set is the canonical union of everything detected, whatever happens in between |
| Detection.HaltBlocksOnWhatWasDetected | src/claude_code_codex_review_loop/domain/_rules_integrity.py:405-439 | from the detection that halts a run to its completion there is one attempt, and the block holds exactly what was detected |
| Detection.HaltCompletes | src/claude_code_codex_review_loop/domain/_rules_integrity.py:425-439 | the completion of the issued attempt is accepted in every halting state |
| Detection.EvidenceAfterDetection | src/claude_code_codex_review_loop/domain/_ruledefs.py:207-230 | resolution evidence that matched an integrity block still matches after a detection exactly if the binding was already there |
| Recovery.CrashAndResumeStutter | src/claude_code_codex_review_loop/domain/_rules_recovery.py:401-432 | any sequence of crashes and resumes visits only the interrupted state and its failed image and asks only for the interrupted work |
| Recovery.CrashAndResumeAccepted | src/claude_code_codex_review_loop/domain/_rules_recovery.py:538-626 | every such sequence is accepted |
| CheckpointCodec.WithMachineState | src/claude_code_codex_review_loop/workflow/checkpoint_view.py:387-424 | the copied and popped dictionary ends as the specified payload, for every earlier payload |
| CheckpointCodec.RoundTrip | src/claude_code_codex_review_loop/workflow/checkpoint_view.py:216-424 | what is written reads back as exactly the same state if its opaque values are nonempty and its continuation registered, and is refused otherwise |
| CheckpointCodec.WriteFrame | src/claude_code_codex_review_loop/workflow/checkpoint_view.py:387-424 | no other field of the payload or of the section changes |
| CheckpointCodec.LastWriteWins | src/claude_code_codex_review_loop/workflow/checkpoint_view.py:387-424 | no value of an earlier state survives a later write |
| CheckpointCodec.ReadIsStorable | src/claude_code_codex_review_loop/workflow/checkpoint_view.py:216-384 | whatever can be read passes every check and can be stored |
| CheckpointCodec.RewriteRead | src/claude_code_codex_review_loop/workflow/checkpoint_view.py:216-424 | rewriting what was read reads as the same, whatever form the section had |
| CheckpointCodec.VerifiedWrite | src/claude_code_codex_review_loop/workflow/checkpoint_view.py:526-546 | the verified writer refuses exactly the states that cannot be stored and never stores a different one |
| Persistence.ReachedStateIsPersistable | src/claude_code_codex_review_loop/workflow/checkpoint_view.py:526-546 | wherever a run with nonempty event values has got to, its checkpoint restores exactly that state |
| RecordMarkers.ComposeAccepts | src/claude_code_codex_review_loop/identity/record_chain.py:157-205 | composing and attaching accept exactly the well-formed payloads with nonempty texts, a projection that overrides no structural key, known names and a canonical text within the byte limit |
| RecordMarkers.ComposedParses | src/claude_code_codex_review_loop/identity/record_chain.py:157-290 | a composed payload parses back to itself exactly if its projection is one its kind may carry, and is refused otherwise |
| RecordMarkers.ParsedComposes | src/claude_code_codex_review_loop/identity/record_chain.py:208-290 | a payload that parses is exactly what composing it gives |
| MarkerText.CanonicalDetermines | src/claude_code_codex_review_loop/transport/marker.py:72-84 | two payloads with the same canonical text are the same payload |
| MarkerText.CanonicalCount | src/claude_code_codex_review_loop/identity/record_chain.py:231-232 | the canonical text holds the reserved token exactly if the text of one of its string values does |
| MarkerReading.AttachedReads | src/claude_code_codex_review_loop/identity/record_chain.py:222-290 | what was composed and attached to a text is read back as itself exactly if the projection is one of its kind and neither the text nor a value holds the reserved token; otherwise the marker is irregular |
| MarkerReading.MarkedExactly | src/claude_code_codex_review_loop/identity/record_chain.py:222-290 | a body is read as the marker of a payload exactly if its last line is the marker composed from that payload and the token occurs nowhere else in it |
| MarkerReading.EmptyProjectionRefused | src/claude_code_codex_review_loop/identity/record_chain.py:157-290 | a marker composed with the default projection is irregular to every reader |
| MarkerReading.TokenInRunRefused | src/claude_code_codex_review_loop/identity/record_chain.py:231-232 | a marker whose run is named like the token is composed and parses, and yet its body is irregular |
| MarkerReading.EscapedTextRefused | src/claude_code_codex_review_loop/identity/record_chain.py:231-232 | a text that escaping leaves alone and that makes every marker attached to it irregular |
| MarkerReading.ReaderIsValid | src/claude_code_codex_review_loop/identity/record_chain.py:222-290 | this reader meets what the record chain assumes of one |
| RecordMarkers.DecodedFits | src/claude_code_codex_review_loop/schema/projection.py:382-436 | decoding a projection accepts exactly those with all required and only allowed keys, fitting values and a result word of the kind, and returns it unchanged |
| RecordChain.IntactMeaning | src/claude_code_codex_review_loop/identity/record_chain.py:381-550 | no finding at all means exactly a gapless, unedited, linked sequence from 1 that covers the checkpoint |
| RecordChain.IntactAnchor | src/claude_code_codex_review_loop/identity/record_chain.py:501-527 | in an intact chain the anchor of an incident can only be the record before it |
| RecordChain.AgreementReachesBack | src/claude_code_codex_review_loop/identity/record_chain.py:501-527 | two intact chains that agree on one body hash agree on all earlier bodies |
| RecordChain.TruncationBoundary | src/claude_code_codex_review_loop/identity/record_chain.py:465-475 | losing every record above k goes unnoticed exactly if k is not below the high-water mark, and the first k records stay as they were |
| Redelivery.Collect | src/claude_code_codex_review_loop/identity/record_chain.py:368-378 | the loop over observations keeps the latest update of each comment |
| Redelivery.DedupeLatest | src/claude_code_codex_review_loop/identity/record_chain.py:368-378 | the pool holds, for every observed ID, an observation that none supersedes |
| Redelivery.RedeliveryIndependence | src/claude_code_codex_review_loop/identity/record_chain.py:368-378 | every permutation and duplication gives the same pool exactly if no comment has two different latest observations |
| Evidence.PaddedValue | src/claude_code_codex_review_loop/identity/record_chain.py:471-475 | the zero-padded number in a binding determines the number |
| Evidence.BindingsDistinct | src/claude_code_codex_review_loop/identity/record_chain.py:347-359 | no two reported findings share a binding, so canonicalising the evidence drops nothing |
| ChainVerifier.Classify | src/claude_code_codex_review_loop/identity/record_chain.py:404-429 | the classification loop reports exactly the irregular markers and untrusted authors and keeps exactly the candidates |
| ChainVerifier.SelectCanonical | src/claude_code_codex_review_loop/identity/record_chain.py:431-450 | each number gets its earliest comment unless its posts disagree, and every disagreement is reported |
| ChainVerifier.DropEdited | src/claude_code_codex_review_loop/identity/record_chain.py:452-463 | exactly the edited records are reported and dropped |
| ChainVerifier.FindGaps | src/claude_code_codex_review_loop/identity/record_chain.py:465-475 | exactly the unclaimed numbers up to the greatest claimed or confirmed one are reported |
| ChainVerifier.CheckKnown | src/claude_code_codex_review_loop/identity/record_chain.py:477-498 | known records that are gone or whose body changed are reported, and no others |
| ChainVerifier.CheckLinks | src/claude_code_codex_review_loop/identity/record_chain.py:500-526 | the links reported broken are exactly those broken in the recursive definition |
| ChainVerifier.VerifyRecordChain | src/claude_code_codex_review_loop/identity/record_chain.py:381-550 | the whole verification answers the one verdict the view determines, or refuses a known comment that was neither fetched nor probed |
| ChainVerifier.VerdictUnique | src/claude_code_codex_review_loop/identity/record_chain.py:381-550 | a view determines its verdict: records, violations and all |
| ChainVerifier.VerdictIntact | src/claude_code_codex_review_loop/identity/record_chain.py:146-149 | the violation list is empty exactly if the chain is intact, and then the records are 1 to the greatest number, at least the high-water mark, each unedited and naming its predecessor by the hash of its body |
| ChainVerifier.VerdictOrderFree | src/claude_code_codex_review_loop/identity/record_chain.py:368-550 | redelivered, duplicated or reordered comments give the same verdict |
| Reposts.EarliestIsNamed | src/claude_code_codex_review_loop/identity/record_chain.py:431-450 | a returned record names the earliest trusted comment that claims its number, and of equally early ones the one with the least decimal ID |
| Reposts.RepostChangesNothing | src/claude_code_codex_review_loop/identity/record_chain.py:431-463 | a later unedited repost of a claimed body changes neither the records nor the violations |
| Reposts.IntactPlainly | src/claude_code_codex_review_loop/identity/record_chain.py:381-550 | a chain is intact exactly if one can list comments that form it, said of the raw comments alone |
| Posting.FindByMarker | src/claude_code_codex_review_loop/transport/conversation.py:270-281 | the scan returns the first comment with the key and the hash, or none if there is none |
| Posting.Conversation.EnsurePosted | src/claude_code_codex_review_loop/transport/conversation.py:284-358 | one call, with every answer of the network a parameter, refuses a body without a key and otherwise changes the conversation exactly as specified |
| Posting.EnsureAtMostOnce | src/claude_code_codex_review_loop/transport/conversation.py:284-358 | one call, cut short anywhere, never makes a second copy; verified means exactly one, a mismatch none |
| Posting.AtMostOneCopyEver | src/claude_code_codex_review_loop/transport/conversation.py:284-358 | over every history of interrupted and repeated calls, with others writing in between, there is at most one copy |
| Posting.VerifiedMeansExactlyOne | src/claude_code_codex_review_loop/transport/conversation.py:80-86 | a verified outcome after any such history names the only copy |
| Posting.SearchAttemptsNeeded | src/claude_code_codex_review_loop/transport/conversation.py:361-381 | the guarantee holds exactly if at least one search follows a timeout |
| Posting.WindowNeeded | src/claude_code_codex_review_loop/transport/conversation.py:284-325 | with one copy in place no call adds a second exactly if the search window covers it |
| Posting.CalmCallVerifies | src/claude_code_codex_review_loop/transport/conversation.py:284-358 | a call that nothing disturbs ends verified |
| Posting.EnsureExactly | src/claude_code_codex_review_loop/transport/conversation.py:284-358 | when a call aborts, by which route it finds its copy, how many it adds and whether it verifies, each decided by the answers of the network alone, in both directions |
| PendingPosts.PostedIsRecognised | src/claude_code_codex_review_loop/state/pending.py:150-213 | once the reissued body is posted, the next decision is that it is there |
| PendingPosts.PostedIsThisBody | src/claude_code_codex_review_loop/state/pending.py:150-213 | what counts as posted has the key and the very body that a reissue would post |
| PendingPosts.ReissueBodyIsFixed | src/claude_code_codex_review_loop/state/pending.py:150-213 | every reissue of a transaction posts one and the same body |
| PendingPosts.ReissuedOnlyIf | src/claude_code_codex_review_loop/state/pending.py:150-213 | a record is reissued only if its number is free, it links to a verified predecessor unless it is the first, and it has the body hashed before |
| PendingPosts.UncontestedIsReissued | src/claude_code_codex_review_loop/state/pending.py:150-213 | and it is reissued whenever that holds; an interrupted first record needs no predecessor |
| PendingPosts.AnchoredOnlyIf | src/claude_code_codex_review_loop/state/pending.py:170-182 | an anchored record is reissued only directly behind its unchanged anchor |
| Reissue.ReissueReads | src/claude_code_codex_review_loop/state/pending.py:190-203 | the body of a reissue is read as the payload it was composed from exactly if its projection fits and no token is in its text or values, and is irregular otherwise |
| Reissue.ReissueUnbroken | src/claude_code_codex_review_loop/state/pending.py:170-188 | the link of a reissued record is the one the chain verification computes, so it is never broken |
| Reissue.StandingIsRecognised | src/claude_code_codex_review_loop/state/pending.py:150-213 | a reissued body that stands uncontested and unedited has a sound record, its link included, and the next decision is that it is posted |
| Reissue.PostedOnceAndRecognised | src/claude_code_codex_review_loop/transport/conversation.py:284-358 | after any history of interrupted calls a verified post is the one copy, and where the chain verification sees it uncontested and unedited the interrupted record counts as posted |
| SubmitOnce.Controller.SubmitResult | src/claude_code_codex_review_loop/workflow/engine.py:945-1048 | the submit path over the stored fields changes them exactly as specified |
| SubmitOnce.Controller.AdvanceRun | src/claude_code_codex_review_loop/workflow/engine.py:634-772 | the advance path over the stored fields changes them exactly as specified |
| SubmitOnce.ConsumedOnce | src/claude_code_codex_review_loop/workflow/engine.py:634-1048 | over any interleaving no attempt is consumed twice, no action yields two results, attempts stay within the greatest budget of any call and the ledger within 32 |
| SubmitOnce.AcceptedIsRecorded | src/claude_code_codex_review_loop/workflow/engine.py:827-942 | the checkpoint changes exactly if a submit is accepted, and then holds the receipt of that envelope |
| SubmitOnce.ResendIsReplayed | src/claude_code_codex_review_loop/workflow/engine.py:996-1003 | while the receipt is held the same envelope is answered with it and any other for the attempt is refused, whatever the budget of the call |
| SubmitOnce.ResultKindsMatchRegistry | src/claude_code_codex_review_loop/workflow/actions.py:186-236 | the result kinds of an action are exactly what the state machine lets a host produce while it is awaited |
| Handover.CompletedExactly | src/claude_code_codex_review_loop/workflow/engine.py:827-880 | a completed result is consumed exactly if it binds the pending attempt for the first time and answers the work the action was issued for |
| Handover.CompletedHandsOver | src/claude_code_codex_review_loop/workflow/engine.py:866-880 | a consumed result leaves its record pending from the state it was made in, ends the attempt, and the next advance asks for the emergency stop or for publishing it, never for an action |
| Handover.FailureExactly | src/claude_code_codex_review_loop/workflow/engine.py:883-942 | a failure is consumed exactly if it binds the pending attempt for the first time |
| Handover.RetryGoesOn | src/claude_code_codex_review_loop/workflow/engine.py:912-929 | a transient failure below both limits keeps machine and action, and the next advance issues the next attempt with the same correlation |
| Handover.FailureEndsAction | src/claude_code_codex_review_loop/workflow/engine.py:930-942 | any other failure ends the action and leaves the run as a failure does: interrupted with the state to return to, or waiting as before |
| Demands.DemandedExactly | src/claude_code_codex_review_loop/workflow/engine.py:655-690 | which demand comes first, exactly: the stop, the halt, the incident, the publication, the block |
| Demands.AdvanceServes | src/claude_code_codex_review_loop/workflow/engine.py:735-772 | live work of the host is issued as the one action for it, the user is waited for, anything else is left alone |
| Demands.UnconsumedIsReissued | src/claude_code_codex_review_loop/workflow/engine.py:703-716 | an issued action that was not consumed is issued again unchanged, exactly if nothing else is demanded and chain and envelope are intact |
| GuardedLedger.TakeGuard | src/claude_code_codex_review_loop/state/store.py:158-174 | the guard is taken at the first free try, after at least one and at most the given number of tries |
| GuardedLedger.NoLostUpdate | src/claude_code_codex_review_loop/state/store.py:135-182 | in every interleaving of guarded writers, deaths included, at most one is inside and the ledger is the saved changes applied in guard order, each once |
| GuardedLedger.SavedAdditionStands | src/claude_code_codex_review_loop/runtime/host_headless.py:134-158 | a tree whose addition was saved stays in the ledger until a saved removal of it |
| GuardedLedger.LedgerMembers | src/claude_code_codex_review_loop/workflow/checkpoint_view.py:1055-1086 | a tree is in the ledger exactly if the last change about it added it, or there was none and it was there |
| GuardedLedger.UndisturbedWrite | src/claude_code_codex_review_loop/state/store.py:135-182 | a writer that finds the guard free and is left alone makes exactly its change and gives the guard back |
| GuardedLedger.FailedWriteBacksOut | src/claude_code_codex_review_loop/state/store.py:135-182 | a writer that cannot load gives the guard back and changes nothing |
| UnguardedSaves.NothingLostIffFresh | src/claude_code_codex_review_loop/state/store.py:138-147 | with unguarded loads and saves in between, no saved tree change is ever lost exactly if every unguarded save finds the ledger as it was loaded |
| UnguardedSaves.AdditionLost | src/claude_code_codex_review_loop/workflow/engine.py:405-440 | an interleaving in which a tree registered under the guard is forgotten by an unguarded save |
| PrLock.PlaySound | src/claude_code_codex_review_loop/state/lock.py:185-254 | in every interleaving the guard excludes, and every takeover was of the owner then in the file |
| PrLock.TwoSuccesses | src/claude_code_codex_review_loop/state/lock.py:174-254 | two acquisitions with no removal in between are one run on one host, and the first owner was judged dead |
| PrLock.ReplaceExactly | src/claude_code_codex_review_loop/state/lock.py:235-254 | a process inside the guard that has read the lock ends as its owner exactly if nobody held it or an owner of its host and run was judged dead; otherwise file and log are unchanged |
| PrLock.UndisturbedAttempt | src/claude_code_codex_review_loop/state/lock.py:185-254 | an undisturbed attempt acquires exactly in those cases with a free guard, and leaves nothing behind otherwise |
| PrLock.FreeLockIsAcquired | src/claude_code_codex_review_loop/state/lock.py:185-254 | after any history that left guard and lock free a new process acquires the lock |
| PrLock.UndisturbedRelease | src/claude_code_codex_review_loop/state/lock.py:257-272 | a release frees the lock exactly if the file names the run and the process of the caller |
| Stopping.Site.Halt | src/claude_code_codex_review_loop/workflow/halt.py:192-245 | asks the machine, stops, then saves, exactly as specified |
| Stopping.Site.EmergencyStop | src/claude_code_codex_review_loop/workflow/emergency.py:166-212 | carries out a recorded request exactly as specified |
| Stopping.HaltIsCrashSafe | src/claude_code_codex_review_loop/workflow/halt.py:100-245 | through any crashes running trees stay in the ledger, and the run is where it was or where one undisturbed halt would have brought it, with nothing running |
| Stopping.CalmHaltCompletes | src/claude_code_codex_review_loop/workflow/halt.py:192-245 | an undisturbed halt completes |
| StopOutcomes.HaltExactly | src/claude_code_codex_review_loop/workflow/halt.py:100-245 | a halt completes exactly if every tree dies and the save succeeds; at a tree that cannot be stopped it keeps that and all later ones; a crash leaves the ledger as it was |
| StopOutcomes.EmergencyExactly | src/claude_code_codex_review_loop/workflow/emergency.py:166-212 | the same for an emergency stop, which keeps its whole ledger until every tree is dead |
| Stopping.EmergencyIsCrashSafe | src/claude_code_codex_review_loop/workflow/emergency.py:116-212 | the same for an emergency stop, whose request stays until nothing runs |
| Stopping.EmergencyRefusedOnlyInMerging | src/claude_code_codex_review_loop/workflow/emergency.py:146-163 | the emergency completion is refused exactly while a run merges outside a procedure |
| Stopping.EmergencyStuckWhileMerging | src/claude_code_codex_review_loop/workflow/emergency.py:185-194 | in that case no number of emergency stops ever reaches a tree |
| Stopping.StopStaysDemanded | src/claude_code_codex_review_loop/workflow/engine.py:655-667 | through any crashes, either the stop is saved as done or the next step of the run is still that stop |
| StopHistory.OwedUntilNothingRuns | src/claude_code_codex_review_loop/workflow/emergency.py:116-212 | over every history of halts, stop requests and emergency stops running trees stay in the ledger, and a request or a procedure survives unchanged for as long as any tree runs |
| StopHistory.OwedIsDemanded | src/claude_code_codex_review_loop/workflow/engine.py:655-667 | the next step of the run is the emergency stop exactly if one is requested, and the halt exactly if a procedure waits for it and none is requested |
| StopHistory.StopDemandedWhileRunning | src/claude_code_codex_review_loop/workflow/engine.py:655-667 | after any such history the next step of the run is a stop or nothing runs |
| StopHistory.FollowIsCrashSafe | src/claude_code_codex_review_loop/workflow/halt.py:192-245 | doing what the run asks for, through any crashes and failures, leaves a stop still owed or exactly the checkpoint of undisturbed stops with nothing running |
| StopHistory.TwoCallsSettle | src/claude_code_codex_review_loop/workflow/emergency.py:166-212 | two undisturbed calls settle every owed stop exactly if the run is not merging outside a procedure |
| StopHistory.MergingTreeKeepsRunning | src/claude_code_codex_review_loop/workflow/emergency.py:146-194 | a run on its way to a merge at which every emergency stop fails: its tree is never reached |
| MarkerEscape.NoTokenLeft | src/claude_code_codex_review_loop/transport/marker.py:66-69 | no reserved token is left in any letter case, not even across replacement borders |
| MarkerEscape.UnchangedMeaning | src/claude_code_codex_review_loop/transport/marker.py:66-69 | a text is left alone exactly if it holds no token, and the count says so |
| MarkerEscape.SanitizeIdempotent | src/claude_code_codex_review_loop/transport/marker.py:66-69 | escaping twice is escaping once |
| MarkerEscape.SanitizePointwise | src/claude_code_codex_review_loop/transport/marker.py:66-69 | a character keeps its letter, or is an underscore that becomes a tilde |
| MarkerEscape.EscapedTextVisible | src/claude_code_codex_review_loop/identity/record_chain.py:406-409 | an escaped text is still taken for one with a marker exactly if it held the token ending in one particular character |
| MarkerEscape.VisibleAfterEscape | src/claude_code_codex_review_loop/identity/record_chain.py:406-409 | a text of fourteen characters that escaping leaves alone and that is taken for one with a marker |

## Left out

- Process spawning, signals and permissions: stopping a tree is an answer that it is dead, unknown or cut short, liveness of a process is an answer, replacing a file is one step.
- Transport: the HTTP client, its retries, paging and rate limits. A search is complete or fails; a post takes effect or not, with or without a reply.
- Posting.Conversation.EnsurePosted: paging is part of a search, which covers its window or fails; bodies have normalised newlines.
- MarkerReading.AttachedReads: a JSON text that is not canonical for known names and scalars is one kind of irregular marker, where the code words the refusals differently; characters are Unicode scalar values, so unpaired surrogates do not occur.
- The JSON text of the checkpoint and SHA-256: hashes are injective functions, the field names of the state section are distinct symbols.
- Schema validation and migration of stored files, and the fields of a record that only travel along (URLs, summaries).
- PersistRecord execution, incident composition and user input: they enter only as events of the machine and as other work on the checkpoint.
- The order in which independent findings are appended: a verification is stated on the canonical list, which does not depend on it.
- SubmitOnce.Controller.AdvanceRun: requests for an intervention in a blocked run are one outcome, because issuing them is user input.
- GuardedLedger.NoLostUpdate: covers the writers that take the guard; the engine, the halt and the emergency stop save without it, and what that costs is `UnguardedSaves`.
- PrLock.TwoSuccesses: says nothing about releases, which run outside the guard and compare the run and the process number but not the host.
- Posting.AtMostOneCopyEver: assumes one caller at a time, that nobody else posts the very same body under the same key, and that a post takes effect before its reply or timeout or never: one that takes effect only after the follow-up search would be a second copy.
- Stopping.HaltIsCrashSafe: the second interrupt that shortens the grace period is not modelled; it only repeats an idempotent stop.
- StopHistory.OwedUntilNothingRuns: no tree is started during a history of stops; the same holds for the histories of Stopping.
- MarkerEscape.EscapedTextVisible: upper-casing is modelled for the characters whose upper-case form contains a letter of the token; all others stand for themselves.
- Direct answers, reconciliation, discovery, rendering, redaction, the command line and the configuration: short decisions and presentation over values the modelled parts do not use.
