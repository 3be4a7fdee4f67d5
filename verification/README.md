# Verified model of the tabletop backend

The backend of a tabletop game keeps four kinds of shared state, and this
project models the rules by which they change and proves what those rules
guarantee.

* **The canonical session ledger** stores a world snapshot per command, a hash
  chained event per command, idempotency receipts, a ledger of open decisions
  and one projection per actor. Before every transition the server verifies
  what the previous one wrote. `LedgerTables`, `LedgerRules` and `LedgerStore`
  model it; `LedgerChain`, `LedgerActors`, `LedgerDecisions`, `LedgerRuns`,
  `LedgerTheorems`, `LedgerResponses` and `LedgerAcceptance` prove that every
  run keeps the invariant the verifiers check, that retries are exact, and that
  the server never refuses its own data. `LedgerIntegrity`, `LedgerPermission`,
  `LedgerRefusals` and `LedgerWrites` say exactly which sessions and
  submissions are accepted, how each other one is refused, and what a commit
  writes.
* **Canonical JSON** is what the ledger hashes: a decoder that rejects
  duplicate keys and a printer with UTF-16 key order (section 3.2.3 of RFC
  8785), over the grammar of RFC 8259. `Utf16`, `CanonicalText`,
  `CanonicalJson` and `CanonicalCodec` model the two; `CanonicalRoundTrip`
  proves that they are inverse, `CanonicalStrings`, `CanonicalSpellings` and
  `CanonicalGrammar` that the decoder accepts exactly the grammar and spelling
  does not matter, `CanonicalShortest` that no text of a value is shorter than
  its canonical one.
* **Encounters, character sheets and runtime commands** share rows: encounter
  operations edit combatants and write through to sheets, which three other
  endpoints also write. `EncounterState`, `EncounterRules`, `SheetRules`,
  `CommandRules` and `TabletopStore` model the endpoints; `CombatantLists`,
  `EncounterSteps`, `TabletopInvariant`, `EncounterKeeps`, `TabletopRuns`,
  `TabletopTheorems`, `TabletopPortraits`, `SheetTheorems` and
  `CommandTheorems` prove the invariants that span all writers;
  `EncounterPermission`, `EncounterRefusals`, `EncounterContract`,
  `CommandContract` and `SheetContract` say exactly which requests are
  accepted, how others are refused, and what is written.
  `EventStream` models live delivery of encounter events, `EventDelivery` proves
  what a client is written and `HubSteps` ties the hub class to its protocol;
  `LockOrder` and `LockJobs` model the row locks, and
  `LockedWrites` shows that they cover what the endpoints write.
* **Exact-support batches** overwrite certification data of content rows, all
  or none. `SupportBatch` models preparation, classification and writing, and
  `SupportContract` says exactly which batches are accepted.

Each database transaction is a method that either changes the tables or leaves
them as they were; the methods of the `Store` classes and of `ContentStore`
are proved equal to a specification function, and the theorems are about runs
of those functions. Delivery and locking are small-step models over their
interleavings. Hash functions, schema checks of the database, the reading of
request structures and the printing of odd values are parameters (`Env`), so
the theorems hold for any of them; distinctness of hashes is assumed only where
a lemma says so. `LedgerExample` and `TabletopExample` build smallest instances
on which a command commits and a sheet joins.

## What the code does differently from its documentation

* A comment at `backend/canonical_session_controller.go:571-573` promises an
  exact retry to the still-active caller. The code rejects observers before it
  looks for the receipt, so a caller who was made an observer is refused.
  `LedgerTheorems.ExactRetry` states the exact condition,
  `LedgerTheorems.DemotedRetryForbidden` the failing case after any command,
  and `LedgerExample.FirstRetryForbidden` one at a concrete session.
* A joining sheet whose `temp_hp` is not an integer leaves its combatant with
  the fraction and the sheet without it, so the two are not mirrored exactly.
  `TabletopExample.FractionIsLost` reaches that by three accepted requests from
  empty tables, `TabletopTheorems.MirrorExactIff` gives the exact condition
  over runs.
* A batch whose rows are left exactly as its preimage describes is written
  again by a second run instead of being reported as already applied.
  `SupportBatch.NoOpBatchRepeats` gives the input, `SupportBatch.SecondRun` the
  exact condition.
* A failing replay query is ignored by the event stream
  (`backend/encounter_controller.go:801-808`); the model counts those events as
  skipped.

## Model

| member | source | states |
|---|---|---|
| TextRules.TrimSpaceIs | backend/canonical_session_controller.go:335-337 | trimming takes white space off both ends, all of it and nothing else |
| TextRules.Utf8LengthIs | backend/canonical_session_controller.go:335-337 | a text has one byte per character and one more for each of three code point thresholds the character reaches |
| Utf16.CompareUtf16 | backend/canonical_json.go:204-226 | the index loop computes the lexicographic order of the UTF-16 code units |
| Utf16.EncodeInjective | backend/canonical_json.go:204-206 | different texts have different UTF-16 code units |
| Utf16.OrderTotal | backend/canonical_json.go:204-226 | the comparison is antisymmetric and zero only for equal texts |
| Utf16.OrderTransitive | backend/canonical_json.go:204-226 | the comparison is transitive |
| Utf16.OrderVersusCodePoints | backend/canonical_json.go:204-226 | the order differs from code point order only at a surrogate pair against a unit above the surrogates |
| CanonicalText.SortedUnique | backend/canonical_json.go:176-183 | sorting the keys gives one sequence whatever order the map was visited in |
| CanonicalText.SortedKeysOrdered | backend/canonical_json.go:181-183 | the sorted keys are strictly increasing and complete |
| CanonicalCodec.Decoder.DecodeValue | backend/canonical_json.go:40-99 | the token loop consumes exactly the text of one value, or reports the same error as the grammar function |
| CanonicalCodec.Decoder.DecodeMembers | backend/canonical_json.go:51-78 | the object loop rejects a repeated key and otherwise builds the map of its members |
| CanonicalCodec.DecodeUniqueJson | backend/canonical_json.go:24-38 | one value and nothing after it, as the decoding function says |
| CanonicalCodec.CollectSortedKeys | backend/canonical_json.go:176-183 | keys collected in any order end up in the one sorted sequence |
| CanonicalCodec.AppendString | backend/canonical_json.go:228-258 | appends the quoted and escaped text and nothing else |
| CanonicalCodec.AppendCanonical | backend/canonical_json.go:114-202 | appends the canonical text of a value and nothing else |
| CanonicalCodec.CanonicalizeRawJson | backend/canonical_json.go:260-270 | the value of a text and its canonical text, or the decoding error |
| CanonicalRoundTrip.ScanPrintedNumber | backend/canonical_json.go:126-139 | a printed integer is read back in front of anything that ends a number |
| CanonicalRoundTrip.ScanEscapedText | backend/canonical_json.go:228-258 | an escaped text is read back up to its closing quote |
| CanonicalRoundTrip.ParsePairs | backend/canonical_json.go:51-78 | members read in sequence are merged one by one, failing at a repeated key |
| CanonicalRoundTrip.MergeSucceeds | backend/canonical_json.go:62-69 | merging succeeds exactly when no key repeats |
| CanonicalRoundTrip.AllReadable | backend/canonical_json.go:24-202 | every printed value is read back in any context |
| CanonicalRoundTrip.RoundTrip | backend/canonical_json.go:24-270 | decoding the canonical text of a value returns that value |
| CanonicalRoundTrip.TextInjective | backend/canonical_json.go:106-202 | different values have different canonical texts |
| CanonicalRoundTrip.CanonicalizeIdempotent | backend/canonical_json.go:260-270 | canonicalizing a canonical text gives the same value and text |
| CanonicalStrings.PrintedCharacter | backend/canonical_json.go:233-256 | a printed character has a backslash exactly if it is the quote, the backslash or below the space, with the short form where there is one and lower-case digits otherwise |
| CanonicalStrings.PrintedText | backend/canonical_json.go:228-258 | a text is printed character by character |
| CanonicalStrings.SpellingRead | backend/canonical_json.go:40-50 | every spelling of a text, with raw characters, short escapes, hexadecimal groups and surrogate pairs, is read as that text |
| CanonicalStrings.ScannedSpelling | backend/canonical_json.go:40-50 | every string literal that is accepted is such a spelling |
| CanonicalStrings.HexValueIs | backend/canonical_json.go:40-50 | the value of a hexadecimal digit of either case |
| CanonicalStrings.PrintedShortest | backend/canonical_json.go:228-258 | no literal of a text is shorter than the printed one |
| CanonicalSpellings.DecodeWritten | backend/canonical_json.go:24-99 | a document with white space anywhere decodes to the value it denotes if no object at any depth repeats a key, and is a duplicate otherwise |
| CanonicalSpellings.SpellingIrrelevant | backend/canonical_json.go:24-270 | white space and the order of members, at every depth, change neither the value nor the canonical text |
| CanonicalGrammar.DecodeIff | backend/canonical_json.go:24-99 | a text decodes to a value if and only if it is a written document of that value with no key twice, in white space; everything else is refused |
| CanonicalGrammar.FractionUnsupported | backend/canonical_json.go:40-50 | a numeral that goes on with a fraction or an exponent is reported as unsupported |
| CanonicalShortest.CanonicalShortest | backend/canonical_json.go:106-202 | no text that decodes to a value is shorter than its canonical text |
| CanonicalShortest.KeysAscend | backend/canonical_json.go:176-199 | the canonical text of an object lists all its members with strictly increasing keys and commas alone between them |
| WorldState.CollectIds | backend/canonical_session_controller.go:404-416 | the loop returns the identifiers exactly when all are stable and distinct |
| WorldState.OtherFieldsIgnored | backend/canonical_session_controller.go:339-431 | snapshots that agree on the seven fields read are accepted or refused alike and give the same view |
| WorldState.ExactParts | backend/canonical_session_controller.go:339-443 | parts of an exact snapshot are exact and its processed ids are distinct |
| LedgerTables.ResponseRoundTrip | backend/canonical_session_controller.go:866-872 | a response survives being stored as JSON and read back |
| LedgerTables.Prepare | backend/canonical_session_controller.go:191-333 | an accepted request is its decoded body with matching hash, checked envelope, inspected snapshot and exact metadata |
| LedgerRules.VerifyProcessedAppend | backend/canonical_session_controller.go:1160-1173 | accepts exactly the old history followed by the semantic id |
| LedgerRules.PrepareActorProjections | backend/canonical_session_controller.go:1181-1266 | the loop over the bindings computes the specified projections or the first error |
| LedgerChain.HeadAccepted | backend/canonical_session_controller.go:956-1101 | a chain in order passes the verification of the stored session and of its snapshot head |
| LedgerChain.NewEventMatches | backend/canonical_session_controller.go:667-692 | the stored event payload describes the new head |
| LedgerChain.SuccessionMeaning | backend/canonical_session_controller.go:613-646 | an accepted snapshot keeps identity, mode and ruleset, does not turn the clock back and appends one id |
| LedgerChain.TransitionExtendsChain | backend/canonical_session_controller.go:657-857 | a committed transition extends the chain by one linked event and snapshot and stores its response |
| LedgerChain.FindSnapshotAt | backend/canonical_session_controller.go:986-998 | looking a snapshot up by number finds the one with that number |
| LedgerChain.MaxSeqIsLength | backend/canonical_session_controller.go:1320-1334 | the next event number is one more than the number of events |
| LedgerActors.BoundIsBijection | backend/canonical_session_controller.go:1103-1145 | an accepted correspondence gives every world actor exactly one row with equal canonical bytes |
| LedgerActors.ProjectActorMeaning | backend/canonical_session_controller.go:1201-1261 | an accepted binding keeps identity, controller and kind and changes only what the caller may change |
| LedgerActors.UpdateActorsMeaning | backend/canonical_session_controller.go:785-800 | each projection is written into its own row and no other row changes |
| LedgerActors.ActorsStep | backend/canonical_session_controller.go:945-954 | a transition keeps every actor's identity, changes only source or declared targets the caller may mutate, and leaves rows bound to the new world |
| LedgerDecisions.PlanMeaning | backend/canonical_session_controller.go:1345-1487 | which decision is closed and which is opened, by old and new pending resolution |
| LedgerDecisions.DecisionStep | backend/canonical_session_controller.go:1530-1600 | after a transition exactly one row is open if a resolution is pending and none otherwise, it is the pending resolution, identities stay distinct, and the response reports it |
| LedgerDecisions.ResolveCloses | backend/canonical_session_controller.go:1538-1550 | resolving the open row leaves none open and changes no other |
| LedgerRuns.GenesisHolds | backend/canonical_session_controller.go:1010-1015 | a session without commands satisfies the invariant |
| LedgerRuns.TransitionKeeps | backend/canonical_session_controller.go:513-864 | a transition replays a receipt and changes nothing, or commits and keeps the invariant |
| LedgerRuns.RunKeeps | backend/canonical_session_controller.go:513-864 | the invariant holds after every run of submissions and outside changes, and history only grows |
| LedgerRuns.ReachableAccepted | backend/canonical_session_controller.go:560-566 | the verification accepts every reachable session, snapshots are numbered 0 to n and revision minus number is constant |
| LedgerIntegrity.SessionIff | backend/canonical_session_controller.go:956-984 | the stored session is verified if and only if text and hash are those of its snapshot and version and revision agree, and is an internal error otherwise |
| LedgerIntegrity.HeadIff | backend/canonical_session_controller.go:986-1101 | the head is verified if and only if the newest snapshot row repeats the session and its event repeats both, field by field |
| LedgerIntegrity.BoundIff | backend/canonical_session_controller.go:1103-1145 | actors are bound if and only if every playing row is an intact world actor of its own with its controller and kind and there are no others |
| LedgerTheorems.PrepareReadsValue | backend/canonical_session_controller.go:191-254 | a request is its decoded value, whatever its spelling |
| LedgerTheorems.KnownCommand | backend/canonical_session_controller.go:553-578 | a known command id is answered from its receipt or refused, whatever the session's status |
| LedgerTheorems.ExactRetry | backend/canonical_session_controller.go:571-578 | at any later point the same value from the same caller gets the same response and changes nothing, exactly if the caller is an active member and no observer |
| LedgerTheorems.DemotedRetryForbidden | backend/canonical_session_controller.go:571-578 | whatever command was answered, its caller, still a member but made an observer since, is forbidden to read the answer again |
| LedgerTheorems.OtherInputRefused | backend/canonical_session_controller.go:1294-1296 | a used command id with another caller or hash is a conflict |
| LedgerTheorems.OnlyStoredValueAnswered | backend/canonical_session_controller.go:1268-1318 | with distinct hashes a used command id is answered exactly for the stored value and caller |
| LedgerTheorems.OneEventPerCommand | backend/canonical_session_controller.go:712-767 | each command has exactly one event |
| LedgerTheorems.OneSnapshotPerEvent | backend/canonical_session_controller.go:772-784 | each event has exactly one snapshot and links the hashes on both sides |
| LedgerTheorems.HistoryAt | backend/canonical_session_controller.go:624-643 | the k-th world has processed the genesis ids and the first k commands and kept its identity and ruleset |
| LedgerTheorems.ClockMonotone | backend/canonical_session_controller.go:627-629 | the logical clock never decreases along the chain |
| LedgerTheorems.CommandHistory | backend/canonical_session_controller.go:400-416 | in every reachable session the processed ids are the genesis list followed by the committed semantic ids, without repetition |
| LedgerTheorems.ProjectionChangesOnlyIf | backend/canonical_session_controller.go:1247-1255 | a step changes a projection only by a commit whose caller declared and may mutate that actor |
| LedgerTheorems.CommitBindsActors | backend/canonical_session_controller.go:1103-1145 | after every commit active rows and world actors are in bijection |
| LedgerTheorems.DecisionNeverReused | backend/canonical_session_controller.go:1454-1473 | a decision row keeps its identities and body for ever and no other row ever has them |
| LedgerTheorems.PendingHasOpenRow | backend/canonical_session_controller.go:1375-1394 | in every reachable session exactly one row is open while a resolution is pending, and its body is that resolution |
| LedgerAcceptance.NeverInternal | backend/canonical_session_controller.go:513-864 | no submission to a session with bound actors ends in an internal error |
| LedgerAcceptance.CommitLeavesBound | backend/canonical_session_controller.go:785-817 | whatever the actors were, a commit leaves them and the decider bound |
| LedgerAcceptance.RunNeverInternal | backend/canonical_session_controller.go:560-655 | along every run without outside changes of actors no submission ends in an internal error |
| LedgerResponses.EventRecords | backend/canonical_session_controller.go:663-687 | the event of a commit records source, targets, metadata and both revisions |
| LedgerResponses.ResponseDescribes | backend/canonical_session_controller.go:818-834 | the response describes the head and event it leaves and has exactly one hash per active actor |
| LedgerResponses.CommitAuthorized | backend/canonical_session_controller.go:585-608 | a commit presupposes that the caller controls the source and that source and targets are active with active members |
| LedgerPermission.InspectIff | backend/canonical_session_controller.go:339-443 | a snapshot is accepted if and only if its seven fields have their shape, and is then seen as it is |
| LedgerPermission.PrepareIff | backend/canonical_session_controller.go:191-333 | a body is prepared if and only if size, document, envelope, snapshot and metadata are allowed |
| LedgerPermission.FreshIff | backend/canonical_session_controller.go:549-655 | a new command commits if and only if caller, session, source, targets, actors, succession, changes and decisions are allowed and the database accepts the rows |
| LedgerPermission.ChangeNeedsRight | backend/canonical_session_controller.go:945-954 | whatever is submitted, a projection changes only for an active member with the elevated capability, or who controls or owns the actor, and only if the actor was declared |
| LedgerPermission.RightSuffices | backend/canonical_session_controller.go:1247-1255 | any of the three rights is enough for a declared change of an intact actor to be projected |
| LedgerPermission.ForeignChangeForbidden | backend/canonical_session_controller.go:1247-1255 | a submission whose only fault is a change of a foreign or undeclared actor is forbidden |
| LedgerPermission.ControllerChangeForbidden | backend/canonical_session_controller.go:1201-1255 | a submission whose only fault is a new controller of an actor is forbidden |
| LedgerPermission.OpenRowIff | backend/canonical_session_controller.go:1345-1394 | the stored open decision is accepted if and only if it repeats the pending resolution field by field |
| LedgerPermission.LedgerMismatch | backend/canonical_session_controller.go:1345-1394 | an open decision without a pending resolution, or the reverse, is a conflict, and one that does not match it an internal error |
| LedgerRefusals.EnvelopeRefusals | backend/canonical_session_controller.go:262-333 | a badly written envelope is a bad request, a foreign version or size cannot be processed |
| LedgerRefusals.BodyRefusals | backend/canonical_session_controller.go:191-249 | which response class each fault of a body has |
| LedgerRefusals.HandsRefusals | backend/canonical_session_controller.go:924-943 | an actor nobody controls, or nobody owns where that is asked for, cannot be processed; one of a member who left, or whose controller observes, is forbidden |
| LedgerRefusals.TargetsRefusals | backend/canonical_session_controller.go:596-606 | the first target not in order decides |
| LedgerRefusals.SuccessionRefusals | backend/canonical_session_controller.go:609-644 | another base, serializer or version is in conflict, a world that does not succeed the stored one cannot be processed |
| LedgerRefusals.BindingRefusals | backend/canonical_session_controller.go:1201-1261 | which response class each fault of a binding has, and the projection otherwise |
| LedgerRefusals.FirstFault | backend/canonical_session_controller.go:1201-1261 | of several bindings the first with a fault decides |
| LedgerRefusals.DecisionRefusals | backend/canonical_session_controller.go:1345-1487 | which response class each fault of decision metadata has |
| LedgerRefusals.CommitRefusals | backend/canonical_session_controller.go:657-857 | a used semantic id or event hash is in conflict, a snapshot the database refuses cannot be processed, and nothing else stops an admitted submission |
| LedgerRefusals.DamagedRefused | backend/canonical_session_controller.go:553-572 | whatever is stored, a session, head or event that is not intact is an internal error to a member, retries included |
| LedgerPermission.FreshRefusals | backend/canonical_session_controller.go:553-612 | membership, ruleset, session, source and base are checked in this order, each with its refusal |
| LedgerWrites.FreshWrites | backend/canonical_session_controller.go:657-857 | a commit leaves in every table exactly the new session row, event, snapshot, command, projections and decision rows, field by field |
| LedgerWrites.FreshResponse | backend/canonical_session_controller.go:818-857 | the answer names command, head, event, the decision opened or closed, and the hash of every playing actor |
| LedgerResponses.ResolveAuthorized | backend/canonical_session_controller.go:1403-1411 | only the assigned controller with the deciding actor or an elevated member closes a decision |
| LedgerResponses.OpenAssigned | backend/canonical_session_controller.go:1419-1473 | an opened decision is assigned to the active controller of source or target and has unused identities |
| LedgerExample.FirstCommandCommits | backend/canonical_session_controller.go:513-864 | a concrete genesis is in order and a concrete first command commits on it |
| LedgerExample.FirstRetryForbidden | backend/canonical_session_controller.go:571-578 | the concrete first command, committed and sent again by its caller as an observer, is forbidden |
| LedgerStore.InferBindings | backend/canonical_session_controller.go:1103-1145 | the loop succeeds exactly on a one-to-one correspondence and returns the bindings |
| LedgerStore.CurrentReadable | backend/canonical_session_controller.go:445-511 | every active member can read a bound session in order, and gets the stored snapshot and the bindings of all active actors |
| LedgerIntegrity.CurrentIff | backend/canonical_session_controller.go:445-511 | a member, observers included, is shown the session if and only if session, head and actors are intact, and then the stored columns and one binding per playing actor |
| LedgerIntegrity.ReceiptIff | backend/canonical_session_controller.go:1268-1318 | a stored answer is given out if and only if it is committed, intact, its caller's and the request's, and repeats what the request asked for |
| LedgerIntegrity.AnswerWritten | backend/canonical_session_controller.go:74-97 | the members of a stored answer by name, with the hash of each actor and the status of a decision |
| LedgerStore.Store.GetCurrent | backend/canonical_session_controller.go:445-511 | a member reads the verified head and its bindings |
| LedgerStore.Store.UpdateProjections | backend/canonical_session_controller.go:785-800 | the loop writes every projection |
| LedgerStore.Store.Write | backend/canonical_session_controller.go:712-857 | the writes in their order give the specified tables or the specified error |
| LedgerStore.Store.Settle | backend/canonical_session_controller.go:531-858 | a transition on prepared input writes everything or nothing |
| LedgerStore.Store.ApplyTransition | backend/canonical_session_controller.go:513-864 | a transition on a request body keeps the invariant, grows the history and equals its specification |
| Identifiers.ParseUuidIff | backend/encounter_authorization.go:90-109 | a text is read as an identifier if and only if, up to case, it is its dashed form, plain, prefixed or between two characters, or its bare digits |
| EncounterState.ApplyInPlace | backend/encounter_controller.go:39-83 | removing, patching and appending in place computes the specified state |
| EncounterState.IndexOf | backend/encounter_controller.go:51-58 | finds the first combatant with the id or none |
| EncounterState.AppliedCombatants | backend/encounter_controller.go:59-83 | the combatants of the new state are the survivors with patches and then the additions |
| EncounterContract.ApplyState | backend/encounter_controller.go:76-82 | an accepted operation sets round and turn to what was asked for or leaves them, touches no other field but the combatants, advances the sequence by one and stores the operation |
| EncounterContract.TurnIsLastNamed | backend/encounter_controller.go:76-82 | in every reachable store round and turn are those of the last event that named one, initially 1 and 0 |
| EncounterContract.ApplyCombatants | backend/encounter_controller.go:39-83 | an accepted operation keeps the combatants not removed in order, each field with the last value patched into it, and appends sheets with their stored values and creatures with their declared fields |
| EncounterContract.ApplyVersions | backend/encounter_controller.go:151-220 | a sheet advances by one version exactly if the operation adds it or patches a mirrored field of its actor, and is otherwise not touched |
| EncounterState.PayloadRoundTrip | backend/encounter_controller.go:85-96 | an operation survives its stored payload, which has no precondition in it |
| EncounterState.ReplayStep | backend/encounter_controller.go:691-701 | storing an event and applying its operation are the same step of the replay |
| CombatantLists.RemoveAllKeeps | backend/encounter_controller.go:59-63 | on a well-formed list removal by position is filtering by name |
| CombatantLists.PatchAllEach | backend/encounter_controller.go:64-70 | on a well-formed list each patch reaches exactly the combatant it names |
| EncounterSteps.AddsMeaning | backend/encounter_authorization.go:482-524 | accepted additions bring new actors and the caller's own new sheets, each once |
| EncounterSteps.PatchesMeaning | backend/encounter_authorization.go:447-460 | accepted patches write bounded interaction fields of actors the caller may touch |
| EncounterSteps.AccessMeaning | backend/encounter_authorization.go:133-161 | reading the actors of a well-formed list succeeds and lists exactly them |
| EncounterSteps.AddedIs | backend/encounter_authorization.go:576-617 | an added combatant carries the requested name and the authoritative sheet reference or none |
| EncounterSteps.ListAfter | backend/encounter_controller.go:651-653 | an accepted operation leaves a list without repeated actors or sheets |
| EncounterPermission.ApplyIff | backend/encounter_authorization.go:430-540 | on every store in order an operation is accepted if and only if version, sizes, participation, rights over actors, turn, additions and addressed sheets are allowed |
| EncounterPermission.ApplyRefusals | backend/encounter_controller.go:559-600 | shape, identity, existence, participation and version are checked in this order, each with its refusal |
| EncounterPermission.ForeignPatchForbidden | backend/encounter_authorization.go:447-460 | a well-formed patch of an actor the caller may not touch is forbidden |
| EncounterRefusals.ApplyFaults | backend/encounter_authorization.go:430-540 | on every store in order, the first fault in the order of the checks decides the response class, and without a fault the operation is accepted |
| EncounterRefusals.PatchFaults | backend/encounter_authorization.go:447-460 | of the patches the first not allowed decides: forbidden for an existing actor the caller may not touch, bad input otherwise |
| EncounterRefusals.AddFaults | backend/encounter_authorization.go:482-524 | of the additions the first not allowed decides: used names and sheets are a conflict, strangers' sheets and creatures forbidden, the rest bad input |
| EncounterPermission.StoredIff | backend/encounter_authorization.go:68-161 | stored combatants, whatever wrote them, are accepted if and only if they are objects with distinct names that refer to existing sheets or none |
| EncounterPermission.UnreadableRefused | backend/encounter_authorization.go:68-161 | an operation on unreadable combatants is unacceptable and writes nothing |
| EncounterPermission.MalformedAddition | backend/encounter_authorization.go:68-88 | a malformed reference in an addition is bad input |
| EncounterPermission.ElsewhereIs | backend/encounter_controller.go:119-143 | a sheet counts as elsewhere only if it points to another existing encounter that names it |
| EncounterPermission.ApplyJournal | backend/encounter_controller.go:226-255 | an accepted operation appends one journal row for each entry that addresses a sheet of the encounter, in order, and no other |
| EncounterPermission.CreateContract | backend/encounter_controller.go:296-328 | an encounter is created empty, in its first round, with its creator as master and only member |
| EncounterPermission.JoinContract | backend/encounter_controller.go:482-542 | joining is open to participants, owners of a combatant's sheet and the invited, and makes the caller a member once |
| EncounterPermission.JoinAnyStore | backend/encounter_controller.go:482-542 | the same on any store, where unreadable combatants make joining unacceptable |
| EncounterPermission.DeleteContract | backend/encounter_controller.go:348-409 | an encounter is deleted exactly by its master, and its sheets are in none afterwards |
| EncounterRules.CheckAdditions | backend/encounter_authorization.go:490-524 | the loop over additions computes the specified known identities or the first error |
| EncounterRules.SyncCombatants | backend/encounter_controller.go:151-220 | the loop over combatants writes each through to its sheet |
| TabletopInvariant.SyncAllMeaning | backend/encounter_controller.go:151-220 | every linked combatant is written to its own sheet once and nobody else's sheet changes |
| TabletopInvariant.PatchMirrors | backend/encounter_controller.go:178-206 | patched hit points written through keep sheet and combatant equal |
| TabletopInvariant.JoinMirrors | backend/encounter_authorization.go:587-604 | a sheet that joins with its own values is mirrored |
| EncounterKeeps.SheetsStep | backend/encounter_controller.go:651-743 | after an operation every combatant is tracked by its sheet, leavers are unlinked and all other sheets are unchanged |
| EncounterKeeps.EnteringIsFree | backend/encounter_controller.go:119-143 | a sheet that enters was in no encounter |
| TabletopRuns.ApplyKeeps | backend/encounter_controller.go:548-755 | an encounter operation keeps the invariant of all tables |
| TabletopRuns.DeleteKeeps | backend/encounter_controller.go:351-403 | deleting an encounter keeps the invariant |
| TabletopRuns.UpdateKeeps | backend/character_v3_controller.go:361-450 | the full sheet update keeps the invariant |
| TabletopRuns.PatchKeeps | backend/character_v3_controller.go:665-698 | the runtime patch keeps the invariant |
| TabletopRuns.DeleteSheetKeeps | backend/character_v3_controller.go:479-501 | deleting a sheet keeps the invariant |
| TabletopRuns.CommandKeeps | backend/character_runtime_command.go:519-644 | a runtime command keeps the invariant |
| TabletopRuns.RunKeeps | backend/encounter_controller.go:548-755 | the invariant holds after every run of all endpoints |
| TabletopTheorems.LinkIff | backend/encounter_controller.go:703-737 | in every reachable store a sheet points to an encounter exactly when it is its combatant |
| TabletopTheorems.OneEncounterEach | backend/encounter_controller.go:119-143 | no sheet is in two encounters and no combatant refers to a deleted sheet |
| TabletopTheorems.CombatantsUnique | backend/encounter_authorization.go:133-143 | no actor and no sheet appears twice in an encounter |
| TabletopTheorems.StoredStateAccepted | backend/encounter_authorization.go:68-161 | the checks on stored combatants never refuse a state the store wrote |
| TabletopTheorems.StateIsReplay | backend/encounter_controller.go:691-701 | every reachable state is the replay of its events, numbered 1 to seq |
| TabletopTheorems.MirrorHolds | backend/encounter_controller.go:145-220 | in every reachable store hit points agree, temporary ones up to their fraction, and exactly iff the combatant's are integral |
| TabletopTheorems.ExactIff | backend/encounter_authorization.go:554-604 | an encounter of integral combatants stays so iff every joining sheet has integral temporary hit points |
| TabletopTheorems.MirrorExactIff | backend/encounter_authorization.go:554-604 | along every run from empty tables the mirror is exact at every moment iff every sheet has integral temporary hit points when it joins |
| TabletopTheorems.ChangedByOwner | backend/encounter_authorization.go:447-524 | an operation changes a sheet's runtime only for its owner or the master |
| TabletopPortraits.PortraitsHold | backend/encounter_authorization.go:576-617 | in every reachable store a sheet's combatant carries its owner and agrees with its effects through the one re-encoding, every other combatant is a creature without sheet or owner, and the turn counters are in range |
| TabletopPortraits.ForgedFieldsIgnored | backend/encounter_authorization.go:576-617 | two requests whose joining sheets differ in anything but actor, sheet and initiative have the same answer, tables and stored event |
| CommandRules.CheckInventory | backend/character_runtime_command.go:230-275 | the two passes accept exactly bounded distinct rows whose containers are present |
| CommandRules.CheckConsumptionRows | backend/character_runtime_command.go:277-307 | the lookup accepts exactly inventories that only consume |
| CommandRules.MergeTurn | backend/character_runtime_command.go:363-376 | the loop computes the merged turn state in any order |
| CommandRules.AdvanceParticipants | backend/character_runtime_command.go:582-611 | the loop advances the participants or stops at the first error |
| SheetRules.BuildRuntimeUpdates | backend/character_v3_controller.go:51-91 | the column by column updates drop what an encounter owns and keep its temporary hit points |
| SheetContract.PatchContract | backend/character_v3_controller.go:641-714 | a runtime patch is accepted exactly from a writer at the version it names, writes every column named but those an encounter owns and no other, and advances the version exactly if there is something to write |
| SheetContract.PutContract | backend/character_v3_controller.go:333-461 | a full update is accepted exactly from a writer who keeps the sheet's kind, and stores draft, maximum and, outside encounters, hit points |
| SheetContract.CreateContract | backend/character_v3_controller.go:196-290 | a sheet is created with the values asked for, at version zero and in no encounter |
| SheetContract.DeleteContract | backend/character_v3_controller.go:464-515 | a sheet is deleted exactly by a writer and while it is in no encounter |
| CommandTheorems.StepVersioned | backend/character_v3_controller.go:408-442 | no action of any endpoint changes a runtime under the same version or lowers a version |
| CommandTheorems.VersionFaithful | backend/character_runtime_command.go:571-602 | between any two moments of a run the same version means the same runtime |
| CommandTheorems.PatchLosesNothing | backend/character_v3_controller.go:675-696 | a patch accepted at the version it read applies to the runtime it read |
| CommandTheorems.CommandAtomic | backend/character_runtime_command.go:518-644 | a commit advances every participant by one version and appends each event once, a refusal changes nothing |
| CommandContract.CommandIff | backend/character_runtime_command.go:380-611 | a command is accepted if and only if the request is well formed and it is a replay or every participant is the caller's, in this system, free, at its version, and its patch fits |
| CommandContract.CommandRefusals | backend/character_runtime_command.go:380-611 | every command is answered by the first that applies of an unknown caller, a body over the size, a body that is no request, a used id, a foreign participant, the first participant that is not current, and a patch that does not fit |
| CommandTheorems.ReplayAnytime | backend/character_runtime_command.go:526-538 | the same value at any later time returns the stored response marked replayed and changes nothing |
| CommandTheorems.ReceiptDecides | backend/character_runtime_command.go:526-538 | after a command was answered its id is, at any later time, a replay for a body with the stored hash and a conflict for any other |
| CommandTheorems.CommandBounded | backend/character_runtime_command.go:380-418 | after a command resources are within declared maxima, set hit points within theirs and a set inventory is well formed |
| CommandTheorems.CommandsOnlyConsume | backend/character_runtime_command.go:277-307 | along any run of commands no quantity grows anywhere |
| CommandTheorems.MergeTwice | backend/character_runtime_command.go:363-376 | merging the same patch again changes nothing |
| CommandTheorems.MergesCollapse | backend/character_runtime_command.go:363-376 | any number of merges in a row are one merge of their patches, later ones over earlier ones |
| SheetTheorems.WritersOfColumns | backend/character_v3_controller.go:47-91 | across all endpoints each group of columns changes only by the owner's own request, or, for the combat columns of a sheet in an encounter, by an operation of its owner or the master |
| SheetTheorems.EncounterOwnsCombat | backend/character_v3_controller.go:47-91 | over every run without an operation on the encounter or its deletion, a sheet in it stays in it with the same hit points, effects and temporary hit points |
| SheetTheorems.UndoIff | backend/character_v3_controller.go:51-91 | a patch can be undone by another iff it wrote no column for the first time |
| SheetTheorems.PatchUndone | backend/character_v3_controller.go:641-714 | patching back the columns named leaves the runtime as it was, two versions later |
| SheetTheorems.JournalMeaning | backend/encounter_controller.go:226-255 | journal rows are exactly the addressed entries of sheets in the encounter |
| TabletopExample.SheetJoins | backend/encounter_controller.go:548-755 | from empty tables a sheet with any runtime can join an encounter, and then each points to the other |
| TabletopExample.FractionIsLost | backend/encounter_controller.go:192-206 | three accepted requests from empty tables end with 2.5 temporary hit points on the combatant and 2 on its sheet |
| TabletopStore.NormalizeAdds | backend/encounter_authorization.go:578-617 | the loop builds the authoritative additions |
| TabletopStore.Store.CreateEncounter | backend/encounter_controller.go:309-328 | a new encounter is empty and owned by its creator |
| TabletopStore.Store.JoinEncounter | backend/encounter_controller.go:482-542 | joining adds the caller once |
| TabletopStore.Store.DeleteEncounter | backend/encounter_controller.go:348-409 | deleting unlinks every sheet of the encounter |
| TabletopStore.Store.LinkAll | backend/encounter_controller.go:703-722 | the loop links exactly the entering sheets |
| TabletopStore.Store.UnlinkAll | backend/encounter_controller.go:723-737 | the loop unlinks exactly the leaving sheets that point here |
| TabletopStore.Store.Admit | backend/encounter_controller.go:559-664 | everything checked before the first write, as specified |
| TabletopStore.Store.ApplyOperation | backend/encounter_controller.go:548-755 | an operation makes all of its writes or none and keeps the invariant |
| TabletopStore.Store.CreateSheet | backend/character_v3_controller.go:196-290 | a new sheet starts unlinked at version zero |
| TabletopStore.Store.UpdateSheet | backend/character_v3_controller.go:333-461 | the full update keeps hit points inside an encounter and advances the version |
| TabletopStore.Store.PatchSheetRuntime | backend/character_v3_controller.go:641-714 | the runtime patch compares the version, writes its columns and advances the version once |
| TabletopStore.Store.DeleteSheet | backend/character_v3_controller.go:464-515 | a linked sheet is not deleted |
| TabletopStore.Store.PostRuntimeCommand | backend/character_runtime_command.go:497-650 | a command replays its receipt or commits for all participants |
| EventStream.EncounterHub.Subscribe | backend/encounter_controller.go:860-869 | a new empty channel joins the encounter's set |
| EventStream.EncounterHub.Unsubscribe | backend/encounter_controller.go:871-881 | the channel leaves, an empty set is dropped, the channel is closed |
| EventStream.EncounterHub.PublishLocal | backend/encounter_controller.go:885-899 | every subscriber with room gets the frame and nobody else does |
| EventStream.SubscribeUndone | backend/encounter_controller.go:860-881 | unsubscribing undoes subscribing |
| EventStream.NextKeeps | backend/encounter_controller.go:757-956 | every step of committers, listener and streamers keeps each event accounted for |
| EventStream.NothingLostSilently | backend/encounter_controller.go:794-832 | in every interleaving each event past since is written, on its way, or visibly dropped, skipped or missed |
| EventStream.AllDelivered | backend/encounter_controller.go:943-956 | after a smooth run at rest a live streamer has written every event past since |
| EventDelivery.ReplayIsExact | backend/encounter_controller.go:799-808 | a client whose query succeeded is written from the log, in order, exactly the events past its since that were committed at the query |
| EventDelivery.OnlyCommittedWritten | backend/encounter_controller.go:794-832 | only committed events are written, and from the log only those past since |
| EventDelivery.RelayedInOrder | backend/encounter_controller.go:885-956 | what a channel relays is a subsequence of what the listener heard, and no event is relayed twice |
| EventDelivery.HeardWhileConnected | backend/encounter_controller.go:885-956 | between a disconnection and the next connection nothing announced is heard, between a connection and the next disconnection everything is |
| EventDelivery.ChannelsBounded | backend/encounter_controller.go:900-956 | a channel holds at most 64 frames, nothing of it is written before the log has been, and a missed event never turns up later |
| EventStream.SubscribeLateLoses | backend/encounter_controller.go:757-808 | reading the log before subscribing would lose an event |
| HubSteps.PublishIsRun | backend/encounter_controller.go:885-899 | serving the subscribers in any order is a run of the protocol with one outcome |
| HubSteps.SubscribeShown | backend/encounter_controller.go:860-869 | a hub that shows a protocol state shows the state after the opening step once it has subscribed |
| HubSteps.UnsubscribeShown | backend/encounter_controller.go:871-881 | a hub that shows a protocol state shows the state after the closing step once it has unsubscribed |
| HubSteps.PublishShown | backend/encounter_controller.go:885-899 | a hub that shows a protocol state shows the state after the publication, full channels included |
| TextOrder.SortedAscends | backend/encounter_authorization.go:121 | rows sorted by id are strictly ascending |
| TextOrder.PrecedesIff | backend/encounter_authorization.go:121 | one text precedes another if and only if it is smaller at the first difference or a proper beginning |
| LockJobs.ProgramIncreases | backend/encounter_authorization.go:111-131 | the lock program of every job, encounter, sheet, command or batch, follows the global order |
| LockJobs.DeadlockFree | backend/encounter_controller.go:346-376 | no reachable lock state of transactions that run the endpoints' programs has a cycle of waits |
| LockJobs.Progress | backend/character_runtime_command.go:520-548 | in every reachable lock state with an open transaction one can get its next lock or has all of its own |
| LockJobs.ProgramsDisjoint | backend/character_runtime_command.go:520-548 | two open transactions with all their locks have no row in common |
| LockedWrites.WritesAreLocked | backend/encounter_controller.go:548-755 | every encounter and sheet row that any endpoint changes or removes is in the lock program of its job |
| LockedWrites.ConcurrentWritesDisjoint | backend/encounter_controller.go:548-755 | two actions whose transactions have all their locks change no row in common |
| SupportBatch.SortInPlace | backend/content_support_batch_controller.go:138-146 | sorting orders the entries and keeps exactly them |
| SupportBatch.PrepareBatch | backend/content_support_batch_controller.go:61-148 | accepts exactly well-formed batches without repeated identity and returns their entries in lock order |
| SupportContract.BatchIff | backend/content_support_batch_controller.go:61-136 | a batch is well formed if and only if header, sizes and every entry are allowed and no identity repeats |
| SupportContract.PreparedAsks | backend/content_support_batch_controller.go:108-146 | a prepared batch asks of each row what the request asked, and in certification mode a certified object |
| SupportBatch.ComparableMeaning | backend/content_migration_controller.go:337-345 | the comparison is equality of every column but `updated_at` |
| SupportBatch.ContentStore.ApplyExactSupportBatch | backend/content_support_batch_controller.go:195-284 | locking, classifying and writing give the specified rows or leave them alone |
| SupportBatch.ClassifyMeaning | backend/content_support_batch_controller.go:204-242 | what the classification flags say about the rows |
| SupportBatch.AcceptedMeaning | backend/content_support_batch_controller.go:243-281 | a batch is accepted only when all rows are preimages, and written, or all are already restored, and left alone |
| SupportBatch.AllOrNothing | backend/content_support_batch_controller.go:195-284 | an accepted batch leaves every requested support in place and every other column and row as it was |
| SupportContract.ApplyIff | backend/content_support_batch_controller.go:195-284 | a batch is accepted if and only if every row is as expected or as asked, none waits while others are done, no lock is cleared and every write sticks |
| SupportContract.ApplyFaults | backend/content_support_batch_controller.go:204-281 | a refused batch names the first row that is missing or disagrees |
| SupportBatch.MixedRefused | backend/content_support_batch_controller.go:243-245 | a partly applied store is refused |
| SupportBatch.LocksStay | backend/content_support_batch_controller.go:222-225 | no accepted batch clears a mechanics lock |
| SupportBatch.SecondRun | backend/content_support_batch_controller.go:243-281 | a second run reports already applied and writes nothing iff the first one moved some row; otherwise it writes every row again and reports them as updated, unless a write does not stick |
| SupportBatch.NoOpBatchRepeats | backend/content_support_batch_controller.go:243-281 | a concrete valid batch that moves nothing reports its row as updated on every run |
| SupportBatch.ReverseRestores | backend/content_migration_controller.go:347-363 | the reverse of a written batch is accepted iff it clears no lock, and restores every row up to `updated_at` |

## Left out

- CanonicalCodec.Decoder.DecodeValue: a numeral with a fraction or exponent, or beyond magnitude 2^53, is reported as unsupported where the code goes on to decode it, because its decimal form is the float formatter's.
- CanonicalCodec.DecodeUniqueJson: the same limit on numerals as `DecodeValue`.
- CanonicalCodec.CanonicalizeRawJson: the same limit on numerals as `DecodeValue`.
- CanonicalCodec.AppendCanonical: prints values whose numbers are integers of magnitude at most 2^53; the float formatter's output for others is not modelled.
- CanonicalRoundTrip.AllReadable: stated for values of exact integers, the domain of the printer.
- CanonicalRoundTrip.RoundTrip: stated for values of exact integers, the domain of the printer.
- CanonicalRoundTrip.TextInjective: stated for values of exact integers, the domain of the printer.
- CanonicalSpellings.DecodeWritten: the same limit on numerals as `DecodeValue`.
- CanonicalSpellings.SpellingIrrelevant: the same limit on numerals as `DecodeValue`.
- CanonicalGrammar.DecodeIff: the grammar has the same limit on numerals as `DecodeValue`.
- CanonicalShortest.CanonicalShortest: stated for values of exact integers, the domain of the printer.
- Fractions outside canonical JSON: tabletop values hold them as exact numbers, and a number with an integral value is the same however it was written there; the canonical decoder refuses it when it is written with a fraction or exponent.
- UTF-8 bytes: texts are sequences of Unicode scalar values; byte lengths are computed, invalid UTF-8 does not occur.
- The JSON tokenizer's own limits, such as nesting depth.
- The reading of request structures: a parameter gives the request that a decoded body denotes; unknown fields and wrong types are its refusals.
- The database's validation of a snapshot, its job and execution tables, deadlines and default decisions, and timestamps other than the event's.
- Member roles outside the four known ones: the database admits none, so they are a type here.
- Several sessions and several encounters' locks in the ledger: one session's tables are one value; its row lock makes transitions atomic.
- Changes of actors, membership and status made elsewhere: they are arbitrary outside steps of a run.
- HTTP, authentication, invitations (their validity is a parameter), listing endpoints and the append-only event endpoints of sheets.
- The difference between absent and empty lists in a stored payload.
- The schemas of effects, pending saves, pending attacks and journal events, and the re-encoding of effect rows: parameters.
- Sizes of encoded runtime maps and rows in bytes.
- Free-form columns of a sheet draft: one opaque value.
- Numerical overflow of versions and sequence numbers.
- The choice of `since` from query and header, recovery after a dropped frame, and sending to a channel that has just been closed; the class publishes to all subscribers in one call, the protocol one by one.
- Advisory locks are keys by their hash; shared locks of the ledger are not part of the lock model.
- Locks that the database takes on its own for foreign keys.
- The schema of certified support values: a parameter.
- Content creation and rollback receipts, exact updates and the single-entity support rollback.
