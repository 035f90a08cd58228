# Peer registry verification

A model of the daemon's peer registry and of the protocols around it, with proofs about every reachable state and every
interleaving. The registry keeps live peer records under a five-state lifecycle, a durable mapping row per identity,
retirement tombstones, pane ownership, a singleton orchestrator role, and repair passes that look, drop the lock, probe
and commit. Beside it stand the deferred flush of mapping rows, the redelivery of stashed replies, the join of background
goroutines, the bounded event window with its stream reader, the recency set of finalised turns, and history pagination.

How it is laid out:

- `Peers.dfy`, `Fsm.dfy`: records, rows, tombstones; the lifecycle diagram.
- `Naming.dfy`, `Resolution.dfy`, `RoleClaims.dfy`: the display-name search, addressing and circle access, the role claim.
- `RegistrySpec.dfy`: what each critical section does to the registry's state. Where the code iterates over a map the
  result is a relation that admits every iteration order, so theorems hold for all of them.
- `Registry.dfy`: the class with the source's fields; every method is proved to do what `RegistrySpec` says and to keep
  the invariant. Probe answers, the clock and the set of connected peers are arguments.
- `TombstoneLaws.dfy`: when a tombstone does not hold.
- `AddressingLaws.dfy`, `RequestLaws.dfy`, `EffectLaws.dfy`: what resolution, access, registration and the edits come to, told
  in the fields of requests, records and rows alone, without the predicates the operations are written with.
- `RegistrySteps.dfy`, `RegistrationLaws.dfy`, `Runs.dfy`: the class as a transition system with one step per critical
  section, what every step keeps, the laws of registration, and safety over whole runs. A pass that drops the lock is two
  steps with arbitrary other steps between them.
- `Flush.dfy`, `Redelivery.dfy`, `Goroutines.dfy`, `PaneStrikes.dfy`: the protocols as interleaving machines, with the
  source's critical sections as classes.
- `Witnesses.dfy`: runs from a hydrated start that reach the failing side of the conditions below.
- `Collections.dfy`: sizes of sets and elements of sequences.
- `Events.dfy`, `FinalizedTurns.dfy`, `History.dfy`: the event window against an unbounded ghost log, the recency set
  against the full history of marks, and the pages against the full list.

Where a claim that looks obvious is false of the code, the exact condition under which it holds is proved instead, for
every input or run, beside an input or run that breaks it:

- a row left in the store without its record: `Flush.OrphanedExactlyWhen`, `Flush.DeletionSticksExactlyWhen`, reached by
  `Witnesses.DeletedRowReturns`;
- a successful registration that leaves its peer retired: `RegistrationLaws.RegistrantIsLiveExactlyWhen` and, told before
  the call, `RegistrationLaws.EndsRetiredExactlyWhen`, reached by `Witnesses.ReclaimedYetRetired`;
- a close without a hard tombstone, and a hard tombstone that turns soft: `Runs.CloseHardensExactlyWhen`,
  `Runs.HardSoftensExactlyWhen`, reached by `Witnesses.ClosedYetSoft` and `Witnesses.HardYetSoftened`;
- a retired id that comes to life although its tombstone, even a hard one, stands: `TombstoneLaws.WakesDormantExactlyWhen`
  and, over runs, `Runs.HardRetirementIsFinal`, reached by `Witnesses.HardYetAdopted` and `Witnesses.ProvenForAnother`;
- two live records on one pane: `RegistrationLaws.SharingBeginsExactlyWhen` and, over runs, `Runs.SharingBeginsByRegistering`,
  reached by `Witnesses.TwoOnOnePane`;
- a display name shared with a live peer of another session: `Naming.NameCollidesExactlyWhen`;
- a role claim that leaves two orchestrators: `RoleClaims.ClaimIsExclusiveExactlyWhen`, reached by
  `Witnesses.TwoOrchestratorsAtHome`;
- a stash cleared unsent: `Redelivery.MarkClearsSentExactlyWhen`, reached by `Witnesses.RenewedStashVanishes`;
- an event left undelivered: `Events.QuietMeansUpToDateExactlyWhen`, with `Events.DrainSwallowsWake`;
- pages that skip turns: `History.PagesCoverExactlyWhen`, with `History.TiedTurnIsLost`.

Three places where the code and its comments differ, modelled as the code has them: a comment says that collapsing the wake
after the initial flush is safe because everything buffered was delivered (daemon-go/hub/events_stream.go:78-85), yet an
event pushed during the flush loses its wake; the comments describe a stash as cleared on its own delivery and left as
found otherwise (daemon-go/peer/reconcile.go:306-309), yet the mark clears whatever stash the ask carries by then; and hard
retirement is called final (daemon-go/peer/registry.go:84-87) and a tombstone is said to stop a re-registration through a
persisted mapping (daemon-go/peer/registry.go:890-894), yet an ordinary terminal mark or a reap may overwrite it as soft, and
taking over an Offline record or adopting a row does not look at tombstones at all.

## Model

| member | source | states |
|---|---|---|
| Fsm.EdgesAreTransitions | daemon-go/peer/fsm.go:50-107 | the diagram's edges are exactly the moves some event makes |
| Fsm.RetiredIsAbsorbing | daemon-go/peer/fsm.go:100-104 | no sequence of events without the reclaim event leaves Retired, illegal ones being ignored |
| Fsm.DeadRevivesOnlyByReconnect | daemon-go/peer/fsm.go:91-104 | any event sequence that brings an Offline or Retired record back live contains a reconnect or a reclaim |
| Fsm.RegisteredStaysReportable | daemon-go/peer/fsm.go:112-123 | once registered, a record has a wire status after any sequence of events |
| Naming.DecimalInjective | daemon-go/peer/registry.go:797-820 | different suffix numbers print differently |
| Naming.DecimalReadsBack | daemon-go/peer/registry.go:797-820 | the printed suffix reads back as its number |
| Naming.CandidatesDistinct | daemon-go/peer/registry.go:797-820 | the names tried are pairwise different strings |
| Naming.RejectionsBounded | daemon-go/peer/registry.go:781-820 | rejected candidates consume distinct live blockers, so there are at most as many as peers |
| Naming.FindBlocker | daemon-go/peer/registry.go:797-812 | some holder of the name in the circle, whichever is met first, or none exists |
| Naming.BuildDisplayName | daemon-go/peer/registry.go:781-820 | the search ends, after at most one candidate more than there are peers, with the first name not rejected: unheld in the circle, or its inspected holder is Offline or of the same runtime session; every earlier candidate had a distinct live holder |
| Naming.SomeNameIsChosen | daemon-go/peer/registry.go:781-820 | in every state the search has an outcome |
| Naming.ChosenNameIsFree | daemon-go/peer/registry.go:797-812 | while the circle has one holder per name, the chosen name collides with no live peer of another session |
| Naming.NameCollidesExactlyWhen | daemon-go/peer/registry.go:797-820 | some order of the search returns a name held by a live peer of another session if and only if some candidate has both such a holder and one that is Offline or of the same session, and every earlier candidate has such a holder |
| Resolution.UnscopedIsDeterministic | daemon-go/peer/registry_read.go:60-148 | unscoped resolution gives the same answer for every iteration order and every set of connected peers |
| Resolution.UnscopedFoundExactlyWhen | daemon-go/peer/registry_read.go:60-148 | by name and unscoped, a peer is returned if and only if it is the sole viable holder or the sole viable one with a pane |
| Resolution.ScopedStaysInCircle | daemon-go/peer/registry_read.go:66-147 | scoped to a circle a name is never ambiguous, always finds a holder in the circle if there is one, and leaves the circle only for a sole circle-bypassing holder |
| Resolution.ResolutionIsTotal | daemon-go/peer/registry_read.go:60-148 | every state and request has an answer |
| Resolution.MaximalExists | daemon-go/peer/registry_read.go:137-178 | the order (connected, paned, last seen) has a maximal candidate in every non-empty set |
| Resolution.DeniedMeansOutsider | daemon-go/peer/registry_access.go:32-79 | whoever is refused is an ordinary peer of another circle than an ordinary target's, and, if given by name, has no namesake in that circle |
| Resolution.DeniedExactlyWhen | daemon-go/peer/registry_access.go:32-79 | access may be refused to a peer if and only if the call does not bypass circles and the sender string means that ordinary peer, by id or by a name without namesake there, toward some ordinary target of another circle |
| AddressingLaws.IdsComeFirst | daemon-go/peer/registry_read.go:60-74 | an id answers itself whatever the circle, a string that is neither id nor name nobody, and whoever is answered by name bears it |
| AddressingLaws.ScopedAnswerIsBest | daemon-go/peer/registry_read.go:97-165 | scoped to a circle with holders, the answer is one of them, offline only if all are, and no other one that is not offline is connected while it is not, or alike in that owns a pane while it does not, or alike in both was seen later |
| AddressingLaws.FoundElsewhereExactlyWhen | daemon-go/peer/registry_read.go:82-93 | a name without a holder in the asked circle is found if and only if its one holder anywhere is a service, an orchestrator or a human |
| AddressingLaws.UnscopedAnswer | daemon-go/peer/registry_read.go:97-135 | unscoped, a name answers the only holder not offline, or the only one if all are, or else the only one of those with a pane; it answers nobody only without holders |
| AddressingLaws.AccessBetweenIds | daemon-go/peer/registry_access.go:32-79 | between two ids, access is refused if and only if there is no bypass, the circles differ and neither role is service, orchestrator or human; else it is granted from the one to the other |
| AddressingLaws.StrangersAreLetThrough | daemon-go/peer/registry_access.go:32-63 | a sender nobody knows is never refused and counts as nobody |
| RegistrySpec.HydratedRows | daemon-go/peer/registry.go:177-212 | hydration stores every row under its own id and invents none |
| RegistrySpec.LastRowWins | daemon-go/peer/registry.go:177-212 | of several stored rows with one id the last is kept |
| RegistrySteps.TransitionIsTame | daemon-go/peer/fsm.go:50-107 | any event but the two reviving ones keeps status and state in lockstep, follows the diagram, revives nothing and leaves Retired alone |
| RegistrySteps.RenameIsTame | daemon-go/peer/registry.go:1039-1070 | a rename keeps the agreement of records and rows and revives nothing, ghosts evicted with their rows left behind |
| RegistrySteps.RemovalsAreTame | daemon-go/peer/registry.go:1296-1328 | reaping and evicting drop record and row together and disturb no other agreement |
| RegistrySteps.NonAllocationIsTame | daemon-go/peer/registry.go:888-1070 | every critical section but registration keeps the invariant, adds no record or row, revives nothing, keeps Retired, and either leaves surviving rows alone or marks the table dirty under a higher version |
| RoleClaims.PhaseCompletes | daemon-go/peer/claim_role.go:97-132 | demoting the holders one by one, live ones first, then crowning, then demoting row-only holders, adds up to the one-shot effect of the claim |
| RoleClaims.ClaimKeepsInv | daemon-go/peer/claim_role.go:97-132 | a claim keeps records and rows in agreement |
| RoleClaims.ClaimIsExclusiveExactlyWhen | daemon-go/peer/claim_role.go:67-132 | a successful claim, about the circle given or, if none or an empty one is, the target's own, leaves the target sole orchestrator there, in records and rows, seen now; and of its own circle if and only if that was the circle or no row of another held the role there |
| Witnesses.TwoOrchestratorsAtHome | daemon-go/peer/claim_role.go:67-120 | a run in which a claim about a foreign circle succeeds and leaves two orchestrators in the claimant's own |
| RoleClaims.SoleMeansNoHolders | daemon-go/peer/claim_role.go:97-132 | sole in records and rows together is the same as having no other holder among the rows |
| RoleClaims.HoldersAfterClaim | daemon-go/peer/claim_role.go:97-132 | the claim empties its circle of other holders and no other circle |
| RoleClaims.ClaimRefusedExactlyWhen | daemon-go/peer/claim_role.go:72-95 | a resolved claim fails if and only if another Online or Busy orchestrator of that circle was seen within the tolerance or is connected, whatever force says; then nothing changed, and the holder named is one that no other was seen after |
| RoleClaims.ClaimReportsAndSpares | daemon-go/peer/claim_role.go:97-134 | the report names exactly the other former holders of that circle, each once; they become agents in record and row, the target orchestrator, and nothing else of any record or row moves |
| RoleClaims.LookupFindsClaimant | daemon-go/peer/registry_read.go:186-213 | right after a claim about its own circle, a live target is what every orchestrator lookup within the tolerance finds |
| RoleClaims.LookupIsLatest | daemon-go/peer/registry_read.go:186-213 | a lookup finds nobody if and only if the circle has no Online or Busy orchestrator seen within the tolerance or connected, else one of them that none was seen after |
| RoleClaims.LookupFindsTheOne | daemon-go/peer/registry_read.go:186-213 | in any state, a live orchestrator alone in its circle and fresh or connected is what every lookup finds |
| RegistrationLaws.ReleaseKeeps | daemon-go/peer/registry.go:745-776 | displacing the other holders of a pane keeps every identity, row agreement and lockstep, and spares the keeper |
| RegistrationLaws.ReconnectDiscipline | daemon-go/peer/registry.go:337-418 | an in-place reconnect keeps every known identity and every other record's lifecycle on the diagram |
| RegistrationLaws.CreateDiscipline | daemon-go/peer/registry.go:481-555 | a fresh registration adds one Online record and at most the minted id's row; a durable row keeps its identity fields |
| RegistrationLaws.ChosenIdIsKnownOrMinted | daemon-go/peer/registry.go:276-335 | an id chosen without a live record is minted or names a row of the claimant's own backend |
| RegistrationLaws.RegistrationShape | daemon-go/peer/registry.go:251-555 | every registration ends in one of five ways: barred, hijack refused, reconnected in place, sticky orchestrator reused, or freshly stored |
| RegistrationLaws.BystandersAreDisplacedAtMost | daemon-go/peer/registry.go:251-555 | a registration leaves every record but the one it answers with untouched, or displaces it from the claimed pane if it was live there and no sticky orchestrator; it adds no record but its own |
| RegistrationLaws.RegistrationKeeps | daemon-go/peer/registry.go:251-555 | whatever the request carries, registration keeps the invariant, loses no record or row, never changes a known id's role, circle, name, backend or description, follows the diagram, leaves Retired only with an accepted proof, and creates or revives nobody but the peer it answers with |
| RegistrationLaws.FreshPaneIsExclusive | daemon-go/peer/registry.go:421-535 | a fresh registration that ends holding a pane shares it with no other Online or Busy record |
| RegistrationLaws.PanelessLeavesOthersAlone | daemon-go/peer/registry.go:449-479 | a fresh claimant gets its pane only if no sticky orchestrator holds it and its claim is proven against the live holder found, else is stored without a pane; stored without, every other record is unchanged |
| RegistrationLaws.OrchestratorIsSticky | daemon-go/peer/registry.go:685-776 | no registration by another id alters a live, recently seen orchestrator in any way |
| RegistrationLaws.KnownRecordIsReconnected | daemon-go/peer/registry.go:285-418 | a claim that still describes a registered record is answered with that id in place, as is any other known record but a reused orchestrator |
| RegistrationLaws.ReconnectSharesOnlyWithOrchestrators | daemon-go/peer/registry.go:373-383 | after any in-place reconnect on a pane, an orchestrator's included, the only other live records on it are sticky orchestrators |
| RegistrationLaws.SharingBeginsExactlyWhen | daemon-go/peer/registry.go:373-383 | a record that answers a registration comes to share its pane with another live record if and only if it was known, does not stay Retired, did not share it before, and either named the pane of a sticky orchestrator or named none and had kept that pane |
| RegistrationLaws.BystandersStartNoSharing | daemon-go/peer/registry.go:251-555 | a registration puts no two records on one pane that it does not answer with |
| Runs.SharingBeginsByRegistering | daemon-go/peer/registry.go:745-776 | over every run a step makes two live records share a pane if and only if it registers one of them in one of those two ways |
| Witnesses.TwoOnOnePane | daemon-go/peer/registry.go:745-776 | a run in which an Offline peer keeps its pane, another takes the pane, and the first reconnects without naming one |
| RegistrationLaws.RefusalChangesNothing | daemon-go/peer/registry.go:256-272 | a refusal changes nothing, except that a pane hijack refused after an accepted proof leaves the tombstone lifted; the retired error is given exactly when the guard finds no proof against a soft tombstone |
| RequestLaws.RetiredIsRefusedExactlyWhen | daemon-go/peer/registry.go:256-272 | a request is refused as retired if and only if its claim has a tombstone that is hard, or soft with neither a live agent process nor a verified certificate |
| RequestLaws.ClaimedTombstoneIsLifted | daemon-go/peer/registry.go:256-272 | any other answer lifts the claim's tombstone, and no request touches another tombstone |
| RequestLaws.MatchingClaimIsAnswered | daemon-go/peer/registry.go:285-300 | a claim on a record of equal backend and equal or unset path is answered with that id |
| RequestLaws.MatchingRowIsAnswered | daemon-go/peer/registry.go:301-310 | so is a claim on a row without a record, unless a sticky orchestrator is reused for its pane |
| RequestLaws.KnownAnswerMatches | daemon-go/peer/registry.go:642-647 | a known id is answered, unless as a reused orchestrator, only with equal backend and equal or unset path in record or row, under the name of its row, and unclaimed only in its circle |
| RequestLaws.MismatchedClaimIsIgnored | daemon-go/peer/registry.go:288-310 | a claim on a record of other backend or path is answered with it only if backend, circle and a fitting row lead there anyway |
| RequestLaws.MintMeansNobodyFits | daemon-go/peer/registry.go:285-335 | an id is minted only if no record or row fits: none by the claim, no Offline record and no row by name and circle |
| RequestLaws.TakeoverComesFirst | daemon-go/peer/registry.go:312-330 | without a claim, a fitting Offline record is taken over before any row is adopted |
| RequestLaws.MintedName | daemon-go/peer/registry.go:781-833 | a minted peer gets the preferred name, or folder and backend, if all holders in the circle are Offline or of its session; with holders and none such it does not, and gets number two if that is free |
| RequestLaws.SessionIsFirstText | daemon-go/peer/registry.go:826-836 | the session is the first non-empty text of the hook, runtime and plain session keys |
| RequestLaws.HijackIsRefused | daemon-go/peer/registry.go:430-447 | a hijack refusal means a record on the claimed pane, seen within the minute or connected, run by the claimant's parent; while there is one, only a known record the search led to is answered |
| RequestLaws.PaneIsGrantedExactlyWhen | daemon-go/peer/registry.go:449-479 | a new record gets its pane only free of orchestrators seen within the minute and free of live holders or not disproven against one; is refused it only otherwise; and is stored beside an orchestrator only of another backend or circle |
| RequestLaws.DisplacedInFields | daemon-go/peer/registry.go:745-776 | any record but the answered one is as it was, or was Online or Busy on the claimed pane and no such orchestrator and is now Offline without pane; and it is the latter whenever the answered one newly got that pane |
| RequestLaws.ReconnectStores | daemon-go/peer/registry.go:342-418 | field by field, what a reconnect takes from the request, what it keeps, and how it stamps the row |
| RequestLaws.NewRecordStores | daemon-go/peer/registry.go:481-555 | field by field, what a new record takes from the request and what from its durable row, and the row it leaves |
| RequestLaws.ReuseStores | daemon-go/peer/registry.go:451-465 | a reused orchestrator is seen now, takes model and turn if given, and nothing else of the registry moves |
| RegistrationLaws.RegistrantIsLiveExactlyWhen | daemon-go/peer/registry.go:342-371 | a successful registration leaves its peer live, except exactly when the id was a Retired record and no tombstone was lifted; only the claimed tombstone can go |
| RegistrationLaws.EndsRetiredExactlyWhen | daemon-go/peer/registry.go:256-371 | told before the call: some iteration order lets a registration succeed with its peer not live if and only if no tombstone stands for its claim and its claim, or a row it may adopt, names a Retired record |
| Witnesses.ReclaimedYetRetired | daemon-go/peer/registry.go:342-371 | a run from an empty start: a terminal mark, the pruning of its tombstone, and a claim answered with the id while the record stays Retired |
| Runs.StepKeeps | daemon-go/peer/registry.go:251-1070 | every step keeps the invariant, the lifecycle rules and the rules for writing rows |
| Runs.ReachableStatesAgree | daemon-go/peer/registry.go:228-247 | in every reachable state each record is under its own id, is registered, reports Online, Busy or else offline after its lifecycle state, and has a row under its id with equal name, circle, role, backend and description |
| Runs.RunFollowsDiagram | daemon-go/peer/fsm.go:50-107 | in every run each state change is an edge of the diagram, a record is created or revived only by registering that very id, and new ones are Online |
| Runs.StatusNeverRevives | daemon-go/peer/registry.go:944-985 | the redelivery branch of the status update is unreachable |
| EffectLaws.FrameIsReported | daemon-go/peer/registry.go:944-997 | a status frame for an Online or Busy record leaves that very status reported, and any other frame changes nothing |
| EffectLaws.MarkTakesOffline | daemon-go/peer/registry.go:888-925 | which records an offline mark moves, where to, and which tombstone it leaves |
| EffectLaws.RenameTakesEffect | daemon-go/peer/registry.go:1039-1070 | a rename happens if and only if every other peer of that name and backend is Offline; they go, their rows stay, and record and row bear the name |
| EffectLaws.MoveTakesEffect | daemon-go/peer/registry.go:1012-1024 | a move puts record and row in the circle and nothing else anywhere |
| EffectLaws.DescriptionTakesEffect | daemon-go/peer/registry_lifecycle_byname.go:106-130 | text, date and row of a description, the row stamped only on change |
| EffectLaws.ExpiryTakesEffect | daemon-go/peer/registry.go:228-247 | a description goes, in record and row, if and only if it was dated at least a positive ttl ago; an undated one is dated |
| EffectLaws.LiveEditsTakeEffect | daemon-go/peer/registry.go:1000-1034 | the edits of turn, tmux session, last-seen and metadata write their own field and no row |
| EffectLaws.ModelTakesEffect | daemon-go/peer/registry_access.go:120-146 | a new model reaches record and row, an equal one nothing |
| EffectLaws.UnregisterTakesEffect | daemon-go/peer/registry_lifecycle_byname.go:26-58 | record and row go and nothing else |
| EffectLaws.DemotionTakesEffect | daemon-go/peer/registry.go:1222-1251 | exactly the candidates that are Online or Busy by then go Offline |
| EffectLaws.BusyRepairTakesEffect | daemon-go/peer/reconcile.go:434-455 | exactly the Busy records with a turn under way and last seen before the cutoff come back Online and idle |
| EffectLaws.PruningTakesEffect | daemon-go/peer/registry.go:1401-1413 | exactly the tombstones dated after the cutoff stay |
| Runs.RetiredStaysRetired | daemon-go/peer/registry.go:256-272 | over every run a Retired record stays Retired and reports offline until a registration that answers with its own id after the guard accepted a proof against a soft tombstone, whatever other ids are registered or proven |
| Runs.RevivalMeansRegistration | daemon-go/peer/registry.go:342-371 | a record seen dead and later live was itself what some registration in between answered with |
| Runs.TombstoneLeavesByProofOrAge | daemon-go/peer/registry.go:256-272 | over every run a tombstone goes only by a registration claiming that id with an accepted proof while it is soft, or by reaching its age |
| TombstoneLaws.SearchIgnoresTombstones | daemon-go/peer/registry.go:285-330 | whether a claim is of use, and which ids a request is led to, do not depend on the tombstones |
| TombstoneLaws.WakesDormantExactlyWhen | daemon-go/peer/registry.go:256-330 | told before the call: some iteration order lets a registration bring a tombstoned id to life with its tombstone standing if and only if the guard does not refuse the request and lifts no tombstone of that id, the claim is of no use, and some name the search may return leads to the id: by an Offline record to take over, or with none by an adoptable row whose record is Offline, or Retired while another id's proof was accepted, or absent and admitted by the pane gates |
| Runs.DormantStaysDormant | daemon-go/peer/registry.go:256-330 | over every run a tombstoned id without a live record stays so until its tombstone is lifted by proof or pruned or a registration meets that condition |
| Witnesses.HardYetAdopted | daemon-go/peer/registry.go:855-868 | one step from a hydrated start: a closed peer's row is adopted by a namesake without claim or proof, and the id is Online under its hard tombstone |
| Witnesses.ProvenForAnother | daemon-go/peer/registry.go:256-272 | a run in which a proof accepted for one id brings back a closed peer of the same session, whose own hard tombstone stands |
| Runs.HardSoftensExactlyWhen | daemon-go/peer/registry.go:884-898 | a step turns a hard tombstone soft if and only if it is a terminal mark of that id that is no close, its record not being Retired, or a reap of that id; it removes it if and only if it prunes it by age |
| Runs.HardRetirementStands | daemon-go/peer/registry.go:84-88 | over every run a hard tombstone stays in place and hard until a step softens or prunes it; that its id stays dead needs more, see the next row |
| Runs.HardRetirementIsFinal | daemon-go/peer/registry.go:84-88 | over every run a hard-retired id without a live record stays hard-retired and without one, whatever is proven for it or for others, until its tombstone is softened or pruned or a registration meets the condition of `TombstoneLaws.WakesDormantExactlyWhen` for it |
| Runs.HardClaimsAreRefused | daemon-go/peer/registry.go:256-264 | until then every registration claiming the id is refused and changes nothing, whatever it proves |
| Runs.CloseHardensExactlyWhen | daemon-go/peer/registry.go:884-925 | closing leaves a hard tombstone except exactly when the record is already Retired without one |
| Witnesses.ClosedYetSoft | daemon-go/peer/registry.go:884-925 | a run in which a close after an ordinary terminal mark leaves the tombstone soft |
| Witnesses.HardYetSoftened | daemon-go/peer/registry.go:888-898 | a run in which an ordinary terminal mark for an id without a record turns its hard tombstone soft |
| Runs.IdentityChangesOnlyByEdit | daemon-go/peer/registry.go:285-330 | over every run the name, circle, role, backend and description of a row change only by a rename, circle move or description edit of that id, or by a role claim that it makes or that is about its circle while it is orchestrator there; never by what is done to others, nor by registering under the id |
| Runs.ClaimantIsFound | daemon-go/peer/claim_role.go:97-120 | over every run from a claim about its own circle on, lookups in the circle find the claimant whenever it is live and fresh or connected, until another record gains the role there, another peer makes a claim about that circle, or the claimant is moved or leaves |
| Runs.ReapRemovesExactlyTheDead | daemon-go/peer/registry.go:1266-1328 | with any operations between look and commit, reaping removes a record if and only if in both looks it was Offline and last seen before that look's cutoff, with equal pid and pane readings and no evidence found; record and row go together with a fresh soft tombstone, and what is spared is untouched |
| Runs.EvictRemovesExactlyTheDead | daemon-go/peer/reconcile.go:526-577 | the same for eviction, which leaves the tombstones as they were |
| Flush.OperationKeepsSystem | daemon-go/peer/registry.go:1365-1368 | any registry operation in the middle of a flush keeps the flush invariant |
| Flush.ReachableSystems | daemon-go/peer/registry.go:1371-1398 | the flush invariant holds in every interleaving of operations, row writes, commits and row deletions |
| Flush.CleanMeansStored | daemon-go/peer/registry.go:1371-1398 | whenever the table reports itself clean every row in memory equals its stored row, so a write landing mid-flush is never forgotten |
| Flush.FlushTracksHistory | daemon-go/peer/registry.go:1371-1391 | the success flag and the version comparison say exactly whether an upsert failed and whether a row was written meanwhile |
| Flush.FlushCleansExactlyWhen | daemon-go/peer/registry.go:1384-1397 | a flush leaves the table clean if and only if no upsert failed and nothing was written since its snapshot |
| Flush.StepOrphansExactlyWhen | daemon-go/peer/registry.go:1345-1353 | a step leaves a stored row without a row in memory and without a pending deletion if and only if it was so, or a deletion failed, or an upsert landed after the deletion |
| Flush.OrphanedExactlyWhen | daemon-go/peer/registry.go:1371-1398 | in every reachable state a stored row is neither in memory nor to be deleted if and only if one of those two steps happened to it before |
| Flush.DeletionSticksExactlyWhen | daemon-go/peer/registry_lifecycle_byname.go:26-58 | over every run a deleted row is stored again if and only if an upsert of it succeeded since the deletion; never when no flush was under way, or it did not hold the row, or had dealt with it |
| Flush.FlushResurrectsDeletedRow | daemon-go/peer/registry_lifecycle_byname.go:26-58 | an instance from any state with a record and a dirty table: its row, deleted mid-flush, is written back with nothing left to delete it |
| Witnesses.DeletedRowReturns | daemon-go/peer/registry.go:1371-1398 | a run from an empty start that ends with such a row |
| Redelivery.ReachableSystems | daemon-go/peer/reconcile.go:237-324 | single flight per asker and the bookkeeping of what was sent hold in every interleaving |
| Redelivery.SnapshotIsUnsent | daemon-go/peer/registry.go:622-636 | because of the single flight, neither pass ever queues a stash its asker was already sent |
| Redelivery.SnapshotsAreComplete | daemon-go/service/ask_tracker.go:541-581 | a snapshot takes up exactly the stashes owed: of the asker's own asks, or made under the gate's tuple for an asker the gate did not see |
| Redelivery.LookOpensExactlyWhen | daemon-go/peer/reconcile.go:262-298 | a worker goes on to pass two if and only if its asker is registered with name, circle, backend, path and a known machine, and no other registered peer has the same |
| Redelivery.MarkSettlesTheAsk | daemon-go/service/ask_tracker.go:489-507 | a mark leaves a still stashed ask without stash, closed, and in pass two owed to the new asker; every other ask is as it was |
| Redelivery.NoStashIsSentTwice | daemon-go/peer/reconcile.go:244-257 | under any interleaving of workers, any notify failures and any use of the tracker, no stash is successfully notified twice to one asker, over both passes |
| Redelivery.NotifyKeepsSent | daemon-go/peer/reconcile.go:310-316 | right after a success the stash is accounted for: its worker is about to mark it |
| Redelivery.MarkKeeps | daemon-go/peer/reconcile.go:318-323 | a mark takes the stash off the ask, and everything sent stays accounted for |
| Redelivery.ClearingFollowsSuccess | daemon-go/peer/reconcile.go:310-324 | redelivery takes a stash away only by a mark that follows a successful notification of that ask to that asker |
| Redelivery.MarkClearsSentExactlyWhen | daemon-go/peer/reconcile.go:310-324 | the stash a mark clears was sent to the asker if and only if the ask was not stashed anew since the worker's snapshot |
| Redelivery.RenewedStashIsLost | daemon-go/service/ask_tracker.go:459-507 | from any state with a worker about to deliver: a stash renewed before the mark is cleared although it was sent to nobody |
| Witnesses.RenewedStashVanishes | daemon-go/service/ask_tracker.go:459-507 | that delivery reached from a tracker with one stash and no worker |
| Redelivery.WorkersAreExplained | daemon-go/peer/reconcile.go:262-302 | the jobs of every worker go back to its own snapshot, in pass one of stashes its asker owned, and the gate of pass two to one earlier look of its own |
| Redelivery.RebindNeedsSoleMatch | daemon-go/peer/reconcile.go:262-302 | an ask is rebound only if an earlier look of that worker found the asker registered with every part of its tuple known and no other peer registered with the same, and the delivered stash carried that tuple and belonged to an asker not registered at that look |
| Redelivery.StashKeepsOwner | daemon-go/service/ask_tracker.go:459-523 | for as long as one stash is pending it is owed to one asker |
| Redelivery.SharedStashWasRebound | daemon-go/peer/reconcile.go:258-302 | two peers are both sent one stash only if one of them got it in pass two, as the sole registered peer with the stash's tuple at a look where the asker it was owed to was not registered |
| Redelivery.ReadGate | daemon-go/peer/reconcile.go:262-298 | collecting and comparing the matches opens the gate exactly when the asker is registered with a complete tuple that no other peer carries |
| Redelivery.RedeliverySlots.ClaimRedelivery | daemon-go/peer/registry.go:622-630 | the claim step of the worker machine: won if and only if nobody held the slot, which is held afterwards, and the loser ends |
| Redelivery.RedeliverySlots.ReleaseRedelivery | daemon-go/peer/registry.go:632-636 | the release step of the worker machine: this asker's slot is freed and no other |
| Goroutines.ReachableSystems | daemon-go/peer/registry.go:584-616 | the gate, counter and join invariant holds in every interleaving |
| Goroutines.CounterIsExact | daemon-go/peer/registry.go:584-598 | the wait counter equals the tracked goroutines admitted and unfinished |
| Goroutines.JoinIsFinal | daemon-go/peer/registry.go:610-616 | once a close has joined, nothing tracked runs or can start, so no add follows the wait |
| Goroutines.AddsPrecedeClose | daemon-go/peer/registry.go:574-590 | the counter is raised only by a spawn and only while the gate is open |
| Goroutines.Tracker.SpawnTracked | daemon-go/peer/registry.go:584-590 | the spawn step of the goroutine machine: a task is tracked and counted if and only if the gate was open |
| Goroutines.Tracker.Done | daemon-go/peer/registry.go:591-597 | the end of a task in the goroutine machine: off the count and no longer tracked |
| Goroutines.Tracker.MarkClosed | daemon-go/peer/registry.go:610-613 | the close step of the goroutine machine: the gate closes and the count is left alone |
| PaneStrikes.RetiresOnEveryThirdStrike | daemon-go/peer/reconcile.go:367-410 | over any history of probes a peer is retired exactly on every third report of a gone pane since its last sign of life, failed and inconclusive probes counting neither way |
| PaneStrikes.StrikeBoard.Collect | daemon-go/peer/reconcile.go:355-360 | drops the counts of unregistered peers and keeps all others |
| PaneStrikes.StrikeBoard.Judge | daemon-go/peer/reconcile.go:367-410 | one verdict moves one peer's count as the history function says |
| Registries.Registry.constructor | daemon-go/peer/registry.go:177-212 | for any stored rows, the hydrated registry has no record, keeps the last row of each id, and is valid |
| Registries.Registry.MarkMappingsDirty | daemon-go/peer/registry.go:1365-1368 | the table is dirty under a higher version, nothing else changes |
| Registries.Registry.MarkOffline | daemon-go/peer/registry.go:888-925 | the whole new state of an offline mark: illegal moves change nothing, a terminal one for an unknown id still leaves a tombstone; the invariant is kept |
| Registries.Registry.UpdateStatus | daemon-go/peer/registry.go:944-985 | the whole new state of a status frame, and that its redelivery branch is never taken |
| Registries.Registry.UpdateTurnState | daemon-go/peer/registry.go:1000-1008 | turn progress touches nothing of the lifecycle; the invariant is kept |
| Registries.Registry.UpdateTmuxSession | daemon-go/peer/registry.go:1028-1034 | the locator changes and nothing else; the invariant is kept |
| Registries.Registry.SetCircle | daemon-go/peer/registry.go:1012-1024 | record and row move circle together |
| Registries.Registry.UpdateDisplayName | daemon-go/peer/registry.go:1039-1070 | succeeds if and only if no other peer of that name and backend is other than Offline, whatever order they are met in; then ghosts go and record and row are renamed together, else nothing changes |
| Registries.Registry.ApplyDescriptionTTL | daemon-go/peer/registry.go:228-247 | an aged description leaves record and row together, an undated one is only dated |
| Registries.Registry.DemoteSnapshot | daemon-go/peer/registry.go:1166-1201 | exactly the Online and Busy peers that are neither connected nor brokered under the flag nor in-process, parted by whether they hold a pane |
| Registries.Registry.DemoteCommit | daemon-go/peer/registry.go:1222-1251 | every candidate still present and live goes Offline, connected again or not, and nothing else changes |
| Registries.Registry.RepairStaleBusy | daemon-go/peer/reconcile.go:422-460 | exactly the busy, working, stale records become Online and idle |
| Registries.Registry.TakeStaleSnapshot | daemon-go/peer/registry.go:1269-1284 | value copies of exactly the Offline records last seen before the cutoff |
| Registries.Registry.RemoveIfDead | daemon-go/peer/registry.go:1300-1323 | one candidate goes, record and row, if and only if it is Offline, last seen before the cutoff, of equal pid and pane reading as in the snapshot and without evidence |
| Registries.Registry.ReapCommit | daemon-go/peer/registry.go:1298-1328 | over any order of candidates, the removable ones go with a soft tombstone each and the report lists exactly them |
| Registries.Registry.EvictCommit | daemon-go/peer/reconcile.go:544-577 | the same without tombstones |
| Registries.Registry.PruneRetired | daemon-go/peer/registry.go:1401-1413 | exactly the tombstones at or before the cutoff go and are reported |
| Registries.Registry.PersistSnapshot | daemon-go/peer/registry.go:1371-1383 | nothing to do when clean, else all rows under the current version |
| Registries.Registry.PersistCommit | daemon-go/peer/registry.go:1391-1397 | clean only after success under an unchanged version |
| Registries.Registry.ReleasePane | daemon-go/peer/registry.go:745-776 | every other displaceable holder of the pane loses it and goes Offline, for every iteration order |
| Registries.Registry.ReclaimableOffline | daemon-go/peer/registry.go:840-852 | an Offline holder of the name with the same identity, or none exists |
| Registries.Registry.FindReusableMapping | daemon-go/peer/registry.go:855-868 | a row of the same identity, or none exists |
| Registries.Registry.ChooseId | daemon-go/peer/registry.go:285-335 | the claim if it still describes the identity, else some takeover, else some adoptable row, else the minted id; a row under the empty id counts as none |
| Registries.Registry.RestartState | daemon-go/peer/registry.go:342-368 | Online from Offline and Busy, from Retired only with a lifted tombstone |
| Registries.Registry.RefreshPlace | daemon-go/peer/registry.go:376-389 | pane, tmux session and machine are replaced when the request says something about them, an unknown machine saying nothing; no other field moves |
| Registries.Registry.RefreshAgent | daemon-go/peer/registry.go:373-405 | model, pid and turn are replaced when given and metadata merged with the request winning; no other field moves |
| Registries.Registry.RefreshRecord | daemon-go/peer/registry.go:342-405 | the record a reconnect leaves: live again with status to match, seen now, refreshed, and otherwise itself |
| Registries.Registry.Reconnect | daemon-go/peer/registry.go:342-418 | the whole new state of an in-place reconnect, displacing the pane's other holders |
| Registries.Registry.FindDirectParent | daemon-go/peer/registry.go:430-447 | reports a hijack if and only if some live peer on the pane is the claimant's parent process |
| Registries.Registry.FreshOrchestratorOnPane | daemon-go/peer/registry.go:685-702 | a sticky orchestrator on the pane, or none exists |
| Registries.Registry.LivePaneHolder | daemon-go/peer/registry.go:663-680 | a provably live holder of the pane, or none exists |
| Registries.Registry.ReuseOrchestrator | daemon-go/peer/registry.go:451-465 | the sticky orchestrator of the claimant's workspace is refreshed and answered, nothing else changes |
| Registries.Registry.CreateRecord | daemon-go/peer/registry.go:481-555 | the whole new state of a fresh record, a durable row winning over the request |
| Registries.Registry.RegisterFresh | daemon-go/peer/registry.go:421-555 | the three pane gates in their order, then the new record |
| Registries.Registry.GuardRetirement | daemon-go/peer/registry.go:256-272 | admits unless the claimed id has a tombstone without accepted proof; an accepted proof lifts that tombstone only |
| Registries.Registry.AllocateAndRegister | daemon-go/peer/registry.go:251-555 | the whole registration is one the specification allows for some iteration orders, and keeps the invariant, for every request and every probe answer |
| Registries.Registry.FindNamed | daemon-go/peer/registry_read.go:66-71 | exactly the peers of that name |
| Registries.Registry.FilterCircle | daemon-go/peer/registry_read.go:75-81 | exactly those of the circle |
| Registries.Registry.PreferActive | daemon-go/peer/registry_read.go:98-109 | the ones that are not offline, or all when every one is |
| Registries.Registry.FilterPaned | daemon-go/peer/registry_read.go:112-121 | exactly the pane owners among them |
| Registries.Registry.MostPreferred | daemon-go/peer/registry_read.go:137-178 | a candidate no other beats in the order (connected, paned, last seen) |
| Registries.Registry.ResolvePeer | daemon-go/peer/registry_read.go:60-148 | answers as the resolution relation allows, and only with registered peers |
| Registries.Registry.CheckAccess | daemon-go/peer/registry_access.go:32-79 | resolves target, then sender in the target's circle before anywhere else, and decides by circles and bypassing roles |
| Registries.Registry.GetOrchestrator | daemon-go/peer/registry_read.go:186-213 | a most recently seen live orchestrator of the circle that is fresh or connected, or none exists |
| Registries.Registry.UnregisterPeer | daemon-go/peer/registry_lifecycle_byname.go:26-58 | record and row of the resolved peer go together, else nothing changes |
| Registries.Registry.MarkResolved | daemon-go/peer/registry_lifecycle_byname.go:69-83 | the second section of a mark by name: the whole new state from whatever state it finds |
| Registries.TerminalMarkHoldsAfterAnything | daemon-go/peer/registry_lifecycle_byname.go:62-84 | whatever happened since the name was resolved, a terminal mark leaves no live record under the id, and a soft tombstone dated now unless its record was Retired by then; rows and other records are untouched |
| Registries.UnknownNameIsEntombedExactlyWhen | daemon-go/peer/registry_lifecycle_byname.go:69-81 | a terminal mark by a string that resolves to nobody leaves a soft tombstone under it if and only if it starts like a minted id and goes on |
| Registries.Registry.MarkOfflineByName | daemon-go/peer/registry_lifecycle_byname.go:62-84 | both sections in a row: marks the resolved peer; a terminal mark for an unknown id-shaped name leaves a tombstone; an ambiguous name changes nothing |
| Registries.Registry.TouchLastSeen | daemon-go/peer/registry_lifecycle_byname.go:88-102 | only the resolved peer's last-seen changes |
| Registries.Registry.UpdateDescription | daemon-go/peer/registry_lifecycle_byname.go:106-130 | description, its date and its row change together for the resolved peer |
| Registries.Registry.UpdateModelByName | daemon-go/peer/registry_access.go:120-146 | model and row change together, and an unchanged model changes nothing |
| Registries.Registry.UpdateMetadataByName | daemon-go/peer/registry_access.go:150-169 | metadata merge into the live record only |
| Registries.Registry.FindRoleBlocker | daemon-go/peer/claim_role.go:75-84 | an entrenched other holder that no other was seen after, or none exists |
| Registries.Registry.DemoteIfLiveHolder | daemon-go/peer/claim_role.go:99-111 | one record is demoted with its row if and only if it is another holder not done yet |
| Registries.Registry.DemoteIfRowHolder | daemon-go/peer/claim_role.go:124-132 | one row is demoted if and only if it still holds the role |
| Registries.Registry.DemoteLiveHolders | daemon-go/peer/claim_role.go:97-111 | over any order, exactly the other live holders are demoted in record and row, each reported once |
| Registries.Registry.DemoteRowHolders | daemon-go/peer/claim_role.go:122-132 | over any order, the row-only holders are demoted too, each reported once and none twice |
| Registries.Registry.ClaimSpecialRole | daemon-go/peer/claim_role.go:42-153 | the whole new state and report of a claim; the outcome does not depend on force |
| Events.EventBuffer.Append | daemon-go/peer/events.go:44-61 | the buffer stays the last 500 events of the full log, and the subscribers to wake are those of that moment |
| Events.Wake.Signal | daemon-go/peer/events.go:60-65 | afterwards the one-slot channel holds a token, whether or not it did |
| Events.EventBuffer.Push | daemon-go/peer/events.go:44-65 | after a push the channel of every subscriber is raised, full or not |
| Events.EventBuffer.Subscribe | daemon-go/peer/events.go:71-88 | a new empty channel joins the fan-out |
| Events.EventBuffer.Unsubscribe | daemon-go/peer/events.go:77-85 | that channel leaves the fan-out and no other |
| Events.EventBuffer.GetEvents | daemon-go/peer/events.go:165-172 | the last 500 events of the full log |
| Events.EventBuffer.EventsSince | daemon-go/peer/events.go:177-198 | what follows the first event with the id in the window, or the whole window |
| Events.ReadFrom | daemon-go/peer/events.go:177-198 | a read of any held suffix continues right after the cursor, or at the start of the suffix |
| Events.ReadContinues | daemon-go/peer/events.go:177-198 | a read continues where the reader left off or, if the window moved past that, at the oldest held event, also when the cursor itself was evicted |
| Events.ReachableStreams | daemon-go/hub/events_stream.go:58-106 | the stream invariant holds in every interleaving of pushes with the handler |
| Events.InitialReadIsTheWindow | daemon-go/hub/events_stream.go:64-72 | the initial flush takes up the last 500 events, or all |
| Events.WhatIsReadIsHanded | daemon-go/hub/events_stream.go:64-105 | whenever the handler waits, the last event it read is the last one the client was handed |
| Events.HandedInOrder | daemon-go/hub/events_stream.go:58-106 | the client is handed strictly increasing positions of the push log: nothing twice, nothing out of order |
| Events.ContiguousUnlessOverrun | daemon-go/hub/events_stream.go:90-105 | no gap as long as at most 500 events were pushed between consecutive reads |
| Events.OverrunLosesTheEvicted | daemon-go/hub/events_stream.go:90-105 | a read that was overrun skips exactly the evicted events |
| Events.WakeIsNeverLost | daemon-go/peer/events.go:44-65 | after the initial drain, an event pushed since the last read and the drain is announced by the token or by a pusher about to signal, unless the handler is about to read |
| Events.QuietMeansUpToDateExactlyWhen | daemon-go/hub/events_stream.go:78-90 | with nothing on its way the client is up to date if and only if nothing was pushed between the initial read and the drain without a read since |
| Events.DrainSwallowsWake | daemon-go/hub/events_stream.go:80-85 | a run in which the wake of an event pushed during the initial flush is discarded and the event stays undelivered |
| FinalizedTurns.LaterIsTheTail | daemon-go/hub/routes_events.go:284-307 | the measure of recency is the set of keys marked after the last mark of a key |
| FinalizedTurns.KeysTellTurnsApart | daemon-go/hub/routes_events.go:276-282 | two turns share a key exactly when session and turn agree, an absent or empty session being "legacy", as long as no session contains a colon |
| FinalizedTurns.RememberedIsFaithful | daemon-go/hub/routes_events.go:284-307 | the bounded order always tells the recency of the full history, and what it forgot is older than its capacity |
| FinalizedTurns.RememberedExactlyWhen | daemon-go/hub/routes_events.go:268-315 | a key is remembered if and only if it was marked and fewer than 4096 other keys were marked since; never more than 4096, none twice |
| FinalizedTurns.FinalizedSet.MoveToBack | daemon-go/hub/routes_events.go:288-300 | a known key ends up at the back, all others in their order |
| FinalizedTurns.FinalizedSet.Insert | daemon-go/hub/routes_events.go:301-306 | a new key joins the back, and beyond capacity the front leaves both order and set |
| FinalizedTurns.FinalizedSet.MarkTurnFinalized | daemon-go/hub/routes_events.go:284-307 | set and order stay the same keys, those the history prescribes |
| FinalizedTurns.FinalizedSet.IsTurnFinalized | daemon-go/hub/routes_events.go:309-315 | true exactly when the key was marked with fewer than 4096 other keys since |
| History.LessIsTransitive | daemon-go/hub/routes_history.go:144 | the order on keys is transitive |
| History.LessIsTotal | daemon-go/hub/routes_history.go:144 | the order on keys is total |
| History.KeysOrderTurns | daemon-go/hub/routes_history.go:412-414 | keys order turns by timestamp, for timestamps of one length, then within a session by offset as a number, up to twelve digits |
| History.PageHistory | daemon-go/hub/routes_history.go:427-448 | one page: the first turns below the cursor, with a cursor on its last turn exactly when more follow |
| History.NextPageIsSmaller | daemon-go/hub/routes_history.go:427-448 | following cursors ends, for any list, sorted or not |
| History.OlderShrinks | daemon-go/hub/routes_history.go:427-448 | the turns below a cursor taken from a page are fewer than those below the cursor of that page |
| History.OlderIsSuffix | daemon-go/hub/routes_history.go:433-439 | in a sorted history the turns below a key are a suffix |
| History.PagesFrom | daemon-go/hub/routes_history.go:427-448 | from any cursor on, the pages join to exactly what the cursor left if no boundary parts a tie, and hold strictly fewer turns if one does |
| History.PagesCoverExactlyWhen | daemon-go/hub/routes_history.go:427-448 | the pages of a sorted history join to exactly the history if and only if no page boundary parts two turns of equal key; else turns are lost |
| History.TiedTurnIsLost | daemon-go/hub/routes_history.go:427-448 | two turns of one key at limit 1: the second is on no page |
| History.StrictHistoryPages | daemon-go/hub/routes_history.go:427-448 | with distinct keys the pages always join to the full history, and there are n/limit of them rounded up, at least one |

## Left out

- Records in the registry's maps are values that the methods replace, so aliasing between a map entry and a pointer handed out is not modelled; the source clones at its boundary.
- `Liveness`, `Transport`, `ProcessProbe` and `PaneProbe` answers are arbitrary sets or values, one per place that consults them; an answer does not change while one critical section reads it repeatedly at one place.
- The clock is read once per critical section; it may run backwards between sections, so nothing depends on its being monotone.
- `mappingsVersion` is unbounded; the 64-bit wrap-around is not modelled.
- One flusher at a time. Two overlapping flushes are not modelled.
- The fan-out of the evidence probes (`runtimeEvidenceIDs`) is left to an arbitrary evidence set.
- Cleaning a path into a folder name (`baseFolder`, `sanitizeFolder`) and normalising an identity path are arguments: they are string functions without state.
- Registries.Registry.RemoveIfDead: does not consult the state machine for the reap event, which is legal from every state that passes the checks before it.
- Registries.Registry.AllocateAndRegister: a mint is assumed never to repeat an id; the connect event of a new record, which cannot be refused, is folded into the Online state.
- Registry methods that only clone and list records (`GetPeer`, `GetPeerByPane`, `GetAllPeers`, `GetMapping`) would add easy members.
- Lifecycle and contradiction events, their deduplication, log lines and callbacks are not modelled; of an event only its id and position matter.
- Writing an event counts as handing it to the client, also when it cannot be encoded and is skipped; keepalives and write deadlines are left out.
- The stream handler's endless loop is a machine over its read, write, drain and wake steps rather than a method.
- The redelivery worker is a machine over its lock, tracker and notify steps. The tracker is taken at its documented contract, and everything else in the program may change asks and stashes at any point, a new stash being told from old ones by a stamp; an ask keeps its asker while it keeps its stash, as the tracker clears the stash whenever it rebinds.
- Two peers may both be sent one stash, one as its asker and one by a rebind: the promise of at most one delivery is per asker, and `Redelivery.SharedStashWasRebound` says when two can happen.
- Tombstones and rows in the SQLite store are modelled only as far as the flush and row deletions need; restart is a new run from hydrated rows and tombstones.
- The base64url text of a cursor (section 5 of RFC 4648) is an abstract bijection on keys; that `loadHistory` sorts is assumed, parsing transcripts is left out.
- The strike limit is a constant and removal ages are arguments; `ConfigureDurations`, and the switch that skips a pass whose age is not positive, are not modelled.
- HTTP, WebSocket and SSE framing, authentication, the ask, spawn and job services, tmux and process probes, chat bridges, the relay and the command line are outside the model.
