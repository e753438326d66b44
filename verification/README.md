# Openbot: models and proofs of its transactional core

This project models the parts of openbot whose correctness rests on more than one function, and
proves in Dafny what they promise: the channel gate protocol, the work list and its summary, account
re-keying, team membership, admission limits, durable attempt budgets, sessions, MCP session
capacity, redaction, the channel access form, and the use-tree expansion of the sample boundary
script. Tables are maps or sequences of rows, a transaction is one atomic step or a few lock steps,
and time is an integer. Every main result is about all inputs, all runs or all reachable states.

`dafny verify dfyconfig.toml` checks the whole project.

| part | modules |
|---|---|
| Channel gate | `GateKeys`, `ChannelGate`, `GateHistory`, `GateDeadlock`, `GateCrossing` |
| Work list | `Rows`, `Attention`, `AttentionRows`, `AttentionViews`, `AttentionSummary`, `AttentionCounts`, `AttentionPaging` |
| Account re-keying | `AccountIdentity`, `AccountRekey` |
| Team | `Team`, `TeamHistory`, `TeamSteps` |
| Limiters | `FixedWindows`, `AuthAdmission`, `AdmissionBounds`, `AdmissionAnswers`, `AdmissionRollups`, `AuthAttempts` |
| Sessions | `Sessions` |
| MCP sessions | `McpCapacity`, `McpCounting`, `McpWorker` |
| Redaction | `SecretText`, `JsonValues`, `Redaction` |
| Channel access | `ChannelAccess`, `ChannelForm` |
| Sample boundary | `UseTree` |

## Where the code and what is said of it differ

The models follow the code. Each difference below has a lemma with a concrete case, an exact
condition, or both.

- **Colliding gate keys can deadlock.** `src/adapters/persistence/channel_gate.rs:24-25` says that a
  collision only serializes. Keys are taken in key order, not in lock order. A commit takes gates of one
  company only (`src/adapters/persistence/thread/inbound.rs:147-156`) and an edit takes one gate, so say
  that lock l leads to lock m when some channel of l comes before some channel of m in one company. Some
  run has transactions waiting for each other in a ring if and only if a walk of such links ends at the
  lock where it started (`GateCrossing.DeadlockExactlyWhenTangled`). In one company that is: two channels
  share a lock and a channel between them has another
  (`GateDeadlock.OneCompanyIsTangledExactlyWhenInterleaved`). In the rings shown, every second edge is of
  a request behind an earlier conflicting one that is itself not granted yet. These edges rest on strict
  first-come queueing, and the deadlock detector of Postgres may resolve such a ring by reordering a
  queue, or abort one of the transactions.
- **Binding refusals are also narrower than the final filter.** The comments at
  `src/adapters/persistence/attention.rs:91-95` and `296-298` name decisions as the one such source.
  `AttentionViews.RefusalFilterHidesUnassignedWork` gives the exact case in which the branch filter of
  binding refusals changes the list, and `AttentionViews.ARefusalIsHidden` a database with that case.
- **A reservation overtaken by a cleanup can be granted.** A statement reads its transaction's start
  time, so a reservation that began before a cleanup can run after it and find its window gone.
  Deleting rows changes no later answer if and only if no later reservation reads a clock before the end
  of a deleted window (`AuthAttempts.HarmlessExactlyWhenEnded`); a run with a sixth grant is
  `AuthAttempts.AnOvertakenReservationIsGranted`.
- **The marker can complete a secret.** Replacing a secret by `[REDACTED]` can leave a copy of it in
  the text, as it does for the secret `a[` in `aa[` (`Redaction.AMarkerCompletesASecret`).
  `SecretText.HiddenExactlyWhenSafe` gives the exact secrets for which it never does; those that share
  no character with the marker are among them.
- **A second redaction can be refused.** At the depth bound, a credential field whose name contains the
  secret stops being one; `Redaction.SecondPassChangesNothing` gives the exact condition and
  `Redaction.ASecondPassIsRefused` a value.
- **Saving a channel form unchanged can open the channel.** An allowlist whose only participant already
  holds another provenance's grants reads back empty, and saving that makes the channel a team channel
  (`ChannelForm.ManagersGuestOpensTheChannel`; exact condition in
  `ChannelForm.SavingBackKeepsAccessExactlyWhenShowable`). The schema admits such grants, but the only
  provenance that the application itself writes is the form's, so today it takes a row written by
  other means.

## Model

| member | source | states |
|---|---|---|
| `GateKeys.OrderKeys` | src/adapters/persistence/channel_gate.rs:62-86 | sorting an array of keys in place and compacting it over its repeats leaves the acquisition order of what it held |
| `GateKeys.SortKeys` | src/adapters/persistence/channel_gate.rs:62-86 | the in-place sort leaves the sorted keys |
| `GateKeys.DedupKeys` | src/adapters/persistence/channel_gate.rs:62-86 | the in-place compaction leaves the keys without those equal to the one before |
| `GateKeys.AcquireOrderIsStrict` | src/adapters/persistence/channel_gate.rs:58-86 | the acquisition order is strictly ascending by company and then channel, and holds exactly the keys that were asked for |
| `GateKeys.StrictOrderIsUnique` | src/adapters/persistence/channel_gate.rs:58-86 | there is only one strictly ascending order of a set of keys, so callers with the same keys take them alike |
| `ChannelGate.ExclusiveHolder` | src/adapters/persistence/channel_gate.rs:48-56 | while an edit has written, no other transaction past its own gates involves that channel |
| `ChannelGate.RunIsValid` | src/adapters/persistence/channel_gate.rs:8-22 | every interleaving keeps the lock table, what transactions have read, and the log of successes consistent |
| `ChannelGate.StoredUnderTheSettingsItWasRoutedUnder` | src/adapters/persistence/thread/inbound.rs:93-193 | the channels are the serial replay of the committed edits, and each stored message was routed, on all its channels, under exactly the settings standing at its place in that order |
| `ChannelGate.StaleOnOneChannelIsRefusedWhole` | src/adapters/persistence/thread/inbound.rs:159-193 | once it holds its gates a commit passes if and only if every channel has the settings it was routed under; otherwise it is refused whole and nothing changes |
| `ChannelGate.EditsWaitForTheCommit` | src/adapters/persistence/channel_gate.rs:17-19 | from its check until it stores, no edit lands on any of a commit's channels |
| `ChannelGate.FailureLeavesNothing` | src/adapters/persistence/channel_edit.rs:45-87 | a failed, timed out or refused transaction has changed no channel, revision or stored message, and never will |
| `ChannelGate.EndedIsFinal` | src/adapters/persistence/channel_edit.rs:60-87 | whatever happens later, an ended transaction keeps its outcome |
| `GateHistory.SuccessIsWhatWasAsked` | src/adapters/persistence/channel.rs:450-501 | a transaction that says it succeeded is in the log exactly once, with what the action that began it asked for: the edit's channel and settings, or every reading its router had made |
| `GateHistory.EveryEventIsItsJobs` | src/adapters/persistence/thread/inbound.rs:93-134 | in every run each saved edit in the log is its transaction's own key and settings, and each stored message its transaction's own intents, all of them |
| `GateHistory.JobsComeFromTheirActions` | src/adapters/persistence/thread/inbound.rs:93-134 | a transaction's job is what its own beginning named, and a commit's the whole of what its router had read |
| `GateHistory.RoutersHoldTheirReadings` | src/adapters/persistence/thread/inbound.rs:93-134 | a router holds one reading for each time it routed, of the channel as committed at that moment |
| `GateHistory.ChannelsAreAsLastSaved` | src/adapters/persistence/channel.rs:457-466 | in every run a channel has the settings of its last saved edit, or its first ones if there is none, and one revision for each saved edit |
| `GateHistory.FailuresHaveCauses` | src/adapters/persistence/channel_edit.rs:45-114 | a message is superseded only if a channel it was routed into has been edited since, an edit finds no channel only where there is none, and nothing is rolled back that was not aborted |
| `GateCrossing.DeadlockExactlyWhenTangled` | src/adapters/persistence/thread/inbound.rs:138-157 | with commits that each take gates of one company, some run has transactions waiting for each other in a ring if and only if a walk from lock to lock, each link from a channel to a later one of its company, comes back to where it started |
| `GateCrossing.TangledLocksDeadlock` | src/adapters/persistence/channel_gate.rs:24-25 | for any such closed walk, of any length and with any repeats, a run in which one commit and one edit for each link wait in a ring |
| `GateDeadlock.GatesNeverDeadlock` | src/adapters/persistence/channel_gate.rs:58-86 | untangled, no run has transactions waiting for each other in a ring, whatever collides |
| `GateDeadlock.SomeoneCanAlwaysMove` | src/adapters/persistence/channel_gate.rs:58-86 | untangled, every reachable state with unfinished work has a transaction that can take its next step |
| `GateDeadlock.OneCompanyIsTangledExactlyWhenInterleaved` | src/adapters/persistence/channel_gate.rs:58-86 | among channels of one company the locks are tangled if and only if two share a lock and one between them has another |
| `GateDeadlock.InjectiveIsUntangled` | src/adapters/persistence/channel_gate.rs:58-86 | distinct locks for distinct channels are never tangled |
| `AttentionPaging.AttentionPage` | src/adapters/persistence/attention.rs:386-436 | a page holds the rows after the cursor at the cursor's instant, its links, the next cursor, the working set size and whether it was cut off |
| `AttentionPaging.Paginate` | src/adapters/persistence/attention.rs:398-436 | the same for any ranked rows, limit and bound: fetching one row more decides whether there is a next cursor |
| `AttentionPaging.PageHoldsWhatIsAsked` | src/domain/entities/attention.rs:256-265 | from any position a page has as many rows as were asked for, between one and a hundred, while there are as many, and a next cursor exactly when more remain |
| `AttentionPaging.OrderOfRows` | src/adapters/persistence/attention.rs:299-323 | an overdue row precedes every row that is not, one due within a day every later or undated one, and then priority, age, kind and identifier decide, in that order |
| `AttentionPaging.KindsAreAlphabetical` | src/adapters/persistence/attention.rs:309-323 | kinds are in the alphabetical order of their names |
| `AttentionPaging.LinksAreTheRows` | src/adapters/persistence/attention.rs:362-384 | each link names its own row and company, and only a manager gets one to a run or a binding |
| `AttentionPaging.OrderedAscends` | src/adapters/persistence/attention.rs:309-323 | the five-part order arranges distinct rows strictly ascending and loses none |
| `AttentionPaging.AscendingIsUnique` | src/adapters/persistence/attention.rs:309-323 | the order leaves no freedom: one arrangement of the same rows |
| `AttentionPaging.WorkingSetIsBounded` | src/adapters/persistence/attention.rs:309-323 | the working set is the lesser of the rows remaining and the bound plus one, and is cut off exactly when more than the bound remain |
| `AttentionPaging.FollowIsCompleteExactlyWhenPagesFit` | src/adapters/persistence/attention.rs:386-436 | following each page's own next cursor from the start reads every row once, in order, if and only if the limit is within the working set or the whole list is; the service's clamped limit always is, so this concerns callers with a smaller bound |
| `AttentionPaging.NextLeavesFewer` | src/adapters/persistence/attention.rs:386-436 | from any cursor, a next cursor leaves strictly fewer rows, so following them stops |
| `AttentionPaging.ListIsDistinct` | src/adapters/persistence/attention.rs:87-308 | for every database the schema admits, no two listed rows share kind and identifier |
| `AttentionPaging.PagingReadsTheWholeList` | src/adapters/persistence/attention.rs:386-443 | for every such database, viewer, view and requested limit, the pages read exactly the list's rows, each once, in the five-part order, and stop |
| `AttentionRows.ListHoldsExactly` | src/adapters/persistence/attention.rs:87-308 | for every database the schema admits, a row is in the list if and only if table rows that call for it exist and its view takes it |
| `AttentionRows.DecisionsAreListed` | src/adapters/persistence/attention.rs:97-160 | a decision is in a viewer's own work exactly when it is open, its wait waiting, its run visible, and the viewer, a person of the company, is named its reviewer; in the team's work exactly when the first three hold; and every column of its row |
| `AttentionRows.ReconciliationsAreListed` | src/adapters/persistence/attention.rs:161-174 | the same for runs that wait to be reconciled |
| `AttentionRows.FailuresAreListed` | src/adapters/persistence/attention.rs:175-220 | the same for runs failed within seven days and not run again, with the actor while they are a member and a person |
| `AttentionRows.RefusalsAreListed` | src/adapters/persistence/attention.rs:221-264 | the same for bindings refused within seven days, with the number of refusals and the time of the latest |
| `AttentionRows.DeliveriesAreListed` | src/adapters/persistence/attention.rs:265-294 | the same for unsuperseded failed deliveries, with the run they were sent for and its actor |
| `AttentionSummary.SummaryCountsWhatTeamWorkLists` | src/adapters/persistence/attention.rs:446-530 | a manager's summary is the aggregate of the team_work list at the same instant: counts, oldest age, the sum of the refusal counts, the dead letters |
| `AttentionSummary.OpenDecisionsAreListed` | src/adapters/persistence/attention.rs:446-530 | the summary's open decisions are the decision rows, with their creation times |
| `AttentionSummary.ReconciliationsAreCounted` | src/adapters/persistence/attention.rs:446-530 | the reconciliation count is the number of reconciliation rows |
| `AttentionSummary.FailuresAreCounted` | src/adapters/persistence/attention.rs:446-530 | the failed-run count is the number of failed-run rows, reruns excluded alike |
| `AttentionSummary.RefusalsAreCounted` | src/adapters/persistence/attention.rs:446-530 | the refusals that the summary's own query finds, each joined to its visible binding, number the sum of the per-binding counts of the list |
| `AttentionSummary.GroupingKeepsTheSum` | src/adapters/persistence/attention.rs:220-264 | grouping refusals by binding and adding the groups up counts each refusal once |
| `AttentionSummary.DeadLettersAreCounted` | src/adapters/persistence/attention.rs:265-294 | permanent delivery failures are exactly the dead-letter delivery rows |
| `AttentionCounts.SummaryCountsTheTables` | src/adapters/persistence/attention.rs:446-530 | each figure of the summary is the number of table rows that meet its condition, and the age is that of the oldest decision still awaited |
| `AttentionCounts.DecisionsAreCounted` | src/adapters/persistence/attention.rs:446-530 | the open decisions and the oldest of them, over the decision, wait and run tables |
| `AttentionCounts.RefusedAreCounted` | src/adapters/persistence/attention.rs:446-530 | the refused admissions and failed schedule runs of the last seven days whose binding is shown, one for each |
| `AttentionViews.BranchFiltersOnlySaveWork` | src/adapters/persistence/attention.rs:161-219 | for every view, reconciliations, failed runs and failed deliveries are listed as if their branches had no view filter |
| `AttentionViews.EveryViewIsTheTeamsFiltered` | src/adapters/persistence/attention.rs:295-308 | every view of these sources is the team's list with the final filter applied |
| `AttentionViews.EachTeamRowHasOnePlace` | src/adapters/persistence/attention.rs:265-308 | each such team row is unassigned and nobody's own, or in exactly one person's own work |
| `AttentionViews.RefusalFilterHidesUnassignedWork` | src/adapters/persistence/attention.rs:220-264 | the binding refusal branch filter changes the list if and only if a reader of unassigned work may see a refused binding |
| `AttentionViews.ARefusalIsHidden` | src/adapters/persistence/attention.rs:91-95 | a database that meets the schema's keys and the constraints on bindings and revisions, and a reader, for whom it does |
| `AccountRekey.Directory.RekeyAccountIdentity` | src/adapters/persistence/account_identity.rs:52-100 | the loop over companies does what the re-key of all the account's persons specifies; no person or an unchanged address is a no-op, an invalid one is refused |
| `AccountRekey.Directory.RekeyInCompany` | src/adapters/persistence/account_identity.rs:89-100 | one company's change is detaching the old address and adopting the new one, or the refusal |
| `AccountRekey.Directory.DetachOldAddress` | src/adapters/persistence/account_identity.rs:131-179 | the old address, if the person holds it, goes to a new outsider with the messages it sent |
| `AccountRekey.Directory.AdoptNewAddress` | src/adapters/persistence/account_identity.rs:181-211 | the address becomes the person's, or is refused unchanged when a principal other than an outsider holds it |
| `AccountRekey.Directory.AdoptOutsiderPlaces` | src/adapters/persistence/account_identity.rs:213-275 | grants and thread places move to the person only when the outsider has no identity left |
| `AccountRekey.RekeyMovesTrustInEveryCompany` | src/adapters/persistence/account_identity.rs:52-275 | a successful change keeps every author the holder of the authored identity, deletes nothing, moves addresses, messages, and grants and places as a set union, in every company of the account and in no other |
| `AccountIdentity.RekeyOneMoves` | src/adapters/persistence/account_identity.rs:89-275 | in one company the new address is the person's, the old one a new outsider's, messages follow the address they were sent from, and places move exactly when the outsider has nothing else |
| `AccountIdentity.RekeyAllIsLocal` | src/adapters/persistence/account_identity.rs:52-100 | a company where the account is no person is untouched |
| `AccountIdentity.RekeyAllKeepsPrincipals` | src/adapters/persistence/account_identity.rs:52-275 | no principal is lost or changed, and the new ones are outsiders without an account |
| `AccountRekey.RekeySucceedsExactlyWhenItCanBeTaken` | src/adapters/persistence/account_identity.rs:181-211 | the change succeeds if and only if, in every company as it stood, the new address is free, the person's or an outsider's |
| `AccountRekey.ChangeBackSucceedsExactlyWhenItCouldBeTaken` | src/adapters/persistence/account_identity.rs:181-211 | after a change from A to B, the change back succeeds if and only if A could be taken in every company as the tables stood at first |
| `AccountRekey.ThereAndBackAgain` | src/adapters/persistence/account_identity.rs:89-205 | where both addresses can be taken in every company, changing A to B and B to A succeeds, returns A and the authorship of its messages to a person who held it, leaves B with an outsider, and adds at most one principal per company per change |
| `AccountRekey.GivenUpAddressesAreObserved` | src/adapters/persistence/account_identity.rs:131-179 | after any sequence of changes, an identity held by a principal that the changes made is observed, not verified |
| `AccountRekey.RefusalNamesTheHolder` | src/adapters/persistence/account_identity.rs:181-211 | a refusal tells the kind of whoever held the address in some company of the account's, as the tables stood, and that is no outsider |
| `TeamHistory.EveryRunKeepsTheTeam` | src/adapters/persistence/company_invite.rs:116-599 | from any state that has them, and with outsiders observed and addresses re-keyed in between, every run keeps exactly one owner row, the company's owner at level 9; one invitation per address; person principals for members only, one each |
| `TeamHistory.FoundingKeeps` | src/adapters/persistence/company.rs:139-178 | founding a company keeps all that, and neither its seats nor its principals ever stand in the way |
| `TeamHistory.AcceptanceSeatsOne` | src/adapters/persistence/company_invite.rs:353-432 | acceptance gives a new member the invitation's role and level, changes only the role of a member who is not the owner, and touches no other seat or invitation |
| `TeamHistory.AcceptancePromotesTheOutsider` | src/adapters/persistence/participant.rs:330-411 | an outsider known by the address becomes the person under the same identifier, unless the account is another principal there already, which refuses the whole |
| `TeamHistory.AcceptingAgainIsANoOp` | src/adapters/persistence/company_invite.rs:413-432 | accepting again answers the same and changes nothing |
| `TeamHistory.EverySeatChangeHasACause` | src/adapters/persistence/company_invite.rs:252-599 | a seat that a run leaves other than it found it was changed by founding, by a level change of the owner or of an admin at or above both levels, by accepting one's own open invitation, by a role write or by removal, and never the owner's |
| `TeamHistory.EveryInviteChangeHasACause` | src/adapters/persistence/company_invite.rs:116-481 | an invitation that a run leaves other than it found it was changed by the owner, by an admin's level change within its own level while it was open, by its addressee's answer from the verified address while it was open, or by deletion |
| `TeamHistory.ClosedInvitesStand` | src/adapters/persistence/company_invite.rs:195-317 | through any run, a closed invitation changes only by being created again or deleted |
| `TeamHistory.RemovalDemotes` | src/adapters/persistence/company_invite.rs:537-599 | removal makes the member's principal an outsider with its addresses and empties the seat; of an owner it is a no-op |
| `TeamHistory.NobodyIsErased` | src/adapters/persistence/company_invite.rs:537-599 | no run deletes a principal or an identity |
| `TeamHistory.OnlyTheOwnerRaisesTheTop` | src/domain/entities/access_level.rs:116-137 | in any run in which the owner assigns no level, no member and no open invitation comes to stand above the highest there was |
| `TeamHistory.EverySeatComesFromAStep` | src/adapters/persistence/company_invite.rs:353-535 | what a member is after a run, if not what it was, is exactly what one step of it gives: the founder's seat, an accepted invitation's role and level, a role that was written or a level that was assigned |
| `TeamHistory.EveryAdminWasMadeOne` | src/adapters/persistence/company_invite.rs:353-535 | a seat that a run makes an admin was made one by an accepted invitation as admin or by a role written as admin |
| `TeamHistory.RolesAreForMembers` | src/adapters/persistence/company_invite.rs:507-535 | a role is written for any member but the owner, as admin exactly when admin was asked for, and the level stays |
| `TeamHistory.OnlyTheOwnerInvites` | src/adapters/persistence/company_invite.rs:116-146 | an invitation is written if and only if the owner asks and it is not for the owner's own address; it is the address's one invitation, open, with the role and level asked for |
| `TeamHistory.OnlyTheOwnerRewrites` | src/adapters/persistence/company_invite.rs:195-236 | an open invitation is rewritten if and only if the owner asks for an address that is free and not the owner's, and keeps what was not asked to change |
| `TeamHistory.LevelsChangeExactlyWithAuthority` | src/domain/entities/access_level.rs:116-137 | a member's level changes if and only if the member is not the owner and the actor is, or is an admin at or above both levels |
| `TeamSteps.AcceptedExactlyWhenItCanBe` | src/adapters/persistence/company_invite.rs:353-432 | an open invitation is accepted if and only if the account's verified address is the invitation's and the account can become that address's person, and then exactly that is written |
| `TeamSteps.EnrolsExactlyWhenItCan` | src/adapters/persistence/participant.rs:330-411 | an account becomes the person behind an address if and only if nobody or an outsider holds it and the account is no principal there yet, or the account's person holds it already |
| `TeamSteps.FoundingMakesTheOwner` | src/adapters/persistence/company.rs:139-178 | a new company has its founder as owner at level nine and as a person with the account's address |
| `TeamSteps.ObservingMakesAnOutsider` | src/adapters/persistence/participant.rs:270-322 | an address nobody held becomes a new outsider's, and one that was held stays its holder's |
| `TeamSteps.RekeyedExactlyWhenFree` | src/adapters/persistence/account_identity.rs:89-211 | in one company an address is changed if and only if it is for a person and to another that nobody, an outsider or they themselves hold; the new one is then theirs and the old one a new outsider's |
| `TeamSteps.EveryPersonWasMadeOne` | src/adapters/persistence/participant.rs:330-411 | over every run nobody becomes a person of a company but by founding it or by accepting its open invitation to their own verified address |
| `Team.TeamStore.CreateInvitation` | src/adapters/persistence/company_invite.rs:116-146 | the checks in their order, then the upsert by address, as the transition specifies |
| `Team.TeamStore.AcceptPendingInvite` | src/adapters/persistence/company_invite.rs:353-432 | invitation, seat and principal are written together or not at all |
| `Team.TeamStore.CreatePersonPrincipal` | src/adapters/persistence/participant.rs:330-411 | an outsider who holds the address is promoted, the account's own person is reused, anything else conflicts and changes nothing |
| `Team.TeamStore.RemoveTeamMember` | src/adapters/persistence/company_invite.rs:549-599 | the principal is demoted and the seat emptied unless it is the owner's |
| `AuthAdmission.Admission.Admit` | src/adapters/http/auth_admission.rs:290-338 | one call moves the limiter as the transition specifies and hands out a lifetime exactly when it admits |
| `AuthAdmission.Admission.Consider` | src/adapters/http/auth_admission.rs:290-338 | the answer and the budget it spends, check by check |
| `AuthAdmission.Admission.RecordCall` | src/adapters/http/auth_admission.rs:158-210 | a call is counted with saturation, after a window that has run its time is handed over |
| `AuthAdmission.Admission.Drop` | src/adapters/http/auth_admission.rs:212-231 | the last clone of a lifetime gives its source's place back |
| `AdmissionBounds.ActiveIsTheLivingLifetimes` | src/adapters/http/auth_admission.rs:212-231 | in every run a source's count is its number of live lifetimes, absent at zero, at most two, and the bucket table has at most 4096 rows |
| `AdmissionBounds.RefusalSpendsNothing` | src/adapters/http/auth_admission.rs:290-338 | a refusal takes no place and no grant, and drops only windows that had expired |
| `AdmissionBounds.EvictionNeverChangesAnAnswer` | src/adapters/http/auth_admission.rs:290-338 | call for call the limiter answers as one that keeps every bucket for ever, apart from its table-full refusals |
| `AdmissionBounds.RatesAreBounded` | src/adapters/http/auth_admission.rs:126-138 | any half-open span of sixty seconds admits at most twice a source's limit per kind and at most 1200 calls in all |
| `AdmissionBounds.EveryCallIsCountedOnce` | src/adapters/http/auth_admission.rs:158-210 | the emitted rollups plus the open window count every call once by kind and outcome, below saturation |
| `AdmissionAnswers.AnswersFollowTheLog` | src/adapters/http/auth_admission.rs:290-338 | over every run with ordered clocks each call gets the answer the log calls for and no other: refused at 600 admissions since the window of all calls opened, at two live lifetimes of the source, at 4096 sources that cannot be evicted, or at 30 or 12 admissions since the source's own window opened, in that order, and admitted otherwise |
| `AdmissionAnswers.TableIsTheLogs` | src/adapters/http/auth_admission.rs:121-138 | the bucket table holds no window but that of the source's logged admissions, and forgets only what has expired |
| `AdmissionAnswers.PlaceIsHeldByTheLastClone` | src/adapters/http/auth_admission.rs:212-231 | an admitted call's place is given back by the drop that makes the drops of its lifetime outnumber the clones, and by nothing else |
| `AdmissionRollups.RollupsCountStretches` | src/adapters/http/auth_admission.rs:158-210 | the logged calls divide into stretches shorter than sixty seconds, each later one opened by the first call sixty seconds or more after the one before opened; every rollup handed over counts exactly one stretch, in order, and the open window the last |
| `AdmissionRollups.OpenWindowIsYoung` | src/adapters/http/auth_admission.rs:158-182 | after a call the open window is less than sixty seconds old |
| `FixedWindows.GrantCounts` | src/adapters/http/auth_admission.rs:121-138 | a grant within a window keeps the bound of twice the limit for every span of a window's length |
| `AuthAttempts.AttemptTable.Reserve` | src/adapters/persistence/auth_attempts.rs:21-51 | grant and row after it, as specified |
| `AuthAttempts.AttemptTable.PurgeExpired` | src/adapters/persistence/auth_attempts.rs:9-19 | a cleanup deletes the earliest expired rows, at most 64, and all of them if fewer |
| `AuthAttempts.AttemptTable.ReserveLogin` | src/adapters/persistence/auth_attempts.rs:96-122 | cleaning up first never changes a login attempt's own answer or row |
| `AuthAttempts.CleanupNeverChangesAnAnswer` | src/adapters/persistence/auth_attempts.rs:9-66 | under any interleaving, every caller hears what it would have heard had nothing been cleaned up, if no reservation reads a clock older than an earlier cleanup |
| `AuthAttempts.HarmlessExactlyWhenEnded` | src/adapters/persistence/auth_attempts.rs:9-51 | deleting rows changes no answer in any continuation whose reservations read clocks from b on, if and only if every deleted window ends by b |
| `AuthAttempts.RowsHaveAttempts` | src/adapters/persistence/auth_attempts.rs:27-39 | every row of a reachable table has at least one attempt, as that law asks |
| `AuthAttempts.AnOvertakenReservationIsGranted` | src/adapters/persistence/auth_attempts.rs:9-51 | a run in which a sixth attempt is granted because a cleanup overtook it |
| `AuthAttempts.AtMostFivePerWindow` | src/adapters/persistence/auth_attempts.rs:21-66 | in whatever order clocks are read, a key is granted at most five times in one window unless cleared, if no reservation is overtaken by a cleanup |
| `AuthAttempts.AtMostTenPerStretch` | src/adapters/persistence/auth_attempts.rs:21-66 | and at most ten times in any stretch of a window's length, if each of its grants reads a clock its window has reached |
| `AuthAttempts.InOrderIsInTheirWindows` | src/adapters/persistence/auth_attempts.rs:21-66 | which clocks read in order always have |
| `AuthAttempts.ReserveIsLocal` | src/adapters/persistence/auth_attempts.rs:25-26 | a refused reservation neither counts nor moves the window, and no other key is touched |
| `AuthAttempts.AnswersFollowTheLog` | src/adapters/persistence/auth_attempts.rs:21-51 | over every run with no reservation overtaken, an attempt is granted if and only if the key's last window since it was cleared has ended, was granted fewer than five times or never was, and then in that window or a new one of full length |
| `Sessions.VerifiesExactlyWhileLive` | src/adapters/http/session.rs:94-166 | across issue, revocation, security change, expiry and cleanup, a token verifies if and only if a memory store that forgets nothing and compares no revisions calls it live |
| `Sessions.VerifiesExactlyWhenTheHistorySays` | src/adapters/http/session.rs:94-166 | a token verifies if and only if its claims were issued for the lifetime in force to a registered account at the number of security changes it had made, neither the account nor that session was ended since, and its time is not up |
| `Sessions.RevocationIsDatedOnce` | src/adapters/persistence/session.rs:59-68 | a row stands as it was until a cleanup takes it, dated by the first step that ended it |
| `Sessions.OnceDeadNeverVerifies` | src/adapters/persistence/session.rs:38-68 | an issued token that does not verify never verifies again |
| `Sessions.SecurityChangeEndsSessions` | migrations/20260817000000_init_schema.sql:11717-11738 | a security change ends for good, through any later run, every session the account had by then |
| `Sessions.CleanupIsBounded` | src/application/session.rs:35-43 | a cleanup removes only dead rows, at most 200, and at least 100 while there are as many |
| `Sessions.RepeatingDrains` | src/adapters/persistence/session.rs:70-105 | repeated cleanups drain the backlog a hundred rows or more at a time and keep every live session |
| `Sessions.BacklogIsExactUpToItsBound` | src/adapters/persistence/session.rs:90-103 | two scans of at most 1001 rows still count the dead rows exactly up to 1001 |
| `Sessions.MemorySessions.SessionIsLive` | src/adapters/http/session_test_support.rs:22-36 | live means present, unrevoked, identical in every field and unexpired |
| `Sessions.MemorySessions.RevokeSession` | src/adapters/http/session_test_support.rs:37-44 | only the named session of the named user is revoked |
| `Sessions.MemorySessions.CleanupSessions` | src/adapters/http/session_test_support.rs:45-65 | up to 200 dead rows go, the rest of the backlog is counted up to 1001, and no answer changes |
| `McpCapacity.CapacityIsBounded` | src/adapters/mcp/mod.rs:308-350 | in every run at most 32 sessions in all and four per endpoint, although unused endpoint semaphores are forgotten and recreated; other endpoints always have all but four of the global permits between them |
| `McpCapacity.WaitersHoldNothing` | src/adapters/mcp/mod.rs:309-322 | a connect queued for its endpoint holds no permit: giving up changes no semaphore |
| `McpCapacity.RunStaysCounted` | src/adapters/mcp/mod.rs:308-357 | every interleaving keeps each semaphore's free permits plus its holders constant, and one live semaphore per endpoint |
| `McpCapacity.ReturnedMeansDrained` | src/adapters/mcp/mod.rs:51-130 | once a shutdown has returned no worker runs and, whatever follows, none ever starts |
| `McpCapacity.ShutdownAdmitsNobody` | src/adapters/mcp/mod.rs:51-64 | from the moment a shutdown begins, no connect comes to hold a global permit |
| `McpCapacity.WaitersAreShutOut` | src/adapters/mcp/mod.rs:351-357 | whoever waits for an endpoint when its semaphores are closed never gets in |
| `McpCounting.ClientFollowsTheRules` | src/adapters/mcp/mod.rs:51-130 | over every run the semaphores, the weak endpoint entries, the cancellation and the lock come to plain counting: an endpoint exactly when fewer than four are in session there and no shutdown has barred it, a global permit exactly when fewer than 32 hold one and no shutdown has begun, a worker exactly when nobody is at the door and nothing is cancelled, a return exactly when no worker is left |
| `McpCounting.RoomIsPermits` | src/adapters/mcp/mod.rs:308-357 | a waiter's semaphore has a free permit exactly when its endpoint has fewer than four sessions, and is closed exactly while the endpoint is barred |
| `McpWorker.Run` | src/adapters/mcp/worker.rs:58-100 | the command loop answers the rounds it serves; whichever of its five exits it takes, the session is closed once and never before, a caller is told how the close went if and only if its close command ended the loop, and a failed close is logged if and only if nobody is told |
| `McpWorker.AnsweredAreTheServed` | src/adapters/mcp/worker.rs:66-86 | every operation before the exit is answered once, in order, and none at or after it |
| `McpWorker.ShutdownEndsTheRun` | src/adapters/mcp/worker.rs:61-86 | whatever else is ready, a shutdown that is seen ends the run there, with one close and no further answer |
| `McpWorker.RoundByRound` | src/adapters/mcp/worker.rs:58-100 | round by round, one with nothing ready does nothing, one that stops the loop shuts the session and tells whoever asked for the close, and any other answers its own caller with its own result and goes on |
| `SecretText.HiddenExactlyWhenSafe` | src/adapters/redaction.rs:10-15 | replacing hides a secret in every text if and only if no copy of it can be completed by the marker |
| `SecretText.DisjointIsSafe` | src/adapters/redaction.rs:10-15 | a secret that shares no character with the marker is one of those |
| `SecretText.CleanTextIsKept` | src/adapters/redaction.rs:10-15 | text without the secret is unchanged |
| `SecretText.ReplaceSwapsEveryCopy` | src/adapters/redaction.rs:10-15 | replacing is cutting the text at its leftmost copies of the secret, each time, and joining the pieces at the marker |
| `SecretText.ReplacingNothingMarksEveryGap` | src/adapters/redaction.rs:10-15 | replacing the empty text puts the marker at both ends and between every two letters |
| `JsonValues.BuiltKeepsTheLast` | src/adapters/redaction.rs:44-54 | an object rebuilt field by field holds exactly the last field of each name |
| `JsonValues.BuiltAscends` | src/adapters/redaction.rs:44-54 | its names are distinct and in order |
| `JsonValues.LessIsAlphabetical` | src/adapters/redaction.rs:44-54 | the order of names is that of a dictionary |
| `Redaction.RedactAt` | src/adapters/redaction.rs:31-64 | the in-place pass succeeds exactly when nothing visited is too deep, and then gives the rewritten value |
| `Redaction.RedactJson` | src/adapters/redaction.rs:27-29 | it succeeds if and only if every path outside the credential fields has at most 32 steps |
| `Redaction.EachValueIsRewritten` | src/adapters/redaction.rs:31-64 | text has every copy of the secret replaced, an array keeps its items rewritten, an object holds the last field of each rewritten name with its own value rewritten or the marker, and a scalar stands unless the secret is in how it prints |
| `Redaction.CredentialFieldsAreTheSix` | src/adapters/redaction.rs:17-22 | a credential field is one of six names in any letter case, and its value becomes the marker whatever it was |
| `Redaction.FitsExactlyWhenShallow` | src/adapters/redaction.rs:31-64 | the recursive bound is the bound on such paths, at every depth |
| `Redaction.NoTraceExactlyWhenSafe` | src/adapters/redaction.rs:31-64 | no string, name or printed scalar of any result contains the secret if and only if the secret is safe |
| `Redaction.AMarkerCompletesASecret` | src/adapters/redaction.rs:10-15 | a text in which redacting a secret leaves a copy of it |
| `Redaction.UnchangedExactlyWhenClean` | src/adapters/redaction.rs:31-64 | a pass changes nothing if and only if there is no secret and every credential field holds the marker |
| `Redaction.SecondPassChangesNothing` | src/adapters/redaction.rs:31-64 | a second pass rewrites nothing, and succeeds if and only if no surviving object at the bound has a credential field with the secret in its name |
| `Redaction.ASecondPassIsRefused` | src/adapters/redaction.rs:31-64 | a safe secret and a value that a first pass accepts and a second refuses |
| `Redaction.PlainNamesNeverOverrun` | src/adapters/redaction.rs:17-22 | which is always so when no credential field name contains the secret |
| `Redaction.RedactedPassesTheScan` | src/adapters/mcp/mod.rs:297-306 | the scan of discovered tools does not find the secret in what redaction leaves |
| `ChannelAccess.ReadForm` | src/adapters/persistence/channel.rs:193-221 | mode and participants of the entries |
| `ChannelAccess.ParticipantsAreTheNames` | src/adapters/persistence/channel.rs:193-221 | the participants are exactly the normalized entries other than the empty one and the public mark, each once |
| `ChannelAccess.ParticipantsKeepTheirOrder` | src/adapters/persistence/channel.rs:193-221 | participants stand in the order in which they are first named |
| `ChannelAccess.ModeIsWhatTheEntriesSay` | src/adapters/persistence/channel.rs:193-221 | the saved mode is public exactly when an entry says so, the team's exactly when no entry says anything, and a list otherwise |
| `ChannelAccess.SavedExactlyWhenAcceptable` | src/adapters/persistence/channel_edit.rs:45-114 | an edit is saved if and only if its channel exists, its addresses are free, it is in time, and every entry is empty, the public mark or an address |
| `ChannelAccess.EditGrantsExactly` | src/adapters/persistence/channel.rs:223-264 | after an edit the channel's grants are exactly those of other provenances, as they were, and both capabilities for every listed participant; other channels are untouched |
| `ChannelAccess.OthersGrantsStand` | src/adapters/persistence/channel.rs:478-487 | over any sequence of edits no grant of another provenance is added, relabelled or deleted |
| `ChannelAccess.EditsAddNewcomers` | src/adapters/persistence/channel.rs:223-264 | over any sequence of edits an address nobody held gets a principal nobody had, and no two new addresses the same |
| `ChannelAccess.KnownAreTheListed` | src/adapters/persistence/channel.rs:223-264 | the addresses known after granting are those known before and those listed |
| `ChannelAccess.EditIsAllOrNothing` | src/adapters/persistence/channel_edit.rs:45-114 | a failed or late edit changes nothing; a saved one writes mode, settings and the next revision |
| `ChannelAccess.ChannelStore.UpdateChannel` | src/adapters/persistence/channel.rs:450-501 | the edit's statements make the specified change or are rolled back |
| `ChannelAccess.ChannelStore.InsertGrants` | src/adapters/persistence/channel.rs:223-264 | each participant is resolved or created and granted what it does not hold yet; one invalid entry fails the whole |
| `ChannelForm.SavingBackKeepsAccessExactlyWhenShowable` | src/adapters/persistence/channel.rs:88-135 | saving back the list that was read keeps the mode and the granted set if and only if the form could show whom it granted |
| `ChannelForm.AloneIsShowable` | src/adapters/persistence/channel.rs:88-135 | which is always so without grants of other provenances |
| `ChannelForm.ManagersGuestOpensTheChannel` | src/adapters/persistence/channel.rs:193-264 | a case in which saving back an unchanged form turns an allowlist into a team channel |
| `UseTree.ExpandReturnsTheLeaves` | scripts/workflow-sample-boundary.py:40-55 | for every use tree without aliases, the parser on its tokens returns exactly the leaf paths in order, each with its enclosing prefix |
| `UseTree.ExpandSpellsTheLeaves` | scripts/workflow-sample-boundary.py:40-55 | splitting what the parser returns at the separators gives back each leaf's enclosing prefix and path, segment by segment, when no segment contains a colon |
| `UseTree.SplitJoined` | scripts/workflow-sample-boundary.py:40-55 | a path of such segments is what its text splits into |
| `UseTree.Group` | scripts/workflow-sample-boundary.py:42-53 | the index-based loop agrees with the recursive reading, and returns on every list of tokens |
| `UseTree.ExpandUse` | scripts/workflow-sample-boundary.py:40-55 | a tree is refused if and only if it has an alias, and expanded otherwise |

## Left out

- SQL text, drivers, pools and retries: their effect is a step over maps or sequences; timeouts are a choice to abort and roll back.
- Channel deletion while a gate is held, and thread, message and outbox rows of the inbound commit other than that it stored the message.
- Fairness of Postgres and tokio queues beyond first come, first served at the gates; MCP permits go to any waiter.
- Titles, labels, links' text, thread and correlation identifiers of the work list, and the text form of its cursors.
- Surrogate identifiers: identity rows are named by company and address, random identifiers are the next unused ones.
- TeamHistory.FoundingKeeps: founding also fails when the slug is taken or the account's address does not parse; names, slugs and address syntax are not part of the team model.
- Company deletion, member notices and notification rechecks, and the text of refusals in the team's writers.
- AuthAttempts.AtMostFivePerWindow: a reservation that a cleanup overtakes is excluded, because its sixth grant is real.
- Request bodies, body limits, proxy headers and route classification of the admission limiter; the table-full refusals are the limiter's own and are excluded from the comparison with one that never evicts.
- Sessions.VerifiesExactlyWhileLive: one clock stands for the application's, which checks the claims, and the database's, which checks the row; a skew between them is not modelled.
- Signing and cookies: a presented token is a set of issued claims; nil users are refused, identifier versions are not modelled; account deletion is not a step.
- Tool discovery, schemas and the content of calls of an MCP session, and the sending side of its command channel; among the sessions a worker's break, close and failure are single steps.
- The re-key of an account among the team's writers is one company at a time, as its own transaction is a sequence of such steps.
- The partly redacted value that a refused pass leaves behind, which its callers discard.
- Redaction.RedactJson: a number is the text it prints as, and the failing pass returns the value it was given.
- Unicode normalization: trimming, lower-casing and mailbox parsing of channel entries are parameters; the form's round trip assumes that stored addresses are unchanged by them.
- Slugs and the email binding of a channel edit, apart from whether they can be written.
- Token scanning of Rust sources, `qualified_paths`, `normalize` and the allowlist of the sample boundary script.
- Embedding, retrieval, IP range tables, encryption and configuration: opaque calls or one-branch facts.
