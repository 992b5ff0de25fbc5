# Nexul: access rules, delivery and bounded structures, verified

Nexul answers "may this person do this here?" from workspace roles and from rules on projects, folders, docs, plays, stacks,
channels, machines and instance areas. This project models that evaluator together with everything built on it: its what-if form,
its batch forms, the writes it guards, the page that edits it, and the request memo in front of it. It also models the dial-in
delivery of events to automations and five small bounded structures: log shipping, two rate limiters, the passkey ceremony table,
the prompt budget and the calendar file printer.

`dafny verify dfyconfig.toml` checks all of it.

## How it is laid out

| file | what it holds |
|---|---|
| `Options.dfy` | a value that may be absent |
| `AccessModel.dfy`, `Evaluator.dfy` | roles, rules, sources; the evaluator, and the declarative rule it refines |
| `AccessStore.dfy`, `Reach.dfy`, `RuleRows.dfy` | the stored state as maps, the checks of each kind of entity, which rules reach a person, rows as stored |
| `Answers.dfy`, `CheckWords.dfy` | that every answer's source agrees with it, answers spread over workspaces read without their loops, and every check in terms of what is stored |
| `WhatIf.dfy`, `Explain.dfy`, `RoleHolders.dfy`, `ExplainWords.dfy` | "with this rule at Fallback" against the rule really moved, a role's explanation against its holder's checks, and explanations in terms of what is stored |
| `Writes.dfy`, `WriteTheorems.dfy`, `WriteInside.dfy` | the rule-writing call, what any call does, and what a folder or project write does inside |
| `Batch.dfy`, `ViewAs.dfy`, `AccessGrid.dfy` | batch answers, pinned requests, the access page |
| `Memo.dfy`, `MemoGap.dfy`, `MemoViews.dfy`, `MemoChecks.dfy` | the memo under concurrent reads and commits, the gap before an announcement, pinned requests sharing it, and checks made of its answers |
| `Dialin.dfy`, `DialinCursor.dfy` | any number of connections sharing one cursor over an ordered log, and what a crash does to the cursor |
| `LogShipping.dfy`, `Limiters.dfy`, `Passkeys.dfy`, `Prompt.dfy`, `Calendar.dfy` | the bounded structures |

Conventions. Ids are numbers and 0 is the empty id; action names are opaque constructors. A store is a value: repositories are maps
that meet the contracts their interfaces write down (`AccessStore.Consistent`), and where an answer is put in terms of what is
stored, a member's record is the one their roles make (`CheckWords.Kept`). Times are integers and every clock is a parameter that
does not go back. State the program changes in place is a class (`RuleWriter`, `GridPlan`, `RequestMemo`, `LogQueue`, `Limiter`,
`FailureLimiter`, `Ceremonies`); where steps of several actors interleave, the model is a transition system and a theorem speaks of
every state of every run.

## Where the code does not do what one would expect

Each of these is proved on a concrete case, beside the condition under which the expected law does hold.

- The memo's fence closes when a commit is announced, and a commit is announced just after it becomes visible
  (`internal/platform/storage/serializer.go:36-39`). Between the two a hit of a single read can be one commit old
  (`MemoGap.AHitCanBeStaleBeforeTheAnnouncement`) but never older (`Memo.HitsLagOneCommitAtMost`). A hit of layers can be worse:
  each part comes from one of the two stores, and the whole can be an answer no store ever gave, a member of a workspace listed in
  a project where one store has no such member and the other lists nobody (`MemoGap.AHitCanBeOfNoStore`,
  `Memo.LayersHitsMixTwoStoresAtMost`). Whenever every commit has been announced every hit is exact (`Memo.HitsAreExact`), and so
  are layers whose reads the awaited commit left alone (`Memo.UntouchedLayersAreExact`).
- A rule call can return an error having changed a rule. Naming one target twice with Fallback deletes the rule and then fails on
  deleting it again (`WriteTheorems.NamingATargetTwiceFailsMidway`); allowing someone who has an account and someone who has none
  stores the first rule and then fails on the second, which the table's reference to accounts refuses
  (`internal/platform/storage/migrations/0097_permission_overwrite_targets.sql:7`; `WriteTheorems.NamingNobodyFailsMidway`). A
  planned call fails exactly when it empties a rule twice or would leave a person with no account with a rule
  (`WriteTheorems.CallsFailExactlyWhen`).
- A folder write can give an action on a doc inside on which its author is denied (`WriteInside.AFolderWriteCanExceedItsAuthor`):
  exactly when the doc's own rules deny it to them (`WriteInside.AFolderWriteExceedsItsAuthorExactlyWhen`).
- An access page naming one project more than once ends as the last entry says, but for a person an earlier entry names, the last
  one does not, and no stored rule lists (`AccessGrid.TheLastEntryDecidesBut`, `AccessGrid.NamedTwiceKeepsTheFirst`).
- The cursor passes a crashed event (`DialinCursor.ACrashCanBePassedOver`). While nobody else moves the cursor, it does so exactly
  when a later event of the batch was skipped, or finished and its cursor stored (`DialinCursor.ACrashIsPassedExactlyWhen`).
- A run report that fails to persist is only logged while the cursor moves on (`DialinCursor.AReportCanBeLost`). An event has a
  report exactly when a step persisted one of a run that delivered it (`Dialin.CursorSafety`).
- A composed prompt overruns its limit exactly when the conversation's budget is negative and there is a conversation, or the fixed
  sections overrun alone (`Prompt.PromptKeepsTheLimit`); a play's start on a reused session has no budget at all
  (`Prompt.APlayStartHasNoLimit`).

## Model

| member | source | states |
|---|---|---|
| `AccessModel.RolesHeld` | internal/access/model.go:72-84 | the record answers for the roles it lists: it is an Owner if and only if one of them is, permits exactly what one of them permits, and never grants anything without a role to name |
| `Evaluator.ApplyRoleRulesInOnePass` | internal/access/usecase.go:371-389 | the single pass with an early return equals: the first rule allowing decides, else the first denying, else the answer from outside stays |
| `Evaluator.DecideByFolding` | internal/access/usecase.go:138-153 | the loop over the chain is the fold over its entities, with the owner, hidden and membership cases before it |
| `Evaluator.ApplyRulesSays` | internal/access/usecase.go:347-407 | an entity silent on the action leaves answer and source; one with a say decides by it, and its source is a real rule of that entity setting the action to that state |
| `Evaluator.ApplyChainIsInnermost` | internal/access/usecase.go:347-407 | the fold is the innermost entity with a say; with none the outer verdict stands; one of the two always holds |
| `Evaluator.DecideIsInnermost` | internal/access/usecase.go:138-153 | for a member inside, not an owner: the verdict is the innermost layer with a say, the person's rule beating the roles and any role's Allow every role's Deny, and the source names that layer's rule; with no say, an action is held if and only if a role's permissions contain it and it is not a project's asked outside one, and the source names the first such role, or that it was asked outside |
| `Evaluator.DecidedBeforeRules` | internal/access/usecase.go:138-148 | an Owner holds everything, named by their first Owner role; who is not in the project holds nothing in it; being a member is belonging |
| `Evaluator.ARoleAloneIsItsList` | internal/access/model.go:86-106 | a record naming one role and listing none gives every verdict and source of one listing it |
| `Evaluator.SourceStateIsTheAnswer` | internal/access/usecase.go:223-255 | the source's state is allow exactly when the answer is yes, if and only if the role record does not grant while naming no role |
| `Answers.CheckSourceIsTheAnswer` | internal/access/usecase.go:223-255 | on a doc, folder, project, play, stack or channel, for any store the repositories can hold, the source's state is allow exactly when the answer is yes |
| `Answers.MachineSourceIsTheAnswer` | internal/access/machine.go:87-113 | the same on a machine, what-if included |
| `Answers.AreaSourceIsTheAnswer` | internal/access/area.go:69-111 | the same on an instance area, what-if included |
| `CheckWords.CheckInWords` | internal/access/usecase.go:117-153 | for every store, person, action and entity, a check answers yes if and only if the stored memberships, roles, permissions and rules say so: the Owner; else a member the project lets in, with a role's grant, a project's only inside one, under the word of project, folder and entity in turn |
| `CheckWords.WithNoSayRolesDecide` | internal/access/usecase.go:232-255 | with no rule saying anything, a member who is no Owner holds exactly what a role of theirs permits, but a project's action asked outside any; the source names the first role permitting it, or that it was asked outside |
| `CheckWords.WhoIsNotInHoldsNothing` | internal/access/usecase.go:217-221 | who does not belong, or is not let in by the project's rules, is refused as not in the project |
| `CheckWords.ChannelReadInWords` | internal/access/usecase.go:614-634 | a channel is read by an Owner, and by a member for whom it exists, is public or lists them, and whose rules there do not end in a Deny; by no outsider; with no rule the source is every member or the channel's members |
| `CheckWords.InstanceOwnerInWords` | internal/access/machine.go:57-72 | the instance Owner is who holds an Owner role of the default workspace, named by the first of them |
| `CheckWords.MachineFromWhatIsStored` | internal/access/machine.go:87-187 | seeing a machine and holding an action on it in terms of stored rules, roles and memberships alone |
| `CheckWords.MachineByRight` | internal/access/machine.go:136-158 | nobody is on no machine, the instance Owner on none that does not exist, and on one that does holds everything by that role |
| `CheckWords.MachineSourceInWords` | internal/access/machine.go:87-187 | with no rule saying anything, the source is that they are not on the machine, or a role of a workspace where a role grants the action |
| `CheckWords.AreaFromWhatIsStored` | internal/access/area.go:58-119 | an action on an area in terms of stored rules, roles and memberships alone |
| `CheckWords.AreaSourceInWords` | internal/access/area.go:69-127 | with no rule saying anything, the source is a role that grants the action, or that it is the instance Owner's for an Owner of another workspace |
| `CheckWords.ReadsWhatReaches` | internal/platform/storage/access_repo.go:41-61 | a read of an entity's rules holds the one naming the person and those of every role they hold anywhere, and no other |
| `Evaluator.VerdictIgnoresRuleOrder` | internal/access/usecase.go:369-389 | reordering the rules of the project and of every entity inward never changes an answer |
| `Evaluator.ChainIsMonotone` | internal/access/usecase.go:350-400 | raising what entities say, deny below fallback below allow, never takes a yes away |
| `Evaluator.DecideIsMonotone` | internal/access/usecase.go:138-153 | the whole decision is monotone in what the project and each entity inward say of the action and of being in the project |
| `AccessStore.DecideAreaByScanning` | internal/access/area.go:69-111 | the loop over a person's workspaces, with its early exit and its owner case, is the area decision |
| `Answers.AreaInWords` | internal/access/area.go:58-111 | an action on an area is held by an Owner who settles it, else as the area's rules say, else as some role held anywhere grants it |
| `Answers.SpreadNames` | internal/access/machine.go:162-187 | roles asked in every workspace answer as the first workspace's that grant the action, else as the last's where some role is held |
| `Answers.ScanIsSpread` | internal/access/area.go:69-104 | an area's scan that no Owner settles gives the answer and source a machine's roles give |
| `Answers.MachineInWords` | internal/access/machine.go:87-187 | a machine is seen when its rules say so and nothing else; on one that is seen an action is held as its rules say, else as some role held anywhere grants it; the instance Owner holds all on one that exists |
| `Reach.RulesOnReach` | internal/access/memo.go:213-227 | rules read for every role a person holds anywhere, laid over an answer for some of those roles, act as rules read for those roles alone |
| `Reach.ReachingSays` | internal/access/usecase.go:350-389 | what an entity says is fixed by the stored state of each rule: the person's, else any role's Allow, else any role's Deny |
| `RuleRows.MoveToLands` | internal/access/usecase.go:955-967 | a move puts the action where the written state says, touches no other action, and keeps allow and deny disjoint |
| `WhatIf.WhatIfIsTheWrite` | internal/access/explain.go:107-142 | the Fallback verdict and source for a person on a doc, folder, play, project, stack or channel equal those of the same check after the rule is really moved, an emptied row deleted, being in the project included |
| `WhatIf.WhatIfIsTheWriteOnAMachine` | internal/access/machine.go:87-121 | the same on a machine: whether it is seen, whether the action is held, and why, See included |
| `WhatIf.WhatIfIsTheWriteOnAnArea` | internal/access/area.go:69-111 | the same on an instance area |
| `Explain.PersonAnswers` | internal/access/explain.go:194-206 | each answer of the loop shows the enforced verdict beside the enforced verdict after the real move, a stack's deploys taking Deploy to on its machine besides |
| `Explain.ExplainPerson` | internal/access/explain.go:163-209 | for every kind of entity: who may ask, the error otherwise, and one exact answer per action |
| `Explain.ExplainMachine` | internal/access/machine.go:410-428 | not found for an actor who does not see the machine, forbidden about someone else without managing it, and otherwise every answer beside that of the real move |
| `Explain.ExplainArea` | internal/access/area.go:167-191 | not found for an unknown area, forbidden about someone else for all but the instance Owner, and otherwise every answer beside that of the real move |
| `Explain.RoleWhatIfIsTheWrite` | internal/access/explain.go:334-365 | the what-if for a role on a doc, folder, play, project, stack or channel is the real move of the role's rule |
| `Explain.RoleWhatIfIsTheWriteOnAMachine` | internal/access/machine.go:454-476 | the same for a role on a machine |
| `Explain.RoleWhatIfIsTheWriteOnAnArea` | internal/access/area.go:207-244 | the same for a role on an instance area |
| `Explain.RoleAnswers` | internal/access/explain.go:279-295 | each answer of the role's loop stands beside that of the real move |
| `Explain.ExplainRole` | internal/access/explain.go:235-297 | for every kind of entity: who may ask about a role, the error otherwise, and one exact answer per action |
| `Explain.ExplainRoleMachine` | internal/access/machine.go:432-450 | not found for an actor who does not see the machine or for an unknown role, forbidden without managing it, and otherwise every answer beside that of the real move |
| `Explain.ExplainRoleArea` | internal/access/area.go:207-244 | not found for an unknown area or role, forbidden for all but the instance Owner, and otherwise every answer beside that of the real move |
| `ExplainWords.AnswersAreHeld` | internal/access/explain.go:109-127 | an answer for a person is yes if and only if they hold the action on the entity by what is stored |
| `ExplainWords.WhoMayAsk` | internal/access/explain.go:163-182 | an entity is explained exactly to who opens it as a writer of its rules does, a doc to who reads it |
| `ExplainWords.WhoMayAskAboutAnother` | internal/access/explain.go:183-192 | about someone else, to exactly who manages it as a writer does |
| `ExplainWords.ExplainsWhatMayBeSet` | internal/access/explain.go:46-105 | exactly the actions the entity's rules may set are explained |
| `ExplainWords.PersonDeploysInWords` | internal/access/machine.go:297-309 | a person's deploys on a stack are explained as allowed if and only if they hold them there and see the stack's machine and hold Deploy to on it; refused for the machine, the source names it, or its name when there is none; the Fallback verdict says the same of the store after the real move; every other answer is the check's |
| `ExplainWords.RoleDeploysInWords` | internal/access/explain.go:219-230 | the same for a role, both verdicts |
| `ExplainWords.RoleAnswerInWords` | internal/access/explain.go:345-365 | for every store, role and entity, a role's answer in terms of its stored permissions and rules alone |
| `ExplainWords.RoleMachineInWords` | internal/access/machine.go:454-476 | the same on a machine, seen and held |
| `ExplainWords.RoleAreaInWords` | internal/access/area.go:207-244 | the same on an instance area |
| `ExplainWords.RoleSourceInWords` | internal/access/explain.go:345-365 | with no rule saying anything, why a role answers so: a channel's members or everyone, its Owner role, or that the project does not let it in, naming the role |
| `ExplainWords.RoleAreaSourceInWords` | internal/access/area.go:225-244 | the same on an instance area, another workspace's Owner role refused as not the instance Owner's |
| `RoleHolders.RoleIsItsHolder` | internal/access/explain.go:235-297 | a role's explanation gives the verdict the enforced check gives a person holding that role alone with no rule of their own, a stack's deploys included |
| `RoleHolders.RoleMachineIsItsHolder` | internal/access/machine.go:454-476 | the same on a machine that exists |
| `RoleHolders.RoleAreaIsItsHolder` | internal/access/area.go:207-244 | the same for an instance area's own actions |
| `Writes.RuleWriter.NextRule` | internal/access/usecase.go:928-946 | the loop over actions gives the row moved action by action, or the first refusal |
| `Writes.RuleWriter.PlanOn` | internal/access/usecase.go:757-791 | one entity's plan: the checks in order, then each target's next row, no write where Fallback meets no rule |
| `Writes.RuleWriter.SetRules` | internal/access/usecase.go:705-739 | a call refused in planning changes nothing; a planned one stores its writes one by one, up to the first the table refuses; allow and deny stay disjoint and no empty row is kept; a call that succeeds or changes a rule is one whose actor opens and manages every entity named and holds all it gives; the first entity opened and not managed gives forbidden and leaves every rule |
| `Writes.HoldsInWords` | internal/access/usecase.go:970-987 | on every kind of entity an action is held if and only if stored memberships, roles and rules say so |
| `Writes.GuardInWords` | internal/access/usecase.go:757-777 | an entity not opened is not found; one opened without its kind's own action (plays:write, stacks:write, projects:access, permissions:write on a doc or folder, channels:write, machines:write, an area the instance Owner's) is forbidden; otherwise the write is let through if and only if the area takes the actions and each role is of the entity's workspace |
| `Writes.SettableIsWhatMayBeSet` | internal/access/usecase.go:829-848 | what the rules of each kind of entity may set |
| `Writes.PlannedExactlyWhen` | internal/access/usecase.go:705-791 | a call is planned if and only if it asks something settable and, on every entity named, the actor opens it, holds the action that manages its kind, and holds each action the write allows or lifts a Deny on |
| `Writes.TheFirstRefuses` | internal/access/usecase.go:714-724 | the first entity opened and not managed refuses the whole call as forbidden |
| `Writes.NextRowIsGuarded` | internal/access/usecase.go:928-946 | a row is planned exactly when the actor holds every action the write allows or lifts a Deny on |
| `Writes.MoveAllLands` | internal/access/usecase.go:928-967 | moving a list of actions lands each of them, leaves the rest, and keeps allow and deny disjoint |
| `Writes.MoveAllAgain` | internal/access/usecase.go:928-967 | moving again to the same state changes nothing |
| `Writes.AllPlanned` | internal/access/usecase.go:705-739 | a plan writes exactly the named rules that exist or will, each with its moved row |
| `WriteTheorems.AcceptedRows` | internal/access/usecase.go:705-739 | after an accepted call each named rule is its moved row and every other rule is as it was |
| `WriteTheorems.AcceptedIsExact` | internal/access/usecase.go:701-739 | each named (entity, target, action) ends in the written state; every other triple is untouched |
| `WriteTheorems.RepeatChangesNothing` | internal/access/usecase.go:705-739 | a repeated call leaves the store as it is whatever comes of it: refused, or planned and then stored whole without failing |
| `WriteTheorems.ReachedRows` | internal/access/usecase.go:705-739 | at any point of storing a plan each rule is as it was, or is named and holds its moved row |
| `WriteTheorems.FailedIsReached` | internal/platform/storage/access_repo.go:275-297 | what a call leaves behind, an error included, is such a point |
| `WriteTheorems.RunsKeepRulesDisjoint` | internal/access/usecase.go:955-967 | over any run of calls, failed ones included, no rule both allows and denies an action |
| `WriteTheorems.RunsKeepRulesSettable` | internal/access/usecase.go:829-848 | over any run of calls, failed ones included, no rule comes to set an action its kind of entity has no use for |
| `WriteTheorems.StoringFailsExactlyWhen` | internal/platform/storage/access_repo.go:275-297 | planned writes fail while storing if and only if one rule is emptied twice or a rule to be kept names nobody there is |
| `WriteTheorems.CallsFailExactlyWhen` | internal/access/usecase.go:705-739 | any planned call fails while storing if and only if it empties a rule twice or would leave a person with no account with a rule |
| `WriteTheorems.DistinctCallsFailExactlyWhen` | internal/access/usecase.go:705-739 | a planned call without repeats fails while storing if and only if it would leave a person with no account with a rule; otherwise every refusal leaves every rule unchanged |
| `WriteTheorems.NamingATargetTwiceFailsMidway` | internal/access/usecase.go:705-739 | a concrete call that returns an error having deleted a rule |
| `WriteTheorems.NamingNobodyFailsMidway` | internal/platform/storage/migrations/0097_permission_overwrite_targets.sql:3-15 | a concrete call, naming nothing twice and emptying nothing, that returns an error having stored a rule |
| `WriteTheorems.LackedIsNotRaised` | internal/access/usecase.go:926-967 | an action the actor does not hold on an entity is raised for nobody there |
| `WriteTheorems.InsideNotRaised` | internal/access/usecase.go:117-153 | on a doc, folder, play, stack or channel, with no rule raised for an action nobody comes to hold it |
| `WriteTheorems.ProjectNotRaised` | internal/access/usecase.go:211-221 | on a project only someone let in can come to hold an action no rule was raised for |
| `WriteTheorems.MachineNotRaised` | internal/access/machine.go:87-113 | on a machine only someone who came to see it can |
| `WriteTheorems.NoWriteGivesWhatItsAuthorLacks` | internal/access/usecase.go:705-791 | whoever newly holds an action at any point of storing a write, one left by a failure included, got one the actor held there before, or was let in by an actor who held that |
| `WriteInside.AFolderWriteGivesWhatItsAuthorHoldsThere` | internal/access/usecase.go:117-153 | whoever newly holds an action on a doc after a write on its folder got one the author held on the folder |
| `WriteInside.HeldInTheFolderAndOnTheDoc` | internal/access/usecase.go:127-153 | who holds an action on a folder holds it on a doc in it if and only if they own the workspace, it is membership, or the doc's own rules do not deny it |
| `WriteInside.AFolderWriteExceedsItsAuthorExactlyWhen` | internal/access/usecase.go:705-791 | when someone newly holds an action on a doc after a write on its folder, the author held it on the doc if and only if they own the workspace, it is membership, or the doc's own rules do not deny it to them |
| `WriteInside.AFolderWriteCanExceedItsAuthor` | internal/access/usecase.go:705-791 | a concrete accepted folder write after which someone reads a doc its author is denied reading |
| `WriteInside.AProjectWriteGivesWhatItsAuthorHoldsThere` | internal/access/usecase.go:117-221 | whoever newly holds an action on a doc, folder or stack after a write on its project got one the author held on the project, or was let in by an author who held that |
| `WriteInside.HeldInTheProjectAndInside` | internal/access/usecase.go:117-153 | who holds an action on a project holds it on a doc, folder or stack in it if and only if they own the workspace, it is membership, or the rules between do not end in a Deny of it |
| `Batch.CanDocs` | internal/access/usecase.go:418-440 | one answer per doc, each equal to the single check |
| `Batch.PlaysWith` | internal/access/gate.go:374-408 | one answer per play, each equal to the single check |
| `Batch.ChannelsDenied` | internal/access/gate.go:354-370 | for a workspace member of a public channel or of a private one's list, it is denied exactly when the single read check refuses |
| `Batch.ProjectsWith` | internal/access/gate.go:479-502 | exactly the workspace's projects in which the single check allows the action |
| `Batch.ProjectActionsHeld` | internal/access/gate.go:436-475 | exactly the projects the person is in, each with exactly the project actions the single check allows |
| `Batch.MachinesSeen` | internal/access/machine.go:333-362 | exactly the machines the single check lets the person see, in ascending order, or as listed for the instance Owner |
| `ViewAs.CheckPinned` | internal/access/usecase.go:117-179 | a request pinned to a workspace gets, on a doc, folder, project, play, stack or channel, the verdict and source of a person who belongs to that workspace alone |
| `ViewAs.MachinePinned` | internal/access/machine.go:136-186 | the same for every machine check and its what-if |
| `ViewAs.AreaPinned` | internal/access/area.go:69-111 | the same for every instance-area check and its what-if |
| `ViewAs.HoldsPinned` | internal/access/gate.go:254-268 | the same for what a person holds on any entity |
| `AccessGrid.Listed` | internal/access/grid.go:174-187 | exactly the role columns and people whose stored rule allows being in the project |
| `AccessGrid.HiddenFrom` | internal/access/grid.go:190-198 | exactly the role columns whose stored rule denies reading the channel |
| `AccessGrid.GridPlan.Set` | internal/access/grid.go:275-298 | one key's row is switched, every other stays, and a switch that moves nothing plans nothing |
| `AccessGrid.GridPlan.Project` | internal/access/grid.go:228-248 | the refusals, and the row every key then has |
| `AccessGrid.GridPlan.Channel` | internal/access/grid.go:251-262 | the refusals, and the row every key then has |
| `AccessGrid.GridPlan.KnownRoles` | internal/access/grid.go:264-271 | not found exactly when some role named is no column |
| `AccessGrid.SaveGrid` | internal/access/grid.go:115-146 | who may save what, and the reason of the first entry refused; otherwise every row is the saved one, the setup is marked finished when asked and not yet, and saving what is shown moves no rule |
| `AccessGrid.StoreGrid` | internal/access/repo.go:47-49 | storing what a save writes, each row replaced, added or deleted when empty, gives every key its saved row and keeps no empty rule |
| `AccessGrid.OthersUnmoved` | internal/access/grid.go:226-298 | every action the save does not move, of every rule, is as it was |
| `AccessGrid.SavedProjectIsExact` | internal/access/grid.go:228-248 | being in a project named once ends as the save says, a Deny on whoever it does not name kept |
| `AccessGrid.SavedChannelIsExact` | internal/access/grid.go:251-262 | reading a channel named once ends denied for exactly the roles it names |
| `AccessGrid.SaveAndReadProject` | internal/access/grid.go:112-187 | when a save naming a project once is accepted and stored, and exactly when it is, reading it back lists exactly the saved roles and people |
| `AccessGrid.SaveAndReadChannel` | internal/access/grid.go:112-198 | when a save naming a channel once is accepted and stored, reading it back hides it from exactly the saved roles |
| `AccessGrid.SaveBackWhatWasRead` | internal/access/grid.go:87-146 | saving back what was read is accepted if and only if the caller may name it and every person listed is still a member, and then writes nothing but the mark of a setup it finishes |
| `AccessGrid.TheLastEntryDecidesBut` | internal/access/grid.go:228-248 | however often a project is named, a role or person ends listed as the last entry says, except exactly a person an earlier entry names, the last does not, and no stored rule lists |
| `AccessGrid.NamedTwiceKeepsTheFirst` | internal/access/grid.go:228-248 | the exception occurs: a project named twice keeps a person its second entry leaves out |
| `Memo.RequestMemo.Get` | internal/access/memo.go:59-70 | drops everything once a commit was announced, then gives the entry and the fence it is valid under |
| `Memo.RequestMemo.Put` | internal/access/memo.go:73-82 | keeps an answer only under the fence it was read under, and never a failure |
| `Memo.StepKeepsInv` | internal/access/memo.go:58-137 | every step of every thread keeps the invariant that an entry was answered between the fence and now |
| `Memo.HitsAreExact` | internal/access/memo.go:58-137 | over every interleaving, while every commit is announced, every hit, layers included, is what the store answers at that instant |
| `Memo.HitsLagOneCommitAtMost` | internal/access/memo.go:58-98 | between a commit and its announcement a hit is the answer just before or just after that commit |
| `Memo.LayersHitsMixTwoStoresAtMost` | internal/access/usecase.go:170-207 | between a commit and its announcement every part of a layers hit is the answer of one of the two stores |
| `Memo.UntouchedLayersAreExact` | internal/access/usecase.go:170-207 | such a hit is exact when the commit left each of the reads layers are built from alone |
| `Memo.AnswersComeFromInsideTheCall` | internal/access/memo.go:101-137 | every answer of a finished call was the store's at an instant inside the call, even when its keys span two fences, if every commit was announced when it began; else it may be one commit older |
| `Memo.PartsOfOneStore` | internal/access/usecase.go:181-207 | layers gathered read by read from one store are that store's layers |
| `Memo.KeptFromOneStore` | internal/access/usecase.go:170-207 | an entry answered at one commit only, layers included, is that store's answer for its key |
| `MemoChecks.ReadsMakeTheCheck` | internal/access/usecase.go:121-153 | a check made of reads answered by one store is that store's check, source included |
| `MemoChecks.ChecksFromTheMemoAreTheStores` | internal/access/memo.go:85-98 | over any run, a check each of whose reads is told by a hit or by the store, while no commit comes between, is the check of the store itself, its source included; so are the permission checks built on it |
| `MemoGap.AHitCanBeStaleBeforeTheAnnouncement` | internal/platform/storage/serializer.go:36-39 | a run in which a hit of a single read gives the answer of the store before the last commit |
| `MemoGap.AHitCanBeOfNoStore` | internal/access/usecase.go:170-207 | a run in which a hit of layers makes a listed member of someone, an answer that neither store around the commit gives |
| `MemoViews.HitsAreToldAsSeen` | internal/access/gate.go:254-268 | one memo shared by pinned and unpinned requests: while every commit is announced, a hit told to a request is what the store it sees answers, a pinned one's list of workspaces filtered after the lookup |
| `MemoViews.CallsAreToldAsSeen` | internal/access/memo.go:101-166 | every finished call of any request is told what the store it sees answered at an instant inside the call, or one commit earlier |
| `MemoViews.ToldWorkspaces` | internal/access/gate.go:247-268 | the list of workspaces told from the memo is the one the checks use, pinned or not |
| `Dialin.AfterIsConsecutive` | internal/automations/stream.go:23-29 | a batch takes every subscribed event in order, leaving none between |
| `Dialin.AfterIsFull` | internal/automations/stream.go:23-29 | a batch short of its limit leaves no subscribed event behind it |
| `Dialin.StepKeepsInv` | internal/automations/dialin.go:218-498 | every step of every loop of every connection keeps the delivery invariant |
| `Dialin.ReportedExactlyWhenPersisted` | internal/automations/dialin.go:272-296 | a run has a report if and only if a step persisted it |
| `Dialin.CursorSafety` | internal/automations/dialin.go:271-364 | over any run, every subscribed in-scope event between the starting cursor and the current one was delivered and recorded; an event has a report if and only if a step persisted one of a run that delivered it |
| `Dialin.RunsAreResolvedOnce` | internal/automations/dialin.go:407-498 | each run is recorded at most once, its done closed at most once and only after; the next event is sent only when every earlier run of the connection is recorded and none is active |
| `Dialin.LogsAreItsFrames` | internal/automations/dialin.go:246-269 | a run's log is exactly the chunks sent for it while it was its connection's active run, whatever frames came for other ids or after it ended |
| `Dialin.ClosedRunsAreFinal` | internal/automations/dialin.go:272-296 | once a run's done is closed nothing of it changes but that its send may only then return |
| `Dialin.OnlyInScopeIsSent` | internal/automations/dialin.go:341-364 | over any run nothing is sent but events subscribed to and in scope |
| `Dialin.RunsEndAsTheyWereTold` | internal/automations/dialin.go:218-296 | over any run of the system a run's outcome is the one its terminal frame carried while it was active, or a crash when its peer went first, and none other; only an ended run is recorded and only a finish moves the cursor |
| `Dialin.LoopsEndOnlyWhen` | internal/automations/dialin.go:218-431 | a delivery loop has ended if and only if a send failed or it was cancelled, whatever reads failed before; a read loop if and only if its peer has gone |
| `DialinCursor.StepKeepsTrail` | internal/automations/dialin.go:318-431 | every step keeps a connection's record of its batch, and where the cursor stands while nobody else moves it |
| `DialinCursor.ACrashIsPassedExactlyWhen` | internal/automations/dialin.go:341-431 | while nobody else has moved the cursor since a connection loaded it, the cursor has passed a crashed event of its batch if and only if a later event of the batch was skipped, or finished and its cursor stored |
| `DialinCursor.ALastCrashHoldsTheCursor` | internal/automations/dialin.go:271-364 | when the last event dealt with crashed, whether or not the delivery loop saw it, and nobody else has moved the cursor since, the cursor is before it and the next batch anyone reads opens at it or earlier |
| `DialinCursor.ACrashCanBePassedOver` | internal/automations/dialin.go:341-431 | a run in which the cursor moves past a crashed event |
| `DialinCursor.AReportCanBeLost` | internal/automations/dialin.go:272-296 | a run in which the cursor passes an event that has no report |
| `LogShipping.LogQueue.Add` | automations/src/log.ts:47-61 | the record goes last; a full queue evicts and counts its oldest |
| `LogShipping.LogQueue.Peek` | automations/src/log.ts:63-79 | the longest run of oldest records within both limits, after the warning when drops are pending; one line alone always fits |
| `LogShipping.LogQueue.Ack` | automations/src/log.ts:81-86 | what the server took leaves the queue, whatever was evicted meanwhile |
| `LogShipping.PeekMakesProgress` | automations/src/log.ts:63-79 | a batch is empty only when there is nothing to tell, so no record is ever stuck |
| `LogShipping.Drain` | automations/src/log-shipper.ts:47-58 | a flush nothing is added to ends; accepted batches and the rest of the queue are what was queued, in order; it stops only empty or at a refused post |
| `LogShipping.StepKeepsInv` | automations/src/log-shipper.ts:39-58 | every add, peek, post and acknowledgement, in any order, keeps the shipping invariant |
| `LogShipping.RecordsAreConserved` | automations/src/log-shipper.ts:39-58 | at any point of any run each added record is queued, evicted or taken; those taken are in add order, none twice; drops told and pending are the evictions; the queue keeps its limit |
| `LogShipping.OneBatchAtATime` | automations/src/log-shipper.ts:39-58 | one batch is in flight at a time: posted until taken or refused, acknowledged once taken, given up when refused |
| `Limiters.Limiter.Recent` | internal/botwebhook/limiter.go:83-89 | skipping the old prefix leaves exactly the hits younger than the window |
| `Limiters.Limiter.Sweep` | internal/botwebhook/limiter.go:71-81 | at most once a window, exactly the keys with no hit in the window go, and agreement with the whole history stays |
| `Limiters.Limiter.QuotaAt` | internal/botwebhook/limiter.go:56-68 | remaining and reset are those the whole history gives |
| `Limiters.Limiter.Take` | internal/botwebhook/limiter.go:35-45 | a hit is taken exactly when the whole history leaves room; a refusal's reset is the first instant a retry is admitted |
| `Limiters.Limiter.Give` | internal/botwebhook/limiter.go:48-54 | the key's latest hit leaves the history |
| `Limiters.AdmittedKeepsSpacing` | internal/botwebhook/limiter.go:35-45 | an admitted hit comes a whole window after the one `limit` places before it |
| `Limiters.NoWindowEverHoldsMore` | internal/botwebhook/limiter.go:34-54 | no window of time, wherever it starts, holds more than the limit of recorded hits |
| `Limiters.ResetIsTheFirstRetry` | internal/botwebhook/limiter.go:56-68 | once refused, with a limit of at least one, a retry at t succeeds if and only if t has reached the reset |
| `Limiters.ALimitOfNoneNeverResets` | internal/botwebhook/limiter.go:56-68 | with a limit of none the reset is now and no retry ever succeeds |
| `Limiters.FailureLimiter.Blocked` | internal/auth/setup.go:331-335 | blocked if and only if at least `max` of all failures ever lie in the window |
| `Limiters.FailureLimiter.Fail` | internal/auth/setup.go:337-348 | one failure joins the history; every address keeps exactly its failures in the window, and that changes no later answer |
| `Passkeys.Ceremonies.Swept` | internal/auth/passkeys.go:65-74 | the sweep leaves exactly the open ceremonies and counts those of one address |
| `Passkeys.Ceremonies.Put` | internal/auth/passkeys.go:58-81 | refused exactly when 1000 are open, or 10 from the address, by the whole history; never more than 1000 entries nor 10 open from one address |
| `Passkeys.Ceremonies.Take` | internal/auth/passkeys.go:84-90 | handed out exactly when started, not asked for before and not expired; the id is spent either way |
| `Passkeys.HandedOutOnce` | internal/auth/passkeys.go:83-90 | over any run a ceremony is handed out at most once |
| `Prompt.JoinSections` | internal/agent/prompt.go:193-201 | the non-empty sections in their order, a blank line between each two, each at the offset the sizes of those before it give |
| `Prompt.JoinAppend` | internal/agent/prompt.go:193-201 | joining two lists of parts is joining each, the separator between |
| `Prompt.JoinedReads` | internal/agent/prompt.go:193-201 | every non-empty section stands in the joined text right after those before it, a blank line follows it unless nothing does, and the text holds nothing else |
| `Prompt.WriteContext` | internal/agent/prompt.go:139-156 | the context's sections in their order, the play's name, target, blocks, memories, instructions and footer memories each where the code appends it |
| `Prompt.FitContext` | internal/agent/prompt.go:204-223 | the longest suffix of messages that fits the budget; truncated if and only if something was dropped |
| `Prompt.ConversationBlock` | internal/agent/prompt.go:176-190 | header, the note if and only if something was dropped, and the kept lines; nothing when there are no messages |
| `Prompt.PromptKeepsTheLimit` | internal/agent/prompt.go:117-137 | the prompt is at most 120000 bytes if and only if the budget is not negative, or there are no messages and the rest alone fits |
| `Prompt.ComposePrompt` | internal/agent/prompt.go:117-125 | the fresh prompt starts with its intro and ends with its footer, each section of context, conversation and request standing right after those before it; and the exact bound |
| `Prompt.ComposeIncrementalPrompt` | internal/agent/prompt.go:129-137 | the reused session's prompt in its two forms, each section standing right after those before it, a request last; and the exact bound of the second |
| `Prompt.APlayStartHasNoLimit` | internal/agent/prompt.go:129-156 | composing a play's start on a reused session can give a prompt longer than any limit |
| `Calendar.IcsTextIsEscape` | client-core/discordTime.ts:96 | the four chained replaces are one map over the characters |
| `Calendar.EscapeReadsBack` | client-core/discordTime.ts:96 | unescaping gives the text back with CRLF as LF (section 3.3.11 of RFC 5545) |
| `Calendar.Utf8Length` | client-core/discordTime.ts:98-104 | the octets a character takes in UTF-8 |
| `Calendar.Utf8ReadsBack` | client-core/discordTime.ts:98-104 | the encoding counted is UTF-8: a character's first octet says how many follow, and they read back as the character |
| `Calendar.Fold` | client-core/discordTime.ts:107-123 | pieces of at most 75 octets of UTF-8 that continue the line, each but the last as full as it can be (section 3.1 of RFC 5545) |
| `Calendar.UnfoldFile` | client-core/discordTime.ts:107-123 | unfolding a file of folded lines gives the file of the lines |
| `Calendar.WriteLines` | client-core/discordTime.ts:128-144 | a reader gets every line back, and no physical line is over 75 octets |
| `Calendar.EventFile` | client-core/discordTime.ts:126-144 | for every title: unfolded, cut into lines and unescaped, the file gives every line back and the title with CRLF as LF |

## Left out

- Failing reads: outside the memo, a store read that fails is not modelled; in the memo a failed read is never kept.
- Memo: reads by type, the machine list and a workspace's projects, which are kept and dropped as the other keys are.
- The mark an explanation puts on a play's Run answer when See is not held: it changes no answer.
- Computer sharing rules, attachments, versions, secrets and account status: short guards over stores, settled by reading one branch.
- SQL behind the repositories, and the readings that only exist in SQL (`DocRuleTurns`, `StackRuleTurns`): the Go batch forms are modelled instead.
- Events written to the outbox beside a rule, and their delivery to clients.
- Dialin: log positions are taken to grow in commit order, subscriptions are fixed, `SkipBacklog` is left out, and replacing a connection is any connection ending while another begins.
- Dialin: a disabled automation and an event whose scope cannot be read both give the batch up (`GiveUp`); time limits and websocket framing are not modelled.
- Log records: cleaning, redaction and JSON sizes; a record is what `add` leaves in the queue, with its size.
- Limiters.Limiter.QuotaAt: does not model the bucket name, which is a hash of the key.
- Passkey ceremonies: the WebAuthn session, user and origin are one opaque value; fresh ids are assumed of the token maker.
- Prompt: rendered timestamps, the target line and the fixed wording of the sections come as strings.
- Access page: the guard that reads it, which takes a member who manages some project; who manages what is a parameter.
- Dialin: the last log a finishing frame carries, and the cap on a run's log.
- Calendar: dates and stamps are lines given to the printer, taken to hold no line feed and to start with no space.
- Display text: names, sentences and labels in explanations, HTTP and MCP handlers, OAuth, GitHub, Discord and Google clients, token minting, the agent's turn runner, and the desktop, web and native apps.
