# The OPNsense operator's reconcile protocol, verified

The operator keeps Kubernetes custom resources (`FirewallRule`, `Alias`) and an OPNsense box in agreement.
Each reconcile is a chain of API calls; any of them can fail before its effect, succeed with its reply lost, or be
cut off by a crash, and the next reconcile has nothing to go by but `status.uuid` and a tag at the end of the rule's
description (for aliases: the alias name). This project models that protocol and proves what it guarantees over
**every run**: any number of resources, any interleaving, any pattern of faults, and users, other controllers and
administrators acting in between.

## How the project is laid out

The same protocol is stated twice, and the two are connected by proof.

- A **state machine** (`RuleMachine`, `AliasMachine`): the world is the API server's store, the *staged* and the *live*
  configuration of the box, every uuid ever handed out, and one program counter for each resource. Each event is one API call with
  its outcome, a crash, or an action of a user, another controller or an administrator. A run is any sequence of events.
- The **code** (`RuleReconciler`, `AliasReconciler`): classes `Client`, `FirewallRuleCopy`/`AliasCopy` and
  `FirewallRuleReconciler`/`AliasReconciler` that change their fields step by step as the Go code does, calling the
  endpoints of a `Cluster` (`RuleCluster`, `AliasCluster`) whose fields are the world. Between any two calls the cluster lets everybody else act. `Reconcile` is
  proved to add exactly one reconcile of the state machine to the history, so every theorem about runs holds of it.

The theorems are in `RuleTheorems`, `RuleReady`, `RuleNames`, `RuleOwnership`, `RuleRecovery`, `RuleContention`, `RuleConvergence`,
`RuleLive`, `RuleScenarios`, `AliasSafety`, `AliasReady`, `AliasOwnership`, `AliasRecovery`, `AliasConvergence`, `AliasLive` and `AliasScenarios`; `RuleSafety` holds the
invariant behind the rule theorems. `Text`, `Listings`, `Kube`, `Connection`, `Opnsense`, `RuleSpec`, `RuleDrift`, `AliasSpec`,
`Replies` and `ValidationMessage` hold the data, the encodings and the string functions.

## What is assumed of the environment

- A uuid is never empty and never handed out twice.
- A call whose failure has been seen has no effect later: it had it before or never has it.
- Reconciles of one resource are serial, and each reads the current resource. A write from a copy that has become
  stale conflicts and changes nothing.
- Nobody else strips the operator's finalizer or changes the status, and nobody writes a description that ends in `]` and contains
  `[opnsense-operator:`, except to leave one as it is.
- One box, and a fixed `connectionRef`. What the connection, its Secret and its TLS settings look like at each reconcile is the environment's choice.
- As the repository's notes on the OPNsense filter API describe it, search is a case-insensitive substring match, an update keeps
  omitted fields, and a write changes the staged configuration at once and the live one only on apply. Search covers descriptions,
  returns all rows, and folds the case of ASCII letters.
- The box answers a setRule or setItem on an unknown uuid with a failure that lists no validations.
- A write that the box accepts stores exactly the fields that were sent and keeps the others. A select field therefore has one
  chosen value.
- Alias names are unique on the box: it refuses a second alias of the same name.

## Where the code does less than one would expect

Each of these is proved as an exact condition, a counterexample, or both.

- `Ready=True` does not mean that the rule is live. After a failed apply the retry finds no drift and reports success without
  applying (`RuleScenarios.ReadyWithoutLive`, for every resource and spec). `RuleLive.ReadyRuleIsLiveIff` says when it is.
- A single search hit need not be the resource's own rule, since the search is a substring match: it can be another resource's,
  or an administrator's whose text mentions the name. The reconcile overwrites it. `RuleContention.AdoptedIff` says exactly when, for every rule,
  and `RuleContention.TakenOverIff` restates it by names. `RuleScenarios.NeighbourTakesOverIff` and `RuleScenarios.AdminRuleIsOverwrittenIff`
  show it for every case: `shop/api` loses its rule to `shop/a` or to `p/a`, whose namespace ends that of the first and whose name
  begins its name. Afterwards both hold the rule and undo each other forever (`RuleContention.FightForever`). With names kept apart
  none of this can happen (`RuleOwnership`).
- Deleting a resource can leave a rule behind, when the creation was never recorded in the status
  (`RuleScenarios.DeletionLeavesRule`, for every resource and spec), and can leave one live that is not even staged
  (`RuleScenarios.DeletionLeavesLiveRule`). `RuleRecovery.DeletionLeavesNothingIff` says when it does not. Aliases are no
  different (`AliasScenarios.DeletionLeavesAlias`, `AliasRecovery.DeletionLeavesNothingIff`).
- The alias drift test does not compare names. A new name alone is ignored, with `Ready=True` under the old name
  (`AliasScenarios.RenameIsIgnored`, for every alias). `AliasRecovery.NameFollowsIff` says when the box gets the name.
- An alias update with an empty description does not remove an old one. Such an alias never settles: it is updated again by
  every reconcile and reported as `Ready=True` by each (`AliasScenarios.RemovedDescriptionStays`, for every alias with a
  description; `AliasRecovery.StuckForever`). `AliasRecovery.OneReconcileSettles` and `AliasRecovery.ReadyIsReportedIff` give the exact conditions.
- Two `Alias` resources can share one alias, and deleting one of them then deletes the other's. Asking for the same name
  is one way (`AliasScenarios.SharedNameIff`), and an ignored rename is another, with different names (`AliasScenarios.RenamedAliasIsShared`).
  `AliasRecovery.RecordsIff` and `AliasRecovery.DeletionHitsSharerIff` give the exact conditions in any reachable state. If every name belongs to
  one resource over the whole run, it cannot happen (`AliasOwnership`).
- The comment on `selectedKey` speaks of "the" selected key; with two selected keys the result depends on the
  iteration order of the map (`Replies.SelectedKeyIsOrderFreeIff`).

## Model

| member | source | states |
|---|---|---|
| `RuleTheorems.AtMostOnceCreation` | internal/controller/firewallrule_controller.go:193-232 | in every run, at most one staged rule ends with a resource's tag, whatever replies, status saves or reconciles were lost; while the recorded rule is staged, no other rule bears the tag |
| `RuleTheorems.FinalizerDropsLast` | internal/controller/firewallrule_controller.go:164-186 | only the resource's own reconcile, during deletion, drops its finalizer, and then the recorded rule is in neither configuration |
| `RuleTheorems.CleanupIsPermanent` | internal/controller/firewallrule_controller.go:164-186 | once the finalizer of a resource with a recorded rule is gone, that rule is neither staged nor live, then and after every further run |
| `RuleTheorems.StatusIsBacked` | internal/controller/firewallrule_controller.go:64-70 | in every reachable state a recorded uuid is backed by the persisted finalizer or by a completed cleanup, and observedGeneration never exceeds generation |
| `RuleTheorems.UuidNeverCleared` | internal/controller/firewallrule_controller.go:288-296 | no event of any run empties a recorded uuid while the resource exists |
| `RuleTheorems.WritesNeedFinalizer` | internal/controller/firewallrule_controller.go:64-70 | every call that changes the staged or the live configuration happens while the caller's finalizer is persisted |
| `RuleTheorems.FinalizerIsAdded` | internal/controller/firewallrule_controller.go:64-70 | a write of the finalizer that takes effect adds exactly "firewall.opnsense.io/firewallrule-finalizer" and changes nothing else |
| `RuleTheorems.FinalizerIsRemoved` | internal/controller/firewallrule_controller.go:182-186 | its removal drops exactly that: the resource is gone if it had no other finalizer, and keeps the others otherwise |
| `RuleTheorems.FailureIsStored` | internal/controller/firewallrule_controller.go:299-311 | a save of a failure that takes effect stores Ready=False with exactly its reason, its message and the generation read, and keeps uuid, sequence and observedGeneration |
| `RuleTheorems.SuccessIsStored` | internal/controller/firewallrule_controller.go:288-311 | a save of success that takes effect stores uuid, sequence and generation, and Ready=True with the fixed reason and message |
| `RuleTheorems.ShortcutIsExact` | internal/controller/firewallrule_controller.go:132-141 | the status write is skipped exactly when success would write the status already read, and skipping it leaves the store as the write would have |
| `RuleReady.ReadyIsSound` | internal/controller/firewallrule_controller.go:107-141 | each time a save of Ready=True takes effect, even one that changes nothing, it is for the generation of the stored spec, and at some instant of that same reconcile the recorded rule was staged with every managed field as the spec asks, despite everybody else's steps |
| `RuleReady.OnlySavesMakeReady` | internal/controller/firewallrule_controller.go:288-311 | Ready=True comes with a new status only by such a save of the resource's own reconcile |
| `RuleOwnership.RulesAreNotShared` | internal/controller/firewallrule_controller.go:212-231 | if no text on the box mentions another resource's name, two resources never record the same rule |
| `RuleOwnership.OnlyOwnersWrite` | internal/controller/firewallrule_controller.go:212-231 | under the same condition a reconcile creates, updates and deletes only its own rules: one that was there is tagged, recorded or held by its resource, none is tagged or recorded by another, and what it writes bears its own tag |
| `RuleOwnership.DistinctIff` | internal/controller/firewallrule_controller.go:212-217 | the naming condition of the two theorems above holds of a resource exactly if no other resource's phrase occurs in the user's text or nests in its name |
| `RuleRecovery.CallsRunOut` | internal/controller/firewallrule_controller.go:52-142 | every call, whatever its outcome, decreases the measure of calls that the reconcile still makes |
| `RuleRecovery.ReconciledIsBigStep` | internal/controller/firewallrule_controller.go:77-142 | the whole chain of calls of an undisturbed reconcile has exactly the effect of one big step: create, update, only look, or fail on an ambiguous lookup, by what it finds; staged, live, used uuids and status are stated in full, and everything else stays |
| `RuleRecovery.ReconciledIsRun` | internal/controller/firewallrule_controller.go:52-142 | the undisturbed reconcile of the recovery theorems is a run of the protocol in which only that resource acts and nothing fails |
| `RuleRecovery.OneReconcileSettles` | internal/controller/firewallrule_controller.go:52-142 | from every reachable state one undisturbed reconcile of an undeleted resource with its finalizer settles it if and only if its recorded rule is staged or the search does not find several |
| `RuleRecovery.ReconciledAchieves` | internal/controller/firewallrule_controller.go:77-142 | it settles on the recorded rule, else on the sole hit, else on the created one; no other rule comes, goes or changes, live becomes staged exactly when a write was due; an ambiguous lookup writes nothing to the box |
| `RuleRecovery.SettledIsFixpoint` | internal/controller/firewallrule_controller.go:132-139 | a settled resource's next reconcile changes neither configuration, status nor object |
| `RuleRecovery.FinalizerFirst` | internal/controller/firewallrule_controller.go:64-70 | the first reconcile of a new resource adds exactly the finalizer and does nothing else |
| `RuleContention.SoleHitIsTakenOver` | internal/controller/firewallrule_controller.go:221-226 | a sole hit that bears another resource's tag is adopted and retagged |
| `RuleContention.AdoptedIff` | internal/controller/firewallrule_controller.go:200-231 | for every staged rule, whoever it belongs to and tagged or not: an undisturbed reconcile in any reachable state records and overwrites it, or leaves it untouched; the first exactly if it is the recorded one, or the recorded one is not staged and its text is the only one with the phrase |
| `RuleContention.TakenOverIff` | internal/controller/firewallrule_controller.go:200-231 | the same for a rule with another resource's tag, in terms of names: the rule is the recorded one; or the recorded one is not staged, the rule's user text or the other resource's name contains the phrase, and no other staged text does |
| `RuleScenarios.NeighbourTakesOverIff` | internal/controller/firewallrule_controller.go:212-226 | for all resources and specs: of two resources reconciled one after the other without any fault, the second ends up with the rule of the first, which still reports Ready=True, if and only if the first one's text or name contains the phrase of the second |
| `RuleContention.FightForever` | internal/controller/firewallrule_controller.go:107-141 | from every reachable state, two resources that have recorded the same staged rule and are reconciled in turns undo each other forever: each reconcile settles the one and unsettles the other, and from the second on each rewrites the rule |
| `RuleScenarios.NeighboursFightForever` | internal/controller/firewallrule_controller.go:212-226 | two neighbours of which the second took over the rule of the first fight over it forever |
| `RuleScenarios.AdminRuleIsOverwrittenIff` | internal/controller/firewallrule_controller.go:221-226 | for every untagged rule of an administrator and every new resource, the rule is overwritten and recorded as the resource's if and only if its text contains the phrase |
| `RuleScenarios.DeletionLeavesRule` | internal/controller/firewallrule_controller.go:156-162 | for every resource and spec, a failed apply, a deletion and a fault-free reconcile remove the resource and leave its rule staged |
| `RuleScenarios.DeletionLeavesLiveRule` | internal/controller/firewallrule_controller.go:156-162 | for every resource and spec, after a lost apply reply and an unapplied deletion by the administrator, deleting the resource leaves its rule live, though none is staged |
| `RuleRecovery.DeletionLeavesNothingIff` | internal/controller/firewallrule_controller.go:156-186 | an undisturbed deletion drops the finalizer; no staged rule with the tag is left exactly if the recorded rule was staged or there was no such rule; none is left in staged or live exactly if the recorded rule was staged, or none was staged and a rule was recorded or none was live |
| `RuleConvergence.TwoReconcilesSettle` | internal/controller/firewallrule_controller.go:52-142 | from every reachable state with names kept apart, two fault-free reconciles of an undeleted resource settle it, however the others interleave with their calls |
| `RuleConvergence.SettledForGood` | internal/controller/firewallrule_controller.go:132-139 | a settled resource stays settled over every such further run, and none of its reconciles writes anything |
| `RuleConvergence.NeverAmbiguous` | internal/controller/firewallrule_controller.go:227-231 | with names kept apart the search never finds several rules |
| `RuleLive.LiveFollowsStaged` | internal/controller/firewallrule_controller.go:84-130 | in every run where no write's reply is lost and no apply is missed, live equals staged whenever no reconcile is between a write and its apply, for creates, updates and deletes alike |
| `RuleLive.ReadyRuleIsLiveIff` | internal/controller/firewallrule_controller.go:95-141 | after an undisturbed successful reconcile in any reachable state the rule is live exactly if a write was due or the rule it found was live already |
| `RuleScenarios.ReadyWithoutLive` | internal/controller/firewallrule_controller.go:95-97 | for every resource and spec, a failed apply followed by a fault-free reconcile ends with Ready=True and a rule that is not live |
| `RuleSafety.NextKeepsInv` | internal/controller/firewallrule_controller.go:52-232 | every event of every party keeps the invariant that ties status, finalizer, tags, used uuids and the program counters together |
| `RuleSafety.ReachableInv` | internal/controller/firewallrule_controller.go:52-232 | the invariant holds in every reachable state |
| `RuleSafety.WrittenDescription` | internal/controller/firewallrule_controller.go:315-317 | every rule that a reconcile changes ends with that resource's tag |
| `RuleSpec.ManagedDescriptionBears` | internal/controller/firewallrule_controller.go:315-317 | for every user description, the trimmed description still ends with the resource's tag |
| `RuleDrift.PayloadDescription` | internal/controller/firewallrule_controller.go:315-317 | what is sent is the user's text without its leading spaces, a blank and "[opnsense-operator:namespace/name]", and the suffix alone for a text of nothing but spaces |
| `Text.AsciiSpaces` | internal/controller/firewallrule_controller.go:317 | of the ASCII characters, trimming removes the blank and the controls from tab to carriage return, and no other |
| `RuleSpec.TagUnique` | internal/controller/firewallrule_controller.go:316 | no text ends with the tags of two different resources |
| `RuleSpec.PhraseInjective` | internal/controller/firewallrule_controller.go:212 | namespace and name are uniquely recoverable from the search phrase |
| `RuleSpec.BearersMatch` | internal/controller/firewallrule_controller.go:212-213 | the search never misses a rule that bears the resource's tag |
| `RuleSpec.NestedNamesAreHit` | internal/controller/firewallrule_controller.go:212-231 | a rule of another resource is hit too whenever the one phrase occurs in the other |
| `RuleNames.TagIsHitIff` | internal/controller/firewallrule_controller.go:212-213 | the tag of one resource contains the phrase of another exactly if its namespace ends, and its name begins, with those of the other |
| `RuleNames.BearerIsHitIff` | internal/controller/firewallrule_controller.go:212-213 | a description with a tag is hit by the search for another resource exactly if the text before the tag is, or the names nest |
| `RuleNames.ManagedIsHitIff` | internal/controller/firewallrule_controller.go:315-317 | the same for the description written for any user text, trimming included |
| `RuleDrift.DriftTestIsExact` | internal/controller/firewallrule_controller.go:348-374 | there is no drift exactly if all fifteen managed fields agree, and the sequence where the spec sets one |
| `RuleDrift.SequenceIsSentIffSet` | internal/opnsense/client.go:524-526 | the sequence is part of the payload exactly if the spec sets one |
| `RuleDrift.PayloadFields` | internal/opnsense/client.go:532-558 | every field sent is the one of the spec: flags as "1" or "0", texts as they are, and a set sequence as its canonical decimal numeral |
| `RuleDrift.UpdateConverges` | internal/opnsense/client.go:507-558 | encoding, storing over any previous rule and decoding gives a rule without drift, an unset sequence and unmanaged fields kept |
| `RuleDrift.CreateConverges` | internal/opnsense/client.go:539-558 | a created rule shows no drift, and has the assigned sequence if the spec sets none |
| `RuleReconciler.FirewallRuleReconciler.Reconcile` | internal/controller/firewallrule_controller.go:52-142 | adds exactly one reconcile of the state machine to the history, with anything in between; ends with an error exactly if its last event is one; without an error a new resource has its finalizer, a deletion has dropped it with the recorded rule out of both configurations, and otherwise the stored status is that of success for the generation read, with a rule that agreed with the spec during the reconcile |
| `RuleReconciler.FirewallRuleReconciler.ReconcileExternalRule` | internal/controller/firewallrule_controller.go:72-142 | success means that the stored status is that of success for the generation read, and that the rule recorded in it agreed with the spec at an instant of this reconcile |
| `RuleReconciler.FirewallRuleReconciler.ReconcileDelete` | internal/controller/firewallrule_controller.go:147-187 | without an error the finalizer is dropped and the recorded rule is gone from staged and live |
| `RuleReconciler.FirewallRuleReconciler.ResolveExternalRule` | internal/controller/firewallrule_controller.go:193-232 | a returned rule is the recorded one or the sole hit, with the state staged when read; "absent" means that the recorded rule is not staged and that nothing matches; all else leaves a failure and no write |
| `RuleReconciler.FirewallRuleReconciler.BuildOPNsenseClient` | internal/controller/firewallrule_controller.go:245-277 | a client exactly if the connection, credentials and TLS settings that the environment has in store for this call are usable, and otherwise the reason of the first check that fails |
| `Connection.FindProblem` | internal/controller/firewallrule_controller.go:245-277 | no problem exactly if everything a client needs is there, and otherwise the reason that explains what is missing |
| `Connection.ExactlyOneExplanation` | internal/controller/firewallrule_controller.go:245-277 | what is not usable has exactly one of the five reasons |
| `RuleReconciler.FirewallRuleReconciler.RecordExisting` | internal/controller/firewallrule_controller.go:132-141 | without drift, success means that the stored status is that of success with the rule found, whether it was written or was there |
| `RuleReconciler.FirewallRuleReconciler.SetReadyFailed` | internal/controller/firewallrule_controller.go:280-285 | the copy gets Ready=False with this reason, this message and its generation, and nothing else changes; the store is as it was or has exactly that status; never counts as success |
| `RuleReconciler.FirewallRuleReconciler.SetReadySuccess` | internal/controller/firewallrule_controller.go:288-296 | the copy gets uuid, sequence, generation and Ready=True in the fixed words; success exactly if the save was performed, answered and not stale, and then the store has that status |
| `RuleReconciler.FirewallRuleReconciler.SetReadyCondition` | internal/controller/firewallrule_controller.go:299-311 | the copy gets the condition and nothing else; the store is as it was or has exactly the status of the copy |
| `RuleReconciler.Client.CreateRule` | internal/opnsense/client.go:458-478 | success means that the returned uuid is staged and agrees with the spec; a refusal is told from other failures |
| `RuleReconciler.Client.UpdateRule` | internal/opnsense/client.go:434-456 | success means that the rule agrees with the spec; "not found" is returned exactly if the box answered with a failure without validations, as it does for an unknown uuid |
| `RuleReconciler.Client.DeleteRule` | internal/opnsense/client.go:392-413 | after "deleted" or "not found" the rule is not staged; anything else is a failure |
| `RuleReconciler.Client.ApplyFirewallRules` | internal/opnsense/client.go:415-432 | success means that live is now staged; the status is compared after trimming |
| `RuleReconciler.Client.GetRule` | internal/opnsense/client.go:328-367 | an answer is what is staged at that moment, "not found" means that nothing is, and the two are told from other failures |
| `RuleReconciler.Client.SearchRuleByManagedSuffix` | internal/opnsense/client.go:369-390 | lists each rule whose description matches exactly once |
| `RuleCluster.Cluster.Apply` | internal/opnsense/client.go:416-429 | the apply endpoint is one step of the state machine; an "OK" reply means that live equals staged |
| `RuleCluster.Cluster.SetRule` | internal/opnsense/client.go:435-453 | setRule is one step of the state machine; an unknown uuid, when answered, is answered with a failure without validations |
| `RuleCluster.Cluster.SearchRule` | internal/opnsense/client.go:370-382 | searchRule is one step of the state machine and returns a row for each match |
| `Replies.SelectedKey` | internal/opnsense/client.go:318-326 | the result is the one of some iteration order of the map |
| `Replies.SelectedInFinds` | internal/opnsense/client.go:318-326 | in every order the result is a selected key if there is one, and "" otherwise |
| `Replies.SelectedKeyIsOrderFreeIff` | internal/opnsense/client.go:318-326 | the result is independent of the order exactly if no two keys are selected |
| `Replies.ResultErrorIs` | internal/opnsense/client.go:576-585 | no error exactly for the expected result, a validation error exactly for "failed", another error for anything else |
| `Replies.DecodeRule` | internal/opnsense/client.go:344-366 | for every map order, decoding the reply that displays a stored rule gives that rule |
| `ValidationMessage.SortedKeys` | internal/opnsense/client.go:69-73 | whatever the iteration order, the result is the one strictly ascending listing of the keys |
| `ValidationMessage.SortAscends` | internal/opnsense/client.go:73 | sorting a listing without repeats gives a strictly ascending listing of the same keys |
| `ValidationMessage.AscendingIsUnique` | internal/opnsense/client.go:69-78 | a set of strings has only one strictly ascending listing |
| `ValidationMessage.ErrorText` | internal/opnsense/client.go:64-81 | whatever the iteration order, the text is the one that the following two rows determine for the field map |
| `ValidationMessage.MessageOfNone` | internal/opnsense/client.go:65-67 | without fields the text is "opnsense validation failed" |
| `ValidationMessage.MessageFromSmallest` | internal/opnsense/client.go:75-80 | the text is "opnsense validation failed: ", the smallest field, ": " and its error, and then nothing, or ", " and what the text for the other fields has there |
| `ValidationMessage.BeforeIff` | internal/opnsense/client.go:73 | one string comes before another exactly if it is a proper prefix, or has the smaller character where they first differ |
| `AliasSafety.ReachableInv` | internal/controller/alias_controller.go:60-168 | the alias invariant, unique names included, holds in every reachable state |
| `AliasSafety.FinalizerDropsLast` | internal/controller/alias_controller.go:82-101 | only the alias's own reconcile drops the finalizer, and then the recorded alias is in neither configuration |
| `AliasSafety.CleanupIsPermanent` | internal/controller/alias_controller.go:82-101 | once the finalizer of an alias with a recorded uuid is gone, that uuid is neither staged nor live, then and after every further run |
| `AliasRecovery.CallsRunOut` | internal/controller/alias_controller.go:60-168 | every call, whatever its outcome, decreases the measure of calls still to come |
| `AliasRecovery.ReconciledIsBigStep` | internal/controller/alias_controller.go:104-168 | the whole chain of calls of an undisturbed reconcile has exactly the effect of one big step: create, update, be refused or only look, by what the lookup finds; staged, live and status are stated in full, and everything else stays |
| `AliasRecovery.ReconciledIsRun` | internal/controller/alias_controller.go:60-168 | that reconcile is a run of the protocol in which only the resource acts and nothing fails |
| `AliasRecovery.OneReconcileSettles` | internal/controller/alias_controller.go:117-167 | from every reachable state one undisturbed reconcile settles the alias exactly if the alias it finds shows no drift or has a free name and a description that the spec overwrites |
| `AliasRecovery.ReadyIsReportedIff` | internal/controller/alias_controller.go:143-167 | from every reachable state, Ready=True is reported exactly if the box does not refuse the update, and with drift that remains exactly if the spec has no description and the drifted alias has one |
| `AliasRecovery.StuckForever` | internal/controller/alias_controller.go:143-167 | what one undisturbed reconcile cannot settle, no number of them settles: each finds the same drift again, and all report Ready=True, or none does if another alias has the name |
| `AliasRecovery.NameFollowsIff` | internal/controller/alias_controller.go:143-167 | from every reachable state, the alias ends up with the spec's name exactly if it was created, had the name, or drifted in another field as well while the name is free |
| `AliasScenarios.RenameIsFollowedIff` | internal/controller/alias_controller.go:282-287 | for every alias and every edit, a fault-free reconcile reports Ready=True for the new generation, and the box has the new name exactly if it is the old one or another compared field changed |
| `AliasScenarios.RenameIsIgnored` | internal/controller/alias_controller.go:282-287 | for every alias, a new name alone is ignored: the resource settles with Ready=True under the old name |
| `AliasScenarios.RemovedDescriptionStays` | internal/opnsense/client.go:484-505 | for every alias with a description, removing it from the spec leaves it on the box however often the alias is reconciled, with Ready=True each time |
| `AliasReady.ReadyIsSound` | internal/controller/alias_controller.go:143-167 | in every run, each time a save of Ready=True takes effect it is for the generation of the stored spec, and at some instant of that reconcile the recorded alias had its flag, type and entries; its description too, exactly if the spec has one or the alias had none |
| `AliasReady.OnlySavesMakeReady` | internal/controller/alias_controller.go:256-278 | Ready=True comes with a new status only by such a save |
| `AliasReady.ShortcutIsExact` | internal/controller/alias_controller.go:156-165 | the status write is skipped exactly when success would write the status already read, and skipping it leaves the store as the write would have |
| `AliasReady.FailureIsStored` | internal/controller/alias_controller.go:266-278 | a save of a failure that takes effect stores Ready=False with exactly its reason, its message and the generation read, and keeps uuid and observedGeneration |
| `AliasReady.SuccessIsStored` | internal/controller/alias_controller.go:256-278 | a save of success that takes effect stores uuid and generation, and Ready=True with the fixed reason and message |
| `AliasReady.FinalizerIsAdded` | internal/controller/alias_controller.go:104-110 | a write of the finalizer that takes effect adds exactly "firewall.opnsense.io/finalizer" and changes nothing else |
| `AliasReady.FinalizerIsRemoved` | internal/controller/alias_controller.go:97-101 | its removal drops exactly that: the resource is gone if it had no other finalizer, and keeps the others otherwise |
| `AliasRecovery.FinalizerFirst` | internal/controller/alias_controller.go:104-110 | the first reconcile of a new resource adds exactly the finalizer and does nothing else |
| `AliasConvergence.TwoReconcilesSettle` | internal/controller/alias_controller.go:104-168 | from every state that a run with owned names can reach, two fault-free reconciles settle an undeleted alias that can be settled, however other reconciles, users and administrators interleave and fail |
| `AliasConvergence.SettledForGood` | internal/controller/alias_controller.go:156-165 | a settled alias stays settled over every such further run, and its reconciles write nothing |
| `AliasRecovery.DeletionRemovesAlias` | internal/controller/alias_controller.go:82-101 | an undisturbed deletion takes the recorded alias out of staged and live and drops the finalizer |
| `AliasScenarios.SharedNameIff` | internal/controller/alias_controller.go:186-199 | two resources that are new to an empty box record one alias exactly if they ask for the same name; deleting the second then deletes the alias of the first, which still reports Ready=True |
| `AliasScenarios.RenamedAliasIsShared` | internal/controller/alias_controller.go:186-199 | for every alias, a resource whose new name was ignored shares its alias with the next resource that asks for the old name, both with Ready=True and different names |
| `AliasRecovery.RecordsIff` | internal/controller/alias_controller.go:174-200 | from every reachable state, an undisturbed reconcile ends up recording a given staged alias exactly if it is the recorded one, or the recorded one is not staged and the alias has, on the box, the name asked for; other resources notice nothing |
| `AliasRecovery.DeletionHitsSharerIff` | internal/controller/alias_controller.go:82-101 | from every reachable state, an undisturbed deletion removes the staged alias that another resource has recorded exactly if the deleted one had recorded it too, and the other goes on reporting what it did |
| `AliasOwnership.AliasesAreNotShared` | internal/controller/alias_controller.go:174-200 | if over the whole run every alias name belongs to one resource and no alias is renamed to such a name by others, two resources never record the same alias |
| `AliasOwnership.OnlyOwnersWrite` | internal/controller/alias_controller.go:117-168 | under the same condition a reconcile creates, updates and deletes only its own aliases, and gives them only names it owns |
| `AliasRecovery.DeletionLeavesNothingIff` | internal/controller/alias_controller.go:73-101 | an undisturbed deletion drops the finalizer; no staged alias of the name is left exactly if only the recorded one had it, and no live one either exactly if moreover an alias was recorded or no live one had the name |
| `AliasScenarios.DeletionLeavesAlias` | internal/controller/alias_controller.go:73-81 | for every alias, a lost create reply and a deletion leave the alias behind |
| `AliasLive.LiveFollowsStaged` | internal/controller/alias_controller.go:82-155 | in every run where no write's reply is lost and no reconfigure is missed, live equals staged whenever no reconcile is between a write and its reconfigure |
| `AliasLive.AliasIsLiveIff` | internal/controller/alias_controller.go:124-167 | after an undisturbed reconcile in any reachable state the alias it ends up with is live exactly if a write was due or it was live already |
| `AliasRecovery.LostCreationIsAdopted` | internal/controller/alias_controller.go:174-200 | from every reachable state an unrecorded alias of the spec's name is adopted: none is created, the status is that of success with it, and it settles exactly if an old description does not stay |
| `AliasRecovery.LostReplyIsRecovered` | internal/controller/alias_controller.go:124-141 | after a lost create reply and any outcome of the failure's save, the next reconcile records the alias created unnoticed and settles |
| `AliasRecovery.SettledIsFixpoint` | internal/controller/alias_controller.go:156-165 | a settled alias's next reconcile writes nothing anywhere |
| `AliasSafety.NameLookupIsExact` | internal/opnsense/client.go:104-126 | the lookup finds an alias of that name exactly if there is one |
| `AliasRecovery.NoDriftByNameMeansEqual` | internal/controller/alias_controller.go:282-298 | an alias found by name without drift is the desired alias, name included |
| `AliasSpec.SplitUndoesJoin` | internal/controller/alias_controller.go:289-298 | entry lists without newlines are recoverable from the joined content |
| `AliasSpec.DriftTestIsExact` | internal/controller/alias_controller.go:282-287 | no drift means exactly that enabled, type, description and the entries one by one agree |
| `AliasSpec.NoDriftMeansEqualUpToName` | internal/controller/alias_controller.go:282-298 | the drift test compares everything but the name |
| `AliasSpec.UpdateConvergesIff` | internal/opnsense/client.go:484-505 | an update removes all drift exactly if the spec has a description or the stored alias has none |
| `AliasSpec.PayloadFields` | internal/opnsense/client.go:492-505 | every field sent is the one of the spec: the flag as "1" or "0", the entries one a line, and an empty description not at all |
| `AliasSpec.CreateConverges` | internal/opnsense/client.go:196-216 | a created alias is read back as exactly the desired one |
| `AliasSpec.NoDriftIff` | internal/controller/alias_controller.go:282-287 | no drift is what every write achieves, plus no stored description where the spec has none |
| `AliasReconciler.AliasReconciler.Reconcile` | internal/controller/alias_controller.go:60-168 | adds exactly one reconcile of the state machine to the history; ends with an error exactly if its last event is one; without an error a new resource has its finalizer, a deletion has dropped it with the recorded alias out of both configurations, and otherwise the stored status is that of success for the generation read, with an alias that during the reconcile had the flag, type and entries of the spec, and its description unless that is empty |
| `AliasReconciler.AliasReconciler.ReconcileDelete` | internal/controller/alias_controller.go:68-102 | without an error the finalizer is dropped and the recorded alias is gone from staged and live |
| `AliasReconciler.AliasReconciler.ResolveExternalAlias` | internal/controller/alias_controller.go:174-200 | a returned alias is the recorded one or the one the lookup of the name found, with the state staged when read; "absent" means that the recorded one is not staged and no alias has the name; all else leaves a failure and no write |
| `AliasReconciler.AliasReconciler.SetReadySuccess` | internal/controller/alias_controller.go:256-263 | the copy gets uuid, generation and Ready=True; success exactly if the save was performed, answered and not stale, and then the store has that status |
| `AliasReconciler.AliasReconciler.SetReadyFailed` | internal/controller/alias_controller.go:248-253 | the copy gets Ready=False with this reason, this message and its generation, and nothing else changes; the store is as it was or has exactly that status; never counts as success |
| `AliasReconciler.Client.GetAliasUUIDByName` | internal/opnsense/client.go:104-126 | the uuid of the alias of that name, or "not found" if there is none |
| `AliasReconciler.Client.GetAlias` | internal/opnsense/client.go:128-194 | an answer is what is staged at that moment and has a name and a type; "not found" means that nothing is staged |
| `AliasReconciler.Client.CreateAlias` | internal/opnsense/client.go:196-216 | success means that the returned uuid is staged and is read as exactly the alias sent; a refusal is told from other failures |
| `AliasReconciler.Client.UpdateAlias` | internal/opnsense/client.go:218-235 | success means that the alias has the flag, name, type and entries sent, and the description unless it is empty; "not found" is returned exactly if the box answered with a failure without validations |
| `AliasReconciler.Client.DeleteAlias` | internal/opnsense/client.go:237-252 | after "deleted" or "not found" the alias is not staged; anything else is a failure |
| `AliasReconciler.Client.ReconfigureAliases` | internal/opnsense/client.go:270-287 | success means that live is now staged |
| `Text.TrimSpaceCuts` | internal/controller/firewallrule_controller.go:317 | trimming removes spaces at both ends, only there, and all of them |
| `Text.ContainsSplits` | internal/opnsense/client.go:369-390 | a match is a real occurrence of the phrase |
| `Text.MatchesInside` | internal/controller/firewallrule_controller.go:212-217 | every occurrence of the phrase is a match |
| `Text.MatchesIff` | internal/controller/firewallrule_controller.go:212-217 | the search matches exactly if the phrase occurs in the description up to the case of ASCII letters |
| `Text.DecimalRoundTrip` | internal/controller/firewallrule_controller.go:319-322 | the text of a sequence is never empty and denotes the number |
| `Text.DecimalIsCanonical` | internal/controller/firewallrule_controller.go:319-322 | the text has no leading zeros, and a minus sign exactly for a negative number |
| `Text.DecimalIsTheNumeral` | internal/controller/firewallrule_controller.go:319-322 | a canonical numeral denotes a number exactly if it is the text of that number |

## Left out

- HTTP, authentication, URL building and JSON text (`doJSON`, `NewClient`): replies are decoded values, malformed ones among them, or failures.
- The steps inside `buildHTTPClient` (certificates, TLS): one yes or no of the environment. All lookups for a client are one step of the protocol.
- The OPNsenseConnection controller and `CheckConnectivity`: a short sequence of checks with no protocol.
- `cmd/main.go`, `SetupWithManager`, logging, metrics, generated code, charts and RBAC: wiring.
- Caches, backoff and the work queue of controller-runtime: only serial reconciles and conflicts of stale writes remain.
- Several boxes, or a `connectionRef` that changes: the world holds one box.
- Condition timestamps, and error texts other than that of a validation error: a text is the environment's choice.
- `client.Update` writes the finalizers of the copy; the rest of the copy is as it was read, so nothing else could change.
- `sort.Strings` is a function with the specification "the ascending listing"; Go's in-place algorithm is not part of this model.
- The 255-character limit on descriptions: a description that the box refuses is a refused write. Letters outside ASCII are matched without case folding.
- Interfaces given as comma-separated lists: several options would be selected, and `selectedKey` would return any of them.
- Newlines inside alias entries: the joined content then has more lines than the list has entries.
- Packet matching and rule priority: the operator does not implement them.
- Settling when the box refuses the spec: a refusal is recorded as a failure, and the safety theorems still hold.
- RuleRecovery.OneReconcileSettles: undisturbed by others; the interleaved form, with names kept apart, is RuleConvergence.TwoReconcilesSettle.
- AliasRecovery.OneReconcileSettles: undisturbed by others; the interleaved form is AliasConvergence.TwoReconcilesSettle.

Nothing was executed: the results are about the model, and rest on the assumptions listed above.
