# A verified model of Nuno's reconcile loop

Nuno gives people a storage quota on several services. It decides a ceiling per person and service from
policy, links people to accounts, plans the difference between what is stored and what is desired, and
writes that difference under guardrails. This project models that loop in Dafny and proves what the loop
is for: that it converges, that it never writes where it must not, that linking is safe and does not
depend on any iteration order, and that the numbers it reports add up.

`dafny verify dfyconfig.toml` checks everything.

## How it is laid out

| file | what it holds |
|---|---|
| `Quotas`, `Text`, `Sums`, `Sorting`, `Model` | the tagged quota, strings, sums, sorting, people, accounts, links |
| `Sizes`, `SizeText`, `Adapters` | what Nextcloud stores when asked for a number of bytes, as a number and as text |
| `Tiers`, `Resolving` | tiers, who gets which ceiling, the effective budget |
| `Plans`, `Planning`, `Adopting` | classification and the plan; adopting the ceilings that are there, and the plan after it |
| `Store`, `Notices` | the stored state; which refused changes an operator hears about |
| `Applying` | the apply run: engine, services, pacers, report |
| `Guardrails`, `Auditing`, `Converging`, `Rounds`, `LimitExample` | what holds of every run; report, calls and audit log; plan-apply-plan; many rounds; one household at the write limit of Nextcloud |
| `Linking`, `LinkPass`, `LinkProofs`, `Persisting`, `Takeovers` | linking: specification, the pass itself, its theorems; the whole cycle of loading, linking and storing; when storing is refused, and the next cycle |
| `Limits` | the token bucket per credential |
| `Usage`, `Totals` | usage per person and per service |

Code that updates state in place is a class whose methods are proved against a specification function
(`Storage.Store`, `Applying.Engine`, `LinkPass.ProviderState`, `Limits.Limiter`); loops in the program are
loops here. The theorems are about the specification functions, and through the methods' contracts about
the loops.

The apply run is modelled twice. For safety, the services (`Applying.Services`) answer anything: each
answer is an arbitrary value, and a run is the function of those answers that `Engine.Apply` is proved to
compute. For convergence, the answers are restricted to a faithful service: reads tell the truth or fail,
writes may be refused or throttled, a read-back may fail, and a write that is accepted keeps the normalised
quota (`Converging.Faithful`). Such answers exist for every observed world (`Rounds.FaithfulRunExists`). What
they say is asked only of calls that a run makes, and so is the absence of faults: it is a statement about the
recorded calls (`Rounds.Faultless`, `Rounds.Seamless`).

Go iterates maps in any order. The linking pass takes the next key with `LinkPass.Next`, about which
nothing is known except that it is a key, and still ends in one state given by `Linking.AfterPass`.

## What the model assumes

- Byte counts are unbounded integers. Where the program multiplies or adds them it is assumed that the
  result fits a signed 64-bit integer.
- Sizes are whole tenths of a unit, rounded half away from zero (section 4.3.1 of IEEE 754-2008), in place
  of a float64. Dividing d by ten and multiplying by ten again gives d exactly in doubles, because
  10 = 8 + 2, so no tenth is lost between two roundings. From one petabyte up a float64 product can be off
  by one part in 2^53; `Sizes.Basin` shows that such an error, and any other of up to 0.494 of a tenth, is
  stored as the same value (one whole unit is the exception: it reaches down only 1/2048 of a tenth).
- Tokens of the rate limiter are reals, and time is a whole number of nanoseconds.
- Trimming and case folding are ASCII.
- Clocks are arbitrary integers: nothing is assumed about them unless a lemma says so.
- Sorting is a sorted permutation. The order of ties is not relied on anywhere.

## Where the code and its documentation differ

- REQUIREMENTS.md (FR-32) and ARCHITECTURE.md (line 271) say that the plan after a run is empty, given consent
  or no risky changes. `Converging.PlanApplyPlan` gives the plan after a run for every pattern of faults.
  `LimitExample.LimitLeavesChanges` is a run on a Nextcloud without faults and with safe changes only that leaves
  some for any household of more than 45, because the write limit of 50 is reached. `Rounds.SecondPlanIsEmpty` says exactly when a run without faults
  leaves nothing: on every provider nothing was wanted, or it may be written to, every change there is allowed
  and its account writable, and they are within the allowance.
- README.md of the repository says that a quota is never set to or below usage without consent. The class
  of a change also lets an account pass that the service calls never used (`internal/core/plan.go:169-195`).
  `Plans.SafeExactly` gives the exact condition; with the fact that such an account has no usage
  (`Adapters.DecodedIsSound`) the promise holds for every run (`Guardrails.UnconsentedWritesAreAboveUsage`).
- README.md (line 61) and ADR-0012 say that adding somebody to a stricter tier does not restrict them. It can,
  for somebody on the default tier (`Resolving.JoiningFirstGroupCanLower`). `Resolving.JoiningLowersExactly` says
  exactly when a ceiling is kept: with an override, a mapped group already, a group that is not mapped, no
  default tier, or a default tier that offers nothing there or no more than the tier of the group.
- The comment on `notifyOutcome` says that a refused change is reported on its first appearance. Two look-ups at
  one instant report it twice (`Notices.RepeatsAtOneInstant`); `Notices.NewExactly` says exactly when a look-up
  counts as new. Over a whole call `Notices.ReportsExactly` says exactly when the appearances are
  reported, each once. And two refused changes can share one key, which keeps the second silent
  (`Notices.KeysCollide`); `Notices.SameKeyExactly` says exactly when, and without a slash in provider names it never happens
  (`Notices.KeyTellsApart`).
- A link that the subject join made can turn stale on the next pass (`LinkProofs.JoinedLinkTurnsStale`), because
  revalidation compares the configured match key. `LinkProofs.NewLinkStaysExactly` says when a new link stays.
- A pass can give the account of somebody who is gone to the one person who matches it, and then fails to
  store that link, since the old one still holds the account (`Persisting.TakeoverIsRefused`).
  `Takeovers.RefusedExactly` says exactly when, from what is loaded, and `Persisting.LinkStored` what is stored then.
- REQUIREMENTS.md (FR-70) and the comment on `Adopt` say that the plan after adopting is empty by construction.
  It is not where a ceiling was read and the usage was not (`Adopting.AdoptLeavesChange`).
  `Adopting.AdoptedPlanIsEmptyExactly` says exactly when it is.

## Model

| member | source | states |
|---|---|---|
| `Quotas.BytesQuota` | internal/core/quota.go:52-57 | a byte quota exists exactly for a count that is not negative, and carries that count |
| `Text.ReadPrinted` | internal/providers/nextcloud/quota.go:72-75 | a printed number is all digits and reads back as itself |
| `Sizes.HumanFileSize` | internal/providers/nextcloud/quota.go:37-52 | the loop over units computes the cascade of roundings: whole kilobytes first, then one decimal per unit, stopping below 1024 |
| `Sizes.CascadeReaches` | internal/providers/nextcloud/quota.go:37-52 | the cascade reaches t tenths in unit k exactly from one least byte count on, so the roundings compose into a threshold |
| `Sizes.HumanSizeExactly` | internal/providers/nextcloud/quota.go:37-52 | exactly which byte counts are stored as t tenths of a megabyte or a larger unit, carries at 1024 included |
| `Sizes.KilobytesExactly` | internal/providers/nextcloud/quota.go:37-52 | exactly which byte counts are stored as m whole kilobytes |
| `Sizes.Basin` | internal/providers/nextcloud/quota.go:37-67 | every count within 0.494 of a tenth around t tenths of a unit is stored as exactly t tenths of that unit, except that one whole unit reaches down only 1/2048 of a tenth |
| `Sizes.StoredNearby` | internal/providers/nextcloud/quota.go:37-52 | conversely, a count stored as t tenths lies within 1035/2048 of a tenth of them |
| `Sizes.RoundedTenth` | internal/providers/nextcloud/quota.go:60-67 | the bytes of t tenths are off by at most half a byte, and exact for whole units |
| `Sizes.NormalizeIdempotent` | internal/providers/nextcloud/quota.go:78-81 | normalising a normalised count changes nothing, for every integer, and the stored size stays the same |
| `Sizes.StoredRange` | internal/providers/nextcloud/quota.go:78-81 | a stored size lies between one of its unit and one of the next; below one kilobyte it is the count itself |
| `Sizes.HumanSizeMonotone` | internal/providers/nextcloud/quota.go:37-52 | a larger count never gets a smaller unit, nor fewer tenths of the same one |
| `Sizes.NormalizeMonotone` | internal/providers/nextcloud/quota.go:78-81 | asking for more never stores less |
| `Sizes.NormalizeClose` | internal/providers/nextcloud/quota.go:78-81 | within 512 bytes below one mebibyte, within one part in twenty from there up |
| `SizeText.FindUnit` | internal/providers/nextcloud/quota.go:60-67 | a unit is found exactly when its name is one of the six |
| `SizeText.ReadTenths` | internal/providers/nextcloud/quota.go:72-75 | a printed number of tenths starts and ends with a digit and reads back as the same number |
| `SizeText.ParseOfTenths` | internal/providers/nextcloud/quota.go:136-158 | parsing any printed size, in any unit, gives the bytes of that size |
| `SizeText.ParseOfPrinted` | internal/providers/nextcloud/quota.go:72-81 | printer and parser agree with the predictor: parsing the text stored for n gives the normalised n, for every n |
| `Adapters.NormalizeQuotaStable` | internal/providers/nextcloud/nextcloud.go:175-195 | normalising a quota is idempotent for both adapters, keeps valid quotas valid and known, and neither adds nor removes unlimited |
| `Adapters.DecodedIsSound` | internal/providers/nextcloud/nextcloud.go:299-336 | whatever is decoded, an account marked never used has a usage of exactly zero, usage is never unlimited and no count is negative |
| `Adapters.DecodeOfStored` | internal/providers/nextcloud/quota.go:98-121 | decoding the text the instance stores for n bytes gives exactly what NormalizeQuota promised |
| `Tiers.ValueError` | internal/core/policy.go:62-105 | the range check refuses exactly the allocations out of range, with a reason that is true of every tier holding them |
| `Tiers.CheckAllocations` | internal/core/policy.go:62-105 | the loop of Validate passes only allocations in range on distinct providers, and leaves their totals behind; a refusal is justified |
| `Tiers.Validate` | internal/core/policy.go:62-105 | a tier is refused exactly when it is not valid, and the reason given is true of it |
| `Tiers.Overcommitted` | internal/core/policy.go:110-118 | true exactly when the percentages add up to more than 100 |
| `Tiers.PercentOf` | internal/core/policy.go:145-166 | the loop computes the floored share of the budget less all absolute allocations |
| `Tiers.OfferExactly` | internal/core/policy.go:122-141 | the first allocation for the provider with a known mode decides, by what it is worth; without one there is no offer |
| `Tiers.OffersWithinWorth` | internal/core/policy.go:122-141 | adding up a tier provider by provider counts no allocation twice, and misses none when every allocated provider is listed |
| `Tiers.WorthBounds` | internal/core/policy.go:145-166 | flooring takes less than one byte per percentage, for any allocations |
| `Tiers.TierConserves` | internal/core/policy.go:62-166 | a valid tier that is not overcommitted offers at most its budget over any providers; with percentages totalling 100 it withholds less than one byte per percentage |
| `Sorting.Sort` | internal/core/plan.go:116-167 | a sorted permutation |
| `Sorting.SortedUnique` | internal/core/resolve.go:166-198 | where only equal elements tie, the sorted permutation is unique |
| `Resolving.CandidateTiers` | internal/core/resolve.go:166-198 | the loop over groups computes the candidates: override, else mapped groups sorted by uuid, else the default |
| `Resolving.Entitled` | internal/core/resolve.go:166-198 | who is a candidate at all, without any order: precedence of override, mapped groups and default |
| `Resolving.Resolve` | internal/core/resolve.go:81-142 | the loop computes the first of the most generous offers |
| `Resolving.PickWins` | internal/core/resolve.go:81-142 | the pick is made by some candidate, nobody offers more, and nobody before it as much; without a pick nobody offers |
| `Resolving.ResolvedIsMaximum` | internal/core/resolve.go:81-142 | without a provider override a ceiling is present exactly when some candidate allocates; it is the greatest offer, unlimited on top; among ties the smallest group uuid is recorded |
| `Resolving.GroupOrderIrrelevant` | internal/core/resolve.go:81-142 | the order in which groups are listed, and how often, changes nothing about a resolution |
| `Resolving.JoiningLowersExactly` | internal/core/resolve.go:81-198 | joining a group keeps a ceiling exactly when an override decides, a mapped group is there already, the group is not mapped, there is no default tier, or that tier offers nothing or no more than the tier of the group |
| `Resolving.JoiningNeverLowers` | internal/core/resolve.go:81-142 | the part of it about whoever is in a mapped group or has an override: joining another group never loses a ceiling |
| `Resolving.JoiningFirstGroupCanLower` | internal/core/resolve.go:166-198 | a concrete person on the default tier loses by joining a first group |
| `Resolving.EffectiveBudget` | internal/core/resolve.go:221-244 | unlimited if any ceiling is, else the sum of those present, unknown without any |
| `Resolving.AloneGetsTheOffer` | internal/core/resolve.go:81-142 | a person on one tier alone gets exactly what that tier offers |
| `Resolving.EffectiveBudgetConserves` | internal/core/resolve.go:221-244 | the effective budget of a person on one balanced tier without unlimited allocations is at most the tier's budget, and with percentages totalling 100 short of it by less than one byte per percentage |
| `Plans.SafeExactly` | internal/core/plan.go:169-195 | a pair is safe exactly when its state is known and the target is unlimited, above usage, or positive for an account called never used; and above usage when never used implies no usage |
| `Plans.BuildPlan` | internal/core/plan.go:116-167 | every difference exactly once, sorted by user and then provider, with the number of pairs nothing is allocated for |
| `Plans.Applicable` | internal/core/plan.go:97-111 | the loop keeps the allowed changes, in plan order |
| `Plans.ApplicableExactly` | internal/core/plan.go:97-111 | each allowed change is applicable as often as planned, and no other change at all |
| `Planning.PairOf` | internal/reconcile/plan.go:43-149 | a link stands for at most one pair, about its own account |
| `Planning.PairUp` | internal/reconcile/plan.go:43-149 | the loop body joins a link with its provider, person, stored account and resolved ceiling, normalised before comparison, or passes over it |
| `Planning.MakePlan` | internal/reconcile/plan.go:43-149 | the plan holds every difference wanted for the stored links exactly once, sorted, and counts the pairs considered |
| `Adopting.Adopt` | internal/reconcile/plan.go:210-265 | the loop adopts every ceiling that was read for an eligible link, skips the others, and stops exactly at one the store does not accept |
| `Adopting.AdoptedPlanIsEmptyExactly` | internal/reconcile/plan.go:205-265 | the first plan after adopting is empty exactly when every eligible link has a read ceiling that the service keeps, with trusted state and known usage, or no read ceiling and nothing asked for by policy |
| `Adopting.AdoptLeavesChange` | internal/reconcile/plan.go:205-265 | a concrete person whose ceiling is adopted and whose first plan still holds a change |
| `Storage.Store.UpdateObservedAccount` | internal/store/accounts.go:278-304 | a report the store accepts replaces the row and keeps its owner; any other leaves the accounts alone |
| `Storage.Store.MarkAccountUnobserved` | internal/store/accounts.go:310-315 | only the trust in one row changes |
| `Storage.Store.SetAccountOwner` | internal/store/accounts.go:155-164 | only the owner of one row changes |
| `Storage.Store.UpsertLink` | internal/store/accounts.go:169-184 | refused, with nothing changed, exactly when somebody else holds the account; else it replaces the person's link on that provider; both uniqueness rules are kept |
| `Storage.Store.ReplaceLinkIssues` | internal/store/accounts.go:224-244 | the issues of one provider become those given, and no others change |
| `Storage.Store.SeenGuardedChange` | internal/store/audit.go:102-121 | the row gets this instant as last seen, the first sighting is kept, and the answer is whether the two coincide |
| `Storage.Store.ForgetGuardedChanges` | internal/store/audit.go:125-140 | exactly the named keys are kept |
| `Notices.NewExactly` | internal/store/audit.go:102-121 | a look-up counts as new exactly when the key is absent or was put there at this very instant |
| `Notices.SameKeyExactly` | internal/reconcile/apply.go:260-271 | two changes share a key exactly when both quotas agree and so does the text made of user and provider |
| `Notices.KeyTellsApart` | internal/reconcile/apply.go:260-271 | where provider names hold no slash, a key tells user, provider and both quotas apart |
| `Notices.KeysCollide` | internal/reconcile/apply.go:260-271 | two shrinks that a plan can hold, for different people, that share one key: both are refused and only the first is reported |
| `Notices.TimesReported` | internal/store/audit.go:102-121 | whatever the clock does, a key is called new once for every look-up at the instant since when it is known |
| `Notices.ReportsExactly` | internal/reconcile/apply.go:239-302 | exactly when call i reports the keys guarded at i and not at i-1, each once: no key is looked up again at the instant since when it is known |
| `Notices.LookUpNews` | internal/reconcile/apply.go:260-289 | with a clock that moves on, the keys called new are those the table did not hold, each once |
| `Notices.TableAfterKeys` | internal/store/audit.go:125-140 | after any run of calls the table holds exactly the keys of the last one |
| `Notices.ReportsAppearances` | internal/reconcile/apply.go:239-302 | over any run of calls with an increasing clock, call i reports exactly the keys guarded at i and not at i-1, each once |
| `Notices.RepeatsAtOneInstant` | internal/store/audit.go:102-121 | with a clock that stands still a persistent key is reported again |
| `Applying.Engine.RefreshAfterWrite` | internal/reconcile/apply.go:406-430 | after a write the row holds what was read back, or is marked as unknown |
| `Applying.Engine.WriteChange` | internal/reconcile/apply.go:179-224 | pacing, writing and reading back do what the specified step does, for any answers |
| `Applying.Engine.ApplyChange` | internal/reconcile/apply.go:133-224 | the loop body does what the specified step does, for any answers: report, stops, pacers, stored accounts, calls and audit log |
| `Applying.Engine.RefuseByClass` | internal/reconcile/apply.go:114-128 | what the classes refuse is counted and recorded before anything is attempted |
| `Applying.Engine.ApplyAll` | internal/reconcile/apply.go:130-225 | the loop is the fold of the step over the applicable changes |
| `Applying.Engine.LookUpGuarded` | internal/reconcile/apply.go:260-289 | every refused change is looked up in plan order, and the new ones are collected |
| `Applying.Engine.NotifyOutcome` | internal/reconcile/apply.go:239-302 | a failed run and the new refused changes are sent, keys that are gone are forgotten, and a dry run touches nothing |
| `Applying.Engine.Apply` | internal/reconcile/apply.go:87-231 | whatever the services answer, the run is the function of those answers that the theorems below are about |
| `Guardrails.RecheckGuards` | internal/reconcile/apply.go:323-349 | a change that passes the re-check with its class unchanged meets the guard of its write |
| `Guardrails.WritesAreGuarded` | internal/reconcile/apply.go:133-202 | for any plan and answers, every write directly follows a read of that account that was writable with known quota and usage; nothing is written to a degraded or unconfigured provider or in a dry run; from every point of the run on, no call at all concerns a provider stopped there, by a failed call or by the run's own write limit |
| `Guardrails.UnconsentedWritesAreAboveUsage` | internal/reconcile/apply.go:133-202 | with accounts as the adapters decode them, every write without consent is unlimited or strictly above the usage just read |
| `Guardrails.EveryChangeIsAccountedFor` | internal/reconcile/apply.go:64-231 | every planned change ends in exactly one count; as many providers stop as changes fail or trip a limit; the report is clean exactly when every change was applied or already in place |
| `Guardrails.WritesAreBounded` | internal/reconcile/apply.go:366-390 | a provider with limit L is written to at most L - L/10 times in a run |
| `Auditing.CountByClass` | internal/core/plan.go:86-92 | every class that occurs, with how often it does, and no other |
| `Auditing.StepReflects` | internal/reconcile/apply.go:133-224 | one handled change moves the report, the calls and the audit log together |
| `Auditing.ReportTellsWhatHappened` | internal/reconcile/apply.go:114-227 | applied and failed are what the calls say; the audit log has as many applied, failed, refused and skipped entries as the report counts; the refusals by class are exactly the plan's |
| `Auditing.RereadsDecide` | internal/reconcile/apply.go:155-177 | the re-reads of a run belong one by one to changes it was given; the changes found in place are the re-reads that show the target, and the moved ones those that show another class |
| `Converging.StepEffect` | internal/reconcile/apply.go:133-224 | a step writes and refreshes one row exactly when the write lands, and leaves the stored accounts alone otherwise |
| `Converging.RunTracks` | internal/reconcile/apply.go:133-225 | after a faithful run the accounts written hold their target on the service, and in the store too unless the read-back failed, which leaves the old row marked as unknown; all others are as before |
| `Converging.DifferenceMirrored` | internal/reconcile/plan.go:122-147 | a planned difference whose state is trusted mirrors the service and asks for a value the service keeps |
| `Converging.PlanApplyPlan` | internal/reconcile/apply.go:87-231 | on a faithful service the second plan is the first without exactly the changes written and read back, and with those written and not read back as changes in unknown state, whatever reads failed, writes were refused or limits were reached |
| `Rounds.FaultlessRun` | internal/reconcile/apply.go:133-225 | a provider that meets no fault has its changes written up to its allowance, whatever happens to the others |
| `Rounds.LeftOver` | internal/reconcile/apply.go:87-231 | after any faithful run as many changes are wanted on a provider as were not written, apart from unknown states after failed read-backs |
| `Rounds.OneRound` | internal/reconcile/apply.go:360-390 | after a run without faults exactly the changes beyond the allowance are wanted again, apart from unknown states after failed read-backs |
| `Rounds.WrittenMeans` | internal/reconcile/apply.go:141-202 | an account that a faithful run wrote to was writable from the start, on a provider a run may write to |
| `Rounds.EmptiesExactly` | internal/reconcile/apply.go:87-231 | a run without faults on a provider leaves nothing to do there exactly when nothing was wanted, or the provider may be written to, every change is allowed and its account writable, and they are within the allowance |
| `Rounds.SecondPlanIsEmpty` | internal/core/plan.go:112-167 | after a run without faults the second plan is empty exactly when that holds for every provider |
| `LimitExample.LimitLeavesChanges` | internal/providers/nextcloud/nextcloud.go:472-474 | a household of n on a Nextcloud and a run with consent, safe changes only and no fault: the second plan is empty exactly up to n = 45 |
| `Rounds.FaithfulRunExists` | internal/reconcile/apply.go:87-231 | every observed world has a faithful run that meets no fault |
| `Rounds.RoundExists` | internal/reconcile/apply.go:87-231 | from services that hold acceptable accounts there is a round of observe, plan and apply, to services that do |
| `Rounds.RoundsExist` | internal/reconcile/apply.go:87-231 | so there are chains of any number of rounds |
| `Rounds.RoundsEmptyThePlan` | internal/reconcile/apply.go:184-197 | from m allowed changes, k rounds of observe, plan and apply leave max(0, m - k(L - L/10)) |
| `LinkPass.ProviderState.constructor` | internal/reconcile/link.go:97-115 | a provider is loaded with its accounts indexed and its own links, and nothing decided |
| `LinkPass.ProviderState.RevalidateLink` | internal/reconcile/link.go:129-182 | a link that holds gives its account an owner; any other is excluded and reported |
| `LinkPass.ProviderState.Revalidate` | internal/reconcile/link.go:123-183 | in whatever order links are visited, the owners are the inverse of the links that hold, and the issues are the same set |
| `LinkPass.ProviderState.Adopt` | internal/reconcile/link.go:295-306 | adopting adds one link, one owner and one new link, and keeps the invariant: owners inverse to live links, old links unchanged |
| `LinkPass.ProviderState.MatchValue` | internal/reconcile/link.go:221-240 | one to one adopts, anything else with an account reports every person |
| `LinkPass.ProviderState.MatchDirect` | internal/reconcile/link.go:188-241 | in whatever order match values are visited, the links, owners and issues are those of the order-free specification |
| `LinkPass.ProviderState.JoinAccount` | internal/reconcile/link.go:266-291 | a free account with an agreed subject goes to that person, or is reported when the person has a link |
| `LinkPass.ProviderState.JoinSubjects` | internal/reconcile/link.go:265-292 | the loop joins account after account |
| `LinkPass.ProviderState.CollectIssues` | internal/reconcile/link.go:310-343 | exactly the people left out and the free accounts are reported |
| `LinkPass.TallyAgrees` | internal/reconcile/link.go:247-263 | which claim on a subject came first does not matter: what is not conflicting is what all claims agree on |
| `LinkPass.GatherSubjects` | internal/reconcile/link.go:247-263 | in whatever order owners are visited, the subjects and conflicts amount to the same map |
| `LinkPass.MatchBySubject` | internal/reconcile/link.go:247-293 | the join over all providers ends as the specification says, provider by provider |
| `LinkPass.LinkAll` | internal/reconcile/link.go:19-58 | a whole pass over the active people ends, on every provider, in the one state of the specification, which knows no iteration order |
| `LinkProofs.DirectPicksDiffer` | internal/reconcile/link.go:221-240 | two people who match directly get different accounts |
| `LinkProofs.PassSound` | internal/reconcile/link.go:123-306 | no account has two live owners, every live link is to an observed writable account of an active person, and no old link is changed or dropped |
| `LinkProofs.NewLinksAreSafe` | internal/reconcile/link.go:188-306 | two new links never share an account, and one names an account linked before only if this pass found that link dangling |
| `LinkProofs.ProviderOrderIrrelevant` | internal/reconcile/link.go:247-293 | where a provider ends does not depend on the order of the providers, conflicting subjects included |
| `LinkProofs.PassCovers` | internal/reconcile/link.go:123-343 | every active person owns one observed writable account or is named by an issue; every writable account is owned or reported unmanaged, never both |
| `LinkProofs.JoinSettles` | internal/reconcile/link.go:247-293 | repeating the subject join, with the claims it left behind, adopts nothing more |
| `LinkProofs.SubjectsSettle` | internal/reconcile/link.go:247-263 | the join changes nothing about who a subject is |
| `LinkProofs.SecondPassChangesNothing` | internal/reconcile/link.go:123-306 | where no link came from the subject join, a second pass keeps every link, adopts nothing and excludes the same people |
| `LinkProofs.NewLinkStaysExactly` | internal/reconcile/link.go:160-179 | a new link survives the next pass exactly when the person has nothing to match on or matches the account |
| `LinkProofs.JoinedLinkTurnsStale` | internal/reconcile/link.go:160-179 | a concrete link that the subject join makes and the next pass finds stale |
| `Persisting.LoadedIsSound` | internal/reconcile/link.go:73-118 | what is loaded from a store that keeps its two rules has no account linked to two people and every link under its person |
| `Persisting.Load` | internal/reconcile/link.go:73-118 | every provider is loaded with its accounts and its own links, and nothing decided |
| `Persisting.PersistLinks` | internal/reconcile/link.go:354-359 | new links are stored in order until one is refused; all are stored exactly when none takes over an account of a stored link |
| `Persisting.PersistOwners` | internal/reconcile/link.go:361-371 | every account of the provider gets its owner or none, and no other row changes |
| `Persisting.PassFits` | internal/reconcile/link.go:73-359 | what a pass adopts on a provider loaded from a store fits that store, and is refused only for the account of a link this pass found dangling |
| `Persisting.FitsLater` | internal/reconcile/link.go:50-56 | what one provider adopts does not meet what other providers stored before it |
| `Persisting.PersistAll` | internal/reconcile/link.go:50-371 | provider by provider the adopted links are stored, the owners set and the issues replaced, until a link is refused; then the providers before are complete, a part of the links of this one is stored, and nothing else |
| `Persisting.LinkStored` | internal/reconcile/link.go:19-58 | a whole cycle keeps both rules of the store and every link it had; nothing is refused exactly when no adopted link takes over an account of a stored one, and then the links are the old and the adopted ones, every account has the owner and every provider the issues the pass found |
| `Takeovers.JoinedExactly` | internal/reconcile/link.go:265-292 | the join gives everybody without a link the first account it can, in stored order, and changes nobody else's link |
| `Takeovers.AdoptedExactly` | internal/reconcile/link.go:188-306 | a pass adopts exactly the direct matches, and for everybody else without a link the first account of the join |
| `Takeovers.RefusedExactly` | internal/reconcile/link.go:354-359 | storing a pass is refused exactly when somebody without a link is given, by match or join, the account of a link that does not hold |
| `Takeovers.LoadedAgain` | internal/reconcile/link.go:73-118 | after a cycle that was stored, the next one loads the links the pass left |
| `Takeovers.SecondCycleAddsNothing` | internal/reconcile/link.go:19-58 | where no link came from the subject join, the cycle after a stored one adopts nothing and is not refused |
| `Takeovers.SecondCycleKeepsLinks` | internal/reconcile/link.go:19-58 | so the links stored after it are the ones stored before it |
| `Persisting.TakeoverIsRefused` | internal/store/accounts.go:169-184 | a concrete pass whose new link cannot be stored |
| `Limits.Limiter.constructor` | internal/api/auth.go:48-55 | at least one request a minute and one token; the rate is positive exactly up to one request per nanosecond |
| `Limits.Limiter.Allow` | internal/api/auth.go:57-85 | the buckets and the answer are those of the specified request |
| `Limits.RequestSpends` | internal/api/auth.go:57-85 | a request is admitted exactly when a whole token is there, and takes it; tokens stay between zero and the burst; other credentials keep theirs unless the map is discarded |
| `Limits.SpacedIsAdmitted` | internal/api/auth.go:57-85 | a credential that waits out the rate is never refused |
| `Limits.WindowIsBounded` | internal/api/auth.go:57-85 | in any window, whoever else sends requests, one credential whose bucket is kept gets at most a burst plus the window divided by the rate |
| `Limits.BucketsStayBounded` | internal/api/auth.go:63-71 | over any run the map holds at most 1025 buckets, and under a clock that does not go back each stays between zero and full |
| `Usage.SumAccounts` | internal/core/usage.go:172-207 | the loop over accounts reports and sums exactly the accounts a person owns on configured providers |
| `Usage.EntryFor` | internal/core/usage.go:148-233 | an entry holds the person's accounts sorted by name, their usage, the budget by policy or by observation, and whether anything was left out |
| `Usage.BuildUsage` | internal/core/usage.go:129-254 | an entry for every person exactly once, sorted by uuid |
| `Totals.CountView` | internal/core/usage.go:350-372 | one more account keeps the running totals: each kind once, each total the sum and the flags of its readable accounts |
| `Totals.TotalOfSays` | internal/core/usage.go:350-372 | counting view by view gives the sums over the readable views of a kind, and the flags exactly when such a view exists |
| `Totals.BuildUsageByService` | internal/core/usage.go:339-372 | a row for every kind met, no kind twice, in order, with its totals |
| `Totals.PersonIsGroup` | internal/core/usage.go:172-207 | a person's used bytes are the contributions of the accounts that person owns |
| `Totals.TotalsAgree` | internal/core/usage.go:129-388 | with distinct user ids, usage by person, usage by service and usage of the owned readable accounts are one number |
| `Totals.OrderIrrelevant` | internal/core/usage.go:129-388 | that number does not depend on the order of people, providers or accounts |
| `Sums.GroupsPartition` | internal/core/usage.go:339-388 | counting group by group is counting item by item: nothing twice, nothing left out |

## Left out

- Rounds.SecondPlanIsEmpty: is stated for services that keep the normalised quota; that Nextcloud and Immich do is what their adapters claim and not part of this model.
- LinkProofs.SecondPassChangesNothing: compares links, exclusions and owners, not the issue lists, which may name an ambiguity differently once its links exist.
- Limits.WindowIsBounded: says nothing across a discarded map, since a discard gives every credential a full bucket again.
- Usage.EntryFor: the percentage and the summary text of an entry, which are formatting.
- Totals.BuildUsageByService: the title-cased name and the summary text of a row; a row here carries the kind and the totals they are made from.
- The program collects the issues of each provider just before it stores that provider; here all are collected first, which changes neither. Its issues carry a text and a time stamp, which are not part of this model.
- Cancellation, sleeping between writes, logging, failed audit writes and failed table look-ups inside a run: assumed away, as is the age check on a plan.
- HTTP, OCS and JSON decoding, LDAP, the webhook, SQL text, migrations and file locks: foreign input and output. Services answer arbitrary values instead, and the store is maps and sequences with the two uniqueness rules on links.
- The text of details, rules, tier names and notes that a change, issue or resolution carries for people to read.
- The display order of candidate tiers, percentages, summaries and IEC text in usage reports.
- The plan filter is a parameter: any predicate on user and provider name. Saving a plan is not modelled, nor the origin that an override is stored with.
- Immich's decoding of accounts; its normalisation is the identity, as in its adapter.
- Numbers with signs or exponents in a size text: the parser here reads unsigned decimals, which is what the instance stores.
- Time stamps of links, and of accounts as the service reports them: no decision reads them.
- The hash of a credential stands for the credential itself; two credentials with one hash would share a bucket.
- Whether the observe step fills the store correctly: the model starts from stored accounts.
- Overflow of 64-bit sums of bytes.
