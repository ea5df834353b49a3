# Verified model of the AMOS platform's ordering, deploy, billing and token logic

This project models five parts of the platform in Dafny and proves what each is relied on for.

- **Dependency ordering.** `AppSpec::startup_order` (a Kahn sort with an in-degree map, a queue and sorted
  batches), the local `AppManager::deploy` that consumes it, and `AmosManifest::build_order` (repeated
  `retain` sweeps). Both sorts are methods over the same containers as the source, proved equal to
  specifications on sets and sequences about which success, failure, waves and order-insensitivity are proved.
- **The manifest deploy protocol.** Many callers, many background jobs, arbitrary answers from CodeBuild, ECS
  and the database, panics, and outsiders who change services, as a labelled transition system
  (`DeployMachine`); what every interleaving keeps (`DeployJobs`, `DeploySafety`); the guarantees
  (`DeployTheorems`, `DeployPinning`); and the program itself (`DeployProgram`), whose loops and local
  variables are proved to perform only runs of that system. `DeployAnswers` says what a job
  makes of each answer and what the answers received say of a run; `DeployWitnesses` holds runs that reach ends
  a caller might not expect.
- **The credit ledger and the hosting bills.** The clamped running balance against the closed-form period
  close, the gate, the invoice arithmetic on 64-bit integers, runs of reports and paid invoices in any order
  (`Periods`), and the metered bill against the snapshot bill.
- **Login sessions.** Refresh-token rotation with reuse detection.
- **The authorization-code grant.** Single-use codes with S256 challenges, rotating refresh tokens, and the
  scopes an access token allows over a chain of any length.

Files follow the source: `AppSpecs`, `AppDeploy`, `Manifests`, `BuildRanks`, `ImagePins`, `Receipts`, `Deploy*`, `Guards`,
`Ledger`, `Periods`, `Hosting`, `Sessions`, `Rbac`, `OAuth`. `Names`, `Graphs`, `StartupSpec`, `Lineages`, `Numbers` and
`Results` hold the shared mathematics. `dafny verify dfyconfig.toml` checks everything.

## Where code and documentation differ

The model follows the code.

- `clone_containers_with_image_pins` says it copies all fields other than the image. It copies the settings it
  lists; anything else a task definition may carry is dropped. A container here has `kept` and `unlisted` parts.
- `release` and build failures stop a deploy, a failed service does not: the roll phase goes on, so a `Failed`
  deploy may have rolled some services, although its summary says "services not rolled" (`FailedAfterRolling`).
  With any services at all, an update may also take effect although an error comes back, and is then recorded as
  failed (`FailedAfterErroredUpdate`), so no list of services makes the summary sure (`FailedSummaryNeverSure`).
  In a given run a job changed no service exactly when it recorded none as rolled and no errored update of its
  took effect (`WroteNothingIff`). Where no such update takes effect, the summary is right in every run exactly
  for a single service (`FailedSummaryRightIff`).
- A successful build that names no digest pins nothing; a deploy of it finds its services up to date unless
  another pin matches.
- `deploy_status` reads the stored receipt. A job that is gone is reported as `deploying` for ever exactly when it
  left no receipt (`DeadJobHangsIff`): because it panicked (`PanickedHangs`), or because its receipt could not
  be stored, which is always so when the caller's subject is blank (`BlankActorNoReceipt`, `BlankActorHangs`).
- A `base` whose name is declared twice counts as placed once either of them is.
- "Saturates rather than overflows" holds for the uplift but not for the rounding after it: `SaturatedOverflows`
  gives the first overage whose `+ 99` leaves the 64-bit range and `BillableIff` the exact bound.
- "Continuous running for a full month then bills the same as the snapshot" is not true of every month. Over a
  period of whole hours it is true exactly for a tenant within its included units or for a period of 730 hours
  (`ContinuousIff`): with a single unit over the pool, any longer month bills more and any shorter one less.
  Over a period in seconds it is true exactly when the difference from 730 hours rounds away
  (`ContinuousBySecondsIff`).
- A period close says that it bills what accrued during the closing period. When an earlier close was held or not
  accepted, its reports are billed again with the next period's against a single credit: the close bills its own
  period's overage exactly when nothing was carried over or everything together is within the credit
  (`CloseBillsPeriodIff`).
- A grant capped under a role the platform does not know is empty, and an empty list means the whole role when
  the token is used (`CapBoundsEffectiveIff`).

## Model

| member | source | states |
|---|---|---|
| AppSpecs.BuildTables | src/provisioning/app_spec.rs:302-314 | the two tables as the loops leave them: every declared name with its number of dependency entries, repetitions counted, and for every name its dependents |
| AppSpecs.StartupOrder | src/provisioning/app_spec.rs:299-349 | on every input: succeeds exactly when names are distinct, every dependency is declared and there is no cycle; the result is the specified order and lists every service |
| Names.LeIsLexicographic | src/provisioning/app_spec.rs:321-338 | the order names are sorted by is the lexicographic one: a prefix first, otherwise decided by the first difference |
| AppSpecs.Validate | src/provisioning/app_spec.rs:274-294 | accepts exactly the non-empty specs with distinct names, declared dependencies and no cycle; each of the first three errors occurs exactly for its own defect |
| AppSpecs.Service | src/provisioning/app_spec.rs:352-354 | the first service of that name, or none when no service has it |
| AppSpecs.RefusalHasCycle | src/provisioning/app_spec.rs:345-347 | a refused spec with resolved dependencies has a concrete cycle among services that were never started |
| AppSpecs.AcceptedOrder | src/provisioning/app_spec.rs:316-343 | an accepted order lists each service once, dependencies first, in waves of longest-path depth, by readiness then name; no other order has these properties |
| AppSpecs.OrderInsensitive | src/provisioning/app_spec.rs:27-29 | permuting services, or permuting or repeating `depends_on` entries, changes neither acceptance nor the order; declaring a service twice turns an accepted spec into a refused one |
| StartupSpec.StartsAllIff | src/provisioning/app_spec.rs:299-349 | the queue drains over all nodes exactly when the graph is resolved and acyclic |
| StartupSpec.StartOrderInWaves | src/provisioning/app_spec.rs:325-343 | no service comes before one whose longest dependency path is shorter |
| StartupSpec.CanonicalUnique | src/provisioning/app_spec.rs:322-340 | two orders that list each node once, dependencies first, and are sorted by readiness then name are equal |
| Graphs.StuckHasCycle | src/provisioning/app_spec.rs:345-347 | a non-empty set whose every member depends on a member contains a cycle (pigeonhole) |
| AppDeploy.Deploy | src/provisioning/app_deploy.rs:113-187 | a refused spec makes no engine call; an accepted one makes the calls of its plan up to and including the first that fails, succeeds exactly when all of them did, and reports every service in start order |
| AppDeploy.PrefixIsSafe | src/provisioning/app_deploy.rs:124-181 | wherever a deploy stopped: the network came first, and no service was prepared, created or started before every named volume existed and all its dependencies were started |
| AppDeploy.PlanNeverRepeats | src/provisioning/app_deploy.rs:144-181 | one network, each volume once, each service once |
| AppDeploy.FirstsOnce | src/provisioning/app_deploy.rs:144-167 | each named volume mounted anywhere is created exactly once, labelled with the first service that mounts it |
| AppDeploy.VolumeOwner | src/provisioning/app_deploy.rs:144-160 | a volume is created for an owner exactly when the owner is the first declared service that mounts it |
| AppDeploy.UsesDeclared | src/provisioning/app_deploy.rs:146-148 | the mounts are gone through exactly once each, in declaration order |
| Manifests.CheckParsed | src/provisioning/manifest.rs:101-126 | accepts exactly the manifests with a non-blank name, a service, and only declared bases; each error for its own defect |
| Manifests.ComputeBuildOrder | src/provisioning/manifest.rs:131-159 | the sweeps compute the specified build order, or the cyclic error, in at most as many sweeps as there are services |
| Manifests.BuildFromOrders | src/provisioning/manifest.rs:131-159 | a build order is a permutation of the declared services, each after one that its base names |
| Manifests.BuildOrderIff | src/provisioning/manifest.rs:128-158 | there is a build order exactly when every chain of base names reaches a service that needs none, duplicate names included |
| Manifests.DeclaredOrderKept | src/provisioning/manifest.rs:139-151 | declared order is kept exactly when each base is declared before its users |
| BuildRanks.RanksAreRanking | src/provisioning/manifest.rs:139-151 | with distinct names and a build order, ranks exist: 0 without a base, otherwise the base's, plus 1 when the base is not declared before |
| BuildRanks.ExactBuildOrder | src/provisioning/manifest.rs:131-159 | with distinct names the build order is the declared services sorted by rank and then declared position, and no other arrangement is so sorted |
| Manifests.ImageDefaults | src/provisioning/manifest.rs:87-97 | the image is named app, dash, service and tagged `prod` unless the manifest names or tags it |
| Manifests.UngroundedCycle | src/provisioning/manifest.rs:152-156 | with distinct names and known bases, a service whose chain never bottoms out gives a concrete cycle of bases |
| Manifests.SameAsStartupOrder | src/provisioning/manifest.rs:131-159 | with distinct names, the manifests ordered are exactly those whose bases, read as `depends_on`, `startup_order` accepts |
| Manifests.ParsedOrderIff | src/provisioning/manifest.rs:115-159 | a parsed manifest with distinct names is ordered exactly when its bases make no cycle |
| ImagePins.PinnedRefRepo | src/provisioning/env_provision.rs:382-387 | `repo_of(registry/name@digest)` is `name` exactly when the name is non-empty and free of `@` and `:` and the registry is a bare host (or is itself cut short at that very name) |
| ImagePins.TaggedRefRepo | src/provisioning/env_provision.rs:379-387 | so is a reference by tag: what a tag deploys is found by the next deploy of its repository |
| ImagePins.CloneContainersWithImagePins | src/provisioning/env_provision.rs:395-433 | one container for each, in order: pinned image where the repository is pinned, the same image otherwise, listed settings kept, others dropped |
| ImagePins.PinTwice | src/mcp/mod.rs:1243-1266 | pinning what is already pinned changes no image, when each pin names its own repository |
| ImagePins.ChangedIsMatched | src/mcp/mod.rs:1258-1276 | when pinning changes any image, some container matched a pin |
| Receipts.VerifiedIff | src/proof/mod.rs:145-178 | a receipt made from results verifies exactly when every result was good |
| Receipts.WithResultsAppends | src/mcp/mod.rs:1360-1370 | recording results appends one check for each, in order, and touches nothing else |
| DeployMachine.ReceiptShape | src/proof/mod.rs:180-200 | a deploy receipt passes the shape test exactly when the caller's subject is not blank |
| DeployMachine.EcsServices | src/mcp/mod.rs:901-911 | there is always at least one service to roll |
| DeployJobs.BaseIsBuilt | src/mcp/mod.rs:1078-1096 | when the loop reaches a service, its build request carries the image last built under its base's name, if it has a base |
| DeployJobs.JobStepKeeps | src/mcp/mod.rs:1062-1411 | every answer a job can receive keeps the whole job invariant: builds, pins, partition, settled services, results |
| DeployJobs.StepsDecrease | src/mcp/mod.rs:1108-1117 | every answer uses up some of a job's measure |
| DeployAnswers.BuildRecordedIff | src/mcp/mod.rs:1110-1140 | a build is recorded, with its digest and a passed check, exactly when CodeBuild answers that it is done and succeeded |
| DeployAnswers.BuildPollMeans | src/mcp/mod.rs:1097-1126 | a build that did not start, failed, or is not done by the 60th poll stops the job with a failed check; one not done before is polled again |
| DeployAnswers.ReleaseMeans | src/mcp/mod.rs:1165-1178 | with a release, rolling begins exactly on exit 0; not starting, another exit, none, or 60 polls without an end stop the job |
| DeployAnswers.RollMeans | src/mcp/mod.rs:1180-1334 | of one service: what is recorded as rolled, unchanged or failed, what is checked, and which service is next, for every answer |
| DeployAnswers.RecordsWereAnswered | src/mcp/mod.rs:1108-1117 | in every run each recorded build was answered to have succeeded, while it was that service's turn, and a recorded exit 0 was answered |
| DeployAnswers.WritesNeedSuccess | src/mcp/mod.rs:1143-1178 | in every run a job that changed any service was answered a success for every service of its build order, and exit 0 for its release if it has one |
| DeployAnswers.RespondIff | src/mcp/mod.rs:870-976 | which answer a call gets, for every combination of its checks |
| DeployAnswers.DryRunTouchesNothing | src/mcp/mod.rs:913-931 | a dry run changes nothing and reports exactly the errors the deploy itself would |
| DeployAnswers.PlanIsJob | src/mcp/mod.rs:874-911 | what a dry run announces, builds, services and release, is what the job of the same call is started with, and the services are those listed or the one of the environment's name |
| DeployJobs.OutcomeOf | src/mcp/mod.rs:1427-1435 | of an ended job: `Failed` exactly when something went wrong, `NoChanges` exactly when all went well and nothing was rolled |
| DeploySafety.StepKeeps | src/mcp/mod.rs:942-1051 | calls, answers, panics and outside changes keep the system invariant |
| DeployTheorems.OneLiveJob | src/mcp/mod.rs:942-974 | in every interleaving a deployment is in flight exactly when it has a live job, and it never has two |
| DeployTheorems.AlreadyDeployingIsLive | src/mcp/mod.rs:947-955 | `already_deploying` names a live job of the same deployment and starts nothing |
| DeployTheorems.GuardDropsOwnEntry | src/mcp/mod.rs:1035-1051 | the guard, after a normal end or a panic, removes its own job's entry and leaves every other live job's |
| DeployTheorems.WritesAreGated | src/mcp/mod.rs:1143-1178 | a job changes a service's task definition only after every manifest service was built and the release was absent or exited 0, and then changes only one of its own services |
| DeployTheorems.EndedPartition | src/mcp/mod.rs:1180-1334 | at the receipt: rolled, unchanged and failed partition the services if the roll phase was entered, and are all empty otherwise |
| DeployTheorems.RolledMatched | src/mcp/mod.rs:1267-1276 | every rolled service had a matched pin: the "no container matched" branch is unreachable |
| DeployTheorems.BuildsAsPlanned | src/mcp/mod.rs:989-1001 | the builds started are a prefix of a dry run's `would_build`, all of it once the job rolls, each with its base's image |
| DeployTheorems.ReceiptTellsOutcome | src/mcp/mod.rs:1372-1410 | the stored receipt is verified exactly when everything went well, which is exactly when the outcome is not `Failed` |
| DeployTheorems.StatusIsTerminal | src/mcp/mod.rs:1708-1740 | once `deploy_status` says succeeded or failed, no continuation of any run changes it |
| DeployTheorems.StatusTellsTruth | src/mcp/mod.rs:1715-1739 | it is in progress exactly until the receipt is stored, and then succeeded or failed as the job went |
| DeployTheorems.StatusOfDeadJob | src/mcp/mod.rs:1726-1731 | the answer for a job that is gone never changes |
| DeployTheorems.DeadJobHangsIff | src/mcp/mod.rs:1726-1731 | of a job that is gone, the answer is "deploying" in every continuation exactly when no stored receipt has its id |
| DeployTheorems.BlankActorNoReceipt | src/proof/mod.rs:186-188 | a job whose caller's subject is blank never has a stored receipt |
| DeployWitnesses.ReceiptPossibleIff | src/proof/mod.rs:182-211 | an accepted call has a run that stores its receipt exactly when its caller's subject is not blank |
| DeployWitnesses.PanickedHangs | src/mcp/mod.rs:1035-1051 | a run in which a job panics and is "deploying" for ever |
| DeployWitnesses.BlankActorHangs | src/mcp/mod.rs:1410 | a run in which a job ends normally, its receipt fails the shape test, and it is "deploying" for ever |
| DeployWitnesses.FailedAfterRolling | src/mcp/mod.rs:1405-1408 | for any list of two services or more, a run that ends `Failed` with the first service rolled |
| DeployTheorems.WroteNothingIff | src/mcp/mod.rs:1312-1333 | in every run a job changed no service's task definition exactly when it recorded none as rolled and no errored update of its took effect |
| DeployWitnesses.FailedAfterErroredUpdate | src/mcp/mod.rs:1329-1332 | for any list of services, one included, a run that ends `Failed` with nothing recorded as rolled and the first service changed |
| DeployWitnesses.FailedSummaryNeverSure | src/mcp/mod.rs:1405-1408 | for no list of services is it true of every run that a failed deploy changed none of them |
| DeployWitnesses.FailedSummaryRightIff | src/mcp/mod.rs:1405-1408 | over the runs in which no errored update of the job takes effect, every failed deploy of a list of services changed none exactly when the list has one element |
| DeployWitnesses.FailedReceiptListsNoneIff | src/mcp/mod.rs:1374-1381 | over all runs, the receipt of every failed deploy of a list of services lists none as rolled exactly when the list has one element |
| DeployTheorems.AnswersBounded | src/mcp/mod.rs:1108-1117 | along any run the answers a job takes are paid for by its measure |
| DeployTheorems.JobsEnd | src/mcp/mod.rs:1018-1411 | an accepted job takes at most 62 answers a build, 2 a service and 65 more, always has an answer to wait for while live, and unless it panics ends with exactly one attempt at its receipt |
| DeployPinning.AllSettled | src/mcp/mod.rs:1180-1334 | a deploy in which all went well settled each of its services, in order, on its target |
| DeployPinning.DeployedImages | src/mcp/mod.rs:1230-1328 | what any service settled by any deploy runs: each container whose repository had a digest the pinned reference of its last one, every other container what it ran before; when every build returned a digest these are the repositories built |
| DeployPinning.DigestsDeterminePins | src/mcp/mod.rs:1127-1131 | two jobs with the same build order, names, registry and digests have the same pins |
| DeployPinning.SecondDeployIsNoOp | src/mcp/mod.rs:1243-1266 | a second deploy of the same manifest to the same services whose builds return the same digests rolls nothing in any interleaving, and ends `NoChanges` if all goes well |
| DeployPinning.PinsSelfNaming | src/mcp/mod.rs:1128-1131 | the pins a job makes name their own repositories, for bare-host registries and clean image names |
| DeployProgram.Platform.ToolDeploy | src/mcp/mod.rs:859-983 | the handler's answer and its effect on the shared map are those of the transition system |
| DeployProgram.Platform.ToolDeployStatus | src/mcp/mod.rs:1708-1740 | the newest matching receipt decides |
| DeployProgram.Platform.PollToTerminal | src/mcp/mod.rs:1105-1117 | succeeds exactly when the last answer is done and succeeded, with that answer's digest; gives up only at the 60th poll |
| DeployProgram.Platform.ReleasePhase | src/mcp/mod.rs:1606-1663 | at most 60 polls; passes exactly when the last answer is exit 0, and records the result |
| DeployProgram.Platform.RollService | src/mcp/mod.rs:1180-1334 | one service described, pinned and moved or left, failures recorded and the loop continued |
| DeployProgram.Platform.RunDeployToReceipt | src/mcp/mod.rs:1018-1411 | the whole job with its locals, under arbitrary interference at every await, is a run of the transition system, terminates, and finishes; its early return cannot fire |
| DeployProgram.MakeReceipt | src/mcp/mod.rs:1341-1409 | the receipt built in the loop is the specified one |
| Guards.OverageInRange | src/billing/guards.rs:147-150 | no 64-bit arithmetic in it overflows; the overage is non-negative and at most the cost |
| Guards.DecisionIff | src/billing/guards.rs:97-130 | every reason of the gate has an exact condition, the four blocking statuses named; only running out of credit is called exhaustion |
| Guards.BillableIff | src/billing/guards.rs:135-160 | the invoice amount is representable exactly up to 8384883669867977917 microcents of overage |
| Guards.SaturatedOverflows | src/billing/guards.rs:135-160 | the next microcent, and the saturated maximum, leave the 64-bit range |
| Guards.InvoiceBounds | src/billing/guards.rs:135-160 | 110x - 100 < 10000c <= 110x + 9900 |
| Guards.InvoicePositive | src/billing/guards.rs:152-160 | a positive overage is never billed at nothing, and nothing else is billed |
| Guards.InvoiceMonotone | src/billing/guards.rs:135-160 | a larger overage is never billed at less |
| Guards.SplitInvoices | src/billing/guards.rs:135-160 | billing in n parts adds at most n-1 cents and loses at most (n-1)/100 cents, rounded up |
| Ledger.CostRange | src/billing/metered_billing.rs:37-46 | a cost is a non-negative 64-bit amount for every model and every token count |
| Ledger.CostIsPrice | src/billing/metered_billing.rs:13-46 | a cost is the model's list price of all tokens, in and out, plus three per cent, to the nearest microcent, capped at 64 bits |
| Ledger.CreditAccount.ReceiveActivity | src/routes/sync.rs:491-551 | the loop records every entry with its cost and draws the shared total from the balance, clamped at zero; BYOK reports draw nothing, reports without a harness are dropped |
| Ledger.CreditAccount.GetBalance | src/routes/sync.rs:812-816 | exactly when the shared backend is allowed, and when the refusal is for want of credit |
| Ledger.SharedCostRange | src/routes/sync.rs:529-531 | saturating as it goes equals capping the sum once |
| Ledger.BalanceClosedForm | src/routes/sync.rs:540-551 | after any reports the clamped balance is max(0, grant - total shared) |
| Ledger.OverageClosedForm | src/billing/guards.rs:147-150 | the per-report overages sum to the overage of the total, max(0, total - grant) |
| Ledger.CreditAccount.InvoicePaid | src/routes/webhooks.rs:385-548 | the unbilled shared records summed, billed, held or not charged; marked exactly when the close settles; the credit reset unless an amount overflowed |
| Ledger.CloseIff | src/routes/webhooks.rs:487-548 | when a close is within credit, charged, not charged, held or overflows, by how far the total exceeds the credit |
| Ledger.MarksSelectedOnly | src/routes/webhooks.rs:517-548 | marking bills exactly the selected records and changes nothing else of any |
| Periods.LedgerOfRun | src/routes/webhooks.rs:388-403 | over any order of reports and paid invoices: the balance is max(0, credit - shared since the last reset), so nothing rolls over, and what a close selects is exactly what was recorded of the current and the carried reports |
| Periods.PeriodCloseAgrees | src/routes/webhooks.rs:473-489 | the recorded costs of regular reports give a close the overages that arose as they came in |
| Periods.CloseBillsPeriodIff | src/routes/webhooks.rs:487-541 | a close computes its own period's overage exactly when nothing was carried over from unsettled closes or everything together is within the credit |
| Periods.SettledCloseIsExact | src/routes/webhooks.rs:507-548 | while every close settles, each bills exactly its own period's overage |
| Ledger.Conservation | src/routes/sync.rs:533-551 | credit drawn plus overage equals total shared cost |
| Ledger.ByokChangesNothing | src/routes/sync.rs:529-537 | leaving out BYOK reports anywhere changes no balance, overage or total |
| Ledger.GateOpenIff | src/billing/guards.rs:97-130 | in good standing the gate is open exactly while total shared cost is below the grant |
| Ledger.GateStaysShut | src/billing/guards.rs:120-126 | once shut it stays shut until the next grant |
| Ledger.OverrunBounded | src/routes/sync.rs:533-537 | if nothing shared starts after the gate shuts, the overage is strictly less than the cost of the one report that crossed the grant |
| Hosting.UnitsAreFewest | src/billing/app_hosting.rs:141-146 | the units charged are the fewest standard containers the task fits in, at least one |
| Hosting.TierPrices | src/billing/app_hosting.rs:33-86 | what each tier costs within its allowances and one unit and one gigabyte over |
| Hosting.ChargesWithinHalf | src/billing/app_hosting.rs:178-211 | both metered charges are within half a cent of the exact use over the allowances at their rates |
| Hosting.ConstantMonth | src/billing/app_hosting.rs:172-257 | N units for 730 hours and whole gigabytes bill, line by line, as the snapshot at N |
| Hosting.ContinuousIff | src/billing/app_hosting.rs:148-176 | constant units over whole hours bill exactly as the snapshot if and only if they are within the pool or the period is 730 hours |
| Hosting.ContinuousBySecondsIff | src/billing/app_hosting.rs:178-211 | the same for a period in seconds: exactly when the difference from 730 hours rounds away |
| Hosting.TenantBoundsIff | src/billing/app_hosting.rs:178-257 | for one tenant, the metered bill for some hours stays within the snapshot exactly when the unit-hours over the pool are within 730 for each unit over it |
| Hosting.SnapshotBoundsIff | src/billing/app_hosting.rs:178-257 | it does for every number of units exactly when the hours fit both the period and 730 |
| Hosting.MeterTenant | src/billing/usage_metering.rs:123-153 | the accumulated usage is the sum over all services |
| Hosting.ValueAtIs | src/billing/usage_metering.rs:178-190 | the memory of an hour is its first reading at that timestamp, and zero for want of one |
| Hosting.EgressIsAllBytes | src/billing/usage_metering.rs:229-253 | the egress metered is every byte of every service, a billion to the gigabyte |
| Hosting.ServiceUsage.Add | src/billing/usage_metering.rs:47-50 | both amounts added in place |
| Hosting.MeteredWithinSnapshot | src/billing/usage_metering.rs:59-68 | for any services, any samples within their declared sizes and a period of any length, no more samples than hours in the period or 730: the metered bill, for the metered egress too, never exceeds the snapshot of the declared units and as many whole gigabytes or more |
| Hosting.SteadyTenant | src/billing/usage_metering.rs:59-192 | a tenant whose services were read at their whole declared sizes, processor and memory, every hour of a reference month is billed exactly its snapshot |
| Sessions.SessionStore.LogIn | src/routes/auth.rs:396-531 | which account, which refusal, and the row inserted |
| Sessions.SessionStore.RefreshTokens | src/routes/auth.rs:541-696 | rotation, reuse detection and every refusal, in the handler's order |
| Sessions.SessionStore.LogOut | src/routes/auth.rs:709-724 | the presented token is revoked and nothing else changes |
| Sessions.LoginIff | src/routes/auth.rs:400-518 | issues exactly when the first account with the address is active, the password is its own and signing works; then exactly one row is added, unrevoked and starting a lineage, unless its hash exists; otherwise nothing changes |
| Sessions.LoginRefusals | src/routes/auth.rs:424-476 | why a login is refused, each with its exact condition; a disabled account before its password is looked at |
| Sessions.RefreshIff | src/routes/auth.rs:545-608 | issues exactly for an unexpired unrevoked token of an active user; detects reuse exactly for an unexpired revoked one, and then revokes all of its user's rows |
| Sessions.RefreshEffect | src/routes/auth.rs:604-683 | a refresh of a live token revokes its row and answers and stores the new token, after it in its lineage and for the full time, exactly when the user is active and signing works; nothing else changes |
| Sessions.RefreshedTokenRefreshes | src/routes/auth.rs:670-695 | the token a refresh hands out refreshes next, exactly until it expires |
| Sessions.LoginTokenRefreshes | src/routes/auth.rs:505-530 | so does the token a login hands out |
| Sessions.RevocationsExact | src/routes/auth.rs:585-591 | reuse revokes exactly its user's rows, a logout exactly the presented token's |
| Sessions.RefreshTouchesOneUser | src/routes/auth.rs:585-608 | a refresh, whatever it does, leaves every row of every other user as it was, and an unknown or expired token leaves all rows |
| Sessions.SessionLineages | src/routes/auth.rs:508-518 | in every run each lineage is a path of one user's tokens with at most one unrevoked |
| Sessions.ReuseShutsOut | src/routes/auth.rs:585-602 | after reuse is detected nothing is issued to that user by any handler, in any continuation without a successful login of theirs |
| Sessions.SecondUseRevokesAll | src/routes/auth.rs:585-608 | a token presented twice before it expires, however much happens between, ends with every session of its user revoked |
| Sessions.LoggedOutIsSpent | src/routes/auth.rs:713-719 | a logged-out token never refreshes again |
| Lineages.LineageIsPath | src/routes/auth.rs:604-683 | when no row is replaced twice, of two rows of a lineage the younger is reached from the older |
| Lineages.OneUnretired | src/routes/auth.rs:604-608 | and when replaced rows are retired, at most one is not |
| Rbac.RolesNest | src/rbac.rs:82-111 | every known role holds at least the viewer's scopes, and an unknown one holds none |
| Rbac.RoleDifferences | src/rbac.rs:74-111 | exactly which scopes each role has beyond the next |
| Rbac.CapScopesIs | src/oauth/mod.rs:95-112 | the grant is the sorted, repetition-free listing of what was asked for and held, or of the default scopes held, and never exceeds the role |
| Rbac.CapEmptyIff | src/oauth/mod.rs:95-112 | it is empty exactly for an unknown role |
| Rbac.CapBoundsEffectiveIff | src/rbac.rs:159-172 | under every later role the effective scopes stay within the grant exactly when the capping role was known |
| Rbac.CapTwice | src/oauth/mod.rs:95-112 | capping again under the same role changes nothing |
| OAuth.TokenServer.GiveConsent | src/oauth/mod.rs:303-374 | every refusal in order, and the code row with the capped scopes |
| OAuth.TokenServer.ByCode | src/oauth/mod.rs:396-439 | the checks in order, the code consumed before the tokens are inserted |
| OAuth.TokenServer.ByRefresh | src/oauth/mod.rs:441-463 | the presented row revoked, a new one inserted with the same client, user and scopes |
| OAuth.TokenServer.IssueTokens | src/oauth/mod.rs:465-508 | the row inserted, or a server error with nothing inserted |
| OAuth.ConsentIff | src/oauth/mod.rs:303-361 | a code is issued exactly for a logged-in user, a known client, a registered redirect and a non-empty challenge when the code is new and the user and the tenant exist; it is unspent, lives 600 seconds and grants no scope its role lacks; otherwise nothing changes |
| OAuth.CodeGrantIff | src/oauth/mod.rs:396-439 | exactly when a code is exchanged, with the scopes granted; a refused check changes nothing, passing them all spends the code even if the insert fails (section 4.6 of RFC 7636) |
| OAuth.CodeGrantStores | src/oauth/mod.rs:465-508 | an exchanged code adds exactly one row, with both hashes, its user, tenant and scopes, an hour of access and thirty days of refresh |
| OAuth.ClientOfRequest | src/oauth/mod.rs:396-439 | whichever client a code was issued to, the answer and the token rows are the same, and a row added is recorded for the client the request names |
| OAuth.CodeIsSingleUse | src/oauth/mod.rs:422-436 | a code that passed its checks once is refused in every continuation (section 4.1.2 of RFC 6749) |
| OAuth.RefreshGrantIff | src/oauth/mod.rs:441-463 | succeeds exactly for the hash of an unrevoked unexpired row when the new row can be inserted, with that row's scopes; a found row is revoked either way, an unknown token changes nothing |
| OAuth.RefreshGrantStores | src/oauth/mod.rs:441-508 | a refresh revokes exactly the presented row and adds at most one, with that row's data |
| OAuth.RowRefreshesIff | src/oauth/mod.rs:443-446 | a row refreshes exactly while unrevoked and unexpired, as long as the insert goes through |
| OAuth.RefreshIsSingleUse | src/oauth/mod.rs:441-463 | a rotated refresh token is refused in every continuation |
| OAuth.OneChainPerCode | src/oauth/mod.rs:432-462 | in every run the rows descending from one code form a single path with at most one unrevoked |
| OAuth.ClaimsIff | src/oauth/mod.rs:512-552 | a token is honoured exactly when an unrevoked row has its hash, the hour is not over and its user exists, and then for that row's user, tenant and scopes |
| OAuth.IssuedIsHonoured | src/oauth/mod.rs:474-516 | an issued pair is honoured in every continuation exactly for an hour, unless its row was rotated |
| OAuth.RotatedAccessRefused | src/oauth/mod.rs:457-516 | once a row is rotated its access token is refused in every continuation |
| OAuth.AccessWithinConsent | src/oauth/mod.rs:512-552 | in every run an access token allows exactly the consented grant cut to the user's role of the moment, whenever the role at consent was known; otherwise the whole present role |

## Left out

- AWS, Docker, Stripe, Argon2 and JWT calls: their answers are parameters or arbitrary. Hashing is a datatype
  constructor, so it is injective.
- Request parsing (JSON, YAML, forms, the comma-separated scope list) and response rendering: the model starts
  from parsed values and answers with a constructor for each outcome.
- Freshly drawn identifiers: a deploy id must be new (a UUID). Tokens and codes need not be: a collision is the
  failed insert it is in the database.
- Deploy timings, log tails, messages, the repository and revision in the receipt's intent, and the clone's
  settings one by one: they decide nothing that is modelled.
- The image and network choice inside `run_release_phase`: everything before the task runs is one
  started-or-not answer.
- A task definition update is one step (register and point the service at it) with an outcome that may have
  taken effect although an error came back.
- Poisoning of the in-flight mutex: `InFlightGuard` does not remove its entry from a poisoned map.
- A failed statement in the session and token handlers other than a violated uniqueness or reference; races
  between a handler's SELECT and UPDATE; deletion of users, clients and rows.
- Registration: an account and its first refresh token appear in one step, without the checks before it.
- `login` picks the first account with the e-mail address; the database's choice among several is unspecified.
- The authorization endpoint's consent page and the discovery documents: no state.
- Model names: the substring tests that pick a price family are replaced by the family.
- f64 rounding: prices, hours, units and gigabytes are reals. Unsigned 64-bit and 32-bit overflow of cents and
  units is not modelled.
- Period close: rows are selected by the harness's provider mode rather than the report's `is_byok`; the theorems
  about overages take the two to agree (`Regular`). The plan is a hosting tier (others are
  not billed at a close); it, its credit and the harnesses on the shared backend do not change during a run. An amount past 64 bits ends the handler, as overflow checks are on.
  A charge accepted whose rows could not be marked, and the egress item of a close, are not modelled.
- Ledger.OverrunBounded: assumes the harness starts no shared call after the gate shuts; the platform cannot
  enforce that between two reports.
- DeployPinning.DeployedImages: until someone else writes the service.
- Harness provisioning, environment sagas, administration and governance: best-effort steps whose
  properties would be weak.
