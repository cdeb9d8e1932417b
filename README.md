# Moonkit: upgrade migrations and the foreign-asset registry, in Dafny

This project models two pallets of the Moonkit runtime components.

**pallet-migrations** applies named, one-time data migrations when the runtime
is upgraded. The model covers the following:

- the registry of migrations;
- the completion ledger (`MigrationState`);
- the `FullyUpgraded` flag;
- the event log;
- `on_runtime_upgrade`, which runs the step of every uncompleted migration
  once, in registration order, and never stops when a step goes over budget;
- the `clear_local_assets_storage` administrative call;
- the try-runtime pre- and post-upgrade checks.

The pallet's implementation file is not part of this model. Its behaviour is
taken from the assertions of its unit tests, `pallets/migrations/src/tests.rs`.
The model is in three files:

- `migration_schedule.dfy` states one upgrade as a function, `Run`, with
  lemmas about what it does to the ledger, the invoked steps, the events and
  the weight;
- `migrations.dfy` is the pallet as a class whose methods are proved against
  `Run`;
- `migration_scenarios.dfy` replays each test scenario and states what the
  test asserts.

**pallet-foreign-asset-creator** keeps two storage maps:
`AssetIdToForeignAsset` and its reverse, `ForeignAssetToAssetId`. Four
privileged calls change them in place, and the `MaybeEquivalence`
conversions read them. `foreign_asset_creator.dfy` models the calls as
methods of a class, in the source's statement order. It models the
conversions and each call's storage effect as functions. The pallet never
checks that the two maps stay inverse to each other, so the model does not
assume it. Instead, lemmas state exactly when each call keeps that relation
and when it breaks it. `convert` and `convert_back` are the plain lookups
`Convert` and `ConvertBack`. Their properties are stated by
`ConvertRoundTrip`, `CreatedConverts`, `ChangeToSameForeignAssetDropsReverse`
and `RemovePreservesInverse`.

Outside collaborators become parameters:

- each `EnsureOrigin` check is a predicate on the caller's origin, fixed when
  the pallet is built;
- the results of `Fungibles::create` and `Fungibles::start_destroy` are passed
  to the call as `Done` or `Failed(code)`;
- a migration's step is a function from the weight made available to it to
  the weight it reports consuming;
- a migration's check hooks are their outcomes.

The test harness's shared call counters become two logs on the pallet:
`stepCalls` for step invocations and `checkCalls` for check invocations.

On three points the tests fix behaviour that one might expect to be
otherwise, and the model follows the tests:

- An upgrade with nothing outstanding still emits `RuntimeUpgradeStarted`
  before `RuntimeUpgradeCompleted`.
- `on_runtime_upgrade` returns the maximum block weight, not the accumulated
  weight. The accumulated weight (overhead + reported weights) is only
  reported in the `RuntimeUpgradeCompleted` event.
- A post-upgrade check takes no argument, as the mock's check closure does.
  The snapshots collected by the pre-upgrade phase are returned, not passed
  back.

## Model

| member | source | states |
|---|---|---|
| `MigrationSchedule.Available` | pallets/migrations/src/tests.rs:251-258 | the weight offered to the next step is the budget minus what was already consumed while the budget is not exceeded, and 0 once it is exceeded |
| `MigrationSchedule.OutstandingFacts` | pallets/migrations/src/tests.rs:143-199 | the work of one upgrade names no migration twice and no completed migration, and names exactly the registered names missing from the ledger |
| `MigrationSchedule.OutstandingMembers` | pallets/migrations/src/tests.rs:278-286 | a name is outstanding exactly when it is registered and not in the ledger |
| `MigrationSchedule.OutstandingDistinct` | pallets/migrations/src/tests.rs:283-285 | no outstanding name is listed twice |
| `MigrationSchedule.ExactlyOnce` | pallets/migrations/src/tests.rs:157-161 | an uncompleted registered name occurs exactly once among the steps an upgrade invokes, and a completed or unregistered name never occurs |
| `MigrationSchedule.RunDone` | pallets/migrations/src/tests.rs:281-286 | after the upgrade loop the ledger is the old ledger plus every registered name |
| `MigrationSchedule.RunInvokesAllOutstanding` | pallets/migrations/src/tests.rs:230-290 | the steps invoked are exactly the outstanding names in registration order, whatever weights the steps report and whatever the budget, so an overweight step never stops the upgrade |
| `MigrationSchedule.RunExtendsLog` | pallets/migrations/src/tests.rs:193-199 | the upgrade loop only appends to the event log |
| `MigrationSchedule.RunEvents` | pallets/migrations/src/tests.rs:162-175 | the appended events are one MigrationStarted/MigrationCompleted pair per outstanding name, in registration order. Each MigrationCompleted carries the weight that migration's step returned when offered the budget minus the weight consumed before it. The consumed weight is the sum of the weights those events report |
| `MigrationSchedule.RunWhenComplete` | pallets/migrations/src/tests.rs:177-199 | when every registered name is completed, the upgrade loop invokes nothing, appends nothing and consumes nothing |
| `MigrationSchedule.SecondRunIsIdle` | pallets/migrations/src/tests.rs:177-199 | an upgrade started from the ledger a previous upgrade left behind changes nothing |
| `MigrationSchedule.FirstFailure` | pallets/migrations/src/tests.rs:350-390 | the index returned is the first migration whose check fails, or the registry length when all pass |
| `MigrationSchedule.Snapshots` | pallets/migrations/src/tests.rs:359-365 | the pre-upgrade snapshots are keyed by exactly the registered names |
| `MigrationSchedule.SnapshotsValues` | pallets/migrations/src/tests.rs:359-365 | each name maps to the snapshot returned by the pre-upgrade check of the last migration registered under it, which is the only one when names are unique |
| `Migrations.FirstFailureAt` | pallets/migrations/src/tests.rs:350-390 | an index whose prefix passes and whose own check fails is the first failure |
| `Migrations.Pallet.constructor` | pallets/migrations/src/tests.rs:28-33 | genesis records every registered migration except the uncompleted ones as done, sets the fully-upgraded flag accordingly, and emits no event |
| `Migrations.Pallet.IsFullyUpgraded` | pallets/migrations/src/tests.rs:286 | the flag is true exactly when every registered migration is completed |
| `Migrations.Pallet.OnRuntimeUpgrade` | pallets/migrations/src/tests.rs:104-228 | the new ledger, invoked steps and events are those of the upgrade loop, bracketed by RuntimeUpgradeStarted and RuntimeUpgradeCompleted(overhead + consumed). Afterwards every migration is completed and each outstanding one ran exactly once. A repeat upgrade appends only the bracketing pair. The result is the maximum block weight |
| `Migrations.Pallet.RollTo` | pallets/migrations/src/tests.rs:201-214 | ordinary block production advances the block number to the target and changes nothing else (no step, no event) |
| `Migrations.Pallet.ClearLocalAssetsStorage` | pallets/migrations/src/tests.rs:293-348 | a signed call removes min(limit, remaining) legacy entries and nothing else. It fails, removing nothing, when there is nothing to remove. An unsigned call fails with BadOrigin |
| `Migrations.Pallet.RunChecks` | pallets/migrations/src/tests.rs:350-390 | the check of one phase of every registered migration runs once, in registry order, whether or not an earlier one failed. The index returned is the first failure, or the registry length when all pass |
| `Migrations.Pallet.PreUpgrade` | pallets/migrations/src/tests.rs:359-383 | every migration's pre-upgrade check is invoked once, in registry order. When all pass, the snapshots are returned by name. Otherwise the result is the error of the first failing migration, with its name and reason |
| `Migrations.Pallet.PostUpgrade` | pallets/migrations/src/tests.rs:366-389 | every migration's post-upgrade check is invoked once, in registry order. The result is Ok when all pass, and otherwise the error of the first failing migration, with its name and reason |
| `MigrationScenarios.UpgradeEmitsEvents` | pallets/migrations/src/tests.rs:104-117 | with no migration an upgrade emits exactly RuntimeUpgradeStarted and RuntimeUpgradeCompleted(100000000) |
| `MigrationScenarios.UpgradeChargesMaxBlockWeight` | pallets/migrations/src/tests.rs:220-228 | the weight returned by an upgrade is the maximum block weight |
| `MigrationScenarios.MigrationInvokedOnce` | pallets/migrations/src/tests.rs:119-218 | migration1's step runs once and the events are Started, MigrationStarted, MigrationCompleted(1), Completed(100000001). A second upgrade appends only Started, Completed(100000000). Rolling to block 3 adds nothing, and the block number stays 1 through both upgrades |
| `MigrationScenarios.OverweightMigrationsTolerated` | pallets/migrations/src/tests.rs:230-290 | three migrations reporting 10^12 each all run once, in order, in one upgrade, for any budget, and the pallet is fully upgraded |
| `MigrationScenarios.ClearLocalAssetsStorageWorks` | pallets/migrations/src/tests.rs:293-348 | with five legacy entries a call with limit 5 succeeds and removes them all. A later call with limit 1 fails |
| `MigrationScenarios.TryRuntimeChecksInvoked` | pallets/migrations/src/tests.rs:350-390 | the pre-upgrade and post-upgrade checks of the registered migration are both invoked, in that order, and both pass |
| `ForeignAssetCreator.ConvertRoundTrip` | pallets/foreign-asset-creator/src/lib.rs:244-251 | while the maps are mutual inverses, convert_back(id) = foreign asset exactly when convert(foreign asset) = id |
| `ForeignAssetCreator.CreatedConverts` | pallets/foreign-asset-creator/src/lib.rs:150-153 | after a create both conversions find the new pair, whatever was stored before, and every other asset id keeps its foreign asset |
| `ForeignAssetCreator.CreatePreservesInverseIff` | pallets/foreign-asset-creator/src/lib.rs:141-153 | a create on an unused asset id keeps the maps inverse exactly when the foreign asset is not registered yet, because only the asset id is checked |
| `ForeignAssetCreator.ChangePreservesInverseIff` | pallets/foreign-asset-creator/src/lib.rs:174-182 | a change keeps the maps inverse exactly when the new foreign asset is not registered yet, including the id's own current one |
| `ForeignAssetCreator.ChangeToSameForeignAssetDropsReverse` | pallets/foreign-asset-creator/src/lib.rs:177-182 | changing an id to the foreign asset it already has leaves convert_back finding it and convert not finding it |
| `ForeignAssetCreator.ChangedFixedPreservesInverseIff` | pallets/foreign-asset-creator/src/lib.rs:177-182 | with the previous reverse entry removed before the new one is written, a change keeps the maps inverse exactly when the new foreign asset is unregistered or already the id's own |
| `ForeignAssetCreator.RemovePreservesInverse` | pallets/foreign-asset-creator/src/lib.rs:200-206 | after a remove neither conversion finds the pair, and the maps stay inverse if they were |
| `ForeignAssetCreator.Pallet.CreateForeignAsset` | pallets/foreign-asset-creator/src/lib.rs:131-160 | BadOrigin, then AssetAlreadyExists when the id has a forward entry, then the Fungibles error, each leaving both maps and the events unchanged. Otherwise it writes both entries and emits ForeignAssetCreated |
| `ForeignAssetCreator.Pallet.ChangeExistingAssetType` | pallets/foreign-asset-creator/src/lib.rs:167-189 | BadOrigin, then AssetDoesNotExist, each changing nothing. Otherwise it sets forward[id] = new, writes reverse[new] = id, then removes reverse[previous], and emits ForeignAssetTypeChanged |
| `ForeignAssetCreator.Pallet.RemoveExistingAssetType` | pallets/foreign-asset-creator/src/lib.rs:194-213 | BadOrigin, then AssetDoesNotExist, each changing nothing. Otherwise it deletes exactly forward[id] and reverse[forward[id]] and emits ForeignAssetRemoved |
| `ForeignAssetCreator.Pallet.DestroyForeignAsset` | pallets/foreign-asset-creator/src/lib.rs:221-241 | as remove, but only once start_destroy succeeds. Its failure is returned with both maps unchanged. On success it emits ForeignAssetDestroyed |

## Findings

| source | as written | input that shows it | evidently intended | confidence | as-written member | corrected member |
|---|---|---|---|---|---|---|
| pallets/foreign-asset-creator/src/lib.rs:177-182 | writes the new reverse entry, then removes the reverse entry of the previous foreign asset | asset id 1 registered for foreign asset X; `change_existing_asset_type(1, X)` | the reverse entry for X stays, so `convert(X)` still returns 1 | high, not executed | `ForeignAssetCreator.ChangeToSameForeignAssetDropsReverse` | `ForeignAssetCreator.ChangedFixedPreservesInverseIff` |

`ForeignAssetCreator.Pallet.ChangeExistingAssetType` keeps the statement order
of the code as written, because the class describes the deployed pallet. The
corrected effect, `ChangedFixed`, is the one proved to keep the maps inverse.

## Left out

- The implementation file of pallet-migrations is not part of this model. Its
  behaviour comes from its unit tests, `pallets/migrations/src/tests.rs`.
- `client/consensus/nimbus/src/import_queue.rs` is not part of this model.
  It is an asynchronous block verifier built from runtime-API calls and
  import-queue plumbing.
- The number of `friendly_name` calls the tests count (tests.rs:150-156,
  183-187) is not modelled. It depends on the genesis build and on the
  implementation, neither of which is part of this model.
- Weights are unbounded naturals:
  - the proof-size component is always 0 and is dropped;
  - the u64 saturating addition of consumed weights is not modelled;
  - the overhead is the mock's constant 100000000;
  - the budget and the maximum block weight are fixed when the pallet is built.
- How the implementation derives the step budget from the block weights is
  not part of this model. A step is given the budget minus the weight already
  consumed, never less than zero.
- Rejecting a registry with duplicate migration names at startup is not
  modelled. With duplicates, the model runs a name's step only at its first
  occurrence.
- `Migrations.Pallet.ClearLocalAssetsStorage` has some behaviour that is not
  fixed by the tests:
  - which origin the implementation demands;
  - in what order storage is cleared;
  - whether a limit of zero is rejected separately.

  The model accepts signed origins, removes an arbitrary subset of the right
  size, and fails exactly when nothing is removed.
- `Migrations.Pallet.PreUpgrade` and `Migrations.Pallet.PostUpgrade`: how the
  implementation treats a failing check is not fixed by anything in this
  model. The only scenario that exercises the hooks,
  `try_runtime_functions_work` (tests.rs:350-351), has no `#[test]`
  attribute, and none of its checks fail. Two behaviours of the model are
  therefore choices:
  - every check runs, even after an earlier one failed, and the first
    failure in registry order is reported;
  - the checks run for every registered migration, including those the
    genesis build already recorded as completed.
- Storage keys are abstract numbers. Key hashing (`twox_128`,
  `Blake2_128Concat`), `commit_all` and externalities are left out.
- The mock helpers `roll_until_upgraded` and `invoke_all_upgrade_hooks` are
  not members. The scenarios call the pallet's methods in the order those
  helpers use.
- Asset semantics are left out:
  - `admin`, `is_sufficient` and `min_balance` are only forwarded to
    `Fungibles::create`;
  - the model replaces that call by its outcome.
- Dispatch weights, benchmarking, logging and storage-transaction rollback
  are left out. Every error path of the foreign-asset calls returns before
  any write, so rollback has nothing to undo.
