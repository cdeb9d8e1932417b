/**
 * The scenarios of pallet-migrations' unit tests, replayed on the model. Each
 * method builds the pallet as the mock's genesis does and states, in its
 * postcondition, what the scenario observes.
 */
module MigrationScenarios {
  import opened MigrationSchedule
  import opened Migrations

  const MIGRATION_WEIGHT: nat := 1_000_000_000_000

  /** An upgrade with no registered migration emits only the bracketing pair. */
  method UpgradeEmitsEvents(budget: nat, maxBlock: nat) returns (events: seq<Event>)
    ensures events == [RuntimeUpgradeStarted, RuntimeUpgradeCompleted(100_000_000)]
  {
    var pallet := new Pallet([], {}, budget, maxBlock, {});
    var _ := pallet.OnRuntimeUpgrade();
    events := pallet.events;
  }

  /** The weight an upgrade returns is the maximum block weight. */
  method UpgradeChargesMaxBlockWeight(budget: nat, maxBlock: nat) returns (charged: nat)
    ensures charged == maxBlock
  {
    var pallet := new Pallet([], {}, budget, maxBlock, {});
    charged := pallet.OnRuntimeUpgrade();
  }

  /**
   * One uncompleted migration reporting weight 1: the first upgrade runs its step
   * once, the second runs nothing, and later blocks emit nothing.
   */
  method MigrationInvokedOnce(budget: nat, maxBlock: nat)
    returns (first: seq<Event>, second: seq<Event>, later: seq<Event>, steps: seq<string>, block: nat)
    ensures first == [RuntimeUpgradeStarted,
                      MigrationStarted("migration1"),
                      MigrationCompleted("migration1", 1),
                      RuntimeUpgradeCompleted(100_000_001)]
    ensures second == first + [RuntimeUpgradeStarted, RuntimeUpgradeCompleted(100_000_000)]
    ensures later == second
    ensures steps == ["migration1"]
    ensures block == 1
  {
    var m := Plain("migration1", _ => 1);
    var pallet := new Pallet([m], {"migration1"}, budget, maxBlock, {});
    assert [m][0].name in Names([m]);
    var _ := pallet.OnRuntimeUpgrade();
    assert pallet.blockNumber == 1;
    first := pallet.events;
    var _ := pallet.OnRuntimeUpgrade();
    assert pallet.blockNumber == 1;
    second := pallet.events;
    block := pallet.blockNumber;
    pallet.RollTo(3);
    later := pallet.events;
    steps := pallet.stepCalls;
  }

  /**
   * Three uncompleted migrations each reporting 10^12 weight: one upgrade runs all
   * three steps exactly once, in order, whatever the budget, and leaves the
   * pallet fully upgraded.
   */
  method OverweightMigrationsTolerated(budget: nat, maxBlock: nat) returns (steps: seq<string>, upgraded: bool)
    ensures steps == ["migration1", "migration2", "migration3"]
    ensures upgraded
  {
    var reg := [Plain("migration1", _ => MIGRATION_WEIGHT),
                Plain("migration2", _ => MIGRATION_WEIGHT),
                Plain("migration3", _ => MIGRATION_WEIGHT)];
    var pallet := new Pallet(reg, {"migration1", "migration2", "migration3"}, budget, maxBlock, {});
    assert reg[0].name in Names(reg) && reg[1].name in Names(reg) && reg[2].name in Names(reg);
    assert Names(reg) == {"migration1", "migration2", "migration3"};
    var _ := pallet.OnRuntimeUpgrade();
    steps := pallet.stepCalls;
    upgraded := pallet.IsFullyUpgraded();
  }

  /**
   * Five legacy entries: a signed call with limit 5 succeeds and removes them all;
   * a later call finds nothing to remove and fails.
   */
  method ClearLocalAssetsStorageWorks()
    returns (first: Result<(), DispatchError>, remaining: set<StorageKey>, second: Result<(), DispatchError>)
    ensures first.Ok? && remaining == {} && second.Err?
  {
    var pallet := new Pallet([], {}, 0, 0, {0, 1, 2, 3, 4});
    assert |{0, 1, 2, 3, 4}| == 5;
    first := pallet.ClearLocalAssetsStorage(Signed(1), 5);
    remaining := pallet.legacyEntries;
    second := pallet.ClearLocalAssetsStorage(Signed(1), 1);
  }

  /** With the try-runtime checks, the migration's pre- and post-upgrade checks are both invoked. */
  method TryRuntimeChecksInvoked(budget: nat, maxBlock: nat)
    returns (pre: Result<map<string, Snapshot>, CheckError>, post: Result<(), CheckError>, calls: seq<CheckCall>)
    ensures pre == Ok(map["dummy_step" := []]) && post.Ok?
    ensures calls == [PreUpgradeCalled("dummy_step"), PostUpgradeCalled("dummy_step")]
  {
    var m := Migration("dummy_step", _ => 0, Ok([]), Ok(()));
    var pallet := new Pallet([m], {}, budget, maxBlock, {});
    assert [m][1..] == [] && [m][..0] == [];
    assert FirstFailure([m], false) == 1 by { assert CheckOf(m, false).Ok?; }
    assert FirstFailure([m], true) == 1 by { assert CheckOf(m, true).Ok?; }
    assert Snapshots([m]) == map["dummy_step" := []];
    assert CheckCalls([m], false) == [PreUpgradeCalled("dummy_step")];
    assert CheckCalls([m], true) == [PostUpgradeCalled("dummy_step")];
    pre := pallet.PreUpgrade();
    var _ := pallet.OnRuntimeUpgrade();
    post := pallet.PostUpgrade();
    calls := pallet.checkCalls;
  }
}
