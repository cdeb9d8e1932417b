/**
 * pallet-migrations as a stateful object: the registry it is built with, the
 * completion ledger (MigrationState), the FullyUpgraded flag, the event log,
 * the legacy LocalAssets storage entries, and logs of the step and check
 * invocations that the tests count.
 */
module Migrations {
  import opened MigrationSchedule

  datatype Origin = Root | Signed(account: nat) | Unsigned

  datatype DispatchError = BadOrigin | NoKeysRemoved

  /** Which check of which migration was invoked, in call order. */
  datatype CheckCall = PreUpgradeCalled(name: string) | PostUpgradeCalled(name: string)

  /** A failed check, with the name of the migration it came from. */
  datatype CheckError = CheckError(migrationName: string, reason: string)

  /** Abstract key of a legacy LocalAssets storage entry. */
  type StorageKey = nat

  /** The calls recorded for the checks of `reg` in the given phase. */
  function CheckCalls(reg: seq<Migration>, post: bool): seq<CheckCall>
  {
    seq(|reg|, i requires 0 <= i < |reg| =>
      if post then PostUpgradeCalled(reg[i].name) else PreUpgradeCalled(reg[i].name))
  }

  class Pallet {
    /** The migrations of the runtime, in declared execution order. */
    const registry: seq<Migration>
    /** The weight made available to the steps of one upgrade. */
    const budget: nat
    /** The runtime's maximum block weight. */
    const maxBlock: nat

    /** MigrationState: names of the completed migrations. */
    var completed: set<string>
    /** FullyUpgraded. */
    var fullyUpgraded: bool
    /** The system event log. */
    var events: seq<Event>
    /** The system block number. */
    var blockNumber: nat
    /** Keys of the legacy LocalAssets entries still in storage. */
    var legacyEntries: set<StorageKey>
    /** Names whose step was invoked, in call order. */
    var stepCalls: seq<string>
    /** Checks invoked, in call order. */
    var checkCalls: seq<CheckCall>

    ghost predicate Valid()
      reads this
    {
      && (fullyUpgraded <==> Names(registry) <= completed)
      && Distinct(stepCalls)
      && (forall k | 0 <= k < |stepCalls| :: stepCalls[k] in completed)
    }

    /**
     * Genesis build: every registered migration except the `uncompleted` ones is
     * recorded as completed; no event, no step invoked.
     */
    constructor (registry: seq<Migration>, uncompleted: set<string>, budget: nat, maxBlock: nat,
                 legacyEntries: set<StorageKey>)
      ensures Valid()
      ensures this.registry == registry && this.budget == budget && this.maxBlock == maxBlock
      ensures completed == Names(registry) - uncompleted
      ensures fullyUpgraded <==> Names(registry) !! uncompleted
      ensures events == [] && stepCalls == [] && checkCalls == []
      ensures blockNumber == 1 && this.legacyEntries == legacyEntries
    {
      this.registry := registry;
      this.budget := budget;
      this.maxBlock := maxBlock;
      completed := Names(registry) - uncompleted;
      fullyUpgraded := Names(registry) !! uncompleted;
      events := [];
      blockNumber := 1;
      this.legacyEntries := legacyEntries;
      stepCalls := [];
      checkCalls := [];
    }

    /** Whether every registered migration has completed. */
    function IsFullyUpgraded(): (r: bool)
      reads this
      requires Valid()
      ensures r <==> forall i | 0 <= i < |registry| :: registry[i].name in completed
    {
      fullyUpgraded
    }

    /**
     * One runtime upgrade: runs the step of every uncompleted migration once, in
     * registration order, even past the budget; records each in the ledger;
     * brackets everything with RuntimeUpgradeStarted and
     * RuntimeUpgradeCompleted{overhead + consumed}; charges the maximum block weight.
     */
    method OnRuntimeUpgrade() returns (charged: nat)
      requires Valid()
      modifies this`completed, this`fullyUpgraded, this`events, this`stepCalls
      ensures Valid()
      ensures charged == maxBlock
      ensures var r := Run(registry, Progress(old(completed), old(events) + [RuntimeUpgradeStarted], old(stepCalls), 0), budget);
              && completed == r.done
              && stepCalls == r.invoked
              && events == r.log + [RuntimeUpgradeCompleted(UPGRADE_OVERHEAD + r.consumed)]
      ensures completed == old(completed) + Names(registry) && fullyUpgraded
      ensures stepCalls == old(stepCalls) + Outstanding(registry, old(completed))
      ensures old(fullyUpgraded) ==>
                stepCalls == old(stepCalls)
                && events == old(events) + [RuntimeUpgradeStarted, RuntimeUpgradeCompleted(UPGRADE_OVERHEAD)]
    {
      ghost var start := Progress(completed, events + [RuntimeUpgradeStarted], stepCalls, 0);
      assert forall k | 0 <= k < |start.invoked| :: start.invoked[k] in start.done;
      fullyUpgraded := false;
      events := events + [RuntimeUpgradeStarted];
      var consumed := 0;
      for i := 0 to |registry|
        invariant Run(registry[i..], Progress(completed, events, stepCalls, consumed), budget)
                  == Run(registry, start, budget)
      {
        var m := registry[i];
        assert registry[i..][0] == m && registry[i..][1..] == registry[i + 1..];
        ghost var before := Progress(completed, events, stepCalls, consumed);
        if m.name !in completed {
          events := events + [MigrationStarted(m.name)];
          var w := m.step(Available(budget, consumed));
          stepCalls := stepCalls + [m.name];
          events := events + [MigrationCompleted(m.name, w)];
          completed := completed + {m.name};
          consumed := consumed + w;
          assert before.log + Pair(m.name, w) == events;
        }
        assert Visit(before, m, budget) == Progress(completed, events, stepCalls, consumed);
      }
      assert registry[|registry|..] == [];
      events := events + [RuntimeUpgradeCompleted(UPGRADE_OVERHEAD + consumed)];
      fullyUpgraded := true;
      charged := maxBlock;

      RunDone(registry, start, budget);
      RunInvokesAllOutstanding(registry, start, budget);
      OutstandingFacts(registry, old(completed));
      ghost var newCalls := Outstanding(registry, old(completed));
      forall i, j | 0 <= i < j < |stepCalls| ensures stepCalls[i] != stepCalls[j] {
        if j >= |old(stepCalls)| {
          if i >= |old(stepCalls)| {
            assert stepCalls[i] == newCalls[i - |old(stepCalls)|];
          } else {
            assert stepCalls[i] in old(completed);
          }
          assert stepCalls[j] == newCalls[j - |old(stepCalls)|];
        }
      }
      assert completed == old(completed) + Names(registry);
      forall k | 0 <= k < |stepCalls| ensures stepCalls[k] in completed {
        if k >= |old(stepCalls)| {
          assert stepCalls[k] == newCalls[k - |old(stepCalls)|];
          assert stepCalls[k] in newCalls;
          assert stepCalls[k] in Names(registry);
        } else {
          assert stepCalls[k] == start.invoked[k];
          assert stepCalls[k] in start.done;
        }
      }
      if old(fullyUpgraded) {
        RunWhenComplete(registry, start, budget);
      }
    }

    /** Ordinary block production: the pallet's hooks do no migration work and emit nothing. */
    method RollTo(n: nat)
      requires Valid()
      modifies this`blockNumber
      ensures Valid()
      ensures blockNumber == if old(blockNumber) < n then n else old(blockNumber)
    {
      while blockNumber < n
        invariant old(blockNumber) <= blockNumber
        invariant blockNumber <= n || blockNumber == old(blockNumber)
      {
        blockNumber := blockNumber + 1;
      }
    }

    /**
     * clear_local_assets_storage: a signed caller removes at most `limit` legacy
     * LocalAssets entries; the call fails when it removes nothing.
     */
    method ClearLocalAssetsStorage(origin: Origin, limit: nat) returns (r: Result<(), DispatchError>)
      modifies this`legacyEntries
      ensures !origin.Signed? ==> r == Err(BadOrigin) && legacyEntries == old(legacyEntries)
      ensures origin.Signed? ==>
                && legacyEntries <= old(legacyEntries)
                && |old(legacyEntries)| - |legacyEntries| == if limit < |old(legacyEntries)| then limit else |old(legacyEntries)|
      ensures origin.Signed? ==> (r.Ok? <==> limit > 0 && old(legacyEntries) != {})
      ensures r.Err? && origin.Signed? ==> r == Err(NoKeysRemoved) && legacyEntries == old(legacyEntries)
    {
      if !origin.Signed? {
        return Err(BadOrigin);
      }
      var removed := 0;
      while removed < limit && legacyEntries != {}
        invariant legacyEntries <= old(legacyEntries)
        invariant removed <= limit
        invariant |old(legacyEntries)| - |legacyEntries| == removed
        invariant removed == 0 ==> legacyEntries == old(legacyEntries)
        decreases legacyEntries
      {
        var key :| key in legacyEntries;
        legacyEntries := legacyEntries - {key};
        removed := removed + 1;
      }
      if removed == 0 {
        return Err(NoKeysRemoved);
      }
      r := Ok(());
    }

    /**
     * Runs the check of the given phase of every registered migration, in order,
     * failed or not; returns the index of the first that failed (|registry| when
     * all passed) and, for the pre-upgrade phase, the snapshots collected.
     */
    method RunChecks(post: bool) returns (k: nat, snaps: map<string, Snapshot>)
      modifies this`checkCalls
      ensures k == FirstFailure(registry, post)
      ensures checkCalls == old(checkCalls) + CheckCalls(registry, post)
      ensures !post && k == |registry| ==> snaps == Snapshots(registry)
    {
      k := |registry|;
      snaps := map[];
      for i := 0 to |registry|
        invariant k <= |registry|
        invariant k == |registry| ==> forall j | 0 <= j < i :: CheckOf(registry[j], post).Ok?
        invariant k < |registry| ==> k < i && k == FirstFailure(registry, post)
        invariant checkCalls == old(checkCalls) + CheckCalls(registry[..i], post)
        invariant !post && k == |registry| ==> snaps == Snapshots(registry[..i])
      {
        var m := registry[i];
        checkCalls := checkCalls + [if post then PostUpgradeCalled(m.name) else PreUpgradeCalled(m.name)];
        assert CheckCalls(registry[..i + 1], post) == CheckCalls(registry[..i], post) + [checkCalls[|checkCalls| - 1]];
        if k == |registry| {
          if CheckOf(m, post).Err? {
            FirstFailureAt(registry, post, i);
            k := i;
          } else if !post {
            assert registry[..i + 1][..i] == registry[..i];
            snaps := snaps[m.name := m.preUpgrade.value];
          }
        }
      }
      assert registry[..|registry|] == registry;
      if k == |registry| {
        FirstFailureAt(registry, post, |registry|);
      }
    }

    /**
     * try-runtime pre_upgrade: runs every migration's pre-upgrade check and
     * collects their snapshots by name; fails with the name of the first that fails.
     */
    method PreUpgrade() returns (r: Result<map<string, Snapshot>, CheckError>)
      modifies this`checkCalls
      ensures checkCalls == old(checkCalls) + CheckCalls(registry, false)
      ensures var k := FirstFailure(registry, false);
              && (r.Ok? <==> k == |registry|)
              && (r.Ok? ==> r.value == Snapshots(registry))
              && (r.Err? ==> r.error == CheckError(registry[k].name, registry[k].preUpgrade.error))
    {
      var k, snaps := RunChecks(false);
      if k < |registry| {
        r := Err(CheckError(registry[k].name, registry[k].preUpgrade.error));
      } else {
        r := Ok(snaps);
      }
    }

    /**
     * try-runtime post_upgrade: runs every migration's post-upgrade check; fails
     * with the name of the first that fails.
     */
    method PostUpgrade() returns (r: Result<(), CheckError>)
      modifies this`checkCalls
      ensures checkCalls == old(checkCalls) + CheckCalls(registry, true)
      ensures var k := FirstFailure(registry, true);
              && (r.Ok? <==> k == |registry|)
              && (r.Err? ==> r.error == CheckError(registry[k].name, registry[k].postUpgrade.error))
    {
      var k, _ := RunChecks(true);
      if k < |registry| {
        r := Err(CheckError(registry[k].name, registry[k].postUpgrade.error));
      } else {
        r := Ok(());
      }
    }
  }

  /** The first failing check is the first index whose check fails. */
  lemma {:induction false} FirstFailureAt(reg: seq<Migration>, post: bool, k: nat)
    requires k <= |reg|
    requires forall i | 0 <= i < k :: CheckOf(reg[i], post).Ok?
    requires k < |reg| ==> CheckOf(reg[k], post).Err?
    ensures FirstFailure(reg, post) == k
    decreases k
  {
    if k > 0 {
      FirstFailureAt(reg[1..], post, k - 1);
    }
  }
}
