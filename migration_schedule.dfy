/**
 * The upgrade-migration schedule of pallet-migrations, as values.
 *
 * A migration is a named step that reports the weight it consumed. One runtime
 * upgrade visits the registry in registration order and runs the step of every
 * migration whose name is not yet in the completion ledger, whatever the steps
 * report. `Run` is that visit as a function; the lemmas below state what it does
 * to the ledger, to the list of invoked steps, to the event log and to the
 * accumulated weight.
 */
module MigrationSchedule {

  /** Weight charged by every upgrade on top of what the steps report (the mock runtime's value). */
  const UPGRADE_OVERHEAD: nat := 100_000_000

  datatype Result<T, E> = Ok(value: T) | Err(error: E)

  /** The state a pre-upgrade check hands to the post-upgrade phase. */
  type Snapshot = seq<bv8>

  /**
   * A registered migration: its friendly name, its step (weight available -> weight
   * consumed) and the outcomes of its optional try-runtime checks.
   */
  datatype Migration = Migration(
    name: string,
    step: nat -> nat,
    preUpgrade: Result<Snapshot, string>,
    postUpgrade: Result<(), string>)

  /** A migration registered without check hooks: both checks pass. */
  function Plain(name: string, step: nat -> nat): Migration
  {
    Migration(name, step, Ok([]), Ok(()))
  }

  datatype Event =
    | RuntimeUpgradeStarted
    | RuntimeUpgradeCompleted(weight: nat)
    | MigrationStarted(migrationName: string)
    | MigrationCompleted(migrationName: string, consumedWeight: nat)

  /** The names of a registry. */
  function Names(reg: seq<Migration>): set<string>
  {
    set i | 0 <= i < |reg| :: reg[i].name
  }

  predicate Distinct(s: seq<string>)
  {
    forall i, j | 0 <= i < j < |s| :: s[i] != s[j]
  }

  /** Weight left for the next step once `used` has been consumed; never negative. */
  function Available(budget: nat, used: nat): (r: nat)
    ensures r + used >= budget
    ensures used <= budget ==> r + used == budget
    ensures budget <= used ==> r == 0
  {
    if used < budget then budget - used else 0
  }

  /**
   * Reference definition of the work of one upgrade: the registry names that are
   * not completed, first occurrence only, in registration order.
   */
  function Outstanding(reg: seq<Migration>, done: set<string>): seq<string>
    decreases |reg|
  {
    if reg == [] then []
    else if reg[0].name in done then Outstanding(reg[1..], done)
    else [reg[0].name] + Outstanding(reg[1..], done + {reg[0].name})
  }

  /** Progress through one upgrade: ledger, event log, invoked steps, consumed weight. */
  datatype Progress = Progress(done: set<string>, log: seq<Event>, invoked: seq<string>, consumed: nat)

  /** The events of one visited migration. */
  function Pair(n: string, w: nat): seq<Event>
  {
    [MigrationStarted(n), MigrationCompleted(n, w)]
  }

  /** One iteration of the upgrade loop. */
  function Visit(p: Progress, m: Migration, budget: nat): Progress
  {
    if m.name in p.done then p
    else
      var w := m.step(Available(budget, p.consumed));
      Progress(p.done + {m.name},
               p.log + Pair(m.name, w),
               p.invoked + [m.name],
               p.consumed + w)
  }

  /** The upgrade loop over the rest of the registry. */
  function Run(reg: seq<Migration>, p: Progress, budget: nat): Progress
    decreases |reg|
  {
    if reg == [] then p else Run(reg[1..], Visit(p, reg[0], budget), budget)
  }

  /** Sum of the weights reported by the MigrationCompleted events of a log. */
  function ReportedWeight(log: seq<Event>): nat
    decreases |log|
  {
    if log == [] then 0
    else (if log[0].MigrationCompleted? then log[0].consumedWeight else 0) + ReportedWeight(log[1..])
  }

  /**
   * The step of the first migration registered under `n`, or a step that
   * consumes nothing when no migration is.
   */
  function StepOf(reg: seq<Migration>, n: string): nat -> nat
    decreases |reg|
  {
    if reg == [] then (_ => 0)
    else if reg[0].name == n then reg[0].step
    else StepOf(reg[1..], n)
  }

  /**
   * `log` is a MigrationStarted/MigrationCompleted pair for each of `names`, in
   * order, and each MigrationCompleted reports what its migration's step returned
   * when offered the budget minus the weight consumed before it (`consumed` at
   * the start of `log`).
   */
  predicate Bracketed(log: seq<Event>, names: seq<string>, reg: seq<Migration>, budget: nat, consumed: nat)
    decreases |names|
  {
    if names == [] then log == []
    else
      var w := StepOf(reg, names[0])(Available(budget, consumed));
      && |log| >= 2
      && log[..2] == Pair(names[0], w)
      && Bracketed(log[2..], names[1..], reg, budget, consumed + w)
  }

  lemma NamesCons(reg: seq<Migration>)
    requires reg != []
    ensures Names(reg) == {reg[0].name} + Names(reg[1..])
  {
    forall n | n in Names(reg) ensures n in {reg[0].name} + Names(reg[1..]) {
      var i :| 0 <= i < |reg| && reg[i].name == n;
      if i > 0 { assert reg[1..][i - 1].name == n; }
    }
    forall n | n in Names(reg[1..]) ensures n in Names(reg) {
      var i :| 0 <= i < |reg[1..]| && reg[1..][i].name == n;
      assert reg[i + 1].name == n;
    }
  }

  /** The outstanding names are the registered names missing from the ledger. */
  lemma {:induction false} OutstandingMembers(reg: seq<Migration>, done: set<string>)
    ensures forall n :: n in Outstanding(reg, done) <==> n in Names(reg) && n !in done
    decreases |reg|
  {
    if reg != [] {
      NamesCons(reg);
      if reg[0].name in done {
        OutstandingMembers(reg[1..], done);
      } else {
        OutstandingMembers(reg[1..], done + {reg[0].name});
      }
    }
  }

  /** No outstanding name is listed twice. */
  lemma {:induction false} OutstandingDistinct(reg: seq<Migration>, done: set<string>)
    ensures Distinct(Outstanding(reg, done))
    decreases |reg|
  {
    if reg != [] {
      var m := reg[0];
      if m.name in done {
        OutstandingDistinct(reg[1..], done);
      } else {
        var done' := done + {m.name};
        OutstandingDistinct(reg[1..], done');
        OutstandingMembers(reg[1..], done');
        var rest := Outstanding(reg[1..], done');
        var o := [m.name] + rest;
        assert Outstanding(reg, done) == o;
        forall i, j | 0 <= i < j < |o| ensures o[i] != o[j] {
          assert o[j] == rest[j - 1];
          if i > 0 {
            assert o[i] == rest[i - 1];
          } else {
            assert rest[j - 1] in rest;
          }
        }
      }
    }
  }

  /**
   * The work of one upgrade names no migration twice and no completed migration,
   * and names exactly the registered names missing from the ledger.
   */
  lemma OutstandingFacts(reg: seq<Migration>, done: set<string>)
    ensures Distinct(Outstanding(reg, done))
    ensures forall n :: n in Outstanding(reg, done) <==> n in Names(reg) && n !in done
  {
    OutstandingDistinct(reg, done);
    OutstandingMembers(reg, done);
  }

  /** Each outstanding name is invoked exactly once, and no completed name at all. */
  lemma ExactlyOnce(reg: seq<Migration>, done: set<string>, n: string)
    ensures n in Names(reg) && n !in done ==> multiset(Outstanding(reg, done))[n] == 1
    ensures n !in Names(reg) || n in done ==> multiset(Outstanding(reg, done))[n] == 0
  {
    var o := Outstanding(reg, done);
    OutstandingFacts(reg, done);
    DistinctCount(o, n);
  }

  lemma {:induction false} DistinctCount(s: seq<string>, n: string)
    requires Distinct(s)
    ensures multiset(s)[n] == if n in s then 1 else 0
    decreases |s|
  {
    if s != [] {
      assert s == [s[0]] + s[1..];
      assert Distinct(s[1..]) by {
        forall i, j | 0 <= i < j < |s[1..]| ensures s[1..][i] != s[1..][j] {
          assert s[i + 1] != s[j + 1];
        }
      }
      DistinctCount(s[1..], n);
      if s[0] == n {
        assert n !in s[1..] by {
          forall i | 0 <= i < |s[1..]| ensures s[1..][i] != n { assert s[0] != s[i + 1]; }
        }
      }
    }
  }

  /** The ledger afterwards holds every registered name. */
  lemma {:induction false} RunDone(reg: seq<Migration>, p: Progress, budget: nat)
    ensures Run(reg, p, budget).done == p.done + Names(reg)
    decreases |reg|
  {
    if reg != [] {
      RunDone(reg[1..], Visit(p, reg[0], budget), budget);
      NamesCons(reg);
    }
  }

  /**
   * Overrun tolerance: the steps invoked are exactly the outstanding names in
   * registration order, whatever weights the steps report and whatever the budget.
   */
  lemma {:induction false} RunInvokesAllOutstanding(reg: seq<Migration>, p: Progress, budget: nat)
    ensures Run(reg, p, budget).invoked == p.invoked + Outstanding(reg, p.done)
    decreases |reg|
  {
    if reg != [] {
      RunInvokesAllOutstanding(reg[1..], Visit(p, reg[0], budget), budget);
    }
  }

  /** The loop only appends to the event log. */
  lemma {:induction false} RunExtendsLog(reg: seq<Migration>, p: Progress, budget: nat)
    ensures |Run(reg, p, budget).log| >= |p.log|
    ensures Run(reg, p, budget).log[..|p.log|] == p.log
    decreases |reg|
  {
    if reg != [] {
      var q := Visit(p, reg[0], budget);
      RunExtendsLog(reg[1..], q, budget);
      var l := Run(reg, p, budget).log;
      assert q.log[..|p.log|] == p.log;
      assert l[..|p.log|] == l[..|q.log|][..|p.log|];
    }
  }

  /** The steps named in a log do not change when a migration of another name is registered in front. */
  lemma {:induction false} BracketedSkip(reg: seq<Migration>, budget: nat, consumed: nat, log: seq<Event>, names: seq<string>)
    requires reg != []
    requires forall k | 0 <= k < |names| :: names[k] != reg[0].name
    requires Bracketed(log, names, reg[1..], budget, consumed)
    ensures Bracketed(log, names, reg, budget, consumed)
    decreases |names|
  {
    if names != [] {
      assert StepOf(reg, names[0]) == StepOf(reg[1..], names[0]);
      var w := StepOf(reg[1..], names[0])(Available(budget, consumed));
      assert forall k | 0 <= k < |names[1..]| :: names[1..][k] != reg[0].name by {
        forall k | 0 <= k < |names[1..]| ensures names[1..][k] != reg[0].name {
          assert names[1..][k] == names[k + 1];
        }
      }
      BracketedSkip(reg, budget, consumed + w, log[2..], names[1..]);
    }
  }

  lemma BracketedCons(reg: seq<Migration>, budget: nat, consumed: nat, tail: seq<Event>, names: seq<string>)
    requires reg != []
    requires forall k | 0 <= k < |names| :: names[k] != reg[0].name
    requires Bracketed(tail, names, reg[1..], budget, consumed + reg[0].step(Available(budget, consumed)))
    ensures Bracketed(Pair(reg[0].name, reg[0].step(Available(budget, consumed))) + tail,
                      [reg[0].name] + names, reg, budget, consumed)
  {
    var w := reg[0].step(Available(budget, consumed));
    var l := Pair(reg[0].name, w) + tail;
    BracketedSkip(reg, budget, consumed + w, tail, names);
    assert l[..2] == Pair(reg[0].name, w) && l[2..] == tail;
    assert ([reg[0].name] + names)[1..] == names;
  }

  lemma ReportedWeightPair(n: string, w: nat, tail: seq<Event>)
    ensures ReportedWeight(Pair(n, w) + tail) == w + ReportedWeight(tail)
  {
    var l := Pair(n, w) + tail;
    assert l[1..] == [MigrationCompleted(n, w)] + tail;
    assert l[1..][1..] == tail;
  }

  /**
   * The exact event order: the events the loop appends are a MigrationStarted and
   * MigrationCompleted pair per outstanding name, in registration order, each
   * MigrationCompleted carrying the weight its step returned, and the weight
   * accumulated is the sum of the weights those events report.
   */
  lemma {:induction false} RunEvents(reg: seq<Migration>, p: Progress, budget: nat)
    ensures |Run(reg, p, budget).log| >= |p.log|
    ensures Bracketed(Run(reg, p, budget).log[|p.log|..], Outstanding(reg, p.done), reg, budget, p.consumed)
    ensures Run(reg, p, budget).consumed == p.consumed + ReportedWeight(Run(reg, p, budget).log[|p.log|..])
    decreases |reg|
  {
    RunExtendsLog(reg, p, budget);
    var r := Run(reg, p, budget);
    if reg == [] {
      assert r.log[|p.log|..] == [];
    } else {
      var m := reg[0];
      var q := Visit(p, m, budget);
      RunEvents(reg[1..], q, budget);
      RunExtendsLog(reg[1..], q, budget);
      OutstandingMembers(reg[1..], q.done);
      var rest := Outstanding(reg[1..], q.done);
      assert forall k | 0 <= k < |rest| :: rest[k] != m.name by {
        forall k | 0 <= k < |rest| ensures rest[k] != m.name {
          assert rest[k] in rest;
        }
      }
      if m.name !in p.done {
        var w := m.step(Available(budget, p.consumed));
        var tail := r.log[|q.log|..];
        assert q.log == p.log + Pair(m.name, w);
        assert r.log[|p.log|..] == Pair(m.name, w) + tail by {
          assert r.log == q.log + tail;
        }
        BracketedCons(reg, budget, p.consumed, tail, rest);
        ReportedWeightPair(m.name, w, tail);
      } else {
        BracketedSkip(reg, budget, p.consumed, r.log[|p.log|..], rest);
      }
    }
  }

  /** With nothing outstanding the loop changes nothing. */
  lemma {:induction false} RunWhenComplete(reg: seq<Migration>, p: Progress, budget: nat)
    requires Names(reg) <= p.done
    ensures Run(reg, p, budget) == p
    decreases |reg|
  {
    if reg != [] {
      NamesCons(reg);
      RunWhenComplete(reg[1..], p, budget);
    }
  }

  /**
   * Idempotence: an upgrade run from the ledger a previous upgrade left behind
   * invokes no step, appends no event and consumes nothing.
   */
  lemma SecondRunIsIdle(reg: seq<Migration>, p: Progress, budget: nat, log: seq<Event>, invoked: seq<string>)
    ensures var first := Run(reg, p, budget);
            var again := Progress(first.done, log, invoked, 0);
            Run(reg, again, budget) == again
  {
    var first := Run(reg, p, budget);
    RunDone(reg, p, budget);
    RunWhenComplete(reg, Progress(first.done, log, invoked, 0), budget);
  }

  /** Index of the first migration whose check of the given phase fails, or |reg|. */
  function FirstFailure(reg: seq<Migration>, post: bool): (k: nat)
    ensures k <= |reg|
    ensures forall i | 0 <= i < k :: CheckOf(reg[i], post).Ok?
    ensures k < |reg| ==> CheckOf(reg[k], post).Err?
    decreases |reg|
  {
    if reg == [] || CheckOf(reg[0], post).Err? then 0 else 1 + FirstFailure(reg[1..], post)
  }

  /** Outcome of a migration's pre-upgrade (post = false) or post-upgrade check. */
  function CheckOf(m: Migration, post: bool): Result<Snapshot, string>
  {
    if post then
      (match m.postUpgrade case Ok(_) => Ok([]) case Err(e) => Err(e))
    else m.preUpgrade
  }

  /** The snapshots collected by the pre-upgrade phase, keyed by migration name. */
  function Snapshots(reg: seq<Migration>): (snaps: map<string, Snapshot>)
    requires forall i | 0 <= i < |reg| :: reg[i].preUpgrade.Ok?
    ensures snaps.Keys == Names(reg)
    decreases |reg|
  {
    if reg == [] then map[]
    else
      var last := reg[|reg| - 1];
      var front := reg[..|reg| - 1];
      var snaps := Snapshots(front);
      assert Names(reg) == Names(front) + {last.name} by {
        forall n | n in Names(reg) ensures n in Names(front) + {last.name} {
          var i :| 0 <= i < |reg| && reg[i].name == n;
          if i < |reg| - 1 { assert front[i].name == n; }
        }
      }
      snaps[last.name := last.preUpgrade.value]
  }

  /**
   * Each name maps to the snapshot of the last migration registered under it
   * (the only one, when names are unique).
   */
  lemma {:induction false} SnapshotsValues(reg: seq<Migration>, i: nat)
    requires forall j | 0 <= j < |reg| :: reg[j].preUpgrade.Ok?
    requires i < |reg| && forall j | i < j < |reg| :: reg[j].name != reg[i].name
    ensures reg[i].name in Snapshots(reg)
    ensures Snapshots(reg)[reg[i].name] == reg[i].preUpgrade.value
    decreases |reg|
  {
    var front := reg[..|reg| - 1];
    if i < |reg| - 1 {
      assert front[i] == reg[i];
      assert reg[|reg| - 1].name != reg[i].name;
      SnapshotsValues(front, i);
    }
  }
}
