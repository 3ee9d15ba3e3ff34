/** Runs that die and are run again, and taking a migration back. */
module MigrationRollback {
  import opened Protocol
  import opened Migration
  import opened MigrationRun

  // ---------------------------------------------------------------- crashes

  /** Finished is finished: however the runs got there, files and receipt are the same. */
  lemma CompleteIsUnique(a: map<Path, Bytes>, fa: Folder, b: map<Path, Bytes>, fb: Folder, plan: Plan, source: Source,
                         before: map<Path, Bytes>)
    requires ValidSource(source)
    requires Complete(a, fa, plan, source, before) && Complete(b, fb, plan, source, before)
    ensures a == b && fa.receipt == fb.receipt
  {
    PublishedIsUnique(a, b, before, source);
  }

  /** Enough power for any run of the plan, whatever earlier runs of it have left staged. */
  function EnoughPower(plan: Plan, source: Source, staged: nat): nat {
    |Created(plan.body.targets)| + (if staged < |source.artifacts| then |source.artifacts| else staged)
    + InstallSteps(plan, source)
  }

  /** Any number of runs that die anywhere, then one that does not lose power: the plan is applied,
      with the receipt and the files of a run that never died; and one more run changes nothing. How
      much power is enough depends on the plan and the source alone, and on what was staged at first. */
  method ApplyThroughCrashes(disk: Disk, plan: Plan, source: Source, crashes: seq<nat>, last: nat)
    returns (r: Result<Receipt, MigrationError>, again: Result<Receipt, MigrationError>)
    requires disk.Valid() && Fresh(plan, source, disk.root, disk.data)
    requires disk.folder.plan == Missing && disk.folder.operation == Missing && disk.folder.receipt == Missing
    modifies disk
    ensures disk.Valid() && Underway(disk.data, disk.folder, plan, source, old(disk.data))
    ensures disk.folder.rollback == old(disk.folder.rollback)
    ensures r.Err? ==> r.error == PowerLost
    ensures last > EnoughPower(plan, source, |old(disk.folder.staging)|) ==> r.Ok?
    ensures r.Ok? ==>
              && r.value == ReceiptOf(plan) && Complete(disk.data, disk.folder, plan, source, old(disk.data))
              && again == r
  {
    hide Fresh, Published, Complete, Applied, Created, Lawful;
    FreshAgrees(plan, source, disk.root, disk.data);
    ghost var before := disk.data;
    ghost var staged :=
      if |disk.folder.staging| < |source.artifacts| then |source.artifacts| else |disk.folder.staging|;
    PartialAtFirst(before, source);
    for i := 0 to |crashes|
      invariant disk.Valid() && Underway(disk.data, disk.folder, plan, source, before)
      invariant |disk.folder.staging| <= staged && disk.folder.rollback == old(disk.folder.rollback)
    {
      disk.NewRun(disk.data, disk.folder, crashes[i]);
      var _ := Apply(disk, plan, plan.hash, Ok(source), before);
    }
    disk.NewRun(disk.data, disk.folder, last);
    r := Apply(disk, plan, plan.hash, Ok(source), before);
    again := r;
    if r.Ok? {
      ghost var folder := disk.folder;
      CompleteHasReceipt(disk.data, disk.folder, plan, source, before);
      disk.NewRun(disk.data, disk.folder, 1);
      again := Apply(disk, plan, plan.hash, Ok(source), before);
    }
  }

  lemma CompleteHasReceipt(data: map<Path, Bytes>, folder: Folder, plan: Plan, source: Source, before: map<Path, Bytes>)
    requires Complete(data, folder, plan, source, before)
    ensures folder.receipt != Missing
  {
  }

  // ---------------------------------------------------------------- rollback

  /** The records on disk are this receipt's own. */
  ghost predicate Chained(folder: Folder, receipt: Receipt) {
    && folder.plan.Holds? && folder.operation.Holds?
    && ReceiptAgrees(receipt, folder.plan.value, folder.operation.value)
  }

  ghost predicate AllInPlace(data: map<Path, Bytes>, receipt: Receipt) {
    AllIntact(data, receipt.body.created + receipt.body.reused)
  }

  /** Takes a migration back. It removes only files that still are what the plan created, and only when
      every target, reused ones included, is in place. */
  method Rollback(disk: Disk, receipt: Receipt, confirmation: Digest, source: Result<Digest, MigrationError>)
    returns (r: Result<Report, MigrationError>)
    requires disk.Valid()
    requires source.Err? ==> source.error != TargetChanged
    modifies disk`data, disk`folder, disk`power, disk`steps
    ensures disk.Valid() && disk.folder == old(disk.folder).(rollback := disk.folder.rollback)
    ensures Lawful(old(disk.steps), disk.steps, receipt.body.created)
    ensures Shrunk(old(disk.data), disk.data, receipt.body.created)
    ensures ValidReceipt(receipt) && confirmation == receipt.hash && Chained(old(disk.folder), receipt)
            && old(disk.folder.rollback) == Missing && AllInPlace(old(disk.data), receipt) ==>
              var created := receipt.body.created;
              var k := Smaller(old(disk.power), |created|);
              && disk.data == old(disk.data) - PathsOf(LastOf(created, k))
              && (r.Ok? <==> old(disk.power) > |created| && source.Ok?)
    ensures ValidReceipt(receipt) && confirmation == receipt.hash && Chained(old(disk.folder), receipt) ==>
              if old(disk.folder.rollback) == Missing then
                && (r == Err(TargetChanged) <==> !AllInPlace(old(disk.data), receipt))
                && (r == Err(TargetChanged) ==> disk.data == old(disk.data) && disk.folder == old(disk.folder))
                && (r.Ok? ==>
                      && disk.data == old(disk.data) - PathsOf(receipt.body.created)
                      && r.value == Report(receipt.body.id, receipt.hash,
                                           source.Ok? && source.value == receipt.body.fingerprint,
                                           |receipt.body.reused|, true)
                      && disk.folder.rollback == Holds(r.value))
                && (r.Err? && r.error != TargetChanged ==>
                      && disk.folder == old(disk.folder)
                      && ((r.error == PowerLost && old(disk.power) <= |receipt.body.created|)
                          || (source.Err? && r.error == source.error)))
              else
                && disk.data == old(disk.data) && disk.folder == old(disk.folder)
                && r == if old(disk.folder.rollback).Holds? then Ok(old(disk.folder.rollback).value)
                        else Err(ReceiptInvalid)
    ensures !(ValidReceipt(receipt) && confirmation == receipt.hash && Chained(old(disk.folder), receipt)) ==>
              && r == Err(if ValidReceipt(receipt) && confirmation != receipt.hash then Unconfirmed else ReceiptInvalid)
              && disk.data == old(disk.data) && disk.folder == old(disk.folder)
  {
    hide OwnedStep, Created, Reused, ValidOperation, ValidPlan, Disk.Valid, Lawful, Shrunk, PathsOf, ValidReceipt,
         AgreesWithPlan, Removable, AllIntact, DistinctPaths;
    LawfulAtFirst(disk.steps, receipt.body.created);
    ShrunkNot(disk.data, receipt.body.created);
    if !ValidReceipt(receipt) {
      return Err(ReceiptInvalid);
    }
    if confirmation != receipt.hash {
      return Err(Unconfirmed);
    }
    var durable := LoadOwnership(disk);
    if durable.Err? {
      return Err(durable.error);
    }
    var operation := durable.value.1;
    if !ReceiptAgrees(receipt, durable.value.0, operation) {
      return Err(ReceiptInvalid);
    }
    if disk.folder.rollback != Missing {
      return if disk.folder.rollback.Holds? then Ok(disk.folder.rollback.value) else Err(ReceiptInvalid);
    }
    var verified := VerifyTargets(disk, receipt.body.created + receipt.body.reused);
    if verified.Err? {
      return Err(verified.error);
    }
    InPlaceIsRemovable(disk.data, receipt.body.created, receipt.body.reused);
    OwnedOnce(receipt);
    var removed := RollbackCreated(disk, operation.body.created);
    if removed.Err? {
      return Err(removed.error);
    }
    if source.Err? {
      return Err(source.error);
    }
    var report := Report(receipt.body.id, receipt.hash, source.value == receipt.body.fingerprint,
                         |receipt.body.reused|, true);
    var written := disk.SetFolder(disk.folder.(rollback := Holds(report)));
    return if written.Ok? then Ok(report) else Err(written.error);
  }

  lemma OwnedOnce(receipt: Receipt)
    requires ValidReceipt(receipt)
    ensures DistinctPaths(receipt.body.created)
  {
    var created, all := receipt.body.created, receipt.body.created + receipt.body.reused;
    assert forall i :: 0 <= i < |created| ==> created[i] == all[i];
  }

  lemma InPlaceIsRemovable(data: map<Path, Bytes>, created: seq<Owned>, reused: seq<Owned>)
    requires AllIntact(data, created + reused)
    ensures Removable(data, created) && AllIntact(data, created)
  {
    assert forall k :: 0 <= k < |created| ==> created[k] == (created + reused)[k];
    forall t | t in created && t.path in data ensures Intact(data, t) {
      var k :| 0 <= k < |created| && created[k] == t;
      assert Intact(data, (created + reused)[k]);
    }
  }

  /** Taking a finished migration back restores exactly the files from before it. */
  lemma RollbackRestores(data: map<Path, Bytes>, next: map<Path, Bytes>, folder: Folder, plan: Plan, source: Source,
                         root: nat, before: map<Path, Bytes>)
    requires Fresh(plan, source, root, before) && Complete(data, folder, plan, source, before)
    requires next == data - PathsOf(ReceiptOf(plan).body.created)
    ensures next == before
  {
    ShrunkAway(data, PathsOf(Created(plan.body.targets)), Created(plan.body.targets));
    ShrunkStaysPartial(data, next, plan, source, root, before);
  }

  lemma ShrunkAway(data: map<Path, Bytes>, gone: set<Path>, owned: seq<Owned>)
    requires gone == PathsOf(owned)
    ensures Shrunk(data, data - gone, owned)
  {
  }

  lemma CompleteIsChained(data: map<Path, Bytes>, folder: Folder, plan: Plan, source: Source, root: nat,
                          before: map<Path, Bytes>)
    requires Fresh(plan, source, root, before) && Complete(data, folder, plan, source, before)
    ensures ValidReceipt(ReceiptOf(plan)) && Chained(folder, ReceiptOf(plan)) && AllInPlace(data, ReceiptOf(plan))
  {
    FreshAgrees(plan, source, root, before);
    PublishedIsIntact(data, plan, source, root, before);
  }

  /** Applying and then taking back leaves the files exactly as they were, reused ones included. */
  method ApplyThenRollback(disk: Disk, plan: Plan, source: Source, applyPower: nat, rollbackPower: nat)
    returns (applied: Result<Receipt, MigrationError>, back: Result<Report, MigrationError>)
    requires disk.Valid() && Fresh(plan, source, disk.root, disk.data)
    requires disk.folder.plan == Missing && disk.folder.operation == Missing && disk.folder.receipt == Missing
    requires disk.folder.rollback == Missing
    modifies disk
    ensures applied.Ok? && back.Ok? ==>
              disk.data == old(disk.data) && back.value.rolledBack && disk.folder.rollback == Holds(back.value)
    ensures applied.Ok? ==> if rollbackPower > |Created(plan.body.targets)| then back.Ok? else back == Err(PowerLost)
    ensures applied.Err? ==> applied.error == PowerLost && applyPower <= ApplySteps(plan, source, old(disk.folder))
  {
    hide Fresh, Published, Complete, Applied, Created, Lawful, Shrunk, AllInPlace, Chained, PathsOf, ValidReceipt,
         LastOf, Smaller, ReceiptStands, AllIntact, Reused;
    FreshAgrees(plan, source, disk.root, disk.data);
    ghost var before := disk.data;
    PartialAtFirst(before, source);
    disk.NewRun(disk.data, disk.folder, applyPower);
    applied := Apply(disk, plan, plan.hash, Ok(source), before);
    back := Err(ReceiptInvalid);
    if applied.Ok? {
      CompleteIsChained(disk.data, disk.folder, plan, source, disk.root, before);
      ghost var data, folder := disk.data, disk.folder;
      disk.NewRun(disk.data, disk.folder, rollbackPower);
      back := Rollback(disk, applied.value, applied.value.hash, Ok(source.fingerprint));
      if back.Ok? {
        RollbackRestores(data, disk.data, folder, plan, source, disk.root, before);
      }
    }
  }

  lemma CompleteStands(data: map<Path, Bytes>, folder: Folder, plan: Plan, source: Source, root: nat,
                       before: map<Path, Bytes>)
    requires Fresh(plan, source, root, before) && Complete(data, folder, plan, source, before)
    ensures ReceiptStands(folder, plan) && plan.body.collisions == [] && folder.receipt != Missing
  {
    FreshAgrees(plan, source, root, before);
  }

  /** A file removed is a target missing. */
  lemma TornIsNotInPlace(data: map<Path, Bytes>, next: map<Path, Bytes>, folder: Folder, plan: Plan, source: Source,
                         root: nat, before: map<Path, Bytes>)
    requires Fresh(plan, source, root, before) && Complete(data, folder, plan, source, before)
    requires Shrunk(data, next, ReceiptOf(plan).body.created)
    ensures AllInPlace(next, ReceiptOf(plan)) <==> next == data
  {
    CompleteIsChained(data, folder, plan, source, root, before);
    ShrunkStaysPartial(data, next, plan, source, root, before);
    PublishedIsIntact(next, plan, source, root, before);
    if AllInPlace(next, ReceiptOf(plan)) {
      PublishedIsUnique(data, next, before, source);
    }
  }

  /** The files a rollback leaves that could still remove `power` files. */
  function LeftBy(data: map<Path, Bytes>, plan: Plan, power: nat): map<Path, Bytes> {
    var created := Created(plan.body.targets);
    data - PathsOf(LastOf(created, Smaller(power, |created|)))
  }

  lemma LosesSome(data: map<Path, Bytes>, owned: seq<Owned>, k: nat)
    requires AllIntact(data, owned) && k <= |owned|
    ensures data - PathsOf(LastOf(owned, k)) != data <==> k > 0
  {
    var gone := LastOf(owned, k);
    if k == 0 {
      assert PathsOf(gone) == {};
    } else {
      assert gone[k - 1] == owned[|owned| - 1] && Intact(data, owned[|owned| - 1]);
      hide Intact;
      var path := gone[k - 1].path;
      assert path in PathsOf(gone) && path in data;
      assert path !in data - PathsOf(gone);
    }
  }

  /** What a rollback leaves is short of files as soon as it could remove one. */
  lemma LeavesLess(data: map<Path, Bytes>, folder: Folder, plan: Plan, source: Source, root: nat,
                   before: map<Path, Bytes>, power: nat)
    requires Fresh(plan, source, root, before) && Complete(data, folder, plan, source, before)
    ensures LeftBy(data, plan, power) != data <==> power > 0 && Created(plan.body.targets) != []
  {
    hide Fresh, Complete, Created, Reused, PathsOf, LastOf, AllIntact, ValidReceipt, Chained;
    CompleteIsChained(data, folder, plan, source, root, before);
    var created := Created(plan.body.targets);
    InPlaceIsRemovable(data, created, Reused(plan.body.targets));
    LosesSome(data, created, Smaller(power, |created|));
  }

  /** A rollback that failed after it removed a file, because it died or because the source had become
      unreadable, cannot be resumed: another rollback and another apply then both refuse. It has removed
      one exactly when it had any power and the plan any file to remove. Otherwise it can be run again. */
  method ResumeRollback(disk: Disk, plan: Plan, source: Source, ghost before: map<Path, Bytes>,
                        first: nat, readFirst: Result<Digest, MigrationError>,
                        second: nat, readSecond: Result<Digest, MigrationError>)
    returns (failed: Result<Report, MigrationError>, ghost mid: map<Path, Bytes>, back: Result<Report, MigrationError>,
             redo: Result<Receipt, MigrationError>)
    requires disk.Valid() && Fresh(plan, source, disk.root, before)
    requires Complete(disk.data, disk.folder, plan, source, before) && disk.folder.rollback == Missing
    requires readFirst.Err? ==> readFirst.error != TargetChanged
    requires readSecond.Err? ==> readSecond.error != TargetChanged
    modifies disk
    ensures mid == LeftBy(old(disk.data), plan, first)
    ensures mid != old(disk.data) <==> first > 0 && Created(plan.body.targets) != []
    ensures failed.Ok? <==> first > |Created(plan.body.targets)| && readFirst.Ok?
    ensures failed.Err? ==> (back == Err(TargetChanged) <==> mid != old(disk.data))
    ensures failed.Err? && mid != old(disk.data) ==> redo == Err(TargetChanged)
    ensures failed.Err? && mid == old(disk.data) ==>
              && (back.Ok? <==> second > |Created(plan.body.targets)| && readSecond.Ok?)
              && (back.Ok? ==> disk.data == before && back.value.rolledBack)
  {
    hide Fresh, Published, Complete, Applied, Created, Reused, Lawful, Shrunk, AllInPlace, Chained, PathsOf,
         ValidReceipt, ReceiptStands, AllIntact, LeftBy;
    ghost var data, folder := disk.data, disk.folder;
    FreshAgrees(plan, source, disk.root, before);
    CompleteIsChained(data, folder, plan, source, disk.root, before);
    CompleteStands(data, folder, plan, source, disk.root, before);
    var receipt := if disk.folder.receipt.Holds? then disk.folder.receipt.value else ReceiptOf(plan);
    CompleteReceipt(data, folder, plan, source, before);
    LeavesLess(data, folder, plan, source, disk.root, before, first);
    disk.NewRun(disk.data, disk.folder, first);
    failed := Rollback(disk, receipt, receipt.hash, readFirst);
    mid := disk.data;
    LeftIs(data, plan, first);
    TornIsNotInPlace(data, mid, folder, plan, source, disk.root, before);
    disk.NewRun(disk.data, disk.folder, second);
    back := Rollback(disk, receipt, receipt.hash, readSecond);
    ghost var after := disk.data;
    disk.NewRun(disk.data, disk.folder, second);
    redo := Apply(disk, plan, plan.hash, Ok(source), before);
    if failed.Err? {
      InPlaceMeans(mid, plan);
      if mid == data && back.Ok? {
        RollbackRestores(data, after, folder, plan, source, disk.root, before);
      }
    }
  }

  lemma LeftIs(data: map<Path, Bytes>, plan: Plan, power: nat)
    ensures var created := ReceiptOf(plan).body.created;
            LeftBy(data, plan, power) == data - PathsOf(LastOf(created, Smaller(power, |created|)))
  {
  }

  lemma CompleteReceipt(data: map<Path, Bytes>, folder: Folder, plan: Plan, source: Source, before: map<Path, Bytes>)
    requires Complete(data, folder, plan, source, before)
    ensures folder.receipt == Holds(ReceiptOf(plan))
  {
  }

  lemma InPlaceMeans(data: map<Path, Bytes>, plan: Plan)
    ensures AllInPlace(data, ReceiptOf(plan))
            <==> AllIntact(data, Created(plan.body.targets) + Reused(plan.body.targets))
  {
  }

  // ---------------------------------------------------------------- it happens

  /** A source of one file. */
  function OneFile(): Source { Source(1, OfTree(1), 1, 1, [Artifact(ConfigFile, [7])]) }

  lemma OneFileIsFresh(plan: Plan)
    requires plan == PlanFor(OneFile(), 0, map[])
    ensures Fresh(plan, OneFile(), 0, map[]) && |Created(plan.body.targets)| == 1
  {
    var targets := plan.body.targets;
    assert targets == [TargetFor(map[], Artifact(ConfigFile, [7]))];
    assert targets[..0] == [] && Created([]) == [];
    assert OneFile().artifacts[..0] == [];
  }

  /** Migrating one file onto an empty disk and taking it back: a rollback that dies after its one
      removal, or that finds the source unreadable after it, leaves a state from which neither another
      rollback nor another apply gets anywhere, however much power they have. */
  method TornRollback(power: nat, first: nat, readFirst: Result<Digest, MigrationError>)
    returns (back: Result<Report, MigrationError>, redo: Result<Receipt, MigrationError>)
    requires readFirst.Err? ==> readFirst.error != TargetChanged
    requires first == 1 || (first > 1 && readFirst.Err?)
    ensures back == Err(TargetChanged) && redo == Err(TargetChanged)
  {
    hide Fresh, Complete, LeftBy, Created, InstallSteps, PlanFor;
    var source := OneFile();
    var plan := PlanFor(source, 0, map[]);
    OneFileIsFresh(plan);
    var disk := new Disk(0, map[], Folder(Missing, Missing, [], Missing, Missing));
    InstallOne(plan);
    var applied, _ := ApplyThroughCrashes(disk, plan, source, [], 9);
    var failed;
    ghost var mid;
    failed, mid, back, redo :=
      ResumeRollback(disk, plan, source, map[], first, readFirst, power, Ok(source.fingerprint));
  }

  lemma InstallOne(plan: Plan)
    requires |Created(plan.body.targets)| == 1
    ensures InstallSteps(plan, OneFile()) == 6
  {
  }
}
