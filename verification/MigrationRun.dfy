/** Applying a migration: recovery, durable ownership, staging, publishing, receipt. */
module MigrationRun {
  import opened Protocol
  import opened Migration

  // ---------------------------------------------------------------- what a plan owns

  ghost predicate FromTarget(t: Owned, targets: seq<Target>, d: Disposition) {
    exists i :: 0 <= i < |targets| && targets[i].disposition == d && t == OwnedOf(targets[i])
  }

  lemma FromEarlier(t: Owned, targets: seq<Target>, d: Disposition)
    requires targets != [] && FromTarget(t, targets[..|targets| - 1], d)
    ensures FromTarget(t, targets, d)
  {
    var i :| 0 <= i < |targets| - 1 && targets[..|targets| - 1][i].disposition == d
             && t == OwnedOf(targets[..|targets| - 1][i]);
    assert targets[i].disposition == d;
  }

  lemma {:induction false} CreatedFrom(targets: seq<Target>)
    ensures forall t :: t in Created(targets) <==> FromTarget(t, targets, Absent)
  {
    if targets != [] {
      var init, last := targets[..|targets| - 1], targets[|targets| - 1];
      CreatedFrom(init);
      forall t ensures t in Created(targets) <==> FromTarget(t, targets, Absent) {
        if t in Created(init) {
          FromEarlier(t, targets, Absent);
        }
        if FromTarget(t, targets, Absent) {
          var i :| 0 <= i < |targets| && targets[i].disposition == Absent && t == OwnedOf(targets[i]);
          if i < |targets| - 1 {
            assert init[i].disposition == Absent;
          }
        }
      }
    }
  }

  lemma {:induction false} ReusedFrom(targets: seq<Target>)
    ensures forall t :: t in Reused(targets) <==> FromTarget(t, targets, ByteIdentical)
  {
    if targets != [] {
      var init, last := targets[..|targets| - 1], targets[|targets| - 1];
      ReusedFrom(init);
      forall t ensures t in Reused(targets) <==> FromTarget(t, targets, ByteIdentical) {
        if t in Reused(init) {
          FromEarlier(t, targets, ByteIdentical);
        }
        if FromTarget(t, targets, ByteIdentical) {
          var i :| 0 <= i < |targets| && targets[i].disposition == ByteIdentical && t == OwnedOf(targets[i]);
          if i < |targets| - 1 {
            assert init[i].disposition == ByteIdentical;
          }
        }
      }
    }
  }

  lemma {:induction false} OwnedDistinct(targets: seq<Target>)
    requires UniqueTargets(targets)
    ensures DistinctPaths(Created(targets)) && DistinctPaths(Reused(targets))
  {
    if targets != [] {
      var init, last := targets[..|targets| - 1], targets[|targets| - 1];
      OwnedDistinct(init);
      CreatedFrom(init);
      ReusedFrom(init);
      forall t | t in Created(init) || t in Reused(init) ensures t.path != last.path {
        var i :| 0 <= i < |init| && t == OwnedOf(init[i]);
        assert targets[i] == init[i] && targets[i].path != targets[|targets| - 1].path;
      }
      assert forall i :: 0 <= i < |Created(init)| ==> Created(init)[i] in Created(init);
      assert forall i :: 0 <= i < |Reused(init)| ==> Reused(init)[i] in Reused(init);
    }
  }

  lemma CreatedNotReused(targets: seq<Target>, t: Owned, u: Owned)
    requires UniqueTargets(targets) && t in Created(targets) && u in Reused(targets)
    ensures t.path != u.path
  {
    CreatedFrom(targets);
    ReusedFrom(targets);
    var i :| 0 <= i < |targets| && targets[i].disposition == Absent && t == OwnedOf(targets[i]);
    var j :| 0 <= j < |targets| && targets[j].disposition == ByteIdentical && u == OwnedOf(targets[j]);
  }

  /** The plan is the one its source makes for these files, and nothing stands in its way. */
  ghost predicate Fresh(plan: Plan, source: Source, root: nat, data: map<Path, Bytes>) {
    ValidSource(source) && plan == PlanFor(source, root, data) && plan.body.collisions == []
  }

  lemma FreshOwns(plan: Plan, source: Source, root: nat, data: map<Path, Bytes>)
    requires Fresh(plan, source, root, data)
    ensures ValidPlan(plan) && !AnyCollides(plan.body.targets) && ValidOperation(OperationOf(plan))
  {
    var targets := plan.body.targets;
    OwnedDistinct(targets);
    CreatedFrom(targets);
    ReusedFrom(targets);
    var created, reused := Created(targets), Reused(targets);
    var all: seq<Owned> := created + reused;
    forall i | 0 <= i < |all| ensures Allowed(plan.body.id, all[i].path) {
      assert all[i] in created || all[i] in reused;
      var k :| 0 <= k < |targets| && all[i] == OwnedOf(targets[k]);
      assert targets[k] == TargetFor(data, source.artifacts[k]);
    }
    forall i, j | 0 <= i < j < |all| ensures all[i].path != all[j].path {
      if i < |created| <= j {
        CreatedNotReused(targets, created[i], reused[j - |created|]);
      }
    }
  }

  /** What a file that is there makes of an artifact. */
  ghost predicate Classified(t: Target, a: Artifact, data: map<Path, Bytes>) {
    && t.path == a.path && t.digest == OfBytes(a.bytes) && t.bytes == |a.bytes|
    && (t.disposition == Absent <==> a.path !in data)
    && (t.disposition == ByteIdentical <==> a.path in data && data[a.path] == a.bytes)
  }

  /** The collision tells of an artifact where another file is: what it would be, and what is there. */
  ghost predicate TellsCollision(c: CollisionItem, source: Source, data: map<Path, Bytes>) {
    exists i :: 0 <= i < |source.artifacts| && Collided(c, source.artifacts[i], data)
  }

  ghost predicate Collided(c: CollisionItem, a: Artifact, data: map<Path, Bytes>) {
    && a.path in data && data[a.path] != a.bytes
    && c.path == a.path && c.expected == OfBytes(a.bytes) && c.actual == OfBytes(data[a.path])
  }

  lemma {:induction false} CollisionsTell(data: map<Path, Bytes>, artifacts: seq<Artifact>)
    ensures forall c :: c in CollisionsFor(data, artifacts) <==>
              exists i :: 0 <= i < |artifacts| && Collided(c, artifacts[i], data)
  {
    if artifacts != [] {
      var init := artifacts[..|artifacts| - 1];
      CollisionsTell(data, init);
      forall c ensures c in CollisionsFor(data, artifacts) <==>
                       exists i :: 0 <= i < |artifacts| && Collided(c, artifacts[i], data)
      {
        if i :| 0 <= i < |init| && Collided(c, init[i], data) {
          assert Collided(c, artifacts[i], data);
        }
        if i :| 0 <= i < |artifacts| && Collided(c, artifacts[i], data) {
          assert i < |init| ==> Collided(c, init[i], data);
        }
      }
    }
  }

  /** A plan speaks of its own source and these files only: each artifact in order, by what is there in
      its place; a collision for each other file that is in the way, and for nothing else. */
  lemma PlanTells(source: Source, root: nat, data: map<Path, Bytes>)
    ensures var plan := PlanFor(source, root, data);
            && plan.body.version == 1 && plan.hash == OfPlan(plan.body)
            && plan.body.id == source.id && plan.body.fingerprint == source.fingerprint
            && plan.body.sourceRoot == source.root && plan.body.targetRoot == root
            && plan.body.inventory == source.inventory
            && |plan.body.targets| == |source.artifacts|
            && (forall i :: 0 <= i < |source.artifacts| ==>
                  Classified(plan.body.targets[i], source.artifacts[i], data))
            && (forall c :: c in plan.body.collisions <==> TellsCollision(c, source, data))
            && (AnyCollides(plan.body.targets) <==> plan.body.collisions != [])
  {
    var plan := PlanFor(source, root, data);
    CollisionsTell(data, source.artifacts);
    forall i | 0 <= i < |source.artifacts| ensures Classified(plan.body.targets[i], source.artifacts[i], data) {
      assert plan.body.targets[i] == TargetFor(data, source.artifacts[i]);
    }
    if plan.body.collisions == [] {
      forall i | 0 <= i < |source.artifacts| ensures plan.body.targets[i].disposition != Collides {
        assert plan.body.targets[i] == TargetFor(data, source.artifacts[i]);
      }
    } else {
      var c := plan.body.collisions[0];
      assert c in plan.body.collisions;
      var i :| 0 <= i < |source.artifacts| && Collided(c, source.artifacts[i], data);
      assert plan.body.targets[i] == TargetFor(data, source.artifacts[i]);
    }
  }

  /** A receipt lists what the plan created and what it reused, and names the plan and its source. */
  lemma ReceiptTells(plan: Plan)
    ensures var receipt := ReceiptOf(plan);
            && receipt.body.version == 1 && receipt.hash == OfReceipt(receipt.body)
            && receipt.body.id == plan.body.id && receipt.body.planHash == plan.hash
            && receipt.body.sourceRoot == plan.body.sourceRoot && receipt.body.targetRoot == plan.body.targetRoot
            && receipt.body.fingerprint == plan.body.fingerprint
            && (forall t :: t in receipt.body.created <==> FromTarget(t, plan.body.targets, Absent))
            && (forall t :: t in receipt.body.reused <==> FromTarget(t, plan.body.targets, ByteIdentical))
  {
    CreatedFrom(plan.body.targets);
    ReusedFrom(plan.body.targets);
  }

  /** The two files every migration may own, and the one that is named after it. */
  ghost predicate MayOwn(id: MigrationId, created: seq<Owned>, reused: seq<Owned>) {
    && (forall t :: t in created || t in reused ==> t.path in {ConfigFile, SessionJournal, CapabilityMetadata(id)})
    && DistinctPaths(created) && DistinctPaths(reused)
    && (forall t, u :: t in created && u in reused ==> t.path != u.path)
  }

  lemma OwnershipIs(id: MigrationId, created: seq<Owned>, reused: seq<Owned>)
    ensures ValidOwnership(id, created + reused) <==> MayOwn(id, created, reused)
  {
    var all := created + reused;
    if MayOwn(id, created, reused) {
      forall i | 0 <= i < |all| ensures Allowed(id, all[i].path) {
        assert all[i] in created || all[i] in reused;
      }
      forall i, j | 0 <= i < j < |all| ensures all[i].path != all[j].path {
        if i < |created| <= j {
          assert all[i] in created && all[j] in reused;
        }
      }
    }
    if ValidOwnership(id, all) {
      forall t | t in created || t in reused ensures Allowed(id, t.path) {
        assert t in all;
      }
      forall i, j | 0 <= i < j < |created| ensures created[i].path != created[j].path {
        assert all[i].path != all[j].path;
      }
      forall i, j | 0 <= i < j < |reused| ensures reused[i].path != reused[j].path {
        assert all[|created| + i].path != all[|created| + j].path;
      }
      forall t, u | t in created && u in reused ensures t.path != u.path {
        var i :| 0 <= i < |created| && created[i] == t;
        var j :| 0 <= j < |reused| && reused[j] == u;
        assert all[i].path != all[|created| + j].path;
      }
    }
  }

  /** A record is taken exactly if it is of this version, hashes to what it says, and owns only what a
      migration may own, each file once: so nothing else is ever created or removed. */
  lemma ValidMeans(plan: Plan, operation: Operation, receipt: Receipt)
    ensures ValidPlan(plan) <==> && plan.body.version == 1 && plan.hash == OfPlan(plan.body)
                                 && forall i, j :: 0 <= i < j < |plan.body.targets| ==>
                                      plan.body.targets[i].path != plan.body.targets[j].path
    ensures ValidOperation(operation) <==>
              && operation.body.version == 1 && operation.hash == OfOperation(operation.body)
              && MayOwn(operation.body.id, operation.body.created, operation.body.reused)
    ensures ValidReceipt(receipt) <==>
              && receipt.body.version == 1 && receipt.hash == OfReceipt(receipt.body)
              && MayOwn(receipt.body.id, receipt.body.created, receipt.body.reused)
  {
    OwnershipIs(operation.body.id, operation.body.created, operation.body.reused);
    OwnershipIs(receipt.body.id, receipt.body.created, receipt.body.reused);
  }

  /** Which files a fresh plan creates and reuses. */
  lemma FreshParts(plan: Plan, source: Source, root: nat, data: map<Path, Bytes>)
    requires Fresh(plan, source, root, data)
    ensures forall t :: t in Created(plan.body.targets) <==>
              exists i :: 0 <= i < |source.artifacts| && source.artifacts[i].path !in data
                          && t == OwnedOf(TargetFor(data, source.artifacts[i]))
    ensures AllIntact(data, Reused(plan.body.targets))
    ensures DistinctPaths(Created(plan.body.targets))
  {
    var targets := plan.body.targets;
    FreshOwns(plan, source, root, data);
    OwnedDistinct(targets);
    CreatedFrom(targets);
    ReusedFrom(targets);
    forall t ensures t in Created(targets) <==>
                     exists i :: 0 <= i < |source.artifacts| && source.artifacts[i].path !in data
                                 && t == OwnedOf(TargetFor(data, source.artifacts[i]))
    {
      if t in Created(targets) {
        var i :| 0 <= i < |targets| && targets[i].disposition == Absent && t == OwnedOf(targets[i]);
        assert source.artifacts[i].path !in data;
      }
      if i :| 0 <= i < |source.artifacts| && source.artifacts[i].path !in data
              && t == OwnedOf(TargetFor(data, source.artifacts[i]))
      {
        assert targets[i].disposition == Absent;
      }
    }
    forall k | 0 <= k < |Reused(targets)| ensures Intact(data, Reused(targets)[k]) {
      var u := Reused(targets)[k];
      assert u in Reused(targets);
      var i :| 0 <= i < |targets| && targets[i].disposition == ByteIdentical && u == OwnedOf(targets[i]);
      assert targets[i] == TargetFor(data, source.artifacts[i]);
    }
  }

  // ---------------------------------------------------------------- states of a migration

  /** The files are `before`, plus some of the source's artifacts where there was no file. */
  ghost predicate Partial(data: map<Path, Bytes>, before: map<Path, Bytes>, source: Source) {
    && (forall p :: p in before ==> p in data && data[p] == before[p])
    && (forall p :: p in data ==>
          p in before || exists i :: 0 <= i < |source.artifacts| && source.artifacts[i] == Artifact(p, data[p]))
  }

  /** All artifacts are in place, and nothing else has changed. */
  ghost predicate Published(data: map<Path, Bytes>, before: map<Path, Bytes>, source: Source) {
    Partial(data, before, source) && forall i :: 0 <= i < |source.artifacts| ==> source.artifacts[i].path in data
  }

  ghost predicate RecordsAgree(folder: Folder, plan: Plan) {
    && (folder.plan == Missing || folder.plan == Holds(plan))
    && (folder.operation == Missing || (folder.operation == Holds(OperationOf(plan)) && folder.plan == Holds(plan)))
  }

  /** A migration that was begun and not finished: every crash of one leaves this. */
  ghost predicate InProgress(data: map<Path, Bytes>, folder: Folder, plan: Plan, source: Source,
                             before: map<Path, Bytes>) {
    && RecordsAgree(folder, plan) && folder.receipt == Missing
    && Partial(data, before, source)
    && (folder.operation == Missing ==> data == before)
  }

  ghost predicate Complete(data: map<Path, Bytes>, folder: Folder, plan: Plan, source: Source,
                           before: map<Path, Bytes>) {
    && folder.plan == Holds(plan) && folder.operation == Holds(OperationOf(plan))
    && folder.receipt == Holds(ReceiptOf(plan))
    && Published(data, before, source)
  }

  /** All artifacts in place make one set of files: there is only one way to be finished. */
  lemma PublishedIsUnique(a: map<Path, Bytes>, b: map<Path, Bytes>, before: map<Path, Bytes>, source: Source)
    requires ValidSource(source) && Published(a, before, source) && Published(b, before, source)
    ensures a == b
  {
    forall p ensures p in a <==> p in b {
      if p in a && p !in before {
        var i :| 0 <= i < |source.artifacts| && source.artifacts[i] == Artifact(p, a[p]);
      }
      if p in b && p !in before {
        var i :| 0 <= i < |source.artifacts| && source.artifacts[i] == Artifact(p, b[p]);
      }
    }
    forall p | p in a && p in b ensures a[p] == b[p] {
      if p !in before {
        var i :| 0 <= i < |source.artifacts| && source.artifacts[i] == Artifact(p, a[p]);
        var j :| 0 <= j < |source.artifacts| && source.artifacts[j] == Artifact(p, b[p]);
        assert i == j;
      }
    }
  }

  lemma CreatedIsIntact(data: map<Path, Bytes>, plan: Plan, source: Source, root: nat, before: map<Path, Bytes>)
    requires Fresh(plan, source, root, before) && Partial(data, before, source)
    ensures forall t :: t in Created(plan.body.targets) && t.path in data ==> Intact(data, t)
  {
    FreshParts(plan, source, root, before);
    forall t | t in Created(plan.body.targets) && t.path in data ensures Intact(data, t) {
      var i :| 0 <= i < |source.artifacts| && source.artifacts[i].path !in before
               && t == OwnedOf(TargetFor(before, source.artifacts[i]));
      var j :| 0 <= j < |source.artifacts| && source.artifacts[j] == Artifact(t.path, data[t.path]);
      assert i == j;
    }
  }

  lemma PublishedIsIntact(data: map<Path, Bytes>, plan: Plan, source: Source, root: nat, before: map<Path, Bytes>)
    requires Fresh(plan, source, root, before) && Partial(data, before, source)
    ensures AllIntact(data, Created(plan.body.targets) + Reused(plan.body.targets)) <==> Published(data, before, source)
    ensures forall t :: t in Created(plan.body.targets) && t.path in data ==> Intact(data, t)
  {
    FreshParts(plan, source, root, before);
    CreatedIsIntact(data, plan, source, root, before);
    hide Fresh;
    var created, reused := Created(plan.body.targets), Reused(plan.body.targets);
    var all := created + reused;
    if AllIntact(data, all) {
      forall i | 0 <= i < |source.artifacts| ensures source.artifacts[i].path in data {
        if source.artifacts[i].path !in before {
          var t := OwnedOf(TargetFor(before, source.artifacts[i]));
          assert t in created;
          var k :| 0 <= k < |created| && created[k] == t;
          assert Intact(data, all[k]);
        }
      }
    }
    if Published(data, before, source) {
      forall k | 0 <= k < |all| ensures Intact(data, all[k]) {
        if k < |created| {
          assert created[k] in created;
        } else {
          assert Intact(before, reused[k - |created|]);
        }
      }
    }
  }

  // ---------------------------------------------------------------- verifying and rolling back

  method VerifyTargets(disk: Disk, targets: seq<Owned>) returns (r: Result<(), MigrationError>)
    ensures r == if AllIntact(disk.data, targets) then Ok(()) else Err(TargetChanged)
  {
    for i := 0 to |targets|
      invariant AllIntact(disk.data, targets[..i])
    {
      if !Intact(disk.data, targets[i]) {
        return Err(TargetChanged);
      }
    }
    return Ok(());
  }

  function PathsOf(owned: seq<Owned>): set<Path> {
    set i | 0 <= i < |owned| :: owned[i].path
  }

  ghost predicate Removable(data: map<Path, Bytes>, owned: seq<Owned>) {
    forall t :: t in owned && t.path in data ==> Intact(data, t)
  }

  /** The run goes on from earlier steps, and each further step creates or removes an owned file with
      the content the plan recorded for it. */
  ghost predicate Lawful(earlier: seq<DataStep>, steps: seq<DataStep>, owned: seq<Owned>) {
    && |earlier| <= |steps| && steps[..|earlier|] == earlier
    && forall k :: |earlier| <= k < |steps| ==> OwnedStep(steps[k], owned)
  }

  lemma LawfulNext(earlier: seq<DataStep>, steps: seq<DataStep>, owned: seq<Owned>, step: DataStep)
    requires Lawful(earlier, steps, owned) && OwnedStep(step, owned)
    ensures Lawful(earlier, steps + [step], owned)
  {
  }

  lemma LawfulTrans(a: seq<DataStep>, b: seq<DataStep>, c: seq<DataStep>, owned: seq<Owned>)
    requires Lawful(a, b, owned) && Lawful(b, c, owned)
    ensures Lawful(a, c, owned)
  {
    forall k | |a| <= k < |c| ensures OwnedStep(c[k], owned) {
      if k < |b| {
        assert c[k] == c[..|b|][k];
      }
    }
  }

  /** Some of the owned files may be gone; everything else is as it was. */
  ghost predicate Shrunk(old': map<Path, Bytes>, new': map<Path, Bytes>, owned: seq<Owned>) {
    && (forall p :: p in new' ==> p in old' && new'[p] == old'[p])
    && (forall p :: p in old' && p !in new' ==> p in PathsOf(owned))
  }

  function Smaller(a: nat, b: nat): nat { if a < b then a else b }

  /** The last `k` of the owned files. */
  function LastOf(owned: seq<Owned>, k: nat): seq<Owned>
    requires k <= |owned|
  {
    owned[|owned| - k..]
  }

  lemma NotRemovedYet(data: map<Path, Bytes>, owned: seq<Owned>, i: nat)
    requires AllIntact(data, owned) && DistinctPaths(owned) && i < |owned|
    ensures owned[i].path in data - PathsOf(owned[i + 1..]) && Intact(data - PathsOf(owned[i + 1..]), owned[i])
  {
    assert Intact(data, owned[i]);
  }

  /** Removes the owned files, last first, as far as the power goes; none that has been changed. */
  method RollbackCreated(disk: Disk, owned: seq<Owned>) returns (r: Result<(), MigrationError>)
    requires disk.Valid()
    modifies disk`data, disk`power, disk`steps
    ensures disk.Valid() && Lawful(old(disk.steps), disk.steps, owned) && Shrunk(old(disk.data), disk.data, owned)
    ensures old(disk.power) - |owned| <= disk.power <= old(disk.power)
    ensures r.Ok? ==> disk.data == old(disk.data) - PathsOf(owned)
    ensures r.Err? ==> (r.error == TargetChanged && !Removable(old(disk.data), owned))
                       || (r.error == PowerLost && disk.power == 0)
    ensures AllIntact(old(disk.data), owned) && DistinctPaths(owned) ==>
              var k := Smaller(old(disk.power), |owned|);
              && disk.data == old(disk.data) - PathsOf(LastOf(owned, k)) && disk.power == old(disk.power) - k
              && r == if k == |owned| then Ok(()) else Err(PowerLost)
  {
    hide Shrunk, Lawful, OwnedStep, PathsOf, Intact, Removable, AllIntact, DistinctPaths, Disk.Valid;
    ghost var intact := AllIntact(disk.data, owned) && DistinctPaths(owned);
    NoneLess(disk.data, disk.steps, owned);
    var i := |owned|;
    ghost var before := disk.data;
    while i > 0
      invariant 0 <= i <= |owned| && disk.Valid()
      invariant Lawful(old(disk.steps), disk.steps, owned) && Shrunk(before, disk.data, owned)
      invariant disk.data == before - PathsOf(owned[i..])
      invariant old(disk.power) - (|owned| - i) <= disk.power <= old(disk.power)
      invariant intact ==> disk.power == old(disk.power) - (|owned| - i)
    {
      i := i - 1;
      if intact {
        NotRemovedYet(before, owned, i);
      }
      var t := owned[i];
      OneLess(before, disk.data, owned, i);
      if t.path in disk.data {
        if !Intact(disk.data, t) {
          return Err(TargetChanged);
        }
        OwnedRemoval(disk.data, owned, i);
        LawfulNext(old(disk.steps), disk.steps, owned, RemovedFile(t.path, disk.data[t.path]));
        var removed := disk.Remove(t.path);
        if removed.Err? {
          return removed;
        }
      }
    }
    assert owned[0..] == owned;
    return Ok(());
  }

  lemma NoneLess(data: map<Path, Bytes>, steps: seq<DataStep>, owned: seq<Owned>)
    ensures Shrunk(data, data, owned) && Lawful(steps, steps, owned) && data == data - PathsOf(owned[|owned|..])
  {
  }

  lemma OneLess(before: map<Path, Bytes>, data: map<Path, Bytes>, owned: seq<Owned>, i: nat)
    requires i < |owned| && Shrunk(before, data, owned) && data == before - PathsOf(owned[i + 1..])
    ensures Shrunk(before, data - {owned[i].path}, owned)
    ensures data - {owned[i].path} == before - PathsOf(owned[i..])
    ensures owned[i].path !in data ==> data == before - PathsOf(owned[i..])
    ensures owned[i].path in data && !Intact(data, owned[i]) ==> !Removable(before, owned)
  {
    assert PathsOf(owned[i..]) == PathsOf(owned[i + 1..]) + {owned[i].path};
    assert owned[i] in owned && owned[i].path in PathsOf(owned);
  }

  lemma OwnedRemoval(data: map<Path, Bytes>, owned: seq<Owned>, i: nat)
    requires i < |owned| && Intact(data, owned[i])
    ensures OwnedStep(RemovedFile(owned[i].path, data[owned[i].path]), owned)
  {
    assert owned[i] in owned;
  }

  method RemoveStaging(disk: Disk) returns (r: Result<(), MigrationError>)
    modifies disk`folder, disk`power
    ensures disk.folder == old(disk.folder).(staging := disk.folder.staging)
    ensures r.Ok? ==> disk.folder.staging == []
    ensures |disk.folder.staging| <= |old(disk.folder.staging)|
    ensures r.Err? ==> r.error == PowerLost && disk.power == 0
    ensures old(disk.power) - |old(disk.folder.staging)| <= disk.power <= old(disk.power)
  {
    while disk.folder.staging != []
      invariant old(disk.power) - |old(disk.folder.staging)| <= disk.power - |disk.folder.staging|
      invariant disk.power <= old(disk.power) && |disk.folder.staging| <= |old(disk.folder.staging)|
      invariant disk.folder == old(disk.folder).(staging := disk.folder.staging)
      decreases |disk.folder.staging|
    {
      var done := disk.SetFolder(disk.folder.(staging := disk.folder.staging[1..]));
      if done.Err? {
        return done;
      }
    }
    return Ok(());
  }

  // ---------------------------------------------------------------- recovery and durable ownership

  predicate AgreesWithPlan(op: Operation, plan: Plan) {
    ValidOperation(op) && !AnyCollides(plan.body.targets) && op == OperationOf(plan)
  }

  /** The records are missing, or they are this plan's own. */
  predicate Recoverable(folder: Folder, plan: Plan) {
    || (folder.plan == Missing && folder.operation == Missing)
    || (folder.plan == Holds(plan) && ValidPlan(plan)
        && (folder.operation == Missing
            || (folder.operation == Holds(OperationOf(plan)) && AgreesWithPlan(OperationOf(plan), plan))))
  }

  /** The files as an interrupted run of the plan found them, if it only created files. */
  function Undone(data: map<Path, Bytes>, folder: Folder, plan: Plan): map<Path, Bytes> {
    if folder.operation == Missing then data else data - PathsOf(Created(plan.body.targets))
  }

  /** Undoes an interrupted run of the same plan, and refuses any other's records untouched. */
  method Recover(disk: Disk, plan: Plan) returns (r: Result<(), MigrationError>)
    requires disk.Valid()
    modifies disk`data, disk`folder, disk`power, disk`steps
    ensures var owned := Created(plan.body.targets);
            && disk.Valid() && Lawful(old(disk.steps), disk.steps, owned)
            && Shrunk(old(disk.data), disk.data, owned)
            && disk.folder == old(disk.folder).(staging := disk.folder.staging)
            && |disk.folder.staging| <= |old(disk.folder.staging)|
            && (r.Ok? ==>
                  && Recoverable(disk.folder, plan) && disk.folder.staging == []
                  && disk.data == Undone(old(disk.data), disk.folder, plan))
            && (r == Err(RecoveryFailed) <==> !Recoverable(disk.folder, plan))
            && (r.Err? && r.error != PowerLost ==> disk.folder == old(disk.folder))
            && (r == Err(RecoveryFailed) ==> disk.data == old(disk.data))
            && (r == Err(TargetChanged) ==> disk.folder.operation != Missing && !Removable(old(disk.data), owned))
            && (r.Err? ==> r.error in {RecoveryFailed, TargetChanged} || (r.error == PowerLost && disk.power == 0))
            && (disk.folder.operation == Missing ==> disk.data == old(disk.data))
            && old(disk.power) - |owned| - |old(disk.folder.staging)| <= disk.power <= old(disk.power)
  {
    if disk.folder.plan == Missing && disk.folder.operation == Missing {
      r := RemoveStaging(disk);
      return;
    }
    if !disk.folder.plan.Holds? || !ValidPlan(disk.folder.plan.value) || disk.folder.plan.value != plan {
      return Err(RecoveryFailed);
    }
    if disk.folder.operation != Missing {
      if !disk.folder.operation.Holds? || !AgreesWithPlan(disk.folder.operation.value, plan) {
        return Err(RecoveryFailed);
      }
      r := RollbackCreated(disk, disk.folder.operation.value.body.created);
      if r.Err? {
        return;
      }
    }
    r := RemoveStaging(disk);
  }

  method EnsureOwnership(disk: Disk, plan: Plan) returns (r: Result<Operation, MigrationError>)
    modifies disk`folder, disk`power
    ensures disk.folder == old(disk.folder).(plan := disk.folder.plan, operation := disk.folder.operation)
    ensures r.Ok? ==>
              && r.value == OperationOf(plan)
              && disk.folder.plan == Holds(plan) && disk.folder.operation == Holds(OperationOf(plan))
    ensures old(disk.folder.plan) != Missing ==> disk.folder.plan == old(disk.folder.plan)
    ensures old(disk.folder.operation) != Missing ==> disk.folder.operation == old(disk.folder.operation)
    ensures r.Ok? ==> !AnyCollides(plan.body.targets)
                      && (old(disk.folder.operation) != Missing ==> AgreesWithPlan(OperationOf(plan), plan))
    ensures r.Err? ==> r.error == RecoveryFailed || (r.error == PowerLost && disk.power == 0)
    ensures RecordsAgree(old(disk.folder), plan) ==> RecordsAgree(disk.folder, plan)
    ensures old(disk.power) - 2 <= disk.power <= old(disk.power)
    ensures r.Err? && RecordsAgree(old(disk.folder), plan) && AgreesWithPlan(OperationOf(plan), plan)
            ==> r.error == PowerLost && disk.power == 0
  {
    if disk.folder.plan != Missing {
      if !disk.folder.plan.Holds? || disk.folder.plan.value != plan {
        return Err(RecoveryFailed);
      }
    } else {
      var done := disk.SetFolder(disk.folder.(plan := Holds(plan)));
      if done.Err? {
        return Err(done.error);
      }
    }
    var expected := OperationForPlan(plan);
    if expected.Err? {
      return Err(RecoveryFailed);
    }
    if disk.folder.operation != Missing {
      if !disk.folder.operation.Holds? || !AgreesWithPlan(disk.folder.operation.value, plan) {
        return Err(RecoveryFailed);
      }
      return Ok(disk.folder.operation.value);
    }
    var done := disk.SetFolder(disk.folder.(operation := Holds(expected.value)));
    if done.Err? {
      return Err(done.error);
    }
    return expected;
  }

  // ---------------------------------------------------------------- staging and publishing

  lemma {:induction false} StagedIs(artifacts: seq<Artifact>, i: nat)
    requires i < |artifacts| && forall j, k :: 0 <= j < k < |artifacts| ==> artifacts[j].path != artifacts[k].path
    ensures StagedAt(artifacts, artifacts[i].path) == Some(artifacts[i].bytes)
  {
    if i > 0 {
      StagedIs(artifacts[1..], i - 1);
    }
  }

  lemma {:induction false} NotStaged(artifacts: seq<Artifact>, path: Path)
    requires forall k :: 0 <= k < |artifacts| ==> artifacts[k].path != path
    ensures StagedAt(artifacts, path) == None
  {
    if artifacts != [] {
      NotStaged(artifacts[1..], path);
    }
  }

  method Stage(disk: Disk, source: Source) returns (r: Result<(), MigrationError>)
    requires ValidSource(source) && disk.folder.staging == []
    modifies disk`folder, disk`power
    ensures disk.folder == old(disk.folder).(staging := disk.folder.staging)
    ensures r.Ok? ==> disk.folder.staging == source.artifacts
    ensures |disk.folder.staging| <= |source.artifacts|
    ensures r.Err? ==> r.error == PowerLost && disk.power == 0
    ensures old(disk.power) - |source.artifacts| <= disk.power <= old(disk.power)
  {
    var artifacts := source.artifacts;
    for i := 0 to |artifacts|
      invariant disk.folder == old(disk.folder).(staging := artifacts[..i]) && disk.power == old(disk.power) - i
    {
      NotStaged(artifacts[..i], artifacts[i].path);
      if StagedAt(disk.folder.staging, artifacts[i].path).Some? {
        return Err(WriteConflict);
      }
      var done := disk.SetFolder(disk.folder.(staging := disk.folder.staging + [artifacts[i]]));
      if done.Err? {
        return done;
      }
      assert artifacts[..i + 1] == artifacts[..i] + [artifacts[i]];
    }
    assert artifacts[..|artifacts|] == artifacts;
    return Ok(());
  }

  lemma OneMorePublished(data: map<Path, Bytes>, before: map<Path, Bytes>, source: Source, a: Artifact)
    requires Partial(data, before, source) && a in source.artifacts && a.path !in data
    ensures Partial(data[a.path := a.bytes], before, source)
  {
    var next := data[a.path := a.bytes];
    forall p | p in next && p !in before
      ensures exists i :: 0 <= i < |source.artifacts| && source.artifacts[i] == Artifact(p, next[p])
    {
      if p == a.path {
        var k :| 0 <= k < |source.artifacts| && source.artifacts[k] == a;
      } else {
        assert next[p] == data[p];
      }
    }
  }

  lemma AllPublished(data: map<Path, Bytes>, plan: Plan, source: Source, root: nat, before: map<Path, Bytes>)
    requires Fresh(plan, source, root, before) && Partial(data, before, source)
    requires data.Keys == before.Keys + PathsOf(Created(plan.body.targets))
    ensures Published(data, before, source)
  {
    forall i | 0 <= i < |source.artifacts| ensures source.artifacts[i].path in data {
      if source.artifacts[i].path !in before {
        ArtifactIsCreated(plan, source, root, before, i);
      }
    }
  }

  lemma StagedFor(plan: Plan, source: Source, root: nat, before: map<Path, Bytes>, t: Owned) returns (a: Artifact)
    requires Fresh(plan, source, root, before) && t in Created(plan.body.targets)
    ensures a in source.artifacts && a.path == t.path && a.path !in before && Matches(a.bytes, t)
    ensures StagedAt(source.artifacts, t.path) == Some(a.bytes)
  {
    FreshParts(plan, source, root, before);
    var k :| 0 <= k < |source.artifacts| && source.artifacts[k].path !in before
             && t == OwnedOf(TargetFor(before, source.artifacts[k]));
    StagedIs(source.artifacts, k);
    a := source.artifacts[k];
  }

  lemma NotYet(owned: seq<Owned>, i: nat, before: map<Path, Bytes>, data: map<Path, Bytes>)
    requires DistinctPaths(owned) && i < |owned| && owned[i].path !in before
    requires data.Keys == before.Keys + PathsOf(owned[..i])
    ensures owned[i].path !in data
    ensures PathsOf(owned[..i + 1]) == PathsOf(owned[..i]) + {owned[i].path}
  {
  }

  lemma CreatedIsDistinct(plan: Plan, source: Source, root: nat, before: map<Path, Bytes>)
    requires Fresh(plan, source, root, before)
    ensures DistinctPaths(Created(plan.body.targets))
  {
    FreshParts(plan, source, root, before);
  }

  lemma PartialAtFirst(before: map<Path, Bytes>, source: Source)
    ensures Partial(before, before, source) && before.Keys == before.Keys + PathsOf([])
  {
  }

  /** Publishes the staged files the plan creates, in order. */
  method PublishFiles(disk: Disk, plan: Plan, owned: seq<Owned>, ghost source: Source, ghost before: map<Path, Bytes>)
    returns (r: Result<(), MigrationError>, created: seq<Owned>)
    requires disk.Valid() && Fresh(plan, source, disk.root, before) && disk.data == before
    requires owned == Created(plan.body.targets) && disk.folder.staging == source.artifacts
    modifies disk`data, disk`power, disk`steps
    ensures disk.Valid() && Lawful(old(disk.steps), disk.steps, owned)
    ensures Partial(disk.data, before, source) && created <= owned
    ensures r.Ok? ==> disk.data.Keys == before.Keys + PathsOf(owned)
    ensures r.Err? ==> r.error == PowerLost && disk.power == 0
    ensures old(disk.power) - |owned| <= disk.power <= old(disk.power)
  {
    hide Fresh, Partial, Disk.Valid, OwnedStep, Created, StagedAt, PathsOf, DistinctPaths;
    CreatedIsDistinct(plan, source, disk.root, before);
    PartialAtFirst(before, source);
    created := [];
    for i := 0 to |owned|
      invariant disk.Valid() && created == owned[..i] && Lawful(old(disk.steps), disk.steps, owned)
      invariant Partial(disk.data, before, source) && disk.data.Keys == before.Keys + PathsOf(owned[..i])
      invariant disk.power == old(disk.power) - i
    {
      var t := owned[i];
      ghost var a := StagedFor(plan, source, disk.root, before, t);
      NotYet(owned, i, before, disk.data);
      var bytes := StagedAt(disk.folder.staging, t.path);
      OneMorePublished(disk.data, before, source, a);
      OwnedIsOwned(owned, i, a.bytes);
      LawfulNext(old(disk.steps), disk.steps, owned, CreatedFile(t.path, a.bytes));
      r := disk.Create(t.path, bytes.value);
      if r.Err? {
        return;
      }
      created := created + [t];
    }
    assert owned[..|owned|] == owned;
    r := Ok(());
  }

  lemma OwnedIsOwned(owned: seq<Owned>, i: nat, bytes: Bytes)
    requires i < |owned| && Matches(bytes, owned[i])
    ensures OwnedStep(CreatedFile(owned[i].path, bytes), owned)
  {
    assert owned[i] in owned;
  }

  /** Publishes, checks every target, and writes the receipt. */
  method Publish(disk: Disk, plan: Plan, operation: Operation, ghost source: Source, ghost before: map<Path, Bytes>)
    returns (r: Result<Receipt, MigrationError>, created: seq<Owned>)
    requires disk.Valid() && Fresh(plan, source, disk.root, before) && disk.data == before
    requires operation == OperationOf(plan) && disk.folder.staging == source.artifacts
    modifies disk`data, disk`folder, disk`power, disk`steps
    ensures disk.Valid() && Lawful(old(disk.steps), disk.steps, Created(plan.body.targets))
    ensures disk.folder == old(disk.folder).(receipt := disk.folder.receipt)
    ensures Partial(disk.data, before, source) && created <= Created(plan.body.targets)
    ensures r.Ok? ==>
              && r.value == ReceiptOf(plan) && disk.folder.receipt == Holds(r.value)
              && Published(disk.data, before, source)
    ensures r.Err? ==> r.error == PowerLost && disk.power == 0 && disk.folder == old(disk.folder)
    ensures old(disk.power) - |Created(plan.body.targets)| - 1 <= disk.power <= old(disk.power)
  {
    hide Fresh, Partial, Published, Disk.Valid, OwnedStep, Created, Reused, Lawful, PathsOf;
    var published;
    published, created := PublishFiles(disk, plan, operation.body.created, source, before);
    if published.Err? {
      return Err(published.error), created;
    }
    AllPublished(disk.data, plan, source, disk.root, before);
    PublishedIsIntact(disk.data, plan, source, disk.root, before);
    var verified := VerifyTargets(disk, operation.body.created + operation.body.reused);
    var body := ReceiptBody(SCHEMA_VERSION, plan.body.id, plan.hash, plan.body.sourceRoot, plan.body.targetRoot,
                            plan.body.fingerprint, operation.body.created, operation.body.reused);
    var receipt := Receipt(body, OfReceipt(body));
    var done := disk.SetFolder(disk.folder.(receipt := Holds(receipt)));
    return if done.Ok? then Ok(receipt) else Err(done.error), created;
  }

  // ---------------------------------------------------------------- apply

  /** Everything a migration's success means: the records are the plan's own, and every target is in place. */
  ghost predicate Applied(data: map<Path, Bytes>, folder: Folder, plan: Plan) {
    && folder.plan == Holds(plan) && folder.operation == Holds(OperationOf(plan))
    && folder.receipt == Holds(ReceiptOf(plan))
    && AllIntact(data, Created(plan.body.targets) + Reused(plan.body.targets))
  }

  predicate ReceiptAgrees(receipt: Receipt, plan: Plan, op: Operation) {
    && ValidReceipt(receipt) && ValidPlan(plan) && AgreesWithPlan(op, plan)
    && receipt.body.id == plan.body.id && receipt.body.planHash == plan.hash
    && receipt.body.sourceRoot == plan.body.sourceRoot && receipt.body.targetRoot == plan.body.targetRoot
    && receipt.body.fingerprint == plan.body.fingerprint
    && receipt.body.created == op.body.created && receipt.body.reused == op.body.reused
  }

  /** The folder holds this plan, its operation and a receipt that agrees with both. */
  predicate ReceiptStands(folder: Folder, plan: Plan) {
    && folder.receipt.Holds? && ReceiptAgrees(folder.receipt.value, plan, OperationOf(plan))
    && folder.plan == Holds(plan) && folder.operation == Holds(OperationOf(plan))
  }

  lemma OneReceipt(receipt: Receipt, plan: Plan, op: Operation)
    requires ReceiptAgrees(receipt, plan, op)
    ensures receipt == ReceiptOf(plan) && op == OperationOf(plan)
  {
  }

  /** The plan and operation on disk, if both are readable and agree. */
  method LoadOwnership(disk: Disk) returns (r: Result<(Plan, Operation), MigrationError>)
    ensures r.Ok? <==> && disk.folder.plan.Holds? && disk.folder.operation.Holds?
                       && ValidPlan(disk.folder.plan.value)
                       && AgreesWithPlan(disk.folder.operation.value, disk.folder.plan.value)
    ensures r.Ok? ==> r.value == (disk.folder.plan.value, disk.folder.operation.value)
    ensures r.Err? ==> r.error == ReceiptInvalid
  {
    if !disk.folder.plan.Holds? || !ValidPlan(disk.folder.plan.value) || !disk.folder.operation.Holds?
       || !AgreesWithPlan(disk.folder.operation.value, disk.folder.plan.value)
    {
      return Err(ReceiptInvalid);
    }
    return Ok((disk.folder.plan.value, disk.folder.operation.value));
  }

  lemma StandingIsApplied(data: map<Path, Bytes>, folder: Folder, plan: Plan)
    ensures ReceiptStands(folder, plan) && AllIntact(data, Created(plan.body.targets) + Reused(plan.body.targets))
            ==> Applied(data, folder, plan)
    ensures Applied(data, folder, plan) && ValidPlan(plan) && ValidReceipt(ReceiptOf(plan))
            && AgreesWithPlan(OperationOf(plan), plan)
            ==> ReceiptStands(folder, plan) && AllIntact(data, Created(plan.body.targets) + Reused(plan.body.targets))
  {
  }

  /** A receipt that is already there is checked and returned; nothing is changed. */
  method ReturnReceipt(disk: Disk, plan: Plan) returns (r: Result<Receipt, MigrationError>)
    requires disk.folder.receipt != Missing && ValidPlan(plan)
    ensures r == if !ReceiptStands(disk.folder, plan) then Err(ReceiptInvalid)
                 else if AllIntact(disk.data, Created(plan.body.targets) + Reused(plan.body.targets))
                 then Ok(ReceiptOf(plan)) else Err(TargetChanged)
  {
    if !disk.folder.receipt.Holds? || !ValidReceipt(disk.folder.receipt.value) {
      return Err(ReceiptInvalid);
    }
    var receipt := disk.folder.receipt.value;
    var durable := LoadOwnership(disk);
    if durable.Err? {
      return Err(durable.error);
    }
    if durable.value.0 != plan || !ReceiptAgrees(receipt, durable.value.0, durable.value.1) {
      return Err(ReceiptInvalid);
    }
    OneReceipt(receipt, plan, durable.value.1);
    var verified := VerifyTargets(disk, receipt.body.created + receipt.body.reused);
    return if verified.Ok? then Ok(receipt) else Err(verified.error);
  }

  method BuildPlan(disk: Disk, source: Source) returns (plan: Plan)
    ensures plan == PlanFor(source, disk.root, disk.data)
  {
    var targets, collisions := ClassifyTargets(disk.data, source.artifacts);
    var body := PlanBody(SCHEMA_VERSION, source.id, source.root, disk.root, source.fingerprint, source.inventory,
                         targets, collisions);
    return Plan(body, OfPlan(body));
  }

  lemma ArtifactIsCreated(plan: Plan, source: Source, root: nat, before: map<Path, Bytes>, i: nat)
    requires Fresh(plan, source, root, before) && i < |source.artifacts| && source.artifacts[i].path !in before
    ensures source.artifacts[i].path in PathsOf(Created(plan.body.targets))
  {
    FreshParts(plan, source, root, before);
    var created := Created(plan.body.targets);
    var t := OwnedOf(TargetFor(before, source.artifacts[i]));
    assert t in created;
    var k :| 0 <= k < |created| && created[k] == t;
    assert created[k].path in PathsOf(created);
  }

  lemma ShrunkStaysPartial(data: map<Path, Bytes>, next: map<Path, Bytes>, plan: Plan, source: Source, root: nat,
                           before: map<Path, Bytes>)
    requires Fresh(plan, source, root, before) && Partial(data, before, source)
    requires Shrunk(data, next, Created(plan.body.targets))
    ensures Partial(next, before, source)
    ensures next == data - PathsOf(Created(plan.body.targets)) ==> next == before
  {
    FreshParts(plan, source, root, before);
    var created := Created(plan.body.targets);
    forall p | p in PathsOf(created) ensures p !in before {
      var k :| 0 <= k < |created| && created[k].path == p;
      assert created[k] in created;
    }
    if next == data - PathsOf(created) {
      forall p | p in next ensures p in before {
        if p !in before {
          var i :| 0 <= i < |source.artifacts| && source.artifacts[i] == Artifact(p, data[p]);
          ArtifactIsCreated(plan, source, root, before, i);
        }
      }
    }
  }

  /** How many atomic steps installing a plan can take. */
  function InstallSteps(plan: Plan, source: Source): nat {
    2 + 2 * |source.artifacts| + |Created(plan.body.targets)| + 1
  }

  /** From a disk where the plan is fresh and its records agree, installing either finishes, or dies
      with the power and leaves a migration in progress. */
  method Install(disk: Disk, plan: Plan, source: Source)
    returns (r: Result<Receipt, MigrationError>)
    requires disk.Valid() && Fresh(plan, source, disk.root, disk.data) && RecordsAgree(disk.folder, plan)
    requires disk.folder.staging == [] && disk.folder.receipt == Missing
    modifies disk`data, disk`folder, disk`power, disk`steps
    ensures disk.Valid() && Lawful(old(disk.steps), disk.steps, Created(plan.body.targets))
    ensures disk.folder.rollback == old(disk.folder.rollback) && |disk.folder.staging| <= |source.artifacts|
    ensures r.Ok? ==> r.value == ReceiptOf(plan) && Complete(disk.data, disk.folder, plan, source, old(disk.data))
    ensures r.Err? ==>
              && r.error == PowerLost && disk.power == 0
              && old(disk.power) <= InstallSteps(plan, source)
              && (InProgress(disk.data, disk.folder, plan, source, old(disk.data))
                  || Complete(disk.data, disk.folder, plan, source, old(disk.data)))
  {
    hide Fresh, Published, Partial, OwnedStep, Created, Reused, ValidOperation, ValidPlan, Disk.Valid, Lawful, Shrunk;
    ghost var before := disk.data;
    PartialAtFirst(before, source);
    FreshAgrees(plan, source, disk.root, before);
    LawfulAtFirst(disk.steps, Created(plan.body.targets));
    var operation := EnsureOwnership(disk, plan);
    if operation.Err? {
      return Err(operation.error);
    }
    var staged := Stage(disk, source);
    if staged.Err? {
      return Err(staged.error);
    }
    var created;
    r, created := Publish(disk, plan, operation.value, source, before);
    if r.Ok? {
      var removed := RemoveStaging(disk);
      return if removed.Ok? then r else Err(removed.error);
    }
    ghost var data, steps := disk.data, disk.steps;
    var undone := RollbackCreated(disk, created);
    UndoneStaysPartial(data, disk.data, plan, source, disk.root, before, created);
    LawfulPrefix(steps, disk.steps, created, Created(plan.body.targets));
    LawfulTrans(old(disk.steps), steps, disk.steps, Created(plan.body.targets));
    PublishedIsIntact(data, plan, source, disk.root, before);
    RemovablePrefix(data, created, Created(plan.body.targets));
    if undone.Err? {
      return Err(undone.error);
    }
    var _ := RemoveStaging(disk);
  }

  lemma LawfulAtFirst(steps: seq<DataStep>, owned: seq<Owned>)
    ensures Lawful(steps, steps, owned)
  {
  }

  lemma LawfulPrefix(earlier: seq<DataStep>, steps: seq<DataStep>, some: seq<Owned>, owned: seq<Owned>)
    requires Lawful(earlier, steps, some) && some <= owned
    ensures Lawful(earlier, steps, owned)
  {
    forall k | |earlier| <= k < |steps| ensures OwnedStep(steps[k], owned) {
      assert OwnedStep(steps[k], some);
      var t :| t in some && t.path == steps[k].path && Matches(steps[k].bytes, t);
      assert t in owned;
    }
  }

  lemma RemovablePrefix(data: map<Path, Bytes>, some: seq<Owned>, owned: seq<Owned>)
    requires (forall t :: t in owned && t.path in data ==> Intact(data, t)) && some <= owned
    ensures Removable(data, some)
  {
  }

  lemma FreshAgrees(plan: Plan, source: Source, root: nat, data: map<Path, Bytes>)
    requires Fresh(plan, source, root, data)
    ensures ValidPlan(plan) && AgreesWithPlan(OperationOf(plan), plan) && ValidReceipt(ReceiptOf(plan))
            && ValidSource(source)
  {
    FreshOwns(plan, source, root, data);
  }

  lemma UndoneStaysPartial(data: map<Path, Bytes>, next: map<Path, Bytes>, plan: Plan, source: Source, root: nat,
                           before: map<Path, Bytes>, created: seq<Owned>)
    requires Fresh(plan, source, root, before) && Partial(data, before, source)
    requires created <= Created(plan.body.targets) && Shrunk(data, next, created)
    ensures Partial(next, before, source)
  {
    var all := Created(plan.body.targets);
    forall p | p in PathsOf(created) ensures p in PathsOf(all) {
      var k :| 0 <= k < |created| && created[k].path == p;
      assert all[k].path == p;
    }
    ShrunkStaysPartial(data, next, plan, source, root, before);
  }

  /** Runs that only the loss of power can have stopped: not finished, or finished. */
  ghost predicate Underway(data: map<Path, Bytes>, folder: Folder, plan: Plan, source: Source,
                           before: map<Path, Bytes>) {
    InProgress(data, folder, plan, source, before) || Complete(data, folder, plan, source, before)
  }

  /** Rolling an interrupted run back, however far that gets, leaves it in progress. */
  lemma RecoveredStaysUnderway(data: map<Path, Bytes>, folder: Folder, next: map<Path, Bytes>, next': Folder,
                               plan: Plan, source: Source, root: nat, before: map<Path, Bytes>)
    requires Fresh(plan, source, root, before) && InProgress(data, folder, plan, source, before)
    requires Shrunk(data, next, Created(plan.body.targets)) && next' == folder.(staging := next'.staging)
    requires folder.operation == Missing ==> next == data
    ensures InProgress(next, next', plan, source, before)
    ensures Removable(data, Created(plan.body.targets))
    ensures next == (if folder.operation == Missing then data else data - PathsOf(Created(plan.body.targets)))
            ==> next == before
  {
    ShrunkStaysPartial(data, next, plan, source, root, before);
    PublishedIsIntact(data, plan, source, root, before);
  }

  lemma CompleteIsApplied(data: map<Path, Bytes>, folder: Folder, plan: Plan, source: Source, root: nat,
                          before: map<Path, Bytes>)
    requires Fresh(plan, source, root, before) && Complete(data, folder, plan, source, before)
    ensures Applied(data, folder, plan)
  {
    PublishedIsIntact(data, plan, source, root, before);
  }

  /** How many atomic steps a run can take, cleaning up included. */
  function ApplySteps(plan: Plan, source: Source, folder: Folder): nat {
    |Created(plan.body.targets)| + |folder.staging| + InstallSteps(plan, source)
  }

  /** What a plan is refused for before the disk is looked at: it must be whole, confirmed by its own
      hash, and free of collisions. */
  function Gate(plan: Plan, confirmation: Digest): Option<MigrationError> {
    if plan.body.version != SCHEMA_VERSION || plan.hash != OfPlan(plan.body) || !UniqueTargets(plan.body.targets)
    then Some(PlanInvalid)
    else if confirmation != plan.hash then Some(Unconfirmed)
    else if plan.body.collisions != [] then Some(WriteConflict)
    else None
  }

  lemma GateIs(plan: Plan, confirmation: Digest)
    ensures Gate(plan, confirmation) == if !ValidPlan(plan) then Some(PlanInvalid)
                                        else if confirmation != plan.hash then Some(Unconfirmed)
                                        else if plan.body.collisions != [] then Some(WriteConflict)
                                        else None
  {
  }

  /** Why a run that found no receipt did not finish. */
  ghost predicate StoppedBy(error: MigrationError, data: map<Path, Bytes>, folder: Folder, left: map<Path, Bytes>,
                            power: nat, root: nat, plan: Plan, source: Result<Source, MigrationError>)
  {
    || (error == PowerLost && power == 0)
    || (error == RecoveryFailed && !Recoverable(folder, plan) && left == data)
    || (error == TargetChanged && folder.operation != Missing && !Removable(data, Created(plan.body.targets)))
    || (left == Undone(data, folder, plan)
        && if source.Err? then error == source.error
           else error == Drift && PlanFor(source.value, root, left) != plan)
  }

  /** Runs a plan that has no receipt yet: undoes what an earlier run left, looks at the source again,
      and installs. */
  method ApplyAfresh(disk: Disk, plan: Plan, source: Result<Source, MigrationError>, ghost before: map<Path, Bytes>)
    returns (r: Result<Receipt, MigrationError>)
    requires disk.Valid() && (source.Ok? ==> ValidSource(source.value))
    requires ValidPlan(plan) && plan.body.collisions == [] && disk.folder.receipt == Missing
    modifies disk`data, disk`folder, disk`power, disk`steps
    ensures disk.Valid() && Lawful(old(disk.steps), disk.steps, Created(plan.body.targets))
    ensures disk.folder.rollback == old(disk.folder.rollback)
    ensures |disk.folder.staging| <= |old(disk.folder.staging)|
            || (source.Ok? && |disk.folder.staging| <= |source.value.artifacts|)
    ensures var found := Undone(old(disk.data), old(disk.folder), plan);
            if r.Ok? then
              && Recoverable(old(disk.folder), plan) && source.Ok? && PlanFor(source.value, disk.root, found) == plan
              && r.value == ReceiptOf(plan) && Complete(disk.data, disk.folder, plan, source.value, found)
              && Applied(disk.data, disk.folder, plan)
            else StoppedBy(r.error, old(disk.data), old(disk.folder), disk.data, disk.power, disk.root, plan, source)
    ensures source.Ok? && Fresh(plan, source.value, disk.root, before)
            && InProgress(old(disk.data), old(disk.folder), plan, source.value, before)
            ==> && (r.Ok? ==> Complete(disk.data, disk.folder, plan, source.value, before))
                && (r.Err? ==> r.error == PowerLost && disk.power == 0
                               && old(disk.power) <= ApplySteps(plan, source.value, old(disk.folder))
                               && Underway(disk.data, disk.folder, plan, source.value, before))
  {
    hide Fresh, Published, Partial, OwnedStep, Created, Reused, ValidOperation, ValidPlan, Disk.Valid, Lawful, Shrunk,
         PathsOf, ReceiptOf, OperationOf, AgreesWithPlan, ValidReceipt, Removable, Applied, AllIntact, PlanFor;
    ghost var data, folder, steps := disk.data, disk.folder, disk.steps;
    ghost var resumed := source.Ok? && Fresh(plan, source.value, disk.root, before)
                         && InProgress(data, folder, plan, source.value, before);
    if resumed {
      FreshAgrees(plan, source.value, disk.root, before);
      ShrunkNot(data, Created(plan.body.targets));
      RecoveredStaysUnderway(data, folder, data, folder, plan, source.value, disk.root, before);
    }
    var recovered := Recover(disk, plan);
    if resumed {
      RecoveredStaysUnderway(data, folder, disk.data, disk.folder, plan, source.value, disk.root, before);
    }
    if recovered.Err? {
      return Err(recovered.error);
    }
    if source.Err? {
      return Err(source.error);
    }
    var rebuilt := BuildPlan(disk, source.value);
    if resumed {
      FreshRebuilds(plan, source.value, disk.root, before);
    }
    if rebuilt != plan {
      return Err(Drift);
    }
    RebuiltIsFresh(plan, source.value, disk.root, disk.data);
    ghost var middle, at := disk.steps, disk.data;
    r := Install(disk, plan, source.value);
    LawfulTrans(steps, middle, disk.steps, Created(plan.body.targets));
    if r.Ok? {
      CompleteIsApplied(disk.data, disk.folder, plan, source.value, disk.root, at);
    }
  }

  /** Applies a plan. Whatever the disk holds, the run only creates files that were absent, with the
      recorded content, and only removes files that still are what the plan created; and success means
      that everything is in place under the plan's own receipt. If the disk is one that runs of this
      plan left behind when they lost power, this run finishes, unless it loses power too. */
  method Apply(disk: Disk, plan: Plan, confirmation: Digest, source: Result<Source, MigrationError>,
               ghost before: map<Path, Bytes>)
    returns (r: Result<Receipt, MigrationError>)
    requires disk.Valid() && (source.Ok? ==> ValidSource(source.value))
    modifies disk`data, disk`folder, disk`power, disk`steps
    ensures disk.Valid() && Lawful(old(disk.steps), disk.steps, Created(plan.body.targets))
    ensures disk.folder.rollback == old(disk.folder.rollback)
    ensures |disk.folder.staging| <= |old(disk.folder.staging)|
            || (source.Ok? && |disk.folder.staging| <= |source.value.artifacts|)
    ensures r.Ok? ==> r.value == ReceiptOf(plan) && Applied(disk.data, disk.folder, plan)
    ensures Gate(plan, confirmation).Some? ==> r == Err(Gate(plan, confirmation).value)
    ensures Gate(plan, confirmation).Some? || old(disk.folder.receipt) != Missing ==>
              disk.data == old(disk.data) && disk.folder == old(disk.folder) && disk.power == old(disk.power)
              && disk.steps == old(disk.steps)
    ensures Gate(plan, confirmation).None? && old(disk.folder.receipt) != Missing ==>
              r == if !ReceiptStands(disk.folder, plan) then Err(ReceiptInvalid)
                   else if AllIntact(disk.data, Created(plan.body.targets) + Reused(plan.body.targets))
                   then Ok(ReceiptOf(plan)) else Err(TargetChanged)
    ensures Gate(plan, confirmation).None? && old(disk.folder.receipt) == Missing ==>
              var found := Undone(old(disk.data), old(disk.folder), plan);
              if r.Ok? then
                && Recoverable(old(disk.folder), plan) && source.Ok? && PlanFor(source.value, disk.root, found) == plan
                && Complete(disk.data, disk.folder, plan, source.value, found)
              else StoppedBy(r.error, old(disk.data), old(disk.folder), disk.data, disk.power, disk.root, plan, source)
    ensures source.Ok? && confirmation == plan.hash && Fresh(plan, source.value, disk.root, before)
            && Underway(old(disk.data), old(disk.folder), plan, source.value, before)
            ==> && (r.Ok? ==> Complete(disk.data, disk.folder, plan, source.value, before))
                && (r.Err? ==> r.error == PowerLost && disk.power == 0
                               && old(disk.power) <= ApplySteps(plan, source.value, old(disk.folder))
                               && Underway(disk.data, disk.folder, plan, source.value, before))
  {
    hide Fresh, Published, Partial, OwnedStep, Created, Reused, ValidOperation, ValidPlan, Disk.Valid, Lawful, Shrunk,
         PathsOf, ReceiptOf, OperationOf, AgreesWithPlan, ValidReceipt, Removable, Applied, AllIntact,
         Gate, PlanFor, StoppedBy, Undone, Recoverable;
    LawfulAtFirst(disk.steps, Created(plan.body.targets));
    ghost var resumed := source.Ok? && confirmation == plan.hash && Fresh(plan, source.value, disk.root, before)
                         && Underway(disk.data, disk.folder, plan, source.value, before);
    if resumed {
      FreshAgrees(plan, source.value, disk.root, before);
      FreshHasNoCollision(plan, source.value, disk.root, before);
    }
    GateIs(plan, confirmation);
    StandingPlanIsValid(disk.folder, plan);
    if !ValidPlan(plan) {
      return Err(PlanInvalid);
    }
    if confirmation != plan.hash {
      return Err(Unconfirmed);
    }
    if plan.body.collisions != [] {
      return Err(WriteConflict);
    }
    if disk.folder.receipt != Missing {
      r := ReturnReceipt(disk, plan);
      StandingIsApplied(disk.data, disk.folder, plan);
      if resumed {
        CompleteIsApplied(disk.data, disk.folder, plan, source.value, disk.root, before);
      }
      return;
    }
    r := ApplyAfresh(disk, plan, source, before);
  }

  lemma ShrunkNot(data: map<Path, Bytes>, owned: seq<Owned>)
    ensures Shrunk(data, data, owned)
  {
  }

  lemma StandingPlanIsValid(folder: Folder, plan: Plan)
    ensures ReceiptStands(folder, plan) ==> ValidPlan(plan)
  {
  }

  lemma FreshRebuilds(plan: Plan, source: Source, root: nat, data: map<Path, Bytes>)
    requires Fresh(plan, source, root, data)
    ensures PlanFor(source, root, data) == plan
  {
  }

  lemma FreshHasNoCollision(plan: Plan, source: Source, root: nat, data: map<Path, Bytes>)
    requires Fresh(plan, source, root, data)
    ensures plan.body.collisions == []
  {
  }

  lemma RebuiltIsFresh(plan: Plan, source: Source, root: nat, data: map<Path, Bytes>)
    requires ValidSource(source) && PlanFor(source, root, data) == plan && plan.body.collisions == []
    ensures Fresh(plan, source, root, data)
  {
  }
}
