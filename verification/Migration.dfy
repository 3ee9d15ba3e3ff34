/** Migrating data files under a durable plan: what the records mean, and the disk they live on. */
module Migration {
  import opened Protocol

  type Bytes = seq<int>
  type MigrationId = int

  const SCHEMA_VERSION: nat := 1

  /** A file under the target root: the three a migration may own, or any other. */
  datatype Path = ConfigFile | SessionJournal | CapabilityMetadata(id: MigrationId) | OtherFile(name: nat)

  predicate Allowed(id: MigrationId, path: Path) {
    path == ConfigFile || path == SessionJournal || path == CapabilityMetadata(id)
  }

  /** SHA-256 as a free injective digest of what was hashed. */
  datatype Digest =
    | OfBytes(bytes: Bytes)
    | OfPlan(plan: PlanBody)
    | OfOperation(operation: OperationBody)
    | OfReceipt(receipt: ReceiptBody)
    | OfTree(tree: nat)

  datatype Disposition = Absent | ByteIdentical | Collides

  datatype Target = Target(path: Path, digest: Digest, bytes: nat, disposition: Disposition)
  datatype CollisionItem = CollisionItem(path: Path, expected: Digest, actual: Digest)
  datatype Owned = Owned(path: Path, digest: Digest, bytes: nat)

  /** The source tree as a migration reads it: deterministic artifacts and an inventory of the rest. */
  datatype Artifact = Artifact(path: Path, bytes: Bytes)
  datatype Source = Source(root: nat, fingerprint: Digest, id: MigrationId, inventory: nat, artifacts: seq<Artifact>)

  datatype PlanBody = PlanBody(
    version: nat, id: MigrationId, sourceRoot: nat, targetRoot: nat, fingerprint: Digest,
    inventory: nat, targets: seq<Target>, collisions: seq<CollisionItem>)
  datatype Plan = Plan(body: PlanBody, hash: Digest)

  datatype OperationBody = OperationBody(
    version: nat, id: MigrationId, planHash: Digest, created: seq<Owned>, reused: seq<Owned>)
  datatype Operation = Operation(body: OperationBody, hash: Digest)

  datatype ReceiptBody = ReceiptBody(
    version: nat, id: MigrationId, planHash: Digest, sourceRoot: nat, targetRoot: nat, fingerprint: Digest,
    created: seq<Owned>, reused: seq<Owned>)
  datatype Receipt = Receipt(body: ReceiptBody, hash: Digest)

  datatype Report = Report(id: MigrationId, receiptHash: Digest, sourceUnchanged: bool, targetsVerified: nat,
                           rolledBack: bool)

  datatype MigrationError =
    | SourceMissing | WriteConflict | Drift | Unconfirmed | PlanInvalid | ReceiptInvalid | TargetChanged
    | RecoveryFailed | ReadFailed | PowerLost

  // ---------------------------------------------------------------- validation

  ghost predicate DistinctPaths(owned: seq<Owned>) {
    forall i, j :: 0 <= i < j < |owned| ==> owned[i].path != owned[j].path
  }

  predicate UniqueTargets(targets: seq<Target>) {
    forall i, j :: 0 <= i < j < |targets| ==> targets[i].path != targets[j].path
  }

  predicate ValidPlan(plan: Plan) {
    plan.body.version == SCHEMA_VERSION && plan.hash == OfPlan(plan.body) && UniqueTargets(plan.body.targets)
  }

  predicate ValidOwnership(id: MigrationId, owned: seq<Owned>) {
    && (forall i :: 0 <= i < |owned| ==> Allowed(id, owned[i].path))
    && (forall i, j :: 0 <= i < j < |owned| ==> owned[i].path != owned[j].path)
  }

  predicate ValidOperation(op: Operation) {
    && op.body.version == SCHEMA_VERSION && op.hash == OfOperation(op.body)
    && ValidOwnership(op.body.id, op.body.created + op.body.reused)
  }

  predicate ValidReceipt(receipt: Receipt) {
    && receipt.body.version == SCHEMA_VERSION && receipt.hash == OfReceipt(receipt.body)
    && ValidOwnership(receipt.body.id, receipt.body.created + receipt.body.reused)
  }

  // ---------------------------------------------------------------- plans and operations

  function OwnedOf(t: Target): Owned { Owned(t.path, t.digest, t.bytes) }

  function Created(targets: seq<Target>): seq<Owned> {
    if targets == [] then [] else
    var last := targets[|targets| - 1];
    Created(targets[..|targets| - 1]) + if last.disposition == Absent then [OwnedOf(last)] else []
  }

  function Reused(targets: seq<Target>): seq<Owned> {
    if targets == [] then [] else
    var last := targets[|targets| - 1];
    Reused(targets[..|targets| - 1]) + if last.disposition == ByteIdentical then [OwnedOf(last)] else []
  }

  predicate AnyCollides(targets: seq<Target>) {
    exists i :: 0 <= i < |targets| && targets[i].disposition == Collides
  }

  function OperationOf(plan: Plan): Operation {
    var body := OperationBody(SCHEMA_VERSION, plan.body.id, plan.hash,
                              Created(plan.body.targets), Reused(plan.body.targets));
    Operation(body, OfOperation(body))
  }

  function ReceiptOf(plan: Plan): Receipt {
    var body := ReceiptBody(SCHEMA_VERSION, plan.body.id, plan.hash, plan.body.sourceRoot, plan.body.targetRoot,
                            plan.body.fingerprint, Created(plan.body.targets), Reused(plan.body.targets));
    Receipt(body, OfReceipt(body))
  }

  method OperationForPlan(plan: Plan) returns (r: Result<Operation, MigrationError>)
    ensures r == if AnyCollides(plan.body.targets) then Err(WriteConflict) else Ok(OperationOf(plan))
  {
    var created: seq<Owned> := [];
    var reused: seq<Owned> := [];
    var targets := plan.body.targets;
    for i := 0 to |targets|
      invariant created == Created(targets[..i]) && reused == Reused(targets[..i])
      invariant forall k :: 0 <= k < i ==> targets[k].disposition != Collides
    {
      assert targets[..i + 1][..i] == targets[..i];
      match targets[i].disposition {
        case Absent => created := created + [OwnedOf(targets[i])];
        case ByteIdentical => reused := reused + [OwnedOf(targets[i])];
        case Collides => return Err(WriteConflict);
      }
    }
    assert targets[..|targets|] == targets;
    var body := OperationBody(SCHEMA_VERSION, plan.body.id, plan.hash, created, reused);
    return Ok(Operation(body, OfOperation(body)));
  }

  // ---------------------------------------------------------------- building a plan

  function TargetFor(data: map<Path, Bytes>, a: Artifact): Target {
    Target(a.path, OfBytes(a.bytes), |a.bytes|,
           if a.path !in data then Absent
           else if data[a.path] == a.bytes then ByteIdentical
           else Collides)
  }

  function TargetsFor(data: map<Path, Bytes>, artifacts: seq<Artifact>): (targets: seq<Target>)
    ensures |targets| == |artifacts|
    ensures forall i :: 0 <= i < |targets| ==> targets[i] == TargetFor(data, artifacts[i])
  {
    seq(|artifacts|, i requires 0 <= i < |artifacts| => TargetFor(data, artifacts[i]))
  }

  function CollisionsFor(data: map<Path, Bytes>, artifacts: seq<Artifact>): (items: seq<CollisionItem>)
    ensures items == [] <==>
            forall i :: 0 <= i < |artifacts| && artifacts[i].path in data ==>
              data[artifacts[i].path] == artifacts[i].bytes
  {
    if artifacts == [] then [] else
    var last := artifacts[|artifacts| - 1];
    CollisionsFor(data, artifacts[..|artifacts| - 1]) +
    if last.path in data && data[last.path] != last.bytes
    then [CollisionItem(last.path, OfBytes(last.bytes), OfBytes(data[last.path]))] else []
  }

  /** The plan a source makes for these data files. */
  function PlanFor(source: Source, targetRoot: nat, data: map<Path, Bytes>): Plan {
    var body := PlanBody(SCHEMA_VERSION, source.id, source.root, targetRoot, source.fingerprint, source.inventory,
                         TargetsFor(data, source.artifacts), CollisionsFor(data, source.artifacts));
    Plan(body, OfPlan(body))
  }

  /** Classifies each artifact against the files that are there. */
  method ClassifyTargets(data: map<Path, Bytes>, artifacts: seq<Artifact>)
    returns (targets: seq<Target>, collisions: seq<CollisionItem>)
    ensures targets == TargetsFor(data, artifacts) && collisions == CollisionsFor(data, artifacts)
  {
    targets, collisions := [], [];
    for i := 0 to |artifacts|
      invariant targets == TargetsFor(data, artifacts[..i])
      invariant collisions == CollisionsFor(data, artifacts[..i])
    {
      var a := artifacts[i];
      assert artifacts[..i + 1][..i] == artifacts[..i];
      var disposition := Absent;
      if a.path in data {
        var actual := OfBytes(data[a.path]);
        if |data[a.path]| == |a.bytes| && actual == OfBytes(a.bytes) {
          disposition := ByteIdentical;
        } else {
          disposition := Collides;
          collisions := collisions + [CollisionItem(a.path, OfBytes(a.bytes), actual)];
        }
      }
      targets := targets + [Target(a.path, OfBytes(a.bytes), |a.bytes|, disposition)];
    }
    assert artifacts[..|artifacts|] == artifacts;
  }

  /** Artifacts have the migration's own file names, each once. */
  predicate ValidSource(source: Source) {
    && (forall i :: 0 <= i < |source.artifacts| ==> Allowed(source.id, source.artifacts[i].path))
    && (forall i, j :: 0 <= i < j < |source.artifacts| ==> source.artifacts[i].path != source.artifacts[j].path)
  }

  predicate Matches(bytes: Bytes, t: Owned) { |bytes| == t.bytes && OfBytes(bytes) == t.digest }

  predicate Intact(data: map<Path, Bytes>, t: Owned) { t.path in data && Matches(data[t.path], t) }

  predicate AllIntact(data: map<Path, Bytes>, owned: seq<Owned>) {
    forall i :: 0 <= i < |owned| ==> Intact(data, owned[i])
  }

  // ---------------------------------------------------------------- the disk

  datatype Record<T> = Missing | Unreadable | Holds(value: T)

  /** The record folder of one migration. */
  datatype Folder = Folder(
    plan: Record<Plan>, operation: Record<Operation>, staging: seq<Artifact>,
    receipt: Record<Receipt>, rollback: Record<Report>)

  datatype DataStep = CreatedFile(path: Path, bytes: Bytes) | RemovedFile(path: Path, bytes: Bytes)

  /** Carrying out data steps: a file is only created where there is none, and only removed as it is. */
  function Replay(data: map<Path, Bytes>, steps: seq<DataStep>): Option<map<Path, Bytes>> {
    if steps == [] then Some(data) else
    var before := Replay(data, steps[..|steps| - 1]);
    if before.None? then None else
    var step := steps[|steps| - 1];
    if step.CreatedFile? then
      if step.path in before.value then None else Some(before.value[step.path := step.bytes])
    else
      if step.path in before.value && before.value[step.path] == step.bytes then Some(before.value - {step.path})
      else None
  }

  lemma ReplayStep(base: map<Path, Bytes>, steps: seq<DataStep>, data: map<Path, Bytes>, step: DataStep)
    requires Replay(base, steps) == Some(data)
    requires step.CreatedFile? ==> step.path !in data
    requires step.RemovedFile? ==> step.path in data && data[step.path] == step.bytes
    ensures Replay(base, steps + [step])
            == Some(if step.CreatedFile? then data[step.path := step.bytes] else data - {step.path})
  {
    assert (steps + [step])[..|steps|] == steps;
  }

  ghost predicate OwnedStep(step: DataStep, owned: seq<Owned>) {
    exists t :: t in owned && t.path == step.path && Matches(step.bytes, t)
  }

  function StagedAt(staging: seq<Artifact>, path: Path): Option<Bytes> {
    if staging == [] then None
    else if staging[0].path == path then Some(staging[0].bytes)
    else StagedAt(staging[1..], path)
  }

  /** The files under the target root. Every change is one atomic step; `power` says how many more
      there can be before the process dies, after which nothing changes any more. */
  class Disk {
    const root: nat
    var data: map<Path, Bytes>
    var folder: Folder
    var power: nat
    ghost var base: map<Path, Bytes>
    ghost var steps: seq<DataStep>

    /** The data files are what the steps so far made of the ones the run began with. */
    ghost predicate Valid()
      reads `base, `steps, `data
    {
      Replay(base, steps) == Some(data)
    }

    constructor (root: nat, data: map<Path, Bytes>, folder: Folder)
      ensures Valid() && this.root == root && this.data == base == data && this.folder == folder && steps == []
    {
      this.root, this.data, this.folder, power := root, data, folder, 0;
      base, steps := data, [];
    }

    /** Between runs anything may happen to the files; a new run has some power of its own. */
    method NewRun(data: map<Path, Bytes>, folder: Folder, power: nat)
      modifies this
      ensures Valid() && this.data == base == data && this.folder == folder && this.power == power && steps == []
    {
      this.data, this.folder, this.power := data, folder, power;
      base, steps := data, [];
    }

    method Create(path: Path, bytes: Bytes) returns (r: Result<(), MigrationError>)
      requires Valid()
      modifies this`data, this`power, this`steps
      ensures Valid()
      ensures r == if path in old(data) then Err(WriteConflict) else if old(power) == 0 then Err(PowerLost) else Ok(())
      ensures r.Err? ==> data == old(data) && steps == old(steps) && power == old(power)
      ensures r.Ok? ==> data == old(data)[path := bytes] && power == old(power) - 1
                        && steps == old(steps) + [CreatedFile(path, bytes)]
    {
      if path in data {
        return Err(WriteConflict);
      }
      if power == 0 {
        return Err(PowerLost);
      }
      hide Replay;
      ReplayStep(base, steps, data, CreatedFile(path, bytes));
      data := data[path := bytes];
      power := power - 1;
      steps := steps + [CreatedFile(path, bytes)];
      return Ok(());
    }

    method Remove(path: Path) returns (r: Result<(), MigrationError>)
      requires Valid() && path in data
      modifies this`data, this`power, this`steps
      ensures Valid()
      ensures r == if old(power) == 0 then Err(PowerLost) else Ok(())
      ensures r.Err? ==> data == old(data) && steps == old(steps) && power == old(power)
      ensures r.Ok? ==> data == old(data) - {path} && power == old(power) - 1
                        && steps == old(steps) + [RemovedFile(path, old(data)[path])]
    {
      if power == 0 {
        return Err(PowerLost);
      }
      hide Replay;
      ReplayStep(base, steps, data, RemovedFile(path, data[path]));
      steps := steps + [RemovedFile(path, data[path])];
      data := data - {path};
      power := power - 1;
      return Ok(());
    }

    /** One atomic change of the record folder: a new record or staged file, or one staged file less. */
    method SetFolder(next: Folder) returns (r: Result<(), MigrationError>)
      modifies this`folder, this`power
      ensures r == if old(power) == 0 then Err(PowerLost) else Ok(())
      ensures folder == (if r.Ok? then next else old(folder))
      ensures power == old(power) - if r.Ok? then 1 else 0
    {
      if power == 0 {
        return Err(PowerLost);
      }
      folder := next;
      power := power - 1;
      return Ok(());
    }
  }
}
