/** The guard on knowledge patches, and the page set an accepted patch makes. */
module Knowledge {
  import opened Protocol

  type PageId = int
  type TopicId = int
  type PagePath = int
  type EvidenceId = int
  type Hash = int

  const ZERO_HASH: Hash := 0
  const MAX_OPERATIONS: nat := 32
  const MAX_SOURCES: nat := 64
  const MAX_PATCH_BYTES: nat := 256 * 1_024

  datatype PageStatus = Current | Superseded
  datatype Citation = Citation(sourceId: EvidenceId, hash: Hash)

  datatype GuardError =
    | InvalidPatch | WrongJob | UnknownSource | SourceHashMismatch | DuplicatePage | DuplicateTarget
    | StaleHash | CurrentTruthConflict | InvalidSupersession | SensitiveContent | InjectionContent | OversizedPatch

  /** A page as a patch carries it. Of its path, title and body the model keeps whether they are
      well formed, and the content rule they break, if any. */
  datatype KnowledgePage = KnowledgePage(
    pageId: PageId, topicId: TopicId, path: PagePath, status: PageStatus, supersededBy: Option<PageId>,
    sources: seq<Citation>, wellFormed: bool, contentFault: Option<GuardError>)
  {
    predicate Valid() {
      && wellFormed && 1 <= |sources| <= MAX_SOURCES
      && (forall i :: 0 <= i < |sources| - 1 ==> sources[i].sourceId < sources[i + 1].sourceId)
      && (status == Current <==> supersededBy.None?)
    }
  }

  datatype Operation =
    | Create(page: KnowledgePage, encoded: nat)
    | Replace(page: KnowledgePage, expected: Hash, encoded: nat)
    | Remove(pageId: PageId, path: PagePath, expected: Hash, wellFormed: bool, encoded: nat)
  {
    function Id(): PageId { if Remove? then pageId else page.pageId }
    function At(): PagePath { if Remove? then path else page.path }
    predicate Valid() { if Remove? then wellFormed else page.Valid() }
  }

  /** `overhead` and the `encoded` sizes of the operations add up to the encoded size of the patch. */
  datatype Patch = Patch(jobId: int, operations: seq<Operation>, overhead: nat)

  datatype CurrentPage = CurrentPage(
    pageId: PageId, topicId: TopicId, path: PagePath, status: PageStatus, supersededBy: Option<PageId>, hash: Hash)

  datatype Context = Context(jobId: int, evidence: map<EvidenceId, Hash>, pages: seq<CurrentPage>)

  type Pages = map<PageId, CurrentPage>

  // ---------------------------------------------------------------- simple patch application

  function Projected(page: KnowledgePage): CurrentPage {
    CurrentPage(page.pageId, page.topicId, page.path, page.status, page.supersededBy, ZERO_HASH)
  }

  function ApplyOne(pages: Pages, op: Operation): Pages {
    if op.Remove? then pages - {op.pageId} else pages[op.page.pageId := Projected(op.page)]
  }

  /** The page set after the operations, applied one after the other. */
  function ApplyAll(pages: Pages, ops: seq<Operation>): Pages {
    if ops == [] then pages else ApplyOne(ApplyAll(pages, ops[..|ops| - 1]), ops[|ops| - 1])
  }

  function ById(pages: seq<CurrentPage>): Pages {
    map i | 0 <= i < |pages| && (forall k :: i < k < |pages| ==> pages[k].pageId != pages[i].pageId) ::
      pages[i].pageId := pages[i]
  }

  function EncodedBytes(ops: seq<Operation>): nat {
    if ops == [] then 0 else EncodedBytes(ops[..|ops| - 1]) + ops[|ops| - 1].encoded
  }

  // ---------------------------------------------------------------- when a patch is accepted

  predicate SourcesKnown(sources: seq<Citation>, evidence: map<EvidenceId, Hash>) {
    forall i :: 0 <= i < |sources| ==>
      sources[i].sourceId in evidence && evidence[sources[i].sourceId] == sources[i].hash
  }

  ghost predicate PathTaken(pages: Pages, path: PagePath) {
    exists id :: id in pages && pages[id].path == path
  }

  /** An operation fits the page set the patch starts from. */
  ghost predicate Fits(op: Operation, pages: Pages, evidence: map<EvidenceId, Hash>) {
    && op.Valid()
    && (!op.Remove? ==> op.page.contentFault.None? && SourcesKnown(op.page.sources, evidence))
    && (op.Create? ==> op.Id() !in pages && !PathTaken(pages, op.At()))
    && (!op.Create? ==> op.Id() in pages && pages[op.Id()].path == op.At() && pages[op.Id()].hash == op.expected)
    && (op.Replace? ==> pages[op.Id()].topicId == op.page.topicId)
  }

  ghost predicate OpsDistinct(ops: seq<Operation>) {
    forall i, j :: 0 <= i < j < |ops| ==> ops[i].Id() != ops[j].Id() && ops[i].At() != ops[j].At()
  }

  /** Ids and paths are unique: two pages never share either. */
  ghost predicate KeyedById(pages: Pages) {
    && (forall id :: id in pages ==> pages[id].pageId == id)
    && (forall a, b :: a in pages && b in pages && pages[a].path == pages[b].path ==> a == b)
  }

  /** A superseded page points directly to a current page of its own topic. */
  ghost predicate Grounded(pages: Pages, page: CurrentPage) {
    if page.status == Current then page.supersededBy.None?
    else
      && page.supersededBy.Some? && page.supersededBy.value in pages
      && pages[page.supersededBy.value].topicId == page.topicId
      && pages[page.supersededBy.value].status == Current
  }

  ghost predicate Truthful(pages: Pages) {
    && (forall a, b :: (a in pages && b in pages && pages[a].status == Current && pages[b].status == Current
                        && pages[a].topicId == pages[b].topicId) ==> a == b)
    && (forall id :: id in pages ==> Grounded(pages, pages[id]))
  }

  ghost predicate UniquePages(pages: seq<CurrentPage>) {
    forall i, j :: 0 <= i < j < |pages| ==> pages[i].pageId != pages[j].pageId && pages[i].path != pages[j].path
  }

  /** What acceptance comes to, with no mention of the order of the operations. */
  ghost predicate Accepted(patch: Patch, context: Context) {
    && 1 <= |patch.operations| <= MAX_OPERATIONS
    && patch.jobId == context.jobId
    && patch.overhead + EncodedBytes(patch.operations) <= MAX_PATCH_BYTES
    && UniquePages(context.pages) && Truthful(ById(context.pages))
    && OpsDistinct(patch.operations)
    && (forall i :: 0 <= i < |patch.operations| ==> Fits(patch.operations[i], ById(context.pages), context.evidence))
    && Truthful(ApplyAll(ById(context.pages), patch.operations))
  }

  /** The page a change names is there as it was expected: same id, same place, same content. */
  ghost predicate IsThere(pages: seq<CurrentPage>, id: PageId, path: PagePath, expected: Hash, i: nat)
    requires i < |pages|
  {
    pages[i].pageId == id && pages[i].path == path && pages[i].hash == expected
  }

  lemma LookedUp(pages: seq<CurrentPage>, id: PageId)
    requires UniquePages(pages)
    ensures id in ById(pages) <==> exists i :: 0 <= i < |pages| && pages[i].pageId == id
    ensures id in ById(pages) ==> exists i :: 0 <= i < |pages| && pages[i] == ById(pages)[id] && pages[i].pageId == id
  {
    if i :| 0 <= i < |pages| && pages[i].pageId == id {
      assert forall k :: i < k < |pages| ==> pages[k].pageId != pages[i].pageId;
    }
  }

  /** The page is well formed, breaks no content rule, points on exactly if it is superseded, and cites one to
      sixty-four pieces of known evidence, each once, in order, with its hash. */
  ghost predicate PageTells(page: KnowledgePage, evidence: map<EvidenceId, Hash>) {
    && page.wellFormed && page.contentFault.None? && (page.supersededBy.Some? <==> page.status == Superseded)
    && 1 <= |page.sources| <= 64
    && (forall i, k :: 0 <= i < k < |page.sources| ==> page.sources[i].sourceId < page.sources[k].sourceId)
    && (forall c :: c in page.sources ==> c.sourceId in evidence && evidence[c.sourceId] == c.hash)
  }

  lemma {:induction false} InOrder(sources: seq<Citation>, i: nat, k: nat)
    requires forall n :: 0 <= n < |sources| - 1 ==> sources[n].sourceId < sources[n + 1].sourceId
    requires i < k < |sources|
    ensures sources[i].sourceId < sources[k].sourceId
  {
    if i + 1 < k {
      InOrder(sources, i, k - 1);
    }
    assert sources[k - 1].sourceId < sources[k - 1 + 1].sourceId;
  }

  lemma PageIsTold(page: KnowledgePage, evidence: map<EvidenceId, Hash>)
    ensures page.Valid() && page.contentFault.None? && SourcesKnown(page.sources, evidence)
            <==> PageTells(page, evidence)
  {
    if page.Valid() {
      forall i, k | 0 <= i < k < |page.sources| ensures page.sources[i].sourceId < page.sources[k].sourceId {
        InOrder(page.sources, i, k);
      }
    }
  }

  /** What an accepted operation may do: create a page whose id and place are free, or change or remove one
      that is as it is expected to be, keeping its topic; and it cites known evidence only. */
  ghost predicate OperationTells(op: Operation, context: Context) {
    match op
    case Create(page, _) =>
      && PageTells(page, context.evidence)
      && (forall i :: 0 <= i < |context.pages| ==>
            context.pages[i].pageId != page.pageId && context.pages[i].path != page.path)
    case Replace(page, expected, _) =>
      && PageTells(page, context.evidence)
      && (exists i :: 0 <= i < |context.pages| && context.pages[i].topicId == page.topicId
                      && IsThere(context.pages, page.pageId, page.path, expected, i))
    case Remove(id, path, expected, wellFormed, _) =>
      && wellFormed
      && (exists i :: 0 <= i < |context.pages| && IsThere(context.pages, id, path, expected, i))
  }

  lemma FitsTells(op: Operation, context: Context)
    requires UniquePages(context.pages) && Fits(op, ById(context.pages), context.evidence)
    ensures OperationTells(op, context)
  {
    var pages := ById(context.pages);
    LookedUp(context.pages, op.Id());
    if !op.Remove? {
      PageIsTold(op.page, context.evidence);
    }
    if op.Create? {
      forall i | 0 <= i < |context.pages| ensures context.pages[i].path != op.page.path {
        LookedUp(context.pages, context.pages[i].pageId);
      }
    } else {
      var i :| 0 <= i < |context.pages| && context.pages[i] == pages[op.Id()] && context.pages[i].pageId == op.Id();
      assert IsThere(context.pages, op.Id(), op.At(), op.expected, i);
    }
  }

  /** Every operation of an accepted patch may do what it does, and the patch stays within the limits. */
  lemma AcceptedTells(patch: Patch, context: Context)
    requires Accepted(patch, context)
    ensures patch.jobId == context.jobId && 1 <= |patch.operations| <= 32
    ensures patch.overhead + EncodedBytes(patch.operations) <= 262_144
    ensures forall n :: 0 <= n < |patch.operations| ==> OperationTells(patch.operations[n], context)
  {
    hide ApplyAll, Truthful, EncodedBytes;
    forall n | 0 <= n < |patch.operations| ensures OperationTells(patch.operations[n], context) {
      FitsTells(patch.operations[n], context);
    }
  }

  // ---------------------------------------------------------------- why a patch is refused

  ghost predicate WellShaped(ops: seq<Operation>) {
    && 1 <= |ops| <= MAX_OPERATIONS
    && (forall i :: 0 <= i < |ops| ==> ops[i].Valid())
    && (forall i, j :: 0 <= i < j < |ops| ==> ops[i].Id() != ops[j].Id())
  }

  /** Two current pages share a topic. */
  ghost predicate Contested(pages: Pages) {
    exists a, b :: a in pages && b in pages && a != b && pages[a].status == Current && pages[b].status == Current
                   && pages[a].topicId == pages[b].topicId
  }

  ghost predicate TruthFault(e: GuardError, pages: Pages) {
    !Truthful(pages) && e == if Contested(pages) then CurrentTruthConflict else InvalidSupersession
  }

  /** The first citation that is not the evidence it names. */
  ghost predicate SourceFault(e: GuardError, sources: seq<Citation>, evidence: map<EvidenceId, Hash>) {
    exists k :: 0 <= k < |sources| && SourcesKnown(sources[..k], evidence) && CitationFault(e, sources[k], evidence)
  }

  ghost predicate CitationFault(e: GuardError, c: Citation, evidence: map<EvidenceId, Hash>) {
    if c.sourceId !in evidence then e == UnknownSource
    else evidence[c.sourceId] != c.hash && e == SourceHashMismatch
  }

  /** The path is one that an earlier operation names. */
  ghost predicate NamedBefore(path: PagePath, earlier: seq<Operation>) {
    exists k :: 0 <= k < |earlier| && earlier[k].At() == path
  }

  /** What is wrong with an operation after some that fit: its content, then its sources, then its target. */
  ghost predicate OperationFault(e: GuardError, op: Operation, earlier: seq<Operation>, pages: Pages,
                                 evidence: map<EvidenceId, Hash>)
  {
    if !op.Remove? && op.page.contentFault.Some? then e == op.page.contentFault.value
    else if !op.Remove? && !SourcesKnown(op.page.sources, evidence) then SourceFault(e, op.page.sources, evidence)
    else if NamedBefore(op.At(), earlier) || (op.Create? && (op.Id() in pages || PathTaken(pages, op.At()))) then
      e == DuplicateTarget
    else if op.Create? then false
    else if op.Id() !in pages then e == DuplicatePage
    else !Fits(op, pages, evidence) && e == StaleHash
  }

  ghost predicate FirstFault(e: GuardError, ops: seq<Operation>, n: nat, pages: Pages, evidence: map<EvidenceId, Hash>)
    requires n < |ops|
  {
    && OpsDistinct(ops[..n]) && (forall k :: 0 <= k < n ==> Fits(ops[k], pages, evidence))
    && OperationFault(e, ops[n], ops[..n], pages, evidence)
  }

  ghost predicate AnOperationFault(e: GuardError, ops: seq<Operation>, pages: Pages, evidence: map<EvidenceId, Hash>) {
    exists n :: 0 <= n < |ops| && FirstFault(e, ops, n, pages, evidence)
  }

  /** The first thing that is wrong, in the order: the patch's shape, its job, its size, the pages before,
      each operation in turn, and the pages after. */
  ghost predicate RefusedFor(e: GuardError, patch: Patch, context: Context) {
    var ops, pages := patch.operations, ById(context.pages);
    if !WellShaped(ops) then e == InvalidPatch
    else if patch.jobId != context.jobId then e == WrongJob
    else if patch.overhead + EncodedBytes(ops) > MAX_PATCH_BYTES then e == OversizedPatch
    else if !UniquePages(context.pages) then e == DuplicatePage
    else if !Truthful(pages) then TruthFault(e, pages)
    else
      || AnOperationFault(e, ops, pages, context.evidence)
      || (OpsDistinct(ops) && (forall k :: 0 <= k < |ops| ==> Fits(ops[k], pages, context.evidence))
          && TruthFault(e, ApplyAll(pages, ops)))
  }

  /** In a truthful page set every topic that has a page has exactly one current page. */
  lemma OneCurrentPage(pages: Pages, id: PageId)
    requires KeyedById(pages) && Truthful(pages) && id in pages
    ensures exists c ::
              && c in pages && pages[c].topicId == pages[id].topicId && pages[c].status == Current
              && forall d ::
                   d in pages && pages[d].topicId == pages[id].topicId && pages[d].status == Current ==> d == c
  {
    assert Grounded(pages, pages[id]);
    var c := if pages[id].status == Current then id else pages[id].supersededBy.value;
    assert c in pages && pages[c].topicId == pages[id].topicId && pages[c].status == Current;
  }

  // ---------------------------------------------------------------- what the operations make

  /** Where a page of the result comes from: its own operation, or the page set before. */
  lemma {:induction false} AppliedAt(pages: Pages, ops: seq<Operation>, id: PageId)
    requires OpsDistinct(ops)
    ensures (forall k :: 0 <= k < |ops| ==> ops[k].Id() != id) ==>
              (id in ApplyAll(pages, ops) <==> id in pages)
              && (id in pages ==> ApplyAll(pages, ops)[id] == pages[id])
    ensures forall k :: 0 <= k < |ops| && ops[k].Id() == id ==>
              if ops[k].Remove? then id !in ApplyAll(pages, ops)
              else id in ApplyAll(pages, ops) && ApplyAll(pages, ops)[id] == Projected(ops[k].page)
  {
    if ops != [] {
      var init := ops[..|ops| - 1];
      AppliedAt(pages, init, id);
      forall k | 0 <= k < |ops| && ops[k].Id() == id
        ensures if ops[k].Remove? then id !in ApplyAll(pages, ops)
                else id in ApplyAll(pages, ops) && ApplyAll(pages, ops)[id] == Projected(ops[k].page)
      {
        if k < |ops| - 1 {
          assert init[k] == ops[k];
        }
      }
      if forall k :: 0 <= k < |ops| ==> ops[k].Id() != id {
        assert forall k :: 0 <= k < |init| ==> init[k] == ops[k];
      }
    }
  }

  /** Fitting operations keep ids and paths unique. */
  lemma {:induction false} AppliedIsKeyed(pages: Pages, ops: seq<Operation>, evidence: map<EvidenceId, Hash>)
    requires KeyedById(pages) && OpsDistinct(ops)
    requires forall i :: 0 <= i < |ops| ==> Fits(ops[i], pages, evidence)
    ensures KeyedById(ApplyAll(pages, ops))
    ensures forall path :: PathTaken(ApplyAll(pages, ops), path) ==>
              PathTaken(pages, path) || exists k :: 0 <= k < |ops| && ops[k].At() == path
  {
    if ops != [] {
      var init, op := ops[..|ops| - 1], ops[|ops| - 1];
      assert forall k :: 0 <= k < |init| ==> init[k] == ops[k];
      AppliedIsKeyed(pages, init, evidence);
      NextKeyed(pages, init, op, evidence);
      var after := ApplyAll(pages, ops);
      forall path | PathTaken(after, path)
        ensures PathTaken(pages, path) || exists k :: 0 <= k < |ops| && ops[k].At() == path
      {
        var id :| id in after && after[id].path == path;
        if id == op.Id() {
          assert ops[|ops| - 1].At() == path;
        } else {
          assert PathTaken(ApplyAll(pages, init), path);
          if !PathTaken(pages, path) {
            var k :| 0 <= k < |init| && init[k].At() == path;
            assert ops[k].At() == path;
          }
        }
      }
    }
  }

  lemma NextKeyed(pages: Pages, init: seq<Operation>, op: Operation, evidence: map<EvidenceId, Hash>)
    requires KeyedById(pages) && OpsDistinct(init + [op]) && Fits(op, pages, evidence)
    requires var before := ApplyAll(pages, init);
             && KeyedById(before)
             && forall path :: PathTaken(before, path) ==>
                  PathTaken(pages, path) || exists k :: 0 <= k < |init| && init[k].At() == path
    ensures KeyedById(ApplyOne(ApplyAll(pages, init), op))
    ensures op.Create? ==> op.Id() !in ApplyAll(pages, init) && !PathTaken(ApplyAll(pages, init), op.At())
    ensures !op.Create? ==> op.Id() in ApplyAll(pages, init) && ApplyAll(pages, init)[op.Id()] == pages[op.Id()]
  {
    var all := init + [op];
    assert forall k :: 0 <= k < |init| ==> all[k] == init[k] && all[|init|] == op;
    assert OpsDistinct(init);
    AppliedAt(pages, init, op.Id());
    var before := ApplyAll(pages, init);
    if op.Create? {
      assert !PathTaken(before, op.At());
      forall a | a in before ensures before[a].path != op.At() {
      }
    }
    if op.Replace? {
      forall a | a in before && before[a].path == op.At() ensures a == op.Id() {
        assert before[op.Id()].path == op.At();
      }
    }
  }

  // ---------------------------------------------------------------- the validator

  /** All pages of the map, in id order. */
  ghost predicate Lists(pages: seq<CurrentPage>, of: Pages) {
    && (forall id :: id in of ==> of[id].pageId == id)
    && (forall i :: 0 <= i < |pages| ==> pages[i].pageId in of && of[pages[i].pageId] == pages[i])
    && (forall id :: id in of ==> exists i :: 0 <= i < |pages| && pages[i] == of[id])
    && (forall i, j :: 0 <= i < j < |pages| ==> pages[i].pageId != pages[j].pageId)
  }

  method PagesOf(projection: Pages) returns (pages: seq<CurrentPage>)
    requires forall id :: id in projection ==> projection[id].pageId == id
    ensures Lists(pages, projection)
  {
    pages := [];
    var rest := projection.Keys;
    while rest != {}
      invariant rest <= projection.Keys
      invariant forall i :: 0 <= i < |pages| ==>
                  pages[i].pageId in projection && projection[pages[i].pageId] == pages[i] && pages[i].pageId !in rest
      invariant forall id :: id in projection && id !in rest ==>
                  exists i :: 0 <= i < |pages| && pages[i] == projection[id]
      invariant forall i, j :: 0 <= i < j < |pages| ==> pages[i].pageId != pages[j].pageId
      decreases rest
    {
      var id := Least(rest);
      ghost var before := pages;
      pages := pages + [projection[id]];
      rest := rest - {id};
      forall x | x in projection && x !in rest ensures exists i :: 0 <= i < |pages| && pages[i] == projection[x] {
        if x == id {
          assert pages[|before|] == projection[x];
        } else {
          var i :| 0 <= i < |before| && before[i] == projection[x];
          assert pages[i] == projection[x];
        }
      }
    }
  }

  function FindPage(pages: seq<CurrentPage>, id: PageId): (p: Option<CurrentPage>)
    ensures p.Some? ==> p.value in pages && p.value.pageId == id
    ensures p.None? ==> forall i :: 0 <= i < |pages| ==> pages[i].pageId != id
  {
    if pages == [] then None
    else if pages[0].pageId == id then Some(pages[0])
    else FindPage(pages[1..], id)
  }

  ghost predicate OneCurrentEach(pages: seq<CurrentPage>) {
    forall j, k :: 0 <= j < k < |pages| && pages[j].status == Current && pages[k].status == Current ==>
                     pages[j].topicId != pages[k].topicId
  }

  method CheckOneCurrent(pages: seq<CurrentPage>) returns (ok: bool)
    ensures ok <==> OneCurrentEach(pages)
  {
    var topics: set<TopicId> := {};
    for i := 0 to |pages|
      invariant forall k :: 0 <= k < i && pages[k].status == Current ==> pages[k].topicId in topics
      invariant forall t :: t in topics ==>
                  exists k :: 0 <= k < i && pages[k].status == Current && pages[k].topicId == t
      invariant forall j, k :: 0 <= j < k < i && pages[j].status == Current && pages[k].status == Current ==>
                                 pages[j].topicId != pages[k].topicId
    {
      if pages[i].status == Current {
        if pages[i].topicId in topics {
          ghost var k :| 0 <= k < i && pages[k].status == Current && pages[k].topicId == pages[i].topicId;
          return false;
        }
        topics := topics + {pages[i].topicId};
      }
    }
    return true;
  }

  /** One page current per topic, and every supersession direct and within its topic. */
  method ValidateTruth(pages: seq<CurrentPage>, ghost of: Pages) returns (error: Option<GuardError>)
    requires Lists(pages, of)
    ensures error.None? <==> Truthful(of)
    ensures error.Some? ==> TruthFault(error.value, of)
  {
    hide Lists, Truthful, OneCurrentEach, Contested;
    TruthfulIs(pages, of);
    ContestedIs(pages, of);
    var one := CheckOneCurrent(pages);
    if !one {
      return Some(CurrentTruthConflict);
    }
    for i := 0 to |pages|
      invariant forall k :: 0 <= k < i ==> Grounded(of, pages[k])
    {
      var page := pages[i];
      var grounded := if page.status == Current then page.supersededBy.None? else page.supersededBy.Some?;
      if grounded && page.status == Superseded {
        var found := FindPage(pages, page.supersededBy.value);
        grounded := found.Some? && found.value.topicId == page.topicId && found.value.status == Current;
        FoundIsThere(pages, of, page.supersededBy.value);
      }
      if !grounded {
        assert !Grounded(of, page);
        return Some(InvalidSupersession);
      }
    }
    return None;
  }

  lemma FoundIsThere(pages: seq<CurrentPage>, of: Pages, id: PageId)
    requires Lists(pages, of)
    ensures var found := FindPage(pages, id);
            && (found.Some? <==> id in of) && (found.Some? ==> found.value == of[id])
  {
    var found := FindPage(pages, id);
    if found.Some? {
      var k :| 0 <= k < |pages| && pages[k] == found.value;
    }
    assert id in of ==> exists i :: 0 <= i < |pages| && pages[i] == of[id];
  }

  lemma TruthfulIs(pages: seq<CurrentPage>, of: Pages)
    requires Lists(pages, of)
    ensures Truthful(of) <==> OneCurrentEach(pages) && forall k :: 0 <= k < |pages| ==> Grounded(of, pages[k])
  {
    if OneCurrentEach(pages) {
      forall a, b | && a in of && b in of && of[a].status == Current && of[b].status == Current
                    && of[a].topicId == of[b].topicId
        ensures a == b
      {
        var i :| 0 <= i < |pages| && pages[i] == of[a];
        var j :| 0 <= j < |pages| && pages[j] == of[b];
        assert i == j;
        assert of[a] == of[b];
      }
    }
    if forall k :: 0 <= k < |pages| ==> Grounded(of, pages[k]) {
      forall id | id in of ensures Grounded(of, of[id]) {
        var i :| 0 <= i < |pages| && pages[i] == of[id];
      }
    }
    if Truthful(of) {
      forall j, k | 0 <= j < k < |pages| && pages[j].status == Current && pages[k].status == Current
        ensures pages[j].topicId != pages[k].topicId
      {
        assert of[pages[j].pageId] == pages[j] && of[pages[k].pageId] == pages[k];
      }
      forall k | 0 <= k < |pages| ensures Grounded(of, pages[k]) {
        assert of[pages[k].pageId] == pages[k];
      }
    }
  }

  lemma ContestedIs(pages: seq<CurrentPage>, of: Pages)
    requires Lists(pages, of)
    ensures Contested(of) <==> !OneCurrentEach(pages)
  {
    if Contested(of) {
      var a, b :| && a in of && b in of && a != b && of[a].status == Current && of[b].status == Current
                  && of[a].topicId == of[b].topicId;
      var i :| 0 <= i < |pages| && pages[i] == of[a];
      var j :| 0 <= j < |pages| && pages[j] == of[b];
      assert i != j;
    }
    if !OneCurrentEach(pages) {
      var j, k :| 0 <= j < k < |pages| && pages[j].status == Current && pages[k].status == Current
                  && pages[j].topicId == pages[k].topicId;
      assert of[pages[j].pageId] == pages[j] && of[pages[k].pageId] == pages[k];
    }
  }

  /** `paths` is the inverse of the projection. */
  ghost predicate Inverse(paths: map<PagePath, PageId>, projection: Pages) {
    && (forall id :: id in projection ==> projection[id].path in paths && paths[projection[id].path] == id)
    && (forall path :: path in paths ==> paths[path] in projection && projection[paths[path]].path == path)
  }

  lemma InverseMeansTaken(paths: map<PagePath, PageId>, projection: Pages, path: PagePath)
    requires Inverse(paths, projection)
    ensures path in paths <==> PathTaken(projection, path)
  {
    if path in paths {
      var id := paths[path];
      assert id in projection && projection[id].path == path;
      assert PathTaken(projection, path);
    }
    if PathTaken(projection, path) {
      var id :| id in projection && projection[id].path == path;
      assert projection[id].path in paths;
    }
  }

  lemma UniqueIsKeyed(pages: seq<CurrentPage>)
    requires UniquePages(pages)
    ensures KeyedById(ById(pages)) && Lists(pages, ById(pages))
    ensures forall i :: 0 <= i < |pages| ==> pages[i].pageId in ById(pages) && ById(pages)[pages[i].pageId] == pages[i]
  {
    var m := ById(pages);
    forall i | 0 <= i < |pages| ensures pages[i].pageId in m && m[pages[i].pageId] == pages[i] {
      assert forall k :: i < k < |pages| ==> pages[k].pageId != pages[i].pageId;
    }
    forall id | id in m ensures exists i :: 0 <= i < |pages| && pages[i] == m[id] {
      var i :| 0 <= i < |pages| && pages[i].pageId == id;
      assert pages[i] == m[id];
    }
  }

  ghost predicate NewPage(pages: seq<CurrentPage>, page: CurrentPage) {
    forall k :: 0 <= k < |pages| ==> pages[k].pageId != page.pageId && pages[k].path != page.path
  }

  ghost predicate Indexed(pages: seq<CurrentPage>, ids: set<PageId>, paths: set<PagePath>) {
    && (forall id :: id in ids <==> exists k :: 0 <= k < |pages| && pages[k].pageId == id)
    && (forall p :: p in paths <==> exists k :: 0 <= k < |pages| && pages[k].path == p)
  }

  lemma IndexedNext(pages: seq<CurrentPage>, page: CurrentPage, ids: set<PageId>, paths: set<PagePath>)
    requires Indexed(pages, ids, paths)
    ensures NewPage(pages, page) <==> page.pageId !in ids && page.path !in paths
    ensures Indexed(pages + [page], ids + {page.pageId}, paths + {page.path})
  {
    var longer := pages + [page];
    forall id ensures id in ids + {page.pageId} <==> exists k :: 0 <= k < |longer| && longer[k].pageId == id {
      if id in ids {
        var k :| 0 <= k < |pages| && pages[k].pageId == id;
        assert longer[k].pageId == id;
      }
      if id == page.pageId {
        assert longer[|pages|].pageId == id;
      }
    }
    forall p ensures p in paths + {page.path} <==> exists k :: 0 <= k < |longer| && longer[k].path == p {
      if p in paths {
        var k :| 0 <= k < |pages| && pages[k].path == p;
        assert longer[k].path == p;
      }
      if p == page.path {
        assert longer[|pages|].path == p;
      }
    }
  }

  lemma UniqueNext(pages: seq<CurrentPage>, i: nat)
    requires i < |pages| && UniquePages(pages[..i])
    ensures UniquePages(pages[..i + 1]) <==> NewPage(pages[..i], pages[i])
    ensures UniquePages(pages) ==> UniquePages(pages[..i + 1])
  {
    var longer := pages[..i + 1];
    assert forall k :: 0 <= k < i ==> longer[k] == pages[..i][k];
    if UniquePages(longer) {
      forall k | 0 <= k < i ensures longer[k].pageId != longer[i].pageId && longer[k].path != longer[i].path {
      }
    }
  }

  method CheckUnique(pages: seq<CurrentPage>) returns (ok: bool)
    ensures ok <==> UniquePages(pages)
  {
    hide UniquePages, NewPage, Indexed;
    var ids: set<PageId> := {};
    var paths: set<PagePath> := {};
    NothingIndexed();
    for i := 0 to |pages|
      invariant UniquePages(pages[..i]) && Indexed(pages[..i], ids, paths)
    {
      UniqueNext(pages, i);
      IndexedNext(pages[..i], pages[i], ids, paths);
      assert pages[..i + 1] == pages[..i] + [pages[i]];
      if pages[i].pageId in ids || pages[i].path in paths {
        return false;
      }
      ids, paths := ids + {pages[i].pageId}, paths + {pages[i].path};
    }
    assert pages[..|pages|] == pages;
    return true;
  }

  lemma NothingIndexed()
    ensures UniquePages([]) && Indexed([], {}, {})
  {
  }

  /** The pages before the patch: unique ids and paths, and truthful. */
  method ValidateInitialPages(pages: seq<CurrentPage>) returns (error: Option<GuardError>)
    ensures error.None? <==> UniquePages(pages) && Truthful(ById(pages))
    ensures error.Some? ==> if UniquePages(pages) then TruthFault(error.value, ById(pages))
                            else error.value == DuplicatePage
  {
    hide UniquePages, Truthful, ById, Lists, TruthFault;
    var unique := CheckUnique(pages);
    if !unique {
      return Some(DuplicatePage);
    }
    UniqueIsKeyed(pages);
    error := ValidateTruth(pages, ById(pages));
  }

  method PathIndex(pages: seq<CurrentPage>) returns (paths: map<PagePath, PageId>)
    requires UniquePages(pages)
    ensures Inverse(paths, ById(pages))
  {
    hide ById;
    UniqueIsKeyed(pages);
    paths := map[];
    for i := 0 to |pages|
      invariant forall k :: 0 <= k < i ==> pages[k].path in paths && paths[pages[k].path] == pages[k].pageId
      invariant forall p :: p in paths ==> exists k :: 0 <= k < i && pages[k].path == p && paths[p] == pages[k].pageId
    {
      paths := paths[pages[i].path := pages[i].pageId];
    }
    IndexIsInverse(pages, paths, ById(pages));
  }

  lemma IndexIsInverse(pages: seq<CurrentPage>, paths: map<PagePath, PageId>, of: Pages)
    requires Lists(pages, of)
    requires forall k :: 0 <= k < |pages| ==> pages[k].path in paths && paths[pages[k].path] == pages[k].pageId
    requires forall p :: p in paths ==>
               exists k :: 0 <= k < |pages| && pages[k].path == p && paths[p] == pages[k].pageId
    ensures Inverse(paths, of)
  {
    forall id | id in of ensures of[id].path in paths && paths[of[id].path] == id {
      var k :| 0 <= k < |pages| && pages[k] == of[id];
    }
  }

  method ValidateSources(sources: seq<Citation>, evidence: map<EvidenceId, Hash>) returns (error: Option<GuardError>)
    ensures error.None? <==> SourcesKnown(sources, evidence)
    ensures error.Some? ==> SourceFault(error.value, sources, evidence)
  {
    for i := 0 to |sources|
      invariant forall k :: 0 <= k < i ==>
                  sources[k].sourceId in evidence && evidence[sources[k].sourceId] == sources[k].hash
    {
      if sources[i].sourceId !in evidence {
        assert CitationFault(UnknownSource, sources[i], evidence);
        return Some(UnknownSource);
      }
      if evidence[sources[i].sourceId] != sources[i].hash {
        assert CitationFault(SourceHashMismatch, sources[i], evidence);
        return Some(SourceHashMismatch);
      }
    }
    return None;
  }

  method ValidatePatch(patch: Patch) returns (ok: bool)
    ensures ok <==>
            && 1 <= |patch.operations| <= MAX_OPERATIONS
            && (forall i :: 0 <= i < |patch.operations| ==> patch.operations[i].Valid())
            && (forall i, j :: 0 <= i < j < |patch.operations| ==> patch.operations[i].Id() != patch.operations[j].Id())
  {
    var ops := patch.operations;
    if ops == [] || |ops| > MAX_OPERATIONS {
      return false;
    }
    var ids: set<PageId> := {};
    for i := 0 to |ops|
      invariant forall k :: 0 <= k < i ==> ops[k].Valid() && ops[k].Id() in ids
      invariant forall id :: id in ids ==> exists k :: 0 <= k < i && ops[k].Id() == id
      invariant forall j, k :: 0 <= j < k < i ==> ops[j].Id() != ops[k].Id()
    {
      if !ops[i].Valid() || ops[i].Id() in ids {
        return false;
      }
      ids := ids + {ops[i].Id()};
    }
    return true;
  }

  /** What the scan keeps after every operation. */
  ghost predicate Scanned(initial: Pages, ops: seq<Operation>, evidence: map<EvidenceId, Hash>, projection: Pages,
                          paths: map<PagePath, PageId>, opPaths: set<PagePath>)
  {
    && OpsDistinct(ops) && (forall k :: 0 <= k < |ops| ==> Fits(ops[k], initial, evidence))
    && projection == ApplyAll(initial, ops) && KeyedById(projection) && Inverse(paths, projection)
    && (forall p :: p in opPaths <==> exists k :: 0 <= k < |ops| && ops[k].At() == p)
  }

  ghost predicate Fresh(ops: seq<Operation>, op: Operation) {
    forall k :: 0 <= k < |ops| ==> ops[k].Id() != op.Id()
  }

  lemma DistinctNext(ops: seq<Operation>, op: Operation, opPaths: set<PagePath>)
    requires OpsDistinct(ops) && Fresh(ops, op)
    requires forall p :: p in opPaths <==> exists k :: 0 <= k < |ops| && ops[k].At() == p
    ensures OpsDistinct(ops + [op]) <==> op.At() !in opPaths
  {
    var all := ops + [op];
    if op.At() in opPaths {
      var k :| 0 <= k < |ops| && ops[k].At() == op.At();
      assert all[k].At() == all[|ops|].At();
    }
  }

  /** A path no operation has named is taken now exactly when it was taken before. */
  lemma TakenBefore(initial: Pages, ops: seq<Operation>, evidence: map<EvidenceId, Hash>, path: PagePath)
    requires KeyedById(initial) && OpsDistinct(ops)
    requires forall k :: 0 <= k < |ops| ==> Fits(ops[k], initial, evidence) && ops[k].At() != path
    ensures PathTaken(ApplyAll(initial, ops), path) <==> PathTaken(initial, path)
  {
    AppliedIsKeyed(initial, ops, evidence);
    if PathTaken(initial, path) {
      var id :| id in initial && initial[id].path == path;
      AppliedAt(initial, ops, id);
      assert forall k :: 0 <= k < |ops| ==> ops[k].Id() != id;
      assert ApplyAll(initial, ops)[id].path == path;
    }
  }

  lemma ScannedNext(initial: Pages, ops: seq<Operation>, op: Operation, evidence: map<EvidenceId, Hash>,
                    projection: Pages, paths: map<PagePath, PageId>, opPaths: set<PagePath>,
                    paths': map<PagePath, PageId>)
    requires Scanned(initial, ops, evidence, projection, paths, opPaths)
    requires OpsDistinct(ops + [op]) && Fits(op, initial, evidence)
    requires KeyedById(ApplyOne(projection, op))
    requires op.Create? ==> op.Id() !in projection && !PathTaken(projection, op.At())
    requires !op.Create? ==> op.Id() in projection && projection[op.Id()].path == op.At()
    requires paths' == (match op
                        case Create(page, _) => paths[page.path := page.pageId]
                        case Replace(_, _, _) => paths
                        case Remove(_, path, _, _, _) => paths - {path})
    ensures Scanned(initial, ops + [op], evidence, ApplyOne(projection, op), paths', opPaths + {op.At()})
  {
    hide Fits;
    var all := ops + [op];
    assert all[..|all| - 1] == ops;
    InverseNext(projection, op, paths, paths');
    forall p ensures p in opPaths + {op.At()} <==> exists k :: 0 <= k < |all| && all[k].At() == p {
      if p in opPaths {
        var k :| 0 <= k < |ops| && ops[k].At() == p;
        assert all[k].At() == p;
      }
      if p == op.At() {
        assert all[|ops|].At() == p;
      }
    }
  }

  lemma InverseNext(projection: Pages, op: Operation, paths: map<PagePath, PageId>, paths': map<PagePath, PageId>)
    requires KeyedById(projection) && Inverse(paths, projection)
    requires op.Create? ==> op.Id() !in projection && !PathTaken(projection, op.At())
    requires !op.Create? ==> op.Id() in projection && projection[op.Id()].path == op.At()
    requires paths' == (match op
                        case Create(page, _) => paths[page.path := page.pageId]
                        case Replace(_, _, _) => paths
                        case Remove(_, path, _, _, _) => paths - {path})
    ensures Inverse(paths', ApplyOne(projection, op))
  {
  }

  /** One more operation: it is taken exactly when its path is new among the operations and it fits
      the page set the patch started from. */
  method TakeOperation(op: Operation, ghost initial: Pages, ghost ops: seq<Operation>, evidence: map<EvidenceId, Hash>,
                       projection0: Pages, paths0: map<PagePath, PageId>, opPaths0: set<PagePath>)
    returns (error: Option<GuardError>, projection: Pages, paths: map<PagePath, PageId>, opPaths: set<PagePath>)
    requires KeyedById(initial) && Scanned(initial, ops, evidence, projection0, paths0, opPaths0)
    requires op.Valid() && Fresh(ops, op)
    ensures error.None? <==> OpsDistinct(ops + [op]) && Fits(op, initial, evidence)
    ensures error.None? ==> Scanned(initial, ops + [op], evidence, projection, paths, opPaths)
    ensures error.Some? ==> OperationFault(error.value, op, ops, initial, evidence)
  {
    hide SourceFault;
    projection, paths, opPaths := projection0, paths0, opPaths0;
    AppliedIsKeyed(initial, ops, evidence);
    AppliedAt(initial, ops, op.Id());
    InverseMeansTaken(paths, projection, op.At());
    DistinctNext(ops, op, opPaths);
    if op.At() !in opPaths {
      TakenBefore(initial, ops, evidence, op.At());
    }
    if !op.Remove? {
      if op.page.contentFault.Some? {
        return op.page.contentFault, projection, paths, opPaths;
      }
      error := ValidateSources(op.page.sources, evidence);
      if error.Some? {
        return;
      }
    }
    match op {
      case Create(page, _) =>
        if page.pageId in projection || page.path in paths || page.path in opPaths {
          return Some(DuplicateTarget), projection, paths, opPaths;
        }
        paths := paths[page.path := page.pageId];
      case Replace(page, expected, _) =>
        if page.path in opPaths {
          return Some(DuplicateTarget), projection, paths, opPaths;
        }
        if page.pageId !in projection {
          return Some(DuplicatePage), projection, paths, opPaths;
        }
        var existing := projection[page.pageId];
        if existing.path != page.path || existing.topicId != page.topicId || existing.hash != expected {
          return Some(StaleHash), projection, paths, opPaths;
        }
      case Remove(id, path, expected, _, _) =>
        if path in opPaths {
          return Some(DuplicateTarget), projection, paths, opPaths;
        }
        if id !in projection {
          return Some(DuplicatePage), projection, paths, opPaths;
        }
        if projection[id].path != path || projection[id].hash != expected {
          return Some(StaleHash), projection, paths, opPaths;
        }
        paths := paths - {path};
    }
    opPaths := opPaths + {op.At()};
    NextKeyed(initial, ops, op, evidence);
    projection := ApplyOne(projection, op);
    ScannedNext(initial, ops, op, evidence, projection0, paths0, opPaths0, paths);
    error := None;
  }

  // ---------------------------------------------------------------- every refusal has a reason

  lemma {:induction false} SomeSourceFault(sources: seq<Citation>, evidence: map<EvidenceId, Hash>, n: nat)
    returns (e: GuardError)
    requires n <= |sources| && SourcesKnown(sources[..n], evidence) && !SourcesKnown(sources, evidence)
    ensures SourceFault(e, sources, evidence)
    decreases |sources| - n
  {
    var c := sources[n];
    if c.sourceId in evidence && evidence[c.sourceId] == c.hash {
      assert sources[..n + 1] == sources[..n] + [c];
      e := SomeSourceFault(sources, evidence, n + 1);
    } else {
      e := if c.sourceId !in evidence then UnknownSource else SourceHashMismatch;
      assert CitationFault(e, c, evidence);
    }
  }

  lemma SomeOperationFault(op: Operation, earlier: seq<Operation>, pages: Pages, evidence: map<EvidenceId, Hash>)
    returns (e: GuardError)
    requires op.Valid() && (!Fits(op, pages, evidence) || NamedBefore(op.At(), earlier))
    ensures OperationFault(e, op, earlier, pages, evidence)
  {
    hide SourceFault;
    if !op.Remove? && op.page.contentFault.Some? {
      e := op.page.contentFault.value;
    } else if !op.Remove? && !SourcesKnown(op.page.sources, evidence) {
      e := SomeSourceFault(op.page.sources, evidence, 0);
    } else if NamedBefore(op.At(), earlier) || op.Create? {
      e := DuplicateTarget;
    } else {
      e := if op.Id() !in pages then DuplicatePage else StaleHash;
    }
  }

  lemma {:induction false} SomeFirstFault(ops: seq<Operation>, n: nat, pages: Pages, evidence: map<EvidenceId, Hash>)
    returns (e: GuardError)
    requires WellShaped(ops) && n <= |ops|
    requires OpsDistinct(ops[..n]) && forall k :: 0 <= k < n ==> Fits(ops[k], pages, evidence)
    requires !(OpsDistinct(ops) && forall k :: 0 <= k < |ops| ==> Fits(ops[k], pages, evidence))
    ensures AnOperationFault(e, ops, pages, evidence)
    decreases |ops| - n
  {
    hide Fits;
    assert ops[..|ops|] == ops;
    var op := ops[n];
    if Fits(op, pages, evidence) && !NamedBefore(op.At(), ops[..n]) {
      assert ops[..n + 1] == ops[..n] + [op];
      assert OpsDistinct(ops[..n + 1]) by {
        forall k | 0 <= k < n ensures ops[k].At() != op.At() {
          assert ops[..n][k] == ops[k];
        }
      }
      e := SomeFirstFault(ops, n + 1, pages, evidence);
    } else {
      e := SomeOperationFault(op, ops[..n], pages, evidence);
      hide OperationFault;
      assert FirstFault(e, ops, n, pages, evidence);
    }
  }

  /** A patch that is not accepted is refused for something. */
  lemma SomeFault(patch: Patch, context: Context) returns (e: GuardError)
    requires !Accepted(patch, context)
    ensures RefusedFor(e, patch, context)
  {
    hide ApplyAll, Truthful, UniquePages, OpsDistinct, Fits, EncodedBytes, ById, AnOperationFault;
    var ops, pages := patch.operations, ById(context.pages);
    if !WellShaped(ops) {
      e := InvalidPatch;
    } else if patch.jobId != context.jobId {
      e := WrongJob;
    } else if patch.overhead + EncodedBytes(ops) > MAX_PATCH_BYTES {
      e := OversizedPatch;
    } else if !UniquePages(context.pages) {
      e := DuplicatePage;
    } else if !Truthful(pages) {
      e := if Contested(pages) then CurrentTruthConflict else InvalidSupersession;
    } else if OpsDistinct(ops) && forall k :: 0 <= k < |ops| ==> Fits(ops[k], pages, context.evidence) {
      e := if Contested(ApplyAll(pages, ops)) then CurrentTruthConflict else InvalidSupersession;
    } else {
      NoneDistinct(ops);
      e := SomeFirstFault(ops, 0, pages, context.evidence);
    }
  }

  lemma OneSourceFault(a: GuardError, b: GuardError, sources: seq<Citation>, evidence: map<EvidenceId, Hash>)
    requires SourceFault(a, sources, evidence) && SourceFault(b, sources, evidence)
    ensures a == b
  {
    var k :| 0 <= k < |sources| && SourcesKnown(sources[..k], evidence) && CitationFault(a, sources[k], evidence);
    var m :| 0 <= m < |sources| && SourcesKnown(sources[..m], evidence) && CitationFault(b, sources[m], evidence);
    assert k < m ==> sources[..m][k] == sources[k];
    assert m < k ==> sources[..k][m] == sources[m];
  }

  lemma OneOperationFault(a: GuardError, b: GuardError, op: Operation, earlier: seq<Operation>, pages: Pages,
                          evidence: map<EvidenceId, Hash>)
    requires OperationFault(a, op, earlier, pages, evidence) && OperationFault(b, op, earlier, pages, evidence)
    ensures a == b && (!Fits(op, pages, evidence) || NamedBefore(op.At(), earlier))
  {
    hide SourceFault;
    if !op.Remove? && op.page.contentFault.None? && !SourcesKnown(op.page.sources, evidence) {
      OneSourceFault(a, b, op.page.sources, evidence);
    }
  }

  lemma NoEarlierFault(a: GuardError, ops: seq<Operation>, n: nat, m: nat, pages: Pages,
                       evidence: map<EvidenceId, Hash>)
    requires n < |ops| && m < |ops| && FirstFault(a, ops, n, pages, evidence)
    requires OpsDistinct(ops[..m]) && forall k :: 0 <= k < m ==> Fits(ops[k], pages, evidence)
    ensures m <= n
  {
    if n < m {
      OneOperationFault(a, a, ops[n], ops[..n], pages, evidence);
    }
  }

  lemma OneTruthFault(a: GuardError, b: GuardError, pages: Pages)
    requires TruthFault(a, pages)
    ensures TruthFault(b, pages) ==> a == b
  {
  }

  lemma OneFirstFault(a: GuardError, b: GuardError, ops: seq<Operation>, pages: Pages, evidence: map<EvidenceId, Hash>)
    requires AnOperationFault(a, ops, pages, evidence)
    ensures AnOperationFault(b, ops, pages, evidence) ==> a == b
    ensures !(OpsDistinct(ops) && forall k :: 0 <= k < |ops| ==> Fits(ops[k], pages, evidence))
  {
    hide OperationFault, Fits, OpsDistinct;
    var n :| 0 <= n < |ops| && FirstFault(a, ops, n, pages, evidence);
    NoFaultIfAllFit(a, ops, n, pages, evidence);
    if AnOperationFault(b, ops, pages, evidence) {
      var m :| 0 <= m < |ops| && FirstFault(b, ops, m, pages, evidence);
      NoEarlierFault(a, ops, n, m, pages, evidence);
      NoEarlierFault(b, ops, m, n, pages, evidence);
      OneOperationFault(a, b, ops[n], ops[..n], pages, evidence);
    }
  }

  /** A refused patch is refused for one thing. */
  lemma OneFault(a: GuardError, b: GuardError, patch: Patch, context: Context)
    requires RefusedFor(a, patch, context) && RefusedFor(b, patch, context)
    ensures a == b && !Accepted(patch, context)
  {
    hide ApplyAll, Truthful, UniquePages, OpsDistinct, EncodedBytes, ById, Fits, AnOperationFault, TruthFault,
         WellShaped;
    AcceptedParts(patch, context);
    WellShapedIs(patch.operations);
    var ops, pages := patch.operations, ById(context.pages);
    TruthFaultIs(a, pages);
    TruthFaultIs(a, ApplyAll(pages, ops));
    if AnOperationFault(a, ops, pages, context.evidence) {
      OneFirstFault(a, b, ops, pages, context.evidence);
    }
    if AnOperationFault(b, ops, pages, context.evidence) {
      OneFirstFault(b, a, ops, pages, context.evidence);
    }
    if TruthFault(a, pages) {
      OneTruthFault(a, b, pages);
    }
    if TruthFault(a, ApplyAll(pages, ops)) {
      OneTruthFault(a, b, ApplyAll(pages, ops));
    }
  }

  lemma TruthFaultIs(e: GuardError, pages: Pages)
    ensures TruthFault(e, pages) ==> !Truthful(pages)
  {
  }

  lemma WellShapedIs(ops: seq<Operation>)
    ensures WellShaped(ops) <==> && 1 <= |ops| <= MAX_OPERATIONS && (forall i :: 0 <= i < |ops| ==> ops[i].Valid())
                                 && forall i, j :: 0 <= i < j < |ops| ==> ops[i].Id() != ops[j].Id()
  {
  }

  lemma NoFaultIfAllFit(a: GuardError, ops: seq<Operation>, n: nat, pages: Pages, evidence: map<EvidenceId, Hash>)
    requires n < |ops| && FirstFault(a, ops, n, pages, evidence)
    ensures !(OpsDistinct(ops) && forall k :: 0 <= k < |ops| ==> Fits(ops[k], pages, evidence))
  {
    OneOperationFault(a, a, ops[n], ops[..n], pages, evidence);
    assert forall k :: 0 <= k < n ==> ops[..n][k] == ops[k];
  }

  lemma NoneDistinct(ops: seq<Operation>)
    ensures OpsDistinct(ops[..0])
  {
  }

  lemma NothingScanned(initial: Pages, evidence: map<EvidenceId, Hash>, paths: map<PagePath, PageId>)
    requires KeyedById(initial) && Inverse(paths, initial)
    ensures Scanned(initial, [], evidence, initial, paths, {})
  {
  }

  lemma FitsIsValid(op: Operation, pages: Pages, evidence: map<EvidenceId, Hash>)
    requires Fits(op, pages, evidence)
    ensures op.Valid()
  {
  }

  /** Whole sequences fit exactly when every step of the scan does. */
  lemma PrefixFits(ops: seq<Operation>, i: nat, pages: Pages, evidence: map<EvidenceId, Hash>)
    requires i < |ops| && OpsDistinct(ops) && forall k :: 0 <= k < |ops| ==> Fits(ops[k], pages, evidence)
    ensures OpsDistinct(ops[..i] + [ops[i]]) && Fits(ops[i], pages, evidence)
  {
    var prefix := ops[..i] + [ops[i]];
    assert forall k :: 0 <= k < |prefix| ==> prefix[k] == ops[k];
  }

  lemma OpsFresh(ops: seq<Operation>, i: nat)
    requires i < |ops| && forall j, k :: 0 <= j < k < |ops| ==> ops[j].Id() != ops[k].Id()
    ensures Fresh(ops[..i], ops[i])
  {
  }

  lemma AcceptedMeans(patch: Patch, context: Context)
    requires Accepted(patch, context)
    ensures forall i :: 0 <= i < |patch.operations| ==> patch.operations[i].Valid()
    ensures forall i, j :: 0 <= i < j < |patch.operations| ==> patch.operations[i].Id() != patch.operations[j].Id()
  {
    forall i | 0 <= i < |patch.operations| ensures patch.operations[i].Valid() {
      FitsIsValid(patch.operations[i], ById(context.pages), context.evidence);
    }
  }

  /** Accepts exactly the patches that fit the pages they start from and leave the truth whole. The
      projection is then plain patch application, with `paths` its inverse after every operation. */
  method Validate(patch: Patch, context: Context) returns (error: Option<GuardError>, projection: Pages)
    ensures error.None? <==> Accepted(patch, context)
    ensures error.None? ==> projection == ApplyAll(ById(context.pages), patch.operations) && KeyedById(projection)
    ensures error.Some? ==> RefusedFor(error.value, patch, context)
  {
    hide TruthFault, OperationFault, AnOperationFault;
    hide Accepted, Fits, OpsDistinct, Truthful, UniquePages, ById, Lists, KeyedById, Scanned, Inverse, Fresh, ApplyAll;
    projection := map[];
    ghost var initial := ById(context.pages);
    AcceptedParts(patch, context);
    var valid := ValidatePatch(patch);
    if !valid {
      return Some(InvalidPatch), projection;
    }
    if patch.jobId != context.jobId {
      return Some(WrongJob), projection;
    }
    if patch.overhead + EncodedBytes(patch.operations) > MAX_PATCH_BYTES {
      return Some(OversizedPatch), projection;
    }
    error := ValidateInitialPages(context.pages);
    if error.Some? {
      return;
    }
    UniqueIsKeyed(context.pages);
    projection := ById(context.pages);
    var paths := PathIndex(context.pages);
    var opPaths: set<PagePath> := {};
    var ops := patch.operations;
    NothingScanned(initial, context.evidence, paths);
    assert ops[..0] == [];
    for i := 0 to |ops|
      invariant Scanned(initial, ops[..i], context.evidence, projection, paths, opPaths)
    {
      OpsFresh(ops, i);
      AcceptedPrefix(patch, context, i);
      ghost var projection0, paths0, opPaths0 := projection, paths, opPaths;
      error, projection, paths, opPaths :=
        TakeOperation(ops[i], initial, ops[..i], context.evidence, projection, paths, opPaths);
      if error.Some? {
        ScannedFault(error.value, patch, i, context, projection0, paths0, opPaths0);
        return;
      }
      assert ops[..i + 1] == ops[..i] + [ops[i]];
    }
    assert ops[..|ops|] == ops;
    ScannedMeans(initial, ops, context.evidence, projection, paths, opPaths);
    var pages := PagesOf(projection);
    error := ValidateTruth(pages, projection);
  }

  lemma AcceptedParts(patch: Patch, context: Context)
    ensures Accepted(patch, context) ==>
              && 1 <= |patch.operations| <= MAX_OPERATIONS && patch.jobId == context.jobId
              && patch.overhead + EncodedBytes(patch.operations) <= MAX_PATCH_BYTES
              && UniquePages(context.pages) && Truthful(ById(context.pages))
              && (forall i :: 0 <= i < |patch.operations| ==> patch.operations[i].Valid())
              && (forall i, j :: 0 <= i < j < |patch.operations| ==>
                    patch.operations[i].Id() != patch.operations[j].Id())
              && Truthful(ApplyAll(ById(context.pages), patch.operations))
    ensures && 1 <= |patch.operations| <= MAX_OPERATIONS && patch.jobId == context.jobId
            && patch.overhead + EncodedBytes(patch.operations) <= MAX_PATCH_BYTES
            && UniquePages(context.pages) && Truthful(ById(context.pages)) && OpsDistinct(patch.operations)
            && (forall i :: 0 <= i < |patch.operations| ==>
                  Fits(patch.operations[i], ById(context.pages), context.evidence))
            && Truthful(ApplyAll(ById(context.pages), patch.operations))
            ==> Accepted(patch, context)
  {
    hide Truthful, Fits, ById, ApplyAll, UniquePages, EncodedBytes;
    if Accepted(patch, context) {
      AcceptedMeans(patch, context);
    }
  }

  lemma AcceptedPrefix(patch: Patch, context: Context, i: nat)
    requires i < |patch.operations|
    ensures Accepted(patch, context) ==>
              && OpsDistinct(patch.operations[..i] + [patch.operations[i]])
              && Fits(patch.operations[i], ById(context.pages), context.evidence)
  {
    hide Truthful, Fits, ById, ApplyAll, UniquePages, EncodedBytes, OpsDistinct;
    if Accepted(patch, context) {
      PrefixFits(patch.operations, i, ById(context.pages), context.evidence);
    }
  }

  lemma ScannedFault(e: GuardError, patch: Patch, i: nat, context: Context, projection: Pages,
                     paths: map<PagePath, PageId>, opPaths: set<PagePath>)
    requires i < |patch.operations|
    requires Scanned(ById(context.pages), patch.operations[..i], context.evidence, projection, paths, opPaths)
    requires OperationFault(e, patch.operations[i], patch.operations[..i], ById(context.pages), context.evidence)
    ensures AnOperationFault(e, patch.operations, ById(context.pages), context.evidence)
  {
    hide OperationFault, Fits, ById, OpsDistinct, KeyedById, Inverse, ApplyAll;
    var ops, pages := patch.operations, ById(context.pages);
    forall k | 0 <= k < i ensures Fits(ops[k], pages, context.evidence) {
      assert ops[k] == ops[..i][k];
    }
    assert FirstFault(e, ops, i, pages, context.evidence);
  }

  lemma ScannedMeans(initial: Pages, ops: seq<Operation>, evidence: map<EvidenceId, Hash>, projection: Pages,
                     paths: map<PagePath, PageId>, opPaths: set<PagePath>)
    requires Scanned(initial, ops, evidence, projection, paths, opPaths)
    ensures OpsDistinct(ops) && (forall k :: 0 <= k < |ops| ==> Fits(ops[k], initial, evidence))
    ensures projection == ApplyAll(initial, ops) && KeyedById(projection)
    ensures forall id :: id in projection ==> projection[id].pageId == id
  {
  }

  // ---------------------------------------------------------------- the order of the operations

  /** Distinctness, said without positions. */
  ghost predicate SetDistinct(ops: seq<Operation>) {
    && (forall x :: x in ops ==> multiset(ops)[x] == 1)
    && (forall x, y :: x in ops && y in ops && x != y ==> x.Id() != y.Id() && x.At() != y.At())
  }

  lemma TwicePositions(ops: seq<Operation>, i: nat, j: nat)
    requires i < j < |ops| && ops[i] == ops[j]
    ensures multiset(ops)[ops[i]] >= 2
  {
    var a, b := ops[..j], ops[j..];
    assert ops == a + b;
    assert a[i] in a && b[0] in b;
    assert multiset(ops) == multiset(a) + multiset(b);
  }

  lemma TwiceMeans(ops: seq<Operation>, x: Operation)
    requires x in ops && multiset(ops)[x] != 1
    ensures exists i, j :: 0 <= i < j < |ops| && ops[i] == ops[j]
  {
    var i :| 0 <= i < |ops| && ops[i] == x;
    var a, b := ops[..i], ops[i + 1..];
    assert ops == a + [x] + b;
    assert multiset(ops) == multiset(a) + multiset{x} + multiset(b);
    if x in multiset(a) {
      var k :| 0 <= k < |a| && a[k] == x;
      assert ops[k] == ops[i];
    } else {
      assert x in multiset(b);
      var k :| 0 <= k < |b| && b[k] == x;
      assert ops[i] == ops[i + 1 + k];
    }
  }

  lemma DistinctIsSetDistinct(ops: seq<Operation>)
    ensures OpsDistinct(ops) <==> SetDistinct(ops)
  {
    if SetDistinct(ops) {
      forall i, j | 0 <= i < j < |ops| ensures ops[i].Id() != ops[j].Id() && ops[i].At() != ops[j].At() {
        if ops[i] == ops[j] {
          TwicePositions(ops, i, j);
        }
      }
    }
    if OpsDistinct(ops) {
      forall x | x in ops ensures multiset(ops)[x] == 1 {
        if multiset(ops)[x] != 1 {
          TwiceMeans(ops, x);
        }
      }
    }
  }

  /** Taking the last of one order out of the other. */
  lemma TakeOut(a: seq<Operation>, b: seq<Operation>) returns (left: seq<Operation>, right: seq<Operation>)
    requires multiset(a) == multiset(b) && a != []
    ensures b == left + [a[|a| - 1]] + right && multiset(a[..|a| - 1]) == multiset(left + right)
  {
    var x := a[|a| - 1];
    assert a == a[..|a| - 1] + [x];
    assert x in multiset(a) && x in multiset(b);
    var k :| 0 <= k < |b| && b[k] == x;
    left, right := b[..k], b[k + 1..];
    assert b == left + [x] + right;
    assert multiset(a) == multiset(a[..|a| - 1]) + multiset{x};
    assert multiset(b) == multiset(left) + multiset{x} + multiset(right);
    assert multiset(left + right) == multiset(left) + multiset(right);
    assert multiset(a[..|a| - 1]) == multiset(a) - multiset{x};
    assert multiset(left + right) == multiset(b) - multiset{x};
  }

  lemma {:induction false} EncodedPerm(a: seq<Operation>, b: seq<Operation>)
    requires multiset(a) == multiset(b)
    ensures EncodedBytes(a) == EncodedBytes(b) && |a| == |b|
    decreases |a|
  {
    if a == [] {
      assert |b| == |multiset(b)| == |multiset(a)| == 0;
    } else {
      var left, right := TakeOut(a, b);
      EncodedPerm(a[..|a| - 1], left + right);
      EncodedInsert(left, a[|a| - 1], right);
    }
  }

  lemma EncodedInsert(left: seq<Operation>, x: Operation, right: seq<Operation>)
    ensures EncodedBytes(left + [x] + right) == EncodedBytes(left + right) + x.encoded
  {
    EncodedConcat(left + [x], right);
    EncodedConcat(left, right);
    assert (left + [x])[..|left|] == left;
  }

  lemma {:induction false} EncodedConcat(a: seq<Operation>, b: seq<Operation>)
    ensures EncodedBytes(a + b) == EncodedBytes(a) + EncodedBytes(b)
  {
    if b == [] {
      assert a + b == a;
    } else {
      assert (a + b)[..|a + b| - 1] == a + b[..|b| - 1];
      EncodedConcat(a, b[..|b| - 1]);
    }
  }

  lemma SameMembers(a: seq<Operation>, b: seq<Operation>)
    requires multiset(a) == multiset(b)
    ensures forall x :: x in a <==> x in b
  {
    forall x ensures x in a <==> x in b {
      assert x in a <==> x in multiset(a);
      assert x in b <==> x in multiset(b);
    }
  }

  lemma SameLookup(pages: Pages, a: seq<Operation>, b: seq<Operation>, id: PageId)
    requires OpsDistinct(a) && OpsDistinct(b) && forall x :: x in a <==> x in b
    ensures id in ApplyAll(pages, a) <==> id in ApplyAll(pages, b)
    ensures id in ApplyAll(pages, a) ==> ApplyAll(pages, a)[id] == ApplyAll(pages, b)[id]
  {
    AppliedAt(pages, a, id);
    AppliedAt(pages, b, id);
    if k :| 0 <= k < |a| && a[k].Id() == id {
      assert a[k] in b;
      var m :| 0 <= m < |b| && b[m] == a[k];
    } else {
      forall m | 0 <= m < |b| ensures b[m].Id() != id {
        assert b[m] in a;
        var k :| 0 <= k < |a| && a[k] == b[m];
      }
    }
  }

  /** In any order, the same operations make the same page set and are accepted or refused alike. */
  lemma OrderDoesNotMatter(a: Patch, b: Patch, context: Context)
    requires multiset(a.operations) == multiset(b.operations) && a.jobId == b.jobId && a.overhead == b.overhead
    ensures Accepted(a, context) <==> Accepted(b, context)
    ensures Accepted(a, context) ==>
              ApplyAll(ById(context.pages), a.operations) == ApplyAll(ById(context.pages), b.operations)
  {
    if Accepted(a, context) {
      AcceptedInAnyOrder(a, b, context);
    }
    if Accepted(b, context) {
      AcceptedInAnyOrder(b, a, context);
    }
  }

  lemma DistinctInAnyOrder(a: seq<Operation>, b: seq<Operation>)
    requires multiset(a) == multiset(b) && OpsDistinct(a)
    ensures OpsDistinct(b)
  {
    DistinctIsSetDistinct(a);
    DistinctIsSetDistinct(b);
    SameMembers(a, b);
  }

  lemma AppliedInAnyOrder(pages: Pages, a: seq<Operation>, b: seq<Operation>)
    requires OpsDistinct(a) && OpsDistinct(b) && forall x :: x in a <==> x in b
    ensures ApplyAll(pages, a) == ApplyAll(pages, b)
  {
    hide ApplyAll, OpsDistinct;
    forall id ensures id in ApplyAll(pages, a) <==> id in ApplyAll(pages, b) {
      SameLookup(pages, a, b, id);
    }
    forall id | id in ApplyAll(pages, a) ensures ApplyAll(pages, a)[id] == ApplyAll(pages, b)[id] {
      SameLookup(pages, a, b, id);
    }
  }

  lemma AcceptedInAnyOrder(a: Patch, b: Patch, context: Context)
    requires multiset(a.operations) == multiset(b.operations) && a.jobId == b.jobId && a.overhead == b.overhead
    requires Accepted(a, context)
    ensures Accepted(b, context)
    ensures ApplyAll(ById(context.pages), a.operations) == ApplyAll(ById(context.pages), b.operations)
  {
    hide Fits, Truthful, ById, UniquePages, OpsDistinct, ApplyAll, EncodedBytes;
    SameMembers(a.operations, b.operations);
    EncodedPerm(a.operations, b.operations);
    DistinctInAnyOrder(a.operations, b.operations);
    AppliedInAnyOrder(ById(context.pages), a.operations, b.operations);
    forall k | 0 <= k < |b.operations| ensures Fits(b.operations[k], ById(context.pages), context.evidence) {
      assert b.operations[k] in a.operations;
    }
  }

  // ---------------------------------------------------------------- committing

  /** The pages on disk, keyed by path, are the projection, keyed by id. */
  ghost predicate Rekeyed(files: map<PagePath, KnowledgePage>, pages: Pages) {
    && (forall path :: path in files ==>
          && files[path].path == path && files[path].pageId in pages
          && Describes(pages[files[path].pageId], files[path]))
    && (forall id :: id in pages ==> pages[id].path in files && files[pages[id].path].pageId == id)
  }

  ghost predicate Describes(c: CurrentPage, p: KnowledgePage) {
    c == CurrentPage(p.pageId, p.topicId, p.path, p.status, p.supersededBy, c.hash)
  }

  datatype Change = Change(path: PagePath, expectedOld: Option<Hash>, page: KnowledgePage)

  ghost predicate ChangesFor(changes: seq<Change>, ops: seq<Operation>) {
    && |changes| == |ops|
    && forall k :: 0 <= k < |ops| ==>
         && !ops[k].Remove?
         && changes[k] == Change(ops[k].At(), if ops[k].Create? then None else Some(ops[k].expected), ops[k].page)
  }

  lemma RekeyedNext(files: map<PagePath, KnowledgePage>, pages: Pages, op: Operation)
    requires Rekeyed(files, pages) && KeyedById(pages) && !op.Remove?
    requires op.Create? ==> op.Id() !in pages && !PathTaken(pages, op.At())
    requires op.Replace? ==> op.Id() in pages && pages[op.Id()].path == op.At()
    ensures Rekeyed(files[op.page.path := op.page], ApplyOne(pages, op))
  {
    var files' := files[op.page.path := op.page];
    var pages' := ApplyOne(pages, op);
    forall path | path in files'
      ensures files'[path].path == path && files'[path].pageId in pages'
              && Describes(pages'[files'[path].pageId], files'[path])
    {
      if path != op.page.path {
        assert pages[files[path].pageId].path == path;
      }
    }
  }

  /** Turns a patch into file changes. A removal is refused; otherwise, for an accepted patch, the
      files keyed by path stay the projection keyed by id. */
  method CommitPatch(patch: Patch, files0: map<PagePath, KnowledgePage>, ghost context: Context)
    returns (r: Option<(seq<Change>, map<PagePath, KnowledgePage>)>)
    requires Accepted(patch, context) && Rekeyed(files0, ById(context.pages))
    ensures r.None? <==> exists k :: 0 <= k < |patch.operations| && patch.operations[k].Remove?
    ensures r.Some? ==>
              && ChangesFor(r.value.0, patch.operations)
              && Rekeyed(r.value.1, ApplyAll(ById(context.pages), patch.operations))
  {
    hide Accepted, Fits, Truthful, ById, KeyedById, Rekeyed;
    var files := files0;
    var changes: seq<Change> := [];
    var ops := patch.operations;
    ghost var initial := ById(context.pages);
    assert ops[..0] == [];
    for i := 0 to |ops|
      invariant ChangesFor(changes, ops[..i])
      invariant Rekeyed(files, ApplyAll(initial, ops[..i]))
    {
      assert ops[..i + 1][..i] == ops[..i];
      StepOfAccepted(patch, context, i);
      match ops[i] {
        case Create(page, _) =>
          changes := changes + [Change(page.path, None, page)];
          RekeyedNext(files, ApplyAll(initial, ops[..i]), ops[i]);
          files := files[page.path := page];
        case Replace(page, expected, _) =>
          changes := changes + [Change(page.path, Some(expected), page)];
          RekeyedNext(files, ApplyAll(initial, ops[..i]), ops[i]);
          files := files[page.path := page];
        case Remove(_, _, _, _, _) =>
          return None;
      }
    }
    assert ops[..|ops|] == ops;
    return Some((changes, files));
  }

  lemma StepOfAccepted(patch: Patch, context: Context, i: nat)
    requires Accepted(patch, context) && i < |patch.operations|
    ensures var before := ApplyAll(ById(context.pages), patch.operations[..i]);
            var op := patch.operations[i];
            && KeyedById(before)
            && (op.Create? ==> op.Id() !in before && !PathTaken(before, op.At()))
            && (op.Replace? ==> op.Id() in before && before[op.Id()].path == op.At())
  {
    var ops, initial := patch.operations, ById(context.pages);
    UniqueIsKeyed(context.pages);
    hide ById, Truthful, UniquePages;
    var init, op := ops[..i], ops[i];
    assert forall k :: 0 <= k < |init| ==> init[k] == ops[k];
    PrefixFits(ops, i, initial, context.evidence);
    assert forall k :: 0 <= k < |init| ==> (init + [op])[k] == init[k];
    assert OpsDistinct(init);
    AppliedIsKeyed(initial, init, context.evidence);
    NextKeyed(initial, init, op, context.evidence);
  }
}
