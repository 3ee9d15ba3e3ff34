/** What the wiki workflow's store keeps, whatever is written to it, and why it refuses a record. */
module WikiStoreLaws {
  import opened Protocol
  import opened WikiWorkflow

  /** Writing a record of any kind. */
  function Write(jobId: int, fits: Fitting, s: Held, record: LogRecord): Written {
    match record
    case EventRecord(_) => AppendStep(fits, s, record)
    case GenerationRecord(g) => GenerationStep(jobId, fits, s, g)
    case ReceiptRecord(receipt) => ReceiptStep(fits, s, receipt)
    case RebindRecord(binding) => RebindStep(fits, s, binding)
  }

  /** Two outcomes of one call of the model. */
  predicate SameCall(a: LogRecord, b: LogRecord) {
    && a.GenerationRecord? && b.GenerationRecord? && !a.generation.Started? && !b.generation.Started?
    && a.generation.attempt == b.generation.attempt && a.generation.binding == b.generation.binding
  }

  /** A record that may be in this job's log. */
  predicate OfJob(jobId: int, record: LogRecord) {
    record.GenerationRecord? ==>
      && 1 <= record.generation.attempt <= 2
      && (record.generation.Accepted? ==> record.generation.patch.jobId == jobId)
  }

  /** The later record may stand after the earlier one. */
  predicate MayFollow(earlier: LogRecord, later: LogRecord) {
    && earlier != later && !SameCall(earlier, later) && !(earlier.RebindRecord? && later.RebindRecord?)
    && (earlier.ReceiptRecord? && later.ReceiptRecord? ==> earlier.receipt.outcome == Pending)
  }

  /** No record twice, one outcome for a call, one rebind, and no receipt after a settled one. */
  ghost predicate Kept(jobId: int, log: seq<LogRecord>) {
    && (forall k :: 0 <= k < |log| ==> OfJob(jobId, log[k]))
    && (forall i, k :: 0 <= i < k < |log| ==> MayFollow(log[i], log[k]))
  }

  /** The last receipt of the log. */
  ghost predicate IsLatest(log: seq<LogRecord>, k: nat) {
    k < |log| && log[k].ReceiptRecord? && forall i :: k < i < |log| ==> !log[i].ReceiptRecord?
  }

  /** Something on disk stands against the record: another outcome, another rebind, a settled receipt,
      or a receipt file that the log does not know. */
  ghost predicate Clashes(s: Held, record: LogRecord) {
    match record
    case EventRecord(_) => false
    case GenerationRecord(_) => exists k :: 0 <= k < |s.log| && SameCall(s.log[k], record) && s.log[k] != record
    case RebindRecord(_) => exists k :: 0 <= k < |s.log| && s.log[k].RebindRecord? && s.log[k] != record
    case ReceiptRecord(receipt) =>
      || (exists k :: 0 <= k < |s.log| && s.log[k].ReceiptRecord? && s.log[k].receipt.outcome != Pending
                      && s.log[k] != record)
      || ((forall k :: 0 <= k < |s.log| ==> !s.log[k].ReceiptRecord?) && s.file.Some? && s.file.value != receipt)
  }

  // ---------------------------------------------------------------- looking the log up

  lemma {:induction false} LatestIs(log: seq<LogRecord>)
    ensures LatestReceipt(log).None? <==> forall k :: 0 <= k < |log| ==> !log[k].ReceiptRecord?
    ensures LatestReceipt(log).Some? ==>
              exists k :: 0 <= k < |log| && IsLatest(log, k) && log[k] == ReceiptRecord(LatestReceipt(log).value)
  {
    if log != [] {
      var init := log[..|log| - 1];
      LatestIs(init);
      if log[|log| - 1].ReceiptRecord? {
        assert IsLatest(log, |log| - 1);
      } else if LatestReceipt(init).Some? {
        var k :| 0 <= k < |init| && IsLatest(init, k) && init[k] == ReceiptRecord(LatestReceipt(init).value);
        assert IsLatest(log, k);
      } else {
        forall k | 0 <= k < |log| ensures !log[k].ReceiptRecord? {
          assert k < |init| ==> log[k] == init[k];
        }
      }
    }
  }

  lemma {:induction false} RebindIs(log: seq<LogRecord>)
    ensures LatestRebind(log).None? <==> forall k :: 0 <= k < |log| ==> !log[k].RebindRecord?
    ensures LatestRebind(log).Some? ==> RebindRecord(LatestRebind(log).value) in log
  {
    if log != [] {
      var init := log[..|log| - 1];
      RebindIs(init);
      forall k | 0 <= k < |log| ensures log[k] == if k < |init| then init[k] else log[|log| - 1] {
      }
    }
  }

  lemma {:induction false} OutcomeIs(log: seq<LogRecord>, g: Generation)
    requires !g.Started?
    ensures var first := FirstOutcome(log, g.attempt, g.binding);
            && (first.None? <==> forall k :: 0 <= k < |log| ==> !SameCall(log[k], GenerationRecord(g)))
            && (first.Some? ==> GenerationRecord(first.value) in log
                                && SameCall(GenerationRecord(first.value), GenerationRecord(g)))
  {
    if log != [] {
      OutcomeIs(log[1..], g);
      forall k | 0 <= k < |log| ensures log[k] == if k == 0 then log[0] else log[1..][k - 1] {
      }
    }
  }

  // ---------------------------------------------------------------- one record

  lemma AppendKeeps(jobId: int, log: seq<LogRecord>, record: LogRecord)
    requires Kept(jobId, log) && OfJob(jobId, record) && forall k :: 0 <= k < |log| ==> MayFollow(log[k], record)
    ensures Kept(jobId, log + [record])
  {
  }

  /** On a kept log: what a write refuses, and why; what it leaves. A receipt's file is written before
      the log knows it. */
  ghost predicate Tells(jobId: int, fits: Fitting, s: Held, record: LogRecord, t: Held, r: Result<(), StoreError>) {
    && Kept(jobId, t.log)
    && t.log == (if r.Ok? && record !in s.log then s.log + [record] else s.log)
    && (r == Err(Conflict) <==> OfJob(jobId, record) && Clashes(s, record))
    && (!OfJob(jobId, record) ==> r == Err(RecoveryRequired))
    && (r == Err(RecoveryRequired) && OfJob(jobId, record) ==> !fits(record) && record !in s.log)
    && (r == Err(PowerLost) ==> t == s.(file := t.file, power := 0))
    && (r.Ok? ==> record in s.log || fits(record))
    && s.power <= t.power + 2 && t.power <= s.power
    && (!record.ReceiptRecord? ==> t.file == s.file)
    && (record.ReceiptRecord? ==> t.file == s.file || t.file == Some(record.receipt))
    && (t.log != s.log && record.ReceiptRecord? ==> t.file == Some(record.receipt))
  }

  lemma WriteTells(jobId: int, fits: Fitting, s: Held, record: LogRecord)
    requires Kept(jobId, s.log)
    ensures var (t, r) := Write(jobId, fits, s, record); Tells(jobId, fits, s, record, t, r)
  {
    match record
    case EventRecord(_) => EventTells(jobId, fits, s, record);
    case GenerationRecord(g) => GenerationTells(jobId, fits, s, g);
    case ReceiptRecord(receipt) => ReceiptTells(jobId, fits, s, receipt);
    case RebindRecord(binding) => RebindTells(jobId, fits, s, binding);
  }

  lemma EventTells(jobId: int, fits: Fitting, s: Held, record: LogRecord)
    requires Kept(jobId, s.log) && record.EventRecord?
    ensures var (t, r) := AppendStep(fits, s, record); Tells(jobId, fits, s, record, t, r)
  {
    if record !in s.log {
      AppendKeeps(jobId, s.log, record);
    }
  }

  lemma GenerationTells(jobId: int, fits: Fitting, s: Held, g: Generation)
    requires Kept(jobId, s.log)
    ensures var (t, r) := GenerationStep(jobId, fits, s, g); Tells(jobId, fits, s, GenerationRecord(g), t, r)
  {
    var record := GenerationRecord(g);
    if !g.Started? {
      OutcomeIs(s.log, g);
    }
    if OfJob(jobId, record) && !Clashes(s, record) && record !in s.log {
      AppendKeeps(jobId, s.log, record);
    }
    if first :| first in s.log && SameCall(first, record) {
      var k :| 0 <= k < |s.log| && s.log[k] == first;
    }
  }

  lemma RebindTells(jobId: int, fits: Fitting, s: Held, binding: ModelBinding)
    requires Kept(jobId, s.log)
    ensures var (t, r) := RebindStep(fits, s, binding); Tells(jobId, fits, s, RebindRecord(binding), t, r)
  {
    var record := RebindRecord(binding);
    RebindIs(s.log);
    if LatestRebind(s.log).None? {
      AppendKeeps(jobId, s.log, record);
    } else {
      var k :| 0 <= k < |s.log| && s.log[k] == RebindRecord(LatestRebind(s.log).value);
      forall i | 0 <= i < |s.log| && s.log[i].RebindRecord? ensures i == k {
        assert i < k ==> MayFollow(s.log[i], s.log[k]);
        assert k < i ==> MayFollow(s.log[k], s.log[i]);
      }
    }
  }

  lemma ReceiptTells(jobId: int, fits: Fitting, s: Held, receipt: Receipt)
    requires Kept(jobId, s.log)
    ensures var (t, r) := ReceiptStep(fits, s, receipt); Tells(jobId, fits, s, ReceiptRecord(receipt), t, r)
  {
    var record := ReceiptRecord(receipt);
    LatestIs(s.log);
    var known := LatestReceipt(s.log);
    if known.None? {
      AppendKeeps(jobId, s.log, record);
    } else {
      var k :| 0 <= k < |s.log| && IsLatest(s.log, k) && s.log[k] == ReceiptRecord(known.value);
      forall i | 0 <= i < |s.log| && s.log[i].ReceiptRecord? && i != k
        ensures s.log[i].receipt.outcome == Pending
      {
        assert MayFollow(s.log[i], s.log[k]);
      }
      if known.value.outcome == Pending && record !in s.log {
        AppendKeeps(jobId, s.log, record);
      }
    }
  }

  // ---------------------------------------------------------------- any number of writes

  datatype Attempt = Attempt(record: LogRecord, power: nat)

  /** Writes in any number and order, whatever becomes of each; before each the process may have died
      and begun again with another budget. */
  function WriteAll(jobId: int, fits: Fitting, s: Held, attempts: seq<Attempt>): Held {
    if attempts == [] then s else
    var before := WriteAll(jobId, fits, s, attempts[..|attempts| - 1]);
    var last := attempts[|attempts| - 1];
    Write(jobId, fits, before.(power := last.power), last.record).0
  }

  /** Whatever is written and wherever the process dies, the log only grows, and stays kept. */
  lemma {:induction false} StaysKept(jobId: int, fits: Fitting, s: Held, attempts: seq<Attempt>)
    requires Kept(jobId, s.log)
    ensures Kept(jobId, WriteAll(jobId, fits, s, attempts).log) && s.log <= WriteAll(jobId, fits, s, attempts).log
  {
    if attempts != [] {
      var n := |attempts| - 1;
      StaysKept(jobId, fits, s, attempts[..n]);
      var before := WriteAll(jobId, fits, s, attempts[..n]);
      WriteTells(jobId, fits, before.(power := attempts[n].power), attempts[n].record);
      hide Kept, Write;
    }
  }
}
