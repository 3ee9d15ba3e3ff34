/** Local compaction: whole visible exchanges fitted into a byte budget. */
module Compaction {
  import opened Protocol
  import opened Requests
  import opened Session
  import opened Sanitize

  datatype CompactionError = NoCompletedTurns | EntryTooLarge | BudgetTooSmall | Serialization

  // ---------------------------------------------------------------- sizes

  function Digits(n: nat): (d: nat)
    ensures d >= 1
  {
    if n < 10 then 1 else 1 + Digits(n / 10)
  }

  /** Bytes of one character in a JSON string. */
  function JsonChar(c: char): nat {
    var n := c as int;
    if n == 0x22 || n == 0x5C || n == 8 || n == 9 || n == 10 || n == 12 || n == 13 then 2
    else if n < 0x20 then 6
    else CharBytes(c)
  }

  function JsonText(s: string): nat { if s == "" then 2 else JsonChar(s[0]) + JsonText(s[1..]) }

  function ListBytes(list: seq<string>): nat {
    if list == [] then 0
    else if |list| == 1 then JsonText(list[0])
    else ListBytes(list[..|list| - 1]) + 1 + JsonText(list[|list| - 1])
  }

  /** Bytes of a record apart from the digits of its own estimate; `fixed` counts what fitting never touches. */
  function BaseBytes(fixed: nat, r: CompactionRecord): nat {
    fixed + ListBytes(r.constraints) + ListBytes(r.decisions) + ListBytes(r.openItems)
  }

  function RecordBytes(fixed: nat, r: CompactionRecord): nat { BaseBytes(fixed, r) + Digits(r.afterTokens) }

  /** A quarter of the bytes, rounded up. */
  function Estimate(bytes: nat): nat { (bytes + 3) / 4 }

  // ---------------------------------------------------------------- the self-referential estimate

  /** Re-estimating at most `n` times; none when the size overflows a machine word. */
  function Settle(base: nat, x: nat, n: nat): Option<nat>
    decreases n
  {
    if n == 0 then Some(x)
    else if base + Digits(x) + 3 > MAX_U64 then None
    else
      var e := Estimate(base + Digits(x));
      if e == x then Some(x) else Settle(base, e, n - 1)
  }

  lemma {:induction false} DigitsMono(a: nat, b: nat)
    requires a <= b
    ensures Digits(a) <= Digits(b)
  {
    if a >= 10 {
      DigitsMono(a / 10, b / 10);
    }
  }

  lemma DigitsOfNext(a: nat, b: nat)
    requires a >= 1 && a <= b <= a + 5
    ensures Digits(a) <= Digits(b) <= Digits(a) + 1
  {
    DigitsMono(a, b);
    DigitsMono(b, 10 * a + 9);
    assert (10 * a + 9) / 10 == a;
  }

  lemma {:induction false} DigitsBound(n: nat, d: nat, bound: nat)
    requires n < bound && bound == Power(d) && d >= 1
    ensures Digits(n) <= d
    decreases d
  {
    if n >= 10 {
      assert d == 1 ==> Power(d) == 10;
      DigitsBound(n / 10, d - 1, Power(d - 1));
    }
  }

  function Power(d: nat): nat { if d == 0 then 1 else 10 * Power(d - 1) }

  lemma WordDigits(n: nat)
    requires n <= MAX_U64
    ensures Digits(n) <= 20
  {
    assert Power(20) == 100_000_000_000_000_000_000 by {
      assert Power(5) == 100_000;
      assert Power(10) == 10_000_000_000;
      assert Power(15) == 1_000_000_000_000_000;
    }
    DigitsBound(n, 20, Power(20));
  }

  /** Estimates of sizes that differ by one digit are equal or neighbours. */
  lemma EstimateNear(base: nat, k: nat)
    ensures Estimate(base + k) <= Estimate(base + k + 1) <= Estimate(base + k) + 1
  {
  }

  /** Three estimates reach a fixed point, wherever the first one starts. */
  lemma ThreeEstimates(base: nat, x: nat)
    requires x <= MAX_U64 && base + 4 <= MAX_U64
    ensures var x1 := Estimate(base + Digits(x));
            var x2 := Estimate(base + Digits(x1));
            var x3 := Estimate(base + Digits(x2));
            Estimate(base + Digits(x3)) == x3
  {
    WordDigits(x);
    var lo := Estimate(base + 1);
    var x1 := Estimate(base + Digits(x));
    DigitsOfNext(lo, x1);
    var k := Digits(lo);
    var a, b := Estimate(base + k), Estimate(base + k + 1);
    EstimateNear(base, k);
    var x2 := Estimate(base + Digits(x1));
    LowDigits(base, k);
    DigitsOfNext(lo, a);
    DigitsOfNext(lo, b);
    if a < b {
      DigitsMono(a, b);
    }
  }

  /** The estimate of a size with the digits of its own range stays in that range. */
  lemma LowDigits(base: nat, k: nat)
    requires k == Digits(Estimate(base + 1)) && base + 4 <= MAX_U64
    ensures var lo := Estimate(base + 1);
            lo >= 1 && lo <= Estimate(base + k) && Estimate(base + k + 1) <= lo + 5
  {
    WordDigits(Estimate(base + 1));
  }

  /** Four rounds always end on the exact estimate: it counts its own digits. */
  lemma SettleIsExact(base: nat, x: nat)
    requires x <= MAX_U64 && Settle(base, x, 4).Some?
    ensures var y := Settle(base, x, 4).value; y == Estimate(base + Digits(y)) && y <= MAX_U64
  {
    hide Estimate, Settle;
    var x1 := Estimate(base + Digits(x));
    var x2 := Estimate(base + Digits(x1));
    var x3 := Estimate(base + Digits(x2));
    SettleStep(base, x, 3);
    ThreeEstimates(base, x);
    hide Digits;
    if x1 != x {
      SettleStep(base, x1, 2);
      if x2 != x1 {
        SettleStep(base, x2, 1);
        if x3 != x2 {
          SettleStep(base, x3, 0);
        }
      }
    }
  }

  lemma SettleStep(base: nat, x: nat, n: nat)
    requires x <= MAX_U64
    ensures var e := Estimate(base + Digits(x));
            && (Settle(base, x, n + 1).Some? ==> base + Digits(x) + 3 <= MAX_U64 && e <= MAX_U64)
            && (Settle(base, x, n + 1).Some? ==>
                  Settle(base, x, n + 1) == if e == x then Some(x) else Settle(base, e, n))
  {
  }

  /** Updates the estimate in place until it is exact. */
  method StabilizeAfterEstimate(r0: CompactionRecord, fixed: nat) returns (r: Result<CompactionRecord, CompactionError>)
    ensures var settled := Settle(BaseBytes(fixed, r0), r0.afterTokens, 4);
            r == if settled.None? then Err(Serialization) else Ok(r0.(afterTokens := settled.value))
  {
    var record := r0;
    ghost var base := BaseBytes(fixed, r0);
    for i := 0 to 4
      invariant record == r0.(afterTokens := record.afterTokens)
      invariant Settle(base, r0.afterTokens, 4) == Settle(base, record.afterTokens, 4 - i)
    {
      var bytes := RecordBytes(fixed, record);
      if bytes + 3 > MAX_U64 {
        return Err(Serialization);
      }
      var estimate := Estimate(bytes);
      if estimate == record.afterTokens {
        return Ok(record);
      }
      record := record.(afterTokens := estimate);
    }
    return Ok(record);
  }

  // ---------------------------------------------------------------- fitting

  predicate Droppable(r: CompactionRecord) { r.openItems != [] || r.decisions != [] || r.constraints != [] }

  /** One entry less: an open item, else a decision, else a constraint. */
  function Drop(r: CompactionRecord): CompactionRecord
    requires Droppable(r)
  {
    if r.openItems != [] then r.(openItems := r.openItems[..|r.openItems| - 1])
    else if r.decisions != [] then r.(decisions := r.decisions[..|r.decisions| - 1])
    else r.(constraints := r.constraints[..|r.constraints| - 1])
  }

  function Entries(r: CompactionRecord): nat { |r.openItems| + |r.decisions| + |r.constraints| }

  function DropTimes(r: CompactionRecord, n: nat): CompactionRecord
    requires n <= Entries(r)
    decreases n
  {
    if n == 0 then r else DropTimes(Drop(r), n - 1)
  }

  function Fit(fixed: nat, r: CompactionRecord, maxBytes: nat): Result<CompactionRecord, CompactionError>
    decreases Entries(r)
  {
    var settled := Settle(BaseBytes(fixed, r), r.afterTokens, 4);
    if settled.None? then Err(Serialization) else
    var s := r.(afterTokens := settled.value);
    if RecordBytes(fixed, s) <= maxBytes then Ok(s)
    else if Droppable(s) then Fit(fixed, Drop(s), maxBytes)
    else Err(BudgetTooSmall)
  }

  /** Drops entries in place until the record fits. */
  method FitRecord(r0: CompactionRecord, fixed: nat, maxBytes: nat)
    returns (r: Result<CompactionRecord, CompactionError>)
    ensures r == Fit(fixed, r0, maxBytes)
  {
    var record := r0;
    while true
      invariant Fit(fixed, record, maxBytes) == Fit(fixed, r0, maxBytes)
      decreases Entries(record)
    {
      var stable := StabilizeAfterEstimate(record, fixed);
      if stable.Err? {
        return stable;
      }
      record := stable.value;
      if RecordBytes(fixed, record) <= maxBytes {
        return Ok(record);
      }
      if !Droppable(record) {
        return Err(BudgetTooSmall);
      }
      record := Drop(record);
    }
  }

  /** The record with an exact estimate of its own. */
  ghost predicate Exact(fixed: nat, r: CompactionRecord) { r.afterTokens == Estimate(RecordBytes(fixed, r)) }

  ghost predicate SameEntries(a: CompactionRecord, b: CompactionRecord) { a == b.(afterTokens := a.afterTokens) }

  /** Fitting gives the first record of the drop chain that fits: its estimate is exact, and every
      longer one, estimated exactly, was too large. */
  lemma {:induction false} FitIsFirst(fixed: nat, r: CompactionRecord, maxBytes: nat) returns (n: nat)
    requires r.afterTokens <= MAX_U64 && Fit(fixed, r, maxBytes).Ok?
    ensures var f := Fit(fixed, r, maxBytes).value;
            && n <= Entries(r) && SameEntries(f, DropTimes(r, n))
            && RecordBytes(fixed, f) <= maxBytes && Exact(fixed, f)
    ensures forall m :: 0 <= m < n ==>
              exists s :: SameEntries(s, DropTimes(r, m)) && Exact(fixed, s) && RecordBytes(fixed, s) > maxBytes
    decreases Entries(r)
  {
    hide Settle, Estimate, Digits, ListBytes, RecordBytes, Exact, Drop, DropTimes, Entries, Droppable;
    var s := FitStep(fixed, r, maxBytes);
    if RecordBytes(fixed, s) <= maxBytes {
      n := 0;
      NoDrop(s, r);
    } else {
      DropIsSmaller(s, r);
      var k := FitIsFirst(fixed, Drop(s), maxBytes);
      n := k + 1;
      DropKeepsEntries(s, r, k);
      forall m | 0 <= m < n
        ensures exists t :: SameEntries(t, DropTimes(r, m)) && Exact(fixed, t) && RecordBytes(fixed, t) > maxBytes
      {
        NoDrop(s, r);
        if m == 0 {
          assert SameEntries(s, DropTimes(r, 0));
        } else {
          DropKeepsEntries(s, r, m - 1);
          var t :| SameEntries(t, DropTimes(Drop(s), m - 1)) && Exact(fixed, t) && RecordBytes(fixed, t) > maxBytes;
          assert SameEntries(t, DropTimes(r, m));
        }
      }
    }
  }

  /** One round of fitting: the exact record, and what comes of it. */
  lemma FitStep(fixed: nat, r: CompactionRecord, maxBytes: nat) returns (s: CompactionRecord)
    requires r.afterTokens <= MAX_U64 && Fit(fixed, r, maxBytes).Ok?
    ensures SameEntries(s, r) && Exact(fixed, s) && s.afterTokens <= MAX_U64
    ensures if RecordBytes(fixed, s) <= maxBytes then Fit(fixed, r, maxBytes) == Ok(s)
            else Droppable(s) && Fit(fixed, r, maxBytes) == Fit(fixed, Drop(s), maxBytes)
  {
    hide Settle, Estimate, Digits, ListBytes;
    SettleIsExact(BaseBytes(fixed, r), r.afterTokens);
    s := r.(afterTokens := Settle(BaseBytes(fixed, r), r.afterTokens, 4).value);
  }

  lemma NoDrop(s: CompactionRecord, r: CompactionRecord)
    requires SameEntries(s, r)
    ensures DropTimes(r, 0) == r
  {
  }

  lemma DropIsSmaller(s: CompactionRecord, r: CompactionRecord)
    requires SameEntries(s, r) && Droppable(s)
    ensures Droppable(r) && Entries(Drop(s)) == Entries(r) - 1 && Drop(s).afterTokens == s.afterTokens
  {
  }

  lemma DropKeepsEntries(s: CompactionRecord, r: CompactionRecord, m: nat)
    requires SameEntries(s, r) && Droppable(r) && m < Entries(r)
    ensures SameEntries(DropTimes(Drop(s), m), DropTimes(r, m + 1))
  {
    DropTimesKeeps(Drop(s), Drop(r), m);
  }

  lemma {:induction false} DropTimesKeeps(s: CompactionRecord, r: CompactionRecord, m: nat)
    requires SameEntries(s, r) && m <= Entries(r)
    ensures SameEntries(DropTimes(s, m), DropTimes(r, m))
    decreases m
  {
    if m > 0 {
      DropTimesKeeps(Drop(s), Drop(r), m - 1);
    }
  }

  /** Nothing but the three lists and the estimate is touched, and they lose entries strictly in order. */
  lemma {:induction false} DropsInOrder(r: CompactionRecord, n: nat)
    requires n <= Entries(r)
    ensures var f := DropTimes(r, n);
            && f == r.(openItems := f.openItems, decisions := f.decisions, constraints := f.constraints)
            && f.openItems <= r.openItems && f.decisions <= r.decisions && f.constraints <= r.constraints
            && (f.decisions != r.decisions ==> f.openItems == [])
            && (f.constraints != r.constraints ==> f.openItems == [] && f.decisions == [])
            && Entries(f) == Entries(r) - n
    decreases n
  {
    if n > 0 {
      DropsInOrder(Drop(r), n - 1);
    }
  }

  // ---------------------------------------------------------------- exchanges

  /** The exchange a turn contributes, if any: completed, answered in full, and not empty once cleaned.
      The outer option is none when a text is too long. */
  function ExchangeOf(t: TurnRecord): Option<Option<RecentTurn>> {
    if t.status != TurnCompleted || t.assistantMessage.None? || t.assistantMessage.value.partial then Some(None) else
    var user := Sanitized(t.userMessage.content);
    if user.None? then None else
    var assistant := Sanitized(t.assistantMessage.value.content);
    if assistant.None? then None
    else if user.value == "" || assistant.value == "" then Some(None)
    else Some(Some(RecentTurn(t.turnId, user.value, assistant.value)))
  }

  function ExchangesOf(turns: seq<TurnRecord>): Option<seq<RecentTurn>> {
    if turns == [] then Some([]) else
    var before := ExchangesOf(turns[..|turns| - 1]);
    if before.None? then None else
    var next := ExchangeOf(turns[|turns| - 1]);
    if next.None? then None
    else Some(before.value + if next.value.Some? then [next.value.value] else [])
  }

  lemma {:induction false} PrefixExchanges(turns: seq<TurnRecord>, n: nat)
    requires n <= |turns| && ExchangesOf(turns[..n]).None?
    ensures ExchangesOf(turns).None?
    decreases |turns|
  {
    if n < |turns| {
      assert turns[..|turns| - 1][..n] == turns[..n];
      PrefixExchanges(turns[..|turns| - 1], n);
    } else {
      assert turns[..n] == turns;
    }
  }

  method Exchanges(turns: seq<TurnRecord>) returns (r: Option<seq<RecentTurn>>)
    ensures r == ExchangesOf(turns)
  {
    hide Sanitized;
    var exchanges: seq<RecentTurn> := [];
    assert turns[..0] == [];
    for i := 0 to |turns|
      invariant ExchangesOf(turns[..i]) == Some(exchanges)
    {
      assert turns[..i + 1][..i] == turns[..i] && exchanges + [] == exchanges;
      var turn := turns[i];
      if turn.status != TurnCompleted || turn.assistantMessage.None? || turn.assistantMessage.value.partial {
        continue;
      }
      var user := SanitizeVisible(turn.userMessage.content);
      if user.None? {
        PrefixExchanges(turns, i + 1);
        return None;
      }
      var assistant := SanitizeVisible(turn.assistantMessage.value.content);
      if assistant.None? {
        PrefixExchanges(turns, i + 1);
        return None;
      }
      if user.value == "" || assistant.value == "" {
        continue;
      }
      exchanges := exchanges + [RecentTurn(turn.turnId, user.value, assistant.value)];
    }
    assert turns[..|turns|] == turns;
    return Some(exchanges);
  }

  /** Where each exchange comes from: completed turns, in order. */
  ghost predicate Placed(turns: seq<TurnRecord>, exchanges: seq<RecentTurn>, places: seq<nat>) {
    && |places| == |exchanges|
    && (forall k :: 0 <= k < |places| ==>
          && places[k] < |turns| && turns[places[k]].turnId == exchanges[k].turnId
          && turns[places[k]].status == TurnCompleted)
    && (forall j, k :: 0 <= j < k < |places| ==> places[j] < places[k])
  }

  lemma {:induction false} ExchangePlaces(turns: seq<TurnRecord>) returns (places: seq<nat>)
    requires ExchangesOf(turns).Some?
    ensures Placed(turns, ExchangesOf(turns).value, places)
  {
    hide Sanitized;
    if turns == [] {
      places := [];
    } else {
      places := ExchangePlaces(turns[..|turns| - 1]);
      if ExchangeOf(turns[|turns| - 1]).value.Some? {
        places := places + [|turns| - 1];
      }
    }
  }

  // ---------------------------------------------------------------- categories

  datatype Category = Constraint | Decision | OpenItem
  datatype Edge = First | Last

  const MAX_CATEGORY_ENTRIES: nat := 4

  function InCategory(matches: (string, Category) -> bool, category: Category): string -> bool {
    m => matches(m, category)
  }

  /** The messages of a category, each once. */
  function Selected(messages: seq<string>, matches: string -> bool): seq<string> {
    if messages == [] then [] else
    var before := Selected(messages[..|messages| - 1], matches);
    var last := messages[|messages| - 1];
    if matches(last) && last !in before then before + [last] else before
  }

  function Categorized(messages: seq<string>, matches: string -> bool, edge: Edge): (selected: seq<string>)
    ensures |selected| <= MAX_CATEGORY_ENTRIES
  {
    var all := Selected(messages, matches);
    if |all| <= MAX_CATEGORY_ENTRIES then all
    else if edge == First then all[..MAX_CATEGORY_ENTRIES]
    else all[|all| - MAX_CATEGORY_ENTRIES..]
  }

  method Categorize(messages: seq<string>, matches: string -> bool, edge: Edge) returns (selected: seq<string>)
    ensures selected == Categorized(messages, matches, edge)
  {
    var seen: set<string> := {};
    selected := [];
    assert messages[..0] == [];
    for i := 0 to |messages|
      invariant selected == Selected(messages[..i], matches)
      invariant forall m :: m in seen <==> m in selected
    {
      assert messages[..i + 1][..i] == messages[..i];
      if matches(messages[i]) && messages[i] !in seen {
        seen := seen + {messages[i]};
        selected := selected + [messages[i]];
      }
    }
    assert messages[..|messages|] == messages;
    if |selected| > MAX_CATEGORY_ENTRIES {
      selected := if edge == First then selected[..MAX_CATEGORY_ENTRIES]
                  else selected[|selected| - MAX_CATEGORY_ENTRIES..];
    }
  }

  /** What is selected are messages of the category, no two alike. */
  lemma {:induction false} SelectedOnce(messages: seq<string>, matches: string -> bool)
    ensures var all := Selected(messages, matches);
            && (forall k :: 0 <= k < |all| ==> all[k] in messages && matches(all[k]))
            && (forall j, k :: 0 <= j < k < |all| ==> all[j] != all[k])
            && (forall m :: m in messages && matches(m) ==> m in all)
  {
    if messages != [] {
      var init := messages[..|messages| - 1];
      SelectedOnce(init, matches);
      assert forall m :: m in messages ==> m in init || m == messages[|messages| - 1];
    }
  }

  // ---------------------------------------------------------------- compacting

  function MessagesOf(exchanges: seq<RecentTurn>): seq<string> {
    if exchanges == [] then []
    else MessagesOf(exchanges[..|exchanges| - 1])
         + [exchanges[|exchanges| - 1].user, exchanges[|exchanges| - 1].assistant]
  }

  function TextBytes(messages: seq<string>): nat {
    if messages == [] then 0 else TextBytes(messages[..|messages| - 1]) + Utf8Len(messages[|messages| - 1])
  }

  datatype Budget = Budget(maxBytes: nat, retain: nat)

  /** The record before it is fitted. */
  function Draft(id: CompactionId, exchanges: seq<RecentTurn>, retain: nat, matches: (string, Category) -> bool)
    : CompactionRecord
    requires exchanges != []
  {
    var messages := MessagesOf(exchanges);
    CompactionRecord(
      id, exchanges[|exchanges| - 1].turnId, [exchanges[0].user],
      Categorized(messages, InCategory(matches, Constraint), First),
      Categorized(messages, InCategory(matches, Decision), Last),
      Categorized(messages, InCategory(matches, OpenItem), Last),
      if |exchanges| <= retain then exchanges else exchanges[|exchanges| - retain..],
      Estimate(TextBytes(messages)), 0)
  }

  /** Compacts a session: the draft, fitted, unless there is no room, a text that is too long, or nothing
      to compact. `fixed` gives the encoded bytes that fitting does not touch. */
  method Compact(session: SessionRecord, id: CompactionId, budget: Budget, matches: (string, Category) -> bool,
                 fixed: CompactionRecord -> nat)
    returns (r: Result<CompactionRecord, CompactionError>)
    ensures var exchanges := ExchangesOf(session.turns);
            if budget.maxBytes == 0 || budget.retain == 0 then r == Err(BudgetTooSmall)
            else if exchanges.None? then r == Err(EntryTooLarge)
            else if exchanges.value == [] then r == Err(NoCompletedTurns)
            else if TextBytes(MessagesOf(exchanges.value)) + 3 > MAX_U64 then r == Err(Serialization)
            else
              var draft := Draft(id, exchanges.value, budget.retain, matches);
              r == Fit(fixed(draft), draft, budget.maxBytes)
  {
    hide Fit, Categorized, Estimate, TextBytes;
    if budget.maxBytes == 0 || budget.retain == 0 {
      return Err(BudgetTooSmall);
    }
    var found := Exchanges(session.turns);
    if found.None? {
      return Err(EntryTooLarge);
    }
    var exchanges := found.value;
    if exchanges == [] {
      return Err(NoCompletedTurns);
    }
    var messages := MessagesOf(exchanges);
    if TextBytes(messages) + 3 > MAX_U64 {
      return Err(Serialization);
    }
    var constraints := Categorize(messages, InCategory(matches, Constraint), First);
    var decisions := Categorize(messages, InCategory(matches, Decision), Last);
    var openItems := Categorize(messages, InCategory(matches, OpenItem), Last);
    var recent := if |exchanges| <= budget.retain then exchanges else exchanges[|exchanges| - budget.retain..];
    var record := CompactionRecord(
      id, exchanges[|exchanges| - 1].turnId, [exchanges[0].user], constraints, decisions, openItems, recent,
      Estimate(TextBytes(messages)), 0);
    assert record == Draft(id, exchanges, budget.retain, matches);
    r := FitRecord(record, fixed(record), budget.maxBytes);
  }

  // ---------------------------------------------------------------- the journal takes it

  ghost predicate DistinctTurns(turns: seq<TurnRecord>) {
    forall i, j :: 0 <= i < j < |turns| ==> turns[i].turnId != turns[j].turnId
  }

  lemma FitKeeps(fixed: nat, r: CompactionRecord, maxBytes: nat)
    requires r.afterTokens <= MAX_U64 && Fit(fixed, r, maxBytes).Ok?
    ensures var f := Fit(fixed, r, maxBytes).value;
            && f.compactionId == r.compactionId && f.coveredThrough == r.coveredThrough
            && f.goal == r.goal && f.recentTurns == r.recentTurns && f.beforeTokens == r.beforeTokens
  {
    hide Fit;
    var n := FitIsFirst(fixed, r, maxBytes);
    DropsInOrder(r, n);
  }

  lemma PlaceIsFound(turns: seq<TurnRecord>, i: nat)
    requires DistinctTurns(turns) && i < |turns| && turns[i].status == TurnCompleted
    ensures CompletedIndex(turns, turns[i].turnId) == i && TurnIndex(turns, turns[i].turnId) == i
  {
    var c := CompletedIndex(turns, turns[i].turnId);
    var t := TurnIndex(turns, turns[i].turnId);
  }

  /** What compaction stores, the journal takes: exactly when no pointer stands in the way, that is when
      there is none, or it names a known turn before the covered one and another compaction. */
  lemma CompactedIsStored(j: Journal, sid: SessionId, id: CompactionId, retain: nat,
                          matches: (string, Category) -> bool, fixed: nat, maxBytes: nat, at: nat)
    requires sid in j.sessions && DistinctTurns(j.sessions[sid].turns) && retain > 0
    requires ExchangesOf(j.sessions[sid].turns).Some? && ExchangesOf(j.sessions[sid].turns).value != []
    requires Fit(fixed, Draft(id, ExchangesOf(j.sessions[sid].turns).value, retain, matches), maxBytes).Ok?
    ensures var s := j.sessions[sid];
            var record := Fit(fixed, Draft(id, ExchangesOf(s.turns).value, retain, matches), maxBytes).value;
            && TurnIndex(s.turns, record.coveredThrough) < |s.turns|
            && (ApplyRecord(j, CompactionStored(sid, record, at)).Some? <==>
                (s.compaction.Some? ==>
                   && s.compaction.value.compactionId != id
                   && TurnIndex(s.turns, s.compaction.value.coveredThrough)
                      < TurnIndex(s.turns, record.coveredThrough)))
  {
    hide Fit, Draft, ExchangesOf;
    var s := j.sessions[sid];
    var exchanges := ExchangesOf(s.turns).value;
    var draft := Draft(id, exchanges, retain, matches);
    var record := Fit(fixed, draft, maxBytes).value;
    DraftIs(id, exchanges, retain, matches);
    FitKeeps(fixed, draft, maxBytes);
    var places := ExchangePlaces(s.turns);
    var last := places[|places| - 1];
    PlaceIsFound(s.turns, last);
    RetainedArePlaced(s.turns, exchanges, places, record.recentTurns);
  }

  lemma DraftIs(id: CompactionId, exchanges: seq<RecentTurn>, retain: nat, matches: (string, Category) -> bool)
    requires exchanges != []
    ensures var d := Draft(id, exchanges, retain, matches);
            && d.compactionId == id && d.coveredThrough == exchanges[|exchanges| - 1].turnId && d.afterTokens == 0
            && |d.recentTurns| <= |exchanges| && d.recentTurns == exchanges[|exchanges| - |d.recentTurns|..]
  {
    hide Categorized, Estimate, TextBytes, MessagesOf;
  }

  lemma RetainedArePlaced(turns: seq<TurnRecord>, exchanges: seq<RecentTurn>, places: seq<nat>, recent: seq<RecentTurn>)
    requires Placed(turns, exchanges, places) && exchanges != []
    requires |recent| <= |exchanges| && recent == exchanges[|exchanges| - |recent|..]
    ensures CoversRetained(turns[..places[|places| - 1] + 1], recent)
  {
    var covered := turns[..places[|places| - 1] + 1];
    forall r | 0 <= r < |recent|
      ensures exists i ::
                0 <= i < |covered| && covered[i].turnId == recent[r].turnId && covered[i].status == TurnCompleted
    {
      var k := |exchanges| - |recent| + r;
      assert recent[r] == exchanges[k];
      var i := places[k];
      assert k == |places| - 1 || places[k] < places[|places| - 1];
      assert covered[i] == turns[i];
    }
  }
}
