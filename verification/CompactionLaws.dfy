/** What a compacted session tells of the session. */
module CompactionLaws {
  import opened Protocol
  import opened Session
  import opened Sanitize
  import opened Compaction

  // ---------------------------------------------------------------- what is written

  function HexDigit(d: nat): nat
    requires d < 16
  {
    if d < 10 then 0x30 + d else 0x57 + d
  }

  /** A character in a JSON string (section 7 of RFC 8259): short escapes where there are some. */
  function Escaped(c: char): seq<nat> {
    var n := c as int;
    if n == 0x22 || n == 0x5C then [0x5C, n]
    else if n == 8 then [0x5C, 0x62]
    else if n == 9 then [0x5C, 0x74]
    else if n == 10 then [0x5C, 0x6E]
    else if n == 12 then [0x5C, 0x66]
    else if n == 13 then [0x5C, 0x72]
    else if n < 0x20 then [0x5C, 0x75, 0x30, 0x30, HexDigit(n / 16), HexDigit(n % 16)]
    else Utf8(c)
  }

  function Inside(s: string): seq<nat> {
    if s == "" then [] else Escaped(s[0]) + Inside(s[1..])
  }

  function JsonString(s: string): seq<nat> { [0x22] + Inside(s) + [0x22] }

  /** The strings of a JSON list, between its brackets. */
  function JsonStrings(list: seq<string>): seq<nat> {
    if list == [] then []
    else if |list| == 1 then JsonString(list[0])
    else JsonStrings(list[..|list| - 1]) + [0x2C] + JsonString(list[|list| - 1])
  }

  function Decimal(n: nat): seq<nat> {
    if n <= 9 then [0x30 + n] else Decimal(n / 10) + [0x30 + n % 10]
  }

  function Utf8All(messages: seq<string>): seq<nat> {
    if messages == [] then [] else Utf8All(messages[..|messages| - 1]) + Utf8Text(messages[|messages| - 1])
  }

  /** The bytes of a record, apart from those that fitting never touches. */
  function Written(r: CompactionRecord): seq<nat> {
    JsonStrings(r.constraints) + JsonStrings(r.decisions) + JsonStrings(r.openItems) + Decimal(r.afterTokens)
  }

  lemma {:induction false} JsonTextIs(s: string)
    ensures |JsonString(s)| == JsonText(s)
  {
    if s != "" {
      JsonTextIs(s[1..]);
    }
  }

  lemma {:induction false} ListBytesIs(list: seq<string>)
    ensures |JsonStrings(list)| == ListBytes(list)
  {
    hide JsonText, JsonString;
    if list != [] {
      JsonTextIs(list[|list| - 1]);
      ListBytesIs(list[..|list| - 1]);
    }
  }

  lemma {:induction false} DigitsAre(n: nat)
    ensures |Decimal(n)| == Digits(n)
  {
    if n > 9 {
      DigitsAre(n / 10);
    }
  }

  lemma {:induction false} TextBytesAre(messages: seq<string>)
    ensures |Utf8All(messages)| == TextBytes(messages)
  {
    if messages != [] {
      TextBytesAre(messages[..|messages| - 1]);
    }
  }

  /** The size that fitting reckons with is the size of what is written. */
  lemma RecordBytesAre(fixed: nat, r: CompactionRecord)
    ensures fixed + |Written(r)| == RecordBytes(fixed, r)
  {
    ListBytesIs(r.constraints);
    ListBytesIs(r.decisions);
    ListBytesIs(r.openItems);
    DigitsAre(r.afterTokens);
  }

  // ---------------------------------------------------------------- when the estimate settles

  lemma {:induction false} AtLeastDigits(n: nat, d: nat)
    requires n >= Power(d)
    ensures Digits(n) > d
    decreases d
  {
    if d > 0 {
      AtLeastDigits(n / 10, d - 1);
    }
  }

  /** An estimate that is as large as can be has nineteen digits. */
  lemma LargeEstimate(n: nat)
    requires MAX_U64 - 30 <= 4 * n && n <= MAX_U64
    ensures n <= MAX_U64 / 4 + 10 ==> Digits(n) == 19
  {
    assert Power(18) == 1_000_000_000_000_000_000 && Power(19) == 10_000_000_000_000_000_000 by {
      assert Power(5) == 100_000;
      assert Power(10) == 10_000_000_000;
      assert Power(15) == 1_000_000_000_000_000;
    }
    AtLeastDigits(n, 18);
    if n <= MAX_U64 / 4 + 10 {
      DigitsBound(n, 19, Power(19));
    }
  }

  lemma {:induction false} SmallSettles(base: nat, x: nat, n: nat)
    requires base + 23 <= MAX_U64 && x <= MAX_U64
    ensures Settle(base, x, n).Some?
    decreases n
  {
    if n > 0 {
      WordDigits(x);
      SmallSettles(base, Estimate(base + Digits(x)), n - 1);
    }
  }

  lemma {:induction false} LargeSettles(base: nat, x: nat, n: nat)
    requires base + 23 > MAX_U64 && base + Digits(x) + 3 <= MAX_U64 && Digits(x) == 19
    ensures Settle(base, x, n).Some?
    decreases n
  {
    if n > 0 {
      var e := Estimate(base + Digits(x));
      LargeEstimate(e);
      LargeSettles(base, e, n - 1);
    }
  }

  /** The estimate settles exactly when the size stays within a machine word the first two times. */
  lemma SettlesExactly(base: nat, x: nat)
    requires x <= MAX_U64
    ensures Settle(base, x, 4).Some? <==>
              && base + Digits(x) + 3 <= MAX_U64
              && base + Digits(Estimate(base + Digits(x))) + 3 <= MAX_U64
  {
    WordDigits(x);
    if base + Digits(x) + 3 <= MAX_U64 {
      var e := Estimate(base + Digits(x));
      if base + 23 <= MAX_U64 {
        WordDigits(e);
        SmallSettles(base, e, 3);
      } else {
        LargeEstimate(e);
        hide Digits, Estimate;
        if base + Digits(e) + 3 <= MAX_U64 {
          LargeSettles(base, e, 3);
        }
      }
    }
  }

  // ---------------------------------------------------------------- which turns speak

  /** A finished exchange with a text that is too long to clean. */
  ghost predicate Overlong(t: TurnRecord) {
    && t.status == TurnCompleted && t.assistantMessage.Some? && !t.assistantMessage.value.partial
    && (Sanitized(t.userMessage.content).None? || Sanitized(t.assistantMessage.value.content).None?)
  }

  /** Compaction gives up exactly if some finished exchange has such a text. */
  lemma {:induction false} GivesUpExactly(turns: seq<TurnRecord>)
    ensures ExchangesOf(turns).None? <==> exists i :: 0 <= i < |turns| && Overlong(turns[i])
  {
    hide Sanitized;
    if turns != [] {
      var n := |turns| - 1;
      GivesUpExactly(turns[..n]);
      assert ExchangeOf(turns[n]).None? <==> Overlong(turns[n]);
      hide Overlong;
      assert forall i :: 0 <= i < n ==> turns[..n][i] == turns[i];
    }
  }

  /** The turn has a finished exchange that is not empty once cleaned. */
  ghost predicate Speaks(t: TurnRecord) {
    && t.status == TurnCompleted && t.assistantMessage.Some? && !t.assistantMessage.value.partial
    && Sanitized(t.userMessage.content).Some? && Sanitized(t.userMessage.content).value != ""
    && Sanitized(t.assistantMessage.value.content).Some? && Sanitized(t.assistantMessage.value.content).value != ""
  }

  /** The exchanges are those of the turns that speak, in their order, cleaned. */
  ghost predicate Spoken(turns: seq<TurnRecord>, places: seq<nat>, exchanges: seq<RecentTurn>) {
    && |places| == |exchanges|
    && (forall j, k :: 0 <= j < k < |places| ==> places[j] < places[k])
    && (forall i :: 0 <= i < |turns| ==> (Speaks(turns[i]) <==> i in places))
    && (forall k :: 0 <= k < |places| ==>
          && places[k] < |turns| && Speaks(turns[places[k]])
          && exchanges[k] == RecentTurn(turns[places[k]].turnId, Sanitized(turns[places[k]].userMessage.content).value,
                                        Sanitized(turns[places[k]].assistantMessage.value.content).value))
  }

  lemma {:induction false} ExchangesAreSpoken(turns: seq<TurnRecord>) returns (places: seq<nat>)
    requires ExchangesOf(turns).Some?
    ensures Spoken(turns, places, ExchangesOf(turns).value)
  {
    hide Sanitized;
    if turns == [] {
      places := [];
    } else {
      var n := |turns| - 1;
      places := ExchangesAreSpoken(turns[..n]);
      assert forall i :: 0 <= i < n ==> turns[..n][i] == turns[i];
      if Speaks(turns[n]) {
        var earlier := places;
        places := places + [n];
        assert places[|earlier|] == n;
        assert forall i :: i in places <==> i in earlier || i == n;
      }
    }
  }

  /** User and assistant text of each exchange, in turn. */
  lemma {:induction false} MessagesAlternate(exchanges: seq<RecentTurn>)
    ensures var messages := MessagesOf(exchanges);
            && |messages| == 2 * |exchanges|
            && forall k :: 0 <= k < |exchanges| ==>
                 messages[2 * k] == exchanges[k].user && messages[2 * k + 1] == exchanges[k].assistant
  {
    if exchanges != [] {
      MessagesAlternate(exchanges[..|exchanges| - 1]);
    }
  }

  /** The messages of a category, each at the first place where it stands. */
  ghost predicate Chosen(messages: seq<string>, matches: string -> bool, all: seq<string>, at: seq<nat>) {
    && |at| == |all| && (forall j, k :: 0 <= j < k < |at| ==> at[j] < at[k])
    && (forall k :: 0 <= k < |at| ==>
          at[k] < |messages| && messages[at[k]] == all[k] && matches(all[k]) && all[k] !in messages[..at[k]])
    && (forall i :: 0 <= i < |messages| && matches(messages[i]) ==> messages[i] in all)
  }

  lemma {:induction false} SelectedIsChosen(messages: seq<string>, matches: string -> bool) returns (at: seq<nat>)
    ensures Chosen(messages, matches, Selected(messages, matches), at)
  {
    if messages == [] {
      at := [];
    } else {
      var n := |messages| - 1;
      at := SelectedIsChosen(messages[..n], matches);
      var before, all := Selected(messages[..n], matches), Selected(messages, matches);
      assert forall i :: 0 <= i < n ==> messages[..n][i] == messages[i];
      forall k | 0 <= k < |at| ensures all[k] !in messages[..at[k]] {
        assert messages[..n][..at[k]] == messages[..at[k]];
      }
      if all != before {
        assert all[|before|] == messages[n];
        at := at + [n];
        assert messages[n] !in messages[..n];
      }
    }
  }

  /** At most four of them: the first ones or the last ones. */
  ghost predicate Picked(messages: seq<string>, matches: string -> bool, edge: Edge, list: seq<string>) {
    exists all, at ::
      && Chosen(messages, matches, all, at)
      && list == if |all| <= 4 then all else if edge == First then all[..4] else all[|all| - 4..]
  }

  lemma CategorizedIsPicked(messages: seq<string>, matches: string -> bool, edge: Edge)
    ensures Picked(messages, matches, edge, Categorized(messages, matches, edge))
  {
    var at := SelectedIsChosen(messages, matches);
    hide Selected, Chosen;
  }

  /** The estimate is a quarter, rounded up. */
  ghost predicate Quarter(tokens: nat, bytes: nat) { 4 * tokens - 3 <= bytes <= 4 * tokens }

  lemma EstimateIsQuarter(bytes: nat)
    ensures Quarter(Estimate(bytes), bytes)
  {
  }

  /** What a compacted record tells: the first request as the goal; the first constraints and the last
      decisions and open items, less what did not fit, dropped from the ends in that order; the last
      exchanges; and estimates of what there was and of itself. */
  ghost predicate Tells(turns: seq<TurnRecord>, retain: nat, matches: (string, Category) -> bool, fixed: nat,
                        r: CompactionRecord, places: seq<nat>, exchanges: seq<RecentTurn>,
                        constraints: seq<string>, decisions: seq<string>, openItems: seq<string>)
  {
    var messages := MessagesOf(exchanges);
    && Spoken(turns, places, exchanges) && exchanges != []
    && r.coveredThrough == turns[places[|places| - 1]].turnId && r.goal == [exchanges[0].user]
    && |r.recentTurns| == (if |exchanges| <= retain then |exchanges| else retain)
    && r.recentTurns == exchanges[|exchanges| - |r.recentTurns|..]
    && Picked(messages, InCategory(matches, Category.Constraint), First, constraints) && r.constraints <= constraints
    && Picked(messages, InCategory(matches, Category.Decision), Last, decisions) && r.decisions <= decisions
    && Picked(messages, InCategory(matches, Category.OpenItem), Last, openItems) && r.openItems <= openItems
    && (r.decisions != decisions ==> r.openItems == [])
    && (r.constraints != constraints ==> r.openItems == [] && r.decisions == [])
    && Quarter(r.beforeTokens, |Utf8All(messages)|) && Quarter(r.afterTokens, fixed + |Written(r)|)
  }

  lemma RecordTells(turns: seq<TurnRecord>, id: CompactionId, retain: nat, matches: (string, Category) -> bool,
                    fixed: nat, maxBytes: nat)
    returns (places: seq<nat>, constraints: seq<string>, decisions: seq<string>, openItems: seq<string>)
    requires ExchangesOf(turns).Some? && ExchangesOf(turns).value != []
    requires Fit(fixed, Draft(id, ExchangesOf(turns).value, retain, matches), maxBytes).Ok?
    ensures var exchanges := ExchangesOf(turns).value;
            var r := Fit(fixed, Draft(id, exchanges, retain, matches), maxBytes).value;
            && r.compactionId == id && fixed + |Written(r)| <= maxBytes
            && Tells(turns, retain, matches, fixed, r, places, exchanges, constraints, decisions, openItems)
  {
    hide Fit, Estimate, TextBytes, Categorized, Picked, RecordBytes, ExchangesOf, MessagesOf, Quarter, Spoken, Draft,
         InCategory, Sanitized, Written, Utf8All;
    var exchanges := ExchangesOf(turns).value;
    places := ExchangesAreSpoken(turns);
    var draft := Draft(id, exchanges, retain, matches);
    constraints, decisions, openItems := draft.constraints, draft.decisions, draft.openItems;
    DraftPicks(id, exchanges, retain, matches);
    FittedTells(fixed, draft, maxBytes);
    LastIsSpoken(turns, places, exchanges);
    TextBytesAre(MessagesOf(exchanges));
    RecordBytesAre(fixed, Fit(fixed, draft, maxBytes).value);
  }

  lemma FittedTells(fixed: nat, draft: CompactionRecord, maxBytes: nat)
    requires draft.afterTokens <= MAX_U64 && Fit(fixed, draft, maxBytes).Ok?
    ensures var r := Fit(fixed, draft, maxBytes).value;
            && r == draft.(constraints := r.constraints, decisions := r.decisions, openItems := r.openItems,
                           afterTokens := r.afterTokens)
            && r.constraints <= draft.constraints && r.decisions <= draft.decisions && r.openItems <= draft.openItems
            && (r.decisions != draft.decisions ==> r.openItems == [])
            && (r.constraints != draft.constraints ==> r.openItems == [] && r.decisions == [])
            && RecordBytes(fixed, r) <= maxBytes && Quarter(r.afterTokens, RecordBytes(fixed, r))
  {
    hide Fit, Estimate, RecordBytes, Quarter, DropTimes, Entries;
    var n := FitIsFirst(fixed, draft, maxBytes);
    DropsInOrder(draft, n);
    EstimateIsQuarter(RecordBytes(fixed, Fit(fixed, draft, maxBytes).value));
  }

  lemma LastIsSpoken(turns: seq<TurnRecord>, places: seq<nat>, exchanges: seq<RecentTurn>)
    requires Spoken(turns, places, exchanges) && exchanges != []
    ensures |places| == |exchanges| && places[|places| - 1] < |turns|
    ensures exchanges[|exchanges| - 1].turnId == turns[places[|places| - 1]].turnId
  {
    hide Speaks;
  }

  lemma DraftPicks(id: CompactionId, exchanges: seq<RecentTurn>, retain: nat, matches: (string, Category) -> bool)
    requires exchanges != []
    ensures var d := Draft(id, exchanges, retain, matches);
            var messages := MessagesOf(exchanges);
            && d.compactionId == id && d.coveredThrough == exchanges[|exchanges| - 1].turnId
            && d.goal == [exchanges[0].user] && d.afterTokens == 0
            && |d.recentTurns| == (if |exchanges| <= retain then |exchanges| else retain)
            && d.recentTurns == exchanges[|exchanges| - |d.recentTurns|..]
            && Picked(messages, InCategory(matches, Category.Constraint), First, d.constraints)
            && Picked(messages, InCategory(matches, Category.Decision), Last, d.decisions)
            && Picked(messages, InCategory(matches, Category.OpenItem), Last, d.openItems)
            && Quarter(d.beforeTokens, TextBytes(messages))
  {
    hide Estimate, TextBytes, Categorized, Picked, MessagesOf, Quarter, InCategory;
    var messages := MessagesOf(exchanges);
    CategorizedIsPicked(messages, InCategory(matches, Category.Constraint), First);
    CategorizedIsPicked(messages, InCategory(matches, Category.Decision), Last);
    CategorizedIsPicked(messages, InCategory(matches, Category.OpenItem), Last);
    EstimateIsQuarter(TextBytes(messages));
  }
}
