/** Cleaning visible text before it is stored: private tags, whitespace, secrets. */
module Sanitize {
  import opened Protocol

  const MAX_ENTRY_BYTES: nat := 4_096
  const REDACTED: string := "[REDACTED]"

  // ---------------------------------------------------------------- searching

  function LowerChar(c: char): char {
    if 'A' <= c <= 'Z' then ((c as int) + 32) as char else c
  }

  function Lower(s: string): (l: string)
    ensures |l| == |s| && forall i :: 0 <= i < |l| ==> l[i] == LowerChar(s[i])
  {
    seq(|s|, i requires 0 <= i < |s| => LowerChar(s[i]))
  }

  /** Full lower case as far as ASCII patterns can tell: the Kelvin sign also becomes a `k`. */
  function FoldChar(c: char): char { if c as int == 0x212A then 'k' else LowerChar(c) }

  function Fold(s: string): (l: string)
    ensures |l| == |s| && forall i :: 0 <= i < |l| ==> l[i] == FoldChar(s[i])
  {
    seq(|s|, i requires 0 <= i < |s| => FoldChar(s[i]))
  }

  predicate At(s: string, pattern: string, i: int) {
    0 <= i && i + |pattern| <= |s| && s[i..i + |pattern|] == pattern
  }

  predicate Has(s: string, pattern: string) {
    exists i :: 0 <= i <= |s| && At(s, pattern, i)
  }

  /** First place of a pattern at or after a position. */
  function Find(s: string, pattern: string, from: nat): (r: Option<nat>)
    ensures r.Some? ==>
              from <= r.value && At(s, pattern, r.value) && forall i :: from <= i < r.value ==> !At(s, pattern, i)
    ensures r.None? ==> forall i :: from <= i <= |s| ==> !At(s, pattern, i)
    decreases |s| + 1 - from
  {
    if from > |s| then None
    else if At(s, pattern, from) then Some(from)
    else Find(s, pattern, from + 1)
  }

  predicate Solid(pattern: string) {
    pattern != "" && forall i :: 0 <= i < |pattern| ==> !IsWhitespace(pattern[i])
  }

  lemma AtIs(s: string, pattern: string, i: int)
    requires 0 <= i && i + |pattern| <= |s|
    ensures At(s, pattern, i) <==> forall k :: 0 <= k < |pattern| ==> s[i + k] == pattern[k]
  {
    if At(s, pattern, i) {
      forall k | 0 <= k < |pattern| ensures s[i + k] == pattern[k] {
        assert s[i..i + |pattern|][k] == s[i + k];
      }
    }
  }

  lemma AtInPrefix(s: string, n: nat, pattern: string, i: int)
    requires n <= |s| && At(s[..n], pattern, i)
    ensures At(s, pattern, i)
  {
    assert s[..n][i..i + |pattern|] == s[i..i + |pattern|];
  }

  lemma FoundInPart(before: string, part: string, after: string, pattern: string)
    requires Has(Lower(part), pattern)
    ensures Has(Lower(before + part + after), pattern)
  {
    var i :| 0 <= i <= |part| && At(Lower(part), pattern, i);
    var whole := Lower(before + part + after);
    assert whole[|before| + i..|before| + i + |pattern|] == Lower(part)[i..i + |pattern|];
    assert At(whole, pattern, |before| + i);
  }

  lemma Covers(s: string, pattern: string, i: int, p: int)
    requires At(s, pattern, i) && i <= p < i + |pattern|
    ensures s[p] == pattern[p - i]
  {
    assert s[i..i + |pattern|][p - i] == s[p];
  }

  lemma AtMeans(s: string, pattern: string, i: int, k: nat)
    requires k < |pattern|
    ensures At(s, pattern, i) ==> 0 <= i + k < |s| && s[i + k] == pattern[k]
  {
    if At(s, pattern, i) {
      Covers(s, pattern, i, i + k);
    }
  }

  lemma ShiftAt(prefix: string, s: string, pattern: string, i: nat)
    ensures At(prefix + s, pattern, |prefix| + i) <==> At(s, pattern, i)
  {
    if i + |pattern| <= |s| {
      assert (prefix + s)[|prefix| + i..|prefix| + i + |pattern|] == s[i..i + |pattern|];
    }
  }

  /** A pattern without whitespace does not reach across a space. */
  lemma FoundOnOneSide(a: string, b: string, pattern: string)
    requires Solid(pattern) && Has(Lower(a + " " + b), pattern)
    ensures Has(Lower(a), pattern) || Has(Lower(b), pattern)
  {
    var whole := Lower(a + " " + b);
    var i :| 0 <= i <= |whole| && At(whole, pattern, i);
    AtIs(whole, pattern, i);
    assert whole[|a|] == ' ';
    if i + |pattern| <= |a| {
      assert Lower(a)[i..i + |pattern|] == whole[i..i + |pattern|];
      assert At(Lower(a), pattern, i);
    } else {
      var j := i - |a| - 1;
      if i <= |a| {
        Covers(whole, pattern, i, |a|);
      }
      assert Lower(b)[j..j + |pattern|] == whole[i..i + |pattern|];
      assert At(Lower(b), pattern, j);
    }
  }

  // ---------------------------------------------------------------- private tags

  function OpenTag(tag: string): string { "<" + tag }
  function CloseTag(tag: string): string { "</" + tag + ">" }

  /** Where the first block of this tag begins, and where it ends if it does. */
  function Block(value: string, tag: string): (b: Option<(nat, Option<nat>)>)
    ensures b.Some? ==> b.value.0 < |value| && At(Lower(value), OpenTag(tag), b.value.0)
                        && forall i :: 0 <= i < b.value.0 ==> !At(Lower(value), OpenTag(tag), i)
    ensures b.Some? && b.value.1.Some? ==> b.value.0 + 2 <= b.value.1.value <= |value|
    ensures b.None? <==> !Has(Lower(value), OpenTag(tag))
  {
    var lower := Lower(value);
    var start := Find(lower, OpenTag(tag), 0);
    if start.None? then None else
    var openEnd := Find(lower, ">", start.value);
    if openEnd.None? then Some((start.value, None)) else
    var close := Find(lower, CloseTag(tag), openEnd.value + 1);
    if close.None? then Some((start.value, None))
    else Some((start.value, Some(close.value + |CloseTag(tag)|)))
  }

  /** The text without blocks of this tag; an unfinished block takes the rest with it. */
  function Strip(value: string, tag: string): string
    decreases |value|
  {
    var block := Block(value, tag);
    if block.None? then value
    else if block.value.1.None? then value[..block.value.0]
    else Strip(value[..block.value.0] + " " + value[block.value.1.value..], tag)
  }

  method StripTagBlocks(value0: string, tag: string) returns (value: string)
    ensures value == Strip(value0, tag)
  {
    value := value0;
    while true
      invariant Strip(value, tag) == Strip(value0, tag)
      decreases |value|
    {
      var block := Block(value, tag);
      if block.None? {
        return;
      }
      if block.value.1.None? {
        return value[..block.value.0];
      }
      value := value[..block.value.0] + " " + value[block.value.1.value..];
    }
  }

  lemma NotBefore(value: string, pattern: string, start: nat)
    requires start < |value| && forall i :: 0 <= i < start ==> !At(Lower(value), pattern, i)
    requires pattern != ""
    ensures !Has(Lower(value[..start]), pattern)
  {
    assert Lower(value[..start]) == Lower(value)[..start];
    if Has(Lower(value[..start]), pattern) {
      var i :| 0 <= i <= start && At(Lower(value[..start]), pattern, i);
      AtInPrefix(Lower(value), start, pattern, i);
    }
  }

  /** No block of the tag is left, not even an opening one, in any letter case. */
  lemma {:induction false} StripRemoves(value: string, tag: string)
    ensures !Has(Lower(Strip(value, tag)), OpenTag(tag))
    decreases |value|
  {
    var block := Block(value, tag);
    if block.Some? {
      if block.value.1.None? {
        NotBefore(value, OpenTag(tag), block.value.0);
      } else {
        StripRemoves(value[..block.value.0] + " " + value[block.value.1.value..], tag);
      }
    }
  }

  /** Stripping one tag never makes another appear. */
  lemma {:induction false} StripAddsNothing(value: string, tag: string, pattern: string)
    requires Solid(pattern) && !Has(Lower(value), pattern)
    ensures !Has(Lower(Strip(value, tag)), pattern)
    decreases |value|
  {
    hide Has, Lower, At, Solid, Find;
    var block := Block(value, tag);
    if block.Some? {
      var head := value[..block.value.0];
      assert "" + head + value[block.value.0..] == value;
      if Has(Lower(head), pattern) {
        FoundInPart("", head, value[block.value.0..], pattern);
      }
      if block.value.1.Some? {
        var rest := value[block.value.1.value..];
        assert value[..block.value.1.value] + rest + "" == value;
        if Has(Lower(rest), pattern) {
          FoundInPart(value[..block.value.1.value], rest, "", pattern);
        }
        if Has(Lower(head + " " + rest), pattern) {
          FoundOnOneSide(head, rest, pattern);
        }
        StripAddsNothing(head + " " + rest, tag, pattern);
      }
    }
  }

  // ---------------------------------------------------------------- words

  /** Length of the leading run without whitespace. */
  function Run(s: string): (n: nat)
    ensures n <= |s| && (forall i :: 0 <= i < n ==> !IsWhitespace(s[i]))
    ensures n < |s| ==> IsWhitespace(s[n])
  {
    if s == "" || IsWhitespace(s[0]) then 0 else 1 + Run(s[1..])
  }

  function Words(s: string): (ws: seq<string>)
    ensures forall k :: 0 <= k < |ws| ==> Solid(ws[k])
  {
    if s == "" then []
    else if IsWhitespace(s[0]) then Words(s[1..])
    else
      var n := Run(s);
      [s[..n]] + Words(s[n..])
  }

  function Join(ws: seq<string>): string {
    if ws == [] then "" else if |ws| == 1 then ws[0] else ws[0] + " " + Join(ws[1..])
  }

  ghost predicate AllSolid(ws: seq<string>) { forall k :: 0 <= k < |ws| ==> Solid(ws[k]) }

  lemma RunOfWord(word: string, rest: string)
    requires Solid(word) && (rest == "" || IsWhitespace(rest[0]))
    ensures Run(word + rest) == |word|
    decreases word
  {
    assert forall i :: 0 <= i < |word| ==> (word + rest)[i] == word[i];
    assert rest != "" ==> (word + rest)[|word|] == rest[0];
  }

  /** Splitting joined words gives the words back. */
  lemma {:induction false} WordsOfJoin(ws: seq<string>)
    requires AllSolid(ws)
    ensures Words(Join(ws)) == ws
  {
    if ws != [] {
      var word := ws[0];
      assert Solid(word);
      if |ws| == 1 {
        RunOfWord(word, "");
        assert word + "" == word && word[..|word|] == word && word[|word|..] == "";
      } else {
        WordsOfJoin(ws[1..]);
        var rest := " " + Join(ws[1..]);
        RunOfWord(word, rest);
        var all := word + rest;
        assert Join(ws) == all && all[..|word|] == word && all[|word|..] == rest && rest[1..] == Join(ws[1..]);
      }
    }
  }

  /** What shows up in joined words shows up in one of them. */
  lemma {:induction false} FoundInAWord(ws: seq<string>, pattern: string)
    requires Solid(pattern) && Has(Lower(Join(ws)), pattern)
    ensures exists k :: 0 <= k < |ws| && Has(Lower(ws[k]), pattern)
  {
    if |ws| > 1 {
      FoundOnOneSide(ws[0], Join(ws[1..]), pattern);
      if !Has(Lower(ws[0]), pattern) {
        FoundInAWord(ws[1..], pattern);
        var k :| 0 <= k < |ws| - 1 && Has(Lower(ws[1..][k]), pattern);
        assert ws[k + 1] == ws[1..][k];
      }
    }
  }

  lemma {:induction false} WordsArePart(s: string, pattern: string, k: nat)
    requires k < |Words(s)| && Has(Lower(Words(s)[k]), pattern)
    ensures Has(Lower(s), pattern)
    decreases |s|
  {
    hide Has, Lower, Solid;
    if IsWhitespace(s[0]) {
      WordsArePart(s[1..], pattern, k);
      FoundInPart(s[..1], s[1..], "", pattern);
      assert s[..1] + s[1..] + "" == s;
    } else {
      var n := Run(s);
      if k == 0 {
        FoundInPart("", s[..n], s[n..], pattern);
        assert "" + s[..n] + s[n..] == s;
      } else {
        WordsArePart(s[n..], pattern, k - 1);
        FoundInPart(s[..n], s[n..], "", pattern);
        assert s[..n] + s[n..] + "" == s;
      }
    }
  }

  // ---------------------------------------------------------------- secrets

  /** The marks of a named secret. */
  predicate NamesSecret(lower: string) {
    || Has(lower, "api_key=") || Has(lower, "apikey=") || Has(lower, "password=") || Has(lower, "secret=")
    || Has(lower, "token=") || Has(lower, "authorization=") || Has(lower, "sk-") || Has(lower, "ghp_")
    || Has(lower, "github_pat_") || Has(lower, "glpat-") || Has(lower, "do_not_persist")
    || Has(lower, "raw_frame") || Has(lower, "tool_body")
  }

  predicate HighEntropy(token: string) {
    var bytes := Utf8Text(token);
    && |bytes| >= 32
    && (exists i :: 0 <= i < |bytes| && (65 <= bytes[i] <= 90 || 97 <= bytes[i] <= 122))
    && (exists i :: 0 <= i < |bytes| && 48 <= bytes[i] <= 57)
    && |set i | 0 <= i < |bytes| :: bytes[i]| >= 10
  }

  predicate Sensitive(token: string) { NamesSecret(Lower(token)) || HighEntropy(token) }

  const KEY_HEAD: string := "private"
  const KEY_TAIL: string := "key-----"

  predicate NamesPrivateKey(content: string) { Has(Fold(content), KEY_HEAD + " " + KEY_TAIL) }

  /** Each word after a bearer mark, and each sensitive word, is blanked. */
  function RedactFrom(ws: seq<string>, blankNext: bool): (rs: seq<string>)
    ensures |rs| == |ws|
    ensures forall k :: 0 <= k < |rs| ==> rs[k] == ws[k] || rs[k] == REDACTED
  {
    if ws == [] then []
    else if blankNext then [REDACTED] + RedactFrom(ws[1..], false)
    else if Lower(ws[0]) == "bearer" then [ws[0]] + RedactFrom(ws[1..], true)
    else [if Sensitive(ws[0]) then REDACTED else ws[0]] + RedactFrom(ws[1..], false)
  }

  function Redact(content: string): string {
    if NamesPrivateKey(content) then REDACTED else Join(RedactFrom(Words(content), false))
  }

  method RedactSecrets(content: string) returns (r: string)
    ensures r == Redact(content)
  {
    hide NamesPrivateKey, Words, Join, Sensitive, Lower, RedactFrom;
    if NamesPrivateKey(content) {
      return REDACTED;
    }
    var ws := Words(content);
    var rs: seq<string> := [];
    var blankNext := false;
    assert ws[0..] == ws && rs + RedactFrom(ws, false) == RedactFrom(ws, false);
    for i := 0 to |ws|
      invariant RedactFrom(ws, false) == rs + RedactFrom(ws[i..], blankNext)
    {
      RedactStep(ws, i, blankNext, rs);
      if blankNext {
        blankNext := false;
        rs := rs + [REDACTED];
      } else if Lower(ws[i]) == "bearer" {
        blankNext := true;
        rs := rs + [ws[i]];
      } else {
        rs := rs + [if Sensitive(ws[i]) then REDACTED else ws[i]];
      }
    }
    RedactEnds(blankNext, rs);
    return Join(rs);
  }

  lemma RedactStep(ws: seq<string>, i: nat, blankNext: bool, rs: seq<string>)
    requires i < |ws|
    ensures rs + RedactFrom(ws[i..], blankNext)
            == if blankNext then (rs + [REDACTED]) + RedactFrom(ws[i + 1..], false)
               else if Lower(ws[i]) == "bearer" then (rs + [ws[i]]) + RedactFrom(ws[i + 1..], true)
               else (rs + [if Sensitive(ws[i]) then REDACTED else ws[i]]) + RedactFrom(ws[i + 1..], false)
  {
    hide Sensitive, Lower;
    assert ws[i..][0] == ws[i] && ws[i..][1..] == ws[i + 1..];
  }

  lemma RedactEnds(blankNext: bool, rs: seq<string>)
    ensures rs + RedactFrom([], blankNext) == rs
  {
  }

  const TAGS: seq<string> := ["think", "analysis", "reasoning"]

  /** Visible text as it may be stored, or none when it is too long. */
  function Sanitized(content: string): Option<string> {
    var stripped := Strip(Strip(Strip(content, "think"), "analysis"), "reasoning");
    var redacted := Redact(Join(Words(stripped)));
    if Utf8Len(redacted) > MAX_ENTRY_BYTES then None else Some(redacted)
  }

  method SanitizeVisible(content: string) returns (r: Option<string>)
    ensures r == Sanitized(content)
  {
    var value := content;
    for i := 0 to |TAGS|
      invariant i == 0 ==> value == content
      invariant i == 1 ==> value == Strip(content, "think")
      invariant i == 2 ==> value == Strip(Strip(content, "think"), "analysis")
      invariant i == 3 ==> value == Strip(Strip(Strip(content, "think"), "analysis"), "reasoning")
    {
      value := StripTagBlocks(value, TAGS[i]);
    }
    var redacted := RedactSecrets(Join(Words(value)));
    return if Utf8Len(redacted) > MAX_ENTRY_BYTES then None else Some(redacted);
  }

  // ---------------------------------------------------------------- nothing private is left

  lemma TagsAreSolid()
    ensures Solid(OpenTag("think")) && Solid(OpenTag("analysis")) && Solid(OpenTag("reasoning"))
    ensures OpenTag("think")[0] == '<' && OpenTag("analysis")[0] == '<' && OpenTag("reasoning")[0] == '<'
  {
  }

  lemma BlankHasNone(pattern: string)
    requires Solid(pattern) && pattern[0] == '<'
    ensures !Has(Lower(REDACTED), pattern)
  {
    hide At;
    var lower := Lower(REDACTED);
    forall i | 0 <= i <= |lower| ensures !At(lower, pattern, i) {
      AtMeans(lower, pattern, i, 0);
    }
  }

  lemma BlankIsSolid()
    ensures Solid(REDACTED) && Lower(REDACTED) != "bearer"
  {
    assert |REDACTED| == 10 && |"bearer"| == 6;
  }

  lemma WordsAreSolid(s: string)
    ensures AllSolid(Words(s))
  {
  }

  /** Joining words and blanking some of them brings no tag back. */
  lemma RedactAddsNothing(content: string, pattern: string)
    requires Solid(pattern) && pattern[0] == '<' && !Has(Lower(content), pattern)
    ensures !Has(Lower(Redact(content)), pattern)
  {
    BlankHasNone(pattern);
    if !NamesPrivateKey(content) {
      var ws := Words(content);
      var rs := RedactFrom(ws, false);
      if Has(Lower(Join(rs)), pattern) {
        FoundInAWord(rs, pattern);
        var k :| 0 <= k < |rs| && Has(Lower(rs[k]), pattern);
        WordsArePart(content, pattern, k);
      }
    }
  }

  lemma JoinAddsNothing(content: string, pattern: string)
    requires Solid(pattern) && !Has(Lower(content), pattern)
    ensures !Has(Lower(Join(Words(content))), pattern)
  {
    if Has(Lower(Join(Words(content))), pattern) {
      FoundInAWord(Words(content), pattern);
      var k :| 0 <= k < |Words(content)| && Has(Lower(Words(content)[k]), pattern);
      WordsArePart(content, pattern, k);
    }
  }

  lemma RestAddsNothing(stripped: string, pattern: string)
    requires Solid(pattern) && pattern[0] == '<' && !Has(Lower(stripped), pattern)
    ensures !Has(Lower(Redact(Join(Words(stripped)))), pattern)
  {
    JoinAddsNothing(stripped, pattern);
    RedactAddsNothing(Join(Words(stripped)), pattern);
  }

  /** Sanitised text opens none of the private tags, in any letter case. */
  lemma SanitizedHasNoTags(content: string)
    requires Sanitized(content).Some?
    ensures var r := Lower(Sanitized(content).value);
            !Has(r, OpenTag("think")) && !Has(r, OpenTag("analysis")) && !Has(r, OpenTag("reasoning"))
  {
    hide Has, Strip, Redact, Join, Words, Lower, Solid;
    TagsAreSolid();
    var a := Strip(content, "think");
    var b := Strip(a, "analysis");
    var c := Strip(b, "reasoning");
    StripRemoves(content, "think");
    StripAddsNothing(a, "analysis", OpenTag("think"));
    StripAddsNothing(b, "reasoning", OpenTag("think"));
    StripRemoves(a, "analysis");
    StripAddsNothing(b, "reasoning", OpenTag("analysis"));
    StripRemoves(b, "reasoning");
    RestAddsNothing(c, OpenTag("think"));
    RestAddsNothing(c, OpenTag("analysis"));
    RestAddsNothing(c, OpenTag("reasoning"));
  }

  // ---------------------------------------------------------------- sanitising twice

  lemma StripsNothing(value: string, tag: string)
    requires !Has(Lower(value), OpenTag(tag))
    ensures Strip(value, tag) == value
  {
  }

  lemma MarkIsAbsent(mark: string, k: nat)
    requires k < |mark| && mark[k] in {'=', '-', '_'}
    ensures !Has(Lower(REDACTED), mark)
  {
    var lower := Lower(REDACTED);
    hide At;
    forall i | 0 <= i <= |lower| ensures !At(lower, mark, i) {
      AtMeans(lower, mark, i, k);
    }
  }

  lemma BlankNamesNoSecret()
    ensures !NamesSecret(Lower(REDACTED))
  {
    hide Has, Lower;
    MarkIsAbsent("api_key=", 7);
    MarkIsAbsent("apikey=", 6);
    MarkIsAbsent("password=", 8);
    MarkIsAbsent("secret=", 6);
    MarkIsAbsent("token=", 5);
    MarkIsAbsent("authorization=", 13);
    MarkIsAbsent("sk-", 2);
    MarkIsAbsent("ghp_", 3);
    MarkIsAbsent("github_pat_", 6);
    MarkIsAbsent("glpat-", 5);
    MarkIsAbsent("do_not_persist", 2);
    MarkIsAbsent("raw_frame", 3);
    MarkIsAbsent("tool_body", 4);
  }

  lemma {:induction false} BytesBound(s: string)
    requires forall i :: 0 <= i < |s| ==> s[i] as int < 0x80
    ensures |Utf8Text(s)| == |s|
  {
    if s != "" {
      BytesBound(s[1..]);
    }
  }

  lemma BlankIsNotSensitive()
    ensures !Sensitive(REDACTED)
  {
    hide NamesSecret, Utf8Text;
    BytesBound(REDACTED);
    BlankNamesNoSecret();
  }

  lemma {:induction false} RedactedStays(ws: seq<string>, blankNext: bool)
    ensures RedactFrom(RedactFrom(ws, blankNext), blankNext) == RedactFrom(ws, blankNext)
  {
    hide Sensitive, Lower;
    BlankIsNotSensitive();
    BlankIsSolid();
    if ws != [] {
      var rs := RedactFrom(ws, blankNext);
      var next := !blankNext && Lower(ws[0]) == "bearer";
      RedactedStays(ws[1..], next);
      assert rs[1..] == RedactFrom(ws[1..], next);
    }
  }

  /** Two neighbouring words spell the key mark. */
  ghost predicate KeyWords(ws: seq<string>) {
    exists k :: 0 <= k < |ws| - 1 && EndsHead(ws[k]) && StartsTail(ws[k + 1])
  }

  predicate EndsHead(word: string) {
    Ends(Fold(word))
  }

  predicate StartsTail(word: string) {
    |word| >= |KEY_TAIL| && Fold(word)[..|KEY_TAIL|] == KEY_TAIL
  }

  lemma StartOfJoin(ws: seq<string>)
    requires AllSolid(ws)
    ensures At(Fold(Join(ws)), KEY_TAIL, 0) <==> ws != [] && StartsTail(ws[0])
  {
    if ws != [] {
      var all := Fold(Join(ws));
      assert Solid(ws[0]);
      assert forall i :: 0 <= i < |ws[0]| ==> all[i] == Fold(ws[0])[i];
      if |ws[0]| >= |KEY_TAIL| {
        assert all[0..|KEY_TAIL|] == Fold(ws[0])[..|KEY_TAIL|];
      } else if |ws| > 1 {
        assert all[|ws[0]|] == ' ';
        if At(all, KEY_TAIL, 0) {
          Covers(all, KEY_TAIL, 0, |ws[0]|);
        }
      }
    }
  }

  lemma KeyMarkIs()
    ensures |KEY_HEAD + " " + KEY_TAIL| == |KEY_HEAD| + 1 + |KEY_TAIL| && (KEY_HEAD + " " + KEY_TAIL)[|KEY_HEAD|] == ' '
    ensures Solid(KEY_HEAD) && Solid(KEY_TAIL)
    ensures forall k :: 0 <= k < |KEY_HEAD| ==> (KEY_HEAD + " " + KEY_TAIL)[k] == KEY_HEAD[k] && KEY_HEAD[k] != ' '
  {
  }

  /** The key mark in joined words is two of them meeting at a space. */
  lemma {:induction false} KeyMarkInWords(ws: seq<string>)
    requires AllSolid(ws)
    ensures NamesPrivateKey(Join(ws)) <==> KeyWords(ws)
  {
    if |ws| > 1 {
      KeyMarkInWords(ws[1..]);
      KeyMarkSplits(ws[0], ws[1..]);
      StartOfJoin(ws[1..]);
      if KeyWords(ws[1..]) {
        var k :| 0 <= k < |ws| - 2 && EndsHead(ws[1..][k]) && StartsTail(ws[1..][k + 1]);
        assert ws[k + 1] == ws[1..][k] && ws[k + 1 + 1] == ws[1..][k + 1];
      }
      if KeyWords(ws) && !(EndsHead(ws[0]) && StartsTail(ws[1])) {
        var k :| 0 <= k < |ws| - 1 && EndsHead(ws[k]) && StartsTail(ws[k + 1]);
        assert ws[1..][k - 1] == ws[k] && ws[1..][k - 1 + 1] == ws[k + 1];
      }
    } else {
      OneWordHasNoMark(ws);
    }
  }

  lemma OneWordHasNoMark(ws: seq<string>)
    requires AllSolid(ws) && |ws| <= 1
    ensures !NamesPrivateKey(Join(ws)) && !KeyWords(ws)
  {
    KeyMarkIs();
    var all := Fold(Join(ws));
    var mark := KEY_HEAD + " " + KEY_TAIL;
    hide At;
    assert forall k :: 0 <= k < |all| ==> all[k] != ' ' by {
      assert ws != [] ==> Solid(ws[0]);
    }
    forall i | 0 <= i <= |all| ensures !At(all, mark, i) {
      AtMeans(all, mark, i, |KEY_HEAD|);
    }
  }

  /** The mark lies in the rest, or meets at the first space. */
  lemma KeyMarkSplits(word: string, rest: seq<string>)
    requires Solid(word) && rest != []
    ensures NamesPrivateKey(word + " " + Join(rest)) <==>
            NamesPrivateKey(Join(rest)) || (EndsHead(word) && At(Fold(Join(rest)), KEY_TAIL, 0))
  {
    assert Fold(word + " " + Join(rest)) == Fold(word) + " " + Fold(Join(rest));
    MarkSplits(Fold(word), Fold(Join(rest)));
  }

  predicate Ends(a: string) { |a| >= |KEY_HEAD| && a[|a| - |KEY_HEAD|..] == KEY_HEAD }

  lemma MarkSplits(a: string, b: string)
    requires forall k :: 0 <= k < |a| ==> a[k] != ' '
    ensures var mark := KEY_HEAD + " " + KEY_TAIL;
            Has(a + " " + b, mark) <==> Has(b, mark) || (Ends(a) && At(b, KEY_TAIL, 0))
  {
    var all, mark := a + " " + b, KEY_HEAD + " " + KEY_TAIL;
    if Has(all, mark) {
      var i :| 0 <= i <= |all| && At(all, mark, i);
      MarkPlace(a, b, i);
    }
    if Has(b, mark) {
      MarkInRest(a, b, mark);
    }
    if Ends(a) && At(b, KEY_TAIL, 0) {
      MarkMeets(a, b);
    }
  }

  lemma MarkInRest(a: string, b: string, mark: string)
    requires Has(b, mark)
    ensures Has(a + " " + b, mark)
  {
    var i :| 0 <= i <= |b| && At(b, mark, i);
    var all := a + " " + b;
    assert all[|a| + 1 + i..|a| + 1 + i + |mark|] == b[i..i + |mark|];
    assert At(all, mark, |a| + 1 + i);
  }

  lemma MarkMeets(a: string, b: string)
    requires Ends(a) && At(b, KEY_TAIL, 0)
    ensures Has(a + " " + b, KEY_HEAD + " " + KEY_TAIL)
  {
    var all, mark := a + " " + b, KEY_HEAD + " " + KEY_TAIL;
    var i := |a| - |KEY_HEAD|;
    assert all[i..i + |mark|] == a[i..] + " " + b[0..|KEY_TAIL|];
    assert At(all, mark, i);
  }

  lemma MarkPlace(a: string, b: string, i: int)
    requires forall k :: 0 <= k < |a| ==> a[k] != ' '
    requires At(a + " " + b, KEY_HEAD + " " + KEY_TAIL, i)
    ensures At(b, KEY_HEAD + " " + KEY_TAIL, i - |a| - 1)
            || (Ends(a) && At(b, KEY_TAIL, 0))
  {
    KeyMarkIs();
    var all, mark := a + " " + b, KEY_HEAD + " " + KEY_TAIL;
    Covers(all, mark, i, i + |KEY_HEAD|);
    assert i + |KEY_HEAD| >= |a|;
    assert all[|a|] == ' ';
    if i <= |a| < i + |KEY_HEAD| {
      Covers(all, mark, i, |a|);
    }
    if i + |KEY_HEAD| == |a| {
      var found := all[i..i + |mark|];
      assert found[..|KEY_HEAD|] == a[i..] && mark[..|KEY_HEAD|] == KEY_HEAD;
      assert found[|KEY_HEAD| + 1..] == b[0..|KEY_TAIL|] && mark[|KEY_HEAD| + 1..] == KEY_TAIL;
    } else {
      assert b[i - |a| - 1..i - |a| - 1 + |mark|] == all[i..i + |mark|];
    }
  }

  lemma BlankIsNoKeyWord()
    ensures !EndsHead(REDACTED) && !StartsTail(REDACTED)
  {
    assert Fold(REDACTED)[9] == ']' && Fold(REDACTED)[0] == '[';
    assert KEY_HEAD[6] == 'e' && KEY_TAIL[0] == 'k';
    assert |KEY_HEAD| == 7;
    assert Fold(REDACTED)[3..][6] == Fold(REDACTED)[9];
  }

  lemma KeyWordsStayAway(ws: seq<string>, rs: seq<string>)
    requires |rs| == |ws| && forall k :: 0 <= k < |rs| ==> rs[k] == ws[k] || rs[k] == REDACTED
    requires KeyWords(rs)
    ensures KeyWords(ws)
  {
    hide EndsHead, StartsTail;
    BlankIsNoKeyWord();
    var k :| 0 <= k < |rs| - 1 && EndsHead(rs[k]) && StartsTail(rs[k + 1]);
    assert EndsHead(ws[k]) && StartsTail(ws[k + 1]);
  }

  lemma RedactedIsSolid(ws: seq<string>, rs: seq<string>)
    requires AllSolid(ws) && |rs| == |ws| && forall k :: 0 <= k < |rs| ==> rs[k] == ws[k] || rs[k] == REDACTED
    ensures AllSolid(rs)
  {
    BlankIsSolid();
  }

  lemma BlankStays()
    ensures Words(REDACTED) == [REDACTED] && Join([REDACTED]) == REDACTED && Redact(REDACTED) == REDACTED
  {
    BlankIsSolid();
    WordsOfJoin([REDACTED]);
    KeyMarkInWords([REDACTED]);
    RedactedStays(["x"], true);
    BlankIsNotSensitive();
    hide Sensitive, Lower, NamesPrivateKey, Words;
    assert [REDACTED][1..] == [];
    assert RedactFrom([REDACTED], false) == [REDACTED] + RedactFrom([], false);
  }

  /** Redacted text is made of words already, and redacting it again changes nothing. */
  lemma RedactTwice(content: string)
    requires Join(Words(content)) == content
    ensures var r := Redact(content); Join(Words(r)) == r && Redact(r) == r
  {
    hide Sensitive, Lower, NamesPrivateKey, KeyWords, RedactFrom, Words, Join;
    if NamesPrivateKey(content) {
      BlankStays();
    } else {
      var ws := Words(content);
      var rs := RedactFrom(ws, false);
      WordsAreSolid(content);
      RedactedIsSolid(ws, rs);
      WordsOfJoin(rs);
      RedactedStays(ws, false);
      KeyMarkInWords(rs);
      KeyMarkInWords(ws);
      if KeyWords(rs) {
        KeyWordsStayAway(ws, rs);
      }
    }
  }

  /** Sanitising what was sanitised returns it unchanged. */
  lemma SanitizedTwice(content: string)
    requires Sanitized(content).Some?
    ensures Sanitized(Sanitized(content).value) == Sanitized(content)
  {
    hide Strip, Redact, Join, Words, Lower;
    var stripped := Strip(Strip(Strip(content, "think"), "analysis"), "reasoning");
    var r := Sanitized(content).value;
    WordsAreSolid(stripped);
    WordsOfJoin(Words(stripped));
    RedactTwice(Join(Words(stripped)));
    SanitizedHasNoTags(content);
    StripsNothing(r, "think");
    StripsNothing(r, "analysis");
    StripsNothing(r, "reasoning");
  }

  // ---------------------------------------------------------------- what is kept

  /** Lower-case text without angle brackets, as the private tags are. */
  predicate PlainTag(tag: string) {
    forall i :: 0 <= i < |tag| ==> tag[i] != '<' && tag[i] != '>' && LowerChar(tag[i]) == tag[i]
  }

  /** A pattern that has its first character only once cannot begin in a part that it is not in. */
  lemma NotAcross(a: string, b: string, pattern: string, i: int)
    requires pattern != "" && (forall k :: 1 <= k < |pattern| ==> pattern[k] != pattern[0])
    requires !Has(a, pattern) && b != "" && b[0] == pattern[0] && 0 <= i < |a|
    ensures !At(a + b, pattern, i)
  {
    if At(a + b, pattern, i) {
      if i + |pattern| <= |a| {
        assert (a + b)[..|a|] == a;
        assert a[i..i + |pattern|] == (a + b)[i..i + |pattern|];
        assert At(a, pattern, i);
      } else {
        Covers(a + b, pattern, i, |a|);
      }
    }
  }

  lemma FirstIs(s: string, pattern: string, from: nat, at: nat)
    requires from <= at && At(s, pattern, at) && forall i :: from <= i < at ==> !At(s, pattern, i)
    ensures Find(s, pattern, from) == Some(at)
  {
  }

  lemma TagShapes(tag: string)
    requires PlainTag(tag)
    ensures Lower(OpenTag(tag)) == OpenTag(tag) && Lower(CloseTag(tag)) == CloseTag(tag)
    ensures forall k :: 1 <= k < |OpenTag(tag)| ==> OpenTag(tag)[k] != '<' && OpenTag(tag)[k] != '>'
    ensures forall k :: 1 <= k < |CloseTag(tag)| ==> CloseTag(tag)[k] != '<'
    ensures OpenTag(tag)[0] == '<' && CloseTag(tag)[0] == '<'
  {
  }

  /** The first place of a pattern after a part without it is where the part ends. */
  lemma FirstAfter(s: string, prefix: string, part: string, tail: string, pattern: string)
    requires s == prefix + (part + tail)
    requires pattern != "" && (forall k :: 1 <= k < |pattern| ==> pattern[k] != pattern[0])
    requires !Has(part, pattern) && |tail| >= |pattern| && tail[..|pattern|] == pattern
    ensures Find(s, pattern, |prefix|) == Some(|prefix| + |part|)
  {
    var from, at := |prefix|, |prefix| + |part|;
    ComesAfter(prefix, part, tail, pattern);
    FirstIs(s, pattern, from, at);
  }

  lemma ComesAfter(prefix: string, part: string, tail: string, pattern: string)
    requires pattern != "" && (forall k :: 1 <= k < |pattern| ==> pattern[k] != pattern[0])
    requires !Has(part, pattern) && |tail| >= |pattern| && tail[..|pattern|] == pattern
    ensures At(prefix + (part + tail), pattern, |prefix| + |part|)
    ensures forall j :: |prefix| <= j < |prefix| + |part| ==> !At(prefix + (part + tail), pattern, j)
  {
    hide At, Has;
    StartsAt(tail, pattern);
    ShiftAt(part, tail, pattern, 0);
    ShiftAt(prefix, part + tail, pattern, |part|);
    NoneInPart(part, tail, pattern);
    ShiftNone(prefix, part + tail, pattern, |part|);
  }

  lemma NoneInPart(part: string, tail: string, pattern: string)
    requires pattern != "" && (forall k :: 1 <= k < |pattern| ==> pattern[k] != pattern[0])
    requires !Has(part, pattern) && tail != "" && tail[0] == pattern[0]
    ensures forall i :: 0 <= i < |part| ==> !At(part + tail, pattern, i)
  {
    hide At, Has;
    forall i | 0 <= i < |part| ensures !At(part + tail, pattern, i) {
      NotAcross(part, tail, pattern, i);
    }
  }

  lemma ShiftNone(prefix: string, s: string, pattern: string, n: nat)
    requires forall i :: 0 <= i < n ==> !At(s, pattern, i)
    ensures forall j :: |prefix| <= j < |prefix| + n ==> !At(prefix + s, pattern, j)
  {
    hide At;
    forall j | |prefix| <= j < |prefix| + n ensures !At(prefix + s, pattern, j) {
      ShiftAt(prefix, s, pattern, j - |prefix|);
    }
  }

  lemma StartsAt(s: string, pattern: string)
    requires pattern != "" && |s| >= |pattern| && s[..|pattern|] == pattern
    ensures At(s, pattern, 0) && s[0] == pattern[0]
  {
    assert s[0..|pattern|] == s[..|pattern|];
    assert s[..|pattern|][0] == s[0];
  }

  lemma NoBracketIn(tag: string)
    requires PlainTag(tag)
    ensures !Has(OpenTag(tag), ">")
  {
    var o := OpenTag(tag);
    hide At;
    forall i | 0 <= i <= |o| ensures !At(o, ">", i) {
      AtMeans(o, ">", i, 0);
    }
  }

  function TextWithBlock(a: string, tag: string, body: string, b: string): string {
    a + ("<" + tag + ">" + body + "</" + tag + ">" + b)
  }

  lemma LowerParts(a: string, tag: string, body: string, b: string)
    requires PlainTag(tag)
    ensures var o, close := OpenTag(tag), CloseTag(tag) + Lower(b);
            var lower := Lower(TextWithBlock(a, tag, body, b));
            && lower == "" + (Lower(a) + (o + (">" + (Lower(body) + close))))
            && lower == Lower(a) + (o + (">" + (Lower(body) + close)))
            && lower == (Lower(a) + o + ">") + (Lower(body) + close)
  {
    TagShapes(tag);
  }

  lemma BlockFrom(value: string, tag: string, start: nat, end: nat, close: nat)
    requires Find(Lower(value), OpenTag(tag), 0) == Some(start) && Find(Lower(value), ">", start) == Some(end)
    requires Find(Lower(value), CloseTag(tag), end + 1) == Some(close)
    ensures Block(value, tag) == Some((start, Some(close + |CloseTag(tag)|)))
  {
    hide Find, At, Has;
  }

  /** Where a block that follows tag-free text lies. */
  lemma BlockPlace(a: string, tag: string, body: string, b: string)
    requires PlainTag(tag) && !Has(Lower(a), OpenTag(tag)) && !Has(Lower(body), CloseTag(tag))
    ensures Block(TextWithBlock(a, tag, body, b), tag)
            == Some((|a|, Some(|a| + |OpenTag(tag)| + 1 + |body| + |CloseTag(tag)|)))
  {
    hide Find, At, Has, Block, TextWithBlock, PlainTag;
    TagShapes(tag);
    NoBracketIn(tag);
    LowerParts(a, tag, body, b);
    hide OpenTag, CloseTag;
    var text := TextWithBlock(a, tag, body, b);
    var lower := Lower(text);
    var o, c := OpenTag(tag), CloseTag(tag);
    var close := c + Lower(b);
    var inner := Lower(body) + close;
    var rest := o + (">" + inner);
    var head := Lower(a) + o + ">";
    var start, end, from := |a|, |a| + |o|, |a| + |o| + 1;
    assert rest[..|o|] == o && (">" + inner)[..1] == ">" && close[..|c|] == c;
    FirstAfter(lower, "", Lower(a), rest, o);
    FirstAfter(lower, Lower(a), o, ">" + inner, ">");
    FirstAfter(lower, head, Lower(body), close, c);
    BlockFrom(text, tag, start, end, from + |body|);
  }

  /** Exactly the block goes, and a space stands in its place. */
  lemma BlockIsCut(a: string, tag: string, body: string, b: string)
    requires PlainTag(tag) && !Has(Lower(a), "<" + tag) && !Has(Lower(body), "</" + tag + ">")
    ensures Strip(TextWithBlock(a, tag, body, b), tag) == Strip(a + " " + b, tag)
  {
    hide Block, Has, Lower, At;
    BlockPlace(a, tag, body, b);
    var text := TextWithBlock(a, tag, body, b);
    assert text[..|a|] == a;
    assert text[|a| + |OpenTag(tag)| + 1 + |body| + |CloseTag(tag)|..] == b;
  }

  lemma {:induction false} KeptWords(ws: seq<string>)
    requires forall k :: 0 <= k < |ws| ==> Lower(ws[k]) != "bearer" && !Sensitive(ws[k])
    ensures RedactFrom(ws, false) == ws
  {
    hide Sensitive, Lower;
    if ws != [] {
      KeptWords(ws[1..]);
    }
  }

  /** Text with nothing private in it is stored as it stands, spacing apart. */
  lemma CleanTextIsKept(content: string)
    requires forall t :: t in ["think", "analysis", "reasoning"] ==> !Has(Lower(content), OpenTag(t))
    requires var ws := Words(content);
             && !NamesPrivateKey(Join(ws)) && Utf8Len(Join(ws)) <= MAX_ENTRY_BYTES
             && forall k :: 0 <= k < |ws| ==> Lower(ws[k]) != "bearer" && !Sensitive(ws[k])
    ensures Sanitized(content) == Some(Join(Words(content)))
  {
    hide Sensitive, Lower, NamesPrivateKey, Has, Strip, Words, Join, RedactFrom;
    assert "think" in ["think", "analysis", "reasoning"] && "analysis" in ["think", "analysis", "reasoning"]
           && "reasoning" in ["think", "analysis", "reasoning"];
    StripsNothing(content, "think");
    StripsNothing(content, "analysis");
    StripsNothing(content, "reasoning");
    WordsAreSolid(content);
    WordsOfJoin(Words(content));
    KeptWords(Words(content));
  }
}
