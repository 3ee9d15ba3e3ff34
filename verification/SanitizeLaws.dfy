/** What is blanked in visible text, and that nothing private is left of it. */
module SanitizeLaws {
  import opened Protocol
  import opened Sanitize

  // ---------------------------------------------------------------- UTF-8 is read back

  function Width(lead: nat): nat {
    if lead < 0x80 then 1 else if lead < 0xE0 then 2 else if lead < 0xF0 then 3 else 4
  }

  /** The code point that the first bytes spell. */
  function Point(bytes: seq<int>): int
    requires bytes != [] && bytes[0] >= 0 && |bytes| >= Width(bytes[0])
  {
    match Width(bytes[0])
    case 1 => bytes[0]
    case 2 => (bytes[0] - 0xC0) * 64 + bytes[1] - 0x80
    case 3 => (bytes[0] - 0xE0) * 4_096 + (bytes[1] - 0x80) * 64 + bytes[2] - 0x80
    case _ => (bytes[0] - 0xF0) * 262_144 + (bytes[1] - 0x80) * 4_096 + (bytes[2] - 0x80) * 64 + bytes[3] - 0x80
  }

  lemma Sixths(n: nat)
    ensures n == n / 64 * 64 + n % 64
    ensures n / 64 == n / 4_096 * 64 + n / 64 % 64
    ensures n / 4_096 == n / 262_144 * 64 + n / 4_096 % 64
  {
  }

  lemma PointIsRead(c: char, rest: seq<nat>)
    ensures var bytes := Utf8(c) + rest;
            Width(bytes[0]) == |Utf8(c)| && Point(bytes) == c as int
  {
    var n, u := c as int, Utf8(c);
    var bytes := u + rest;
    Sixths(n);
    assert forall k :: 0 <= k < |u| ==> bytes[k] == u[k];
    LeadIs(c);
    if |u| == 4 {
      assert u == [0xF0 + n / 262_144, 0x80 + n / 4_096 % 64, 0x80 + n / 64 % 64, 0x80 + n % 64];
    } else if |u| == 3 {
      assert u == [0xE0 + n / 4_096, 0x80 + n / 64 % 64, 0x80 + n % 64];
    }
  }

  lemma LeadIs(c: char)
    ensures Width(Utf8(c)[0]) == |Utf8(c)|
  {
  }

  /** No two texts have the same bytes. */
  lemma {:induction false} TextIsRead(a: string, b: string)
    requires Utf8Text(a) == Utf8Text(b)
    ensures a == b
  {
    if a != [] && b != [] {
      PointIsRead(a[0], Utf8Text(a[1..]));
      PointIsRead(b[0], Utf8Text(b[1..]));
      assert Utf8Text(a)[|Utf8(a[0])|..] == Utf8Text(a[1..]);
      assert Utf8Text(b)[|Utf8(b[0])|..] == Utf8Text(b[1..]);
      TextIsRead(a[1..], b[1..]);
      assert a == [a[0]] + a[1..] && b == [b[0]] + b[1..];
    }
  }

  // ---------------------------------------------------------------- what a secret is

  const MARKS: seq<string> := [
    "api_key=", "apikey=", "password=", "secret=", "token=", "authorization=", "sk-", "ghp_", "github_pat_",
    "glpat-", "do_not_persist", "raw_frame", "tool_body"]

  ghost predicate IsLetter(b: nat) { 'A' as int <= b <= 'Z' as int || 'a' as int <= b <= 'z' as int }
  ghost predicate IsDigit(b: nat) { '0' as int <= b <= '9' as int }

  /** Long, of letters and digits, and of many different bytes. */
  ghost predicate LooksRandom(word: string) {
    var bytes := Utf8Text(word);
    && |bytes| >= 32 && (exists b :: b in bytes && IsLetter(b)) && (exists b :: b in bytes && IsDigit(b))
    && |set b | b in bytes| >= 10
  }

  ghost predicate HasMark(text: string) {
    exists k :: 0 <= k < |MARKS| && Has(Lower(text), MARKS[k])
  }

  lemma MarksAre(text: string)
    ensures NamesSecret(Lower(text)) <==> HasMark(text)
  {
    hide Has, Lower;
    var marks := MARKS;
    assert |marks| == 13;
    assert MARKS[0] == "api_key=" && MARKS[1] == "apikey=" && MARKS[2] == "password=" && MARKS[3] == "secret=";
    assert MARKS[4] == "token=" && MARKS[5] == "authorization=" && MARKS[6] == "sk-" && MARKS[7] == "ghp_";
    assert MARKS[8] == "github_pat_" && MARKS[9] == "glpat-" && MARKS[10] == "do_not_persist";
    assert MARKS[11] == "raw_frame" && MARKS[12] == "tool_body";
  }

  lemma RandomIs(word: string)
    ensures HighEntropy(word) <==> LooksRandom(word)
  {
    hide Utf8Text;
    var bytes := Utf8Text(word);
    assert (set i | 0 <= i < |bytes| :: bytes[i]) == set b | b in bytes;
    if LooksRandom(word) {
      var letter :| letter in bytes && IsLetter(letter);
      var digit :| digit in bytes && IsDigit(digit);
    }
    if HighEntropy(word) {
      var i :| 0 <= i < |bytes| && (65 <= bytes[i] <= 90 || 97 <= bytes[i] <= 122);
      var k :| 0 <= k < |bytes| && 48 <= bytes[k] <= 57;
      assert IsLetter(bytes[i]) && IsDigit(bytes[k]);
    }
  }

  /** A word is sensitive exactly if it has one of the marks, in any letter case, or looks random. */
  lemma SensitiveIs(word: string)
    ensures Sensitive(word) <==> HasMark(word) || LooksRandom(word)
  {
    MarksAre(word);
    RandomIs(word);
  }

  // ---------------------------------------------------------------- which words are blanked

  /** A word is blanked exactly if a kept bearer mark stands before it, or it is sensitive and no bearer
      mark itself. */
  ghost predicate BlankedAt(ws: seq<string>, rs: seq<string>, k: nat)
    requires k < |ws| == |rs|
  {
    rs[k] == if k > 0 && Lower(rs[k - 1]) == "bearer" then REDACTED
             else if Lower(ws[k]) != "bearer" && (HasMark(ws[k]) || LooksRandom(ws[k])) then REDACTED
             else ws[k]
  }

  lemma {:induction false} BlankedExactly(ws: seq<string>, k: nat)
    requires k < |ws|
    ensures BlankedAt(ws, RedactFrom(ws, false), k)
  {
    BlankedFrom(ws, false, k);
  }

  lemma {:induction false} BlankedFrom(ws: seq<string>, blankNext: bool, k: nat)
    requires k < |ws|
    ensures var rs := RedactFrom(ws, blankNext);
            if k == 0 && blankNext then rs[0] == REDACTED else BlankedAt(ws, rs, k)
  {
    hide HasMark, LooksRandom, Sensitive, Lower;
    BlankIsSolid();
    SensitiveIs(ws[k]);
    if k > 0 {
      var next := !blankNext && Lower(ws[0]) == "bearer";
      var rs := RedactFrom(ws, blankNext);
      assert rs[1..] == RedactFrom(ws[1..], next);
      BlankedFrom(ws[1..], next, k - 1);
    }
  }

  // ---------------------------------------------------------------- nothing private stays

  lemma BearerLacks(mark: string, k: nat)
    requires k < |mark| && mark[k] in {'=', '-', '_'}
    ensures !Has("bearer", mark)
  {
    hide At;
    forall j | 0 <= j <= |"bearer"| ensures !At("bearer", mark, j) {
      AtMeans("bearer", mark, j, k);
    }
  }

  lemma BearerNamesNoSecret()
    ensures !NamesSecret("bearer")
  {
    hide Has;
    BearerLacks("api_key=", 7);
    BearerLacks("apikey=", 6);
    BearerLacks("password=", 8);
    BearerLacks("secret=", 6);
    BearerLacks("token=", 5);
    BearerLacks("authorization=", 13);
    BearerLacks("sk-", 2);
    BearerLacks("ghp_", 3);
    BearerLacks("github_pat_", 6);
    BearerLacks("glpat-", 5);
    BearerLacks("do_not_persist", 2);
    BearerLacks("raw_frame", 3);
    BearerLacks("tool_body", 4);
  }

  lemma NamedAreSolid()
    ensures Solid("api_key=") && Solid("apikey=") && Solid("password=") && Solid("secret=") && Solid("token=")
  {
  }

  lemma KeysAreSolid()
    ensures Solid("authorization=") && Solid("sk-") && Solid("ghp_") && Solid("github_pat_")
  {
  }

  lemma OthersAreSolid()
    ensures Solid("glpat-") && Solid("do_not_persist") && Solid("raw_frame") && Solid("tool_body")
  {
  }

  lemma MarksAreSolid(k: nat)
    requires k < |MARKS|
    ensures Solid(MARKS[k])
  {
    hide Solid;
    NamedAreSolid();
    KeysAreSolid();
    OthersAreSolid();
    assert MARKS[k] in MARKS;
  }

  lemma MarkIsSolid(k: nat)
    requires k < |MARKS|
    ensures Solid(MARKS[k]) && !Has(Lower(REDACTED), MARKS[k]) && !Has("bearer", MARKS[k])
  {
    BlankNamesNoSecret();
    MarksAre(REDACTED);
    BearerNamesNoSecret();
    assert Lower("bearer") == "bearer";
    MarksAre("bearer");
    MarksAreSolid(k);
    hide Has, Lower, NamesSecret, Solid;
    assert !HasMark(REDACTED) && !HasMark("bearer");
  }

  ghost predicate NoMarks(text: string) {
    forall k :: 0 <= k < |MARKS| ==> !Has(Lower(text), MARKS[k])
  }

  ghost predicate WordIsClean(word: string) {
    word == REDACTED || Lower(word) == "bearer" || (!HasMark(word) && !LooksRandom(word))
  }

  lemma CleanHasNoMark(word: string, k: nat)
    requires WordIsClean(word) && k < |MARKS|
    ensures !Has(Lower(word), MARKS[k])
  {
    hide LooksRandom, Has;
    MarkIsSolid(k);
  }

  lemma CleanIsNotRandom(word: string)
    requires WordIsClean(word)
    ensures !LooksRandom(word)
  {
    hide HasMark, LooksRandom;
    RandomIs(word);
    hide Utf8Text;
    if word == REDACTED {
      BytesBound(REDACTED);
    } else if Lower(word) == "bearer" {
      assert |word| == |"bearer"| == 6;
      forall i | 0 <= i < |word| ensures word[i] as int < 0x80 {
        assert Lower(word)[i] == LowerChar(word[i]) && Lower(word)[i] == "bearer"[i];
      }
      BytesBound(word);
    }
  }

  ghost predicate BearersCovered(ws: seq<string>) {
    forall k :: 0 < k < |ws| && Lower(ws[k - 1]) == "bearer" ==> ws[k] == REDACTED
  }

  /** Cleaned words: no mark in them or across them, none that looks random, and none after a bearer mark. */
  ghost predicate NothingPrivate(ws: seq<string>) {
    && NoMarks(Join(ws)) && (forall w :: w in ws ==> !LooksRandom(w))
    && BearersCovered(ws) && !Has(Fold(Join(ws)), "private key-----")
  }

  lemma KeyMarkText(text: string)
    ensures NamesPrivateKey(text) <==> Has(Fold(text), "private key-----")
  {
    hide Has, Fold;
    assert KEY_HEAD + " " + KEY_TAIL == "private key-----";
  }

  lemma NoneAcross(ws: seq<string>, mark: string)
    requires Solid(mark) && forall k :: 0 <= k < |ws| ==> !Has(Lower(ws[k]), mark)
    ensures !Has(Lower(Join(ws)), mark)
  {
    hide Has, Lower, Join, Solid;
    if Has(Lower(Join(ws)), mark) {
      FoundInAWord(ws, mark);
    }
  }

  lemma NoMarksAcross(ws: seq<string>)
    requires forall k :: 0 <= k < |ws| ==> WordIsClean(ws[k])
    ensures NoMarks(Join(ws))
  {
    hide WordIsClean, Has, Lower, Join, Solid;
    forall k | 0 <= k < |MARKS| ensures !Has(Lower(Join(ws)), MARKS[k]) {
      MarkIsSolid(k);
      forall n | 0 <= n < |ws| ensures !Has(Lower(ws[n]), MARKS[k]) {
        CleanHasNoMark(ws[n], k);
      }
      NoneAcross(ws, MARKS[k]);
    }
  }

  lemma CleanWordsArePrivate(ws: seq<string>)
    requires (forall k :: 0 <= k < |ws| ==> WordIsClean(ws[k])) && BearersCovered(ws) && !NamesPrivateKey(Join(ws))
    ensures NothingPrivate(ws)
  {
    hide WordIsClean, BearersCovered, NoMarks, LooksRandom, NamesPrivateKey, Has, Fold, Join;
    KeyMarkText(Join(ws));
    NoMarksAcross(ws);
    forall w | w in ws ensures !LooksRandom(w) {
      CleanIsNotRandom(w);
    }
  }

  lemma BlankIsClean()
    ensures NothingPrivate([REDACTED]) && Words(REDACTED) == [REDACTED] && Join([REDACTED]) == REDACTED
  {
    hide NothingPrivate, Words, Join, NamesPrivateKey;
    BlankStays();
    BlankIsSolid();
    KeyMarkInWords([REDACTED]);
    CleanWordsArePrivate([REDACTED]);
  }

  lemma RedactedIsClean(content: string)
    requires Join(Words(content)) == content
    ensures NothingPrivate(Words(Redact(content))) && Join(Words(Redact(content))) == Redact(content)
  {
    hide NothingPrivate, NamesPrivateKey, RedactFrom, Words, Join, Solid, Has, Lower, KeyWords;
    if NamesPrivateKey(content) {
      BlankIsClean();
    } else {
      var ws := Words(content);
      var rs := RedactFrom(ws, false);
      WordsAreSolid(content);
      RedactedIsSolid(ws, rs);
      WordsOfJoin(rs);
      KeyMarkInWords(ws);
      KeyMarkInWords(rs);
      if KeyWords(rs) {
        KeyWordsStayAway(ws, rs);
      }
      forall k | 0 <= k < |rs| ensures WordIsClean(rs[k]) && BlankedAt(ws, rs, k) {
        BlankedExactly(ws, k);
      }
      assert BearersCovered(rs);
      CleanWordsArePrivate(rs);
    }
  }

  /** Nothing private is left in sanitised text: no private tag opens in it, it has none of the marks of a
      secret, no word that looks random, nothing after a bearer mark, no private key, and it fits an entry. */
  lemma NothingPrivateStays(content: string)
    requires Sanitized(content).Some?
    ensures var r := Sanitized(content).value;
            && NothingPrivate(Words(r)) && Join(Words(r)) == r && |Utf8Text(r)| <= 4_096
            && !Has(Lower(r), "<think") && !Has(Lower(r), "<analysis") && !Has(Lower(r), "<reasoning")
  {
    hide Strip, Redact, Join, Words, Lower, Has, NothingPrivate;
    SanitizedHasNoTags(content);
    assert OpenTag("think") == "<think" && OpenTag("analysis") == "<analysis" && OpenTag("reasoning") == "<reasoning";
    var stripped := Strip(Strip(Strip(content, "think"), "analysis"), "reasoning");
    WordsAreSolid(stripped);
    WordsOfJoin(Words(stripped));
    RedactedIsClean(Join(Words(stripped)));
  }
}
