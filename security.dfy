/**
 * The input validator of the chat backend (backend/security.py): an empty
 * check on the raw message, a sanitiser (drop null characters, collapse every
 * whitespace run into one space, strip), a cap of 2000 characters on the
 * sanitised text and a screen against prompt-injection patterns, applied in
 * that order.
 */
module Security {
  import opened Wrappers

  const MaxMessageLength := 2000
  const PatternCount := 20

  const EmptyError := "Message cannot be empty."
  const TooLongError := "Message too long. Maximum 2000 characters allowed."
  const InjectionError := "I can only answer questions about Raoul's professional experience and skills."

  /** The outcome of one check: `(is_valid, error)` in the source. */
  datatype Check = Check(passed: bool, error: string)

  /** The outcome of `validate_message`: `(is_valid, error_message, sanitized_message)`. */
  datatype Verdict = Verdict(valid: bool, error: string, sanitized: string)

  /**
   * `Matcher(p, text)` says whether injection pattern number `p` (0 <= p < 20,
   * in the order of the pattern list, compiled case-insensitively) finds a
   * match anywhere in `text`. Regular-expression semantics are not modelled.
   */
  type Matcher = (nat, string) -> bool

  /**
   * Python's notion of whitespace for `str` (what `str.isspace`, `str.strip()`
   * and the regular expression class `\s` agree on).
   */
  predicate IsWhitespace(c: char) {
    ('\t' <= c <= '\r') || ('\U{1C}' <= c <= ' ') || c == '\U{85}' || c == '\U{A0}'
    || c == '\U{1680}' || ('\U{2000}' <= c <= '\U{200A}') || c == '\U{2028}' || c == '\U{2029}'
    || c == '\U{202F}' || c == '\U{205F}' || c == '\U{3000}'
  }

  // ---------------------------------------------------------------------------
  // Properties of sanitised text
  // ---------------------------------------------------------------------------

  predicate NullFree(s: string) {
    '\0' !in s
  }

  /** Every whitespace character is a plain space and no two of them are adjacent. */
  predicate SingleSpaced(s: string) {
    && (forall i :: 0 <= i < |s| && IsWhitespace(s[i]) ==> s[i] == ' ')
    && (forall i :: 0 <= i < |s| - 1 ==> !(IsWhitespace(s[i]) && IsWhitespace(s[i + 1])))
  }

  /** No leading and no trailing whitespace. */
  predicate Trimmed(s: string) {
    s == [] || (!IsWhitespace(s[0]) && !IsWhitespace(s[|s| - 1]))
  }

  predicate IsSanitized(s: string) {
    NullFree(s) && SingleSpaced(s) && Trimmed(s)
  }

  /** The characters of `s` that are neither whitespace nor null, in order. */
  function Visible(s: string): string {
    if s == [] then []
    else (if IsWhitespace(s[0]) || s[0] == '\0' then [] else [s[0]]) + Visible(s[1..])
  }

  // ---------------------------------------------------------------------------
  // sanitize_message
  // ---------------------------------------------------------------------------

  /** `message.replace('\x00', '')` */
  function RemoveNulls(s: string): (r: string)
    ensures NullFree(r)
    ensures multiset(r) == multiset(s)['\0' := 0]
    ensures forall c :: c in r ==> c in s
    ensures |r| <= |s|
  {
    if s == [] then []
    else
      assert s == [s[0]] + s[1..];
      (if s[0] == '\0' then [] else [s[0]]) + RemoveNulls(s[1..])
  }

  /** Removing nulls works piece by piece: the other characters keep their order. */
  lemma {:induction false} RemoveNullsAppend(a: string, b: string)
    ensures RemoveNulls(a + b) == RemoveNulls(a) + RemoveNulls(b)
  {
    if a == [] {
      assert a + b == b;
    } else {
      assert (a + b)[1..] == a[1..] + b;
      RemoveNullsAppend(a[1..], b);
    }
  }

  /**
   * The whitespace normalisation of the sanitiser: every maximal run of whitespace becomes one
   * space. `inRun` says that the character before `s` was whitespace, so a
   * run continuing into `s` adds nothing more.
   */
  function CollapseRuns(s: string, inRun: bool): (r: string)
    ensures SingleSpaced(r)
    ensures inRun ==> r == [] || !IsWhitespace(r[0])
    ensures forall c :: c in r ==> c in s || c == ' '
  {
    if s == [] then []
    else if IsWhitespace(s[0]) then
      (if inRun then [] else [' ']) + CollapseRuns(s[1..], true)
    else
      [s[0]] + CollapseRuns(s[1..], false)
  }

  /** `s.lstrip()`: drops the leading whitespace and nothing else. */
  function TrimStart(s: string): (r: string)
    ensures |r| <= |s| && r == s[|s| - |r|..]
    ensures forall i :: 0 <= i < |s| - |r| ==> IsWhitespace(s[i])
    ensures r == [] || !IsWhitespace(r[0])
  {
    if s != [] && IsWhitespace(s[0]) then TrimStart(s[1..]) else s
  }

  /** `s.rstrip()`: drops the trailing whitespace and nothing else. */
  function TrimEnd(s: string): (r: string)
    ensures |r| <= |s| && r == s[..|r|]
    ensures forall i :: |r| <= i < |s| ==> IsWhitespace(s[i])
    ensures r == [] || !IsWhitespace(r[|r| - 1])
  {
    if s != [] && IsWhitespace(s[|s| - 1]) then TrimEnd(s[..|s| - 1]) else s
  }

  /** `s.strip()` */
  function Strip(s: string): (r: string)
    ensures Trimmed(r)
  {
    TrimEnd(TrimStart(s))
  }

  /** `sanitize_message`: its result never holds a null, a non-space whitespace
      character, two adjacent whitespace characters or surrounding whitespace. */
  function Sanitize(message: string): (r: string)
    ensures IsSanitized(r)
  {
    var collapsed := CollapseRuns(RemoveNulls(message), false);
    assert NullFree(collapsed) by {
      assert forall c :: c in collapsed ==> c in RemoveNulls(message) || c == ' ';
    }
    StripKeepsShape(collapsed);
    Strip(collapsed)
  }

  /** Stripping null-free, single-spaced text gives sanitised text. */
  lemma StripKeepsShape(s: string)
    requires SingleSpaced(s) && NullFree(s)
    ensures IsSanitized(Strip(s))
  {
    var front := TrimStart(s);
    SliceKeepsShape(s, |s| - |front|, |s|);
    var back := TrimEnd(front);
    SliceKeepsShape(front, 0, |back|);
  }

  /** A slice of null-free, single-spaced text is null-free and single-spaced. */
  lemma SliceKeepsShape(s: string, lo: nat, hi: nat)
    requires lo <= hi <= |s|
    requires SingleSpaced(s) && NullFree(s)
    ensures SingleSpaced(s[lo..hi]) && NullFree(s[lo..hi])
  {
    var t := s[lo..hi];
    forall i | 0 <= i < |t| ensures t[i] == s[lo + i] { }
    assert forall c :: c in t ==> c in s;
  }

  // ---------------------------------------------------------------------------
  // The three checks
  // ---------------------------------------------------------------------------

  /** `not message or not message.strip()` */
  predicate IsEmptyMessage(message: string) {
    message == [] || Strip(message) == []
  }

  /** `check_message_length` */
  function CheckLength(message: string): (r: Check)
    ensures r.passed <==> |message| <= MaxMessageLength
    ensures r.error == if r.passed then "" else TooLongError
  {
    if |message| > MaxMessageLength then Check(false, TooLongError) else Check(true, "")
  }

  /** ASCII case folding; stands for `str.lower()`. */
  function Lower(s: string): (r: string)
    ensures |r| == |s|
    ensures forall i :: 0 <= i < |r| ==> !('A' <= r[i] <= 'Z')
    ensures forall i :: 0 <= i < |s| && !('A' <= s[i] <= 'Z') ==> r[i] == s[i]
    ensures forall i :: 0 <= i < |s| && 'A' <= s[i] <= 'Z' ==> r[i] == s[i] - 'A' + 'a'
  {
    seq(|s|, i requires 0 <= i < |s| => if 'A' <= s[i] <= 'Z' then s[i] - 'A' + 'a' else s[i])
  }

  /** The loop over the compiled patterns, from pattern `from` on: the first one that matches. */
  function FirstMatch(text: string, matches: Matcher, from: nat): (r: Option<nat>)
    requires from <= PatternCount
    ensures r.Some? ==> from <= r.value < PatternCount && matches(r.value, text)
    ensures r.Some? ==> forall p :: from <= p < r.value ==> !matches(p, text)
    ensures r.None? <==> forall p :: from <= p < PatternCount ==> !matches(p, text)
    decreases PatternCount - from
  {
    if from == PatternCount then None
    else if matches(from, text) then Some(from)
    else FirstMatch(text, matches, from + 1)
  }

  /** `detect_injection_patterns`: fails exactly when some pattern matches the lower-cased text. */
  function DetectInjection(message: string, matches: Matcher): (r: Check)
    ensures r.passed <==> forall p :: 0 <= p < PatternCount ==> !matches(p, Lower(message))
    ensures r.error == if r.passed then "" else InjectionError
  {
    match FirstMatch(Lower(message), matches, 0)
    case Some(_) => Check(false, InjectionError)
    case None => Check(true, "")
  }

  /** `validate_message` */
  function Validate(message: string, matches: Matcher): (v: Verdict)
    ensures !v.valid ==> v.sanitized == "" && v.error in {EmptyError, TooLongError, InjectionError}
    ensures v.valid ==> v.error == "" && v.sanitized == Sanitize(message)
    ensures v.valid ==> |v.sanitized| <= MaxMessageLength && IsSanitized(v.sanitized)
  {
    if IsEmptyMessage(message) then Verdict(false, EmptyError, "")
    else
      var sanitized := Sanitize(message);
      var length := CheckLength(sanitized);
      if !length.passed then Verdict(false, length.error, "")
      else
        var screen := DetectInjection(sanitized, matches);
        if !screen.passed then Verdict(false, screen.error, "")
        else Verdict(true, "", sanitized)
  }

  // ---------------------------------------------------------------------------
  // Lemmas: what the sanitiser does
  // ---------------------------------------------------------------------------

  lemma {:induction false} RemoveNullsOfNullFree(s: string)
    requires NullFree(s)
    ensures RemoveNulls(s) == s
  {
    if s != [] {
      assert s[0] in s;
      RemoveNullsOfNullFree(s[1..]);
    }
  }

  lemma {:induction false} CollapseRunsOfSingleSpaced(s: string, inRun: bool)
    requires SingleSpaced(s)
    requires inRun ==> s == [] || !IsWhitespace(s[0])
    ensures CollapseRuns(s, inRun) == s
  {
    if s != [] {
      var t := s[1..];
      assert SingleSpaced(t) by {
        forall i | 0 <= i < |t| ensures t[i] == s[i + 1] { }
      }
      if IsWhitespace(s[0]) {
        assert |s| > 1 ==> !IsWhitespace(s[1]);
        CollapseRunsOfSingleSpaced(t, true);
      } else {
        CollapseRunsOfSingleSpaced(t, false);
      }
    }
  }

  /** Sanitised text is left as it is by the sanitiser. */
  lemma SanitizeFixesSanitized(s: string)
    requires IsSanitized(s)
    ensures Sanitize(s) == s
  {
    RemoveNullsOfNullFree(s);
    CollapseRunsOfSingleSpaced(s, false);
  }

  /** `sanitize_message` is idempotent. */
  lemma SanitizeIdempotent(message: string)
    ensures Sanitize(Sanitize(message)) == Sanitize(message)
  {
    SanitizeFixesSanitized(Sanitize(message));
  }

  lemma {:induction false} VisibleAppend(a: string, b: string)
    ensures Visible(a + b) == Visible(a) + Visible(b)
  {
    if a == [] {
      assert a + b == b;
    } else {
      assert (a + b)[1..] == a[1..] + b;
      VisibleAppend(a[1..], b);
    }
  }

  lemma {:induction false} VisibleOfBlank(s: string)
    requires forall i :: 0 <= i < |s| ==> IsWhitespace(s[i])
    ensures Visible(s) == []
  {
    if s != [] {
      VisibleOfBlank(s[1..]);
    }
  }

  lemma {:induction false} VisibleRemoveNulls(s: string)
    ensures Visible(RemoveNulls(s)) == Visible(s)
  {
    if s != [] {
      var head := if s[0] == '\0' then [] else [s[0]];
      VisibleAppend(head, RemoveNulls(s[1..]));
      VisibleRemoveNulls(s[1..]);
    }
  }

  lemma {:induction false} VisibleCollapseRuns(s: string, inRun: bool)
    ensures Visible(CollapseRuns(s, inRun)) == Visible(s)
  {
    if s != [] {
      if IsWhitespace(s[0]) {
        VisibleAppend(if inRun then [] else [' '], CollapseRuns(s[1..], true));
        VisibleCollapseRuns(s[1..], true);
      } else {
        VisibleAppend([s[0]], CollapseRuns(s[1..], false));
        VisibleCollapseRuns(s[1..], false);
      }
    }
  }

  lemma VisibleTrimStart(s: string)
    ensures Visible(TrimStart(s)) == Visible(s)
  {
    var front := TrimStart(s);
    var k := |s| - |front|;
    var head := s[..k];
    assert forall i :: 0 <= i < |head| ==> IsWhitespace(head[i]) by {
      forall i | 0 <= i < |head| ensures head[i] == s[i] { }
    }
    VisibleOfBlank(head);
    assert s == head + front;
    VisibleAppend(head, front);
  }

  lemma VisibleTrimEnd(s: string)
    ensures Visible(TrimEnd(s)) == Visible(s)
  {
    var back := TrimEnd(s);
    var tail := s[|back|..];
    assert forall i :: 0 <= i < |tail| ==> IsWhitespace(tail[i]) by {
      forall i | 0 <= i < |tail| ensures tail[i] == s[|back| + i] { }
    }
    VisibleOfBlank(tail);
    assert s == back + tail;
    VisibleAppend(back, tail);
  }

  /** The sanitiser removes only null and whitespace characters: every other
      character of the message survives, in its original order. */
  lemma SanitizeKeepsVisible(message: string)
    ensures Visible(Sanitize(message)) == Visible(message)
  {
    var collapsed := CollapseRuns(RemoveNulls(message), false);
    VisibleRemoveNulls(message);
    VisibleCollapseRuns(RemoveNulls(message), false);
    VisibleTrimStart(collapsed);
    VisibleTrimEnd(TrimStart(collapsed));
  }

  /** The sanitised message is empty exactly when the message holds nothing
      but whitespace and null characters. */
  lemma SanitizeEmptyIff(message: string)
    ensures Sanitize(message) == [] <==> forall i :: 0 <= i < |message| ==> IsWhitespace(message[i]) || message[i] == '\0'
  {
    SanitizeKeepsVisible(message);
    VisibleEmptyIff(message);
    var r := Sanitize(message);
    if r != [] {
      assert r[0] in r;
      assert Visible(r) == [r[0]] + Visible(r[1..]);
    }
  }

  lemma {:induction false} VisibleEmptyIff(s: string)
    ensures Visible(s) == [] <==> forall i :: 0 <= i < |s| ==> IsWhitespace(s[i]) || s[i] == '\0'
  {
    if s != [] {
      VisibleEmptyIff(s[1..]);
      assert forall i :: 1 <= i < |s| ==> s[i] == s[1..][i - 1];
    }
  }

  // ---------------------------------------------------------------------------
  // The sanitiser against an independent definition: the words of the
  // message, joined by single spaces
  // ---------------------------------------------------------------------------

  /** A word: a non-empty run of characters none of which is whitespace. */
  predicate IsWord(w: string) {
    w != [] && forall i :: 0 <= i < |w| ==> !IsWhitespace(w[i])
  }

  /**
   * The maximal runs of non-whitespace characters of `cur + s`, in order,
   * where `cur` is the part of a word read so far (what `str.split()` with
   * no separator returns).
   */
  function WordsFrom(s: string, cur: string): (ws: seq<string>)
    requires cur == [] || IsWord(cur)
    ensures forall j :: 0 <= j < |ws| ==> IsWord(ws[j])
    ensures cur != [] ==> ws != []
  {
    if s == [] then (if cur == [] then [] else [cur])
    else if IsWhitespace(s[0]) then (if cur == [] then [] else [cur]) + WordsFrom(s[1..], [])
    else WordsFrom(s[1..], cur + [s[0]])
  }

  function Words(s: string): seq<string> {
    WordsFrom(s, [])
  }

  /** The words joined by single spaces (what `" ".join(ws)` returns). */
  function Join(ws: seq<string>): (r: string)
    requires forall j :: 0 <= j < |ws| ==> IsWord(ws[j])
    ensures r == [] <==> ws == []
    ensures Trimmed(r)
  {
    if ws == [] then []
    else
      assert IsWord(ws[0]);
      if |ws| == 1 then ws[0]
      else
        var rest := Join(ws[1..]);
        assert rest != [];
        ws[0] + " " + rest
  }

  lemma JoinCons(x: string, ws: seq<string>)
    requires IsWord(x) && ws != [] && forall j :: 0 <= j < |ws| ==> IsWord(ws[j])
    ensures Join([x] + ws) == x + " " + Join(ws)
  {
    assert ([x] + ws)[1..] == ws;
  }

  lemma StartsWithWord(s: string)
    ensures s != [] && !IsWhitespace(s[0]) ==> Words(s) == WordsFrom(s[1..], [s[0]]) != []
  {
    if s != [] {
      assert [] + [s[0]] == [s[0]];
    }
  }

  /** Text without words is whitespace only. */
  lemma {:induction false} NoWordsIsBlank(s: string)
    requires Words(s) == []
    ensures forall i :: 0 <= i < |s| ==> IsWhitespace(s[i])
  {
    if s != [] {
      StartsWithWord(s);
      assert Words(s) == Words(s[1..]);
      NoWordsIsBlank(s[1..]);
      assert forall i :: 1 <= i < |s| ==> s[i] == s[1..][i - 1];
    }
  }

  predicate EndsInWhitespace(s: string) {
    s != [] && IsWhitespace(s[|s| - 1])
  }

  /** The tail of the collapsed text: one space when the text ends with whitespace. */
  function TrailingSpace(s: string): string {
    if EndsInWhitespace(s) then " " else []
  }

  lemma TrailingSpaceTail(s: string)
    requires |s| >= 2
    ensures TrailingSpace(s[1..]) == TrailingSpace(s)
  {
    assert s[1..][|s| - 2] == s[|s| - 1];
  }

  /** After the part `cur` of a word, the rest collapses so that together
      they are the words joined by single spaces, plus one space when the
      text ends with whitespace. */
  lemma {:induction false} CollapseAfterWord(s: string, cur: string)
    requires IsWord(cur)
    ensures cur + CollapseRuns(s, false) == Join(WordsFrom(s, cur)) + TrailingSpace(s)
    decreases |s|, 1
  {
    if s == [] {
      assert WordsFrom(s, cur) == [cur];
    } else if IsWhitespace(s[0]) {
      CollapseAfterRun(s[1..]);
      if Words(s[1..]) == [] {
        WordThenBlank(s, cur);
      } else {
        WordThenWords(s, cur);
      }
    } else {
      var rest := s[1..];
      assert IsWord(cur + [s[0]]);
      CollapseAfterWord(rest, cur + [s[0]]);
      if rest != [] {
        TrailingSpaceTail(s);
      }
    }
  }

  /** A word followed by whitespace only. */
  lemma WordThenBlank(s: string, cur: string)
    requires IsWord(cur) && s != [] && IsWhitespace(s[0]) && Words(s[1..]) == []
    requires CollapseRuns(s[1..], true) == Join(Words(s[1..]))
    ensures cur + CollapseRuns(s, false) == Join(WordsFrom(s, cur)) + TrailingSpace(s)
  {
    var rest := s[1..];
    NoWordsIsBlank(rest);
    assert rest != [] ==> rest[|rest| - 1] == s[|s| - 1];
    assert TrailingSpace(s) == " ";
    assert WordsFrom(s, cur) == [cur];
    assert CollapseRuns(s, false) == " ";
  }

  /** A word followed by whitespace and more words. */
  lemma WordThenWords(s: string, cur: string)
    requires IsWord(cur) && s != [] && IsWhitespace(s[0]) && Words(s[1..]) != []
    requires CollapseRuns(s[1..], true) == Join(Words(s[1..])) + TrailingSpace(s[1..])
    ensures cur + CollapseRuns(s, false) == Join(WordsFrom(s, cur)) + TrailingSpace(s)
  {
    var rest := s[1..];
    var ws := Words(rest);
    assert rest != [];
    TrailingSpaceTail(s);
    assert WordsFrom(s, cur) == [cur] + ws;
    JoinCons(cur, ws);
    Regroup(cur, " ", Join(ws), TrailingSpace(s));
  }

  /** After whitespace, the rest collapses to its words joined by single
      spaces, plus one space when it ends with whitespace after a word. */
  lemma {:induction false} CollapseAfterRun(s: string)
    ensures CollapseRuns(s, true)
            == Join(Words(s)) + (if Words(s) != [] then TrailingSpace(s) else [])
    decreases |s|, 0
  {
    if s != [] {
      var rest := s[1..];
      if IsWhitespace(s[0]) {
        CollapseAfterRun(rest);
        assert Words(s) == Words(rest);
        if rest == [] {
          assert Words(rest) == [];
        } else {
          TrailingSpaceTail(s);
        }
      } else {
        CollapseAfterWord(rest, [s[0]]);
        StartsWithWord(s);
        if rest != [] {
          TrailingSpaceTail(s);
        }
      }
    }
  }

  lemma Regroup(a: string, b: string, c: string, d: string)
    ensures a + (b + (c + d)) == (a + b + c) + d
  {
  }

  /** A leading space is stripped. */
  lemma TrimStartSpace(t: string)
    requires t != [] && t[0] == ' '
    ensures TrimStart(t) == TrimStart(t[1..])
  {
  }

  /** A trailing space is stripped. */
  lemma TrimEndSpace(t: string)
    requires t != [] && t[|t| - 1] == ' '
    ensures TrimEnd(t) == TrimEnd(t[..|t| - 1])
  {
  }

  lemma TrimStartKeeps(s: string)
    requires s != [] && !IsWhitespace(s[0])
    ensures TrimStart(s) == s
  {
  }

  lemma TrimEndKeeps(s: string)
    requires s != [] && !IsWhitespace(s[|s| - 1])
    ensures TrimEnd(s) == s
  {
  }

  /** Stripping text with at most one space on either side gives back the
      trimmed text in between. */
  lemma StripPadded(lead: bool, body: string, trail: bool)
    requires Trimmed(body) && (body == [] ==> !trail)
    ensures Strip((if lead then " " else []) + body + (if trail then " " else [])) == body
  {
    var rest := body + (if trail then " " else []);
    var padded := (if lead then " " else []) + body + (if trail then " " else []);
    if lead {
      assert padded == " " + rest;
      assert padded[1..] == rest;
      TrimStartSpace(padded);
    } else {
      assert padded == rest;
    }
    StripTrailing(body, trail);
  }

  /** Stripping trimmed text with at most one space behind it gives back the text. */
  lemma StripTrailing(body: string, trail: bool)
    requires Trimmed(body) && (body == [] ==> !trail)
    ensures Strip(body + (if trail then " " else [])) == body
  {
    var rest := body + (if trail then " " else []);
    if body != [] {
      assert rest[0] == body[0];
      TrimStartKeeps(rest);
      if trail {
        assert rest[..|rest| - 1] == body;
        TrimEndSpace(rest);
      } else {
        assert rest == body;
      }
      TrimEndKeeps(body);
    }
  }

  /** The sanitised message is the message's words, nulls removed, joined by
      single spaces: every run of whitespace between two words becomes
      exactly one space, and the whitespace before the first word and after
      the last is gone. */
  lemma SanitizeJoinsWords(message: string)
    ensures Sanitize(message) == Join(Words(RemoveNulls(message)))
  {
    var t := RemoveNulls(message);
    CollapsePadded(t);
    StripPadded(t != [] && IsWhitespace(t[0]), Join(Words(t)), Words(t) != [] && EndsInWhitespace(t));
  }

  /** Collapsed text is the words joined by single spaces, with one space in
      front when the text starts with whitespace and one space behind when
      it ends with whitespace after a word. */
  lemma CollapsePadded(t: string)
    ensures CollapseRuns(t, false)
            == (if t != [] && IsWhitespace(t[0]) then " " else []) + Join(Words(t))
               + (if Words(t) != [] && EndsInWhitespace(t) then " " else [])
  {
    if t != [] && IsWhitespace(t[0]) {
      CollapseLeadingRun(t);
    } else {
      CollapseNoLeadingRun(t);
    }
  }

  lemma CollapseLeadingRun(t: string)
    requires t != [] && IsWhitespace(t[0])
    ensures CollapseRuns(t, false)
            == " " + Join(Words(t)) + (if Words(t) != [] && EndsInWhitespace(t) then " " else [])
  {
    var trail: string := if Words(t) != [] && EndsInWhitespace(t) then " " else [];
    LeadingRunStep(t);
    CollapseAfterRun(t[1..]);
    LeadingRunTrail(t);
    Associate(" ", Join(Words(t)), trail);
  }

  lemma LeadingRunTrail(t: string)
    requires t != [] && Words(t) == Words(t[1..])
    ensures (if Words(t[1..]) != [] then TrailingSpace(t[1..]) else [])
            == (if Words(t) != [] && EndsInWhitespace(t) then " " else [])
  {
    if |t| == 1 {
      assert Words(t[1..]) == [];
    } else {
      TrailingSpaceTail(t);
    }
  }

  lemma Associate(a: string, b: string, c: string)
    ensures a + (b + c) == a + b + c
  {
  }

  /** A leading whitespace character becomes the one space of its run and adds no word. */
  lemma LeadingRunStep(t: string)
    requires t != [] && IsWhitespace(t[0])
    ensures CollapseRuns(t, false) == " " + CollapseRuns(t[1..], true)
    ensures Words(t) == Words(t[1..])
  {
    assert [] + WordsFrom(t[1..], []) == WordsFrom(t[1..], []);
  }

  lemma CollapseNoLeadingRun(t: string)
    requires t == [] || !IsWhitespace(t[0])
    ensures CollapseRuns(t, false)
            == Join(Words(t)) + (if Words(t) != [] && EndsInWhitespace(t) then " " else [])
  {
    CollapseAfterRun(t);
    assert CollapseRuns(t, false) == CollapseRuns(t, true);
  }

  // ---------------------------------------------------------------------------
  // Lemmas: what validate_message decides
  // ---------------------------------------------------------------------------

  /** The empty check looks at the raw message: it fails exactly on text that
      is empty or all whitespace. */
  lemma EmptyMessageIff(message: string)
    ensures IsEmptyMessage(message) <==> forall i :: 0 <= i < |message| ==> IsWhitespace(message[i])
  {
    var front := TrimStart(message);
    if front != [] {
      assert TrimEnd(front)[0] == front[0];
    }
  }

  /** Empty or whitespace-only input is refused with the empty-message error. */
  lemma ValidateRefusesBlank(message: string, matches: Matcher)
    requires forall i :: 0 <= i < |message| ==> IsWhitespace(message[i])
    ensures Validate(message, matches) == Verdict(false, EmptyError, "")
  {
    EmptyMessageIff(message);
  }

  /** The checks run in the order empty, length, injection: a message that
      fails an earlier check reports that check's error whatever the later
      checks would say. */
  lemma ValidateOrder(message: string, matches: Matcher)
    ensures IsEmptyMessage(message) ==> Validate(message, matches).error == EmptyError
    ensures !IsEmptyMessage(message) && |Sanitize(message)| > MaxMessageLength
            ==> Validate(message, matches).error == TooLongError
    ensures !IsEmptyMessage(message) && |Sanitize(message)| <= MaxMessageLength
            && (exists p :: 0 <= p < PatternCount && matches(p, Lower(Sanitize(message))))
            ==> Validate(message, matches).error == InjectionError
  {
    var v := Validate(message, matches);
    if !IsEmptyMessage(message) {
      var sanitized := Sanitize(message);
      var length := CheckLength(sanitized);
      if !length.passed {
        assert v == Verdict(false, TooLongError, "");
      } else {
        var screen := DetectInjection(sanitized, matches);
        assert v.error == screen.error;
        if exists p :: 0 <= p < PatternCount && matches(p, Lower(sanitized)) {
          var p :| 0 <= p < PatternCount && matches(p, Lower(sanitized));
          assert !screen.passed;
        }
      }
    }
  }

  /** A message is accepted exactly when it passes all three checks. */
  lemma ValidateAcceptsIff(message: string, matches: Matcher)
    ensures Validate(message, matches).valid
            <==> && !IsEmptyMessage(message)
                 && |Sanitize(message)| <= MaxMessageLength
                 && forall p :: 0 <= p < PatternCount ==> !matches(p, Lower(Sanitize(message)))
  {
    if !IsEmptyMessage(message) {
      var sanitized := Sanitize(message);
      assert CheckLength(sanitized).passed <==> |sanitized| <= MaxMessageLength;
      if |sanitized| <= MaxMessageLength {
        var screen := DetectInjection(sanitized, matches);
        assert Validate(message, matches).valid == screen.passed;
      }
    }
  }

  /** The length cap is inclusive: 2000 sanitised characters pass the length
      check, 2001 do not. */
  lemma LengthCapInclusive(message: string)
    ensures |message| == MaxMessageLength ==> CheckLength(message).passed
    ensures |message| == MaxMessageLength + 1 ==> CheckLength(message) == Check(false, TooLongError)
  {
  }

  /** A message made of one null character passes the empty check (which sees
      the raw text) but sanitises to the empty string: when no pattern matches
      empty text, it is accepted with an empty sanitised message. */
  lemma NullOnlyMessage(matches: Matcher)
    requires forall p :: 0 <= p < PatternCount ==> !matches(p, Lower(""))
    ensures Validate("\0", matches) == Verdict(true, "", "")
  {
    assert !IsWhitespace('\0');
    TrimStartKeeps("\0");
    TrimEndKeeps("\0");
    assert !IsEmptyMessage("\0");
    assert RemoveNulls("\0") == [];
    assert Sanitize("\0") == "";
    assert DetectInjection("", matches).passed;
  }
}
