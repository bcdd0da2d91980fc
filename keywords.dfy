/**
 * Keyword extraction from the vision analysis text (Service.py:93-94):
 *
 *   captures = re.findall(r"\): (.*?);", text)
 *   keywords = [piece.strip() for capture in captures for piece in capture.split(",")]
 *
 * The regular expression is modelled as a left-to-right scan over suffixes of the
 * text; `str.split(",")` and `str.strip()` are modelled by recursive functions.
 */
module Keywords {
  import opened Wrappers

  /** Python's `str.isspace` for one character: the characters `str.strip()` removes. */
  predicate IsSpace(c: char) {
    || ('\t' <= c <= '\r')
    || ('\U{1C}' <= c <= ' ')
    || c == '\U{85}' || c == '\U{A0}' || c == '\U{1680}'
    || ('\U{2000}' <= c <= '\U{200A}')
    || c == '\U{2028}' || c == '\U{2029}' || c == '\U{202F}' || c == '\U{205F}' || c == '\U{3000}'
  }

  // ---------------------------------------------------------------------------
  // The regular expression `\): (.*?);`
  // ---------------------------------------------------------------------------

  /**
   * The pattern matches at the start of `s` and its closing `;` is `s[j]`:
   * `s` begins with "): ", and `s[j]` is the first `;` after it, with no line
   * break in between (`.` does not match a newline, and `.*?` is lazy).
   */
  predicate MatchEndsAt(s: string, j: nat) {
    && |s| >= 3 && s[0] == ')' && s[1] == ':' && s[2] == ' '
    && 3 <= j < |s| && s[j] == ';'
    && forall i :: 3 <= i < j ==> s[i] != ';' && s[i] != '\n'
  }

  /** A captured group: no `;` and no line break. */
  predicate IsCapture(c: string) {
    ';' !in c && '\n' !in c
  }

  /** The lazy `(.*?);` from index `k`: the index of the first `;`, unless a newline comes first. */
  function ScanToSemicolon(s: string, k: nat): (r: Option<nat>)
    requires k <= |s|
    decreases |s| - k
    ensures r.Some? ==> k <= r.value < |s| && s[r.value] == ';'
    ensures r.Some? ==> forall i :: k <= i < r.value ==> s[i] != ';' && s[i] != '\n'
    ensures r.None? ==> forall j :: k <= j < |s| && s[j] == ';' ==> '\n' in s[k..j]
  {
    if k == |s| then None
    else if s[k] == ';' then Some(k)
    else if s[k] == '\n' then None
    else ScanToSemicolon(s, k + 1)
  }

  /** One attempt of the regular expression at the start of `s`. */
  function MatchHere(s: string): (r: Option<nat>)
    ensures r.Some? ==> MatchEndsAt(s, r.value)
    ensures r.None? ==> forall j :: !MatchEndsAt(s, j)
  {
    if |s| >= 3 && s[0] == ')' && s[1] == ':' && s[2] == ' ' then
      ScanToSemicolon(s, 3)
    else None
  }

  /**
   * `re.findall`: the captured groups of all non-overlapping matches, left to
   * right. After a match the scan resumes after its `;`; where no match starts,
   * it moves on by one character.
   */
  function FindAll(s: string): (r: seq<string>)
    decreases |s|
    ensures forall c :: c in r ==> IsCapture(c)
  {
    if s == [] then []
    else match MatchHere(s)
      case Some(j) =>
        assert forall i :: 0 <= i < j - 3 ==> s[3..j][i] == s[i + 3];
        [s[3..j]] + FindAll(s[j + 1..])
      case None => FindAll(s[1..])
  }

  /** No match of the pattern starts anywhere in `s`. */
  ghost predicate NoMatch(s: string) {
    forall i, j :: 0 <= i < |s| ==> !MatchEndsAt(s[i..], j)
  }

  /** No match starts in a non-empty `s` when none starts at its head and none in its tail. */
  lemma NoMatchStep(s: string)
    requires s != []
    ensures NoMatch(s) <==> (forall j :: !MatchEndsAt(s, j)) && NoMatch(s[1..])
  {
    if NoMatch(s) {
      assert s[0..] == s;
      forall i, j | 0 <= i < |s[1..]| ensures !MatchEndsAt(s[1..][i..], j) {
        assert s[1..][i..] == s[i + 1..];
      }
    }
    if (forall j :: !MatchEndsAt(s, j)) && NoMatch(s[1..]) {
      forall i, j | 0 <= i < |s| ensures !MatchEndsAt(s[i..], j) {
        if i == 0 {
          assert s[0..] == s;
        } else {
          assert s[1..][i - 1..] == s[i..];
        }
      }
    }
  }

  /** `findall` finds nothing exactly when the pattern matches nowhere. */
  lemma {:induction false} FindAllEmptyIffNoMatch(s: string)
    ensures FindAll(s) == [] <==> NoMatch(s)
    decreases |s|
  {
    if s != [] {
      NoMatchStep(s);
      match MatchHere(s)
      case Some(j) =>
        assert MatchEndsAt(s, j);
      case None =>
        FindAllEmptyIffNoMatch(s[1..]);
    }
  }

  /** No match of the pattern starts within `p`, in the text `p + s`. */
  ghost predicate NoMatchIn(p: string, s: string) {
    forall i, j :: 0 <= i < |p| ==> !MatchEndsAt((p + s)[i..], j)
  }

  /** A prefix in which no match starts contributes no capture: the scan passes over it. */
  lemma {:induction false} FindAllSkipsPrefix(p: string, s: string)
    requires NoMatchIn(p, s)
    ensures FindAll(p + s) == FindAll(s)
    decreases |p|
  {
    if p == [] {
      assert p + s == s;
    } else {
      assert (p + s)[0..] == p + s;
      assert MatchHere(p + s).None?;
      assert FindAll(p + s) == FindAll((p + s)[1..]);
      assert (p + s)[1..] == p[1..] + s;
      forall i, j | 0 <= i < |p[1..]| ensures !MatchEndsAt((p[1..] + s)[i..], j) {
        assert (p[1..] + s)[i..] == (p + s)[i + 1..];
      }
      FindAllSkipsPrefix(p[1..], s);
    }
  }

  /** Every match starts with `)`, so none starts within a prefix that has no `)`. */
  lemma NoParenNoMatch(p: string, s: string)
    requires ')' !in p
    ensures NoMatchIn(p, s)
  {
    forall i, j | 0 <= i < |p| ensures !MatchEndsAt((p + s)[i..], j) {
      assert (p + s)[i..][0] == p[i];
    }
  }

  /** A well-formed segment "): c;" yields the capture `c`, and the scan resumes after its `;`. */
  lemma FindAllSegment(c: string, rest: string)
    requires IsCapture(c)
    ensures FindAll("): " + c + ";" + rest) == [c] + FindAll(rest)
  {
    var s := "): " + c + ";" + rest;
    var j := 3 + |c|;
    assert s[j] == ';';
    forall i | 3 <= i < j ensures s[i] != ';' && s[i] != '\n' {
      assert s[i] == c[i - 3];
    }
    assert MatchEndsAt(s, j);
    var k := MatchHere(s).value;
    MatchEndUnique(s, j, k);
    assert s[3..j] == c;
    assert s[j + 1..] == rest;
  }

  /** The lazy group admits at most one closing `;`. */
  lemma MatchEndUnique(s: string, a: nat, b: nat)
    requires MatchEndsAt(s, a) && MatchEndsAt(s, b)
    ensures a == b
  {
  }

  // ---------------------------------------------------------------------------
  // str.split(",")
  // ---------------------------------------------------------------------------

  /** The number of occurrences of `x` in `s`. */
  function Count(s: string, x: char): nat {
    if s == [] then 0 else (if s[0] == x then 1 else 0) + Count(s[1..], x)
  }

  /** `s.split(",")`: the maximal comma-free pieces between the commas of `s`. */
  function Split(s: string): (r: seq<string>)
    ensures |r| == Count(s, ',') + 1
    ensures forall p :: p in r ==> ',' !in p
    ensures IsCapture(s) ==> forall p :: p in r ==> IsCapture(p)
  {
    if s == [] then [[]]
    else
      var rest := Split(s[1..]);
      assert IsCapture(s) ==> IsCapture(s[1..]) by {
        assert forall ch :: ch in s[1..] ==> ch in s;
      }
      if s[0] == ',' then [[]] + rest
      else
        var head := [s[0]] + rest[0];
        assert IsCapture(s) ==> IsCapture(head) by {
          if IsCapture(s) {
            assert s[0] in s;
            assert rest[0] in rest;
          }
        }
        [head] + rest[1..]
  }

  /** `",".join(ps)`. */
  function Join(ps: seq<string>): string
    requires |ps| >= 1
  {
    if |ps| == 1 then ps[0] else ps[0] + "," + Join(ps[1..])
  }

  /** Splitting loses nothing: joining the pieces with commas gives back the text. */
  lemma {:induction false} JoinSplit(s: string)
    ensures Join(Split(s)) == s
  {
    if s != [] {
      var rest := Split(s[1..]);
      JoinSplit(s[1..]);
      if s[0] == ',' {
        assert Split(s) == [[]] + rest;
        assert Join(Split(s)) == [] + "," + Join(rest);
      } else {
        assert Split(s) == [[s[0]] + rest[0]] + rest[1..];
        if |rest| == 1 {
          assert Join(Split(s)) == [s[0]] + rest[0];
        } else {
          assert Join(rest) == rest[0] + "," + Join(rest[1..]);
          assert Join(Split(s)) == ([s[0]] + rest[0]) + "," + Join(rest[1..]);
        }
      }
    }
  }

  /** A text with no comma is one piece. */
  lemma {:induction false} SplitNoComma(a: string)
    requires ',' !in a
    ensures Split(a) == [a]
  {
    if a != [] {
      assert ',' !in a[1..] by { assert forall ch :: ch in a[1..] ==> ch in a; }
      SplitNoComma(a[1..]);
      assert [a[0]] + a[1..] == a;
    }
  }

  /** A comma-free head followed by a comma is the first piece. */
  lemma {:induction false} SplitFirstPiece(a: string, b: string)
    requires ',' !in a
    ensures Split(a + "," + b) == [a] + Split(b)
  {
    if a == [] {
      assert a + "," + b == [','] + b;
      assert ([','] + b)[1..] == b;
    } else {
      assert ',' !in a[1..] by { assert forall ch :: ch in a[1..] ==> ch in a; }
      SplitFirstPiece(a[1..], b);
      assert (a + "," + b)[1..] == a[1..] + "," + b;
      assert [a[0]] + a[1..] == a;
    }
  }

  /** Comma-free pieces come back unchanged from a join followed by a split. */
  lemma {:induction false} SplitJoin(ps: seq<string>)
    requires |ps| >= 1
    requires forall p :: p in ps ==> ',' !in p
    ensures Split(Join(ps)) == ps
  {
    if |ps| == 1 {
      SplitNoComma(ps[0]);
    } else {
      SplitJoin(ps[1..]);
      SplitFirstPiece(ps[0], Join(ps[1..]));
      assert [ps[0]] + ps[1..] == ps;
    }
  }

  // ---------------------------------------------------------------------------
  // str.strip()
  // ---------------------------------------------------------------------------

  /** `s.lstrip()`: drops the leading whitespace. */
  function TrimStart(s: string): (r: string)
    ensures |r| <= |s|
    ensures r == [] || !IsSpace(r[0])
  {
    if s != [] && IsSpace(s[0]) then TrimStart(s[1..]) else s
  }

  /** `s.lstrip()` is a suffix of `s`. */
  lemma {:induction false} TrimStartIsSuffix(s: string)
    ensures TrimStart(s) == s[|s| - |TrimStart(s)|..]
  {
    if s != [] && IsSpace(s[0]) {
      TrimStartIsSuffix(s[1..]);
      assert s[1..][|s| - 1 - |TrimStart(s)|..] == s[|s| - |TrimStart(s)|..];
    }
  }

  /** `s.rstrip()`: drops the trailing whitespace. */
  function TrimEnd(s: string): (r: string)
    ensures |r| <= |s| && r == s[..|r|]
    ensures r == [] || !IsSpace(r[|r| - 1])
  {
    if s != [] && IsSpace(s[|s| - 1]) then TrimEnd(s[..|s| - 1]) else s
  }

  /** What `s.lstrip()` drops is whitespace. */
  lemma {:induction false} TrimStartDropsSpace(s: string)
    ensures AllSpace(s[..|s| - |TrimStart(s)|])
  {
    if s != [] && IsSpace(s[0]) {
      TrimStartDropsSpace(s[1..]);
      var n := |s| - |TrimStart(s)|;
      forall k | 0 <= k < n ensures IsSpace(s[..n][k]) {
        if k > 0 {
          assert s[..n][k] == s[1..][..n - 1][k - 1];
        }
      }
    }
  }

  /** What `s.rstrip()` drops is whitespace. */
  lemma {:induction false} TrimEndDropsSpace(s: string)
    ensures AllSpace(s[|TrimEnd(s)|..])
  {
    if s != [] && IsSpace(s[|s| - 1]) {
      var init := s[..|s| - 1];
      TrimEndDropsSpace(init);
      var m := |TrimEnd(s)|;
      forall k | 0 <= k < |s| - m ensures IsSpace(s[m..][k]) {
        if m + k < |s| - 1 {
          assert s[m..][k] == init[m..][k];
        }
      }
    }
  }

  /** Every character of `s` is whitespace. */
  predicate AllSpace(s: string) {
    forall k :: 0 <= k < |s| ==> IsSpace(s[k])
  }

  /** `s.strip()`: the result neither starts nor ends with whitespace, and holds no separator `s` lacks. */
  function Strip(s: string): (r: string)
    ensures r == [] || (!IsSpace(r[0]) && !IsSpace(r[|r| - 1]))
    ensures NoSeparators(s) ==> NoSeparators(r)
  {
    var t := TrimStart(s);
    var r := TrimEnd(t);
    TrimStartIsSuffix(s);
    assert forall ch :: ch in r ==> ch in s by {
      forall ch | ch in r ensures ch in s {
        var m :| 0 <= m < |r| && r[m] == ch;
        assert s[|s| - |t| + m] == ch;
      }
    }
    r
  }

  /** What `str.strip()` removes is whitespace on both ends and nothing else: the result is a slice of `s`. */
  lemma StripIsTrimmedSlice(s: string)
    ensures exists i ::
      && 0 <= i <= |s| - |Strip(s)| && s[i..][..|Strip(s)|] == Strip(s)
      && AllSpace(s[..i]) && AllSpace(s[i + |Strip(s)|..])
  {
    var t := TrimStart(s);
    var r := TrimEnd(t);
    var i := |s| - |t|;
    TrimStartIsSuffix(s);
    TrimStartDropsSpace(s);
    TrimEndDropsSpace(t);
    assert s[i..][..|r|] == r;
    assert AllSpace(s[..i]);
    assert AllSpace(s[i + |r|..]) by {
      var tail := s[i + |r|..];
      forall k | 0 <= k < |tail| ensures IsSpace(tail[k]) {
        assert tail[k] == t[|r| + k];
      }
    }
  }

  /** A text that neither starts nor ends with whitespace is left as it is. */
  lemma StripKeepsTrimmed(s: string)
    requires s == [] || (!IsSpace(s[0]) && !IsSpace(s[|s| - 1]))
    ensures Strip(s) == s
  {
  }

  /** Stripping twice is stripping once. */
  lemma StripIdempotent(s: string)
    ensures Strip(Strip(s)) == Strip(s)
  {
    StripKeepsTrimmed(Strip(s));
  }

  // ---------------------------------------------------------------------------
  // The keyword list
  // ---------------------------------------------------------------------------

  /** No comma, semicolon or line break: what a split piece of a capture holds. */
  predicate NoSeparators(k: string) {
    ',' !in k && ';' !in k && '\n' !in k
  }

  /** What the split and `str.strip()` leave of each keyword: no separator, no outer whitespace. */
  predicate IsCleanKeyword(k: string) {
    NoSeparators(k) && (k == [] || (!IsSpace(k[0]) && !IsSpace(k[|k| - 1])))
  }

  /** Stripping a piece without separators yields a clean keyword. */
  lemma StripKeepsClean(p: string)
    requires NoSeparators(p)
    ensures IsCleanKeyword(Strip(p))
  {
  }

  /** `[piece.strip() for piece in pieces]`. */
  function StripAll(pieces: seq<string>): (r: seq<string>)
    ensures |r| == |pieces|
  {
    if pieces == [] then [] else [Strip(pieces[0])] + StripAll(pieces[1..])
  }

  /** Each keyword is its piece, stripped, at the same position. */
  lemma {:induction false} StripAllAt(pieces: seq<string>, i: nat)
    requires i < |pieces|
    ensures StripAll(pieces)[i] == Strip(pieces[i])
  {
    var r := StripAll(pieces);
    assert r == [Strip(pieces[0])] + StripAll(pieces[1..]);
    if i > 0 {
      StripAllAt(pieces[1..], i - 1);
      assert r[i] == StripAll(pieces[1..])[i - 1];
    }
  }

  /** Stripping pieces without separators yields clean keywords only. */
  lemma {:induction false} StripAllClean(pieces: seq<string>)
    requires forall p :: p in pieces ==> NoSeparators(p)
    ensures forall k :: k in StripAll(pieces) ==> IsCleanKeyword(k)
  {
    if pieces != [] {
      assert pieces[0] in pieces;
      StripKeepsClean(pieces[0]);
      assert forall p :: p in pieces[1..] ==> p in pieces;
      StripAllClean(pieces[1..]);
      assert StripAll(pieces) == [Strip(pieces[0])] + StripAll(pieces[1..]);
    }
  }

  /** Every keyword in `ks` is clean. */
  predicate AllClean(ks: seq<string>) {
    forall k :: k in ks ==> IsCleanKeyword(k)
  }

  /** The keywords of one capture: its comma-separated pieces, stripped, left to right. */
  function CaptureKeywords(c: string): (r: seq<string>)
    ensures |r| == Count(c, ',') + 1
  {
    StripAll(Split(c))
  }

  /** Every keyword of a captured group is clean. */
  lemma CaptureKeywordsClean(c: string)
    requires IsCapture(c)
    ensures AllClean(CaptureKeywords(c))
  {
    var pieces := Split(c);
    forall p | p in pieces ensures NoSeparators(p) {
    }
    StripAllClean(pieces);
  }

  /** The nested comprehension: every capture's keywords, captures in order. */
  function FlattenCaptures(captures: seq<string>): (r: seq<string>)
    ensures |r| >= |captures|
  {
    if captures == [] then []
    else CaptureKeywords(captures[0]) + FlattenCaptures(captures[1..])
  }

  /** Captures without `;` or line breaks give clean keywords only. */
  lemma {:induction false} FlattenClean(captures: seq<string>)
    requires forall c :: c in captures ==> IsCapture(c)
    ensures AllClean(FlattenCaptures(captures))
  {
    if captures != [] {
      assert captures[0] in captures;
      assert forall c :: c in captures[1..] ==> c in captures;
      FlattenClean(captures[1..]);
      CaptureKeywordsClean(captures[0]);
      var head, tail := CaptureKeywords(captures[0]), FlattenCaptures(captures[1..]);
      assert FlattenCaptures(captures) == head + tail;
      forall k | k in head + tail ensures IsCleanKeyword(k) {
        if k in head {
        } else {
          assert k in tail;
        }
      }
    }
  }

  /** `keywords_list` of Service.py:93-94 for the analysis text `text`. */
  function ExtractKeywords(text: string): (r: seq<string>)
    ensures AllClean(r)
    ensures r == [] <==> FindAll(text) == []
  {
    FlattenClean(FindAll(text));
    FlattenCaptures(FindAll(text))
  }

  /** Text in which no "): " is followed by a `;` on the same line yields no keywords, and nothing else does. */
  lemma ExtractKeywordsEmptyIffNoMatch(text: string)
    ensures ExtractKeywords(text) == [] <==> NoMatch(text)
  {
    FindAllEmptyIffNoMatch(text);
  }

  /**
   * Keywords come in text order: a text whose first match is the segment
   * "): c;" yields the keywords of `c` (one more than `c` has commas),
   * followed by the keywords of the rest of the text.
   */
  lemma ExtractKeywordsSegment(p: string, c: string, rest: string)
    requires NoMatchIn(p, "): " + c + ";" + rest) && IsCapture(c)
    ensures ExtractKeywords(p + "): " + c + ";" + rest) == CaptureKeywords(c) + ExtractKeywords(rest)
    // repeated from CaptureKeywords for callers: the segment contributes one keyword more than `c` has commas
    ensures |CaptureKeywords(c)| == Count(c, ',') + 1
  {
    var seg := "): " + c + ";" + rest;
    assert p + "): " + c + ";" + rest == p + seg;
    FindAllSkipsPrefix(p, seg);
    FindAllSegment(c, rest);
    var caps := [c] + FindAll(rest);
    assert caps[0] == c && caps[1..] == FindAll(rest);
  }

  /** A capture without a comma is one keyword. */
  lemma CaptureOnePiece(a: string)
    requires ',' !in a
    ensures CaptureKeywords(a) == [Strip(a)]
  {
    SplitNoComma(a);
    assert StripAll([a]) == [Strip(a)];
  }

  /** A capture with one comma is two keywords, in order. */
  lemma CaptureTwoPieces(a: string, b: string)
    requires ',' !in a && ',' !in b
    ensures CaptureKeywords(a + "," + b) == [Strip(a), Strip(b)]
  {
    SplitFirstPiece(a, b);
    SplitNoComma(b);
    assert Split(a + "," + b) == [a, b];
    assert StripAll([a, b]) == [Strip(a), Strip(b)];
  }

  /**
   * The example given to the vision model in its prompt (Service.py:77),
   * written as a concatenation at the pattern's delimiters and at its comma.
   */
  lemma PromptExample()
    ensures ExtractKeywords("Gelbe Linie (oben rechts" + "): " + "hoch" + ";"
                          + " Blaue Sonne (unten links" + "): " + "abstrakt" + "," + " geschwungen" + ";")
         == ["hoch", "abstrakt", "geschwungen"]
  {
    assert "Gelbe Linie (oben rechts" + "): " + "hoch" + ";"
         + " Blaue Sonne (unten links" + "): " + "abstrakt" + "," + " geschwungen" + ";"
        == "Gelbe Linie (oben rechts" + "): " + "hoch" + ";" + ExampleTail;
    ExampleFirstSegment();
    ExampleSecondSegment();
    ExampleFirstCapture();
    ExampleSecondCapture();
  }

  /**
   * The example after its first segment. The capture is bracketed and an empty
   * rest is appended so that the text has the exact shape `p + "): " + c + ";" + rest`
   * that `ExtractKeywordsSegment` takes.
   */
  const ExampleTail := " Blaue Sonne (unten links" + "): " + ("abstrakt" + "," + " geschwungen") + ";" + ""

  /** The first segment of the example, "): hoch;", comes first. */
  lemma ExampleFirstSegment()
    ensures ExtractKeywords("Gelbe Linie (oben rechts" + "): " + "hoch" + ";" + ExampleTail)
         == CaptureKeywords("hoch") + ExtractKeywords(ExampleTail)
  {
    assert ')' !in "Gelbe Linie (oben rechts";
    NoParenNoMatch("Gelbe Linie (oben rechts", "): " + "hoch" + ";" + ExampleTail);
    assert IsCapture("hoch");
    ExtractKeywordsSegment("Gelbe Linie (oben rechts", "hoch", ExampleTail);
  }

  /** The second segment of the example is its last match. */
  lemma ExampleSecondSegment()
    ensures ExtractKeywords(ExampleTail) == CaptureKeywords("abstrakt" + "," + " geschwungen")
  {
    assert ')' !in " Blaue Sonne (unten links";
    NoParenNoMatch(" Blaue Sonne (unten links", "): " + ("abstrakt" + "," + " geschwungen") + ";" + "");
    assert IsCapture("abstrakt" + "," + " geschwungen");
    assert ExtractKeywords("") == [];
    ExtractKeywordsSegment(" Blaue Sonne (unten links", "abstrakt" + "," + " geschwungen", "");
  }

  /** The first capture of the example is one keyword. */
  lemma ExampleFirstCapture()
    ensures CaptureKeywords("hoch") == ["hoch"]
  {
    assert ',' !in "hoch";
    CaptureOnePiece("hoch");
    StripKeepsTrimmed("hoch");
  }

  /** The second capture of the example is two keywords, the blank after its comma stripped. */
  lemma ExampleSecondCapture()
    ensures CaptureKeywords("abstrakt" + "," + " geschwungen") == ["abstrakt", "geschwungen"]
  {
    assert ',' !in "abstrakt" && ',' !in " geschwungen";
    CaptureTwoPieces("abstrakt", " geschwungen");
    StripKeepsTrimmed("abstrakt");
    assert " geschwungen" == [' '] + "geschwungen";
    StripLeadingBlank("geschwungen");
  }

  /** A blank before a trimmed text is stripped away. */
  lemma StripLeadingBlank(t: string)
    requires t == [] || (!IsSpace(t[0]) && !IsSpace(t[|t| - 1]))
    ensures Strip([' '] + t) == t
  {
    assert ([' '] + t)[1..] == t;
    StripKeepsTrimmed(t);
  }
}
