/**
 * The decisions of the code editor app around saving and highlighting a snippet:
 * which extension and lexer a language gets, where a snippet is saved, how tall
 * the preview is, and when a click is refused because the input is blank.
 *
 * Writing the file, reading the clock and the highlighting itself happen outside
 * this model: the current time is a parameter, and a failed write is a flag.
 */
module CodeSaver {
  import Timestamp

  /** File extension per supported language. */
  const SupportedLanguages: map<string, string> := map[
    "Python" := ".py",
    "C" := ".c",
    "C++" := ".cpp",
    "Java" := ".java",
    "JavaScript" := ".js",
    "HTML" := ".html",
    "CSS" := ".css",
    "SQL" := ".sql"
  ]

  /** Highlighter lexer name per supported language. */
  const LexerNames: map<string, string> := map[
    "Python" := "python",
    "C" := "c",
    "C++" := "cpp",
    "Java" := "java",
    "JavaScript" := "javascript",
    "HTML" := "html",
    "CSS" := "css",
    "SQL" := "sql"
  ]

  const DefaultExtension: string := ".txt"
  const DefaultLexer: string := "text"
  const SaveFolder: string := "saved_code"

  /** Preview geometry: pixels per line, fixed padding, and the height bounds. */
  const LineHeight: int := 22
  const PreviewPadding: int := 50
  const MinPreviewHeight: int := 200
  const MaxPreviewHeight: int := 800

  // ---------------------------------------------------------------------------
  // Language tables
  // ---------------------------------------------------------------------------

  /** The extension a saved file gets; an unknown language falls back to `.txt`. */
  function Extension(language: string): (ext: string)
    ensures ext == DefaultExtension <==> language !in SupportedLanguages
    ensures |ext| >= 2 && ext[0] == '.'
  {
    if language in SupportedLanguages then SupportedLanguages[language] else DefaultExtension
  }

  /** The lexer used for highlighting; an unknown language falls back to `text`. */
  function LexerName(language: string): (lexer: string)
    ensures lexer == DefaultLexer <==> language !in LexerNames
    ensures lexer != []
  {
    if language in LexerNames then LexerNames[language] else DefaultLexer
  }

  /** The two tables cover the same languages, so their fallbacks apply together. */
  lemma TablesAgree(language: string)
    ensures language in SupportedLanguages <==> language in LexerNames
    ensures Extension(language) == DefaultExtension <==> LexerName(language) == DefaultLexer
  {
  }

  /** Different supported languages get different extensions. */
  lemma ExtensionIdentifiesLanguage(l1: string, l2: string)
    requires l1 in SupportedLanguages && l2 in SupportedLanguages
    requires Extension(l1) == Extension(l2)
    ensures l1 == l2
  {
  }

  // ---------------------------------------------------------------------------
  // Saved file name
  // ---------------------------------------------------------------------------

  /** `code_<timestamp><extension>`. */
  function FileName(now: Timestamp.DateTime, language: string): (name: string)
    requires Timestamp.Valid(now)
    ensures |name| == 20 + |Extension(language)|
    ensures name[..5] == "code_" && name[|name| - |Extension(language)|..] == Extension(language)
  {
    "code_" + Timestamp.Format(now) + Extension(language)
  }

  /** The saved file's path: the file name inside the save folder (POSIX separator). */
  function SavePath(now: Timestamp.DateTime, language: string): (path: string)
    requires Timestamp.Valid(now)
    ensures |path| == |SaveFolder| + 1 + |FileName(now, language)|
    ensures path[..|SaveFolder| + 1] == SaveFolder + "/"
    ensures path[|SaveFolder| + 1..] == FileName(now, language)
  {
    SaveFolder + "/" + FileName(now, language)
  }

  /**
   * The path names the moment (to the second) and the extension: two saves share
   * a path only when they happen in the same second with the same extension.
   */
  lemma SavePathDeterminesInputs(t1: Timestamp.DateTime, l1: string, t2: Timestamp.DateTime, l2: string)
    requires Timestamp.Valid(t1) && Timestamp.Valid(t2)
    requires SavePath(t1, l1) == SavePath(t2, l2)
    ensures t1 == t2 && Extension(l1) == Extension(l2)
  {
    var n1, n2 := FileName(t1, l1), FileName(t2, l2);
    assert n1 == SavePath(t1, l1)[|SaveFolder| + 1..] == n2;
    assert Timestamp.Format(t1) == n1[5..20] == n2[5..20] == Timestamp.Format(t2);
    Timestamp.FormatInjective(t1, t2);
    assert Extension(l1) == n1[20..] == n2[20..] == Extension(l2);
  }

  /** Where the pieces of a saved path sit: 16 fixed characters, 15 of timestamp, the extension. */
  lemma SavePathLayout(now: Timestamp.DateTime, language: string)
    requires Timestamp.Valid(now)
    ensures var path := SavePath(now, language);
      && |path| > 31
      && path[..16] == "saved_code/code_"
      && path[16..31] == Timestamp.Format(now)
      && path[31..] == Extension(language)
  {
    var stamp, ext := Timestamp.Format(now), Extension(language);
    var path := SavePath(now, language);
    assert path == "saved_code/code_" + stamp + ext;
    assert path[..16] == "saved_code/code_";
    assert path[16..31] == stamp;
    assert path[31..] == ext;
  }

  /**
   * The converse: two saves of the same kind of file within one second get the
   * same path, so the second overwrites the first.
   */
  lemma SameSecondSamePath(now: Timestamp.DateTime, l1: string, l2: string)
    requires Timestamp.Valid(now)
    requires Extension(l1) == Extension(l2)
    ensures SavePath(now, l1) == SavePath(now, l2)
  {
  }

  // ---------------------------------------------------------------------------
  // Line count and preview height
  // ---------------------------------------------------------------------------

  /** `s.count('\n')`. */
  function CountNewlines(s: string): (n: nat)
    ensures n <= |s|
    ensures n == 0 <==> '\n' !in s
  {
    if s == [] then 0
    else (if s[0] == '\n' then 1 else 0) + CountNewlines(s[1..])
  }

  /** The number of lines the preview shows: one more than the number of line breaks. */
  function LineCount(code: string): (n: nat)
    ensures n >= 1
    ensures n == 1 <==> '\n' !in code
  {
    CountNewlines(code) + 1
  }

  /** `s.split('\n')`: the pieces between line breaks, in order. */
  function SplitLines(s: string): (lines: seq<string>)
    ensures |lines| >= 1
    ensures forall i :: 0 <= i < |lines| ==> '\n' !in lines[i]
  {
    if s == [] then [[]]
    else
      var rest := SplitLines(s[1..]);
      if s[0] == '\n' then [[]] + rest
      else [[s[0]] + rest[0]] + rest[1..]
  }

  /** The pieces joined back with line breaks. */
  function JoinLines(lines: seq<string>): string
    requires |lines| >= 1
  {
    if |lines| == 1 then lines[0] else lines[0] + "\n" + JoinLines(lines[1..])
  }

  /** The line count is the number of lines `split('\n')` finds. */
  lemma {:induction false} LineCountIsNumberOfLines(s: string)
    ensures |SplitLines(s)| == LineCount(s)
  {
    if s != [] {
      LineCountIsNumberOfLines(s[1..]);
    }
  }

  /** Splitting into lines and joining them back gives the input. */
  lemma {:induction false} SplitJoinRoundTrip(s: string)
    ensures JoinLines(SplitLines(s)) == s
  {
    if s != [] {
      var rest := SplitLines(s[1..]);
      SplitJoinRoundTrip(s[1..]);
      if s[0] == '\n' {
        assert ([[]] + rest)[1..] == rest;
        assert s == [] + "\n" + s[1..];
      } else {
        var lines := [[s[0]] + rest[0]] + rest[1..];
        if |rest| == 1 {
          assert JoinLines(rest) == rest[0];
        } else {
          assert lines[1..] == rest[1..];
          assert JoinLines(rest) == rest[0] + "\n" + JoinLines(rest[1..]);
        }
      }
    }
  }

  /** Line breaks of a concatenation add up. */
  lemma {:induction false} CountNewlinesAppend(a: string, b: string)
    ensures CountNewlines(a + b) == CountNewlines(a) + CountNewlines(b)
  {
    if a == [] {
      assert a + b == b;
    } else {
      assert (a + b)[1..] == a[1..] + b;
      CountNewlinesAppend(a[1..], b);
    }
  }

  /** Putting two snippets on consecutive lines adds their line counts. */
  lemma LineCountOfJoin(a: string, b: string)
    ensures LineCount(a + "\n" + b) == LineCount(a) + LineCount(b)
  {
    CountNewlinesAppend(a + "\n", b);
    CountNewlinesAppend(a, "\n");
  }

  /** `min(max(n * 22 + 50, 200), 800)`: the preview's height in pixels for `n` lines. */
  function PreviewHeight(numLines: int): (h: int)
    ensures MinPreviewHeight <= h <= MaxPreviewHeight
    ensures h == numLines * LineHeight + PreviewPadding
      <==> MinPreviewHeight <= numLines * LineHeight + PreviewPadding <= MaxPreviewHeight
  {
    var natural := numLines * LineHeight + PreviewPadding;
    var atLeast := if natural > MinPreviewHeight then natural else MinPreviewHeight;
    if atLeast < MaxPreviewHeight then atLeast else MaxPreviewHeight
  }

  /** More lines never give a shorter preview. */
  lemma PreviewHeightMonotone(m: int, n: int)
    requires m <= n
    ensures PreviewHeight(m) <= PreviewHeight(n)
  {
  }

  /** Up to 6 lines get the minimum height, 35 lines or more the maximum. */
  lemma PreviewHeightBreakpoints(n: int)
    ensures PreviewHeight(n) == MinPreviewHeight <==> n <= 6
    ensures PreviewHeight(n) == MaxPreviewHeight <==> n >= 35
  {
  }

  // ---------------------------------------------------------------------------
  // The blank-input guard
  // ---------------------------------------------------------------------------

  /** Characters that `str.strip()` removes (those for which `str.isspace()` holds). */
  predicate IsSpace(c: char) {
    var u := c as int;
    || 0x09 <= u <= 0x0D || 0x1C <= u <= 0x20
    || u == 0x85 || u == 0xA0 || u == 0x1680
    || 0x2000 <= u <= 0x200A
    || u == 0x2028 || u == 0x2029 || u == 0x202F || u == 0x205F || u == 0x3000
  }

  /** Every character of `s` from index `lo` up to (not including) `hi` is whitespace. */
  predicate AllSpaceIn(s: string, lo: int, hi: int)
    requires 0 <= lo <= hi <= |s|
  {
    forall i :: lo <= i < hi ==> IsSpace(s[i])
  }

  /** Every character of `s` is whitespace. */
  predicate AllSpace(s: string) {
    AllSpaceIn(s, 0, |s|)
  }

  /** The first index at or after `i` that holds a non-space, or `|s|` when there is none. */
  function SkipSpaces(s: string, i: nat): (k: nat)
    requires i <= |s|
    ensures i <= k <= |s| && AllSpaceIn(s, i, k)
    ensures k < |s| ==> !IsSpace(s[k])
    decreases |s| - i
  {
    if i == |s| || !IsSpace(s[i]) then i else SkipSpaces(s, i + 1)
  }

  /** The end of `s[lo..j]` once its trailing whitespace is dropped. */
  function SkipSpacesBack(s: string, lo: nat, j: nat): (k: nat)
    requires lo <= j <= |s|
    ensures lo <= k <= j && AllSpaceIn(s, k, j)
    ensures k > lo ==> !IsSpace(s[k - 1])
    decreases j
  {
    if j == lo || !IsSpace(s[j - 1]) then j else SkipSpacesBack(s, lo, j - 1)
  }

  /**
   * `str.strip()`: the input is some whitespace, then the result, then some more
   * whitespace, and the result neither starts nor ends with whitespace.
   */
  function Strip(s: string): (r: string)
    ensures exists i, j :: 0 <= i <= j <= |s| && r == s[i..j] && AllSpaceIn(s, 0, i) && AllSpaceIn(s, j, |s|)
    ensures r != [] ==> !IsSpace(r[0]) && !IsSpace(r[|r| - 1])
  {
    var i := SkipSpaces(s, 0);
    var j := SkipSpacesBack(s, i, |s|);
    s[i..j]
  }

  /** The guard in front of both buttons: the input has something besides whitespace. */
  function HasCode(code: string): (r: bool)
    ensures r <==> exists i :: 0 <= i < |code| && !IsSpace(code[i])
  {
    Strip(code) != []
  }

  /** Stripping leaves nothing exactly when every character is whitespace. */
  lemma BlankIffAllWhitespace(s: string)
    ensures !HasCode(s) <==> AllSpace(s)
  {
  }

  // ---------------------------------------------------------------------------
  // The two buttons
  // ---------------------------------------------------------------------------

  /** What a click on "Save Code" shows. */
  datatype SaveOutcome =
    | Saved(path: string)      // success message with the path
    | SaveFailed               // an exception while writing, reported as an error
    | NeedCodeToSave           // warning: nothing to save

  /**
   * A click on "Save Code" at time `now`; `writeSucceeds` says whether creating
   * the folder and writing the file went through.
   */
  function ClickSave(code: string, language: string, now: Timestamp.DateTime, writeSucceeds: bool): (r: SaveOutcome)
    requires Timestamp.Valid(now)
    ensures r.NeedCodeToSave? <==> !HasCode(code)
    ensures r.Saved? <==> HasCode(code) && writeSucceeds
    ensures r.Saved? ==> |r.path| > 31 && r.path[..16] == "saved_code/code_" && r.path[16..31] == Timestamp.Format(now)
    ensures r.Saved? ==> r.path[31..] == Extension(language)
  {
    if !HasCode(code) then NeedCodeToSave
    else if !writeSucceeds then SaveFailed
    else
      SavePathLayout(now, language);
      Saved(SavePath(now, language))
  }

  /** What a click on "Highlight Code" shows. */
  datatype HighlightOutcome =
    | Rendered(lexer: string, height: int)   // the highlighted preview
    | NeedCodeToHighlight                    // warning: nothing to highlight

  /** A click on "Highlight Code": the lexer chosen and the preview height, or the warning. */
  function ClickHighlight(code: string, language: string): (r: HighlightOutcome)
    ensures r.Rendered? <==> HasCode(code)
    ensures r.Rendered? ==> MinPreviewHeight <= r.height <= MaxPreviewHeight
    ensures r.Rendered? ==> (r.lexer == DefaultLexer <==> language !in LexerNames)
    ensures r.Rendered? ==> r.lexer == LexerName(language) && r.height == PreviewHeight(LineCount(code))
  {
    if !HasCode(code) then NeedCodeToHighlight
    else Rendered(LexerName(language), PreviewHeight(LineCount(code)))
  }

  /** Whitespace-only input is refused by both buttons, with a warning. */
  lemma WhitespaceIsRefused(code: string, language: string, now: Timestamp.DateTime, writeSucceeds: bool)
    requires Timestamp.Valid(now)
    requires AllSpace(code)
    ensures ClickSave(code, language, now, writeSucceeds) == NeedCodeToSave
    ensures ClickHighlight(code, language) == NeedCodeToHighlight
  {
  }
}
