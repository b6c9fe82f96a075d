/**
 * The input classifiers of the bot: pure predicates on the raw text a user
 * sends after /play. Every one of them first trims and lower-cases the text,
 * then performs prefix and substring tests. The video-host pattern is a
 * case-insensitive search for one of three literal fragments, so it is
 * modelled as three substring tests on the lower-cased text after the two
 * letter foldings the regex engine adds to it.
 */
module Classifier {

  /** Python's `str.isspace()`: exactly the characters `str.strip()` removes. */
  predicate IsSpace(c: char) {
    || c == ' ' || c == '\t' || c == '\n' || c == '\r'
    || c == '\U{000B}' || c == '\U{000C}'
    || ('\U{001C}' <= c <= '\U{001F}')
    || c == '\U{0085}' || c == '\U{00A0}' || c == '\U{1680}'
    || ('\U{2000}' <= c <= '\U{200A}')
    || c == '\U{2028}' || c == '\U{2029}' || c == '\U{202F}'
    || c == '\U{205F}' || c == '\U{3000}'
  }

  /** `str.lower()` on one character, for the ASCII letters. */
  function LowerChar(c: char): char {
    if 'A' <= c <= 'Z' then (c as int + 32) as char else c
  }

  /** The index of the first non-whitespace character at or after `i` (or `|s|`). */
  function SkipSpaceForward(s: string, i: nat): (n: nat)
    requires i <= |s|
    ensures i <= n <= |s|
    ensures forall k | i <= k < n :: IsSpace(s[k])
    ensures n < |s| ==> !IsSpace(s[n])
    decreases |s| - i
  {
    if i < |s| && IsSpace(s[i]) then SkipSpaceForward(s, i + 1) else i
  }

  /** The end of `s[lo..j]` once its trailing whitespace is dropped. */
  function SkipSpaceBackward(s: string, lo: nat, j: nat): (n: nat)
    requires lo <= j <= |s|
    ensures lo <= n <= j
    ensures forall k | n <= k < j :: IsSpace(s[k])
    ensures lo < n ==> !IsSpace(s[n - 1])
  {
    if lo < j && IsSpace(s[j - 1]) then SkipSpaceBackward(s, lo, j - 1) else j
  }

  /**
   * `str.strip()`: the result is a slice of `s` that neither starts nor ends
   * with whitespace, and everything cut off on either side is whitespace.
   */
  function Strip(s: string): (r: string)
    ensures r == [] || (!IsSpace(r[0]) && !IsSpace(r[|r| - 1]))
    ensures exists i | 0 <= i <= |s| :: StrippedAt(s, r, i)
  {
    var i := SkipSpaceForward(s, 0);
    var j := SkipSpaceBackward(s, i, |s|);
    assert StrippedAt(s, s[i..j], i);
    s[i..j]
  }

  /** `r` is the slice of `s` at `i`, and only whitespace lies outside it. */
  predicate StrippedAt(s: string, r: string, i: int) {
    && 0 <= i <= |s| - |r|
    && r == s[i..i + |r|]
    && (forall k | 0 <= k < i :: IsSpace(s[k]))
    && (forall k | i + |r| <= k < |s| :: IsSpace(s[k]))
  }

  function Lower(s: string): string {
    seq(|s|, i requires 0 <= i < |s| => LowerChar(s[i]))
  }

  /** `(s or "").strip().lower()`, the first step of every classifier. */
  function Normalize(s: string): string {
    Lower(Strip(s))
  }

  /** `str.startswith`. */
  predicate StartsWith(s: string, prefix: string) {
    |prefix| <= |s| && s[..|prefix|] == prefix
  }

  /** Python's substring test `sub in s`. */
  predicate Contains(s: string, sub: string) {
    exists i | 0 <= i <= |s| - |sub| :: OccursAt(s, sub, i)
  }

  /** `sub` occurs in `s` starting at index `i`. */
  predicate OccursAt(s: string, sub: string, i: int) {
    0 <= i <= |s| - |sub| && s[i..i + |sub|] == sub
  }

  /** STREAM_EXTS: the file extensions that mark a directly playable stream. */
  const StreamExts: seq<string> := [".m3u8", ".mp3", ".aac", ".m4a", ".ogg", ".opus", ".flac", ".wav"]

  /** The three alternatives of YT_RE, in lower case. */
  const VideoHostFragments: seq<string> := ["youtube.com/watch?v=", "youtu.be/", "music.youtube.com/"]

  /** `any(ext in u for ext in STREAM_EXTS)`. */
  predicate HasStreamExt(u: string) {
    exists k | 0 <= k < |StreamExts| :: Contains(u, StreamExts[k])
  }

  /**
   * The case folding `re.I` still applies to lower-cased text: Python's
   * regex engine matches the dotless `ı` to `i` and the long `ſ` to `s`,
   * and `str.lower()` leaves both of them unchanged.
   */
  function FoldChar(c: char): char {
    if c == '\U{0131}' then 'i' else if c == '\U{017F}' then 's' else c
  }

  function Fold(s: string): string {
    seq(|s|, i requires 0 <= i < |s| => FoldChar(s[i]))
  }

  /** `t` begins with `p` once each of its letters is lower-cased. */
  predicate PrefixIgnoringCase(t: string, p: string) {
    |p| <= |t| && forall k | 0 <= k < |p| :: LowerChar(t[k]) == p[k]
  }

  /** `p` occurs in `t` at `i` when letters are compared as YT_RE compares them. */
  predicate MatchesIgnoringCaseAt(t: string, p: string, i: int) {
    0 <= i <= |t| - |p| && forall j | 0 <= j < |p| :: FoldChar(LowerChar(t[i + j])) == p[j]
  }

  /** `is_url`: the stripped text starts with `http://` or `https://`, in any letter case. */
  function IsUrl(s: string): (b: bool)
    ensures b <==> PrefixIgnoringCase(Strip(s), "http://") || PrefixIgnoringCase(Strip(s), "https://")
  {
    var t := Normalize(s);
    assert forall p :: StartsWith(t, p) <==> PrefixIgnoringCase(Strip(s), p) by {
      forall p ensures StartsWith(t, p) <==> PrefixIgnoringCase(Strip(s), p) {
        if |p| <= |t| {
          assert StartsWith(t, p) <==> forall k | 0 <= k < |p| :: t[k] == p[k] by {
            if forall k | 0 <= k < |p| :: t[k] == p[k] {
              assert t[..|p|] == p;
            }
          }
        }
      }
    }
    StartsWith(t, "http://") || StartsWith(t, "https://")
  }

  /**
   * `is_stream_url`: normalises, then asks `is_url` of the normalised text.
   * That is the same as asking it of the raw text, so the test holds exactly
   * when the text is a URL and some STREAM_EXTS element occurs anywhere in
   * the normalised text, not necessarily at its end.
   */
  function IsStreamUrl(s: string): (b: bool)
    ensures b <==> IsUrl(s) && HasStreamExt(Normalize(s))
  {
    var u := Normalize(s);
    NormalizeIdempotent(s);
    if !IsUrl(u) then false else HasStreamExt(u)
  }

  /**
   * `is_youtube`: YT_RE searched anywhere in the normalised text, that is,
   * one of its three alternatives occurs in the stripped text when letters
   * are compared ignoring case as the regex engine does.
   */
  function IsYoutube(s: string): (b: bool)
    ensures b <==> exists k, i | 0 <= k < |VideoHostFragments| && 0 <= i <= |Strip(s)| - |VideoHostFragments[k]| ::
      MatchesIgnoringCaseAt(Strip(s), VideoHostFragments[k], i)
  {
    var t := Fold(Normalize(s));
    forall k, i | 0 <= k < |VideoHostFragments| && 0 <= i <= |Strip(s)| - |VideoHostFragments[k]|
      ensures OccursAt(t, VideoHostFragments[k], i) <==> MatchesIgnoringCaseAt(Strip(s), VideoHostFragments[k], i)
    {
      FoldedOccurrence(Strip(s), VideoHostFragments[k], i);
    }
    exists k | 0 <= k < |VideoHostFragments| :: Contains(t, VideoHostFragments[k])
  }

  /** An occurrence in the folded, lower-cased text is a case-insensitive match in the original. */
  lemma FoldedOccurrence(t: string, p: string, i: int)
    requires 0 <= i <= |t| - |p|
    ensures OccursAt(Fold(Lower(t)), p, i) <==> MatchesIgnoringCaseAt(t, p, i)
  {
    var f := Fold(Lower(t));
    if MatchesIgnoringCaseAt(t, p, i) {
      assert f[i..i + |p|] == p;
    }
  }

  /** Lower-casing never turns whitespace into non-whitespace or back. */
  lemma LowerCharKeepsSpace(c: char)
    ensures IsSpace(LowerChar(c)) == IsSpace(c)
    ensures LowerChar(LowerChar(c)) == LowerChar(c)
  {
  }

  /** Text that neither starts nor ends with whitespace is its own stripped form. */
  lemma StripOfTrimmed(t: string)
    requires t == [] || (!IsSpace(t[0]) && !IsSpace(t[|t| - 1]))
    ensures Strip(t) == t
  {
    var i :| 0 <= i <= |t| && StrippedAt(t, Strip(t), i);
  }

  /** Text without surrounding whitespace and in lower case is its own normal form. */
  lemma NormalFormIsFixed(t: string)
    requires t == [] || (!IsSpace(t[0]) && !IsSpace(t[|t| - 1]))
    requires forall k | 0 <= k < |t| :: LowerChar(t[k]) == t[k]
    ensures Normalize(t) == t
  {
    StripOfTrimmed(t);
    assert Lower(t) == t;
  }

  /** Normalising twice is normalising once. */
  lemma NormalizeIdempotent(s: string)
    ensures Normalize(Normalize(s)) == Normalize(s)
  {
    var t := Strip(s);
    var l := Lower(t);
    if l != [] {
      LowerCharKeepsSpace(t[0]);
      LowerCharKeepsSpace(t[|t| - 1]);
    }
    forall k | 0 <= k < |l|
      ensures LowerChar(l[k]) == l[k]
    {
      LowerCharKeepsSpace(t[k]);
    }
    NormalFormIsFixed(l);
  }

  /** Every stream URL is a URL; nothing without an http(s) scheme is a stream URL. */
  lemma StreamUrlIsUrl(s: string)
    ensures IsStreamUrl(s) ==> IsUrl(s)
  {
  }

  /** Empty or whitespace-only input is neither a URL, a stream URL nor a video link. */
  lemma BlankIsNothing(s: string)
    requires forall k | 0 <= k < |s| :: IsSpace(s[k])
    ensures !IsUrl(s) && !IsStreamUrl(s) && !IsYoutube(s)
  {
    assert Strip(s) == [];
    assert Normalize(s) == [];
    StreamUrlIsUrl(s);
  }

  /** The video-host test needs no http(s) scheme: a bare short link matches it. */
  lemma VideoLinkNeedsNoScheme()
    ensures IsYoutube("youtu.be/x") && !IsUrl("youtu.be/x")
  {
    var s := "youtu.be/x";
    StripOfTrimmed(s);
    assert MatchesIgnoringCaseAt(s, VideoHostFragments[1], 0);
    assert !PrefixIgnoringCase(s, "http://") by {
      assert LowerChar(s[0]) != 'h';
    }
  }

  /**
   * The regex flag matches `ſ` as `s` and `ı` as `i`, so a host spelled
   * with them is still a video link although `lower()` does not touch them.
   */
  lemma FoldedLettersStillMatch()
    ensures IsYoutube("mu\U{017F}\U{0131}c.youtube.com/")
  {
    var s := "mu\U{017F}\U{0131}c.youtube.com/";
    StripOfTrimmed(s);
    assert MatchesIgnoringCaseAt(s, VideoHostFragments[2], 0);
  }

  /** A query string after the extension does not stop a link from being a stream URL. */
  lemma ExtensionMatchedAnywhere()
    ensures IsStreamUrl("https://a.tv/x.mp3?t=1")
  {
    var s := "https://a.tv/x.mp3?t=1";
    NormalFormIsFixed(s);
    assert StartsWith(Normalize(s), "https://");
    assert OccursAt(Normalize(s), StreamExts[1], 14);
  }

  /** How `handle_play` sorts a query before acting on it. */
  datatype QueryKind =
    | EmptyQuery   // no text at all: usage hint
    | StreamLink   // a directly playable stream: queued and played
    | VideoLink    // a video-host link: only offered as a link
    | SearchTerms  // not a URL: only offered as a search
    | NotAStream   // a URL that is neither of the above: refused

  /** The branch `handle_play` takes for `query`, in the order `handle_play` tests them. */
  function Classify(query: string): (k: QueryKind)
    ensures k == EmptyQuery <==> query == ""
    ensures k == StreamLink <==> query != "" && IsStreamUrl(query)
    ensures k == StreamLink ==> IsUrl(query)
    ensures k == VideoLink ==> IsYoutube(query) && !IsStreamUrl(query)
    ensures k == SearchTerms ==> query != "" && !IsUrl(query) && !IsYoutube(query)
    ensures k == NotAStream ==> IsUrl(query) && !IsStreamUrl(query) && !IsYoutube(query)
  {
    StreamUrlIsUrl(query);
    if query == "" then EmptyQuery
    else if IsStreamUrl(query) then StreamLink
    else if IsYoutube(query) || !IsUrl(query) then
      (if IsYoutube(query) then VideoLink else SearchTerms)
    else NotAStream
  }
}
