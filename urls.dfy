/** URL canonicalisation (utils.py, _normalize_url): keep the scheme, the
    network location and the path of a URL and drop its ;params, ?query and
    #fragment, by parsing with urllib.parse.urlparse and putting the first
    three parts back together with urlunparse. The parser is modelled on
    Python 3.12's urllib.parse for the grammar
    scheme://netloc/path;params?query#fragment. */
module Urls {
  import opened Text
  import opened Wrappers

  /** urllib.parse.scheme_chars. */
  predicate IsSchemeChar(c: char) {
    IsAsciiLetter(c) || IsDigit(c) || c == '+' || c == '-' || c == '.'
  }

  /** urllib.parse.uses_netloc: schemes whose URLs keep "//" before an empty netloc. */
  const UsesNetloc: set<string> := {"", "ftp", "http", "gopher", "nntp", "telnet", "imap", "wais",
    "file", "mms", "https", "shttp", "snews", "prospero", "rtsp", "rtsps", "rtspu", "rsync", "svn",
    "svn+ssh", "sftp", "nfs", "git", "git+ssh", "ws", "wss", "itms-services"}

  /** urllib.parse.uses_params: schemes whose last path segment may carry ;params. */
  const UsesParams: set<string> := {"", "ftp", "hdl", "prospero", "http", "imap", "https", "shttp",
    "rtsp", "rtsps", "rtspu", "sip", "sips", "mms", "sftp", "tel"}

  /** urllib.parse._WHATWG_C0_CONTROL_OR_SPACE. */
  predicate IsC0OrSpace(c: char) { c <= ' ' }

  /** No tab, carriage return or line feed (urllib.parse._UNSAFE_URL_BYTES_TO_REMOVE). */
  predicate NoUnsafe(s: string) { '\t' !in s && '\r' !in s && '\n' !in s }

  function LStripC0(s: string): (r: string)
    ensures |r| <= |s| && r == s[|s| - |r|..]
    ensures r == [] || !IsC0OrSpace(r[0])
  {
    if s != [] && IsC0OrSpace(s[0]) then LStripC0(s[1..]) else s
  }

  lemma {:induction false} RemoveAbsentChar(s: string, a: char)
    requires a !in s
    ensures RemoveChar(s, a) == s
  {
    if s != [] {
      RemoveAbsentChar(s[1..], a);
    }
  }

  /** The clean-up urlsplit does first: strip leading C0 controls and spaces,
      then delete every tab, carriage return and line feed. */
  function Sanitize(u: string): (r: string)
    ensures NoUnsafe(r)
    ensures r == [] || !IsC0OrSpace(r[0])
  {
    var s0 := LStripC0(u);
    var s1 := RemoveChar(s0, '\t');
    var s2 := RemoveChar(s1, '\r');
    RemoveChar(s2, '\n')
  }

  lemma SanitizeClean(u: string)
    requires NoUnsafe(u) && (u == [] || !IsC0OrSpace(u[0]))
    ensures Sanitize(u) == u
  {
    RemoveAbsentChar(u, '\t');
    RemoveAbsentChar(u, '\r');
    RemoveAbsentChar(u, '\n');
  }

  /** The scheme test of urlsplit: the text before the first ':' is non-empty,
      starts with an ASCII letter and holds only scheme characters. */
  predicate HasScheme(url: string) {
    var i := IndexOf(url, ':');
    0 < i < |url| && IsAsciiLetter(url[0]) && forall k :: 0 <= k < i ==> IsSchemeChar(url[k])
  }

  predicate StartsWithSlashes(s: string) { |s| >= 2 && s[0] == '/' && s[1] == '/' }

  predicate IsNetlocDelim(c: char) { c == '/' || c == '?' || c == '#' }

  /** _splitnetloc: the first '/', '?' or '#' (|s| when there is none). */
  function NetlocEnd(s: string): (i: nat)
    ensures i <= |s|
    ensures i < |s| ==> IsNetlocDelim(s[i])
    ensures forall k :: 0 <= k < i ==> !IsNetlocDelim(s[k])
  {
    if s == [] then 0 else if IsNetlocDelim(s[0]) then 0 else 1 + NetlocEnd(s[1..])
  }

  /** _splitparams: the path without its ;params. Python calls it only when
      the path holds a ';'. A ';' counts only when it is in the last segment
      (or when there is no '/'); the cut is at the first such ';'. */
  function SplitParams(url: string): (r: (string, string))
    requires ';' in url
    ensures |r.0| <= |url| && r.0 == url[..|r.0|]
  {
    if '/' in url then
      var slash := LastIndexOf(url, '/');
      var j := IndexOf(url[slash..], ';');
      if slash + j == |url| then (url, "") else (url[..slash + j], url[slash + j + 1..])
    else
      var i := IndexOf(url, ';');
      (url[..i], url[i + 1..])
  }

  /** A path from which _splitparams would cut nothing. */
  predicate ParamsFree(path: string) {
    ';' !in path || ('/' in path && ';' !in path[LastIndexOf(path, '/')..])
  }

  /** urlsplit's scheme step: (scheme, rest). The scheme is lower-cased. */
  function SplitScheme(url: string): (string, string) {
    if HasScheme(url) then (Lower(url[..IndexOf(url, ':')]), url[IndexOf(url, ':') + 1..]) else ("", url)
  }

  /** urlsplit's netloc step: after a leading "//", the netloc runs to the
      first '/', '?' or '#'. Answers (netloc, rest). */
  function SplitNetloc(s: string): (string, string) {
    if StartsWithSlashes(s) then (s[2..2 + NetlocEnd(s[2..])], s[2 + NetlocEnd(s[2..])..]) else ("", s)
  }

  /** The check urlsplit makes on the netloc before raising ValueError("Invalid IPv6 URL"). */
  predicate BracketsBalanced(netloc: string) { ('[' in netloc) == (']' in netloc) }

  /** The part of s after the first c ("" when there is none). */
  function After(s: string, c: char): string {
    if |Before(s, c)| < |s| then s[|Before(s, c)| + 1..] else ""
  }

  /** urlparse's params step, for the schemes that use params. */
  function CutParams(scheme: string, path: string): (string, string) {
    if scheme in UsesParams && ';' in path then SplitParams(path) else (path, "")
  }

  /** The rest of urlparse: fragment at the first '#', query at the first
      '?', then ;params. Answers (path, params, query, fragment). */
  function SplitPath(scheme: string, rest: string): (string, string, string, string) {
    var noFragment := Before(rest, '#');
    var split := CutParams(scheme, Before(noFragment, '?'));
    (split.0, split.1, After(noFragment, '?'), After(rest, '#'))
  }

  /** What urlparse returns. */
  datatype Parsed = Parsed(scheme: string, netloc: string, path: string,
                           params: string, query: string, fragment: string)

  /** urllib.parse.urlparse; None where it raises ValueError, which in this
      model happens when the netloc holds a '[' without a ']' or the reverse. */
  function UrlParse(u: string): Option<Parsed> {
    var (scheme, afterScheme) := SplitScheme(Sanitize(u));
    var (netloc, rest) := SplitNetloc(afterScheme);
    if !BracketsBalanced(netloc) then None
    else
      var (path, params, query, fragment) := SplitPath(scheme, rest);
      Some(Parsed(scheme, netloc, path, params, query, fragment))
  }

  /** urlunsplit without the scheme: where "//" + netloc goes. */
  function JoinNetloc(scheme: string, netloc: string, path: string): string {
    if netloc != "" then "//" + netloc + (if path != "" && path[0] != '/' then "/" + path else path)
    else if StartsWithSlashes(path) then "//" + path
    else if scheme != "" && scheme in UsesNetloc && (path == "" || path[0] == '/') then "//" + path
    else path
  }

  /** urllib.parse.urlunparse((scheme, netloc, path, "", "", "")), in the
      form urlunsplit has in Python 3.12.4 and later. */
  function UrlUnparse(scheme: string, netloc: string, path: string): string {
    var url := JoinNetloc(scheme, netloc, path);
    if scheme != "" then scheme + ":" + url else url
  }

  /** _normalize_url: "" for an empty input, the input itself when parsing
      raises, otherwise scheme, netloc and path put back together. */
  function NormalizeUrl(u: string): string {
    if u == "" then ""
    else match UrlParse(u)
      case None => u
      case Some(p) => UrlUnparse(p.scheme, p.netloc, p.path)
  }

  // ---------------------------------------------------------------------
  // Idempotence: the scheme, netloc and path urlparse yields form a
  // "canonical" triple, and a canonical triple survives urlunparse followed
  // by urlparse unchanged.

  predicate ValidScheme(s: string) {
    s == "" || (IsAsciiLetter(s[0]) && forall k :: 0 <= k < |s| ==> IsSchemeChar(s[k]) && !IsAsciiUpper(s[k]))
  }

  predicate NoNetlocDelim(netloc: string) {
    forall k :: 0 <= k < |netloc| ==> !IsNetlocDelim(netloc[k])
  }

  predicate Canonical(scheme: string, netloc: string, path: string) {
    && ValidScheme(scheme)
    && NoUnsafe(netloc) && NoNetlocDelim(netloc) && BracketsBalanced(netloc)
    && NoUnsafe(path) && '?' !in path && '#' !in path
    && (netloc != "" ==> path == "" || path[0] == '/')
    && (scheme in UsesParams ==> ParamsFree(path))
    && (scheme == "" ==> !HasScheme(path) && (path == "" || !IsC0OrSpace(path[0])))
  }

  lemma LowerIdentity(s: string)
    requires forall k :: 0 <= k < |s| ==> !IsAsciiUpper(s[k])
    ensures Lower(s) == s
  {
  }

  /** urlsplit's clean-up leaves the output of urlunparse alone. */
  lemma UnparseIsClean(scheme: string, netloc: string, path: string)
    requires Canonical(scheme, netloc, path)
    ensures Sanitize(UrlUnparse(scheme, netloc, path)) == UrlUnparse(scheme, netloc, path)
  {
    var out := UrlUnparse(scheme, netloc, path);
    var t := JoinNetloc(scheme, netloc, path);
    assert NoUnsafe(t);
    if scheme != "" {
      assert NoUnsafe(scheme) by {
        forall k | 0 <= k < |scheme| ensures scheme[k] != '\t' && scheme[k] != '\r' && scheme[k] != '\n' {
          assert IsSchemeChar(scheme[k]);
        }
      }
      assert out[0] == scheme[0];
    }
    SanitizeClean(out);
  }

  /** The scheme test finds exactly the scheme that was written out. */
  lemma UnparseSplitsScheme(scheme: string, netloc: string, path: string)
    requires Canonical(scheme, netloc, path)
    ensures SplitScheme(UrlUnparse(scheme, netloc, path)) == (scheme, JoinNetloc(scheme, netloc, path))
  {
    var out := UrlUnparse(scheme, netloc, path);
    var t := JoinNetloc(scheme, netloc, path);
    if scheme != "" {
      assert out == scheme + ":" + t;
      assert out[|scheme|] == ':';
      assert forall k :: 0 <= k < |scheme| ==> out[k] == scheme[k] && IsSchemeChar(scheme[k]);
      assert IndexOf(out, ':') == |scheme|;
      assert out[..|scheme|] == scheme;
      LowerIdentity(scheme);
    } else if StartsWithSlashes(t) {
      assert !IsAsciiLetter(out[0]);
    }
  }

  /** The netloc step finds exactly the netloc and path that were written out. */
  lemma JoinSplitsNetloc(scheme: string, netloc: string, path: string)
    requires Canonical(scheme, netloc, path)
    ensures SplitNetloc(JoinNetloc(scheme, netloc, path)) == (netloc, path)
  {
    var t := JoinNetloc(scheme, netloc, path);
    if netloc != "" {
      assert t == "//" + netloc + path;
      assert t[2..] == netloc + path;
      NetlocEndOfJoin(netloc, path);
    } else if StartsWithSlashes(path) || (scheme != "" && scheme in UsesNetloc && (path == "" || path[0] == '/')) {
      assert t == "//" + path;
      assert t[2..] == path;
      assert NetlocEnd(t[2..]) == 0;
      assert t[2..2] == "";
    } else {
      assert t == path;
    }
  }

  lemma NetlocEndOfJoin(netloc: string, path: string)
    requires NoNetlocDelim(netloc)
    requires path == "" || path[0] == '/'
    ensures NetlocEnd(netloc + path) == |netloc|
  {
    var s := netloc + path;
    assert forall k :: 0 <= k < |netloc| ==> s[k] == netloc[k];
    assert path != "" ==> s[|netloc|] == path[0];
  }

  /** Cutting at '#' and '?' and at ;params leaves a canonical path alone. */
  lemma SplitPathOfCanonical(scheme: string, netloc: string, path: string)
    requires Canonical(scheme, netloc, path)
    ensures SplitPath(scheme, path) == (path, "", "", "")
  {
    assert Before(path, '#') == path;
    assert Before(path, '?') == path;
    if scheme in UsesParams && ';' in path {
      assert '/' in path;
      var slash := LastIndexOf(path, '/');
      assert ';' !in path[slash..];
      assert IndexOf(path[slash..], ';') == |path| - slash;
    }
  }

  /** A canonical triple survives urlunparse followed by urlparse. */
  lemma UnparseThenParse(scheme: string, netloc: string, path: string)
    requires Canonical(scheme, netloc, path)
    ensures UrlParse(UrlUnparse(scheme, netloc, path)) == Some(Parsed(scheme, netloc, path, "", "", ""))
  {
    UnparseIsClean(scheme, netloc, path);
    UnparseSplitsScheme(scheme, netloc, path);
    JoinSplitsNetloc(scheme, netloc, path);
    SplitPathOfCanonical(scheme, netloc, path);
  }

  /** A prefix of a string with no scheme has no scheme either. */
  lemma NoSchemePrefix(s: string, n: nat)
    requires n <= |s| && !HasScheme(s)
    ensures !HasScheme(s[..n])
  {
    var p := s[..n];
    var j := IndexOf(p, ':');
    if j < |p| {
      assert forall k :: 0 <= k <= j ==> p[k] == s[k];
      assert IndexOf(s, ':') == j;
    }
  }

  lemma SplitParamsIsFree(url: string)
    requires ';' in url
    ensures ParamsFree(SplitParams(url).0)
    ensures url[0] == '/' ==> SplitParams(url).0 != "" && SplitParams(url).0[0] == '/'
  {
    var r := SplitParams(url).0;
    if '/' in url {
      var slash := LastIndexOf(url, '/');
      var j := IndexOf(url[slash..], ';');
      if slash + j < |url| {
        assert url[slash] == '/';
        assert r == url[..slash + j];
        assert r[slash] == '/';
        assert forall k :: slash < k < |r| ==> r[k] == url[k];
        assert LastIndexOf(r, '/') == slash;
        assert r[slash..] == url[slash..][..j];
      }
    }
  }

  lemma SplitSchemeIsValid(url: string)
    ensures ValidScheme(SplitScheme(url).0)
    ensures NoUnsafe(url) ==> NoUnsafe(SplitScheme(url).1)
    ensures SplitScheme(url).0 == "" ==> SplitScheme(url).1 == url
  {
    if HasScheme(url) {
      var i := IndexOf(url, ':');
      var s := Lower(url[..i]);
      forall k | 0 <= k < |s| ensures IsSchemeChar(s[k]) && !IsAsciiUpper(s[k]) {
        assert IsSchemeChar(url[k]);
      }
      var rest := url[i + 1..];
      assert forall c :: c in rest ==> c in url;
    }
  }

  lemma SplitNetlocShape(s: string)
    ensures var (netloc, rest) := SplitNetloc(s);
      && NoNetlocDelim(netloc)
      && (NoUnsafe(s) ==> NoUnsafe(netloc) && NoUnsafe(rest))
      && (StartsWithSlashes(s) ==> rest == [] || IsNetlocDelim(rest[0]))
      && (!StartsWithSlashes(s) ==> netloc == "" && rest == s)
  {
    if StartsWithSlashes(s) {
      var e := NetlocEnd(s[2..]);
      assert forall c :: c in s[2..2 + e] ==> c in s;
      assert forall c :: c in s[2 + e..] ==> c in s;
      assert s[2..2 + e] == s[2..][..e];
    }
  }

  lemma SplitPathShape(scheme: string, rest: string)
    ensures var path := SplitPath(scheme, rest).0;
      && |path| <= |rest| && path == rest[..|path|]
      && (NoUnsafe(rest) ==> NoUnsafe(path))
      && '?' !in path && '#' !in path
      && (scheme in UsesParams ==> ParamsFree(path))
      && (rest != [] && IsNetlocDelim(rest[0]) ==> path == "" || path[0] == '/')
  {
    var noFragment := Before(rest, '#');
    var noQuery := Before(noFragment, '?');
    var path := SplitPath(scheme, rest).0;
    assert noQuery == rest[..|noQuery|];
    if scheme in UsesParams && ';' in noQuery {
      SplitParamsIsFree(noQuery);
    }
    assert path == noQuery[..|path|];
    assert forall c :: c in path ==> c in rest;
  }

  /** Whatever urlparse yields, its scheme, netloc and path form a canonical triple. */
  lemma ParseIsCanonical(u: string)
    requires UrlParse(u).Some?
    ensures var p := UrlParse(u).value; Canonical(p.scheme, p.netloc, p.path)
  {
    var url := Sanitize(u);
    var (scheme, afterScheme) := SplitScheme(url);
    var (netloc, rest) := SplitNetloc(afterScheme);
    assert BracketsBalanced(netloc);
    SplitsAreCanonical(url);
  }

  /** The parts urlparse cuts from a sanitised URL whose brackets balance. */
  lemma SplitsAreCanonical(url: string)
    requires NoUnsafe(url) && (url == [] || !IsC0OrSpace(url[0]))
    requires BracketsBalanced(SplitNetloc(SplitScheme(url).1).0)
    ensures var (scheme, afterScheme) := SplitScheme(url);
            var (netloc, rest) := SplitNetloc(afterScheme);
            Canonical(scheme, netloc, SplitPath(scheme, rest).0)
  {
    var (scheme, afterScheme) := SplitScheme(url);
    var (netloc, rest) := SplitNetloc(afterScheme);
    var path := SplitPath(scheme, rest).0;
    SplitSchemeIsValid(url);
    SplitNetlocShape(afterScheme);
    SplitPathShape(scheme, rest);
    if scheme == "" && !StartsWithSlashes(afterScheme) {
      NoSchemePrefix(url, |path|);
    }
  }

  /** Normalising a normalised URL changes nothing. */
  lemma NormalizeIdempotent(u: string)
    ensures NormalizeUrl(NormalizeUrl(u)) == NormalizeUrl(u)
  {
    if u != "" && UrlParse(u).Some? {
      var p := UrlParse(u).value;
      ParseIsCanonical(u);
      UnparseThenParse(p.scheme, p.netloc, p.path);
    }
  }

  /** The three outcomes of normalising: "" stays "", a URL urlparse
      rejects comes back unchanged, and any other result has lost its
      ?query and #fragment. */
  lemma NormalizeCases(u: string)
    ensures u == "" ==> NormalizeUrl(u) == ""
    ensures u != "" && UrlParse(u).None? ==> NormalizeUrl(u) == u
    ensures u != "" && UrlParse(u).Some? ==> '?' !in NormalizeUrl(u) && '#' !in NormalizeUrl(u)
  {
    if u != "" && UrlParse(u).Some? {
      var p := UrlParse(u).value;
      ParseIsCanonical(u);
      UnparseHasNoQuery(p.scheme, p.netloc, p.path);
    }
  }

  /** urlunparse of a canonical triple writes no '?' and no '#'. */
  lemma UnparseHasNoQuery(scheme: string, netloc: string, path: string)
    requires Canonical(scheme, netloc, path)
    ensures '?' !in UrlUnparse(scheme, netloc, path) && '#' !in UrlUnparse(scheme, netloc, path)
  {
    forall k | 0 <= k < |scheme| ensures scheme[k] != '?' && scheme[k] != '#' {
      assert IsSchemeChar(scheme[k]);
    }
    assert '?' !in netloc && '#' !in netloc by {
      forall k | 0 <= k < |netloc| ensures netloc[k] != '?' && netloc[k] != '#' {
        assert !IsNetlocDelim(netloc[k]);
      }
    }
    var t := JoinNetloc(scheme, netloc, path);
    assert '?' !in t && '#' !in t;
  }

  // ---------------------------------------------------------------------
  // What normalising keeps and drops, for URLs of the form
  // scheme://netloc/path;params?query#fragment.

  /** The optional piece "<sep>text" of a URL. */
  function Piece(sep: char, text: Option<string>): string {
    if text.Some? then [sep] + text.value else ""
  }

  /** Scheme, netloc and path are kept (the scheme lower-cased); ;params,
      ?query and #fragment are dropped. */
  lemma {:induction false} NormalizeDropsExtras(scheme: string, netloc: string, path: string,
      params: Option<string>, query: Option<string>, fragment: Option<string>)
    requires scheme != "" && IsAsciiLetter(scheme[0]) && forall k :: 0 <= k < |scheme| ==> IsSchemeChar(scheme[k])
    requires netloc != "" && NoNetlocDelim(netloc) && NoUnsafe(netloc) && BracketsBalanced(netloc)
    requires (path == "" || path[0] == '/') && NoUnsafe(path) && ';' !in path && '?' !in path && '#' !in path
    requires params.Some? ==>
      (path != "" && Lower(scheme) in UsesParams && NoUnsafe(params.value) && '/' !in params.value && '?' !in params.value && '#' !in params.value)
    requires query.Some? ==> NoUnsafe(query.value) && '#' !in query.value
    requires fragment.Some? ==> NoUnsafe(fragment.value)
    ensures NormalizeUrl(scheme + "://" + netloc + (path + Piece(';', params) + Piece('?', query) + Piece('#', fragment)))
      == Lower(scheme) + "://" + netloc + path
  {
    var rest := path + Piece(';', params) + Piece('?', query) + Piece('#', fragment);
    RestShape(path, params, query, fragment);
    Regroup(scheme, netloc, rest);
    PathOfGrammar(Lower(scheme), path, params, query, fragment);
    ParseOfGrammar(scheme, netloc, rest);
    NormalizeOfParts(scheme + ":" + ("//" + netloc + rest), Lower(scheme), netloc, path);
  }

  /** urlunparse of a parse with a scheme and a netloc, and a path that is empty or absolute. */
  lemma {:induction false} NormalizeOfParts(u: string, scheme: string, netloc: string, path: string)
    requires u != "" && UrlParse(u).Some?
    requires UrlParse(u).value.scheme == scheme && UrlParse(u).value.netloc == netloc && UrlParse(u).value.path == path
    requires scheme != "" && netloc != "" && (path == "" || path[0] == '/')
    ensures NormalizeUrl(u) == scheme + "://" + netloc + path
  {
    assert NormalizeUrl(u) == UrlUnparse(scheme, netloc, path);
    assert JoinNetloc(scheme, netloc, path) == "//" + netloc + path;
    Regroup(scheme, netloc, path);
  }

  /** The text after the netloc starts with a delimiter and holds no tab or line break. */
  lemma {:induction false} RestShape(path: string, params: Option<string>, query: Option<string>, fragment: Option<string>)
    requires (path == "" || path[0] == '/') && NoUnsafe(path)
    requires params.Some? ==> path != "" && NoUnsafe(params.value)
    requires query.Some? ==> NoUnsafe(query.value)
    requires fragment.Some? ==> NoUnsafe(fragment.value)
    ensures var rest := path + Piece(';', params) + Piece('?', query) + Piece('#', fragment);
      NoUnsafe(rest) && (rest == [] || IsNetlocDelim(rest[0]))
  {
  }

  lemma {:induction false} Regroup(scheme: string, netloc: string, rest: string)
    ensures scheme + "://" + netloc + rest == scheme + ":" + ("//" + netloc + rest)
  {
  }

  /** urlparse on scheme://netloc<rest>, where rest starts with a delimiter. */
  lemma {:induction false} ParseOfGrammar(scheme: string, netloc: string, rest: string)
    requires scheme != "" && IsAsciiLetter(scheme[0]) && forall k :: 0 <= k < |scheme| ==> IsSchemeChar(scheme[k])
    requires netloc != "" && NoNetlocDelim(netloc) && NoUnsafe(netloc) && BracketsBalanced(netloc)
    requires NoUnsafe(rest) && (rest == [] || IsNetlocDelim(rest[0]))
    ensures UrlParse(scheme + ":" + ("//" + netloc + rest)).Some?
    ensures var p := UrlParse(scheme + ":" + ("//" + netloc + rest)).value;
      p.scheme == Lower(scheme) && p.netloc == netloc && p.path == SplitPath(Lower(scheme), rest).0
  {
    var tail := "//" + netloc + rest;
    var u := scheme + ":" + tail;
    assert Sanitize(u) == u by {
      assert NoUnsafe(tail);
      GrammarIsClean(scheme, tail);
    }
    assert SplitScheme(u) == (Lower(scheme), tail) by {
      SchemeOfGrammar(scheme, tail);
    }
    assert SplitNetloc(tail) == (netloc, rest) by {
      NetlocOfGrammar(netloc, rest);
    }
    ParseSteps(u, Lower(scheme), tail, netloc, rest);
  }

  /** urlparse in terms of its three steps. */
  lemma ParseSteps(u: string, scheme: string, tail: string, netloc: string, rest: string)
    requires Sanitize(u) == u && SplitScheme(u) == (scheme, tail) && SplitNetloc(tail) == (netloc, rest)
    requires BracketsBalanced(netloc)
    ensures UrlParse(u).Some?
    ensures UrlParse(u).value.scheme == scheme && UrlParse(u).value.netloc == netloc
    ensures UrlParse(u).value.path == SplitPath(scheme, rest).0
  {
  }

  lemma GrammarIsClean(scheme: string, tail: string)
    requires scheme != "" && IsAsciiLetter(scheme[0]) && forall k :: 0 <= k < |scheme| ==> IsSchemeChar(scheme[k])
    requires NoUnsafe(tail)
    ensures Sanitize(scheme + ":" + tail) == scheme + ":" + tail
  {
    var u := scheme + ":" + tail;
    assert NoUnsafe(scheme) by {
      forall k | 0 <= k < |scheme| ensures scheme[k] != '\t' && scheme[k] != '\r' && scheme[k] != '\n' {
        assert IsSchemeChar(scheme[k]);
      }
    }
    assert NoUnsafe(u);
    assert u[0] == scheme[0];
    SanitizeClean(u);
  }

  lemma SchemeOfGrammar(scheme: string, tail: string)
    requires scheme != "" && IsAsciiLetter(scheme[0]) && forall k :: 0 <= k < |scheme| ==> IsSchemeChar(scheme[k])
    ensures SplitScheme(scheme + ":" + tail) == (Lower(scheme), tail)
  {
    var u := scheme + ":" + tail;
    ColonAfterScheme(scheme, tail);
    assert u[0] == scheme[0];
    assert forall k :: 0 <= k < |scheme| ==> IsSchemeChar(u[k]);
    assert HasScheme(u);
  }

  lemma ColonAfterScheme(scheme: string, tail: string)
    requires forall k :: 0 <= k < |scheme| ==> IsSchemeChar(scheme[k])
    ensures var u := scheme + ":" + tail;
      IndexOf(u, ':') == |scheme| && u[..|scheme|] == scheme && u[|scheme| + 1..] == tail
  {
    var u := scheme + ":" + tail;
    assert forall k :: 0 <= k < |scheme| ==> u[k] == scheme[k] && IsSchemeChar(u[k]);
    assert u[|scheme|] == ':';
  }

  lemma NetlocOfGrammar(netloc: string, rest: string)
    requires NoNetlocDelim(netloc) && NoUnsafe(netloc)
    requires rest == [] || IsNetlocDelim(rest[0])
    ensures SplitNetloc("//" + netloc + rest) == (netloc, rest)
  {
    var t := "//" + netloc + rest;
    assert t[2..] == netloc + rest;
    NetlocEndBeforeRest(netloc, rest);
  }

  lemma PathOfGrammar(scheme: string, path: string,
      params: Option<string>, query: Option<string>, fragment: Option<string>)
    requires (path == "" || path[0] == '/') && NoUnsafe(path) && ';' !in path && '?' !in path && '#' !in path
    requires params.Some? ==>
      (path != "" && scheme in UsesParams && NoUnsafe(params.value) && '/' !in params.value && '?' !in params.value && '#' !in params.value)
    requires query.Some? ==> NoUnsafe(query.value) && '#' !in query.value
    ensures SplitPath(scheme, path + Piece(';', params) + Piece('?', query) + Piece('#', fragment)).0 == path
  {
    var pp := path + Piece(';', params);
    var pq := pp + Piece('?', query);
    var rest := pq + Piece('#', fragment);
    assert '?' !in pp && '#' !in pp;
    assert '#' !in pq;
    BeforeAt(pq, Piece('#', fragment), '#');
    BeforeAt(pp, Piece('?', query), '?');
    assert Before(Before(rest, '#'), '?') == pp;
    if params.Some? {
      ParamsCut(path, params.value);
      assert CutParams(scheme, pp) == SplitParams(pp);
    } else {
      assert pp == path;
    }
    assert CutParams(scheme, pp).0 == path;
  }

  lemma NetlocEndBeforeRest(netloc: string, rest: string)
    requires NoNetlocDelim(netloc) && NoUnsafe(netloc)
    requires rest == [] || IsNetlocDelim(rest[0])
    ensures NetlocEnd(netloc + rest) == |netloc|
  {
    var s := netloc + rest;
    assert forall k :: 0 <= k < |netloc| ==> s[k] == netloc[k] && !IsNetlocDelim(s[k]);
    assert rest != [] ==> s[|netloc|] == rest[0];
  }

  lemma BeforeAt(a: string, b: string, c: char)
    requires c !in a
    requires b == [] || b[0] == c
    ensures Before(a + b, c) == a
  {
    var s := a + b;
    assert forall k :: 0 <= k < |a| ==> s[k] == a[k];
    assert b != [] ==> s[|a|] == c;
    assert IndexOf(s, c) == |a|;
  }

  lemma ParamsCut(path: string, params: string)
    requires path != "" && path[0] == '/' && ';' !in path
    requires '/' !in params
    ensures ';' in path + Piece(';', Some(params)) && SplitParams(path + Piece(';', Some(params))).0 == path
  {
    var url := path + [';'] + params;
    assert url == path + Piece(';', Some(params));
    assert url[|path|] == ';';
    var slash := LastIndexOf(url, '/');
    assert url[0] == '/';
    assert forall k :: |path| < k < |url| ==> url[k] == params[k - |path| - 1];
    assert slash < |path|;
    assert url[slash..][|path| - slash] == ';';
    assert forall k :: slash <= k < |path| ==> url[k] == path[k];
    assert IndexOf(url[slash..], ';') == |path| - slash;
  }
}
