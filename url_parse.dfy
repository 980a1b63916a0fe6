/** An approximation of the scheme/netloc split that Python's
    `urllib.parse.urlparse` performs, after the generic URI syntax of
    RFC 3986 (section 3.1 for the scheme, section 3.2 for the authority).
    Only the two components the long-URL validation reads are produced. */
module UrlParse {
  import opened Wrappers

  datatype SplitResult = SplitResult(scheme: string, netloc: string)

  /** Leading characters the library removes before parsing: C0 controls and space. */
  predicate IsC0ControlOrSpace(c: char) { c as int <= 0x20 }

  /** Characters the library deletes anywhere in the URL: TAB, CR and LF. */
  predicate IsUnsafe(c: char) { c == '\t' || c == '\r' || c == '\n' }

  predicate NoUnsafe(s: string) { forall i :: 0 <= i < |s| ==> !IsUnsafe(s[i]) }

  predicate IsAsciiAlpha(c: char) { 'a' <= c <= 'z' || 'A' <= c <= 'Z' }

  /** RFC 3986, section 3.1: ALPHA / DIGIT / "+" / "-" / ".". */
  predicate IsSchemeChar(c: char) {
    IsAsciiAlpha(c) || '0' <= c <= '9' || c == '+' || c == '-' || c == '.'
  }

  /** The characters that end the authority: "/", "?" and "#". */
  predicate IsAuthorityEnd(c: char) { c == '/' || c == '?' || c == '#' }

  function LowerChar(c: char): (d: char)
    ensures 'A' <= c <= 'Z' ==> 'a' <= d <= 'z'
    ensures !('A' <= c <= 'Z') ==> d == c
  {
    if 'A' <= c <= 'Z' then (c as int + 32) as char else c
  }

  /** ASCII lower-casing, character by character. */
  function Lower(s: string): (r: string)
    ensures |r| == |s|
    ensures forall i :: 0 <= i < |s| ==> r[i] == LowerChar(s[i])
  {
    if s == [] then [] else [LowerChar(s[0])] + Lower(s[1..])
  }

  /** Strips leading C0 controls and spaces. */
  function LStripControlOrSpace(s: string): (r: string)
    ensures |r| <= |s| && r == s[|s| - |r|..]
    ensures forall i :: 0 <= i < |s| - |r| ==> IsC0ControlOrSpace(s[i])
    ensures r != [] ==> !IsC0ControlOrSpace(r[0])
  {
    if s != [] && IsC0ControlOrSpace(s[0]) then LStripControlOrSpace(s[1..]) else s
  }

  /** Deletes every TAB, CR and LF, keeping the other characters in order. */
  function RemoveUnsafe(s: string): (r: string)
    ensures |r| <= |s|
    ensures NoUnsafe(r)
    ensures NoUnsafe(s) ==> r == s
    ensures forall i :: 0 <= i < |r| ==> r[i] in s
  {
    if s == [] then []
    else if IsUnsafe(s[0]) then RemoveUnsafe(s[1..])
    else [s[0]] + RemoveUnsafe(s[1..])
  }

  /** Deleting TAB, CR and LF works piece by piece: the deletions from a
      concatenation are the deletions from each part, in order. */
  lemma {:induction false} RemoveUnsafeConcat(a: string, b: string)
    ensures RemoveUnsafe(a + b) == RemoveUnsafe(a) + RemoveUnsafe(b)
  {
    if a == [] {
      assert a + b == b;
    } else {
      assert (a + b)[0] == a[0] && (a + b)[1..] == a[1..] + b;
      RemoveUnsafeConcat(a[1..], b);
    }
  }

  /** A single character is deleted exactly when it is TAB, CR or LF. */
  lemma RemoveUnsafeChar(c: char)
    ensures RemoveUnsafe([c]) == if IsUnsafe(c) then [] else [c]
  {
    assert [c][1..] == [];
  }

  /** A leading run of C0 controls and spaces is stripped away entirely. */
  lemma {:induction false} LStripOfControls(prefix: string, s: string)
    requires forall i :: 0 <= i < |prefix| ==> IsC0ControlOrSpace(prefix[i])
    ensures LStripControlOrSpace(prefix + s) == LStripControlOrSpace(s)
  {
    if prefix == [] {
      assert prefix + s == s;
    } else {
      assert (prefix + s)[0] == prefix[0] && (prefix + s)[1..] == prefix[1..] + s;
      LStripOfControls(prefix[1..], s);
    }
  }

  /** Once stripping stops inside `a`, whatever follows `a` is kept. */
  lemma {:induction false} LStripConcat(a: string, b: string)
    requires LStripControlOrSpace(a) != []
    ensures LStripControlOrSpace(a + b) == LStripControlOrSpace(a) + b
  {
    assert (a + b)[0] == a[0];
    if IsC0ControlOrSpace(a[0]) {
      assert (a + b)[1..] == a[1..] + b;
      LStripConcat(a[1..], b);
    }
  }

  /** The index of the first ':' in `s`, if any. */
  function FindColon(s: string): (r: Option<nat>)
    ensures r.Some? ==> r.value < |s| && s[r.value] == ':' &&
                        forall j :: 0 <= j < r.value ==> s[j] != ':'
    ensures r.None? <==> forall j :: 0 <= j < |s| ==> s[j] != ':'
  {
    if s == [] then None
    else if s[0] == ':' then Some(0)
    else match FindColon(s[1..])
      case None => None
      case Some(k) => Some(k + 1)
  }

  /** The length of the longest prefix of `s` free of "/", "?" and "#". */
  function AuthorityLength(s: string): (n: nat)
    ensures n <= |s|
    ensures forall j :: 0 <= j < n ==> !IsAuthorityEnd(s[j])
    ensures n < |s| ==> IsAuthorityEnd(s[n])
  {
    if s == [] || IsAuthorityEnd(s[0]) then 0 else 1 + AuthorityLength(s[1..])
  }

  predicate AllSchemeChars(s: string) {
    forall i :: 0 <= i < |s| ==> IsSchemeChar(s[i])
  }

  /** `url` opens with a scheme: the text before its first ':' is an ASCII
      letter followed by scheme characters. */
  predicate StartsWithScheme(url: string) {
    FindColon(url).Some? && FindColon(url).value > 0 && IsAsciiAlpha(url[0]) &&
    AllSchemeChars(url[..FindColon(url).value])
  }

  /** Splits off the scheme: the text before the first ':' when it is an ASCII
      letter followed by scheme characters; otherwise there is no scheme. */
  function SplitScheme(url: string): (r: (string, string))
    ensures r.0 != "" <==> StartsWithScheme(url)
    ensures StartsWithScheme(url) ==>
              r == (Lower(url[..FindColon(url).value]), url[FindColon(url).value + 1..])
    ensures !StartsWithScheme(url) ==> r == ("", url)
    ensures r.0 == "" ==> r.1 == url
    ensures NoUnsafe(url) ==> NoUnsafe(r.1)
    ensures r.0 != "" ==> IsAsciiAlpha(r.0[0])
    ensures forall i :: 0 <= i < |r.0| ==> IsSchemeChar(r.0[i]) && !('A' <= r.0[i] <= 'Z')
  {
    match FindColon(url)
    case Some(i) =>
      if i > 0 && IsAsciiAlpha(url[0]) && AllSchemeChars(url[..i]) then (Lower(url[..i]), url[i + 1..])
      else ("", url)
    case None => ("", url)
  }

  /** The authority that follows a leading "//", up to the first "/", "?" or
      "#"; empty when `rest` does not start with "//". */
  function SplitNetloc(rest: string): (netloc: string)
    ensures |rest| >= 2 && rest[..2] == "//" ==>
              2 + |netloc| <= |rest| && netloc == rest[2..2 + |netloc|] &&
              (2 + |netloc| < |rest| ==> IsAuthorityEnd(rest[2 + |netloc|]))
    ensures !(|rest| >= 2 && rest[..2] == "//") ==> netloc == ""
    ensures forall i :: 0 <= i < |netloc| ==> !IsAuthorityEnd(netloc[i])
    ensures NoUnsafe(rest) ==> NoUnsafe(netloc)
  {
    if |rest| >= 2 && rest[..2] == "//" then
      var after := rest[2..];
      after[..AuthorityLength(after)]
    else ""
  }

  /** The scheme and the netloc of `url`, as `urlparse` computes them. */
  function UrlSplit(url: string): (r: SplitResult)
    ensures r.scheme != "" ==> IsAsciiAlpha(r.scheme[0])
    ensures forall i :: 0 <= i < |r.scheme| ==> IsSchemeChar(r.scheme[i]) && !('A' <= r.scheme[i] <= 'Z')
    ensures forall i :: 0 <= i < |r.netloc| ==> !IsAuthorityEnd(r.netloc[i])
    ensures NoUnsafe(r.netloc)
  {
    var cleaned := RemoveUnsafe(LStripControlOrSpace(url));
    var split := SplitScheme(cleaned);
    SplitResult(split.0, SplitNetloc(split.1))
  }
}

/** What the split promises about its input, stated outside `UrlSplit` so
    that the callers that only need its shape do not carry it. */
module UrlParseFacts {
  import opened Wrappers
  import opened UrlParse

  /** Leading C0 controls and spaces do not change the split. */
  lemma UrlSplitIgnoresLeadingControls(prefix: string, url: string)
    requires forall i :: 0 <= i < |prefix| ==> IsC0ControlOrSpace(prefix[i])
    ensures UrlSplit(prefix + url) == UrlSplit(url)
  {
    LStripOfControls(prefix, url);
  }

  /** A TAB, CR or LF anywhere in the input does not change the split. */
  lemma UrlSplitIgnoresUnsafe(a: string, c: char, b: string)
    requires IsUnsafe(c)
    ensures UrlSplit(a + [c] + b) == UrlSplit(a + b)
  {
    assert a + [c] + b == a + ([c] + b);
    if LStripControlOrSpace(a) == [] {
      assert forall i :: 0 <= i < |a + [c]| ==> IsC0ControlOrSpace((a + [c])[i]);
      LStripOfControls(a + [c], b);
      LStripOfControls(a, b);
    } else {
      var head := LStripControlOrSpace(a);
      LStripConcat(a, [c] + b);
      LStripConcat(a, b);
      RemoveUnsafeConcat(head, [c] + b);
      RemoveUnsafeConcat([c], b);
      RemoveUnsafeChar(c);
      RemoveUnsafeConcat(head, b);
    }
  }

  /** On input that needs no cleaning, there is a scheme exactly when the
      text before the first ':' is a letter followed by scheme characters,
      and the scheme is that text lower-cased. */
  lemma UrlSplitSchemeOfClean(url: string)
    requires NoUnsafe(url) && (url == [] || !IsC0ControlOrSpace(url[0]))
    ensures UrlSplit(url).scheme != "" <==> StartsWithScheme(url)
    ensures StartsWithScheme(url) ==> UrlSplit(url).scheme == Lower(url[..FindColon(url).value])
  {
    assert LStripControlOrSpace(url) == url;
  }
}
