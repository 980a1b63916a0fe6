/** The long-URL value object: a string that passed the ordered chain of
    validation guards (empty, too long, no scheme, no domain, scheme not
    http/https). The source always validates on construction; in the model
    validity is the predicate `IsValid()`, required where it is relied on. */
module LongURLValue {
  import opened Wrappers
  import opened Exceptions
  import opened UrlParse

  const MAX_URL_LENGTH: nat := 2048

  /** Python's `str.isspace`: the code points `str.strip()` removes. */
  predicate IsSpace(c: char) {
    var n := c as int;
    (0x09 <= n <= 0x0D) || (0x1C <= n <= 0x20) || n == 0x85 || n == 0xA0 || n == 0x1680 ||
    (0x2000 <= n <= 0x200A) || n == 0x2028 || n == 0x2029 || n == 0x202F || n == 0x205F || n == 0x3000
  }

  /** `not s or not s.strip()`: empty, or whitespace only. */
  predicate IsBlank(s: string) {
    s == [] || (IsSpace(s[0]) && IsBlank(s[1..]))
  }

  /** Blank means every character is whitespace, the empty string included. */
  lemma {:induction false} IsBlankMeaning(s: string)
    ensures IsBlank(s) <==> forall i :: 0 <= i < |s| ==> IsSpace(s[i])
  {
    if s != [] {
      IsBlankMeaning(s[1..]);
      assert forall i :: 1 <= i < |s| ==> s[1..][i - 1] == s[i];
    }
  }

  predicate IsAllowedScheme(scheme: string) {
    scheme == "http" || scheme == "https"
  }

  /** The first two guards pass: the value is not blank and not too long. */
  predicate WithinLimits(value: string) {
    !IsBlank(value) && |value| <= MAX_URL_LENGTH
  }

  /** The validation guards, run in order; the first one that fails decides
      the error. */
  function Validate(value: string): (r: Outcome<Error>)
    ensures IsBlank(value) ==> r == Fail(EmptyURLError)
    ensures !IsBlank(value) && |value| > MAX_URL_LENGTH ==>
              r == Fail(URLTooLongError(|value|, MAX_URL_LENGTH))
    ensures (r.Fail? && r.error.URLTooLongError?) <==> !IsBlank(value) && |value| > MAX_URL_LENGTH
    ensures WithinLimits(value) && UrlSplit(value).scheme == "" ==>
              r == Fail(InvalidURLError(value, MissingScheme))
    ensures WithinLimits(value) && UrlSplit(value).scheme != "" && IsBlank(UrlSplit(value).netloc) ==>
              r == Fail(InvalidURLError(value, MissingDomain))
    ensures WithinLimits(value) && UrlSplit(value).scheme != "" && !IsBlank(UrlSplit(value).netloc) &&
            !IsAllowedScheme(UrlSplit(value).scheme) ==>
              r == Fail(InvalidURLError(value, UnsupportedScheme(UrlSplit(value).scheme)))
    ensures r == Pass <==>
              WithinLimits(value) && IsAllowedScheme(UrlSplit(value).scheme) && !IsBlank(UrlSplit(value).netloc)
  {
    if IsBlank(value) then Fail(EmptyURLError)
    else if |value| > MAX_URL_LENGTH then Fail(URLTooLongError(|value|, MAX_URL_LENGTH))
    else
      var parsed := UrlSplit(value);
      if parsed.scheme == "" then Fail(InvalidURLError(value, MissingScheme))
      else if IsBlank(parsed.netloc) then Fail(InvalidURLError(value, MissingDomain))
      else if !IsAllowedScheme(parsed.scheme) then Fail(InvalidURLError(value, UnsupportedScheme(parsed.scheme)))
      else Pass
  }

  /** The value object. In the source every one is built through validation;
      the model's datatype can hold any string, and `IsValid` names the
      validity the source guarantees wherever the model relies on it. */
  datatype LongURLValueObject = LongURLValueObject(value: string)
  {
    predicate IsValid() { Validate(value).Pass? }
  }

  /** Construction: runs the validation and either raises its error or
      holds the input unchanged. */
  function NewLongURL(value: string): (r: Result<LongURLValueObject, Error>)
    ensures r.Success? <==> Validate(value).Pass?
    ensures r.Success? ==> r.value.value == value && r.value.IsValid()
    ensures r.Failure? ==> Validate(value) == Fail(r.error)
  {
    if Validate(value).Pass? then Success(LongURLValueObject(value)) else Failure(Validate(value).error)
  }

  /** The plain string; constructing a value object from it again gives the
      same value object. */
  function AsGenericType(v: LongURLValueObject): (s: string)
    ensures v.IsValid() ==> NewLongURL(s) == Success(v)
  {
    v.value
  }

  lemma CleanedIsUnchanged(url: string)
    requires url != [] && IsAsciiAlpha(url[0]) && NoUnsafe(url)
    ensures RemoveUnsafe(LStripControlOrSpace(url)) == url
  {
    assert LStripControlOrSpace(url) == url;
  }

  lemma FindColonAfter(prefix: string, rest: string)
    requires forall j :: 0 <= j < |prefix| ==> prefix[j] != ':'
    requires rest != [] && rest[0] == ':'
    ensures FindColon(prefix + rest) == Some(|prefix|)
  {
    var s := prefix + rest;
    assert s[|prefix|] == ':';
    assert forall j :: 0 <= j < |prefix| ==> s[j] == prefix[j];
  }

  /** A scheme followed by ':' is split off and lower-cased. */
  lemma SplitSchemeOf(scheme: string, rest: string)
    requires scheme != [] && IsAsciiAlpha(scheme[0]) && AllSchemeChars(scheme)
    ensures SplitScheme(scheme + [':'] + rest) == (Lower(scheme), rest)
  {
    var url := scheme + ([':'] + rest);
    assert url == scheme + [':'] + rest;
    FindColonAfter(scheme, [':'] + rest);
    assert url[..|scheme|] == scheme;
    assert url[|scheme| + 1..] == rest;
  }

  /** The authority after "//" runs up to the first "/", "?" or "#". */
  lemma SplitNetlocOf(host: string, tail: string)
    requires forall i :: 0 <= i < |host| ==> !IsAuthorityEnd(host[i])
    requires tail == [] || IsAuthorityEnd(tail[0])
    ensures SplitNetloc("//" + host + tail) == host
  {
    var rest := "//" + host + tail;
    var after := host + tail;
    assert rest[..2] == "//" && rest[2..] == after;
    AuthorityLengthOf(host, tail);
    assert after[..|host|] == host;
  }

  lemma {:induction false} AuthorityLengthOf(host: string, tail: string)
    requires forall i :: 0 <= i < |host| ==> !IsAuthorityEnd(host[i])
    requires tail == [] || IsAuthorityEnd(tail[0])
    ensures AuthorityLength(host + tail) == |host|
  {
    if host == [] {
      assert host + tail == tail;
    } else {
      assert (host + tail)[1..] == host[1..] + tail;
      AuthorityLengthOf(host[1..], tail);
    }
  }

  lemma NoUnsafeAbsolute(scheme: string, host: string, tail: string)
    requires AllSchemeChars(scheme) && NoUnsafe(host) && NoUnsafe(tail)
    ensures NoUnsafe(scheme + "://" + host + tail)
  {
    var url := scheme + "://" + host + tail;
    forall i | 0 <= i < |url| ensures !IsUnsafe(url[i]) {
      if i < |scheme| { assert url[i] == scheme[i]; }
      else if i < |scheme| + 3 { }
      else if i < |scheme| + 3 + |host| { assert url[i] == host[i - |scheme| - 3]; }
      else { assert url[i] == tail[i - |scheme| - 3 - |host|]; }
    }
  }

  /** A URL written `scheme://host` followed by a path, query or fragment
      splits into the lower-cased scheme and exactly the host. */
  lemma SplitOfAbsoluteURL(scheme: string, host: string, tail: string)
    requires scheme != [] && IsAsciiAlpha(scheme[0]) && AllSchemeChars(scheme)
    requires forall i :: 0 <= i < |host| ==> !IsAuthorityEnd(host[i])
    requires tail == [] || IsAuthorityEnd(tail[0])
    requires NoUnsafe(host) && NoUnsafe(tail)
    ensures UrlSplit(scheme + "://" + host + tail) == SplitResult(Lower(scheme), host)
  {
    var rest := "//" + host + tail;
    var url := scheme + [':'] + rest;
    AbsoluteConcat(scheme, host, tail);
    NoUnsafeAbsolute(scheme, host, tail);
    CleanedIsUnchanged(url);
    UrlSplitOfClean(url);
    SplitSchemeOf(scheme, rest);
    SplitNetlocOf(host, tail);
  }

  lemma AbsoluteConcat(scheme: string, host: string, tail: string)
    requires scheme != []
    ensures scheme + [':'] + ("//" + host + tail) == scheme + "://" + host + tail
    ensures (scheme + [':'] + ("//" + host + tail))[0] == scheme[0]
  {
  }

  /** On a URL that needs no cleaning, the split is the scheme split followed
      by the netloc split. */
  lemma UrlSplitOfClean(url: string)
    requires RemoveUnsafe(LStripControlOrSpace(url)) == url
    ensures UrlSplit(url) == SplitResult(SplitScheme(url).0, SplitNetloc(SplitScheme(url).1))
  {
  }

  lemma AlphaIsNotSpace(c: char)
    requires IsAsciiAlpha(c)
    ensures !IsSpace(c)
  {
  }

  /** What validation decides for `scheme://host...` within the length limit. */
  lemma ValidateAbsoluteURL(url: string, scheme: string, host: string, tail: string)
    requires url == scheme + "://" + host + tail && |url| <= MAX_URL_LENGTH
    requires scheme != [] && IsAsciiAlpha(scheme[0]) && AllSchemeChars(scheme)
    requires forall i :: 0 <= i < |host| ==> !IsAuthorityEnd(host[i])
    requires tail == [] || IsAuthorityEnd(tail[0])
    requires NoUnsafe(host) && NoUnsafe(tail)
    ensures IsBlank(host) ==> Validate(url) == Fail(InvalidURLError(url, MissingDomain))
    ensures !IsBlank(host) && !IsAllowedScheme(Lower(scheme)) ==>
              Validate(url) == Fail(InvalidURLError(url, UnsupportedScheme(Lower(scheme))))
    ensures !IsBlank(host) && IsAllowedScheme(Lower(scheme)) ==> Validate(url) == Pass
  {
    SplitOfAbsoluteURL(scheme, host, tail);
    assert url[0] == scheme[0];
    AlphaIsNotSpace(url[0]);
  }

  /** Without a ':' there is no scheme. */
  lemma NoColonNoScheme(url: string)
    requires ':' !in url
    ensures UrlSplit(url).scheme == ""
  {
    var cleaned := RemoveUnsafe(LStripControlOrSpace(url));
    assert ':' !in LStripControlOrSpace(url);
    assert ':' !in cleaned;
    assert FindColon(cleaned) == None;
  }

  predicate IsLowerAlpha(c: char) { 'a' <= c <= 'z' }

  /** A scheme written in lower-case letters is a scheme that lower-casing
      leaves alone. */
  lemma LowercaseScheme(scheme: string)
    requires forall i :: 0 <= i < |scheme| ==> IsLowerAlpha(scheme[i])
    ensures AllSchemeChars(scheme) && Lower(scheme) == scheme
  {
  }

  predicate IsPlainHostChar(c: char) { IsLowerAlpha(c) || ('0' <= c <= '9') || c == '.' || c == '-' }

  /** A host name of letters, digits, dots and dashes contains no delimiter. */
  lemma PlainHost(host: string)
    requires forall i :: 0 <= i < |host| ==> IsPlainHostChar(host[i])
    ensures forall i :: 0 <= i < |host| ==> !IsAuthorityEnd(host[i])
    ensures NoUnsafe(host)
  {
  }

  /** The host of the examples below is a non-blank plain host name. */
  lemma ExampleHost()
    ensures forall i :: 0 <= i < |"example.com"| ==> !IsAuthorityEnd("example.com"[i])
    ensures NoUnsafe("example.com") && !IsBlank("example.com")
  {
    PlainHost("example.com");
    AlphaIsNotSpace('e');
  }

  /** An https URL with a path is valid. */
  lemma ExamplePageIsValid()
    ensures Validate("https" + "://" + "example.com" + "/page") == Pass
  {
    LowercaseScheme("https");
    ExampleHost();
    ValidateAbsoluteURL("https" + "://" + "example.com" + "/page", "https", "example.com", "/page");
  }

  /** An ftp URL is rejected for its scheme, and the error names it. */
  lemma FtpIsRejected()
    ensures Validate("ftp" + "://" + "example.com") ==
              Fail(InvalidURLError("ftp" + "://" + "example.com", UnsupportedScheme("ftp")))
  {
    var scheme, host := "ftp", "example.com";
    LowercaseScheme(scheme);
    ExampleHost();
    assert scheme + "://" + host + "" == scheme + "://" + host;
    UnsupportedSchemeIsRejected(scheme + "://" + host, scheme, host, "");
  }

  /** A letter-led lower-case scheme other than http and https is rejected
      by name once the host is present. */
  lemma UnsupportedSchemeIsRejected(url: string, scheme: string, host: string, tail: string)
    requires url == scheme + "://" + host + tail && |url| <= MAX_URL_LENGTH
    requires scheme != [] && IsAsciiAlpha(scheme[0]) && AllSchemeChars(scheme) && Lower(scheme) == scheme
    requires !IsAllowedScheme(scheme)
    requires forall i :: 0 <= i < |host| ==> !IsAuthorityEnd(host[i])
    requires tail == [] || IsAuthorityEnd(tail[0])
    requires NoUnsafe(host) && NoUnsafe(tail) && !IsBlank(host)
    ensures Validate(url) == Fail(InvalidURLError(url, UnsupportedScheme(scheme)))
  {
    ValidateAbsoluteURL(url, scheme, host, tail);
  }

  /** A value within the limits and without a ':' has no scheme. */
  lemma NoColonIsRejected(url: string)
    requires WithinLimits(url) && ':' !in url
    ensures Validate(url) == Fail(InvalidURLError(url, MissingScheme))
  {
    NoColonNoScheme(url);
  }

  /** A bare host name is rejected for its missing scheme. */
  lemma BareHostIsRejected()
    ensures Validate("example.com") == Fail(InvalidURLError("example.com", MissingScheme))
  {
    var url := "example.com";
    AlphaIsNotSpace(url[0]);
    assert !IsBlank(url);
    NoColonIsRejected(url);
  }

  /** The shortest http URL with a host is valid. */
  lemma ShortestHttpURLIsValid()
    ensures Validate("http" + "://" + "a") == Pass
  {
    LowercaseScheme("http");
    PlainHost("a");
    AlphaIsNotSpace('a');
    assert "http" + "://" + "a" + "" == "http" + "://" + "a";
    ValidateAbsoluteURL("http" + "://" + "a", "http", "a", "");
  }
}
