/** The part of URL parsing the executor relies on (`Url::parse` of the
    `url` crate, used by executor/deno/ops/lib.rs and src/loader.rs): the
    scheme, a `//host[:port]` authority, slash-separated path segments, and
    the cannot-be-a-base flag of URLs such as `mailto:x`. As in the URL
    standard, the special schemes (`http`, `https`, `ws`, `wss`, `ftp`,
    `file`) always give a base URL, and the first four need a host whatever
    number of slashes follows the colon. The serialisation is kept as
    given. */
module Url {
  import opened Base
  import opened Text

  datatype UrlError = RelativeUrlWithoutBase | EmptyHost | InvalidPort

  datatype Url = Url(
    href: string,
    scheme: string,
    host: string,
    port: Option<nat>,
    path: seq<string>,
    cannotBeABase: bool)

  predicate IsAlpha(c: char) {
    'a' <= c <= 'z' || 'A' <= c <= 'Z'
  }

  predicate IsDigit(c: char) {
    '0' <= c <= '9'
  }

  /** A scheme: a letter, then letters, digits, `+`, `-` or `.`. */
  predicate ValidScheme(s: string) {
    && |s| > 0 && IsAlpha(s[0])
    && forall i :: 0 <= i < |s| ==> IsAlpha(s[i]) || IsDigit(s[i]) || s[i] in "+-."
  }

  /** The number a string of decimal digits denotes. */
  function DigitsValue(s: string): (n: nat)
    requires forall i :: 0 <= i < |s| ==> IsDigit(s[i])
    decreases |s|
  {
    if |s| == 0 then 0
    else
      assert IsDigit(s[|s| - 1]);
      10 * DigitsValue(s[..|s| - 1]) + (s[|s| - 1] as int - '0' as int)
  }

  /** The port after the host's colon: none, empty (no port), or a decimal
      number below 65536. */
  function ParsePort(text: Option<string>): (r: Result<Option<nat>, UrlError>)
    ensures r.Ok? && r.value.Some? ==> r.value.value < 0x1_0000
    ensures text.None? ==> r == Ok(None)
  {
    match text
    case None => Ok(None)
    case Some(p) =>
      if p == "" then Ok(None)
      else if !(forall i :: 0 <= i < |p| ==> IsDigit(p[i])) then Err(InvalidPort)
      else if DigitsValue(p) >= 0x1_0000 then Err(InvalidPort)
      else Ok(Some(DigitsValue(p)))
  }

  /** The schemes the URL standard treats specially. */
  const SPECIAL: set<string> := {"http", "https", "ws", "wss", "ftp", "file"}

  /** The special schemes other than `file`: their URLs always have a host. */
  predicate NeedsHost(scheme: string) {
    scheme in SPECIAL && scheme != "file"
  }

  /** `host[:port]`; an empty host is an error for the schemes that need
      one, and `localhost` is no host in a `file` URL. */
  function ParseAuthority(scheme: string, authority: string): (r: Result<(string, Option<nat>), UrlError>)
    ensures r.Ok? ==> ':' !in r.value.0 && (NeedsHost(scheme) ==> r.value.0 != "")
    ensures r.Ok? && scheme == "file" ==> r.value.0 != "localhost"
    ensures NeedsHost(scheme) && SplitOnce(authority, ':').0 == "" ==> r == Err(EmptyHost)
  {
    var (host, portText) := SplitOnce(authority, ':');
    if host == "" && NeedsHost(scheme) then Err(EmptyHost)
    else
      var port :- ParsePort(portText);
      Ok((if scheme == "file" && host == "localhost" then "" else host, port))
  }

  /** The path after the authority: `[""]` when there is none. */
  function PathSegments(pathText: Option<string>): (segs: seq<string>)
    ensures |segs| >= 1
    ensures forall i :: 0 <= i < |segs| ==> '/' !in segs[i]
  {
    match pathText
    case None => [""]
    case Some(p) => Split(p, '/')
  }

  /** `r` without its leading slashes. */
  function StripSlashes(r: string): (t: string)
    ensures |t| == 0 || t[0] != '/'
    decreases |r|
  {
    if |r| > 0 && r[0] == '/' then StripSlashes(r[1..]) else r
  }

  /** The authority up to the first slash of `after`, then the path. */
  function Hierarchical(s: string, scheme: string, after: string): Result<Url, UrlError> {
    var (authority, pathText) := SplitOnce(after, '/');
    var (host, port) :- ParseAuthority(scheme, authority);
    Ok(Url(s, scheme, host, port, PathSegments(pathText), false))
  }

  /** What follows the scheme's colon. A scheme that needs a host skips
      any slashes before its authority; another scheme has an authority
      only after `//`. Without one, a `file` URL or a rest starting with `/`
      is a path (one leading slash dropped), and anything else is the
      opaque path of a URL that cannot be a base. */
  function ParseRest(s: string, scheme: string, r: string): (u: Result<Url, UrlError>)
    ensures u.Ok? ==> u.value.href == s && u.value.scheme == scheme
    ensures u.Ok? && !u.value.cannotBeABase ==> |u.value.path| >= 1
    ensures u.Ok? && scheme in SPECIAL ==> !u.value.cannotBeABase
    ensures u.Ok? && NeedsHost(scheme) ==> u.value.host != ""
  {
    if NeedsHost(scheme) then Hierarchical(s, scheme, StripSlashes(r))
    else if |r| >= 2 && r[..2] == "//" then Hierarchical(s, scheme, r[2..])
    else if |r| >= 1 && r[0] == '/' then Ok(Url(s, scheme, "", None, Split(r[1..], '/'), false))
    else if scheme == "file" then Ok(Url(s, scheme, "", None, Split(r, '/'), false))
    else Ok(Url(s, scheme, "", None, [r], true))
  }

  /** `Url::parse` on the modelled subset: a valid scheme up to the first
      colon, then the rest as above. */
  function Parse(s: string): (r: Result<Url, UrlError>)
    ensures r.Ok? ==> ValidScheme(r.value.scheme) && r.value.href == s
    ensures r.Ok? ==> |r.value.scheme| < |s| && s[|r.value.scheme|] == ':' && ':' !in r.value.scheme
    ensures ':' !in s ==> r == Err(RelativeUrlWithoutBase)
    ensures r.Ok? && !r.value.cannotBeABase ==> |r.value.path| >= 1
    ensures r.Ok? && r.value.scheme in SPECIAL ==> !r.value.cannotBeABase
    ensures r.Ok? && NeedsHost(r.value.scheme) ==> r.value.host != ""
  {
    var (scheme, rest) := SplitOnce(s, ':');
    if rest.None? || !ValidScheme(scheme) then Err(RelativeUrlWithoutBase)
    else ParseRest(s, scheme, rest.value)
  }

  /** `scheme:rest` is read as `rest` after a valid scheme. */
  lemma ParseScheme(s: string, scheme: string, rest: string)
    requires ValidScheme(scheme) && s == scheme + ":" + rest
    ensures Parse(s) == ParseRest(s, scheme, rest)
  {
    SchemeHasNoColon(scheme);
    SplitOnceJoin(scheme, rest, ':');
  }

  lemma SchemeHasNoColon(scheme: string)
    requires ValidScheme(scheme)
    ensures ':' !in scheme
  {
    forall i | 0 <= i < |scheme| ensures scheme[i] != ':' {
      assert IsAlpha(scheme[i]) || IsDigit(scheme[i]) || scheme[i] in "+-.";
    }
  }

  /** How `Parse` reads `scheme://` followed by `after`, when the authority
      is not empty or the scheme can do without a host. */
  lemma ParseAfterSlashes(scheme: string, after: string, authority: string, pathText: Option<string>)
    requires ValidScheme(scheme)
    requires SplitOnce(after, '/') == (authority, pathText)
    requires authority != "" || !NeedsHost(scheme)
    ensures var r := Parse(scheme + "://" + after);
      && (r.Ok? <==> ParseAuthority(scheme, authority).Ok?)
      && (r.Ok? ==>
            && !r.value.cannotBeABase && r.value.scheme == scheme
            && (r.value.host, r.value.port) == ParseAuthority(scheme, authority).value
            && r.value.path == PathSegments(pathText))
  {
    if NeedsHost(scheme) {
      assert after[0] == authority[0];
    }
    AuthorityAfterSlashes(scheme, after);
  }

  /** After `://` the authority starts right away, unless the scheme needs a
      host and more slashes follow. */
  lemma AuthorityAfterSlashes(scheme: string, after: string)
    requires ValidScheme(scheme)
    requires !NeedsHost(scheme) || |after| == 0 || after[0] != '/'
    ensures Parse(scheme + "://" + after) == Hierarchical(scheme + "://" + after, scheme, after)
  {
    var s := scheme + "://" + after;
    SlashesAfterColon(scheme, after);
    ParseScheme(s, scheme, "//" + after);
    RestAfterSlashes(s, scheme, after);
  }

  /** The step after the colon, when it starts with `//`. */
  lemma RestAfterSlashes(s: string, scheme: string, after: string)
    requires !NeedsHost(scheme) || |after| == 0 || after[0] != '/'
    ensures ParseRest(s, scheme, "//" + after) == Hierarchical(s, scheme, after)
  {
    var rest := "//" + after;
    assert rest[..2] == "//" && rest[2..] == after;
    if NeedsHost(scheme) {
      StripLeadingSlashes("//", after);
      StripNothing(after);
    }
  }

  /** `scheme://after` is the scheme, a colon and `//after`. */
  lemma SlashesAfterColon(scheme: string, after: string)
    ensures scheme + "://" + after == scheme + ":" + ("//" + after)
  {
    assert "://" == ":" + "//";
  }

  /** Slashes in front of a string that does not start with one are all
      that `StripSlashes` removes. */
  lemma {:induction false} StripLeadingSlashes(slashes: string, t: string)
    requires forall i :: 0 <= i < |slashes| ==> slashes[i] == '/'
    ensures StripSlashes(slashes + t) == StripSlashes(t)
    decreases |slashes|
  {
    if |slashes| == 0 {
      assert slashes + t == t;
    } else {
      assert (slashes + t)[0] == '/';
      assert (slashes + t)[1..] == slashes[1..] + t;
      StripLeadingSlashes(slashes[1..], t);
    }
  }

  /** A hierarchical URL built from a scheme, an authority and path segments
      parses back into them: the authority decides host and port exactly as
      it does without a path, and the segments come back unchanged. */
  lemma ParseHierarchical(scheme: string, authority: string, segs: seq<string>)
    requires ValidScheme(scheme)
    requires '/' !in authority
    requires |segs| >= 1 && forall i :: 0 <= i < |segs| ==> '/' !in segs[i]
    requires ParseAuthority(scheme, authority).Ok?
    ensures var r := Parse(scheme + "://" + (authority + "/" + Join(segs, '/')));
      && r.Ok? && !r.value.cannotBeABase
      && r.value.scheme == scheme
      && (r.value.host, r.value.port) == ParseAuthority(scheme, authority).value
      && r.value.path == segs
  {
    var tail := Join(segs, '/');
    var after := authority + "/" + tail;
    SplitOnceJoin(authority, tail, '/');
    ParseAfterSlashes(scheme, after, authority, Some(tail));
    SplitJoin(segs, '/');
  }

  /** Without a path, the authority alone decides host and port, and the
      path is the single empty segment. */
  lemma ParseAuthorityOnly(scheme: string, authority: string)
    requires ValidScheme(scheme)
    requires '/' !in authority
    requires ParseAuthority(scheme, authority).Ok?
    ensures var r := Parse(scheme + "://" + authority);
      && r.Ok? && !r.value.cannotBeABase
      && r.value.scheme == scheme
      && (r.value.host, r.value.port) == ParseAuthority(scheme, authority).value
      && r.value.path == [""]
  {
    ParseAfterSlashes(scheme, authority, authority, None);
  }

  /** The rest of a scheme that is not special, when it does not start
      with `/`, is an opaque path. */
  lemma OpaqueRest(s: string, scheme: string, rest: string)
    requires scheme !in SPECIAL
    requires !(|rest| >= 1 && rest[0] == '/')
    ensures ParseRest(s, scheme, rest) == Ok(Url(s, scheme, "", None, [rest], true))
  {
  }

  /** A URL of a scheme that is not special, with neither `//` nor `/`
      after the colon, cannot be a base: its whole rest is the path. */
  lemma OpaqueCannotBeABase(scheme: string, rest: string)
    requires ValidScheme(scheme) && scheme !in SPECIAL
    requires !(|rest| >= 1 && rest[0] == '/')
    ensures Parse(scheme + ":" + rest).Ok?
    ensures Parse(scheme + ":" + rest).value.cannotBeABase
    ensures Parse(scheme + ":" + rest).value.scheme == scheme
    ensures Parse(scheme + ":" + rest).value.path == [rest]
  {
    ParseScheme(scheme + ":" + rest, scheme, rest);
    OpaqueRest(scheme + ":" + rest, scheme, rest);
  }

  /** A single `/` after a scheme that is not special starts a path. */
  lemma PathOnlyRest(s: string, scheme: string, rest: string)
    requires scheme !in SPECIAL
    requires |rest| >= 1 && rest[0] == '/' && !(|rest| >= 2 && rest[1] == '/')
    ensures ParseRest(s, scheme, rest) == Ok(Url(s, scheme, "", None, Split(rest[1..], '/'), false))
  {
    assert !(|rest| >= 2 && rest[..2] == "//") by {
      if |rest| >= 2 {
        assert rest[..2][1] == rest[1];
      }
    }
  }

  /** A scheme that is not special, followed by a single `/`, gives a base
      URL with no host whose path is the rest, split at slashes. */
  lemma PathOnlyIsABase(scheme: string, rest: string)
    requires ValidScheme(scheme) && scheme !in SPECIAL
    requires |rest| >= 1 && rest[0] == '/' && !(|rest| >= 2 && rest[1] == '/')
    ensures var r := Parse(scheme + ":" + rest);
      && r.Ok? && !r.value.cannotBeABase && r.value.host == "" && r.value.port.None?
      && r.value.path == Split(rest[1..], '/')
  {
    ParseScheme(scheme + ":" + rest, scheme, rest);
    PathOnlyRest(scheme + ":" + rest, scheme, rest);
  }

  /** `StripSlashes` leaves a string that does not start with `/` alone. */
  lemma StripNothing(t: string)
    requires |t| == 0 || t[0] != '/'
    ensures StripSlashes(t) == t
  {
  }

  /** Reading the same authority and path under two hrefs gives URLs that
      differ only in their href. */
  lemma HierarchicalHref(s1: string, s2: string, scheme: string, after: string)
    ensures var a := Hierarchical(s1, scheme, after);
      var b := Hierarchical(s2, scheme, after);
      && a.Ok? == b.Ok?
      && (a.Ok? ==> a.value.(href := s2) == b.value)
  {
  }

  /** A scheme that needs a host reads its authority after all the slashes
      that follow the colon. */
  lemma SpecialAuthority(scheme: string, rest: string)
    requires ValidScheme(scheme) && NeedsHost(scheme)
    ensures Parse(scheme + ":" + rest) == Hierarchical(scheme + ":" + rest, scheme, StripSlashes(rest))
  {
    ParseScheme(scheme + ":" + rest, scheme, rest);
  }

  /** A scheme that needs a host reads the same URL however many slashes
      (none included) come before the authority: `http:example.com/a.js`
      is `http://example.com/a.js`. */
  lemma SpecialIgnoresSlashes(scheme: string, rest: string)
    requires ValidScheme(scheme) && NeedsHost(scheme)
    ensures var a := Parse(scheme + ":" + rest);
      var b := Parse(scheme + ":" + ("//" + StripSlashes(rest)));
      && a.Ok? == b.Ok?
      && (a.Ok? ==> !a.value.cannotBeABase && a.value.(href := b.value.href) == b.value)
  {
    var x := StripSlashes(rest);
    var s1 := scheme + ":" + rest;
    var s2 := scheme + ":" + ("//" + x);
    SpecialAuthority(scheme, rest);
    ParseScheme(s2, scheme, "//" + x);
    RestAfterSlashes(s2, scheme, x);
    HierarchicalHref(s1, s2, scheme, x);
  }
}
