/** The module loaders of the Deno executor (executor/deno/src/loader.rs):
    which specifiers they resolve and which modules they load. Requests
    and file reads are replaced by their results, passed in; the flag
    returned with each load says whether the request or read was made. */
module Loader {
  import opened Base
  import opened Text
  import opened Url

  datatype LoaderError =
    | ImportNotAllowed              // "import module is not allowed for now!"
    | ParseFailed(e: UrlError)
    | InvalidUrl(specifier: string) // "Invalid URL: {specifier}"
    | InvalidScheme(scheme: string) // "Invalid scheme: {scheme}"
    | DynamicNotAllowed             // "dynamic load module is not allowed for now!"
    | RequestFailed(message: string)
    | BadStatus(specified: string, statusText: string) // "Get module {specified} failed with status: {status}"
    | FileError(message: string)

  /** `ModuleSource`: the code, the URL asked for, the URL found. */
  datatype ModuleSource = ModuleSource(code: string, specified: string, found: string)

  /** `RegisterLoader::resolve`: only the main module, only URLs that can be
      a base, only over http or https; the referrer is ignored. */
  function RegisterResolve(specifier: string, referrer: string, isMain: bool): (r: Result<Url, LoaderError>)
    ensures r.Ok? <==> isMain && Parse(specifier).Ok? && !Parse(specifier).value.cannotBeABase
                       && Parse(specifier).value.scheme in {"http", "https"}
    ensures r.Ok? ==> r.value == Parse(specifier).value
    ensures !isMain ==> r == Err(ImportNotAllowed)
    ensures isMain && Parse(specifier).Err? ==> r == Err(ParseFailed(Parse(specifier).error))
    ensures isMain && Parse(specifier).Ok? && Parse(specifier).value.cannotBeABase ==> r == Err(InvalidUrl(specifier))
  {
    if !isMain then Err(ImportNotAllowed)
    else
      match Parse(specifier)
      case Err(e) => Err(ParseFailed(e))
      case Ok(url) =>
        if url.cannotBeABase then Err(InvalidUrl(specifier))
        else if url.scheme != "http" && url.scheme != "https" then Err(InvalidScheme(url.scheme))
        else Ok(url)
  }

  /** The referrer never changes what a specifier resolves to. */
  lemma ReferrerIgnored(specifier: string, a: string, b: string, isMain: bool)
    ensures RegisterResolve(specifier, a, isMain) == RegisterResolve(specifier, b, isMain)
    ensures FsResolve(specifier, a, isMain) == FsResolve(specifier, b, isMain)
  {
  }

  /** An HTTP response: status, the URL it finally came from, the body. */
  datatype Response = Response(status: int, statusText: string, url: string, body: string)

  /** `RegisterLoader::load`: a dynamic import is refused before any
      request; otherwise the module is fetched and a non-2xx status is an
      error. Returns the result and whether the request was made. */
  function RegisterLoad(specifier: Url, isDynImport: bool, response: Result<Response, string>)
    : (r: (Result<ModuleSource, LoaderError>, bool))
    ensures r.1 <==> !isDynImport
    ensures isDynImport ==> r.0 == Err(DynamicNotAllowed)
    ensures r.0.Ok? <==> !isDynImport && response.Ok? && 200 <= response.value.status < 300
    ensures r.0.Ok? ==> r.0.value == ModuleSource(response.value.body, specifier.href, response.value.url)
    ensures !isDynImport && response.Ok? && !(200 <= response.value.status < 300) ==>
      r.0 == Err(BadStatus(specifier.href, response.value.statusText))
  {
    if isDynImport then (Err(DynamicNotAllowed), false)
    else
      match response
      case Err(e) => (Err(RequestFailed(e)), true)
      case Ok(res) =>
        if 200 <= res.status < 300 then (Ok(ModuleSource(res.body, specifier.href, res.url)), true)
        else (Err(BadStatus(specifier.href, res.statusText)), true)
  }

  /** `FsLoader::resolve`: only the main module; any URL that parses. */
  function FsResolve(specifier: string, referrer: string, isMain: bool): (r: Result<Url, LoaderError>)
    ensures r.Ok? <==> isMain && Parse(specifier).Ok?
    ensures r.Ok? ==> r.value == Parse(specifier).value
    ensures !isMain ==> r == Err(ImportNotAllowed)
  {
    if !isMain then Err(ImportNotAllowed)
    else
      match Parse(specifier)
      case Err(e) => Err(ParseFailed(e))
      case Ok(url) => Ok(url)
  }

  /** `Url::to_file_path` on Unix: a base URL (which always has at least
      one path segment) on no host or on `localhost`, whatever its scheme. */
  predicate IsFilePath(u: Url) {
    !u.cannotBeABase && |u.path| >= 1 && (u.host == "" || u.host == "localhost")
  }

  /** The path a file URL names. */
  function FilePath(u: Url): string
    requires IsFilePath(u)
  {
    "/" + Join(u.path, '/')
  }

  /** `FsLoader::load`: dynamic imports and URLs that do not name a path are
      refused; otherwise the file is read (`read` gives its code and its
      canonical path) and the module is the path asked for and the
      canonical file URL found. */
  function FsLoad(specifier: Url, isDynImport: bool, read: Result<(string, string), string>)
    : (r: (Result<ModuleSource, LoaderError>, bool))
    ensures r.1 <==> !isDynImport && IsFilePath(specifier)
    ensures !r.1 ==> r.0 == Err(DynamicNotAllowed)
    ensures r.0.Ok? <==> r.1 && read.Ok?
    ensures r.0.Ok? ==> r.0.value == ModuleSource(read.value.0, FilePath(specifier), "file://" + read.value.1)
  {
    if isDynImport || !IsFilePath(specifier) then (Err(DynamicNotAllowed), false)
    else
      match read
      case Err(e) => (Err(FileError(e)), true)
      case Ok((code, canonical)) => (Ok(ModuleSource(code, FilePath(specifier), "file://" + canonical)), true)
  }

  /** The two loaders agree on what they accept as the main module, except
      that the register loader also demands a base URL over http or https;
      a web URL is resolved identically by both. */
  lemma RegisterResolveNarrower(specifier: string, referrer: string, isMain: bool)
    ensures RegisterResolve(specifier, referrer, isMain).Ok? ==>
      FsResolve(specifier, referrer, isMain) == RegisterResolve(specifier, referrer, isMain)
    ensures FsResolve(specifier, referrer, isMain).Ok? && !FsResolve(specifier, referrer, isMain).value.cannotBeABase
            && FsResolve(specifier, referrer, isMain).value.scheme in {"http", "https"} ==>
      RegisterResolve(specifier, referrer, isMain) == FsResolve(specifier, referrer, isMain)
  {
  }

  /** A script URL the register loader resolves names a file exactly when
      its host is `localhost`: the file loader then reads `/path`, and
      refuses any other host without reading anything. */
  lemma FsLoadOfWebUrl(specifier: string, referrer: string, read: Result<(string, string), string>)
    requires RegisterResolve(specifier, referrer, true).Ok?
    ensures var u := RegisterResolve(specifier, referrer, true).value;
      && (FsLoad(u, false, read).1 <==> u.host == "localhost")
      && (u.host != "localhost" ==> FsLoad(u, false, read) == (Err(DynamicNotAllowed), false))
      && (u.host == "localhost" && read.Ok? ==> FsLoad(u, false, read).0.value.specified == FilePath(u))
  {
  }

  /** The register loader, like the parser, ignores the slashes between
      `http:` (or `https:`) and the host. */
  lemma RegisterResolveIgnoresSlashes(scheme: string, rest: string, referrer: string)
    requires scheme in {"http", "https"}
    ensures var a := RegisterResolve(scheme + ":" + rest, referrer, true);
      var b := RegisterResolve(scheme + ":" + ("//" + StripSlashes(rest)), referrer, true);
      && a.Ok? == b.Ok?
      && (a.Ok? ==> a.value.(href := b.value.href) == b.value)
  {
    assert ValidScheme(scheme) by {
      if scheme == "http" {
        assert forall i :: 0 <= i < |scheme| ==> IsAlpha(scheme[i]);
      } else {
        assert forall i :: 0 <= i < |scheme| ==> IsAlpha(scheme[i]);
      }
    }
    SpecialIgnoresSlashes(scheme, rest);
  }
}
