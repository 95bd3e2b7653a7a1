/**
 * The request-handling decisions of the dev server: the listen address,
 * the router behind `/` (and `/ws` in development), the file a page is
 * read from, the `RootSlash` template value, the "what is my IP" page and
 * the live-reload script injected into HTML in development.
 *
 * Environment reads are parameters: `dev` stands for `GOLANG_ENV` being
 * "development", and `listenAddrEnv` for the value of `LISTEN_ADDR`
 * (`""` when unset).
 */
module Handler {

  import opened Wrappers
  import opened GoStrings
  import opened ClientIp

  /** The folder the site is served from. */
  const StaticSiteFolder: string := "./site"

  /** The address listened on when `LISTEN_ADDR` is unset or empty. */
  const DefaultListenAddr: string := ":8000"

  /**
   * `getListenAddr`: the configured address when there is one, the default
   * otherwise. The server is never asked to listen on an empty address.
   */
  function ListenAddr(listenAddrEnv: string): (addr: string)
    ensures addr != ""
    ensures listenAddrEnv != "" ==> addr == listenAddrEnv
    ensures listenAddrEnv == "" ==> addr == DefaultListenAddr
  {
    if listenAddrEnv != "" then listenAddrEnv else DefaultListenAddr
  }

  // ---------------------------------------------------------------- routing

  /** The handler a request ends up in. */
  datatype Route =
    | HealthCheck      // answers 200 "OK"
    | LiveReloadSocket // the websocket endpoint, registered in development only
    | TemplatePage     // `parseTemplateAndInjectLiveReloadHandler`
    | StaticFile       // `http.FileServer` over the site folder

  /** The endpoint the injected script connects to. */
  const SocketPath: string := "/ws"

  /** The handler registered on `/`: health check, then HTML pages, then static files. */
  function RootRoute(path: string): (r: Route)
    ensures r != LiveReloadSocket
    ensures r == HealthCheck <==> HasPrefix(path, "/healthz")
    ensures r == TemplatePage <==>
      !HasPrefix(path, "/healthz") && (HasSuffix(path, "/") || HasSuffix(path, ".html"))
  {
    if HasPrefix(path, "/healthz") then HealthCheck
    else if HasSuffix(path, "/") || HasSuffix(path, ".html") then TemplatePage
    else StaticFile
  }

  /**
   * The server's mux: the exact path `/ws` goes to the socket when the
   * server runs in development (the only mode that registers it); every
   * other request goes to the handler on `/`.
   */
  function Dispatch(dev: bool, path: string): (r: Route)
    ensures r == LiveReloadSocket <==> dev && path == SocketPath
    ensures r != LiveReloadSocket ==> r == RootRoute(path)
  {
    if dev && path == SocketPath then LiveReloadSocket else RootRoute(path)
  }

  /** Outside development no request reaches the websocket endpoint; `/ws` is an ordinary static file there. */
  lemma ProductionHasNoSocket(path: string)
    ensures Dispatch(false, path) != LiveReloadSocket
    ensures Dispatch(false, SocketPath) == StaticFile
  {
    assert !HasSuffix(SocketPath, "/") && !HasSuffix(SocketPath, ".html");
    assert !HasPrefix(SocketPath, "/healthz");
  }

  /**
   * The health check wins over the page rules: `/healthz/` ends in a slash
   * yet answers "OK"; and any path under `/healthz` does.
   */
  lemma HealthCheckFirst(suffix: string)
    ensures Dispatch(true, "/healthz" + suffix) == HealthCheck
    ensures Dispatch(false, "/healthz" + suffix) == HealthCheck
    ensures Dispatch(true, "/healthz/") == HealthCheck
  {
    assert ("/healthz" + suffix)[..|"/healthz"|] == "/healthz";
    assert "/healthz/"[..|"/healthz"|] == "/healthz";
  }

  /** The "what is my IP" page and the site root are template pages in both modes. */
  lemma PagesAreTemplates(dev: bool)
    ensures Dispatch(dev, "/") == TemplatePage
    ensures Dispatch(dev, "/ip/") == TemplatePage
  {
    assert !HasPrefix("/ip/", "/healthz");
    assert HasSuffix("/ip/", "/");
  }

  // ------------------------------------------------------- page file, RootSlash

  /**
   * The `RootSlash` value the templates prefix their links with: `""` in
   * development, unless the request came through an `orb.local` host, and
   * `"/"` otherwise.
   */
  function RootSlash(dev: bool, forwardedHost: string): (r: string)
    ensures r == "" || r == "/"
    ensures r == "" <==> dev && !HasSuffix(forwardedHost, "orb.local")
  {
    var r := if dev then "" else "/";
    if HasSuffix(forwardedHost, "orb.local") then "/" else r
  }

  /** The file a template page is read from: the path under the site folder, a directory's `index.html`. */
  function FilePath(path: string): (f: string)
    ensures HasPrefix(f, StaticSiteFolder + path)
    ensures HasSuffix(path, "/") ==> HasSuffix(f, "/index.html") && |f| == |StaticSiteFolder + path| + |"index.html"|
    ensures !HasSuffix(path, "/") ==> f == StaticSiteFolder + path
  {
    var f := StaticSiteFolder + path;
    if HasSuffix(path, "/") then
      var g := f + "index.html";
      assert g[..|f|] == f;
      assert g[|g| - |"/index.html"|..] == [f[|f| - 1]] + "index.html";
      g
    else f
  }

  /** Every request routed to the template handler names an HTML file under the site folder. */
  lemma TemplatePagesAreHtmlFiles(dev: bool, path: string)
    requires Dispatch(dev, path) == TemplatePage
    ensures HasPrefix(FilePath(path), StaticSiteFolder)
    ensures HasSuffix(FilePath(path), ".html")
  {
    var f := FilePath(path);
    assert f[..|StaticSiteFolder|] == (StaticSiteFolder + path)[..|StaticSiteFolder|];
    if HasSuffix(path, "/") {
      assert f[|f| - |".html"|..] == f[|f| - |"/index.html"|..][|"/index"|..];
    } else {
      assert f[|f| - |".html"|..] == path[|path| - |".html"|..];
    }
  }

  /** The site root is served from the site folder's `index.html`. */
  lemma RootPageFile()
    ensures FilePath("/") == "./site/index.html"
  {
    assert HasSuffix("/", "/");
  }

  // ------------------------------------------------------------- the IP page

  /**
   * A client that wants plain text: `text/plain` occurs somewhere in its
   * `Accept` header, or curl, Wget or HTTPie occurs somewhere in its user
   * agent.
   */
  predicate IsPlainTextClient(accept: string, userAgent: string)
    ensures IsPlainTextClient(accept, userAgent) <==>
      (exists i :: OccursAt(accept, "text/plain", i)) ||
      (exists i :: OccursAt(userAgent, "curl", i)) ||
      (exists i :: OccursAt(userAgent, "Wget", i)) ||
      (exists i :: OccursAt(userAgent, "HTTPie", i))
  {
    Contains(accept, "text/plain") || Contains(userAgent, "curl") ||
    Contains(userAgent, "Wget") || Contains(userAgent, "HTTPie")
  }

  /** A curl user agent, whatever its version, gets the plain-text answer. */
  lemma CurlGetsPlainText(accept: string, version: string)
    ensures IsPlainTextClient(accept, "curl/" + version)
  {
    var ua := "curl/" + version;
    assert ua[0..|"curl"|] == "curl";
    ContainsIff(ua, "curl", 0);
  }

  /**
   * The Tailwind text size of the address: `text-2xl` when the address is
   * longer than 18 bytes in UTF-8 (Go's `len`), `text-4xl` otherwise.
   */
  function TextSize(ip: string): (cls: string)
    ensures cls == "text-2xl" <==> Utf8Len(ip) > 18
    ensures cls == "text-4xl" <==> Utf8Len(ip) <= 18
  {
    var digit := if Utf8Len(ip) > 18 then "2" else "4";
    var cls := "text-" + digit + "xl";
    assert cls[5] == digit[0] && "text-2xl"[5] != "text-4xl"[5];
    cls
  }

  /**
   * Sizes by address: an address longer than 18 characters always gets the
   * small size, and an ASCII address of at most 18 characters (every IPv4
   * address among them) the large one.
   */
  lemma TextSizeByLength(ip: string)
    ensures |ip| > 18 ==> TextSize(ip) == "text-2xl"
    ensures |ip| <= 18 && (forall k :: 0 <= k < |ip| ==> ip[k] < '\U{0080}') ==> TextSize(ip) == "text-4xl"
  {
  }

  /** The values the IP template is executed with (`templateDataIP`). */
  datatype TemplateDataIP = TemplateDataIP(
    clientIP: string,
    textSizeIPAddress: string,
    rootSlash: string,
    forwardedIPS: seq<string>)

  /** What the `/ip/` branch answers: the bare address as text, or the template filled in. */
  datatype IpPage =
    | PlainText(body: string)
    | IpTemplate(data: TemplateDataIP)

  /**
   * The `/ip/` branch of the template handler: plain-text clients get the
   * address and a newline; everyone else gets the template executed with
   * the address, its text size, `RootSlash` and the forwarded list.
   */
  function IpAnswer(h: IpHeaders, accept: string, userAgent: string, rootSlash: string): (p: IpPage)
    ensures p.PlainText? <==> IsPlainTextClient(accept, userAgent)
    ensures p.PlainText? ==> p.body == ClientIPs(h).ip + "\n"
    ensures p.IpTemplate? ==>
      && p.data.clientIP == ClientIPs(h).ip
      && p.data.forwardedIPS == ClientIPs(h).forwardedIPS
      && p.data.rootSlash == rootSlash
      && p.data.textSizeIPAddress == TextSize(p.data.clientIP)
      && (p.data.textSizeIPAddress == "text-2xl" <==> Utf8Len(p.data.clientIP) > 18)
      && (p.data.textSizeIPAddress == "text-4xl" <==> Utf8Len(p.data.clientIP) <= 18)
  {
    var ips := ClientIPs(h);
    if IsPlainTextClient(accept, userAgent) then PlainText(ips.ip + "\n")
    else IpTemplate(TemplateDataIP(ips.ip, TextSize(ips.ip), rootSlash, ips.forwardedIPS))
  }

  // ------------------------------------------------------ live-reload injection

  /** The closing tag the script is placed in front of. */
  const BodyClose: string := "</body>"

  /**
   * The script placed in front of the closing tag: it opens a websocket to
   * `/ws` (over `wss` when the page came over HTTPS) and reloads the page
   * on any message.
   */
  const LiveReloadScript: string :=
    "\n\t\t\t<script>\n" +
    "\t\t\t\tconst protocol = window.location.protocol === \"https:\" ? \"wss\" : \"ws\";\n" +
    "\t\t\t\tconst socket = new WebSocket(protocol + \"://\" + window.location.host + \"/ws\");\n" +
    "\t\t\t\tsocket.onmessage = () => location.reload();\n" +
    "\t\t\t</script>\n" +
    "\t\t\t"

  /** The text that replaces the first `</body>`: the script, then the closing tag again. */
  const LiveReloadSnippet: string := LiveReloadScript + BodyClose + "\n\t\t"

  /**
   * The last step of the template handler: in development the first
   * `</body>` of the rendered page is replaced by the live-reload snippet;
   * a page without `</body>`, and every page outside development, is sent
   * as rendered.
   */
  function InjectLiveReload(dev: bool, html: string): (r: string)
    ensures !dev ==> r == html
    ensures !Contains(html, BodyClose) ==> r == html
    ensures dev && Contains(html, BodyClose) ==> |r| == |html| + |LiveReloadSnippet| - |BodyClose|
  {
    if dev then ReplaceFirst(html, BodyClose, LiveReloadSnippet) else html
  }

  /**
   * Only the first `</body>` is replaced: for a page `p + "</body>" + q`
   * where `p` holds no `</body>`, the injected page is `p`, the snippet,
   * then `q` untouched, even when `q` holds further closing tags.
   */
  lemma InjectFirstBodyOnly(p: string, q: string)
    requires forall j :: 0 <= j < |p| ==> !OccursAt(p + BodyClose + q, BodyClose, j)
    ensures InjectLiveReload(true, p + BodyClose + q) == p + LiveReloadSnippet + q
  {
    ReplaceFirstAt(p, BodyClose, q, LiveReloadSnippet);
  }

  /**
   * An injected page still closes its body: the snippet ends with the tag
   * it replaced, so the page holds `</body>` right after the script.
   */
  lemma InjectedPageKeepsBodyClose(p: string, q: string)
    requires forall j :: 0 <= j < |p| ==> !OccursAt(p + BodyClose + q, BodyClose, j)
    ensures Contains(InjectLiveReload(true, p + BodyClose + q), BodyClose)
  {
    ReplaceFirstKeepsPattern(p, BodyClose, q, LiveReloadScript, "\n\t\t");
  }

  // -------------------------------------------------- the template handler

  /** How the template handler answers. */
  datatype Response =
    | NotFound             // `os.Stat` reports that the page file does not exist
    | ServerError          // the page cannot be parsed, or a template fails to parse or execute
    | Text(body: string)   // `text/plain`
    | Html(body: string)   // `text/html`

  /** An entry of the site folder: a directory, or a regular file with its content. */
  datatype Entry = Dir | Regular(content: string)

  /**
   * The outcomes of `os.Stat` the handler tells apart: the file does not
   * exist (`os.IsNotExist`), another error, a directory, or a regular file.
   */
  datatype StatResult = NotExist | StatFailed | IsDir | IsFile(content: string)

  /** Some proper prefix of `path`, ending just before a `/`, is a regular file. */
  predicate UnderRegularFile(fs: map<string, Entry>, path: string)
  {
    exists i :: 0 < i < |path| && path[i] == '/' && path[..i] in fs && fs[path[..i]].Regular?
  }

  /** The path names a directory of the filesystem, or nothing at all. */
  predicate DirOrAbsent(fs: map<string, Entry>, path: string)
  {
    path !in fs || fs[path] == Dir
  }

  /**
   * `os.Stat` over a filesystem given as a map from path to entry. A path
   * that runs through a regular file (`index.html/index.html`) fails with
   * "not a directory", which is not a "does not exist" error.
   */
  function Stat(fs: map<string, Entry>, path: string): (r: StatResult)
    ensures r == NotExist <==> path !in fs && !UnderRegularFile(fs, path)
    ensures r == StatFailed <==> path !in fs && UnderRegularFile(fs, path)
    ensures r == IsDir <==> path in fs && fs[path] == Dir
    ensures r.IsFile? <==> path in fs && fs[path].Regular?
    ensures r.IsFile? ==> r.content == fs[path].content
  {
    if path in fs then
      match fs[path]
      case Dir => IsDir
      case Regular(c) => IsFile(c)
    else if UnderRegularFile(fs, path) then StatFailed
    else NotExist
  }

  /**
   * The template engine, as far as the handler depends on it: whether a
   * page file parses as a template, the execution of the IP template with
   * its data, and the parse-and-execute of a page with only `RootSlash`
   * (`None` for a failure).
   */
  datatype Engine = Engine(
    parses: string -> bool,
    executeIp: (string, TemplateDataIP) -> Option<string>,
    executeCommon: (string, string) -> Option<string>)

  /**
   * The common ending of both page kinds: the page is run through the
   * template engine with `RootSlash`, and the output gets the live-reload
   * script in development.
   */
  function FinishPage(dev: bool, engine: Engine, html: string, rootSlash: string): (resp: Response)
    ensures resp.Html? || resp == ServerError
    ensures resp.Html? <==> engine.executeCommon(html, rootSlash).Some?
    ensures resp.Html? ==> resp.body == InjectLiveReload(dev, engine.executeCommon(html, rootSlash).value)
  {
    match engine.executeCommon(html, rootSlash)
    case None => ServerError
    case Some(out) => Html(InjectLiveReload(dev, out))
  }

  /**
   * `parseTemplateAndInjectLiveReloadHandler`, with the site folder as a
   * map from path to entry. Only a page file that `os.Stat` reports as
   * missing answers "not found". Any other stat error, a directory, or a
   * file that does not parse answers a server error: the template parse
   * reads the file and fails. Under `/ip/`, plain-text clients get their
   * address, and everyone else gets the IP template. Other pages are their
   * file's content. Both then go through `FinishPage`.
   */
  function ServeTemplatePage(
    dev: bool, forwardedHost: string, path: string,
    fs: map<string, Entry>, engine: Engine,
    h: IpHeaders, accept: string, userAgent: string): (resp: Response)
    ensures resp == NotFound <==> Stat(fs, FilePath(path)) == NotExist
    ensures Stat(fs, FilePath(path)) in {StatFailed, IsDir} ==> resp == ServerError
    ensures Stat(fs, FilePath(path)).IsFile? && !engine.parses(Stat(fs, FilePath(path)).content) ==>
      resp == ServerError
    ensures resp.Text? <==>
      && Stat(fs, FilePath(path)).IsFile? && engine.parses(Stat(fs, FilePath(path)).content)
      && HasPrefix(path, "/ip/") && IsPlainTextClient(accept, userAgent)
    ensures resp.Text? ==> resp.body == ClientIPs(h).ip + "\n"
    ensures
      (&& Stat(fs, FilePath(path)).IsFile? && engine.parses(Stat(fs, FilePath(path)).content)
       && HasPrefix(path, "/ip/") && !IsPlainTextClient(accept, userAgent))
      ==>
      var rootSlash := RootSlash(dev, forwardedHost);
      var ips := ClientIPs(h);
      var data := TemplateDataIP(ips.ip, TextSize(ips.ip), rootSlash, ips.forwardedIPS);
      resp == match engine.executeIp(Stat(fs, FilePath(path)).content, data)
        case None => ServerError
        case Some(html) => FinishPage(dev, engine, html, rootSlash)
    ensures
      (&& Stat(fs, FilePath(path)).IsFile? && engine.parses(Stat(fs, FilePath(path)).content)
       && !HasPrefix(path, "/ip/"))
      ==>
      resp == FinishPage(dev, engine, Stat(fs, FilePath(path)).content, RootSlash(dev, forwardedHost))
  {
    var rootSlash := RootSlash(dev, forwardedHost);
    match Stat(fs, FilePath(path))
    case NotExist => NotFound
    case StatFailed => ServerError
    case IsDir => ServerError
    case IsFile(content) =>
      if !engine.parses(content) then ServerError
      else if HasPrefix(path, "/ip/") then
        match IpAnswer(h, accept, userAgent, rootSlash)
        case PlainText(body) => Text(body)
        case IpTemplate(data) =>
          match engine.executeIp(content, data)
          case None => ServerError
          case Some(html) => FinishPage(dev, engine, html, rootSlash)
      else FinishPage(dev, engine, content, rootSlash)
  }

  /**
   * Outside development a served page is exactly what the template engine
   * produced: nothing is injected. In development an ordinary page with a
   * single `</body>` gets the script in front of it.
   */
  lemma ServedPageInjection(
    dev: bool, forwardedHost: string, path: string,
    fs: map<string, Entry>, engine: Engine,
    h: IpHeaders, accept: string, userAgent: string, content: string, p: string, q: string)
    requires Stat(fs, FilePath(path)) == IsFile(content) && engine.parses(content) && !HasPrefix(path, "/ip/")
    ensures !dev ==>
      ServeTemplatePage(dev, forwardedHost, path, fs, engine, h, accept, userAgent) ==
        match engine.executeCommon(content, RootSlash(dev, forwardedHost))
        case None => ServerError
        case Some(out) => Html(out)
    ensures
      (&& dev
       && engine.executeCommon(content, RootSlash(dev, forwardedHost)) == Some(p + BodyClose + q)
       && forall j :: 0 <= j < |p| ==> !OccursAt(p + BodyClose + q, BodyClose, j))
      ==>
      ServeTemplatePage(dev, forwardedHost, path, fs, engine, h, accept, userAgent) ==
        Html(p + LiveReloadSnippet + q)
  {
    if dev && (forall j :: 0 <= j < |p| ==> !OccursAt(p + BodyClose + q, BodyClose, j)) {
      InjectFirstBodyOnly(p, q);
    }
  }

  /**
   * A plain-text client asking for the IP page of a site without that page
   * (and no regular file on the way to it) gets "not found", not its
   * address: the file check comes first.
   */
  lemma PlainTextNeedsThePageFile(
    dev: bool, forwardedHost: string, fs: map<string, Entry>, engine: Engine,
    h: IpHeaders, version: string)
    requires FilePath("/ip/") !in fs
    requires DirOrAbsent(fs, ".") && DirOrAbsent(fs, "./site") && DirOrAbsent(fs, "./site/ip")
    ensures ServeTemplatePage(dev, forwardedHost, "/ip/", fs, engine, h, "", "curl/" + version) == NotFound
    ensures IsPlainTextClient("", "curl/" + version)
  {
    CurlGetsPlainText("", version);
    IpPageMissing(fs);
  }

  /** Without the IP page, and with no regular file on the way, `os.Stat` reports it missing. */
  lemma IpPageMissing(fs: map<string, Entry>)
    requires FilePath("/ip/") !in fs
    requires DirOrAbsent(fs, ".") && DirOrAbsent(fs, "./site") && DirOrAbsent(fs, "./site/ip")
    ensures Stat(fs, FilePath("/ip/")) == NotExist
  {
    var f := FilePath("/ip/");
    assert f == "./site/ip/index.html";
    forall i | 0 < i < |f| && f[i] == '/'
      ensures DirOrAbsent(fs, f[..i])
    {
      if i == 1 {
        assert f[..i] == ".";
      } else if i == 6 {
        assert f[..i] == "./site";
      } else {
        assert i == 9 && f[..i] == "./site/ip";
      }
    }
  }

  /**
   * A page path that runs through a regular page file, such as
   * `/index.html/` while `./site/index.html` is a file, does not answer
   * "not found": `os.Stat` fails with "not a directory", the template parse
   * then fails, and the answer is a server error.
   */
  lemma PageAsFolderIsServerError(
    dev: bool, forwardedHost: string, fs: map<string, Entry>, engine: Engine,
    h: IpHeaders, accept: string, userAgent: string, name: string, content: string)
    requires !HasSuffix(name, "/")
    requires FilePath(name) in fs && fs[FilePath(name)] == Regular(content)
    requires FilePath(name + "/") !in fs
    ensures ServeTemplatePage(dev, forwardedHost, name + "/", fs, engine, h, accept, userAgent) == ServerError
  {
    PageAsFolder(fs, name, content);
  }

  /** The page file of `name + "/"` lies below the page file of `name`. */
  lemma PageAsFolder(fs: map<string, Entry>, name: string, content: string)
    requires !HasSuffix(name, "/")
    requires FilePath(name) in fs && fs[FilePath(name)] == Regular(content)
    requires FilePath(name + "/") !in fs
    ensures Stat(fs, FilePath(name + "/")) == StatFailed
  {
    var f := FilePath(name + "/");
    var i := |StaticSiteFolder + name|;
    assert HasSuffix(name + "/", "/");
    assert f == StaticSiteFolder + name + "/" + "index.html";
    assert f[i] == '/' && f[..i] == FilePath(name);
    assert UnderRegularFile(fs, f);
  }
}
