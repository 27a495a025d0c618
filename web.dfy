/** The exporter's web application (prometheus_aioexporter/_web.py): the
    update-handler slot, the route table, the startup log lines, the home page
    and the metrics endpoint. The string rules here are shared with the older
    module (LegacyWeb). */
module Web {

  import opened Wrappers
  import opened Text
  import Dict
  import Metric

  /** An `ssl.SSLContext` built by the ssl module; only whether there is one matters here. */
  datatype SslContext = SslContext(id: nat)

  /** The coroutine function registered as update handler, by identity. */
  datatype UpdateHandler = UpdateHandler(id: nat)

  /** The two request handlers the application routes to. */
  datatype Endpoint = Home | MetricsEndpoint

  /** A response: the HTML home page, the metrics exposition (served with
      prometheus_client's `CONTENT_TYPE_LATEST`), or aiohttp's 404. */
  datatype Response<X> = HtmlPage(text: string) | MetricsText(exposition: X) | NotFound

  /** What a metrics request does, in order: the update handler awaited with
      the registry snapshot, then the body generated. */
  datatype Event<S, X> = HandlerCalled(handler: UpdateHandler, snapshot: S) | BodyGenerated(exposition: X)

  /** An exception raised by the update handler; aiohttp turns it into an error response. */
  datatype HandlerError = HandlerRaised(handler: UpdateHandler)

  function Status<X>(r: Response<X>): int {
    if r.NotFound? then 404 else 200
  }

  // ---------------------------------------------------------------------------
  // The home page

  /** The page title: `name - description`, or just `name` when the description is empty. */
  function Title(name: string, description: string): (r: string)
    ensures |r| >= |name| && r[..|name|] == name
    ensures r == name <==> description == ""
    ensures description != "" ==> r[|name|..] == " - " + description
  {
    if description != "" then name + " - " + description else name
  }

  /** The link to the metrics endpoint, relative to the home page. */
  function MetricsLink(path: string): string {
    "<a href=\"." + path + "\">" + path + "</a>"
  }

  function TitleElement(title: string): string {
    "<title>" + title + "</title>"
  }

  function Heading(title: string): string {
    "<h1>" + title + "</h1>"
  }

  function GeneratorMeta(name: string): string {
    "<meta name=\"generator\" content=\"" + name + "\">"
  }

  /** The fixed lines of the home page template, with the indentation
      `dedent` leaves in place. */
  const PageOpen: string := "<!DOCTYPE html>\n            <html>\n              <head>\n                "
  const HeadBreak: string := "\n                "
  const HeadClose: string := "\n              </head>\n              <body>\n                "
  const ParagraphOpen: string := "\n                <p>\n                  Metric are exported at the\n                  "
  const PageClose: string := "\n                  endpoint.\n                </p>\n              </body>\n            </html>\n"

  /** The home page text after `textwrap.dedent`. Its first line is not
      indented, so no margin is removed; the last line, made of spaces only,
      is emptied. */
  function HomePage(title: string, name: string, path: string): (r: string)
    ensures |r| >= |PageOpen| + |PageClose|
    ensures r[..|PageOpen|] == PageOpen && r[|r| - |PageClose|..] == PageClose
  {
    PageOpen
    + TitleElement(title)
    + HeadBreak
    + GeneratorMeta(name)
    + HeadClose
    + Heading(title)
    + ParagraphOpen
    + MetricsLink(path)
    + PageClose
  }

  predicate Contains(s: string, part: string) {
    exists i | 0 <= i <= |s| :: part <= s[i..]
  }

  lemma ContainsEnd(pre: string, part: string)
    ensures Contains(pre + part, part)
  {
    assert (pre + part)[|pre|..] == part;
  }

  lemma ContainsExtend(s: string, part: string, post: string)
    requires Contains(s, part)
    ensures Contains(s + post, part)
  {
    var i :| 0 <= i <= |s| && part <= s[i..];
    assert (s + post)[i..] == s[i..] + post;
  }

  /** The page shows its title in the head and as the heading. */
  lemma HomePageShowsTitle(title: string, name: string, path: string)
    ensures Contains(HomePage(title, name, path), TitleElement(title))
    ensures Contains(HomePage(title, name, path), Heading(title))
    ensures TitleElement(title) == "<title>" + title + "</title>" && Heading(title) == "<h1>" + title + "</h1>"
  {
    var p0 := PageOpen;
    var p1 := p0 + TitleElement(title);
    ContainsEnd(p0, TitleElement(title));
    var p2 := p1 + HeadBreak;
    ContainsExtend(p1, TitleElement(title), HeadBreak);
    var p3 := p2 + GeneratorMeta(name);
    ContainsExtend(p2, TitleElement(title), GeneratorMeta(name));
    var p4 := p3 + HeadClose;
    ContainsExtend(p3, TitleElement(title), HeadClose);
    var p5 := p4 + Heading(title);
    ContainsExtend(p4, TitleElement(title), Heading(title));
    ContainsEnd(p4, Heading(title));
    PageTail(p5, TitleElement(title), path);
    PageTail(p5, Heading(title), path);
  }

  /** What the first part of the page shows, the whole page shows. */
  lemma PageTail(s: string, part: string, path: string)
    requires Contains(s, part)
    ensures Contains(s + ParagraphOpen
      + MetricsLink(path) + PageClose, part)
  {
    var s1 := s + ParagraphOpen;
    ContainsExtend(s, part, ParagraphOpen);
    ContainsExtend(s1, part, MetricsLink(path));
    ContainsExtend(s1 + MetricsLink(path), part, PageClose);
  }

  /** The page links to the configured metrics path, and names it as the link text. */
  lemma HomePageLinksMetrics(title: string, name: string, path: string)
    ensures Contains(HomePage(title, name, path), MetricsLink(path))
    ensures MetricsLink(path) == "<a href=\"." + path + "\">" + path + "</a>"
  {
    var pre := PageOpen
      + TitleElement(title)
      + HeadBreak
      + GeneratorMeta(name)
      + HeadClose
      + Heading(title)
      + ParagraphOpen;
    ContainsEnd(pre, MetricsLink(path));
    ContainsExtend(pre + MetricsLink(path), MetricsLink(path),
      PageClose);
  }

  // ---------------------------------------------------------------------------
  // Startup lines

  function Protocol(tls: bool): string {
    if tls then "https" else "http"
  }

  /** A host as it appears in a URL: an address with a colon (IPv6) is bracketed. */
  function HostPart(host: string): string {
    if ':' in host then "[" + host + "]" else host
  }

  const ListeningOn: string := "Listening on "

  /** `Listening on {protocol}://{host}:{port}`. */
  function StartupLine(host: string, port: int, tls: bool): (r: string)
    ensures |r| > |ListeningOn| && r[..|ListeningOn|] == ListeningOn
  {
    ListeningOn + Protocol(tls) + "://" + HostPart(host) + ":" + IntToString(port)
  }

  /** One line per host, in host order. */
  function StartupLines(hosts: seq<string>, port: int, tls: bool): (r: seq<string>)
    ensures |r| == |hosts| && forall i | 0 <= i < |hosts| :: r[i] == StartupLine(hosts[i], port, tls)
  {
    seq(|hosts|, i requires 0 <= i < |hosts| => StartupLine(hosts[i], port, tls))
  }

  lemma StartupLinesStep(prev: seq<string>, hosts: seq<string>, i: nat, port: int, tls: bool)
    requires i < |hosts|
    ensures prev + StartupLines(hosts[..i], port, tls) + [StartupLine(hosts[i], port, tls)]
         == prev + StartupLines(hosts[..i + 1], port, tls)
  {
    var before := StartupLines(hosts[..i], port, tls);
    var after := StartupLines(hosts[..i + 1], port, tls);
    assert after == before + [StartupLine(hosts[i], port, tls)];
  }

  /** The line the startup loop assembles from its parts is the startup line. */
  lemma StartupLineParts(host: string, port: int, tls: bool, protocol: string, hostPart: string)
    requires protocol == Protocol(tls) && hostPart == HostPart(host)
    ensures ListeningOn + protocol + "://" + hostPart + ":" + IntToString(port) == StartupLine(host, port, tls)
  {
  }

  /** The position of the last colon. */
  function LastColon(s: string): (r: Option<nat>)
    ensures r.Some? ==> r.value < |s| && s[r.value] == ':' && ':' !in s[r.value + 1..]
    ensures r.None? ==> ':' !in s
  {
    if s == [] then None
    else if s[|s| - 1] == ':' then Some(|s| - 1)
    else
      var r := LastColon(s[..|s| - 1]);
      assert r.Some? ==> s[r.value + 1..] == s[..|s| - 1][r.value + 1..] + [s[|s| - 1]];
      assert s == s[..|s| - 1] + [s[|s| - 1]];
      r
  }

  lemma LastColonOf(a: string, b: string)
    requires ':' !in b
    ensures LastColon(a + ":" + b) == Some(|a|)
  {
    var s := a + ":" + b;
    assert s[|a|] == ':' && s[|a| + 1..] == b;
  }

  /** Reads a host back: a bracketed address with a colon inside, or a host without colon. */
  function ParseHost(h: string): Option<string> {
    if |h| >= 2 && h[0] == '[' && h[|h| - 1] == ']' && ':' in h[1..|h| - 1] then Some(h[1..|h| - 1])
    else if ':' !in h then Some(h)
    else None
  }

  /** Reads `{host}:{port}` back, splitting at the last colon. */
  function ParseAddress(address: string): Option<(string, int)> {
    match LastColon(address)
    case None => None
    case Some(i) =>
      match (ParseHost(address[..i]), ParseInt(address[i + 1..]))
      case (Some(host), Some(port)) => Some((host, port))
      case _ => None
  }

  /** Reads `{protocol}://{address}` back; the protocol is https or http. */
  function ParseUrl(rest: string): Option<(string, int, bool)> {
    var tls := |rest| >= 5 && rest[..5] == "https";
    var proto := Protocol(tls);
    if |rest| < |proto| + 3 || rest[..|proto|] != proto || rest[|proto|..|proto| + 3] != "://" then None
    else
      match ParseAddress(rest[|proto| + 3..])
      case None => None
      case Some((host, port)) => Some((host, port, tls))
  }

  /** Reads a startup line back into its host, port and protocol. */
  function ParseStartupLine(line: string): Option<(string, int, bool)> {
    var lead := ListeningOn;
    if |line| < |lead| || line[..|lead|] != lead then None
    else ParseUrl(line[|lead|..])
  }

  lemma ParseHostPart(host: string)
    ensures ParseHost(HostPart(host)) == Some(host)
  {
    if ':' in host {
      var h := HostPart(host);
      assert h[1..|h| - 1] == host;
    }
  }

  lemma AddressRoundTrip(host: string, port: int)
    ensures ParseAddress(HostPart(host) + ":" + IntToString(port)) == Some((host, port))
  {
    var address := HostPart(host) + ":" + IntToString(port);
    LastColonOf(HostPart(host), IntToString(port));
    assert address[..|HostPart(host)|] == HostPart(host);
    assert address[|HostPart(host)| + 1..] == IntToString(port);
    ParseHostPart(host);
    IntToStringRoundTrip(port);
  }

  lemma UrlRoundTrip(address: string, tls: bool)
    ensures ParseUrl(Protocol(tls) + "://" + address) == match ParseAddress(address)
      case None => None
      case Some((host, port)) => Some((host, port, tls))
  {
    var rest := Protocol(tls) + "://" + address;
    assert (|rest| >= 5 && rest[..5] == "https") == tls by {
      if !tls { assert rest[4] == ':'; }
    }
    var proto := Protocol(tls);
    assert rest[..|proto|] == proto && rest[|proto|..|proto| + 3] == "://" && rest[|proto| + 3..] == address;
  }

  /** A startup line gives back the host, port and protocol it was made of:
      bracketing keeps IPv6 hosts apart from the port, and the protocol is
      https exactly when TLS is on. */
  lemma StartupLineRoundTrip(host: string, port: int, tls: bool)
    ensures ParseStartupLine(StartupLine(host, port, tls)) == Some((host, port, tls))
  {
    var address := HostPart(host) + ":" + IntToString(port);
    var rest := Protocol(tls) + "://" + address;
    StartupLineShape(ListeningOn, Protocol(tls), HostPart(host), IntToString(port));
    LeadRoundTrip(rest);
    UrlRoundTrip(address, tls);
    AddressRoundTrip(host, port);
  }

  lemma StartupLineShape(lead: string, proto: string, host: string, port: string)
    ensures lead + proto + "://" + host + ":" + port == lead + (proto + "://" + (host + ":" + port))
  {
  }

  lemma LeadRoundTrip(rest: string)
    ensures ParseStartupLine(ListeningOn + rest) == ParseUrl(rest)
  {
    var line := ListeningOn + rest;
    assert line[..|ListeningOn|] == ListeningOn && line[|ListeningOn|..] == rest;
  }

  /** Different hosts, ports or protocols never give the same startup line. */
  lemma StartupLineInjective(h1: string, p1: int, t1: bool, h2: string, p2: int, t2: bool)
    requires StartupLine(h1, p1, t1) == StartupLine(h2, p2, t2)
    ensures h1 == h2 && p1 == p2 && t1 == t2
  {
    StartupLineRoundTrip(h1, p1, t1);
    StartupLineRoundTrip(h2, p2, t2);
  }

  // ---------------------------------------------------------------------------
  // One metrics request

  /** What one metrics request does: a set handler is awaited with the
      snapshot; unless it raises, the body is then generated. */
  function MetricsEvents<S, X>(handler: Option<UpdateHandler>, raises: bool, snapshot: S, exposition: X): (r: seq<Event<S, X>>)
    ensures |r| == (if handler.Some? && !raises then 2 else 1)
    ensures r[|r| - 1].BodyGenerated? <==> !(handler.Some? && raises)
  {
    match handler
    case None => [BodyGenerated(exposition)]
    case Some(h) => if raises then [HandlerCalled(h, snapshot)] else [HandlerCalled(h, snapshot), BodyGenerated(exposition)]
  }

  /** The answer to one metrics request: the handler's exception, or the exposition. */
  function MetricsOutcome<X>(handler: Option<UpdateHandler>, raises: bool, exposition: X): Result<Response<X>, HandlerError> {
    if handler.Some? && raises then Err(HandlerRaised(handler.value)) else Ok(MetricsText(exposition))
  }

  /** The number of handler calls among some events. */
  function HandlerCalls<S, X>(events: seq<Event<S, X>>): nat {
    if events == [] then 0 else (if events[0].HandlerCalled? then 1 else 0) + HandlerCalls(events[1..])
  }

  /** A set handler is called exactly once per request, with the registry
      snapshot, and before the body; without a handler there is no call. The
      body is generated exactly when the request answers with the exposition. */
  lemma HandlerOnceBeforeBody<S, X>(handler: Option<UpdateHandler>, raises: bool, snapshot: S, exposition: X)
    ensures var events := MetricsEvents(handler, raises, snapshot, exposition);
      && HandlerCalls(events) == (if handler.Some? then 1 else 0)
      && (handler.Some? ==> events[0] == HandlerCalled(handler.value, snapshot))
      && (forall i | 0 <= i < |events| :: events[i].HandlerCalled? ==> events[i].snapshot == snapshot)
      && (forall i | 0 <= i < |events| && events[i].BodyGenerated? ::
            i == |events| - 1 && events[i].exposition == exposition && forall j | 0 <= j < i :: events[j].HandlerCalled?)
      && (events[|events| - 1].BodyGenerated? <==> MetricsOutcome(handler, raises, exposition).Ok?)
      && (MetricsOutcome(handler, raises, exposition).Ok? ==> MetricsOutcome(handler, raises, exposition).value == MetricsText(exposition))
  {
    var events := MetricsEvents(handler, raises, snapshot, exposition);
    if handler.Some? && !raises {
      assert events[1..] == [BodyGenerated(exposition)];
      assert events[1..][1..] == [];
      assert HandlerCalls(events[1..]) == 0;
    } else {
      assert events[1..] == [];
    }
  }

  // ---------------------------------------------------------------------------
  // The exporter

  /** `PrometheusExporter`. */
  class PrometheusExporter {
    /** Public attributes: a client may reassign them after construction, and
        each request reads them afresh. */
    var name: string
    var description: string
    var hosts: seq<string>
    var port: int
    var metricsPath: string
    var sslContext: Option<SslContext>
    const registry: Metric.MetricsRegistry
    /** The metrics path the application's router was given when `_make_application`
        ran in the constructor; reassigning `metricsPath` later does not change it. */
    const routedPath: string
    /** `_update_handler`: a single slot. */
    var updateHandler: Option<UpdateHandler>
    /** What metrics requests have done so far. */
    var trace: seq<Event<map<string, Metric.Metric>, Metric.Exposition>>
    /** Lines logged through the application's logger. */
    var log: seq<string>

    /** `metrics_path` defaults to "/metrics" in the source. */
    constructor (name: string, description: string, hosts: seq<string>, port: int,
                 registry: Metric.MetricsRegistry, metricsPath: string, sslContext: Option<SslContext>)
      ensures this.name == name && this.description == description && this.hosts == hosts
      ensures this.port == port && this.registry == registry && this.metricsPath == metricsPath
      ensures this.sslContext == sslContext && routedPath == metricsPath
      ensures updateHandler == None && trace == [] && log == []
    {
      this.name := name;
      this.description := description;
      this.hosts := hosts;
      this.port := port;
      this.registry := registry;
      this.metricsPath := metricsPath;
      routedPath := metricsPath;
      this.sslContext := sslContext;
      updateHandler := None;
      trace := [];
      log := [];
    }

    /** `set_metric_update_handler`: the new handler replaces any earlier one. */
    method SetMetricUpdateHandler(handler: UpdateHandler)
      modifies this
      ensures updateHandler == Some(handler)
      ensures trace == old(trace) && log == old(log) && SettingsKept()
    {
      updateHandler := Some(handler);
    }

    /** The settings are as they were before the call. */
    twostate predicate SettingsKept()
      reads this
    {
      && name == old(name) && description == old(description) && hosts == old(hosts)
      && port == old(port) && metricsPath == old(metricsPath) && sslContext == old(sslContext)
    }

    /** The GET routes `_make_application` adds, in order. */
    function Routes(): seq<(string, Endpoint)> {
      [("/", Home), (routedPath, MetricsEndpoint)]
    }

    /** The router picks the first route registered for the path; no route is a 404. */
    function Resolve(path: string): (r: Option<Endpoint>)
      ensures r == Some(Home) <==> path == "/"
      ensures r == Some(MetricsEndpoint) <==> path == routedPath && path != "/"
      ensures r == None <==> path != "/" && path != routedPath
    {
      var routes := Routes();
      assert routes[1..] == [(routedPath, MetricsEndpoint)] && routes[1..][1..] == [];
      assert Dict.Lookup(routes[1..][1..], path) == None;
      assert Dict.Lookup(routes[1..], path) == if path == routedPath then Some(MetricsEndpoint) else None;
      Dict.Lookup(routes, path)
    }

    /** `_log_startup_message`. */
    method LogStartupMessage()
      modifies this
      ensures log == old(log) + StartupLines(hosts, port, sslContext.Some?)
      ensures updateHandler == old(updateHandler) && trace == old(trace) && SettingsKept()
    {
      var i := 0;
      while i < |hosts|
        invariant 0 <= i <= |hosts|
        invariant log == old(log) + StartupLines(hosts[..i], port, sslContext.Some?)
        invariant updateHandler == old(updateHandler) && trace == old(trace) && SettingsKept()
      {
        var host := hosts[i];
        if ':' in host {
          host := "[" + host + "]";
        }
        var protocol := "http";
        if sslContext.Some? {
          protocol := "https";
        }
        var line := ListeningOn + protocol + "://" + host + ":" + IntToString(port);
        StartupLineParts(hosts[i], port, sslContext.Some?, protocol, host);
        StartupLinesStep(old(log), hosts, i, port, sslContext.Some?);
        log := log + [line];
        i := i + 1;
      }
      assert hosts[..i] == hosts;
    }

    /** `_handle_home`: the title and the link are built from the attributes as
        they stand when the request comes in. */
    function HandleHome(): (r: Response<Metric.Exposition>)
      reads this
      ensures r.HtmlPage? && Status(r) == 200
      ensures Contains(r.text, TitleElement(Title(name, description)))
      ensures Contains(r.text, Heading(Title(name, description)))
      ensures Contains(r.text, MetricsLink(metricsPath))
    {
      HomePageShowsTitle(Title(name, description), name, metricsPath);
      HomePageLinksMetrics(Title(name, description), name, metricsPath);
      HtmlPage(HomePage(Title(name, description), name, metricsPath))
    }

    /** `_handle_metrics`: the handler, if any, is awaited once with the
        registry snapshot before the body is generated; if it raises, no body
        is generated. Whether the handler raises is decided by code outside the
        model, hence the parameter. */
    method HandleMetrics(handlerRaises: bool) returns (r: Result<Response<Metric.Exposition>, HandlerError>)
      modifies this
      ensures updateHandler == old(updateHandler) && log == old(log) && SettingsKept()
      ensures trace == old(trace) + MetricsEvents(old(updateHandler), handlerRaises, registry.GetMetrics(), registry.GenerateMetrics())
      ensures r == MetricsOutcome(old(updateHandler), handlerRaises, registry.GenerateMetrics())
    {
      if updateHandler.Some? {
        trace := trace + [HandlerCalled(updateHandler.value, registry.GetMetrics())];
        if handlerRaises {
          return Err(HandlerRaised(updateHandler.value));
        }
      }
      var body := registry.GenerateMetrics();
      trace := trace + [BodyGenerated(body)];
      r := Ok(MetricsText(body));
    }

    /** A GET request: routed to the home page, the metrics endpoint or a 404. */
    method HandleRequest(path: string, handlerRaises: bool) returns (r: Result<Response<Metric.Exposition>, HandlerError>)
      modifies this
      ensures updateHandler == old(updateHandler) && log == old(log) && SettingsKept()
      ensures path == "/" ==> r == Ok(HandleHome()) && trace == old(trace)
      ensures path != "/" && path != routedPath ==> r == Ok(NotFound) && trace == old(trace)
      ensures path == routedPath && path != "/" ==>
        trace == old(trace) + MetricsEvents(old(updateHandler), handlerRaises, registry.GetMetrics(), registry.GenerateMetrics())
        && r == MetricsOutcome(old(updateHandler), handlerRaises, registry.GenerateMetrics())
    {
      var endpoint := Resolve(path);
      if endpoint == Some(Home) {
        r := Ok(HandleHome());
      } else if endpoint == Some(MetricsEndpoint) {
        r := HandleMetrics(handlerRaises);
      } else {
        r := Ok(NotFound);
      }
    }
  }

  /** The router keeps the metrics path it was built with. Once `metricsPath` is
      reassigned, the home page links to the new path, which no route serves,
      while the old path still answers with the metrics. */
  lemma StaleMetricsLink(e: PrometheusExporter)
    requires e.metricsPath != e.routedPath && e.metricsPath != "/" && e.routedPath != "/"
    ensures Contains(e.HandleHome().text, MetricsLink(e.metricsPath))
    ensures e.Resolve(e.metricsPath) == None
    ensures e.Resolve(e.routedPath) == Some(MetricsEndpoint)
  {
  }
}
