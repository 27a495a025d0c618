/** The exporter's web application in the older API
    (prometheus_aioexporter/web.py). Its logic is that of `_web.py` (module
    Web, whose string rules and route table it shares); the registry is the
    older one, so the update handler receives the older metrics map. */
module LegacyWeb {

  import opened Wrappers
  import opened Text
  import Dict
  import LegacyMetric
  import opened Web

  /** `PrometheusExporter`. */
  class PrometheusExporter {
    /** Public attributes: a client may reassign them after construction, and
        each request reads them afresh. */
    var name: string
    var description: string
    var hosts: seq<string>
    var port: int
    var metricsPath: string
    var sslContext: Option<SslContext>
    const registry: LegacyMetric.MetricsRegistry
    /** The metrics path the application's router was given when `_make_application`
        ran in the constructor; reassigning `metricsPath` later does not change it. */
    const routedPath: string
    /** `_update_handler`: a single slot. */
    var updateHandler: Option<UpdateHandler>
    /** What metrics requests have done so far. */
    var trace: seq<Event<map<string, LegacyMetric.LegacyMetric>, LegacyMetric.Exposition>>
    /** Lines logged through the application's logger. */
    var log: seq<string>

    /** `metrics_path` defaults to "/metrics" in the source. */
    constructor (name: string, description: string, hosts: seq<string>, port: int,
                 registry: LegacyMetric.MetricsRegistry, metricsPath: string, sslContext: Option<SslContext>)
      ensures this.name == name && this.description == description && this.hosts == hosts
      ensures this.port == port && this.registry == registry && this.metricsPath == metricsPath
      ensures this.sslContext == sslContext && routedPath == metricsPath
      ensures updateHandler == None && trace == [] && log == []
    {
      this.name := name;
      this.description := description;
      this.hosts := hosts;
      this.port := port;
      this.registry := registry;
      this.metricsPath := metricsPath;
      routedPath := metricsPath;
      this.sslContext := sslContext;
      updateHandler := None;
      trace := [];
      log := [];
    }

    /** `set_metric_update_handler`: the new handler replaces any earlier one. */
    method SetMetricUpdateHandler(handler: UpdateHandler)
      modifies this
      ensures updateHandler == Some(handler)
      ensures trace == old(trace) && log == old(log) && SettingsKept()
    {
      updateHandler := Some(handler);
    }

    /** The settings are as they were before the call. */
    twostate predicate SettingsKept()
      reads this
    {
      && name == old(name) && description == old(description) && hosts == old(hosts)
      && port == old(port) && metricsPath == old(metricsPath) && sslContext == old(sslContext)
    }

    /** The GET routes `_make_application` adds, in order. */
    function Routes(): seq<(string, Endpoint)> {
      [("/", Home), (routedPath, MetricsEndpoint)]
    }

    /** The router picks the first route registered for the path; no route is a 404. */
    function Resolve(path: string): (r: Option<Endpoint>)
      ensures r == Some(Home) <==> path == "/"
      ensures r == Some(MetricsEndpoint) <==> path == routedPath && path != "/"
      ensures r == None <==> path != "/" && path != routedPath
    {
      var routes := Routes();
      assert routes[1..] == [(routedPath, MetricsEndpoint)] && routes[1..][1..] == [];
      assert Dict.Lookup(routes[1..][1..], path) == None;
      assert Dict.Lookup(routes[1..], path) == if path == routedPath then Some(MetricsEndpoint) else None;
      Dict.Lookup(routes, path)
    }

    /** `_log_startup_message`. */
    method LogStartupMessage()
      modifies this
      ensures log == old(log) + StartupLines(hosts, port, sslContext.Some?)
      ensures updateHandler == old(updateHandler) && trace == old(trace) && SettingsKept()
    {
      var i := 0;
      while i < |hosts|
        invariant 0 <= i <= |hosts|
        invariant log == old(log) + StartupLines(hosts[..i], port, sslContext.Some?)
        invariant updateHandler == old(updateHandler) && trace == old(trace) && SettingsKept()
      {
        var host := hosts[i];
        if ':' in host {
          host := "[" + host + "]";
        }
        var protocol := "http";
        if sslContext.Some? {
          protocol := "https";
        }
        var line := ListeningOn + protocol + "://" + host + ":" + IntToString(port);
        StartupLineParts(hosts[i], port, sslContext.Some?, protocol, host);
        StartupLinesStep(old(log), hosts, i, port, sslContext.Some?);
        log := log + [line];
        i := i + 1;
      }
      assert hosts[..i] == hosts;
    }

    /** `_handle_home`: the title and the link are built from the attributes as
        they stand when the request comes in. */
    function HandleHome(): (r: Response<LegacyMetric.Exposition>)
      reads this
      ensures r.HtmlPage? && Status(r) == 200
      ensures Contains(r.text, TitleElement(Title(name, description)))
      ensures Contains(r.text, Heading(Title(name, description)))
      ensures Contains(r.text, MetricsLink(metricsPath))
    {
      HomePageShowsTitle(Title(name, description), name, metricsPath);
      HomePageLinksMetrics(Title(name, description), name, metricsPath);
      HtmlPage(HomePage(Title(name, description), name, metricsPath))
    }

    /** `_handle_metrics`: the handler, if any, is awaited once with the
        registry snapshot before the body is generated; if it raises, no body
        is generated. Whether the handler raises is decided by code outside the
        model, hence the parameter. */
    method HandleMetrics(handlerRaises: bool) returns (r: Result<Response<LegacyMetric.Exposition>, HandlerError>)
      modifies this
      ensures updateHandler == old(updateHandler) && log == old(log) && SettingsKept()
      ensures trace == old(trace) + MetricsEvents(old(updateHandler), handlerRaises, registry.GetMetrics(), registry.GenerateMetrics())
      ensures r == MetricsOutcome(old(updateHandler), handlerRaises, registry.GenerateMetrics())
    {
      if updateHandler.Some? {
        trace := trace + [HandlerCalled(updateHandler.value, registry.GetMetrics())];
        if handlerRaises {
          return Err(HandlerRaised(updateHandler.value));
        }
      }
      var body := registry.GenerateMetrics();
      trace := trace + [BodyGenerated(body)];
      r := Ok(MetricsText(body));
    }

    /** A GET request: routed to the home page, the metrics endpoint or a 404. */
    method HandleRequest(path: string, handlerRaises: bool) returns (r: Result<Response<LegacyMetric.Exposition>, HandlerError>)
      modifies this
      ensures updateHandler == old(updateHandler) && log == old(log) && SettingsKept()
      ensures path == "/" ==> r == Ok(HandleHome()) && trace == old(trace)
      ensures path != "/" && path != routedPath ==> r == Ok(NotFound) && trace == old(trace)
      ensures path == routedPath && path != "/" ==>
        trace == old(trace) + MetricsEvents(old(updateHandler), handlerRaises, registry.GetMetrics(), registry.GenerateMetrics())
        && r == MetricsOutcome(old(updateHandler), handlerRaises, registry.GenerateMetrics())
    {
      var endpoint := Resolve(path);
      if endpoint == Some(Home) {
        r := Ok(HandleHome());
      } else if endpoint == Some(MetricsEndpoint) {
        r := HandleMetrics(handlerRaises);
      } else {
        r := Ok(NotFound);
      }
    }
  }
}
