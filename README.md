# prometheus-aioexporter core, modelled in Dafny

prometheus-aioexporter helps build Prometheus exporters. This project models its core in
Dafny and proves properties of the model. The core has three parts.

- **Metric configuration and registry.** These are `_metric.py` and the older `metric.py`,
  modelled in modules `Metric` and `LegacyMetric`.
  - A closed table maps type tags to a prometheus_client class and to the option keys that
    class accepts.
  - Building a `MetricConfig` checks the tag and sorts the labels.
  - `InvalidMetricType` builds its message from the sorted tags.
  - `MetricsRegistry` is a class. Its state is the name-keyed `_metrics` map plus what its
    `CollectorRegistry` holds, in registration order.
- **The exporter web application.** These are `_web.py` and the older `web.py`, modelled
  in modules `Web` and `LegacyWeb`. `PrometheusExporter` is a class with:
  - a single update-handler slot;
  - a two-entry route table;
  - a startup loop that logs one line per host;
  - the home page;
  - the metrics endpoint, which awaits the handler and then generates the body.
  A metrics request appends events to a `trace`, and startup lines are appended to a `log`.
- **The script.** This is `_script.py`, modelled in module `Script`. It covers:
  - the immutable `Arguments` record, with `__getattr__`, `__eq__`, `__repr__` and `dict()`;
  - the script's `description`;
  - `_configure_registry`;
  - the decision in `_get_ssl_context` whether to serve over TLS.

Supporting modules:
- `Wrappers`: Option and Result.
- `Text`: Python's string order, `sorted`, `str.join`, and `str(int)` with its inverse.
- `Dict`: a Python dict as its list of pairs in insertion order.
- `Batch`: the dict comprehension that builds a batch of metrics.

The registry stores metrics under their names and a later metric of the same name
overwrites an earlier one. Only that map-level overwrite is modelled. The duplicate-name
check inside prometheus_client's `CollectorRegistry` is not (see Left out).

The configs are plain values that can hold any type tag. `_metric.py`'s `MetricConfig` is
a dataclass that is not frozen, and `metric.py`'s namedtuple can be rebuilt with
`_replace`, so a config can carry an unknown tag after construction. `_register_metric`
then raises `KeyError` part-way through a batch. The model proves two things about that
case:
- the name map is untouched;
- the metrics built before the failure are already in the collector registry.

## Model

| member | source | states |
|---|---|---|
| Text.SortStrings | prometheus_aioexporter/_metric.py:54 | `sorted` returns an ordered permutation of its input |
| Text.SortIgnoresOrder | prometheus_aioexporter/_metric.py:54 | two orderings of the same strings sort to the same sequence |
| Batch.CollectOkIff | prometheus_aioexporter/_metric.py:84-86 | the batch comprehension succeeds iff every config builds |
| Batch.CollectFirstError | prometheus_aioexporter/_metric.py:84-86 | a failing batch raises the error of its first failing config, and every config before it built |
| Batch.CollectKeys | prometheus_aioexporter/_metric.py:84-86 | the batch's keys are exactly the configs' names |
| Batch.CollectLastWins | prometheus_aioexporter/_metric.py:84-86 | under each name stands the metric of the last config with that name |
| Batch.StopsAt | prometheus_aioexporter/_metric.py:84-86 | the comprehension stops at the first failing config; what was built before it stays built |
| Metric.LookupType | prometheus_aioexporter/_metric.py:33-40 | a tag is in the table iff it is counter, enum, gauge, histogram, info or summary |
| Metric.NewMetricConfig | prometheus_aioexporter/_metric.py:53-56 | construction succeeds iff the tag is one of the six; otherwise it raises `InvalidMetricType(name, type)`; on success the labels are sorted and hold the labels given |
| Metric.ConfigIgnoresLabelOrder | prometheus_aioexporter/_metric.py:54 | two configs whose labels differ only in order are equal |
| Metric.InvalidMetricType.Message | prometheus_aioexporter/_metric.py:59-68 | the message is `Invalid type for <name>: must be one of ` followed by the tag list, stated as the single text `counter, enum, gauge, histogram, info, summary` |
| Metric.TableOptions | prometheus_aioexporter/_metric.py:33-40 | the option keys listed for each type are exactly the keys that type accepts: `states` for enum, `buckets` for histogram, none otherwise |
| Metric.FilterOptions | prometheus_aioexporter/_metric.py:119-123 | the options kept are the config keys the type accepts, with their values |
| Metric.RegisterMetric | prometheus_aioexporter/_metric.py:117-130 | a tag outside the table raises KeyError naming it; otherwise the metric is of the class the table gives for the tag, with the config's name, description and labels |
| Metric.RegisteredOptions | prometheus_aioexporter/_metric.py:117-130 | only `states` (enum) or `buckets` (histogram) reach the constructor; other keys are dropped without error |
| Metric.ValidConfigBuilds | prometheus_aioexporter/_metric.py:117-130 | a config that passed construction builds a metric with its name, description and sorted labels |
| Metric.BindLabels | prometheus_aioexporter/_metric.py:96 | `labels(**labels)` succeeds iff the metric has label names and the labels given are exactly those; values follow the label-name order |
| Metric.MetricsRegistry.constructor | prometheus_aioexporter/_metric.py:76-78 | a new registry holds no metrics and no collectors |
| Metric.MetricsRegistry.CreateMetrics | prometheus_aioexporter/_metric.py:80-88 | returns the batch. On success the map becomes the old map overridden by the batch. On failure the map is unchanged. The metrics built before a failure are registered |
| Metric.MetricsRegistry.GetMetric | prometheus_aioexporter/_metric.py:90-98 | an unknown name raises KeyError; None or empty labels give the metric itself; otherwise the label-bound handle |
| Metric.MetricsRegistry.GetMetrics | prometheus_aioexporter/_metric.py:100-102 | the name map; in a valid registry every metric it holds is in the collector registry, and additional collectors never appear in it |
| Metric.BoundValuesFollowSortedNames | prometheus_aioexporter/_metric.py:90-98 | a bound handle lists the label values in the sorted order of the label names, whatever order they were given in |
| Metric.MetricsRegistry.GenerateMetrics | prometheus_aioexporter/_metric.py:113-115 | the exposition covers the whole collector registry in registration order, so in a valid registry it includes every metric `get_metrics()` returns |
| Metric.MetricsRegistry.RegisterAdditionalCollector | prometheus_aioexporter/_metric.py:104-111 | the collector is registered; the name map, and so `get_metrics()`, is unchanged |
| LegacyMetric.LookupType | prometheus_aioexporter/metric.py:15-32 | a tag is in the table iff it is counter, gauge, histogram or summary |
| LegacyMetric.NewMetricConfig | prometheus_aioexporter/metric.py:39-42 | construction succeeds iff the tag is one of the four; otherwise it raises `InvalidMetricType(name, typ)` |
| LegacyMetric.InvalidMetricType.Message | prometheus_aioexporter/metric.py:45-53 | the message is `Invalid type for <name>: must be one of counter, gauge, histogram, summary` |
| LegacyMetric.RenameOptions | prometheus_aioexporter/metric.py:90-93 | the keywords are exactly the renamed names of the config keys listed in the type's options; under each keyword stands the value of the first listed key renamed to it |
| LegacyMetric.RegisterMetric | prometheus_aioexporter/metric.py:88-95 | a tag outside the table raises KeyError naming it; otherwise the metric is of the class the table gives for the tag, with the config's name and description |
| LegacyMetric.RenamedOptions | prometheus_aioexporter/metric.py:88-95 | `labels` becomes `labelnames` for every type; `buckets` passes for histogram only; other keys are dropped |
| LegacyMetric.MetricsRegistry.constructor | prometheus_aioexporter/metric.py:59-61 | a new registry holds no metrics and no collectors |
| LegacyMetric.MetricsRegistry.CreateMetrics | prometheus_aioexporter/metric.py:63-69 | returns the batch and merges it into the map, overwriting entries of the same name; a failure leaves the map unchanged |
| LegacyMetric.MetricsRegistry.GetMetrics | prometheus_aioexporter/metric.py:71-73 | the name map; in a valid registry every metric it holds is in the collector registry |
| LegacyMetric.MetricsRegistry.GenerateMetrics | prometheus_aioexporter/metric.py:84-86 | the exposition covers the whole collector registry in registration order, including every metric `get_metrics()` returns in a valid registry |
| LegacyMetric.MetricsRegistry.RegisterAdditionalCollector | prometheus_aioexporter/metric.py:75-82 | the collector is registered; the name map is unchanged |
| Web.Title | prometheus_aioexporter/_web.py:104-107 | the title starts with the name; it is exactly the name iff the description is empty, and otherwise continues with ` - ` and the description |
| Web.HomePage | prometheus_aioexporter/_web.py:109-126 | the page opens with the doctype, `<html>` and `<head>` lines and closes with `</body>` and `</html>`; what it shows is stated by the two lemmas below |
| Web.HomePageShowsTitle | prometheus_aioexporter/_web.py:109-126 | the page holds `<title>` and `<h1>` elements with the title |
| Web.HomePageLinksMetrics | prometheus_aioexporter/_web.py:120 | the page holds a link whose target and text are the configured metrics path |
| Web.StartupLine | prometheus_aioexporter/_web.py:93-99 | every startup line starts with `Listening on `; that it reads back to its host, port and protocol is `Web.StartupLineRoundTrip` |
| Web.StartupLines | prometheus_aioexporter/_web.py:92-100 | one line per host, in host order |
| Web.StartupLineRoundTrip | prometheus_aioexporter/_web.py:93-99 | a startup line parses back to its host, port and protocol; hosts with a colon are bracketed and the protocol is https iff TLS is on |
| Web.StartupLineInjective | prometheus_aioexporter/_web.py:93-99 | different host, port or protocol give different lines |
| Web.PrometheusExporter.constructor | prometheus_aioexporter/_web.py:39-56 | the exporter keeps its settings, builds its routes with the metrics path given, and starts with no update handler |
| Web.PrometheusExporter.SetMetricUpdateHandler | prometheus_aioexporter/_web.py:58-68 | the new handler replaces any earlier one |
| Web.PrometheusExporter.Resolve | prometheus_aioexporter/_web.py:85-86 | `/` routes home; the metrics path the routes were built with routes to metrics; every other path is a 404 |
| Web.PrometheusExporter.LogStartupMessage | prometheus_aioexporter/_web.py:90-100 | the log gains exactly the startup lines for the hosts, in order |
| Web.PrometheusExporter.HandleHome | prometheus_aioexporter/_web.py:102-127 | a 200 HTML page holding the title and the link to the metrics path, built from the name, description and metrics path as they stand at the request |
| Web.PrometheusExporter.HandleMetrics | prometheus_aioexporter/_web.py:129-135 | a set handler is called once with the registry snapshot, before the body. No handler means no call. The body is `generate_metrics()`. An exception from the handler propagates and no body is built |
| Web.MetricsEvents | prometheus_aioexporter/_web.py:129-135 | a metrics request records two events when a handler is set and does not raise, one otherwise; it ends with the body exactly when no handler raised |
| Web.HandlerOnceBeforeBody | prometheus_aioexporter/_web.py:129-135 | one metrics request calls a set handler exactly once, with the registry snapshot, before the body; with no handler there is no call; the body is generated exactly when the request answers with the exposition |
| Web.StaleMetricsLink | prometheus_aioexporter/_web.py:84-86 | once `metrics_path` is reassigned, the home page links to the new path, which is a 404, while the path the routes were built with still serves the metrics |
| Web.PrometheusExporter.HandleRequest | prometheus_aioexporter/_web.py:81-88 | a GET request gives the home page, the metrics response or a 404, by path; the attributes are left as they were |
| LegacyWeb.PrometheusExporter.constructor | prometheus_aioexporter/web.py:42-59 | the exporter keeps its settings, builds its routes with the metrics path given, and starts with no update handler |
| LegacyWeb.PrometheusExporter.SetMetricUpdateHandler | prometheus_aioexporter/web.py:61-71 | the new handler replaces any earlier one |
| LegacyWeb.PrometheusExporter.Resolve | prometheus_aioexporter/web.py:88-89 | `/` routes home; the metrics path the routes were built with routes to metrics; every other path is a 404 |
| LegacyWeb.PrometheusExporter.LogStartupMessage | prometheus_aioexporter/web.py:93-103 | the log gains exactly the startup lines for the hosts, in order |
| LegacyWeb.PrometheusExporter.HandleHome | prometheus_aioexporter/web.py:105-130 | a 200 HTML page holding the title and the link to the metrics path, built from the attributes as they stand at the request |
| LegacyWeb.PrometheusExporter.HandleMetrics | prometheus_aioexporter/web.py:132-138 | a set handler is called once with the registry snapshot, before the body. The body is `generate_metrics()` |
| LegacyWeb.PrometheusExporter.HandleRequest | prometheus_aioexporter/web.py:84-91 | a GET request gives the home page, the metrics response or a 404, by path |
| Script.Arguments.GetAttr | prometheus_aioexporter/_script.py:43-49 | the stored value for a present name; otherwise AttributeError `'Arguments' has no attribute '<name>'` |
| Script.Arguments.Attr | prometheus_aioexporter/_script.py:43-49 | attribute access reaches `__getattr__` only for names the instance does not have itself |
| Script.Arguments.AsDict | prometheus_aioexporter/_script.py:51-53 | `dict()` holds every argument name, with the value attribute access gives |
| Script.DictAgreesWithAttributes | prometheus_aioexporter/_script.py:43-53 | an attribute and the `dict()` entry agree on every argument name |
| Script.Arguments.Eq | prometheus_aioexporter/_script.py:38-41 | NotImplemented for a non-`Arguments` operand; otherwise the stored maps are compared with Python's `==` |
| Script.EqReflexiveSymmetric | prometheus_aioexporter/_script.py:38-41 | `==` on `Arguments` is reflexive and symmetric |
| Script.EqualArgumentsAgree | prometheus_aioexporter/_script.py:38-49 | equal records give equal attribute values and fail on the same names |
| Script.Arguments.Repr | prometheus_aioexporter/_script.py:32-36 | the repr is `Arguments(` then `name=repr(value)` for every argument, in Python's string order of the names (any ordered arrangement of the names gives this text), joined by `, `, then `)` |
| Script.ReprIgnoresOrder | prometheus_aioexporter/_script.py:32-36 | two records holding the same names and values give the same repr, whatever order the keyword arguments were given in |
| Script.ValueRepr | prometheus_aioexporter/_script.py:34 | `repr` of an argument value: a string's repr reads back as the string, an int's as the int, and a tuple's is parenthesised |
| Script.StrRepr | prometheus_aioexporter/_script.py:34 | a string's repr is the text between two equal quotes, single or double |
| Script.StrReprRoundTrip | prometheus_aioexporter/_script.py:34 | a string value's repr reads back as the string; it is double-quoted iff the text has a single quote and no double quote |
| Script.PrometheusExporterScript.constructor | prometheus_aioexporter/_script.py:83-86 | the script starts with an empty registry |
| Script.PrometheusExporterScript.Description | prometheus_aioexporter/_script.py:92-99 | the class docstring, or `""` when there is none |
| Script.PrometheusExporterScript.ConfigureRegistry | prometheus_aioexporter/_script.py:254-258 | the process collector is registered iff process stats are asked for; the metrics map is unchanged |
| Script.GetSslContext | prometheus_aioexporter/_script.py:260-267 | TLS files are chosen only when both key attributes are present and truthy: certificate from `ssl_public_key`, key from `ssl_private_key`, CA from `ssl_ca` |
| Script.TlsNeedsBothKeys | prometheus_aioexporter/_script.py:260-262 | with both attributes present, TLS is chosen iff both are truthy; one or neither gives None, not an error |
| Script.TlsMissingArgument | prometheus_aioexporter/_script.py:260-262 | a missing key argument raises AttributeError, the private key being read first |

## Left out

- prometheus_client is not modelled; a metric is the record of its class and constructor arguments. Left out with it:
  - metric values;
  - the `+Inf` bucket a histogram adds;
  - the exceptions its constructors raise, such as an enum without `states`;
  - `ProcessCollector` internals.
- `CollectorRegistry` rejects a second metric with a name it already holds. The model registers every built metric, so a batch that reuses a name succeeds here, where prometheus_client would raise.
- `generate_latest` is modelled as the ordered list of what the collector registry holds, not as exposition text. `CONTENT_TYPE_LATEST` is named, not spelled out.
- Metric.MetricsRegistry.GetMetrics: returns the map as a value. Dafny maps are values, so the `.copy()` cannot be told apart from the map; the insertion order of `_metrics` is not kept.
- Metric.BindLabels: checks only the label names. Label values are not converted to `str`.
- aiohttp is not modelled: `Application`, `run_app`, socket binding, TLS handshakes and access logging. Also left out:
  - the HEAD route aiohttp adds beside each GET;
  - 405 answers;
  - the error response it builds from a handler exception.
- Web.PrometheusExporter: `registry` is fixed at construction; reassigning the exporter's `registry` attribute is not modelled. The same holds for LegacyWeb.PrometheusExporter. The other attributes can be reassigned, and each request reads them afresh. The route table keeps the metrics path given at construction.
- Web.PrometheusExporter.Resolve: takes the first route for the path. With a metrics path of `/`, aiohttp refuses the second route at set-up time, and the model does not.
- `run()` and the awaits are left out. A handler call is recorded as a trace event, and whether the handler raises is an input. What the handler does to metric values is not modelled.
- Web.HomePage: models `textwrap.dedent` only for this template. A name, description or path holding a line of only blanks would be emptied by `dedent`; the model keeps it.
- Script.ValueRepr: Python's repr escapes other non-printable characters as `\x..`, `\u....` or `\U........`, and the model does not. The repr of a float or of other object types is left out too.
- Script.Arguments.Attr: names that ordinary lookup finds on every object (`__class__`, `__dict__` and the other dunder names) are not modelled. Only `_values` and `dict` are.
- Script.Arguments.Repr: uses the class name `Arguments`. A subclass would show its own name.
- `_get_ssl_context` calls `ssl.create_default_context` and `load_cert_chain`. Neither is modelled; the result is the three files they would receive.
- Argument parsing is not modelled: click options, environment variables, the dotenv file and `_process_dotenv`. Arguments enter as a ready record.
- `_get_exporter` is not modelled. It passes `logger=` to `PrometheusExporter`, whose constructor in `_web.py` takes no such parameter.
- An exception from the update handler propagates out of `_handle_metrics`. aiohttp answers that one request with an error and the server keeps running; that answer and any process exit are not modelled.
- `_log.py` (logging set-up), `script.py` (argparse wiring), `sample.py`, `setup.py` and `__init__.py` are not part of this model.
