/** Metric configuration and the metrics registry (current API, prometheus_aioexporter/_metric.py). */
module Metric {

  import opened Wrappers
  import opened Text
  import Dict
  import Batch

  /** The prometheus_client class a type tag stands for. */
  datatype MetricKind = Counter | Enum | Gauge | Histogram | Info | Summary

  /** A metric type: its class and the option keys its constructor accepts. */
  datatype MetricType = MetricType(kind: MetricKind, options: seq<string>)

  /** `METRIC_TYPES`, in the order of the dict display. */
  const MetricTypes: seq<(string, MetricType)> := [
    ("counter", MetricType(Counter, [])),
    ("enum", MetricType(Enum, ["states"])),
    ("gauge", MetricType(Gauge, [])),
    ("histogram", MetricType(Histogram, ["buckets"])),
    ("info", MetricType(Info, [])),
    ("summary", MetricType(Summary, []))
  ]

  /** The six type tags, in sorted order. */
  const TypeTags: seq<string> := ["counter", "enum", "gauge", "histogram", "info", "summary"]

  /** The value of a config option (`buckets`, `states`, or any other key a user writes). */
  datatype OptionValue = Num(x: real) | Str(s: string) | List(items: seq<OptionValue>)

  /** `MetricConfig` as it stands once constructed. The dataclass is not frozen,
      so its fields may be reassigned after `__post_init__`: any value is possible here. */
  datatype MetricConfig = MetricConfig(
    name: string,
    description: string,
    typ: string,
    labels: seq<string>,
    config: map<string, OptionValue>)

  /** `InvalidMetricType(name, invalid_type)`. */
  datatype InvalidMetricType = InvalidMetricType(name: string, invalidType: string) {
    /** The error message names the config and lists the six tags in sorted
        order: `counter, enum, gauge, histogram, info, summary`. */
    function Message(): (r: string)
      ensures r == "Invalid type for " + name + ": must be one of " + "counter, enum, gauge, histogram, info, summary"
    {
      SortedTags();
      JoinTypeTags();
      TagListText();
      "Invalid type for " + name + ": must be one of " + Join(SortStrings(Dict.Keys(MetricTypes)), ", ")
    }
  }

  /** The exceptions the registry raises. */
  datatype MetricError =
    | KeyError(key: string)                // a dict lookup on a missing key
    | NoLabelNames(metric: string)         // `labels()` on a metric without label names
    | IncorrectLabelNames(metric: string)  // `labels()` with the wrong label names

  /** `METRIC_TYPES[tag]`. */
  function LookupType(tag: string): (r: Option<MetricType>)
    ensures r.Some? <==> tag in TypeTags
    ensures r.Some? ==> (tag, r.value) in MetricTypes
  {
    Dict.LookupFound(MetricTypes, tag);
    TagsInTableOrder();
    Dict.Lookup(MetricTypes, tag)
  }

  /** `MetricConfig(name, description, type, labels, config)`: the labels are
      sorted, then the type is checked against the table. */
  function NewMetricConfig(name: string, description: string, typ: string, labels: seq<string>,
                           config: map<string, OptionValue>): (r: Result<MetricConfig, InvalidMetricType>)
    ensures r.Ok? <==> typ in TypeTags
    ensures r.Err? ==> r.error == InvalidMetricType(name, typ)
    ensures r.Ok? ==> r.value.name == name && r.value.description == description && r.value.typ == typ
                      && r.value.config == config
    ensures r.Ok? ==> Sorted(r.value.labels) && multiset(r.value.labels) == multiset(labels)
  {
    var c := MetricConfig(name, description, typ, SortStrings(labels), config);
    if LookupType(typ).None? then Err(InvalidMetricType(name, typ)) else Ok(c)
  }

  /** Labels given in any order end up in the same canonical order, so the configs are equal. */
  lemma ConfigIgnoresLabelOrder(name: string, description: string, typ: string,
                                labels1: seq<string>, labels2: seq<string>, config: map<string, OptionValue>)
    requires multiset(labels1) == multiset(labels2)
    ensures NewMetricConfig(name, description, typ, labels1, config) ==
            NewMetricConfig(name, description, typ, labels2, config)
  {
    SortIgnoresOrder(labels1, labels2);
  }

  lemma SortedTags()
    ensures SortStrings(Dict.Keys(MetricTypes)) == TypeTags
  {
    TagsInTableOrder();
    TypeTagsSorted();
    SortKeepsSorted(TypeTags);
  }

  /** The table's keys in its own order are already sorted. */
  lemma TagsInTableOrder()
    ensures Dict.Keys(MetricTypes) == TypeTags
  {
  }

  /** The six tags joined by ", ", written out with the nesting `Join` produces. */
  lemma JoinTypeTags()
    ensures Join(TypeTags, ", ") ==
      "counter" + ", " + ("enum" + ", " + ("gauge" + ", " + ("histogram" + ", " + ("info" + ", " + "summary"))))
  {
    assert TypeTags[1..] == ["enum", "gauge", "histogram", "info", "summary"];
    assert TypeTags[2..] == ["gauge", "histogram", "info", "summary"];
    assert TypeTags[3..] == ["histogram", "info", "summary"];
    assert TypeTags[4..] == ["info", "summary"];
    assert TypeTags[5..] == ["summary"];
  }

  /** The nested joins spelled as one text. The solver compares text
      character by character, so each tag is added in a step of its own. */
  lemma TagListText()
    ensures "counter" + ", " + ("enum" + ", " + ("gauge" + ", " + ("histogram" + ", " + ("info" + ", " + "summary"))))
         == "counter, enum, gauge, histogram, info, summary"
  {
    JoinedFromInfo();
    JoinedFromHistogram();
    JoinedFromGauge();
    JoinedFromEnum();
    JoinedFromCounter();
  }

  lemma JoinedFromInfo()
    ensures "info" + ", " + "summary" == "info, summary"
  {
  }

  lemma JoinedFromHistogram()
    ensures "histogram" + ", " + "info, summary" == "histogram, info, summary"
  {
  }

  lemma JoinedFromGauge()
    ensures "gauge" + ", " + "histogram, info, summary" == "gauge, histogram, info, summary"
  {
  }

  lemma JoinedFromEnum()
    ensures "enum" + ", " + "gauge, histogram, info, summary" == "enum, gauge, histogram, info, summary"
  {
  }

  lemma JoinedFromCounter()
    ensures "counter" + ", " + "enum, gauge, histogram, info, summary" == "counter, enum, gauge, histogram, info, summary"
  {
  }

  lemma TypeTagsSorted()
    ensures Sorted(TypeTags)
  {
  }

  /** A metric as prometheus_client holds it after construction. */
  datatype Metric = Metric(
    kind: MetricKind,
    name: string,
    description: string,
    labelnames: seq<string>,
    options: map<string, OptionValue>)

  /** What `get_metric` returns: the metric, or the child bound to label values
      (listed in the order of the metric's label names). */
  datatype Handle = Unbound(metric: Metric) | Bound(metric: Metric, labelvalues: seq<string>)

  /** Anything besides named metrics that the collector registry exports. */
  datatype Collector = ProcessCollector | CustomCollector(id: nat)

  /** One registration in the collector registry: a named metric built by the
      registry, or an additional collector. */
  datatype Registered = Named(metric: Metric) | Additional(collector: Collector)

  /** The input of `generate_latest`: the collector registry's contents, in
      registration order. The text format itself is prometheus_client's. */
  datatype Exposition = Exposition(registered: seq<Registered>)

  /** The options that reach the constructor: those of the config whose key the type accepts. */
  function FilterOptions(config: map<string, OptionValue>, allowed: seq<string>): (r: map<string, OptionValue>)
    ensures r.Keys == config.Keys * (set k | k in allowed)
    ensures forall k | k in r :: r[k] == config[k]
  {
    map k | k in config && k in allowed :: config[k]
  }

  /** Option keys each kind accepts, stated independently of the table. */
  function AcceptedOptions(kind: MetricKind): set<string> {
    match kind
    case Enum => {"states"}
    case Histogram => {"buckets"}
    case _ => {}
  }

  function NameOf(c: MetricConfig): string {
    c.name
  }

  /** `_register_metric`: look the type up (KeyError if the config's type was
      changed to an unknown one after construction), then build the metric. */
  function RegisterMetric(c: MetricConfig): (r: Result<Metric, MetricError>)
    ensures r.Ok? <==> c.typ in TypeTags
    ensures r.Err? ==> r.error == KeyError(c.typ)
    ensures r.Ok? ==> exists t | (c.typ, t) in MetricTypes :: r.value.kind == t.kind
    ensures r.Ok? ==> r.value.name == c.name && r.value.description == c.description && r.value.labelnames == c.labels
  {
    match LookupType(c.typ)
    case None => Err(KeyError(c.typ))
    case Some(t) => Ok(Metric(t.kind, c.name, c.description, c.labels, FilterOptions(c.config, t.options)))
  }

  /** Only options the type accepts reach the constructor (states for enum,
      buckets for histogram, none otherwise); the others are dropped, not refused. */
  lemma RegisteredOptions(c: MetricConfig)
    requires RegisterMetric(c).Ok?
    ensures RegisterMetric(c).value.options.Keys == c.config.Keys * AcceptedOptions(RegisterMetric(c).value.kind)
    ensures forall k | k in RegisterMetric(c).value.options :: RegisterMetric(c).value.options[k] == c.config[k]
  {
    var t := LookupType(c.typ).value;
    TableOptions(c.typ, t);
  }

  /** Every row of the table accepts the options `AcceptedOptions` names for its kind. */
  lemma TableOptions(tag: string, t: MetricType)
    requires (tag, t) in MetricTypes
    ensures (set k | k in t.options) == AcceptedOptions(t.kind)
  {
    assert t.options == [] || t.options == ["states"] || t.options == ["buckets"];
  }

  /** A config that passed construction always builds, with its fields carried over. */
  lemma ValidConfigBuilds(name: string, description: string, typ: string, labels: seq<string>,
                          config: map<string, OptionValue>)
    requires NewMetricConfig(name, description, typ, labels, config).Ok?
    ensures RegisterMetric(NewMetricConfig(name, description, typ, labels, config).value).Ok?
    ensures var m := RegisterMetric(NewMetricConfig(name, description, typ, labels, config).value).value;
      m.name == name && m.description == description && Sorted(m.labelnames)
      && multiset(m.labelnames) == multiset(labels)
  {
  }

  /** prometheus_client's `metric.labels(**labels)`. Its check
      `sorted(labels) != sorted(labelnames)` is stated on multisets, which is the
      same test: two sorted lists are equal exactly when they hold the same
      elements (Text.SortedUnique). */
  function BindLabels(m: Metric, labels: map<string, string>): (r: Result<Handle, MetricError>)
    ensures r.Ok? <==> m.labelnames != [] && multiset(m.labelnames) == multiset(labels.Keys)
    ensures r.Ok? ==> r.value.Bound? && r.value.metric == m && |r.value.labelvalues| == |m.labelnames|
    ensures r.Ok? ==> forall i | 0 <= i < |m.labelnames| ::
      m.labelnames[i] in labels && r.value.labelvalues[i] == labels[m.labelnames[i]]
  {
    if m.labelnames == [] then Err(NoLabelNames(m.name))
    else if multiset(m.labelnames) != multiset(labels.Keys) then Err(IncorrectLabelNames(m.name))
    else
      assert forall i | 0 <= i < |m.labelnames| :: m.labelnames[i] in multiset(labels.Keys);
      Ok(Bound(m, seq(|m.labelnames|, i requires 0 <= i < |m.labelnames| => labels[m.labelnames[i]])))
  }

  /** `MetricsRegistry`. */
  class MetricsRegistry {
    /** `_metrics`: the metrics created by name. */
    var metrics: map<string, Metric>
    /** The `CollectorRegistry`'s contents, in registration order. */
    var registered: seq<Registered>

    /** Every metric in the name map is in the collector registry, and so is exported. */
    ghost predicate Valid()
      reads this
    {
      forall k | k in metrics :: Named(metrics[k]) in registered
    }

    constructor ()
      ensures metrics == map[] && registered == []
      ensures Valid()
    {
      metrics := map[];
      registered := [];
    }

    /** `create_metrics`: build every config in order, then merge the batch into
        the name map. The map changes only once the whole batch has been built;
        a metric built before a failure is already in the collector registry. */
    method CreateMetrics(configs: seq<MetricConfig>) returns (r: Result<map<string, Metric>, MetricError>)
      modifies this
      ensures r == Batch.Collect(configs, NameOf, RegisterMetric)
      ensures r.Ok? ==> metrics == old(metrics) + r.value
      ensures r.Err? ==> metrics == old(metrics)
      ensures registered == old(registered) + AsNamed(Batch.Built(configs, RegisterMetric))
      ensures old(Valid()) ==> Valid()
    {
      var batch := map[];
      var i := 0;
      while i < |configs|
        invariant 0 <= i <= |configs|
        invariant Batch.Collect(configs[..i], NameOf, RegisterMetric) == Ok(batch)
        invariant forall j | 0 <= j < i :: RegisterMetric(configs[j]).Ok?
        invariant metrics == old(metrics)
        invariant registered == old(registered) + AsNamed(Batch.Built(configs[..i], RegisterMetric))
        invariant forall x | x in old(registered) :: x in registered
        invariant forall k | k in batch :: Named(batch[k]) in registered
      {
        var m := RegisterMetric(configs[i]);
        Batch.CollectStep(configs, i, NameOf, RegisterMetric);
        if m.Err? {
          Batch.StopsAt(configs, i, NameOf, RegisterMetric);
          return Err(m.error);
        }
        Batch.BuiltStep(configs, i, RegisterMetric);
        AsNamedStep(old(registered), Batch.Built(configs[..i], RegisterMetric), m.value);
        registered := registered + [Named(m.value)];
        batch := batch[configs[i].name := m.value];
        i := i + 1;
      }
      assert configs[..i] == configs;
      metrics := metrics + batch;
      r := Ok(batch);
    }

    /** `get_metric(name, labels)`. */
    function GetMetric(name: string, labels: Option<map<string, string>>): (r: Result<Handle, MetricError>)
      reads this
      ensures name !in metrics ==> r == Err(KeyError(name))
      ensures name in metrics && (labels.None? || labels.value == map[]) ==> r == Ok(Unbound(metrics[name]))
      ensures name in metrics && labels.Some? && labels.value != map[] ==> r == BindLabels(metrics[name], labels.value)
    {
      if name !in metrics then Err(KeyError(name))
      else if labels.Some? && labels.value != map[] then BindLabels(metrics[name], labels.value)
      else Ok(Unbound(metrics[name]))
    }

    /** `get_metrics`: the name map as a value, so later changes on either side do not meet. */
    function GetMetrics(): (r: map<string, Metric>)
      reads this
      ensures Valid() ==> forall k | k in r :: Named(r[k]) in registered
    {
      metrics
    }

    /** `register_additional_collector`: the collector is exported but never enters the name map. */
    method RegisterAdditionalCollector(c: Collector)
      modifies this
      ensures metrics == old(metrics)
      ensures registered == old(registered) + [Additional(c)]
      ensures old(Valid()) ==> Valid()
    {
      registered := registered + [Additional(c)];
    }

    /** `generate_metrics`. */
    function GenerateMetrics(): (r: Exposition)
      reads this
      ensures r.registered == registered
      ensures Valid() ==> forall k | k in GetMetrics() :: Named(GetMetrics()[k]) in r.registered
    {
      Exposition(registered)
    }
  }

  function AsNamed(ms: seq<Metric>): (r: seq<Registered>)
    ensures |r| == |ms| && forall i | 0 <= i < |ms| :: r[i] == Named(ms[i])
  {
    seq(|ms|, i requires 0 <= i < |ms| => Named(ms[i]))
  }

  /** Registering one more metric appends one entry to the registered list. */
  lemma AsNamedStep(before: seq<Registered>, ms: seq<Metric>, m: Metric)
    ensures before + AsNamed(ms) + [Named(m)] == before + AsNamed(ms + [m])
  {
    assert AsNamed(ms) + [Named(m)] == AsNamed(ms + [m]);
  }

  /** A metric looked up with labels has its values in the canonical (sorted)
      order of its label names, whatever order the labels were given in. */
  lemma BoundValuesFollowSortedNames(reg: MetricsRegistry, name: string, labels: map<string, string>)
    requires name in reg.metrics && Sorted(reg.metrics[name].labelnames)
    requires labels != map[] && reg.GetMetric(name, Some(labels)).Ok?
    ensures var h := reg.GetMetric(name, Some(labels)).value;
      h.Bound? && |h.labelvalues| == |labels| &&
      exists names: seq<string> | Sorted(names) && multiset(names) == multiset(labels.Keys) ::
        |names| == |labels| && forall i | 0 <= i < |names| :: names[i] in labels && h.labelvalues[i] == labels[names[i]]
  {
    var names := reg.metrics[name].labelnames;
    assert |multiset(names)| == |multiset(labels.Keys)|;
  }
}
