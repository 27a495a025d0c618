/** Metric configuration and the metrics registry of the older API
    (prometheus_aioexporter/metric.py): four types, and config keys renamed to
    constructor keywords. */
module LegacyMetric {

  import opened Wrappers
  import opened Text
  import Dict
  import Batch
  import Metric

  /** A metric type: its class, and for each config key it accepts the
      constructor keyword that key becomes. */
  datatype MetricType = MetricType(kind: Metric.MetricKind, options: seq<(string, string)>)

  /** `METRIC_TYPES`, in the order of the dict display. */
  const MetricTypes: seq<(string, MetricType)> := [
    ("counter", MetricType(Metric.Counter, [("labels", "labelnames")])),
    ("gauge", MetricType(Metric.Gauge, [("labels", "labelnames")])),
    ("histogram", MetricType(Metric.Histogram, [("labels", "labelnames"), ("buckets", "buckets")])),
    ("summary", MetricType(Metric.Summary, [("labels", "labelnames")]))
  ]

  /** The four type tags, in sorted order. */
  const TypeTags: seq<string> := ["counter", "gauge", "histogram", "summary"]

  /** `MetricConfig(name, description, type, config)`, a namedtuple. Its `_replace`
      and `_make` bypass the check in `__new__`, so any value is possible here. */
  datatype MetricConfig = MetricConfig(
    name: string,
    description: string,
    typ: string,
    config: map<string, Metric.OptionValue>)

  /** `InvalidMetricType(name, invalid_type)`. */
  datatype InvalidMetricType = InvalidMetricType(name: string, invalidType: string) {
    /** The error message names the config and lists the four tags in sorted
        order: `counter, gauge, histogram, summary`. */
    function Message(): (r: string)
      ensures r == "Invalid type for " + name + ": must be one of counter, gauge, histogram, summary"
    {
      TagsInTableOrder();
      TypeTagsSorted();
      SortKeepsSorted(TypeTags);
      JoinTypeTags();
      TagListText();
      MessageText(name);
      "Invalid type for " + name + ": must be one of " + Join(SortStrings(Dict.Keys(MetricTypes)), ", ")
    }
  }

  /** A metric as prometheus_client holds it: its class and the keyword
      arguments it was built with besides name, description and registry. */
  datatype LegacyMetric = LegacyMetric(
    kind: Metric.MetricKind,
    name: string,
    description: string,
    kwargs: map<string, Metric.OptionValue>)

  /** One registration in the collector registry. */
  datatype Registered = Named(metric: LegacyMetric) | Additional(collector: Metric.Collector)

  /** The input of `generate_latest`: the collector registry's contents in order. */
  datatype Exposition = Exposition(registered: seq<Registered>)

  lemma TagsInTableOrder()
    ensures Dict.Keys(MetricTypes) == TypeTags
  {
  }

  /** `METRIC_TYPES[tag]`. */
  function LookupType(tag: string): (r: Option<MetricType>)
    ensures r.Some? <==> tag in TypeTags
    ensures r.Some? ==> (tag, r.value) in MetricTypes
  {
    Dict.LookupFound(MetricTypes, tag);
    TagsInTableOrder();
    Dict.Lookup(MetricTypes, tag)
  }

  /** `MetricConfig.__new__`: refuses a type outside the table. */
  function NewMetricConfig(name: string, description: string, typ: string,
                           config: map<string, Metric.OptionValue>): (r: Result<MetricConfig, InvalidMetricType>)
    ensures r.Ok? <==> typ in TypeTags
    ensures r.Ok? ==> r.value == MetricConfig(name, description, typ, config)
    ensures r.Err? ==> r.error == InvalidMetricType(name, typ)
  {
    if LookupType(typ).None? then Err(InvalidMetricType(name, typ)) else Ok(MetricConfig(name, description, typ, config))
  }

  lemma TypeTagsSorted()
    ensures Sorted(TypeTags)
  {
  }

  /** The four tags joined by ", ", written out with the nesting `Join` produces. */
  lemma JoinTypeTags()
    ensures Join(TypeTags, ", ") == "counter" + ", " + ("gauge" + ", " + ("histogram" + ", " + "summary"))
  {
    assert TypeTags[1..] == ["gauge", "histogram", "summary"];
    assert TypeTags[2..] == ["histogram", "summary"];
    assert TypeTags[3..] == ["summary"];
  }

  lemma MessageText(name: string)
    ensures "Invalid type for " + name + ": must be one of " + "counter, gauge, histogram, summary"
         == "Invalid type for " + name + ": must be one of counter, gauge, histogram, summary"
  {
  }

  /** The nested joins spelled as one text, one tag at a time. */
  lemma TagListText()
    ensures "counter" + ", " + ("gauge" + ", " + ("histogram" + ", " + "summary")) == "counter, gauge, histogram, summary"
  {
    JoinedFromHistogram();
    JoinedFromGauge();
  }

  lemma JoinedFromHistogram()
    ensures "histogram" + ", " + "summary" == "histogram, summary"
  {
  }

  lemma JoinedFromGauge()
    ensures "gauge" + ", " + "histogram, summary" == "gauge, histogram, summary"
  {
  }

  /** `{options[key]: value for key, value in config.items() if key in options}`:
      every config key the type accepts, under its constructor keyword. (No two
      keys of one type share a keyword, so the order of the pairs is immaterial.) */
  function RenameOptions(config: map<string, Metric.OptionValue>, renames: seq<(string, string)>): (r: map<string, Metric.OptionValue>)
    ensures r.Keys == set i | 0 <= i < |renames| && renames[i].0 in config :: renames[i].1
    ensures forall i | 0 <= i < |renames| && renames[i].0 in config && (forall j | 0 <= j < i :: renames[j].1 != renames[i].1) ::
      r[renames[i].1] == config[renames[i].0]
  {
    if renames == [] then map[]
    else
      var rest := RenameOptions(config, renames[1..]);
      if renames[0].0 in config then rest[renames[0].1 := config[renames[0].0]] else rest
  }

  function NameOf(c: MetricConfig): string {
    c.name
  }

  /** `_register_metric`. */
  function RegisterMetric(c: MetricConfig): (r: Result<LegacyMetric, Metric.MetricError>)
    ensures r.Ok? <==> c.typ in TypeTags
    ensures r.Err? ==> r.error == Metric.KeyError(c.typ)
    ensures r.Ok? ==> exists t | (c.typ, t) in MetricTypes :: r.value.kind == t.kind
    ensures r.Ok? ==> r.value.name == c.name && r.value.description == c.description
  {
    match LookupType(c.typ)
    case None => Err(Metric.KeyError(c.typ))
    case Some(t) => Ok(LegacyMetric(t.kind, c.name, c.description, RenameOptions(c.config, t.options)))
  }

  /** The keywords each class receives, stated independently of the table:
      `labels` becomes `labelnames` for every type, `buckets` stays `buckets`
      for a histogram only, and every other key is dropped. */
  lemma RenamedOptions(c: MetricConfig)
    requires RegisterMetric(c).Ok?
    ensures var m := RegisterMetric(c).value;
      && m.kwargs.Keys == (if "labels" in c.config then {"labelnames"} else {})
                        + (if m.kind == Metric.Histogram && "buckets" in c.config then {"buckets"} else {})
      && ("labels" in c.config ==> m.kwargs["labelnames"] == c.config["labels"])
      && (m.kind == Metric.Histogram && "buckets" in c.config ==> m.kwargs["buckets"] == c.config["buckets"])
  {
    var t := LookupType(c.typ).value;
    var m := RegisterMetric(c).value;
    assert m.kwargs == RenameOptions(c.config, t.options) && m.kind == t.kind;
    if m.kind == Metric.Histogram {
      assert t.options == [("labels", "labelnames"), ("buckets", "buckets")];
      RenameTwo(c.config, "labels", "labelnames", "buckets", "buckets");
    } else {
      assert t.options == [("labels", "labelnames")];
      RenameOne(c.config, "labels", "labelnames");
    }
  }

  lemma RenameOne(config: map<string, Metric.OptionValue>, key: string, kw: string)
    ensures RenameOptions(config, [(key, kw)]) == if key in config then map[kw := config[key]] else map[]
  {
    assert [(key, kw)][1..] == [];
  }

  lemma RenameTwo(config: map<string, Metric.OptionValue>, key1: string, kw1: string, key2: string, kw2: string)
    ensures var tail := if key2 in config then map[kw2 := config[key2]] else map[];
      RenameOptions(config, [(key1, kw1), (key2, kw2)]) == if key1 in config then tail[kw1 := config[key1]] else tail
  {
    assert [(key1, kw1), (key2, kw2)][1..] == [(key2, kw2)];
    RenameOne(config, key2, kw2);
  }

  /** `MetricsRegistry`. */
  class MetricsRegistry {
    /** `_metrics`: the metrics created by name. */
    var metrics: map<string, LegacyMetric>
    /** The `CollectorRegistry`'s contents, in registration order. */
    var registered: seq<Registered>

    /** Every metric in the name map is in the collector registry, and so is exported. */
    ghost predicate Valid()
      reads this
    {
      forall k | k in metrics :: Named(metrics[k]) in registered
    }

    constructor ()
      ensures metrics == map[] && registered == []
      ensures Valid()
    {
      metrics := map[];
      registered := [];
    }

    /** `create_metrics`: build every config in order, then merge the batch
        into the name map, overwriting metrics of the same name. */
    method CreateMetrics(configs: seq<MetricConfig>) returns (r: Result<map<string, LegacyMetric>, Metric.MetricError>)
      modifies this
      ensures r == Batch.Collect(configs, NameOf, RegisterMetric)
      ensures r.Ok? ==> metrics == old(metrics) + r.value
      ensures r.Err? ==> metrics == old(metrics)
      ensures registered == old(registered) + AsNamed(Batch.Built(configs, RegisterMetric))
      ensures old(Valid()) ==> Valid()
    {
      var batch := map[];
      var i := 0;
      while i < |configs|
        invariant 0 <= i <= |configs|
        invariant Batch.Collect(configs[..i], NameOf, RegisterMetric) == Ok(batch)
        invariant forall j | 0 <= j < i :: RegisterMetric(configs[j]).Ok?
        invariant metrics == old(metrics)
        invariant registered == old(registered) + AsNamed(Batch.Built(configs[..i], RegisterMetric))
        invariant forall x | x in old(registered) :: x in registered
        invariant forall k | k in batch :: Named(batch[k]) in registered
      {
        var m := RegisterMetric(configs[i]);
        Batch.CollectStep(configs, i, NameOf, RegisterMetric);
        if m.Err? {
          Batch.StopsAt(configs, i, NameOf, RegisterMetric);
          return Err(m.error);
        }
        Batch.BuiltStep(configs, i, RegisterMetric);
        AsNamedStep(old(registered), Batch.Built(configs[..i], RegisterMetric), m.value);
        registered := registered + [Named(m.value)];
        batch := batch[configs[i].name := m.value];
        i := i + 1;
      }
      assert configs[..i] == configs;
      metrics := metrics + batch;
      r := Ok(batch);
    }

    /** `get_metrics`: the name map as a value. */
    function GetMetrics(): (r: map<string, LegacyMetric>)
      reads this
      ensures Valid() ==> forall k | k in r :: Named(r[k]) in registered
    {
      metrics
    }

    /** `register_additional_collector`: never enters the name map. */
    method RegisterAdditionalCollector(c: Metric.Collector)
      modifies this
      ensures metrics == old(metrics)
      ensures registered == old(registered) + [Additional(c)]
      ensures old(Valid()) ==> Valid()
    {
      registered := registered + [Additional(c)];
    }

    /** `generate_metrics`. */
    function GenerateMetrics(): (r: Exposition)
      reads this
      ensures r.registered == registered
      ensures Valid() ==> forall k | k in GetMetrics() :: Named(GetMetrics()[k]) in r.registered
    {
      Exposition(registered)
    }
  }

  function AsNamed(ms: seq<LegacyMetric>): (r: seq<Registered>)
    ensures |r| == |ms| && forall i | 0 <= i < |ms| :: r[i] == Named(ms[i])
  {
    seq(|ms|, i requires 0 <= i < |ms| => Named(ms[i]))
  }

  /** Registering one more metric appends one entry to the registered list. */
  lemma AsNamedStep(before: seq<Registered>, ms: seq<LegacyMetric>, m: LegacyMetric)
    ensures before + AsNamed(ms) + [Named(m)] == before + AsNamed(ms + [m])
  {
    assert AsNamed(ms) + [Named(m)] == AsNamed(ms + [m]);
  }
}
