/** The registry against the log of its updates: what is stored under a key is a function of the accepted updates of that metric
    with those labels, and of nothing else. */
module MetricRegistry {
  import opened Support
  import opened Metrics

  /** A histogram with cumulative buckets. */
  datatype Series = Series(count: nat, sum: real, buckets: seq<nat>)

  datatype Registry = Registry(scalars: map<string, real>, histograms: map<string, Series>, labels: map<string, Labels>)

  const EMPTY := Registry(map[], map[], map[])

  /** A number as callers pass it; `None` is NaN or an infinity. */
  type Number = Option<real>

  /** The three updates; the name of a metric is one of the table. */
  datatype Update =
    | Increment(name: string, labels: Labels, number: Number)
    | SetGauge(name: string, labels: Labels, number: Number)
    | Observe(name: string, labels: Labels, number: Number)

  function KindOf(u: Update): Kind {
    match u
    case Increment(_, _, _) => Counter
    case SetGauge(_, _, _) => Gauge
    case Observe(_, _, _) => Histogram
  }

  /** The checks in the order they are made. */
  function Rejected(schema: Schema, u: Update): Option<MetricError>
    requires u.name in schema.metrics
  {
    if schema.metrics[u.name].kind != KindOf(u) then Some(WrongKind)
    else if u.number.None? || (!u.SetGauge? && u.number.value < 0.0) then Some(BadAmount)
    else LabelError(schema, schema.metrics[u.name], u.labels)
  }

  /** A label that may be recorded: one of six names, with a short text of plain characters that the table allows. */
  predicate Plain(schema: Schema, labelName: string, value: string) {
    && labelName in {"source", "status", "result", "provider", "outcome", "stage"}
    && 0 < |value| <= 64
    && (forall k | 0 <= k < |value| :: 'A' <= value[k] <= 'Z' || 'a' <= value[k] <= 'z' || '0' <= value[k] <= '9' || value[k] in "_.:-")
    && labelName in schema.values && value in schema.values[labelName]
  }

  lemma SafeIsPlain(schema: Schema, labelName: string, value: string)
    ensures SafeLabel(schema, labelName, value) <==> Plain(schema, labelName, value)
  {
    assert forall c: char :: c in "_.:-" <==> c == '_' || c == '.' || c == ':' || c == '-';
  }

  /** An update is accepted exactly if it fits the kind of its metric, its number is finite, an increment or observation is not negative, and its
      labels are those of the metric, all plain. */
  lemma AcceptedExactly(schema: Schema, u: Update)
    requires u.name in schema.metrics
    ensures var d := schema.metrics[u.name];
            Rejected(schema, u).None? <==>
              && (d.kind.Counter? <==> u.Increment?) && (d.kind.Gauge? <==> u.SetGauge?) && (d.kind.Histogram? <==> u.Observe?)
              && u.number.Some? && (u.Increment? || u.Observe? ==> u.number.value >= 0.0)
              && |u.labels| == |d.labels| && (forall l :: l in u.labels <==> l in d.labels)
              && (forall l | l in u.labels :: Plain(schema, l, u.labels[l]))
  {
    forall l | l in u.labels ensures SafeLabel(schema, l, u.labels[l]) <==> Plain(schema, l, u.labels[l]) {
      SafeIsPlain(schema, l, u.labels[l]);
    }
  }

  function Zeros(n: nat): (zeros: seq<nat>)
    ensures |zeros| == n && forall i | 0 <= i < n :: zeros[i] == 0
  {
    seq(n, _ => 0)
  }

  function StoredSeries(histograms: map<string, Series>, key: string, bounds: seq<real>): Series {
    if key in histograms then histograms[key] else Series(0, 0.0, Zeros(|bounds|))
  }

  function Counted(s: Series, bounds: seq<real>, value: real): Series {
    Series(s.count + 1, s.sum + value,
           seq(|s.buckets|, i requires 0 <= i < |s.buckets| =>
             if i >= |bounds| || value <= bounds[i] then s.buckets[i] + 1 else s.buckets[i]))
  }

  function Next(r: Registry, schema: Schema, u: Update): Registry
    requires u.name in schema.metrics
  {
    if Rejected(schema, u).Some? then r
    else
      var key := MetricKey(schema, u.name, u.labels);
      var named := r.(labels := r.labels[key := u.labels]);
      match u
      case Increment(_, _, amount) => named.(scalars := r.scalars[key := (if key in r.scalars then r.scalars[key] else 0.0) + amount.value])
      case SetGauge(_, _, value) => named.(scalars := r.scalars[key := value.value])
      case Observe(name, _, value) =>
        var bounds := schema.metrics[name].bounds;
        named.(histograms := r.histograms[key := Counted(StoredSeries(r.histograms, key, bounds), bounds, value.value)])
  }

  class FiscalMetrics {
    const schema: Schema
    var scalarValues: map<string, real>
    var histogramValues: map<string, Series>
    var labelsByKey: map<string, Labels>

    function Contents(): Registry
      reads this
    {
      Registry(scalarValues, histogramValues, labelsByKey)
    }

    constructor (schema: Schema)
      ensures Contents() == EMPTY && this.schema == schema
    {
      this.schema := schema;
      scalarValues, histogramValues, labelsByKey := map[], map[], map[];
    }

    /** Checks the labels and remembers them under the key. */
    method KeyFor(name: string, labels: Labels) returns (r: Result<string, MetricError>)
      requires name in schema.metrics
      modifies this`labelsByKey
      ensures r.Err? ==> LabelError(schema, schema.metrics[name], labels) == Some(r.error) && labelsByKey == old(labelsByKey)
      ensures r.Ok? ==> Accepted(schema, name, labels) && r.value == MetricKey(schema, name, labels)
      ensures r.Ok? ==> labelsByKey == old(labelsByKey)[r.value := labels]
    {
      var error := LabelError(schema, schema.metrics[name], labels);
      if error.Some? {
        return Err(error.value);
      }
      var key := MetricKey(schema, name, labels);
      labelsByKey := labelsByKey[key := labels];
      r := Ok(key);
    }

    method AddTo(name: string, labels: Labels, amount: Number) returns (error: Option<MetricError>)
      requires name in schema.metrics
      modifies this
      ensures error == Rejected(schema, Increment(name, labels, amount))
      ensures Contents() == Next(old(Contents()), schema, Increment(name, labels, amount))
    {
      if !schema.metrics[name].kind.Counter? {
        return Some(WrongKind);
      }
      if amount.None? || amount.value < 0.0 {
        return Some(BadAmount);
      }
      var key := KeyFor(name, labels);
      if key.Err? {
        return Some(key.error);
      }
      var before := if key.value in scalarValues then scalarValues[key.value] else 0.0;
      scalarValues := scalarValues[key.value := before + amount.value];
      error := None;
    }

    method SetTo(name: string, labels: Labels, value: Number) returns (error: Option<MetricError>)
      requires name in schema.metrics
      modifies this
      ensures error == Rejected(schema, SetGauge(name, labels, value))
      ensures Contents() == Next(old(Contents()), schema, SetGauge(name, labels, value))
    {
      if !schema.metrics[name].kind.Gauge? {
        return Some(WrongKind);
      }
      if value.None? {
        return Some(BadAmount);
      }
      var key := KeyFor(name, labels);
      if key.Err? {
        return Some(key.error);
      }
      scalarValues := scalarValues[key.value := value.value];
      error := None;
    }

    method ObserveValue(name: string, labels: Labels, value: Number) returns (error: Option<MetricError>)
      requires name in schema.metrics
      modifies this
      ensures error == Rejected(schema, Observe(name, labels, value))
      ensures Contents() == Next(old(Contents()), schema, Observe(name, labels, value))
    {
      if !schema.metrics[name].kind.Histogram? {
        return Some(WrongKind);
      }
      if value.None? || value.value < 0.0 {
        return Some(BadAmount);
      }
      var key := KeyFor(name, labels);
      if key.Err? {
        return Some(key.error);
      }
      var bounds := schema.metrics[name].bounds;
      var stored := StoredSeries(histogramValues, key.value, bounds);
      histogramValues := histogramValues[key.value := Counted(stored, bounds, value.value)];
      error := None;
    }
  }

  // ---- the log of one metric with its labels --------------------------------------------------------------

  predicate Known(schema: Schema, run: seq<Update>) {
    forall k | 0 <= k < |run| :: run[k].name in schema.metrics
  }

  function Run(schema: Schema, run: seq<Update>): Registry
    requires Known(schema, run)
  {
    if run == [] then EMPTY else Next(Run(schema, run[..|run| - 1]), schema, run[|run| - 1])
  }

  predicate Hits(schema: Schema, u: Update, name: string, labels: Labels)
    requires u.name in schema.metrics
  {
    u.name == name && u.labels == labels && Rejected(schema, u).None?
  }

  /** The numbers of the accepted updates, oldest first. */
  function Log(schema: Schema, run: seq<Update>, name: string, labels: Labels): seq<real>
    requires Known(schema, run)
  {
    if run == [] then []
    else
      var u := run[|run| - 1];
      Log(schema, run[..|run| - 1], name, labels) + (if Hits(schema, u, name, labels) then [u.number.value] else [])
  }

  function Total(log: seq<real>): real {
    if log == [] then 0.0 else Total(log[..|log| - 1]) + log[|log| - 1]
  }

  function AtMost(log: seq<real>, bound: real): nat {
    if log == [] then 0 else AtMost(log[..|log| - 1], bound) + (if log[|log| - 1] <= bound then 1 else 0)
  }

  predicate Represents(s: Series, log: seq<real>, bounds: seq<real>) {
    && s.count == |log| && s.sum == Total(log) && |s.buckets| == |bounds|
    && forall i | 0 <= i < |bounds| :: s.buckets[i] == AtMost(log, bounds[i])
  }

  /** What the registry must hold for a metric with its labels. */
  predicate Agrees(r: Registry, key: string, d: Definition, log: seq<real>) {
    match d.kind
    case Counter => (key in r.scalars <==> log != []) && (key in r.scalars ==> r.scalars[key] == Total(log))
    case Gauge => (key in r.scalars <==> log != []) && (key in r.scalars ==> r.scalars[key] == log[|log| - 1])
    case Histogram => (key in r.histograms <==> log != []) && (key in r.histograms ==> Represents(r.histograms[key], log, d.bounds))
  }

  lemma LogGrows(log: seq<real>, value: real, bound: real)
    ensures Total(log + [value]) == Total(log) + value
    ensures AtMost(log + [value], bound) == AtMost(log, bound) + (if value <= bound then 1 else 0)
  {
    assert (log + [value])[..|log|] == log;
  }

  lemma CountedRepresents(s: Series, log: seq<real>, bounds: seq<real>, value: real)
    requires Represents(s, log, bounds)
    ensures Represents(Counted(s, bounds, value), log + [value], bounds)
  {
    LogGrows(log, value, 0.0);
    forall i | 0 <= i < |bounds| ensures Counted(s, bounds, value).buckets[i] == AtMost(log + [value], bounds[i]) {
      LogGrows(log, value, bounds[i]);
    }
  }

  lemma HitKeepsAgreement(r: Registry, schema: Schema, u: Update, log: seq<real>)
    requires u.name in schema.metrics && Rejected(schema, u).None?
    requires Agrees(r, MetricKey(schema, u.name, u.labels), schema.metrics[u.name], log)
    ensures Agrees(Next(r, schema, u), MetricKey(schema, u.name, u.labels), schema.metrics[u.name], log + [u.number.value])
  {
    var value := u.number.value;
    var d := schema.metrics[u.name];
    match u
    case Increment(_, _, _) => LogGrows(log, value, 0.0);
    case SetGauge(_, _, _) =>
    case Observe(_, _, _) => CountedRepresents(StoredSeries(r.histograms, MetricKey(schema, u.name, u.labels), d.bounds), log, d.bounds, value);
  }

  lemma OtherKeepsAgreement(r: Registry, schema: Schema, u: Update, key: string, d: Definition, log: seq<real>)
    requires u.name in schema.metrics && Agrees(r, key, d, log)
    requires Rejected(schema, u).Some? || MetricKey(schema, u.name, u.labels) != key
    ensures Agrees(Next(r, schema, u), key, d, log)
  {
  }

  /** After any updates, accepted or not, each counter is the total of its accepted increments, each gauge the last value set, and each
      histogram the count, the sum and, per bound, the number of its observations at or below it. */
  lemma {:induction false} RegistryIsTheLog(schema: Schema, run: seq<Update>, name: string, labels: Labels)
    requires Tidy(schema) && Known(schema, run) && Accepted(schema, name, labels)
    ensures Agrees(Run(schema, run), MetricKey(schema, name, labels), schema.metrics[name], Log(schema, run, name, labels))
  {
    if run != [] {
      var n := |run| - 1;
      var u := run[n];
      RegistryIsTheLog(schema, run[..n], name, labels);
      if Hits(schema, u, name, labels) {
        HitKeepsAgreement(Run(schema, run[..n]), schema, u, Log(schema, run[..n], name, labels));
      } else {
        if Rejected(schema, u).None? && MetricKey(schema, u.name, u.labels) == MetricKey(schema, name, labels) {
          KeyIsInjective(schema, u.name, u.labels, name, labels);
          assert false;
        }
        OtherKeepsAgreement(Run(schema, run[..n]), schema, u, MetricKey(schema, name, labels), schema.metrics[name],
                            Log(schema, run[..n], name, labels));
        assert Log(schema, run, name, labels) == Log(schema, run[..n], name, labels);
      }
    }
  }

  lemma {:induction false} AtMostGrows(log: seq<real>, low: real, high: real)
    requires low <= high
    ensures AtMost(log, low) <= AtMost(log, high) <= |log|
  {
    if log != [] {
      AtMostGrows(log[..|log| - 1], low, high);
    }
  }

  /** The buckets of a stored histogram never decrease from one bound to the next, and none exceeds the count. */
  lemma BucketsAreCumulative(schema: Schema, run: seq<Update>, name: string, labels: Labels, i: nat, j: nat)
    requires Tidy(schema) && Known(schema, run) && Accepted(schema, name, labels) && schema.metrics[name].kind.Histogram?
    requires i <= j < |schema.metrics[name].bounds| && MetricKey(schema, name, labels) in Run(schema, run).histograms
    ensures var s := Run(schema, run).histograms[MetricKey(schema, name, labels)];
            |s.buckets| == |schema.metrics[name].bounds| && s.buckets[i] <= s.buckets[j] <= s.count
  {
    RegistryIsTheLog(schema, run, name, labels);
    AtMostGrows(Log(schema, run, name, labels), schema.metrics[name].bounds[i], schema.metrics[name].bounds[j]);
  }

  // ---- nothing counted is lost ----------------------------------------------------------------------------

  predicate NoLess(a: Series, b: Series) {
    && a.count <= b.count && a.sum <= b.sum && |a.buckets| <= |b.buckets|
    && forall i | 0 <= i < |a.buckets| :: a.buckets[i] <= b.buckets[i]
  }

  /** A counter or histogram stored in the one is stored in the other and is no less there. */
  predicate Kept(before: Registry, after: Registry, key: string, kind: Kind) {
    && (kind.Counter? && key in before.scalars ==> key in after.scalars && before.scalars[key] <= after.scalars[key])
    && (kind.Histogram? && key in before.histograms ==> key in after.histograms && NoLess(before.histograms[key], after.histograms[key]))
  }

  lemma UpdateKeeps(r: Registry, schema: Schema, u: Update, name: string, labels: Labels)
    requires Tidy(schema) && u.name in schema.metrics && Accepted(schema, name, labels)
    ensures Kept(r, Next(r, schema, u), MetricKey(schema, name, labels), schema.metrics[name].kind)
  {
    if Rejected(schema, u).None? && MetricKey(schema, u.name, u.labels) == MetricKey(schema, name, labels) {
      KeyIsInjective(schema, u.name, u.labels, name, labels);
    }
  }

  /** Over any run, whatever is recorded next, no counter decreases and no histogram loses an observation from any of its figures. */
  lemma {:induction false} NothingDecreases(schema: Schema, run: seq<Update>, n: nat, name: string, labels: Labels)
    requires Tidy(schema) && Known(schema, run) && Accepted(schema, name, labels) && n <= |run|
    ensures Kept(Run(schema, run[..n]), Run(schema, run), MetricKey(schema, name, labels), schema.metrics[name].kind)
  {
    if n < |run| {
      var before := run[..|run| - 1];
      NothingDecreases(schema, before, n, name, labels);
      UpdateKeeps(Run(schema, before), schema, run[|run| - 1], name, labels);
      assert before[..n] == run[..n];
    } else {
      assert run[..n] == run;
    }
  }

  // ---- rendering ---------------------------------------------------------------------------------------------

  /** The lines a stored key appears in: those of the metrics whose name and bar it starts with. */
  predicate RenderedUnder(schema: Schema, key: string, histogram: bool, name: string) {
    name in schema.metrics && (schema.metrics[name].kind.Histogram? <==> histogram) && name + "|" <= key
  }

  predicate KeyOf(r: Registry, schema: Schema, key: string, name: string, labels: Labels) {
    Accepted(schema, name, labels) && key == MetricKey(schema, name, labels) && key in r.labels && r.labels[key] == labels
  }

  ghost predicate Explained(r: Registry, schema: Schema, key: string, histogram: bool) {
    exists name: string, labels: Labels :: KeyOf(r, schema, key, name, labels) && (schema.metrics[name].kind.Histogram? <==> histogram)
  }

  lemma ExplainedStays(r: Registry, schema: Schema, u: Update, key: string, histogram: bool)
    requires Tidy(schema) && u.name in schema.metrics && Explained(r, schema, key, histogram)
    ensures Explained(Next(r, schema, u), schema, key, histogram)
  {
    var name: string, labels: Labels :| KeyOf(r, schema, key, name, labels) && (schema.metrics[name].kind.Histogram? <==> histogram);
    if Rejected(schema, u).None? && MetricKey(schema, u.name, u.labels) == key {
      KeyIsInjective(schema, u.name, u.labels, name, labels);
    }
    assert KeyOf(Next(r, schema, u), schema, key, name, labels);
  }

  lemma NewKeyExplained(r: Registry, schema: Schema, u: Update)
    requires u.name in schema.metrics && Rejected(schema, u).None?
    ensures Explained(Next(r, schema, u), schema, MetricKey(schema, u.name, u.labels), u.Observe?)
  {
    assert KeyOf(Next(r, schema, u), schema, MetricKey(schema, u.name, u.labels), u.name, u.labels);
  }

  lemma {:induction false} KeysAreExplained(schema: Schema, run: seq<Update>, key: string)
    requires Tidy(schema) && Known(schema, run)
    ensures key in Run(schema, run).scalars ==> Explained(Run(schema, run), schema, key, false)
    ensures key in Run(schema, run).histograms ==> Explained(Run(schema, run), schema, key, true)
  {
    if run != [] {
      var before := Run(schema, run[..|run| - 1]);
      var u := run[|run| - 1];
      KeysAreExplained(schema, run[..|run| - 1], key);
      if key in before.scalars {
        ExplainedStays(before, schema, u, key, false);
      }
      if key in before.histograms {
        ExplainedStays(before, schema, u, key, true);
      }
      if Rejected(schema, u).None? {
        NewKeyExplained(before, schema, u);
      }
    }
  }

  /** Every stored key is rendered under exactly one metric, the one it was updated for, and with the labels it was updated with. */
  lemma EachKeyIsRenderedOnce(schema: Schema, run: seq<Update>, key: string, histogram: bool)
    requires Tidy(schema) && Known(schema, run)
    requires if histogram then key in Run(schema, run).histograms else key in Run(schema, run).scalars
    ensures exists name: string, labels: Labels ::
              && KeyOf(Run(schema, run), schema, key, name, labels)
              && forall other | other in schema.metrics :: RenderedUnder(schema, key, histogram, other) <==> other == name
  {
    KeysAreExplained(schema, run, key);
    var name: string, labels: Labels :|
      KeyOf(Run(schema, run), schema, key, name, labels) && (schema.metrics[name].kind.Histogram? <==> histogram);
    forall other | other in schema.metrics ensures RenderedUnder(schema, key, histogram, other) <==> other == name {
      if other + "|" <= key {
        var rest := key[|other| + 1..];
        assert key == other + "|" + rest;
        CutAtBar(other, rest, name, Body(schema.metrics[name].labels, labels));
      }
    }
  }
}
