/** The in-process metrics registry: string keys that must not collide, cumulative histograms, counters and gauges, and the
    selection that renders each stored key under its metric. */
module Metrics {
  import opened Support

  datatype Kind = Counter | Gauge | Histogram

  /** `labels` are the label names in the order sort() leaves them, `bounds` the upper bounds of the buckets. */
  datatype Definition = Definition(kind: Kind, labels: seq<string>, bounds: seq<real>)

  type Labels = map<string, string>

  /** The table of metrics and the values allowed for each label. */
  datatype Schema = Schema(metrics: map<string, Definition>, values: map<string, set<string>>)

  predicate NoBar(s: string) {
    '|' !in s
  }

  predicate SafeName(labelName: string) {
    || labelName == "source" || labelName == "status" || labelName == "result"
    || labelName == "provider" || labelName == "outcome" || labelName == "stage"
  }

  predicate SafeChar(c: char) {
    'A' <= c <= 'Z' || 'a' <= c <= 'z' || '0' <= c <= '9' || c == '_' || c == '.' || c == ':' || c == '-'
  }

  predicate SafeText(value: string) {
    1 <= |value| <= 64 && forall k | 0 <= k < |value| :: SafeChar(value[k])
  }

  predicate SafeLabel(schema: Schema, labelName: string, value: string) {
    SafeName(labelName) && SafeText(value) && labelName in schema.values && value in schema.values[labelName]
  }

  /** What the table itself guarantees: names without a bar, distinct labels, ascending bounds. */
  predicate Tidy(schema: Schema) {
    forall name | name in schema.metrics ::
      && NoBar(name)
      && (forall i, j | 0 <= i < j < |schema.metrics[name].labels| :: schema.metrics[name].labels[i] != schema.metrics[name].labels[j])
      && (forall i, j | 0 <= i < j < |schema.metrics[name].bounds| :: schema.metrics[name].bounds[i] <= schema.metrics[name].bounds[j])
  }

  // ---- keys -------------------------------------------------------------------------------------------

  datatype MetricError = WrongKind | BadAmount | InvalidLabelSet | UnsafeLabel

  /** The labels given are exactly the expected ones. */
  predicate Expected(d: Definition, labels: Labels) {
    |labels| == |d.labels| && (forall k | 0 <= k < |d.labels| :: d.labels[k] in labels) && (forall l | l in labels :: l in d.labels)
  }

  function LabelError(schema: Schema, d: Definition, labels: Labels): Option<MetricError> {
    if !Expected(d, labels) then Some(InvalidLabelSet)
    else if exists l | l in labels :: !SafeLabel(schema, l, labels[l]) then Some(UnsafeLabel)
    else None
  }

  predicate Accepted(schema: Schema, name: string, labels: Labels) {
    name in schema.metrics && LabelError(schema, schema.metrics[name], labels).None?
  }

  /** `label=value` joined by bars. */
  function Body(names: seq<string>, labels: Labels): string
    requires forall k | 0 <= k < |names| :: names[k] in labels
  {
    if names == [] then ""
    else if |names| == 1 then names[0] + "=" + labels[names[0]]
    else names[0] + "=" + labels[names[0]] + "|" + Body(names[1..], labels)
  }

  function MetricKey(schema: Schema, name: string, labels: Labels): string
    requires Accepted(schema, name, labels)
  {
    name + "|" + Body(schema.metrics[name].labels, labels)
  }

  function FirstBar(s: string): nat {
    if s == "" || s[0] == '|' then 0 else 1 + FirstBar(s[1..])
  }

  lemma {:induction false} FirstBarAfter(a: string, x: string)
    requires NoBar(a)
    ensures FirstBar(a + "|" + x) == |a|
  {
    if a != "" {
      FirstBarAfter(a[1..], x);
      assert (a + "|" + x)[1..] == a[1..] + "|" + x && (a + "|" + x)[0] == a[0];
    } else {
      assert (a + "|" + x)[0] == '|';
    }
  }

  /** The text before the first bar is determined by the whole. */
  lemma CutAtBar(a: string, x: string, b: string, y: string)
    requires NoBar(a) && NoBar(b) && a + "|" + x == b + "|" + y
    ensures a == b && x == y
  {
    var s := a + "|" + x;
    FirstBarAfter(a, x);
    FirstBarAfter(b, y);
    assert a == s[..|a|] && b == s[..|b|];
    assert x == s[|a| + 1..] && y == s[|b| + 1..];
  }

  lemma SafeHasNoBar(schema: Schema, labelName: string, value: string)
    requires SafeLabel(schema, labelName, value)
    ensures NoBar(labelName + "=" + value)
  {
    assert NoBar(labelName);
    assert NoBar(value) by {
      assert forall k | 0 <= k < |value| :: SafeChar(value[k]);
    }
  }

  lemma {:induction false} BodyIsInjective(schema: Schema, names: seq<string>, one: Labels, two: Labels)
    requires forall k | 0 <= k < |names| :: names[k] in one && names[k] in two
                && SafeLabel(schema, names[k], one[names[k]]) && SafeLabel(schema, names[k], two[names[k]])
    requires Body(names, one) == Body(names, two)
    ensures forall k | 0 <= k < |names| :: one[names[k]] == two[names[k]]
    decreases |names|
  {
    if names != [] {
      var l := names[0];
      var p, q := l + "=" + one[l], l + "=" + two[l];
      if |names| > 1 {
        SafeHasNoBar(schema, l, one[l]);
        SafeHasNoBar(schema, l, two[l]);
        CutAtBar(p, Body(names[1..], one), q, Body(names[1..], two));
        forall k | 0 <= k < |names| - 1
          ensures var n := names[1..][k]; n in one && n in two && SafeLabel(schema, n, one[n]) && SafeLabel(schema, n, two[n])
        {
          assert names[1..][k] == names[k + 1];
        }
        BodyIsInjective(schema, names[1..], one, two);
        forall k | 0 < k < |names| ensures one[names[k]] == two[names[k]] {
          assert names[k] == names[1..][k - 1];
        }
      }
      assert p == q;
      assert one[l] == p[|l| + 1..] && two[l] == q[|l| + 1..];
    }
  }

  /** Two accepted updates share a key only if they are of the same metric with the same labels. */
  lemma KeyIsInjective(schema: Schema, name: string, labels: Labels, other: string, others: Labels)
    requires Tidy(schema) && Accepted(schema, name, labels) && Accepted(schema, other, others)
    requires MetricKey(schema, name, labels) == MetricKey(schema, other, others)
    ensures name == other && labels == others
  {
    var d := schema.metrics[name];
    CutAtBar(name, Body(d.labels, labels), other, Body(schema.metrics[other].labels, others));
    BodyIsInjective(schema, d.labels, labels, others);
    forall l | l in labels || l in others ensures l in labels && l in others && labels[l] == others[l] {
      assert l in d.labels;
      var k :| 0 <= k < |d.labels| && d.labels[k] == l;
    }
    assert labels == others;
  }

  ghost predicate HasSafeValue(schema: Schema, labelName: string) {
    exists v: string :: SafeLabel(schema, labelName, v)
  }

  /** Exactly which metrics can ever be updated: those all of whose labels are among the six safe names and have a safe value.
      A metric with any other label, like the `operation` of sat_external_calls_total, rejects every update. */
  lemma UsableExactlyWithSafeLabels(schema: Schema, name: string)
    requires Tidy(schema) && name in schema.metrics
    ensures (exists labels: Labels :: Accepted(schema, name, labels))
       <==> forall k | 0 <= k < |schema.metrics[name].labels| :: HasSafeValue(schema, schema.metrics[name].labels[k])
  {
    var names := schema.metrics[name].labels;
    if labels: Labels :| Accepted(schema, name, labels) {
      forall k | 0 <= k < |names| ensures HasSafeValue(schema, names[k]) {
        assert SafeLabel(schema, names[k], labels[names[k]]);
      }
    }
    if forall k | 0 <= k < |names| :: HasSafeValue(schema, names[k]) {
      var labels := SomeLabels(schema, names);
      assert Accepted(schema, name, labels);
    }
  }

  lemma {:induction false} SomeLabels(schema: Schema, names: seq<string>) returns (labels: Labels)
    requires forall i, j | 0 <= i < j < |names| :: names[i] != names[j]
    requires forall k | 0 <= k < |names| :: HasSafeValue(schema, names[k])
    ensures |labels| == |names| && (forall l | l in labels :: l in names && SafeLabel(schema, l, labels[l]))
    ensures forall k | 0 <= k < |names| :: names[k] in labels
    decreases |names|
  {
    if names == [] {
      labels := map[];
    } else {
      var n := |names| - 1;
      var rest := SomeLabels(schema, names[..n]);
      var v: string :| SafeLabel(schema, names[n], v);
      assert names[n] !in rest;
      labels := rest[names[n] := v];
      assert |labels| == |rest| + 1 by {
        assert labels.Keys == rest.Keys + {names[n]};
      }
      forall k | 0 <= k < |names| ensures names[k] in labels {
        if k < n {
          assert names[..n][k] == names[k];
        }
      }
    }
  }
}
