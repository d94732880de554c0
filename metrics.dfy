/**
 * The gauge families handed to the metrics registry, and what a run of a
 * Python generator produces: the items it yielded, then possibly an exception.
 */
module Metrics {
  import opened Wrappers
  import opened Json

  /** One sample of a family: its label values, in the family's label order, and its value. */
  datatype Sample = Sample(labelValues: seq<Json>, value: Json)

  /** A gauge metric family: name, help text, label names and samples. */
  datatype Family = Family(name: string, doc: string, labels: seq<string>, samples: seq<Sample>)

  /** A family created with label names and no samples yet. */
  function Gauge(name: string, doc: string, labels: seq<string>): Family
  {
    Family(name, doc, labels, [])
  }

  /** A family created with `value=`: no label names, and that one sample unless the value is None. */
  function GaugeValue(name: string, doc: string, value: Json): Family
  {
    Family(name, doc, [], if value.JNull? then [] else [Sample([], value)])
  }

  /**
   * `add_metric(values, v)`: the sample pairs the family's label names with
   * `values` as `zip` does, so values beyond the last label name are dropped.
   */
  function AddMetric(f: Family, values: seq<Json>, v: Json): Family
  {
    var n := if |values| < |f.labels| then |values| else |f.labels|;
    f.(samples := f.samples + [Sample(values[..n], v)])
  }

  /** The two kinds of exception the collectors tell apart. */
  datatype Failure = ConnectionTimeout | OtherError

  /** Items a generator yielded, then the exception that ended it, if one did. */
  datatype Stream = Stream(items: seq<Family>, failure: Option<Failure>)

  /** A generator that yields nothing and returns. */
  const Empty := Stream([], None)

  /** A generator that raises before yielding anything. */
  function Raise(f: Failure): Stream
  {
    Stream([], Some(f))
  }

  /** `yield from a` followed by `yield from b`: `b` never runs once `a` raised. */
  function Then(a: Stream, b: Stream): Stream
  {
    if a.failure.Some? then a else Stream(a.items + b.items, b.failure)
  }

  /** A call to the Elasticsearch client: the parsed response, or the exception it raised. */
  datatype Fetch = Fetched(response: Json) | FetchFailed(failure: Failure)

  lemma ThenAssoc(a: Stream, b: Stream, c: Stream)
    ensures Then(Then(a, b), c) == Then(a, Then(b, c))
  {
    if a.failure.None? && b.failure.None? {
      assert (a.items + b.items) + c.items == a.items + (b.items + c.items);
    }
  }

  /** A property of every family of two generators holds for every family of one run after the other. */
  lemma ThenAll(a: Stream, b: Stream, P: Family -> bool)
    requires forall f :: f in a.items ==> P(f)
    requires forall f :: f in b.items ==> P(f)
    ensures forall f :: f in Then(a, b).items ==> P(f)
  {
  }
}
