/**
 * `IndicesStatsCollector._get_metric`: the `indices.stats` response, with
 * the cluster-wide `_all` totals added as one more index, translated into
 * one family per flattened triple of each index's `primaries` and `total`
 * statistics.
 */
module Indices {
  import opened Wrappers
  import opened Json
  import opened Metrics
  import opened OrderedMap
  import opened Triples

  /** The collector key, and so the prefix of every family name. */
  const Key := "indices_stats"

  /** `labels_key_list`. */
  const LabelNames: seq<string> := ["index", "context"]

  /** The statistics contexts of an index, in the order they are flattened. */
  const Contexts: seq<string> := ["primaries", "total"]

  /**
   * `response['indices']` after `indices['_all'] = response['_all']`: None
   * where a lookup raises KeyError, or where `indices` is not a dict and the
   * assignment raises TypeError.
   */
  function WithAll(response: Json): (r: Option<Entries<Json>>)
    ensures r.Some? <==>
      && Field(response, "indices").Some? && Field(response, "indices").value.JObj?
      && Field(response, "_all").Some?
  {
    match Field(response, "indices")
    case None => None
    case Some(indices) =>
      if !indices.JObj? then None
      else match Field(response, "_all")
        case None => None
        case Some(all) => Some(Put(indices.fields, "_all", all))
  }

  /**
   * The `_all` totals become the index `_all`: an index of that name is
   * overwritten in its place, otherwise `_all` is appended after every other
   * index; every other index keeps its statistics and its position.
   */
  lemma AllInjected(response: Json)
    requires WithAll(response).Some?
    ensures var before := Field(response, "indices").value.fields;
      var after := WithAll(response).value;
      && Get(after, "_all") == Field(response, "_all")
      && (forall x :: x != "_all" ==> Get(after, x) == Get(before, x))
      && Keys(before) <= Keys(after)
      && ("_all" in Keys(before) ==> |after| == |before|)
      && ("_all" !in Keys(before) ==> Keys(after) == Keys(before) + ["_all"])
  {
    var before := Field(response, "indices").value.fields;
    var all := Field(response, "_all").value;
    GetPutSame(before, "_all", all);
    forall x | x != "_all" ensures Get(Put(before, "_all", all), x) == Get(before, x) {
      GetPutOther(before, "_all", all, x);
    }
    PutKeepsOrder(before, "_all", all);
  }

  /** The label values of the families of one index under one context. */
  function ContextValues(index: string, c: nat): seq<Json>
    requires c < |Contexts|
  {
    [JStr(index), JStr(Contexts[c])]
  }

  /** The families of the contexts from position `c` on; a missing context raises KeyError. */
  function ContextsFrom(index: string, indexStats: Json, c: nat, isBlock: string -> bool,
                        flatten: (string, Json) -> seq<Triple>): Stream
    requires c <= |Contexts|
    decreases |Contexts| - c
  {
    if c == |Contexts| then Empty
    else match Field(indexStats, Contexts[c])
      case None => Raise(OtherError)
      case Some(stats) =>
        Then(Stream(TripleFamilies(flatten(Key + "_", stats), LabelNames, ContextValues(index, c), isBlock), None),
             ContextsFrom(index, indexStats, c + 1, isBlock, flatten))
  }

  /** The families of the indices from position `i` on, stopping at the first that raises. */
  function IndicesFrom(indices: Entries<Json>, i: nat, isBlock: string -> bool,
                       flatten: (string, Json) -> seq<Triple>): Stream
    requires i <= |indices|
    decreases |indices| - i
  {
    if i == |indices| then Empty
    else Then(ContextsFrom(indices[i].0, indices[i].1, 0, isBlock, flatten),
              IndicesFrom(indices, i + 1, isBlock, flatten))
  }

  /** `_get_metric` for the `indices.stats` call `fetch`. */
  function IndexStats(fetch: Fetch, isBlock: string -> bool, flatten: (string, Json) -> seq<Triple>): Stream
  {
    match fetch
    case FetchFailed(f) => Raise(f)
    case Fetched(response) =>
      match WithAll(response)
      case None => Raise(OtherError)
      case Some(indices) => IndicesFrom(indices, 0, isBlock, flatten)
  }

  // ---------------------------------------------------------------------
  // Properties
  // ---------------------------------------------------------------------

  /**
   * A family of the index `index`: the label names `index`, `context`, a
   * name the blocklist lets through, and exactly one sample whose label
   * values are the index and one of its contexts.
   */
  predicate IndexFamily(f: Family, isBlock: string -> bool, index: string)
  {
    && f.labels == LabelNames && !isBlock(f.name) && |f.samples| == 1
    && f.samples[0].labelValues in [ContextValues(index, 0), ContextValues(index, 1)]
  }

  lemma {:induction false} ContextsLabelled(index: string, indexStats: Json, c: nat, isBlock: string -> bool,
                                            flatten: (string, Json) -> seq<Triple>)
    requires c <= |Contexts|
    ensures forall f :: f in ContextsFrom(index, indexStats, c, isBlock, flatten).items ==> IndexFamily(f, isBlock, index)
    decreases |Contexts| - c
  {
    if c < |Contexts| && Field(indexStats, Contexts[c]).Some? {
      var ts := flatten(Key + "_", Field(indexStats, Contexts[c]).value);
      TripleFamiliesShape(ts, LabelNames, ContextValues(index, c), isBlock);
      ContextsLabelled(index, indexStats, c + 1, isBlock, flatten);
      ThenAll(Stream(TripleFamilies(ts, LabelNames, ContextValues(index, c), isBlock), None),
              ContextsFrom(index, indexStats, c + 1, isBlock, flatten),
              (f: Family) => IndexFamily(f, isBlock, index));
    }
  }

  /** The families of one index are those of `primaries` followed by those of `total`, when both are present. */
  lemma ContextsBoth(index: string, indexStats: Json, isBlock: string -> bool, flatten: (string, Json) -> seq<Triple>)
    requires Field(indexStats, "primaries").Some? && Field(indexStats, "total").Some?
    ensures ContextsFrom(index, indexStats, 0, isBlock, flatten) == Stream(
      TripleFamilies(flatten(Key + "_", Field(indexStats, "primaries").value), LabelNames, ContextValues(index, 0), isBlock)
      + TripleFamilies(flatten(Key + "_", Field(indexStats, "total").value), LabelNames, ContextValues(index, 1), isBlock),
      None)
  {
    var tf := TripleFamilies(flatten(Key + "_", Field(indexStats, "total").value), LabelNames, ContextValues(index, 1), isBlock);
    assert tf + [] == tf;
  }

  /** A missing context raises KeyError, after the families of the contexts before it. */
  lemma ContextsMissing(index: string, indexStats: Json, isBlock: string -> bool, flatten: (string, Json) -> seq<Triple>)
    ensures var out := ContextsFrom(index, indexStats, 0, isBlock, flatten);
      && (out.failure.None? <==> Field(indexStats, "primaries").Some? && Field(indexStats, "total").Some?)
      && (Field(indexStats, "primaries").None? ==> out == Raise(OtherError))
  {
  }

  lemma ContextFamily(index: string, c: nat, t: Triple)
    requires c < |Contexts|
    ensures var f := TripleFamily(t, LabelNames, ContextValues(index, c));
      f.labels == LabelNames && f.samples == [Sample([JStr(index), JStr(Contexts[c])], t.value)]
  {
    assert ContextValues(index, c)[..2] == ContextValues(index, c);
  }

  lemma TwoContexts(index: string, ps: seq<Triple>, tot: seq<Triple>, isBlock: string -> bool)
    ensures var pf := TripleFamilies(ps, LabelNames, ContextValues(index, 0), isBlock);
      var tf := TripleFamilies(tot, LabelNames, ContextValues(index, 1), isBlock);
      var primaries := Unblocked(ps, isBlock);
      && |pf + tf| == |primaries| + |Unblocked(tot, isBlock)|
      && forall n :: 0 <= n < |pf + tf| ==>
        && (pf + tf)[n].labels == LabelNames && |(pf + tf)[n].samples| == 1
        && (pf + tf)[n].samples[0].labelValues == [JStr(index), JStr(if n < |primaries| then "primaries" else "total")]
  {
    var pf := TripleFamilies(ps, LabelNames, ContextValues(index, 0), isBlock);
    var tf := TripleFamilies(tot, LabelNames, ContextValues(index, 1), isBlock);
    var pu := Unblocked(ps, isBlock);
    var tu := Unblocked(tot, isBlock);
    TripleFamiliesUnblocked(ps, LabelNames, ContextValues(index, 0), isBlock);
    TripleFamiliesUnblocked(tot, LabelNames, ContextValues(index, 1), isBlock);
    var both: seq<Family> := pf + tf;
    forall n | 0 <= n < |both|
      ensures both[n].labels == LabelNames && |both[n].samples| == 1
      ensures both[n].samples[0].labelValues == [JStr(index), JStr(if n < |pu| then "primaries" else "total")]
    {
      if n < |pf| {
        assert both[n] == TripleFamily(pu[n], LabelNames, ContextValues(index, 0));
        ContextFamily(index, 0, pu[n]);
      } else {
        assert both[n] == TripleFamily(tu[n - |pf|], LabelNames, ContextValues(index, 1));
        ContextFamily(index, 1, tu[n - |pf|]);
      }
    }
  }

  /**
   * With both contexts present, an index yields the families of its
   * unblocked `primaries` triples, then those of its unblocked `total`
   * triples, each with the one sample `[index, context]`, and does not raise.
   */
  lemma IndexContexts(index: string, indexStats: Json, isBlock: string -> bool, flatten: (string, Json) -> seq<Triple>)
    requires Field(indexStats, "primaries").Some? && Field(indexStats, "total").Some?
    ensures var out := ContextsFrom(index, indexStats, 0, isBlock, flatten);
      var primaries := Unblocked(flatten(Key + "_", Field(indexStats, "primaries").value), isBlock);
      var total := Unblocked(flatten(Key + "_", Field(indexStats, "total").value), isBlock);
      && out.failure.None?
      && |out.items| == |primaries| + |total|
      && forall n :: 0 <= n < |out.items| ==>
        && out.items[n].labels == LabelNames && |out.items[n].samples| == 1
        && out.items[n].samples[0].labelValues == [JStr(index), JStr(if n < |primaries| then "primaries" else "total")]
  {
    ContextsBoth(index, indexStats, isBlock, flatten);
    TwoContexts(index, flatten(Key + "_", Field(indexStats, "primaries").value),
                flatten(Key + "_", Field(indexStats, "total").value), isBlock);
  }

  lemma {:induction false} IndicesLabelled(indices: Entries<Json>, i: nat, isBlock: string -> bool,
                                           flatten: (string, Json) -> seq<Triple>)
    requires i <= |indices|
    ensures forall f :: f in IndicesFrom(indices, i, isBlock, flatten).items ==>
      exists k :: i <= k < |indices| && IndexFamily(f, isBlock, indices[k].0)
    decreases |indices| - i
  {
    if i < |indices| {
      var here := ContextsFrom(indices[i].0, indices[i].1, 0, isBlock, flatten);
      var rest := IndicesFrom(indices, i + 1, isBlock, flatten);
      ContextsLabelled(indices[i].0, indices[i].1, 0, isBlock, flatten);
      IndicesLabelled(indices, i + 1, isBlock, flatten);
      forall f | f in IndicesFrom(indices, i, isBlock, flatten).items
        ensures exists k :: i <= k < |indices| && IndexFamily(f, isBlock, indices[k].0)
      {
        if f in here.items {
          assert IndexFamily(f, isBlock, indices[i].0);
        } else {
          assert f in rest.items;
          var k :| i + 1 <= k < |indices| && IndexFamily(f, isBlock, indices[k].0);
        }
      }
    }
  }

  /**
   * Every family of the collector has the label names `index`, `context`, a
   * name the blocklist lets through, and exactly one sample whose label
   * values are `[index, context]` for one of the indices (including `_all`)
   * and one of `primaries`, `total`.
   */
  lemma IndexStatsLabelled(fetch: Fetch, isBlock: string -> bool, flatten: (string, Json) -> seq<Triple>)
    ensures forall f :: f in IndexStats(fetch, isBlock, flatten).items ==>
      fetch.Fetched? && WithAll(fetch.response).Some? &&
      exists k :: 0 <= k < |WithAll(fetch.response).value|
        && IndexFamily(f, isBlock, WithAll(fetch.response).value[k].0)
  {
    if fetch.Fetched? && WithAll(fetch.response).Some? {
      IndicesLabelled(WithAll(fetch.response).value, 0, isBlock, flatten);
    }
  }

  // ---------------------------------------------------------------------
  // The collector
  // ---------------------------------------------------------------------

  /**
   * `_get_metric`, given what `indices.stats` returned; `isBlock` and
   * `flatten` stand for `_is_block` and `auto_gen_metric`.
   */
  method GetMetric(fetch: Fetch, isBlock: string -> bool, flatten: (string, Json) -> seq<Triple>)
    returns (out: Stream)
    ensures out == IndexStats(fetch, isBlock, flatten)
    ensures forall f :: f in out.items ==> f.labels == LabelNames && !isBlock(f.name) && |f.samples| == 1
  {
    IndexStatsLabelled(fetch, isBlock, flatten);
    if fetch.FetchFailed? {
      return Raise(fetch.failure);
    }
    var response := fetch.response;
    var found := Field(response, "indices");
    if found.None? || !found.value.JObj? {
      return Raise(OtherError);
    }
    var indices := found.value.fields;
    var all := Field(response, "_all");
    if all.None? {
      return Raise(OtherError);
    }
    indices := Put(indices, "_all", all.value);
    out := EmitIndices(indices, isBlock, flatten);
  }

  /** `for index, index_dict in indices.items()`: each index's families, until one raises. */
  method EmitIndices(indices: Entries<Json>, isBlock: string -> bool, flatten: (string, Json) -> seq<Triple>)
    returns (out: Stream)
    ensures out == IndicesFrom(indices, 0, isBlock, flatten)
  {
    var items: seq<Family> := [];
    var i := 0;
    while i < |indices|
      invariant 0 <= i <= |indices|
      invariant IndicesFrom(indices, 0, isBlock, flatten)
        == Then(Stream(items, None), IndicesFrom(indices, i, isBlock, flatten))
    {
      var s := EmitContexts(indices[i].0, indices[i].1, isBlock, flatten);
      ThenAssoc(Stream(items, None), s, IndicesFrom(indices, i + 1, isBlock, flatten));
      if s.failure.Some? {
        return Stream(items + s.items, s.failure);
      }
      items := items + s.items;
      i := i + 1;
    }
    assert items + [] == items;
    out := Stream(items, None);
  }

  lemma ContextsStep(index: string, indexStats: Json, c: nat, isBlock: string -> bool,
                     flatten: (string, Json) -> seq<Triple>, items: seq<Family>, fams: seq<Family>)
    requires c < |Contexts| && Field(indexStats, Contexts[c]).Some?
    requires fams == TripleFamilies(flatten(Key + "_", Field(indexStats, Contexts[c]).value), LabelNames,
                                    ContextValues(index, c), isBlock)
    ensures Then(Stream(items, None), ContextsFrom(index, indexStats, c, isBlock, flatten))
      == Then(Stream(items + fams, None), ContextsFrom(index, indexStats, c + 1, isBlock, flatten))
  {
    ThenAssoc(Stream(items, None), Stream(fams, None), ContextsFrom(index, indexStats, c + 1, isBlock, flatten));
  }

  /** `for key in ['primaries', 'total']` for one index. */
  method EmitContexts(index: string, indexStats: Json, isBlock: string -> bool, flatten: (string, Json) -> seq<Triple>)
    returns (out: Stream)
    ensures out == ContextsFrom(index, indexStats, 0, isBlock, flatten)
  {
    var items: seq<Family> := [];
    var c := 0;
    while c < |Contexts|
      invariant 0 <= c <= |Contexts|
      invariant ContextsFrom(index, indexStats, 0, isBlock, flatten)
        == Then(Stream(items, None), ContextsFrom(index, indexStats, c, isBlock, flatten))
    {
      var stats := Field(indexStats, Contexts[c]);
      if stats.None? {
        return Stream(items, Some(OtherError));
      }
      var fams := EmitTriples(flatten(Key + "_", stats.value), LabelNames, [JStr(index), JStr(Contexts[c])], isBlock);
      ContextsStep(index, indexStats, c, isBlock, flatten, items, fams);
      items := items + fams;
      c := c + 1;
    }
    assert items + [] == items;
    out := Stream(items, None);
  }
}
