/**
 * The loop both the node and the index collectors run over the triples
 * `auto_gen_metric(prefix, stats)` produces: a blocked name is skipped, any
 * other becomes a family with one sample under the caller's labels.
 * `auto_gen_metric` and `is_block` are not part of this model; they enter as
 * function parameters.
 */
module Triples {
  import opened Json
  import opened Metrics

  /** `(metric_name, metric_doc, value)` as `auto_gen_metric` yields it. */
  datatype Triple = Triple(name: string, doc: string, value: Json)

  /** The family for one unblocked triple. */
  function TripleFamily(t: Triple, labelNames: seq<string>, labelValues: seq<Json>): Family
  {
    AddMetric(Gauge(t.name, t.doc, labelNames), labelValues, t.value)
  }

  /** The families the loop yields for `ts`, in order. */
  function TripleFamilies(ts: seq<Triple>, labelNames: seq<string>, labelValues: seq<Json>, isBlock: string -> bool): seq<Family>
  {
    if ts == [] then []
    else
      var last := ts[|ts| - 1];
      TripleFamilies(ts[..|ts| - 1], labelNames, labelValues, isBlock)
        + (if isBlock(last.name) then [] else [TripleFamily(last, labelNames, labelValues)])
  }

  /** The triples whose names the blocklist lets through, in order. */
  function Unblocked(ts: seq<Triple>, isBlock: string -> bool): (r: seq<Triple>)
    ensures forall t :: t in r <==> t in ts && !isBlock(t.name)
    ensures |r| <= |ts|
  {
    if ts == [] then []
    else if isBlock(ts[0].name) then Unblocked(ts[1..], isBlock)
    else [ts[0]] + Unblocked(ts[1..], isBlock)
  }

  lemma UnblockedSnoc(ts: seq<Triple>, t: Triple, isBlock: string -> bool)
    ensures Unblocked(ts + [t], isBlock) == Unblocked(ts, isBlock) + (if isBlock(t.name) then [] else [t])
    decreases |ts|
  {
    if ts != [] {
      assert (ts + [t])[1..] == ts[1..] + [t];
      UnblockedSnoc(ts[1..], t, isBlock);
    } else {
      assert [t][1..] == [];
    }
  }

  /**
   * One family per unblocked triple, in order, and none for a blocked one:
   * each carries the triple's name and doc, the caller's label names, and a
   * single sample of the caller's label values (as far as there are label
   * names for them) and the triple's value.
   */
  lemma {:induction false} TripleFamiliesUnblocked(ts: seq<Triple>, labelNames: seq<string>, labelValues: seq<Json>,
                                                   isBlock: string -> bool)
    ensures var fs := TripleFamilies(ts, labelNames, labelValues, isBlock);
      var us := Unblocked(ts, isBlock);
      && |fs| == |us|
      && forall n :: 0 <= n < |fs| ==> fs[n] == TripleFamily(us[n], labelNames, labelValues)
    decreases |ts|
  {
    if ts != [] {
      var init := ts[..|ts| - 1];
      var last := ts[|ts| - 1];
      assert ts == init + [last];
      UnblockedSnoc(init, last, isBlock);
      TripleFamiliesUnblocked(init, labelNames, labelValues, isBlock);
    }
  }

  /** Every family a triple loop yields has an unblocked name, the caller's label names and exactly one sample. */
  lemma TripleFamiliesShape(ts: seq<Triple>, labelNames: seq<string>, labelValues: seq<Json>, isBlock: string -> bool)
    requires |labelValues| == |labelNames|
    ensures forall f :: f in TripleFamilies(ts, labelNames, labelValues, isBlock) ==>
      && !isBlock(f.name) && f.labels == labelNames
      && |f.samples| == 1 && f.samples[0].labelValues == labelValues
  {
    TripleFamiliesUnblocked(ts, labelNames, labelValues, isBlock);
    var fs := TripleFamilies(ts, labelNames, labelValues, isBlock);
    var us := Unblocked(ts, isBlock);
    forall f | f in fs
      ensures !isBlock(f.name) && f.labels == labelNames && |f.samples| == 1 && f.samples[0].labelValues == labelValues
    {
      var n :| 0 <= n < |fs| && fs[n] == f;
      assert us[n] in us;
      assert labelValues[..|labelValues|] == labelValues;
    }
  }

  /** `for metric_name, metric_doc, value in auto_gen_metric(...)`: skip blocked names, yield the rest. */
  method EmitTriples(ts: seq<Triple>, labelNames: seq<string>, labelValues: seq<Json>, isBlock: string -> bool)
    returns (fams: seq<Family>)
    ensures fams == TripleFamilies(ts, labelNames, labelValues, isBlock)
  {
    fams := [];
    var i := 0;
    while i < |ts|
      invariant 0 <= i <= |ts|
      invariant fams == TripleFamilies(ts[..i], labelNames, labelValues, isBlock)
    {
      var t := ts[i];
      assert ts[..i + 1][..i] == ts[..i];
      i := i + 1;
      if isBlock(t.name) {
        continue;
      }
      var g := Gauge(t.name, t.doc, labelNames);
      g := AddMetric(g, labelValues, t.value);
      fams := fams + [g];
    }
    assert ts[..i] == ts;
  }
}
