/**
 * The query-metric collector: runs user-declared searches, turns each
 * non-timed-out response into latency, hit-count and aggregation families,
 * and keeps them in a name→family dict that is never cleared.
 */
module QueryMetric {
  import opened Wrappers
  import opened Json
  import opened Metrics
  import OrderedMap
  import Base

  // ---------------------------------------------------------------------
  // gen_job
  // ---------------------------------------------------------------------

  /** One scheduled query: the call `get_metric(config)`, its interval in seconds, its name. */
  datatype Job = Job(config: map<string, Json>, interval: int, name: Json)

  /**
   * One iteration of `gen_job`: the global interval is looked up first (the
   * eager default of `dict.get`), then a missing timeout is filled in, then
   * the interval is parsed with the `interval_handle` rule, then `name` is read.
   */
  function JobFor(global: map<string, Json>, m: map<string, Json>): (r: Result<Job, Base.ConfigError>)
    ensures "interval" !in global ==> r == Failure(Base.MissingKey("interval"))
    ensures r.Success? ==>
      && Base.DefaultTimeout(m, global).Success?
      && r.value.config == Base.DefaultTimeout(m, global).value
      && (var lit := if "interval" in m then m["interval"] else global["interval"];
          Base.IntervalHandle(lit) == Success(r.value.interval))
      && "name" in m && r.value.name == m["name"]
    ensures r.Failure? && "interval" in global && Base.DefaultTimeout(m, global).Success? ==>
      var lit := if "interval" in m then m["interval"] else global["interval"];
      Base.IntervalHandle(lit).Failure? || "name" !in m
  {
    if "interval" !in global then Failure(Base.MissingKey("interval"))
    else
      var lit := if "interval" in m then m["interval"] else global["interval"];
      match Base.DefaultTimeout(m, global)
      case Failure(e) => Failure(e)
      case Success(c) =>
        match Base.IntervalHandle(lit)
        case Failure(e) => Failure(e)
        case Success(seconds) =>
          if "name" !in c then Failure(Base.MissingKey("name"))
          else Success(Job(c, seconds, c["name"]))
  }

  /** The config dict after one iteration of `gen_job`, whether or not the iteration then raised. */
  function FilledConfig(global: map<string, Json>, m: map<string, Json>): map<string, Json>
  {
    if "interval" !in global then m
    else match Base.DefaultTimeout(m, global)
      case Success(c) => c
      case Failure(_) => m
  }

  // ---------------------------------------------------------------------
  // _aggregations_handle, as written: one label dict shared by the whole walk
  // ---------------------------------------------------------------------

  /** An OrderedDict from aggregation name to bucket key. */
  type Labels = OrderedMap.Entries<Json>

  /** The pairs yielded so far, the shared label dict afterwards, and whether the walk finished without raising. */
  datatype AggRun = AggRun(pairs: seq<(Labels, Json)>, labels: Labels, ok: bool)

  predicate Reserved(k: string)
  {
    k == "key" || k == "doc_count"
  }

  /**
   * The loop over `aggregations_dict.items()` from entry `i` on. Iterating an
   * empty dict or str as `buckets` yields nothing; any other non-list raises.
   */
  function HandleFields(agg: Json, i: nat, labels: Labels): AggRun
    requires agg.JObj? && i <= |agg.fields|
    decreases agg, |agg.fields| - i
  {
    if i == |agg.fields| then AggRun([], labels, true)
    else
      var k := agg.fields[i].0;
      if Reserved(k) then HandleFields(agg, i + 1, labels)
      else match Field(agg.fields[i].1, "buckets")
        case None => AggRun([], labels, false)
        case Some(bl) =>
          if bl.JList? then
            var r := HandleBuckets(k, bl, 0, labels);
            if !r.ok then r
            else
              var rest := HandleFields(agg, i + 1, r.labels);
              AggRun(r.pairs + rest.pairs, rest.labels, rest.ok)
          else if bl == JObj([]) || bl == JStr([]) then HandleFields(agg, i + 1, labels)
          else AggRun([], labels, false)
  }

  /**
   * The loop over the buckets of aggregation `k` from bucket `j` on: the
   * bucket key is stored under `k`; a bucket with more than two fields is
   * walked in turn, any other yields the label dict and its `doc_count`.
   */
  function HandleBuckets(k: string, bl: Json, j: nat, labels: Labels): AggRun
    requires bl.JList? && j <= |bl.items|
    decreases bl, |bl.items| - j
  {
    if j == |bl.items| then AggRun([], labels, true)
    else
      var b := bl.items[j];
      match Field(b, "key")
      case None => AggRun([], labels, false)
      case Some(bucketKey) =>
        var l1 := OrderedMap.Put(labels, k, bucketKey);
        if |b.fields| > 2 then
          var r := HandleFields(b, 0, l1);
          if !r.ok then r
          else
            var rest := HandleBuckets(k, bl, j + 1, r.labels);
            AggRun(r.pairs + rest.pairs, rest.labels, rest.ok)
        else match Field(b, "doc_count")
          case None => AggRun([], l1, false)
          case Some(docCount) =>
            var rest := HandleBuckets(k, bl, j + 1, l1);
            AggRun([(l1, docCount)] + rest.pairs, rest.labels, rest.ok)
  }

  /** `done` followed by the run `r`. */
  function Glue(done: seq<(Labels, Json)>, r: AggRun): AggRun
  {
    AggRun(done + r.pairs, r.labels, r.ok)
  }

  /** Run `r`, then, unless it raised, the entries of `agg` from `i` on with the label dict `r` left. */
  function ThenFields(r: AggRun, agg: Json, i: nat): AggRun
    requires agg.JObj? && i <= |agg.fields|
  {
    if !r.ok then r else Glue(r.pairs, HandleFields(agg, i, r.labels))
  }

  lemma GlueGlue(a: seq<(Labels, Json)>, b: seq<(Labels, Json)>, r: AggRun)
    ensures Glue(a, Glue(b, r)) == Glue(a + b, r)
  {
    assert a + (b + r.pairs) == (a + b) + r.pairs;
  }

  lemma ThenFieldsGlue(p: seq<(Labels, Json)>, r: AggRun, agg: Json, i: nat)
    requires agg.JObj? && i <= |agg.fields|
    ensures ThenFields(Glue(p, r), agg, i) == Glue(p, ThenFields(r, agg, i))
  {
    if r.ok {
      GlueGlue(p, r.pairs, HandleFields(agg, i, r.labels));
    }
  }

  /** One pass of the loop over buckets: what bucket `b` of aggregation `k` contributes. */
  function BucketStep(k: string, b: Json, labels: Labels): AggRun
  {
    match Field(b, "key")
    case None => AggRun([], labels, false)
    case Some(bucketKey) =>
      var l1 := OrderedMap.Put(labels, k, bucketKey);
      if |b.fields| > 2 then HandleFields(b, 0, l1)
      else match Field(b, "doc_count")
        case None => AggRun([], l1, false)
        case Some(docCount) => AggRun([(l1, docCount)], l1, true)
  }

  lemma BucketsStep(k: string, bl: Json, j: nat, labels: Labels)
    requires bl.JList? && j < |bl.items|
    ensures HandleBuckets(k, bl, j, labels) ==
      var r := BucketStep(k, bl.items[j], labels);
      if !r.ok then r else Glue(r.pairs, HandleBuckets(k, bl, j + 1, r.labels))
  {
  }

  /** The shared OrderedDict `label_dict`. */
  class LabelDict {
    var entries: Labels

    constructor ()
      ensures entries == []
    {
      entries := [];
    }

    /** `label_dict[k] = v`. */
    method Set(k: string, v: Json)
      modifies this
      ensures entries == OrderedMap.Put(old(entries), k, v)
    {
      entries := OrderedMap.Put(entries, k, v);
    }
  }

  /**
   * `_aggregations_handle(agg, label_dict)`: the pairs it yields (each a
   * snapshot of the label dict at that moment, as `add_metric` takes it) and
   * whether it ran to the end without raising.
   */
  method AggregationsHandle(agg: Json, labelDict: LabelDict) returns (pairs: seq<(Labels, Json)>, ok: bool)
    requires agg.JObj?
    modifies labelDict
    ensures AggRun(pairs, labelDict.entries, ok) == HandleFields(agg, 0, old(labelDict.entries))
    decreases agg, 0
  {
    ghost var goal := HandleFields(agg, 0, labelDict.entries);
    pairs := [];
    var i := 0;
    while i < |agg.fields|
      invariant 0 <= i <= |agg.fields|
      invariant goal == Glue(pairs, HandleFields(agg, i, labelDict.entries))
    {
      var k := agg.fields[i].0;
      if Reserved(k) {
        assert HandleFields(agg, i, labelDict.entries) == HandleFields(agg, i + 1, labelDict.entries);
        i := i + 1;
        continue;
      }
      var buckets := Field(agg.fields[i].1, "buckets");
      if buckets.None? {
        assert HandleFields(agg, i, labelDict.entries) == AggRun([], labelDict.entries, false);
        return pairs, false;
      }
      var bl := buckets.value;
      if !bl.JList? {
        if bl == JObj([]) || bl == JStr([]) {
          assert HandleFields(agg, i, labelDict.entries) == HandleFields(agg, i + 1, labelDict.entries);
          i := i + 1;
          continue;
        }
        assert HandleFields(agg, i, labelDict.entries) == AggRun([], labelDict.entries, false);
        return pairs, false;
      }
      assert HandleFields(agg, i, labelDict.entries)
          == ThenFields(HandleBuckets(k, bl, 0, labelDict.entries), agg, i + 1);
      var sub, subOk := VisitBuckets(k, bl, labelDict);
      if !subOk {
        return pairs + sub, false;
      }
      assert goal == Glue(pairs + sub, HandleFields(agg, i + 1, labelDict.entries)) by {
        GlueGlue(pairs, sub, HandleFields(agg, i + 1, labelDict.entries));
      }
      pairs := pairs + sub;
      i := i + 1;
    }
    ok := true;
  }

  /** The loop over the buckets of aggregation `k`, all sharing `label_dict`. */
  method VisitBuckets(k: string, bl: Json, labelDict: LabelDict) returns (pairs: seq<(Labels, Json)>, ok: bool)
    requires bl.JList?
    modifies labelDict
    ensures AggRun(pairs, labelDict.entries, ok) == HandleBuckets(k, bl, 0, old(labelDict.entries))
    decreases bl, 2
  {
    ghost var goal := HandleBuckets(k, bl, 0, labelDict.entries);
    pairs := [];
    var j := 0;
    while j < |bl.items|
      invariant 0 <= j <= |bl.items|
      invariant goal == Glue(pairs, HandleBuckets(k, bl, j, labelDict.entries))
    {
      ghost var before := labelDict.entries;
      var sub, subOk := VisitBucket(k, bl.items[j], labelDict);
      if !subOk {
        assert HandleBuckets(k, bl, j, before) == AggRun(sub, labelDict.entries, false) by {
          BucketsStep(k, bl, j, before);
        }
        return pairs + sub, false;
      }
      ghost var rest := HandleBuckets(k, bl, j + 1, labelDict.entries);
      assert goal == Glue(pairs + sub, rest) by {
        BucketsStep(k, bl, j, before);
        assert HandleBuckets(k, bl, j, before) == Glue(sub, rest);
        GlueGlue(pairs, sub, rest);
      }
      pairs := pairs + sub;
      j := j + 1;
    }
    ok := true;
    assert pairs + [] == pairs;
  }

  /** The body of the loop over buckets, for bucket `b` of aggregation `k`. */
  method VisitBucket(k: string, b: Json, labelDict: LabelDict) returns (pairs: seq<(Labels, Json)>, ok: bool)
    modifies labelDict
    ensures AggRun(pairs, labelDict.entries, ok) == BucketStep(k, b, old(labelDict.entries))
    decreases b, 1
  {
    var bucketKey := Field(b, "key");
    if bucketKey.None? {
      return [], false;
    }
    labelDict.Set(k, bucketKey.value);
    if |b.fields| > 2 {
      pairs, ok := AggregationsHandle(b, labelDict);
    } else {
      var docCount := Field(b, "doc_count");
      if docCount.None? {
        return [], false;
      }
      return [(labelDict.entries, docCount.value)], true;
    }
  }

  // ---------------------------------------------------------------------
  // Reference: the same walk, each branch with its own copy of the path
  // ---------------------------------------------------------------------

  /** Aggregation name ↦ bucket key, for the aggregations enclosing a bucket. */
  type Path = map<string, Json>

  /** A leaf bucket: the path that leads to it and its `doc_count`. */
  datatype Leaf = Leaf(path: Path, docCount: Json)

  datatype RefRun = RefRun(leaves: seq<Leaf>, ok: bool)

  /** The leaves under the entries of `agg` from `i` on, each with the path of its own branch. */
  function RefFields(agg: Json, i: nat, path: Path): RefRun
    requires agg.JObj? && i <= |agg.fields|
    decreases agg, |agg.fields| - i
  {
    if i == |agg.fields| then RefRun([], true)
    else
      var k := agg.fields[i].0;
      if Reserved(k) then RefFields(agg, i + 1, path)
      else match Field(agg.fields[i].1, "buckets")
        case None => RefRun([], false)
        case Some(bl) =>
          if bl.JList? then
            var r := RefBuckets(k, bl, 0, path);
            if !r.ok then r
            else
              var rest := RefFields(agg, i + 1, path);
              RefRun(r.leaves + rest.leaves, rest.ok)
          else if bl == JObj([]) || bl == JStr([]) then RefFields(agg, i + 1, path)
          else RefRun([], false)
  }

  /** The leaves under the buckets of aggregation `k` from bucket `j` on; `path` is the parent's path. */
  function RefBuckets(k: string, bl: Json, j: nat, path: Path): RefRun
    requires bl.JList? && j <= |bl.items|
    decreases bl, |bl.items| - j
  {
    if j == |bl.items| then RefRun([], true)
    else
      var b := bl.items[j];
      match Field(b, "key")
      case None => RefRun([], false)
      case Some(bucketKey) =>
        var inner := path[k := bucketKey];
        var r :=
          if |b.fields| > 2 then RefFields(b, 0, inner)
          else match Field(b, "doc_count")
            case None => RefRun([], false)
            case Some(docCount) => RefRun([Leaf(inner, docCount)], true);
        if !r.ok then r
        else
          var rest := RefBuckets(k, bl, j + 1, path);
          RefRun(r.leaves + rest.leaves, rest.ok)
  }

  /** What bucket `b` of aggregation `k` contributes to the reference walk. */
  function RefBucketStep(k: string, b: Json, path: Path): RefRun
  {
    match Field(b, "key")
    case None => RefRun([], false)
    case Some(bucketKey) =>
      var inner := path[k := bucketKey];
      if |b.fields| > 2 then RefFields(b, 0, inner)
      else match Field(b, "doc_count")
        case None => RefRun([], false)
        case Some(docCount) => RefRun([Leaf(inner, docCount)], true)
  }

  lemma RefBucketsStep(k: string, bl: Json, j: nat, path: Path)
    requires bl.JList? && j < |bl.items|
    ensures RefBuckets(k, bl, j, path) ==
      var r := RefBucketStep(k, bl.items[j], path);
      if !r.ok then r else RefRun(r.leaves + RefBuckets(k, bl, j + 1, path).leaves, RefBuckets(k, bl, j + 1, path).ok)
  {
  }

  /** The yielded pairs and the leaves correspond one to one, with equal `doc_count`s. */
  predicate Matches(pairs: seq<(Labels, Json)>, leaves: seq<Leaf>)
  {
    |pairs| == |leaves| && forall n :: 0 <= n < |pairs| ==> pairs[n].1 == leaves[n].docCount
  }

  lemma MatchesAppend(p1: seq<(Labels, Json)>, p2: seq<(Labels, Json)>, l1: seq<Leaf>, l2: seq<Leaf>)
    requires Matches(p1, l1) && Matches(p2, l2)
    ensures Matches(p1 + p2, l1 + l2)
  {
    forall n | 0 <= n < |p1 + p2| ensures (p1 + p2)[n].1 == (l1 + l2)[n].docCount {
      if n >= |p1| {
        assert (p1 + p2)[n] == p2[n - |p1|] && (l1 + l2)[n] == l2[n - |l1|];
      }
    }
  }

  /**
   * The shared label dict changes no outcome: the walk raises exactly when
   * the reference does, and yields one pair per leaf bucket, in depth-first
   * bucket-list order, carrying that bucket's `doc_count`.
   */
  lemma {:induction false} FieldsMatchRef(agg: Json, i: nat, labels: Labels, path: Path)
    requires agg.JObj? && i <= |agg.fields|
    ensures HandleFields(agg, i, labels).ok == RefFields(agg, i, path).ok
    ensures Matches(HandleFields(agg, i, labels).pairs, RefFields(agg, i, path).leaves)
    decreases agg, |agg.fields| - i
  {
    if i < |agg.fields| {
      var k := agg.fields[i].0;
      if Reserved(k) {
        FieldsMatchRef(agg, i + 1, labels, path);
      } else {
        match Field(agg.fields[i].1, "buckets")
        case None =>
        case Some(bl) =>
          if bl.JList? {
            var r := HandleBuckets(k, bl, 0, labels);
            BucketsMatchRef(k, bl, 0, labels, path);
            if r.ok {
              FieldsMatchRef(agg, i + 1, r.labels, path);
              MatchesAppend(r.pairs, HandleFields(agg, i + 1, r.labels).pairs,
                RefBuckets(k, bl, 0, path).leaves, RefFields(agg, i + 1, path).leaves);
            }
          } else if bl == JObj([]) || bl == JStr([]) {
            FieldsMatchRef(agg, i + 1, labels, path);
          }
      }
    }
  }

  lemma {:induction false} BucketsMatchRef(k: string, bl: Json, j: nat, labels: Labels, path: Path)
    requires bl.JList? && j <= |bl.items|
    ensures HandleBuckets(k, bl, j, labels).ok == RefBuckets(k, bl, j, path).ok
    ensures Matches(HandleBuckets(k, bl, j, labels).pairs, RefBuckets(k, bl, j, path).leaves)
    decreases bl, |bl.items| - j
  {
    if j < |bl.items| {
      var r := BucketStep(k, bl.items[j], labels);
      var ref := RefBucketStep(k, bl.items[j], path);
      BucketsStep(k, bl, j, labels);
      RefBucketsStep(k, bl, j, path);
      BucketMatchRef(k, bl.items[j], labels, path);
      if r.ok {
        BucketsMatchRef(k, bl, j + 1, r.labels, path);
        MatchesAppend(r.pairs, HandleBuckets(k, bl, j + 1, r.labels).pairs,
          ref.leaves, RefBuckets(k, bl, j + 1, path).leaves);
      }
    }
  }

  lemma {:induction false} BucketMatchRef(k: string, b: Json, labels: Labels, path: Path)
    ensures BucketStep(k, b, labels).ok == RefBucketStep(k, b, path).ok
    ensures Matches(BucketStep(k, b, labels).pairs, RefBucketStep(k, b, path).leaves)
    decreases b, if b.JObj? then |b.fields| + 1 else 0
  {
    match Field(b, "key")
    case None =>
    case Some(bucketKey) =>
      if |b.fields| > 2 {
        FieldsMatchRef(b, 0, OrderedMap.Put(labels, k, bucketKey), path[k := bucketKey]);
      }
  }

  /** `q` agrees with `p` on every key of `p`. */
  predicate Sub(p: Path, q: Path)
  {
    forall k :: k in p ==> k in q && q[k] == p[k]
  }

  /** Each yielded label dict holds the path of the leaf it stands for. */
  predicate Covers(pairs: seq<(Labels, Json)>, leaves: seq<Leaf>)
  {
    forall n :: 0 <= n < |pairs| && n < |leaves| ==> Sub(leaves[n].path, OrderedMap.ToMap(pairs[n].0))
  }

  lemma CoversAppend(p1: seq<(Labels, Json)>, p2: seq<(Labels, Json)>, l1: seq<Leaf>, l2: seq<Leaf>)
    requires |p1| == |l1| && Covers(p1, l1) && Covers(p2, l2)
    ensures Covers(p1 + p2, l1 + l2)
  {
    forall n | 0 <= n < |p1 + p2| && n < |l1 + l2|
      ensures Sub((l1 + l2)[n].path, OrderedMap.ToMap((p1 + p2)[n].0))
    {
      if n >= |p1| {
        assert (p1 + p2)[n] == p2[n - |p1|] && (l1 + l2)[n] == l2[n - |l1|];
      }
    }
  }

  /**
   * No aggregation inside a bucket reuses the name of an aggregation that
   * encloses it (`names` holds the enclosing names).
   */
  predicate NoShadowFields(agg: Json, i: nat, names: set<string>)
    requires agg.JObj? && i <= |agg.fields|
    decreases agg, |agg.fields| - i
  {
    i == |agg.fields| ||
    (var k := agg.fields[i].0;
     && (Reserved(k) ||
         match Field(agg.fields[i].1, "buckets")
         case None => true
         case Some(bl) => !bl.JList? || (k !in names && NoShadowBuckets(k, bl, 0, names + {k})))
     && NoShadowFields(agg, i + 1, names))
  }

  predicate NoShadowBuckets(k: string, bl: Json, j: nat, names: set<string>)
    requires bl.JList? && j <= |bl.items|
    decreases bl, |bl.items| - j
  {
    j == |bl.items| ||
    (&& (match Field(bl.items[j], "key")
         case None => true
         case Some(_) => |bl.items[j].fields| <= 2 || NoShadowFields(bl.items[j], 0, names))
     && NoShadowBuckets(k, bl, j + 1, names))
  }

  /**
   * Without shadowing, the label dict at each yield maps every aggregation on
   * the leaf's path to that level's bucket key; keys left over from earlier
   * siblings may come along, and the caller's path survives the walk.
   */
  lemma {:induction false} FieldsCoverPath(agg: Json, i: nat, labels: Labels, path: Path)
    requires agg.JObj? && i <= |agg.fields|
    requires NoShadowFields(agg, i, path.Keys) && Sub(path, OrderedMap.ToMap(labels))
    ensures Covers(HandleFields(agg, i, labels).pairs, RefFields(agg, i, path).leaves)
    ensures Sub(path, OrderedMap.ToMap(HandleFields(agg, i, labels).labels))
    decreases agg, |agg.fields| - i
  {
    if i < |agg.fields| {
      var k := agg.fields[i].0;
      if Reserved(k) {
        FieldsCoverPath(agg, i + 1, labels, path);
      } else {
        match Field(agg.fields[i].1, "buckets")
        case None =>
        case Some(bl) =>
          if bl.JList? {
            var r := HandleBuckets(k, bl, 0, labels);
            BucketsCoverPath(k, bl, 0, labels, path);
            BucketsMatchRef(k, bl, 0, labels, path);
            if r.ok {
              FieldsCoverPath(agg, i + 1, r.labels, path);
              CoversAppend(r.pairs, HandleFields(agg, i + 1, r.labels).pairs,
                RefBuckets(k, bl, 0, path).leaves, RefFields(agg, i + 1, path).leaves);
            }
          } else if bl == JObj([]) || bl == JStr([]) {
            FieldsCoverPath(agg, i + 1, labels, path);
          }
      }
    }
  }

  lemma SubExtend(p: Path, q: Path, k: string, v: Json)
    requires Sub(p, q)
    ensures Sub(p[k := v], q[k := v])
  {
  }

  lemma SubShrink(p: Path, q: Path, k: string, v: Json)
    requires k !in p && Sub(p[k := v], q)
    ensures Sub(p, q)
  {
    forall x | x in p ensures x in q && q[x] == p[x] {
      assert x != k && p[k := v][x] == p[x];
    }
  }

  lemma {:induction false} BucketsCoverPath(k: string, bl: Json, j: nat, labels: Labels, path: Path)
    requires bl.JList? && j <= |bl.items|
    requires k !in path && NoShadowBuckets(k, bl, j, path.Keys + {k}) && Sub(path, OrderedMap.ToMap(labels))
    ensures Covers(HandleBuckets(k, bl, j, labels).pairs, RefBuckets(k, bl, j, path).leaves)
    ensures Sub(path, OrderedMap.ToMap(HandleBuckets(k, bl, j, labels).labels))
    decreases bl, |bl.items| - j
  {
    if j < |bl.items| {
      var r := BucketStep(k, bl.items[j], labels);
      var ref := RefBucketStep(k, bl.items[j], path);
      BucketsStep(k, bl, j, labels);
      RefBucketsStep(k, bl, j, path);
      BucketCoverPath(k, bl.items[j], labels, path);
      BucketMatchRef(k, bl.items[j], labels, path);
      if r.ok {
        BucketsCoverPath(k, bl, j + 1, r.labels, path);
        CoversAppend(r.pairs, HandleBuckets(k, bl, j + 1, r.labels).pairs,
          ref.leaves, RefBuckets(k, bl, j + 1, path).leaves);
      }
    }
  }

  /** One bucket: its pairs cover its leaves, and the caller's path survives. */
  lemma {:induction false} BucketCoverPath(k: string, b: Json, labels: Labels, path: Path)
    requires k !in path && Sub(path, OrderedMap.ToMap(labels))
    requires Field(b, "key").Some? && |b.fields| > 2 ==> NoShadowFields(b, 0, path.Keys + {k})
    ensures Covers(BucketStep(k, b, labels).pairs, RefBucketStep(k, b, path).leaves)
    ensures Sub(path, OrderedMap.ToMap(BucketStep(k, b, labels).labels))
    decreases b, if b.JObj? then |b.fields| + 2 else 0
  {
    if Field(b, "key").Some? {
      var bucketKey := Field(b, "key").value;
      PutSub(path, labels, k, bucketKey);
      if |b.fields| > 2 {
        InnerCoverPath(k, b, labels, path);
      } else {
        LeafCoverPath(k, b, labels, path);
      }
    }
  }

  lemma LeafCoverPath(k: string, b: Json, labels: Labels, path: Path)
    requires k !in path && Field(b, "key").Some? && |b.fields| <= 2
    requires Sub(path[k := Field(b, "key").value], OrderedMap.ToMap(OrderedMap.Put(labels, k, Field(b, "key").value)))
    ensures Covers(BucketStep(k, b, labels).pairs, RefBucketStep(k, b, path).leaves)
    ensures Sub(path, OrderedMap.ToMap(BucketStep(k, b, labels).labels))
  {
    var bucketKey := Field(b, "key").value;
    SubShrink(path, OrderedMap.ToMap(OrderedMap.Put(labels, k, bucketKey)), k, bucketKey);
  }

  lemma {:induction false} InnerCoverPath(k: string, b: Json, labels: Labels, path: Path)
    requires k !in path && Field(b, "key").Some? && |b.fields| > 2
    requires NoShadowFields(b, 0, path.Keys + {k})
    requires Sub(path[k := Field(b, "key").value], OrderedMap.ToMap(OrderedMap.Put(labels, k, Field(b, "key").value)))
    ensures Covers(BucketStep(k, b, labels).pairs, RefBucketStep(k, b, path).leaves)
    ensures Sub(path, OrderedMap.ToMap(BucketStep(k, b, labels).labels))
    decreases b, |b.fields| + 1
  {
    var bucketKey := Field(b, "key").value;
    var l1 := OrderedMap.Put(labels, k, bucketKey);
    var inner := path[k := bucketKey];
    assert inner.Keys == path.Keys + {k};
    FieldsCoverPath(b, 0, l1, inner);
    SubShrink(path, OrderedMap.ToMap(HandleFields(b, 0, l1).labels), k, bucketKey);
  }

  /** Storing a bucket key extends the path the label dict covers. */
  lemma PutSub(path: Path, labels: Labels, k: string, v: Json)
    requires Sub(path, OrderedMap.ToMap(labels))
    ensures Sub(path[k := v], OrderedMap.ToMap(OrderedMap.Put(labels, k, v)))
  {
    OrderedMap.PutToMap(labels, k, v);
    SubExtend(path, OrderedMap.ToMap(labels), k, v);
  }

  // ---------------------------------------------------------------------
  // Label keys only grow, and never include the reserved bucket fields
  // ---------------------------------------------------------------------

  /**
   * The key lists met during a walk that starts with label keys `start` and
   * ends with `end`: each yielded dict's keys extend `start` and are extended
   * by every later one and by `end`.
   */
  predicate Chain(start: seq<string>, pairs: seq<(Labels, Json)>, end: seq<string>)
  {
    && start <= end
    && (forall n :: 0 <= n < |pairs| ==> start <= OrderedMap.Keys(pairs[n].0) <= end)
    && (forall n, m :: 0 <= n < m < |pairs| ==> OrderedMap.Keys(pairs[n].0) <= OrderedMap.Keys(pairs[m].0))
  }

  lemma ChainAppend(a: seq<string>, p1: seq<(Labels, Json)>, b: seq<string>, p2: seq<(Labels, Json)>, c: seq<string>)
    requires Chain(a, p1, b) && Chain(b, p2, c)
    ensures Chain(a, p1 + p2, c)
  {
    var p := p1 + p2;
    forall n | 0 <= n < |p| ensures a <= OrderedMap.Keys(p[n].0) <= c {
      if n < |p1| { assert p[n] == p1[n]; } else { assert p[n] == p2[n - |p1|]; }
    }
    forall n, m | 0 <= n < m < |p| ensures OrderedMap.Keys(p[n].0) <= OrderedMap.Keys(p[m].0) {
      if m < |p1| {
        assert p[n] == p1[n] && p[m] == p1[m];
      } else if n < |p1| {
        assert p[n] == p1[n] && p[m] == p2[m - |p1|];
      } else {
        assert p[n] == p2[n - |p1|] && p[m] == p2[m - |p1|];
      }
    }
  }

  /**
   * Insertion order is kept: the label dict only ever gains keys at its end,
   * so every yielded dict's keys extend those of the dicts yielded before it.
   */
  lemma {:induction false} FieldsKeysGrow(agg: Json, i: nat, labels: Labels)
    requires agg.JObj? && i <= |agg.fields|
    ensures var r := HandleFields(agg, i, labels); Chain(OrderedMap.Keys(labels), r.pairs, OrderedMap.Keys(r.labels))
    decreases agg, |agg.fields| - i
  {
    if i < |agg.fields| {
      var k := agg.fields[i].0;
      if Reserved(k) {
        FieldsKeysGrow(agg, i + 1, labels);
      } else {
        match Field(agg.fields[i].1, "buckets")
        case None =>
        case Some(bl) =>
          if bl.JList? {
            var r := HandleBuckets(k, bl, 0, labels);
            BucketsKeysGrow(k, bl, 0, labels);
            if r.ok {
              var rest := HandleFields(agg, i + 1, r.labels);
              FieldsKeysGrow(agg, i + 1, r.labels);
              ChainAppend(OrderedMap.Keys(labels), r.pairs, OrderedMap.Keys(r.labels), rest.pairs, OrderedMap.Keys(rest.labels));
            }
          } else if bl == JObj([]) || bl == JStr([]) {
            FieldsKeysGrow(agg, i + 1, labels);
          }
      }
    }
  }

  lemma {:induction false} BucketsKeysGrow(k: string, bl: Json, j: nat, labels: Labels)
    requires bl.JList? && j <= |bl.items|
    ensures var r := HandleBuckets(k, bl, j, labels); Chain(OrderedMap.Keys(labels), r.pairs, OrderedMap.Keys(r.labels))
    decreases bl, |bl.items| - j
  {
    if j < |bl.items| {
      var r := BucketStep(k, bl.items[j], labels);
      BucketsStep(k, bl, j, labels);
      BucketKeysGrow(k, bl.items[j], labels);
      if r.ok {
        var rest := HandleBuckets(k, bl, j + 1, r.labels);
        BucketsKeysGrow(k, bl, j + 1, r.labels);
        ChainAppend(OrderedMap.Keys(labels), r.pairs, OrderedMap.Keys(r.labels), rest.pairs, OrderedMap.Keys(rest.labels));
      }
    }
  }

  lemma {:induction false} BucketKeysGrow(k: string, b: Json, labels: Labels)
    ensures var r := BucketStep(k, b, labels); Chain(OrderedMap.Keys(labels), r.pairs, OrderedMap.Keys(r.labels))
    decreases b, if b.JObj? then |b.fields| + 1 else 0
  {
    match Field(b, "key")
    case None =>
    case Some(bucketKey) =>
      var l1 := OrderedMap.Put(labels, k, bucketKey);
      OrderedMap.PutKeepsOrder(labels, k, bucketKey);
      assert Chain(OrderedMap.Keys(labels), [], OrderedMap.Keys(l1));
      if |b.fields| > 2 {
        var r := HandleFields(b, 0, l1);
        FieldsKeysGrow(b, 0, l1);
        ChainAppend(OrderedMap.Keys(labels), [], OrderedMap.Keys(l1), r.pairs, OrderedMap.Keys(r.labels));
        assert [] + r.pairs == r.pairs;
      } else {
        match Field(b, "doc_count")
        case None =>
        case Some(docCount) =>
          assert Chain(OrderedMap.Keys(labels), [(l1, docCount)], OrderedMap.Keys(l1));
      }
  }

  /** No label name is `key` or `doc_count`. */
  predicate NoReservedKeys(labels: Labels)
  {
    forall x :: x in OrderedMap.Keys(labels) ==> !Reserved(x)
  }

  /** Starting from an empty (or otherwise clean) label dict, no yielded dict ever has `key` or `doc_count` as a label name. */
  lemma {:induction false} FieldsNeverReserved(agg: Json, i: nat, labels: Labels)
    requires agg.JObj? && i <= |agg.fields| && NoReservedKeys(labels)
    ensures var r := HandleFields(agg, i, labels);
      NoReservedKeys(r.labels) && forall n :: 0 <= n < |r.pairs| ==> NoReservedKeys(r.pairs[n].0)
    decreases agg, |agg.fields| - i
  {
    if i < |agg.fields| {
      var k := agg.fields[i].0;
      if Reserved(k) {
        FieldsNeverReserved(agg, i + 1, labels);
      } else {
        match Field(agg.fields[i].1, "buckets")
        case None =>
        case Some(bl) =>
          if bl.JList? {
            var r := HandleBuckets(k, bl, 0, labels);
            BucketsNeverReserved(k, bl, 0, labels);
            if r.ok {
              var rest := HandleFields(agg, i + 1, r.labels);
              FieldsNeverReserved(agg, i + 1, r.labels);
              PairsNeverReserved(r.pairs, rest.pairs);
            }
          } else if bl == JObj([]) || bl == JStr([]) {
            FieldsNeverReserved(agg, i + 1, labels);
          }
      }
    }
  }

  lemma {:induction false} BucketsNeverReserved(k: string, bl: Json, j: nat, labels: Labels)
    requires bl.JList? && j <= |bl.items| && !Reserved(k) && NoReservedKeys(labels)
    ensures var r := HandleBuckets(k, bl, j, labels);
      NoReservedKeys(r.labels) && forall n :: 0 <= n < |r.pairs| ==> NoReservedKeys(r.pairs[n].0)
    decreases bl, |bl.items| - j
  {
    if j < |bl.items| {
      var r := BucketStep(k, bl.items[j], labels);
      BucketsStep(k, bl, j, labels);
      BucketNeverReserved(k, bl.items[j], labels);
      if r.ok {
        var rest := HandleBuckets(k, bl, j + 1, r.labels);
        BucketsNeverReserved(k, bl, j + 1, r.labels);
        PairsNeverReserved(r.pairs, rest.pairs);
      }
    }
  }

  lemma {:induction false} BucketNeverReserved(k: string, b: Json, labels: Labels)
    requires !Reserved(k) && NoReservedKeys(labels)
    ensures var r := BucketStep(k, b, labels);
      NoReservedKeys(r.labels) && forall n :: 0 <= n < |r.pairs| ==> NoReservedKeys(r.pairs[n].0)
    decreases b, if b.JObj? then |b.fields| + 1 else 0
  {
    match Field(b, "key")
    case None =>
    case Some(bucketKey) =>
      var l1 := OrderedMap.Put(labels, k, bucketKey);
      assert NoReservedKeys(l1);
      if |b.fields| > 2 {
        FieldsNeverReserved(b, 0, l1);
      }
  }

  lemma PairsNeverReserved(p1: seq<(Labels, Json)>, p2: seq<(Labels, Json)>)
    requires forall n :: 0 <= n < |p1| ==> NoReservedKeys(p1[n].0)
    requires forall n :: 0 <= n < |p2| ==> NoReservedKeys(p2[n].0)
    ensures forall n :: 0 <= n < |p1 + p2| ==> NoReservedKeys((p1 + p2)[n].0)
  {
    forall n | 0 <= n < |p1 + p2| ensures NoReservedKeys((p1 + p2)[n].0) {
      if n >= |p1| { assert (p1 + p2)[n] == p2[n - |p1|]; }
    }
  }

  // ---------------------------------------------------------------------
  // get_metric
  // ---------------------------------------------------------------------

  /** `s.replace("*", "")`. */
  function StripStars(s: string): (r: string)
    ensures '*' !in r
    ensures forall c :: c in r <==> c in s && c != '*'
    ensures '*' !in s ==> r == s
    ensures |r| <= |s|
  {
    if s == [] then []
    else if s[0] == '*' then StripStars(s[1..])
    else [s[0]] + StripStars(s[1..])
  }

  /** `sep.join(parts)`. */
  function Join(sep: string, parts: seq<string>): string
  {
    if parts == [] then []
    else if |parts| == 1 then parts[0]
    else parts[0] + sep + Join(sep, parts[1..])
  }

  /**
   * The metric base name: the config's `metric` template expanded with the
   * config itself by `format` (None where `str.format` raises), then every
   * `*` removed. A missing or non-string template raises.
   */
  function MetricName(config: map<string, Json>, format: (string, map<string, Json>) -> Option<string>): (r: Option<string>)
    ensures r.Some? <==> "metric" in config && config["metric"].JStr? && format(config["metric"].s, config).Some?
    ensures r.Some? ==> r.value == StripStars(format(config["metric"].s, config).value) && '*' !in r.value
  {
    if "metric" !in config || !config["metric"].JStr? then None
    else match format(config["metric"].s, config)
      case None => None
      case Some(m) => Some(StripStars(m))
  }

  /** `response['hits']['total']`, or its `value` when it is a dict; None where a lookup raises. */
  function HitsTotal(response: Json): (r: Option<Json>)
    ensures r.Some? ==> Field(response, "hits").Some? && Field(Field(response, "hits").value, "total").Some?
    ensures r.Some? ==>
      var t := Field(Field(response, "hits").value, "total").value;
      if t.JObj? then Field(t, "value") == r else r.value == t
  {
    match Field(response, "hits")
    case None => None
    case Some(hits) =>
      match Field(hits, "total")
      case None => None
      case Some(t) => if t.JObj? then Field(t, "value") else Some(t)
  }

  /** `n` copies of `f` with one `add_metric` per pair, in order. */
  function AddAll(f: Family, pairs: seq<(Labels, Json)>): Family
  {
    if pairs == [] then f
    else
      var last := pairs[|pairs| - 1];
      AddMetric(AddAll(f, pairs[..|pairs| - 1]), OrderedMap.Values(last.0), last.1)
  }

  /** The sample `add_metric` makes of `pair` in a family whose label names are `labels`. */
  function SampleOf(labels: seq<string>, pair: (Labels, Json)): Sample
  {
    var values := OrderedMap.Values(pair.0);
    Sample(values[..if |values| < |labels| then |values| else |labels|], pair.1)
  }

  lemma {:induction false} AddAllSamples(f: Family, pairs: seq<(Labels, Json)>)
    ensures var g := AddAll(f, pairs);
      && g.name == f.name && g.doc == f.doc && g.labels == f.labels
      && |g.samples| == |f.samples| + |pairs|
      && g.samples[..|f.samples|] == f.samples
      && forall n :: 0 <= n < |pairs| ==> g.samples[|f.samples| + n] == SampleOf(f.labels, pairs[n])
    decreases |pairs|
  {
    if pairs != [] {
      var init := pairs[..|pairs| - 1];
      AddAllSamples(f, init);
      var g := AddAll(f, pairs);
      forall n | 0 <= n < |pairs| ensures g.samples[|f.samples| + n] == SampleOf(f.labels, pairs[n]) {
        if n < |init| {
          assert pairs[n] == init[n];
        }
      }
    }
  }

  /**
   * The aggregation family: None when nothing was yielded; otherwise a
   * family whose label names are the keys of the first yielded dict, with one
   * `add_metric` per pair.
   */
  function AggregationFamily(name: string, doc: string, pairs: seq<(Labels, Json)>): Option<Family>
  {
    if pairs == [] then None
    else
      Some(AddAll(AggregationGauge(name, doc, OrderedMap.Keys(pairs[0].0)), pairs))
  }

  /** The family created at the first pair: its label names, listed in the help text after `custom query`. */
  function AggregationGauge(name: string, doc: string, labels: seq<string>): Family
  {
    Gauge(name, doc + " custom query " + Join(",", labels), labels)
  }

  /**
   * For a walk of an aggregations dict that finished, the family has one
   * sample per leaf bucket carrying its `doc_count`, and every sample's label
   * values are exactly what that bucket's label dict holds for the family's
   * label names: later dicts may hold more keys, which are dropped.
   */
  lemma AggregationSamples(agg: Json, name: string, doc: string)
    requires agg.JObj?
    requires HandleFields(agg, 0, []).ok && HandleFields(agg, 0, []).pairs != []
    ensures var pairs := HandleFields(agg, 0, []).pairs;
      var f := AggregationFamily(name, doc, pairs).value;
      && f.name == name
      && f.labels == OrderedMap.Keys(pairs[0].0)
      && |f.samples| == |pairs|
      && forall n :: 0 <= n < |pairs| ==>
          && f.samples[n].value == pairs[n].1
          && |f.samples[n].labelValues| == |f.labels| <= |pairs[n].0|
          && forall m :: 0 <= m < |f.labels| ==> pairs[n].0[m] == (f.labels[m], f.samples[n].labelValues[m])
  {
    var pairs := HandleFields(agg, 0, []).pairs;
    FieldsKeysGrow(agg, 0, []);
    forall n | 0 <= n < |pairs| ensures OrderedMap.Keys(pairs[0].0) <= OrderedMap.Keys(pairs[n].0) {
      if n > 0 {
        assert OrderedMap.Keys(pairs[0].0) <= OrderedMap.Keys(pairs[n].0);
      }
    }
    FamilyOfPairs(name, doc, pairs);
  }

  /** The family built from pairs whose key lists all extend the first one's. */
  lemma FamilyOfPairs(name: string, doc: string, pairs: seq<(Labels, Json)>)
    requires pairs != []
    requires forall n :: 0 <= n < |pairs| ==> OrderedMap.Keys(pairs[0].0) <= OrderedMap.Keys(pairs[n].0)
    ensures var f := AggregationFamily(name, doc, pairs).value;
      && f.name == name
      && f.labels == OrderedMap.Keys(pairs[0].0)
      && |f.samples| == |pairs|
      && forall n :: 0 <= n < |pairs| ==>
          && f.samples[n].value == pairs[n].1
          && |f.samples[n].labelValues| == |f.labels| <= |pairs[n].0|
          && forall m :: 0 <= m < |f.labels| ==> pairs[n].0[m] == (f.labels[m], f.samples[n].labelValues[m])
  {
    var labels := OrderedMap.Keys(pairs[0].0);
    var base := AggregationGauge(name, doc, labels);
    AddAllSamples(base, pairs);
    var f := AggregationFamily(name, doc, pairs).value;
    forall n | 0 <= n < |pairs|
      ensures f.samples[n].value == pairs[n].1
      ensures |f.samples[n].labelValues| == |f.labels| <= |pairs[n].0|
      ensures forall m :: 0 <= m < |f.labels| ==> pairs[n].0[m] == (f.labels[m], f.samples[n].labelValues[m])
    {
      assert f.samples[n] == SampleOf(labels, pairs[n]);
      SampleOfPrefix(labels, pairs[n]);
    }
  }

  /** A sample made for label names that the pair's dict starts with holds that dict's first values. */
  lemma SampleOfPrefix(labels: seq<string>, pair: (Labels, Json))
    requires labels <= OrderedMap.Keys(pair.0)
    ensures var s := SampleOf(labels, pair);
      && s.value == pair.1
      && |s.labelValues| == |labels| <= |pair.0|
      && forall m :: 0 <= m < |labels| ==> pair.0[m] == (labels[m], s.labelValues[m])
  {
    var s := SampleOf(labels, pair);
    forall m | 0 <= m < |labels| ensures pair.0[m] == (labels[m], s.labelValues[m]) {
      assert OrderedMap.Keys(pair.0)[m] == labels[m];
    }
  }

  /** The name→family dict after one `get_metric`, and whether it returned without raising. */
  datatype Update = Update(dict: OrderedMap.Entries<Option<Family>>, ok: bool)

  const MillisSuffix := "_total_milliseconds"
  const HitsSuffix := "_hits_total"
  const AggSuffix := "_aggregations"

  /**
   * `get_metric(config)` on the dict `dict`. `search` is what the client
   * returned for `index`, `query_json` and `timeout`, and `format` stands for
   * `str.format`. Each KeyError, TypeError or AttributeError of the source is
   * `ok == false`, with the writes made before it kept.
   */
  function QueryUpdate(dict: OrderedMap.Entries<Option<Family>>, config: map<string, Json>, search: Fetch,
                       format: (string, map<string, Json>) -> Option<string>): Update
  {
    if "index" !in config || "query_json" !in config || "timeout" !in config then Update(dict, false)
    else match search
      case FetchFailed(_) => Update(dict, false)
      case Fetched(response) =>
        match MetricName(config, format)
        case None => Update(dict, false)
        case Some(m) =>
          match Field(response, "timed_out")
          case None => Update(dict, false)
          case Some(timedOut) =>
            if Truthy(timedOut) then Update(dict, true)
            else if "doc" !in config || !config["doc"].JStr? then Update(dict, false)
            else WriteGauges(dict, m, config["doc"].s, response)
  }

  /** From `took` on: the latency and hit-count gauges, then the aggregation family. */
  function WriteGauges(dict: OrderedMap.Entries<Option<Family>>, m: string, doc: string, response: Json): Update
  {
    match Field(response, "took")
    case None => Update(dict, false)
    case Some(took) =>
      var d1 := OrderedMap.Put(dict, m + MillisSuffix, Some(GaugeValue(m + MillisSuffix, doc + " total_milliseconds", took)));
      match HitsTotal(response)
      case None => Update(d1, false)
      case Some(total) =>
        var d2 := OrderedMap.Put(d1, m + HitsSuffix, Some(GaugeValue(m + HitsSuffix, doc + " hits_total", total)));
        WriteAggregations(d2, m, doc, response)
  }

  /** The `'aggregations' in response` branch. */
  function WriteAggregations(dict: OrderedMap.Entries<Option<Family>>, m: string, doc: string, response: Json): Update
  {
    match Field(response, "aggregations")
    case None => Update(dict, true)
    case Some(agg) =>
      if !agg.JObj? then Update(dict, false)
      else
        var run := HandleFields(agg, 0, []);
        if !run.ok then Update(dict, false)
        else Update(OrderedMap.Put(dict, m + AggSuffix, AggregationFamily(m + AggSuffix, doc, run.pairs)), true)
  }

  /** Nothing is written when a config key is missing, the search raises or the metric name cannot be made. */
  lemma QueryFailsEarly(dict: OrderedMap.Entries<Option<Family>>, config: map<string, Json>, search: Fetch,
                        format: (string, map<string, Json>) -> Option<string>)
    requires "index" !in config || "query_json" !in config || "timeout" !in config
          || search.FetchFailed? || MetricName(config, format).None?
    ensures QueryUpdate(dict, config, search, format) == Update(dict, false)
  {
  }

  /** A timed-out search leaves the dict as it was, and returns normally. */
  lemma QueryTimedOutKeepsDict(dict: OrderedMap.Entries<Option<Family>>, config: map<string, Json>, response: Json,
                               format: (string, map<string, Json>) -> Option<string>)
    requires "index" in config && "query_json" in config && "timeout" in config
    requires MetricName(config, format).Some?
    requires Field(response, "timed_out").Some? && Truthy(Field(response, "timed_out").value)
    ensures QueryUpdate(dict, config, Fetched(response), format) == Update(dict, true)
  {
  }

  /** The three names one run can write under. */
  function Written(m: string): set<string>
  {
    {m + MillisSuffix, m + HitsSuffix, m + AggSuffix}
  }

  /** `after` extends `before`: keys keep their order and stay distinct, and only names in `written` change. */
  ghost predicate KeepsOthers(before: OrderedMap.Entries<Option<Family>>, after: OrderedMap.Entries<Option<Family>>,
                        written: set<string>)
  {
    && OrderedMap.Keys(before) <= OrderedMap.Keys(after)
    && (OrderedMap.DistinctKeys(before) ==> OrderedMap.DistinctKeys(after))
    && forall x :: x !in written ==> OrderedMap.Get(after, x) == OrderedMap.Get(before, x)
  }

  lemma KeepsOthersPut(before: OrderedMap.Entries<Option<Family>>, d: OrderedMap.Entries<Option<Family>>,
                       k: string, v: Option<Family>, written: set<string>)
    requires KeepsOthers(before, d, written) && k in written
    ensures KeepsOthers(before, OrderedMap.Put(d, k, v), written)
  {
    OrderedMap.PutKeeps(d, k, v);
  }

  lemma WriteGaugesKeeps(dict: OrderedMap.Entries<Option<Family>>, m: string, doc: string, response: Json)
    ensures KeepsOthers(dict, WriteGauges(dict, m, doc, response).dict, Written(m))
  {
    if Field(response, "took").Some? {
      var d1 := OrderedMap.Put(dict, m + MillisSuffix,
                               Some(GaugeValue(m + MillisSuffix, doc + " total_milliseconds", Field(response, "took").value)));
      KeepsOthersPut(dict, dict, m + MillisSuffix,
                     Some(GaugeValue(m + MillisSuffix, doc + " total_milliseconds", Field(response, "took").value)), Written(m));
      if HitsTotal(response).Some? {
        var g2 := Some(GaugeValue(m + HitsSuffix, doc + " hits_total", HitsTotal(response).value));
        var d2 := OrderedMap.Put(d1, m + HitsSuffix, g2);
        KeepsOthersPut(dict, d1, m + HitsSuffix, g2, Written(m));
        assert WriteGauges(dict, m, doc, response) == WriteAggregations(d2, m, doc, response);
        var agg := Field(response, "aggregations");
        if agg.Some? && agg.value.JObj? && HandleFields(agg.value, 0, []).ok {
          KeepsOthersPut(dict, d2, m + AggSuffix, AggregationFamily(m + AggSuffix, doc, HandleFields(agg.value, 0, []).pairs),
                         Written(m));
        }
      }
    }
  }

  /**
   * The dict is never cleared: every name other than the three this run
   * writes keeps its value, existing names keep their order and new ones
   * are appended, and names stay distinct.
   */
  lemma QueryKeepsOtherKeys(dict: OrderedMap.Entries<Option<Family>>, config: map<string, Json>, search: Fetch,
                            format: (string, map<string, Json>) -> Option<string>)
    ensures var r := QueryUpdate(dict, config, search, format);
      && OrderedMap.Keys(dict) <= OrderedMap.Keys(r.dict)
      && (OrderedMap.DistinctKeys(dict) ==> OrderedMap.DistinctKeys(r.dict))
      && (MetricName(config, format).None? ==> r.dict == dict)
      && forall x :: MetricName(config, format).Some? && x !in Written(MetricName(config, format).value) ==>
           OrderedMap.Get(r.dict, x) == OrderedMap.Get(dict, x)
  {
    var r := QueryUpdate(dict, config, search, format);
    if MetricName(config, format).Some? && r.dict != dict {
      var m := MetricName(config, format).value;
      assert r == WriteGauges(dict, m, config["doc"].s, search.response);
      WriteGaugesKeeps(dict, m, config["doc"].s, search.response);
    }
  }

  /** The aggregation step writes `<m>_aggregations` at most, and returns normally exactly when the walk does. */
  lemma WriteAggregationsResult(dict: OrderedMap.Entries<Option<Family>>, m: string, doc: string, response: Json)
    ensures var r := WriteAggregations(dict, m, doc, response);
      && (forall x :: x != m + AggSuffix ==> OrderedMap.Get(r.dict, x) == OrderedMap.Get(dict, x))
      && (Field(response, "aggregations").None? ==> r == Update(dict, true))
      && (Field(response, "aggregations").Some? ==>
           var agg := Field(response, "aggregations").value;
           && (r.ok <==> agg.JObj? && HandleFields(agg, 0, []).ok)
           && (r.ok ==> OrderedMap.Get(r.dict, m + AggSuffix)
                        == Some(AggregationFamily(m + AggSuffix, doc, HandleFields(agg, 0, []).pairs)))
           && (!r.ok ==> r.dict == dict))
  {
    match Field(response, "aggregations")
    case None =>
    case Some(agg) =>
      if agg.JObj? && HandleFields(agg, 0, []).ok {
        var g := AggregationFamily(m + AggSuffix, doc, HandleFields(agg, 0, []).pairs);
        var r := OrderedMap.Put(dict, m + AggSuffix, g);
        assert WriteAggregations(dict, m, doc, response) == Update(r, true);
        OrderedMap.GetPutSame(dict, m + AggSuffix, g);
        forall x | x != m + AggSuffix ensures OrderedMap.Get(r, x) == OrderedMap.Get(dict, x) {
          OrderedMap.GetPutOther(dict, m + AggSuffix, g, x);
        }
      }
  }

  /**
   * A search that did not time out sets `<m>_total_milliseconds` to `took`
   * and `<m>_hits_total` to the hit count; without `aggregations` the run
   * then returns normally.
   */
  lemma QueryWritesGauges(dict: OrderedMap.Entries<Option<Family>>, config: map<string, Json>, response: Json,
                          format: (string, map<string, Json>) -> Option<string>)
    requires "index" in config && "query_json" in config && "timeout" in config
    requires MetricName(config, format).Some?
    requires Field(response, "timed_out").Some? && !Truthy(Field(response, "timed_out").value)
    requires "doc" in config && config["doc"].JStr?
    requires Field(response, "took").Some? && HitsTotal(response).Some?
    ensures var m := MetricName(config, format).value;
      var doc := config["doc"].s;
      var r := QueryUpdate(dict, config, Fetched(response), format);
      && OrderedMap.Get(r.dict, m + MillisSuffix)
         == Some(Some(GaugeValue(m + MillisSuffix, doc + " total_milliseconds", Field(response, "took").value)))
      && OrderedMap.Get(r.dict, m + HitsSuffix)
         == Some(Some(GaugeValue(m + HitsSuffix, doc + " hits_total", HitsTotal(response).value)))
      && (Field(response, "aggregations").None? ==> r.ok)
  {
    var m := MetricName(config, format).value;
    var doc := config["doc"].s;
    var g1 := Some(GaugeValue(m + MillisSuffix, doc + " total_milliseconds", Field(response, "took").value));
    var g2 := Some(GaugeValue(m + HitsSuffix, doc + " hits_total", HitsTotal(response).value));
    var d1 := OrderedMap.Put(dict, m + MillisSuffix, g1);
    var d2 := OrderedMap.Put(d1, m + HitsSuffix, g2);
    assert QueryUpdate(dict, config, Fetched(response), format) == WriteAggregations(d2, m, doc, response);
    assert |m + MillisSuffix| != |m + HitsSuffix| && |m + MillisSuffix| != |m + AggSuffix| && |m + HitsSuffix| != |m + AggSuffix|;
    OrderedMap.GetPutSame(dict, m + MillisSuffix, g1);
    OrderedMap.GetPutOther(d1, m + HitsSuffix, g2, m + MillisSuffix);
    OrderedMap.GetPutSame(d1, m + HitsSuffix, g2);
    WriteAggregationsResult(d2, m, doc, response);
  }

  /**
   * With an `aggregations` entry, the run returns normally exactly when it is
   * a dict whose walk finishes; `<m>_aggregations` is then the aggregation
   * family, None exactly when no pair was yielded, and otherwise that name
   * keeps its old value.
   */
  lemma QueryWritesAggregations(dict: OrderedMap.Entries<Option<Family>>, config: map<string, Json>, response: Json,
                                format: (string, map<string, Json>) -> Option<string>)
    requires "index" in config && "query_json" in config && "timeout" in config
    requires MetricName(config, format).Some?
    requires Field(response, "timed_out").Some? && !Truthy(Field(response, "timed_out").value)
    requires "doc" in config && config["doc"].JStr?
    requires Field(response, "took").Some? && HitsTotal(response).Some?
    requires Field(response, "aggregations").Some?
    ensures var m := MetricName(config, format).value;
      var agg := Field(response, "aggregations").value;
      var r := QueryUpdate(dict, config, Fetched(response), format);
      && (r.ok <==> agg.JObj? && HandleFields(agg, 0, []).ok)
      && (r.ok ==>
           && OrderedMap.Get(r.dict, m + AggSuffix)
              == Some(AggregationFamily(m + AggSuffix, config["doc"].s, HandleFields(agg, 0, []).pairs))
           && (OrderedMap.Get(r.dict, m + AggSuffix) == Some(None) <==> HandleFields(agg, 0, []).pairs == []))
      && (!r.ok ==> OrderedMap.Get(r.dict, m + AggSuffix) == OrderedMap.Get(dict, m + AggSuffix))
  {
    var m := MetricName(config, format).value;
    var doc := config["doc"].s;
    var g1 := Some(GaugeValue(m + MillisSuffix, doc + " total_milliseconds", Field(response, "took").value));
    var g2 := Some(GaugeValue(m + HitsSuffix, doc + " hits_total", HitsTotal(response).value));
    var d1 := OrderedMap.Put(dict, m + MillisSuffix, g1);
    var d2 := OrderedMap.Put(d1, m + HitsSuffix, g2);
    assert QueryUpdate(dict, config, Fetched(response), format) == WriteAggregations(d2, m, doc, response);
    assert |m + MillisSuffix| != |m + AggSuffix| && |m + HitsSuffix| != |m + AggSuffix|;
    OrderedMap.GetPutOther(dict, m + MillisSuffix, g1, m + AggSuffix);
    OrderedMap.GetPutOther(d1, m + HitsSuffix, g2, m + AggSuffix);
    WriteAggregationsResult(d2, m, doc, response);
  }

  /** `label_dict` shared by sibling aggregations: a second top-level aggregation's pair still carries the first one's key. */
  lemma SiblingLabelsCarryOver()
    ensures var agg := JObj([
        ("a", JObj([("buckets", JList([JObj([("key", JInt(1)), ("doc_count", JInt(5))])]))])),
        ("b", JObj([("buckets", JList([JObj([("key", JInt(2)), ("doc_count", JInt(7))])]))]))]);
      HandleFields(agg, 0, []) == AggRun(
        [([("a", JInt(1))], JInt(5)), ([("a", JInt(1)), ("b", JInt(2))], JInt(7))],
        [("a", JInt(1)), ("b", JInt(2))], true)
  {
    var bucketA := JObj([("key", JInt(1)), ("doc_count", JInt(5))]);
    var bucketB := JObj([("key", JInt(2)), ("doc_count", JInt(7))]);
    assert Field(bucketA, "key") == Some(JInt(1)) && Field(bucketA, "doc_count") == Some(JInt(5));
    assert Field(bucketB, "key") == Some(JInt(2)) && Field(bucketB, "doc_count") == Some(JInt(7));
    assert OrderedMap.Put([], "a", JInt(1)) == [("a", JInt(1))];
    assert OrderedMap.Put([("a", JInt(1))], "b", JInt(2)) == [("a", JInt(1)), ("b", JInt(2))];
  }

  // ---------------------------------------------------------------------
  // QueryMetricCollector
  // ---------------------------------------------------------------------

  /** `QueryMetricCollector`: the dict from family name to family (or None) that every run writes into. */
  class QueryMetricCollector {
    var customMetricDict: OrderedMap.Entries<Option<Family>>

    constructor ()
      ensures customMetricDict == []
    {
      customMetricDict := [];
    }

    /**
     * `gen_job(config)` with `config['global']` and `config['metrics']`: one
     * job per entry, in list order, until an entry raises; each entry
     * visited gets its timeout default written into it.
     */
    method GenJob(global: map<string, Json>, metrics: array<map<string, Json>>)
      returns (jobs: seq<Job>, err: Option<Base.ConfigError>)
      modifies metrics
      ensures |jobs| <= metrics.Length
      ensures forall n :: 0 <= n < |jobs| ==> JobFor(global, old(metrics[n])) == Success(jobs[n])
      ensures err.None? ==> |jobs| == metrics.Length
      ensures err.Some? ==> |jobs| < metrics.Length && JobFor(global, old(metrics[|jobs|])) == Failure(err.value)
      ensures forall n :: 0 <= n < metrics.Length ==>
        metrics[n] == if n <= |jobs| then FilledConfig(global, old(metrics[n])) else old(metrics[n])
    {
      jobs := [];
      var i := 0;
      while i < metrics.Length
        invariant 0 <= i <= metrics.Length && |jobs| == i
        invariant forall n :: 0 <= n < i ==> JobFor(global, old(metrics[n])) == Success(jobs[n])
        invariant forall n :: 0 <= n < metrics.Length ==>
          metrics[n] == if n < i then FilledConfig(global, old(metrics[n])) else old(metrics[n])
      {
        var m := metrics[i];
        if "interval" !in global {
          return jobs, Some(Base.MissingKey("interval"));
        }
        var lit := if "interval" in m then m["interval"] else global["interval"];
        if "timeout" !in m {
          if "timeout" !in global {
            return jobs, Some(Base.MissingKey("timeout"));
          }
          m := m["timeout" := global["timeout"]];
          metrics[i] := m;
        }
        var seconds := Base.IntervalHandle(lit);
        if seconds.Failure? {
          return jobs, Some(seconds.error);
        }
        if "name" !in m {
          return jobs, Some(Base.MissingKey("name"));
        }
        jobs := jobs + [Job(m, seconds.value, m["name"])];
        i := i + 1;
      }
      err := None;
    }

    /**
     * `get_metric(config)`: `search` is the client's answer, `format`
     * stands for `str.format`; `ok` is false where the source raises.
     */
    method GetMetric(config: map<string, Json>, search: Fetch, format: (string, map<string, Json>) -> Option<string>)
      returns (ok: bool)
      modifies this
      ensures Update(customMetricDict, ok) == QueryUpdate(old(customMetricDict), config, search, format)
    {
      if "index" !in config || "query_json" !in config || "timeout" !in config {
        return false;
      }
      if search.FetchFailed? {
        return false;
      }
      var response := search.response;
      if "metric" !in config || !config["metric"].JStr? {
        return false;
      }
      var formatted := format(config["metric"].s, config);
      if formatted.None? {
        return false;
      }
      var metric := StripStars(formatted.value);
      var timedOut := Field(response, "timed_out");
      if timedOut.None? {
        return false;
      }
      if Truthy(timedOut.value) {
        return true;
      }
      if "doc" !in config || !config["doc"].JStr? {
        return false;
      }
      ok := WriteResponse(metric, config["doc"].s, response);
    }

    /** From `took` on: the latency and hit-count gauges, then the aggregation family. */
    method WriteResponse(metric: string, doc: string, response: Json) returns (ok: bool)
      modifies this
      ensures Update(customMetricDict, ok) == WriteGauges(old(customMetricDict), metric, doc, response)
    {
      var took := Field(response, "took");
      if took.None? {
        return false;
      }
      var key := metric + MillisSuffix;
      customMetricDict := OrderedMap.Put(customMetricDict, key, Some(GaugeValue(key, doc + " total_milliseconds", took.value)));
      var total := HitsTotal(response);
      if total.None? {
        return false;
      }
      key := metric + HitsSuffix;
      customMetricDict := OrderedMap.Put(customMetricDict, key, Some(GaugeValue(key, doc + " hits_total", total.value)));
      ok := WriteAggregationFamily(metric, doc, response);
    }

    /** The `'aggregations' in response` branch: walk the aggregations with a fresh label dict. */
    method WriteAggregationFamily(metric: string, doc: string, response: Json) returns (ok: bool)
      modifies this
      ensures Update(customMetricDict, ok) == WriteAggregations(old(customMetricDict), metric, doc, response)
    {
      var aggregations := Field(response, "aggregations");
      if aggregations.None? {
        return true;
      }
      if !aggregations.value.JObj? {
        return false;
      }
      var key := metric + AggSuffix;
      var labelDict := new LabelDict();
      var pairs, walked := AggregationsHandle(aggregations.value, labelDict);
      if !walked {
        return false;
      }
      var g := BuildAggregationFamily(key, doc, pairs);
      customMetricDict := OrderedMap.Put(customMetricDict, key, g);
      return true;
    }

    /** `collect`: the values of the dict, in its order, None entries included. */
    method Collect() returns (values: seq<Option<Family>>)
      ensures |values| == |customMetricDict|
      ensures forall n :: 0 <= n < |values| ==> values[n] == customMetricDict[n].1
    {
      var snapshot := customMetricDict;
      values := [];
      var i := 0;
      while i < |snapshot|
        invariant 0 <= i <= |snapshot| && |values| == i
        invariant forall n :: 0 <= n < i ==> values[n] == snapshot[n].1
      {
        values := values + [snapshot[i].1];
        i := i + 1;
      }
    }
  }

  /** The loop over the walk's pairs: the family is created at the first pair, then every pair is added. */
  method BuildAggregationFamily(name: string, doc: string, pairs: seq<(Labels, Json)>) returns (g: Option<Family>)
    ensures g == AggregationFamily(name, doc, pairs)
  {
    g := None;
    var i := 0;
    while i < |pairs|
      invariant 0 <= i <= |pairs|
      invariant i == 0 ==> g == None
      invariant i > 0 ==> g == Some(AddAll(AggregationGauge(name, doc, OrderedMap.Keys(pairs[0].0)), pairs[..i]))
    {
      var labels := pairs[i].0;
      if g.None? {
        g := Some(AggregationGauge(name, doc, OrderedMap.Keys(labels)));
        assert pairs[..i] == [];
      }
      g := Some(AddMetric(g.value, OrderedMap.Values(labels), pairs[i].1));
      assert pairs[..i + 1][..i] == pairs[..i];
      i := i + 1;
    }
    assert pairs[..|pairs|] == pairs;
  }
}
