# elasticsearch_exporter collectors in Dafny

A model of the collectors in the Prometheus exporter `elasticsearch_exporter`. Each collector calls the
Elasticsearch client, turns the JSON response into gauge metric families, and either returns them on
every scrape or, when scheduled, runs at the next scrape the generator its job stored. The model covers:

- the collector base (`collector/base.py`):
  - the interval parser;
  - the "did the fetch succeed" `<key>_up` gauge;
  - the configuration defaults;
  - the decision between scheduled and synchronous collection, and the one-shot generator a scheduled
    job stores;
- the custom-query collector (`collector/query_metric.py`):
  - job generation;
  - the recursive flattening of aggregation buckets into label sets;
  - the latency, hit-count and aggregation families kept in the collector's dict;
- the cluster-health and cluster collectors (`collector/cluster_health.py`, `collector/cluster.py`). They
  drop `cluster_name` and `timed_out`, map `status` to a number, and emit one family per remaining key;
- the node-stats collector (`collector/es_node.py`):
  - request-parameter selection;
  - a four-sample role family per node;
  - the flattened stats of twelve fixed groups;
- the indices-stats collector (`collector/indices.py`). `_all` is injected as one more index, and each
  index gets families for its `primaries` and `total` statistics.

Modelling conventions:

- A parsed response or a configuration value is a `Json` tree. A Python dict is an ordered
  entry sequence (module `OrderedMap`), because the collectors emit families in the dict's iteration order:
  - assigning to an existing key keeps its place;
  - assigning to a new key appends it;
  - `del` removes it.
- A generator's run is a `Stream`: the families it yielded, then the exception that ended it, if any.
  `Then(a, b)` is `yield from a` followed by `yield from b`.
- A client call is a `Fetch`: the parsed response, or the exception the call raised (a timeout or any
  other error).
- The flattener `auto_gen_metric`, the blocklist `is_block`/`_is_block` and `str.format` are called but
  not defined in the modelled files. They enter as function parameters. `get_request_param_from_config`
  is not modelled either: its result, the parameter dict, is the input of the node collector's selection.
- Every loop of the source is a Dafny `method` with a `while` loop. Each method is proved equal to a
  recursive specification function, and the properties are lemmas about those functions. State the
  source updates in place is a class field:
  - the base collector's `config`, `enable_scheduler` and `custom_metric_value` (the generator the
    scheduled job stored: not yet run, or already drained);
  - the query collector's `custom_metric_dict`;
  - the shared aggregation `label_dict`;
  - the node collector's `param_dict` and the fields it pops into.

Behaviour of the code worth knowing, which the model follows:

- An interval of `"disable"` is not a distinct state. `interval_handle` rejects it like any other
  non-numeric literal (`Base.IntervalHandle`).
- A scheduled job stores the generator `self._get_metric()` without running it. The fetch happens at the
  next `collect`, which yields what the fetch gives at that moment, with no `<key>_up` gauge around it
  and any exception propagating. The generator is then drained, so a second `collect` before the next
  job run yields nothing, and so does every `collect` before the first job run
  (`Base.BaseEsCollector.Collect`, `Base.ScheduledRunsOnce`).
- `get_metric` keeps whatever `_get_metric` yielded before raising, then adds `<key>_up` = 0
  (`Base.BaseEsCollector.GetMetric`). Any exception before the first yield leaves the `_up` gauge
  alone: a failed client call, and also a missing response key such as `cluster_name`, `timed_out` or
  `status` (cluster_health.py:19-23), `indices` or `_all` (indices.py:22-23), or `nodes` and the first
  node's `name`, `transport_address` or `roles` (es_node.py:47-56).
- Aggregation flattening reuses one label dict across sibling aggregations and buckets. A later
  top-level aggregation's label set therefore still carries keys set by an earlier sibling
  (`QueryMetric.SiblingLabelsCarryOver`); in general the label names of successive pairs only grow
  (`QueryMetric.FieldsKeysGrow`). The family takes its label names from the first pair only;
  `zip` then drops values beyond that count (`QueryMetric.AggregationSamples`). Without shadowing, the
  shared dict's labels contain those of a copy-per-branch reference walk (`QueryMetric.FieldsCoverPath`).
- The `es_cluster` help text is always the response key. The doc dict is empty, and it is looked up
  under the literal `'key'` (`Cluster.GetMetric`).

## Model

| member | source | states |
|---|---|---|
| Base.PyInt | elasticsearch_exporter/collector/base.py:14-16 | defines `int()` of a str: surrounding whitespace skipped, one optional sign, digits with single underscores; its properties are `Base.DecimalParses`, `Base.DecimalWithSuffixFails` and `Base.IntervalSkipsSpace` |
| Base.DecimalParses | elasticsearch_exporter/collector/base.py:14 | `int()` of a decimal numeral is the number it denotes |
| Base.DecimalWithSuffixFails | elasticsearch_exporter/collector/base.py:14-16 | `int()` of a numeral followed by a non-digit raises, so the unit branch is taken |
| Base.IntervalHandle | elasticsearch_exporter/collector/base.py:11-26 | an int literal is its own value; a string fails exactly when neither it nor it without its last character parses; None, lists and dicts fail; every failure is `Not support interval` for that literal |
| Base.IntervalPlain | elasticsearch_exporter/collector/base.py:13-14 | a plain numeral is a number of seconds |
| Base.IntervalWithUnit | elasticsearch_exporter/collector/base.py:15-24 | a numeral with a unit is scaled by 1 for `s`, 60 for `m`, 3600 for `h`, and left unscaled for any other non-digit unit |
| Base.IntervalExamples | elasticsearch_exporter/collector/base.py:11-26 | `30s`=30, `5m`=300, `2h`=7200, `45`=45, and the unknown unit in `30x` gives 30 |
| Base.IntervalSkipsSpace | elasticsearch_exporter/collector/base.py:14 | any whitespace `int()` skips around a numeral is skipped, so the numeral is still its number of seconds |
| Base.IntervalRejectsSeparator | elasticsearch_exporter/collector/base.py:14-26 | the ASCII separator 0x1C is not whitespace to `int()`: `"\x1c5"` and `"\x1c"` both fail, so the literal is refused with `Not support interval` |
| Base.IntervalRejectsWord | elasticsearch_exporter/collector/base.py:25-26 | a word such as `abc` raises `Not support interval` |
| Base.CollectorUpGauge | elasticsearch_exporter/collector/base.py:6-8 | the family is `<name>_up`, has no labels, and has one sample: 1 on success, 0 on failure |
| Base.DefaultTimeout | elasticsearch_exporter/collector/base.py:56-57 | `timeout` is taken from the global section only when absent; it raises exactly when neither section has one; every other key is unchanged |
| Base.InitConfig | elasticsearch_exporter/collector/base.py:44-57 | scheduling is on exactly when the section has `interval`; the interval is replaced by its parsed seconds; `timeout` is defaulted; the error cases are the missing global interval or timeout and an unparsable interval |
| Base.BaseEsCollector.constructor | elasticsearch_exporter/collector/base.py:44-50 | the key, sections, unscheduled flag and empty cache as `__init__` first sets them |
| Base.BaseEsCollector.Create | elasticsearch_exporter/collector/base.py:44-57 | a missing section raises KeyError; otherwise the collector's state is what `InitConfig` computes, or its error; a built collector is scheduled exactly when its section has `interval` |
| Base.BaseEsCollector.GetMetric | elasticsearch_exporter/collector/base.py:62-72 | yields every family the inner run yielded, then exactly one up gauge (0 when it raised); never raises |
| Base.BaseEsCollector.GenJob | elasticsearch_exporter/collector/base.py:74-77 | returns the interval and key; raises KeyError exactly when the section has no `interval`, which for a collector `Create` built (`Valid`) is exactly when it is not scheduled |
| Base.BaseEsCollector.RunJob | elasticsearch_exporter/collector/base.py:75-76 | the job stores a fresh, not yet started generator, and changes nothing else |
| Base.BaseEsCollector.Collect | elasticsearch_exporter/collector/base.py:79-84 | scheduled: a stored generator runs now, yielding what a fetch gives now (its exception propagating), and is drained; nothing before the first job or from a drained generator; unscheduled: `get_metric` of a run now |
| Base.ScheduledRunsOnce | elasticsearch_exporter/collector/base.py:74-84 | a scheduled collector yields nothing before its job runs; the next collect yields what a fetch gives then; a second collect yields nothing until the job runs again |
| QueryMetric.JobFor | elasticsearch_exporter/collector/query_metric.py:13-38 | a job carries the config with its timeout defaulted, the parsed interval (the entry's own, or the global one) and the name; the global interval is always required; otherwise it fails only on a bad interval or a missing name |
| QueryMetric.QueryMetricCollector.GenJob | elasticsearch_exporter/collector/query_metric.py:12-38 | one job per metric config in order, until the first that raises; every config visited has its timeout defaulted in place |
| QueryMetric.LabelDict.constructor | elasticsearch_exporter/collector/query_metric.py:44-45 | the label dict starts empty |
| QueryMetric.LabelDict.Set | elasticsearch_exporter/collector/query_metric.py:48 | `label_dict[k] = v` overwrites in place or appends |
| QueryMetric.HandleFields | elasticsearch_exporter/collector/query_metric.py:40-56 | defines `_aggregations_handle` over one dict from entry `i` on: `key` and `doc_count` skipped, a missing `buckets` raising, each bucket list walked with the same label dict; its properties are the `Fields…` lemmas |
| QueryMetric.HandleBuckets | elasticsearch_exporter/collector/query_metric.py:47-56 | defines the walk over one bucket list from bucket `j` on, stopping at the first raise |
| QueryMetric.BucketStep | elasticsearch_exporter/collector/query_metric.py:48-56 | defines one bucket: a missing `key` raises; the key label is set, then a bucket with more than two entries recurses, else its `doc_count` is yielded with the labels or raises |
| QueryMetric.AggregationsHandle | elasticsearch_exporter/collector/query_metric.py:40-56 | the recursive walk over the shared label dict yields the pairs, the final label dict and the raise flag of the aggregation specification |
| QueryMetric.VisitBuckets | elasticsearch_exporter/collector/query_metric.py:47-56 | the loop over one aggregation's buckets, all sharing the label dict, yields what the bucket-list specification yields and leaves its label dict |
| QueryMetric.VisitBucket | elasticsearch_exporter/collector/query_metric.py:47-56 | one bucket: sets its key label, then recurses when the bucket has more than two entries, else yields the labels with `doc_count` |
| QueryMetric.FieldsMatchRef | elasticsearch_exporter/collector/query_metric.py:40-56 | the shared-dict walk raises exactly when a copy-per-branch reference walk does, and yields the same number of pairs with the same doc counts in the same order |
| QueryMetric.BucketsMatchRef | elasticsearch_exporter/collector/query_metric.py:46-56 | the same agreement for a bucket list |
| QueryMetric.FieldsCoverPath | elasticsearch_exporter/collector/query_metric.py:40-56 | when no aggregation name repeats on a path, each yielded label set contains that leaf's own path of bucket keys |
| QueryMetric.BucketsCoverPath | elasticsearch_exporter/collector/query_metric.py:46-56 | the same for a bucket list |
| QueryMetric.FieldsKeysGrow | elasticsearch_exporter/collector/query_metric.py:40-56 | the label names of successive pairs only grow: each is a prefix of the next |
| QueryMetric.BucketsKeysGrow | elasticsearch_exporter/collector/query_metric.py:46-56 | the same for a bucket list |
| QueryMetric.FieldsNeverReserved | elasticsearch_exporter/collector/query_metric.py:41-43 | `key` and `doc_count` never become label names |
| QueryMetric.BucketsNeverReserved | elasticsearch_exporter/collector/query_metric.py:46-48 | the same for a bucket list |
| QueryMetric.StripStars | elasticsearch_exporter/collector/query_metric.py:65 | the result has no `*`; it holds the input's other characters; a name without `*` is unchanged |
| QueryMetric.MetricName | elasticsearch_exporter/collector/query_metric.py:64-65 | a name exists exactly when `metric` is a string that formats; it is the formatted string with every `*` removed |
| QueryMetric.HitsTotal | elasticsearch_exporter/collector/query_metric.py:77-79 | `hits.total`, or its `value` when it is a dict |
| QueryMetric.AddAllSamples | elasticsearch_exporter/collector/query_metric.py:100 | repeated `add_metric` appends one sample per pair, in order, with the values zipped to the label names |
| QueryMetric.AggregationSamples | elasticsearch_exporter/collector/query_metric.py:89-101 | the aggregation family's label names are the first pair's keys; there is one sample per pair with that pair's doc count; each sample's values are the pair's label values up to that many names |
| QueryMetric.QueryUpdate | elasticsearch_exporter/collector/query_metric.py:58-101 | defines `get_metric` as an update of the metric dict and a normal-return flag; its properties are the `Query…` lemmas |
| QueryMetric.WriteGauges | elasticsearch_exporter/collector/query_metric.py:69-87 | defines the latency and hit-count writes from `took` on, then hands over to the aggregation step |
| QueryMetric.WriteAggregations | elasticsearch_exporter/collector/query_metric.py:89-101 | defines the `'aggregations' in response` branch |
| QueryMetric.QueryFailsEarly | elasticsearch_exporter/collector/query_metric.py:59-65 | a missing config key, a failed search or an unformattable name raises and leaves the dict unchanged |
| QueryMetric.QueryTimedOutKeepsDict | elasticsearch_exporter/collector/query_metric.py:66-67 | a timed-out search returns normally and writes nothing |
| QueryMetric.QueryKeepsOtherKeys | elasticsearch_exporter/collector/query_metric.py:69-101 | only the three names of this metric are written; existing names keep their order; distinct names stay distinct |
| QueryMetric.WriteAggregationsResult | elasticsearch_exporter/collector/query_metric.py:89-101 | the aggregation step writes at most `<m>_aggregations`; it returns normally exactly when the walk does; without `aggregations` it writes nothing |
| QueryMetric.QueryWritesGauges | elasticsearch_exporter/collector/query_metric.py:69-87 | `<m>_total_milliseconds` holds `took` and `<m>_hits_total` holds the hit count |
| QueryMetric.QueryWritesAggregations | elasticsearch_exporter/collector/query_metric.py:89-101 | `<m>_aggregations` is the aggregation family, None exactly when no pair was yielded; on a raise it keeps its old value |
| QueryMetric.SiblingLabelsCarryOver | elasticsearch_exporter/collector/query_metric.py:41-56 | with sibling aggregations `a` and `b`, the pair for `b` still carries `a`'s key |
| QueryMetric.QueryMetricCollector.constructor | elasticsearch_exporter/collector/query_metric.py:8-10 | the metric dict starts empty |
| QueryMetric.QueryMetricCollector.GetMetric | elasticsearch_exporter/collector/query_metric.py:58-101 | the dict update and the normal-return flag are those of the query specification |
| QueryMetric.QueryMetricCollector.WriteResponse | elasticsearch_exporter/collector/query_metric.py:69-101 | from `took` on, the dict update and flag are those of the gauge-writing specification: latency, then hit count, then aggregations |
| QueryMetric.QueryMetricCollector.WriteAggregationFamily | elasticsearch_exporter/collector/query_metric.py:89-101 | the `'aggregations' in response` branch writes the aggregation family (or None) under `<metric>_aggregations`, or nothing when the walk raises |
| QueryMetric.QueryMetricCollector.Collect | elasticsearch_exporter/collector/query_metric.py:103-106 | yields every stored family (None included), in dict order |
| QueryMetric.BuildAggregationFamily | elasticsearch_exporter/collector/query_metric.py:90-101 | the loop builds the family from the first pair's labels and adds one sample per pair; no pairs gives None |
| ClusterHealth.StatusCode | elasticsearch_exporter/collector/cluster_health.py:11-23 | green is 0 and yellow is 1; any other hashable status is 2; a list or dict status raises |
| ClusterHealth.Remaining | elasticsearch_exporter/collector/cluster_health.py:19-23 | defines the trimmed response dict, None where a lookup raises; its properties are `ClusterHealth.RemainingShape` and `ClusterHealth.TranslationFails` |
| ClusterHealth.Translation | elasticsearch_exporter/collector/cluster_health.py:17-32 | defines the `_get_metric` run shared with the cluster collector; its properties are `ClusterHealth.TranslationOf`, `TranslationFails` and `TranslationFamilies` |
| ClusterHealth.FamiliesAt | elasticsearch_exporter/collector/cluster_health.py:24-32 | one family per remaining entry, in order |
| ClusterHealth.TranslationOf | elasticsearch_exporter/collector/cluster_health.py:17-32 | once the response is trimmed, the run yields exactly the entry families and returns |
| ClusterHealth.TranslationFails | elasticsearch_exporter/collector/cluster_health.py:17-23 | the run raises exactly when `cluster_name`, `timed_out` or `status` is missing or the status is unhashable; then nothing is yielded |
| ClusterHealth.RemainingShape | elasticsearch_exporter/collector/cluster_health.py:19-23 | the trimmed dict keeps every key but `cluster_name` and `timed_out`, in order; only `status` changes value |
| ClusterHealth.TranslationFamilies | elasticsearch_exporter/collector/cluster_health.py:24-32 | response keys minus two families, named `<key>_<k>`, labelled `cluster_name` with the cluster's name, each with the entry's (or the mapped status) value |
| ClusterHealth.Trim | elasticsearch_exporter/collector/cluster_health.py:19-23 | the in-place deletions and status overwrite give the trimmed dict of the specification |
| ClusterHealth.EmitFamilies | elasticsearch_exporter/collector/cluster_health.py:24-32 | the emitting loop yields the entry families |
| ClusterHealth.Translate | elasticsearch_exporter/collector/cluster_health.py:17-32 | the whole `_get_metric` run equals the translation specification |
| ClusterHealth.GetMetric | elasticsearch_exporter/collector/cluster_health.py:17-32 | `cluster_health` families, each labelled `cluster_name` with one sample |
| Cluster.GetMetric | elasticsearch_exporter/collector/cluster.py:16-33 | the shared translation under `es_cluster`, where each family's help text is its response key |
| Triples.Unblocked | elasticsearch_exporter/collector/es_node.py:72-74 | exactly the triples whose names the blocklist lets through |
| Triples.TripleFamiliesUnblocked | elasticsearch_exporter/collector/es_node.py:72-81 | one family per unblocked triple, in order, and none for a blocked one |
| Triples.TripleFamiliesShape | elasticsearch_exporter/collector/indices.py:28-37 | every family has an unblocked name, the caller's label names, and one sample with the caller's label values |
| Triples.EmitTriples | elasticsearch_exporter/collector/es_node.py:72-81 | the skip-or-yield loop over the flattened triples yields the triple families |
| EsNode.SelectParams | elasticsearch_exporter/collector/es_node.py:30-38 | a missing `node_id` raises; `node_id` and `metric` are always taken out; `index_metric` is taken out exactly under an `indices` or `_all` metric (else it is None and stays); every other parameter stays unchanged |
| EsNode.EsNodeCollector.constructor | elasticsearch_exporter/collector/es_node.py:11-29 | the parameter dict as configured, before the pops |
| EsNode.EsNodeCollector.SelectRequest | elasticsearch_exporter/collector/es_node.py:30-38 | the pops leave the fields and parameter dict the selection computes; a missing `node_id` changes nothing |
| EsNode.EsNodeCollector.Create | elasticsearch_exporter/collector/es_node.py:30-38 | the pops fail exactly when `node_id` is missing, and otherwise leave the selection's fields |
| EsNode.RolePart | elasticsearch_exporter/collector/es_node.py:56-66 | defines the role part of a node: nothing when blocked, otherwise the role family, raising on roles `in` cannot search |
| EsNode.GroupsFrom | elasticsearch_exporter/collector/es_node.py:68-81 | defines the stats part from group `j` on: the unblocked triple families of each group, raising at the first missing group |
| EsNode.NodeFamilies | elasticsearch_exporter/collector/es_node.py:49-81 | defines one node: its label values, the role part, then the stats groups |
| EsNode.NodesFrom | elasticsearch_exporter/collector/es_node.py:48-81 | defines the node loop from node `i` on, stopping at the first raise |
| EsNode.NodeStats | elasticsearch_exporter/collector/es_node.py:40-81 | defines `_get_metric`: a failed call or a missing or unusable `nodes` raises, otherwise the node loop |
| EsNode.RoleFamilyShape | elasticsearch_exporter/collector/es_node.py:56-66 | `es_node_role` has four samples (data, ingest, master, ml); each has the node's label values and is 1 exactly when the node has that role, else 0 |
| EsNode.BuildRoleFamily | elasticsearch_exporter/collector/es_node.py:59-65 | the four `add_metric` calls build the role family |
| EsNode.NodeValues | elasticsearch_exporter/collector/es_node.py:50-52 | a node's label values are its name, its id and its transport address |
| EsNode.RoleComesFirst | elasticsearch_exporter/collector/es_node.py:56-72 | an unblocked role family comes before all stats families; a blocked one leaves only the stats families; unusable roles raise |
| EsNode.GroupsFailOnMissing | elasticsearch_exporter/collector/es_node.py:68-72 | the stats groups raise KeyError exactly when one of the twelve is missing |
| EsNode.GroupsLabelled | elasticsearch_exporter/collector/es_node.py:68-81 | every stats family has the node label names, an unblocked name and the node's label values |
| EsNode.NodeFamiliesLabelled | elasticsearch_exporter/collector/es_node.py:50-81 | every family of a node is labelled `node`, `node_id`, `instance` with `[name, node_id, transport_address]` and has an unblocked name |
| EsNode.NodesLabelled | elasticsearch_exporter/collector/es_node.py:47-81 | across nodes, every family has the node label names and an unblocked name |
| EsNode.NodeStatsLabelled | elasticsearch_exporter/collector/es_node.py:41-81 | no family of the collector has a blocked name |
| EsNode.EmitGroups | elasticsearch_exporter/collector/es_node.py:68-81 | the loop over the twelve stats groups equals the stats-group specification |
| EsNode.EmitNode | elasticsearch_exporter/collector/es_node.py:49-81 | one pass of the outer loop equals the node specification |
| EsNode.EmitNodes | elasticsearch_exporter/collector/es_node.py:48-81 | the loop over nodes equals the node-list specification, stopping at the first raise |
| EsNode.EsNodeCollector.GetMetric | elasticsearch_exporter/collector/es_node.py:40-81 | `_get_metric` equals the node-stats specification; all families carry the node label names and unblocked names |
| Indices.WithAll | elasticsearch_exporter/collector/indices.py:21-23 | the indices dict with `_all` assigned exists exactly when `indices` is a dict and `_all` is present |
| Indices.AllInjected | elasticsearch_exporter/collector/indices.py:22-23 | `_all` holds the response's totals, overwriting an index of that name in place or appended last; every other index is unchanged and keeps its position |
| Indices.ContextsFrom | elasticsearch_exporter/collector/indices.py:27-37 | defines one index from context `c` on: the unblocked triple families of `primaries`, then `total`, raising at a missing context |
| Indices.IndicesFrom | elasticsearch_exporter/collector/indices.py:26-37 | defines the index loop from index `i` on, stopping at the first raise |
| Indices.IndexStats | elasticsearch_exporter/collector/indices.py:20-37 | defines `_get_metric`: a failed call or a missing `indices` or `_all` raises, otherwise the index loop over the `_all`-extended dict |
| Indices.ContextsLabelled | elasticsearch_exporter/collector/indices.py:27-37 | every family of an index has `index`, `context` labels, an unblocked name and one sample `[index, primaries or total]` |
| Indices.ContextsBoth | elasticsearch_exporter/collector/indices.py:27-28 | `primaries` families come first, then `total` families |
| Indices.ContextsMissing | elasticsearch_exporter/collector/indices.py:27-28 | an index raises exactly when a context is missing |
| Indices.ContextFamily | elasticsearch_exporter/collector/indices.py:31-36 | a context family has one sample with values `[index, context]` |
| Indices.TwoContexts | elasticsearch_exporter/collector/indices.py:27-37 | the primaries families, then the total families: their count and their per-position context |
| Indices.IndexContexts | elasticsearch_exporter/collector/indices.py:26-37 | one family per unblocked `primaries` triple, then one per unblocked `total` triple, each with sample values `[index, context]` |
| Indices.IndicesLabelled | elasticsearch_exporter/collector/indices.py:26-37 | every family belongs to one of the indices |
| Indices.IndexStatsLabelled | elasticsearch_exporter/collector/indices.py:20-37 | every family of the collector belongs to an index of the `_all`-extended dict, under one of its two contexts |
| Indices.EmitContexts | elasticsearch_exporter/collector/indices.py:27-37 | the context loop equals the context specification |
| Indices.EmitIndices | elasticsearch_exporter/collector/indices.py:26-37 | the index loop equals the index-list specification, stopping at the first raise |
| Indices.GetMetric | elasticsearch_exporter/collector/indices.py:20-37 | `_get_metric` equals the indices specification; every family is labelled `index`, `context` with one sample and an unblocked name |

## Left out

- The Elasticsearch client, logging, the HTTP server, the scheduler's threads and the race between a
  job and a scrape are I/O or concurrency. A client call is a `Fetch` input. The request arguments (`level`,
  `request_timeout`, the node and query parameters) only feed that call and are not modelled.
- `elasticsearch_exporter/__init__.py`, `utils.py` and the legacy `collector.py` are process plumbing or
  superseded code, and are not part of this model.
- `auto_gen_metric`, `is_block`/`_is_block`, `get_request_param_from_config` and `str.format` are not
  defined in the modelled files; they are parameters. The flattener is taken never to raise.
- Constructor chaining is not modelled. The node and index collectors call `super().__init__` with
  arguments that do not match the base. The index collector's `status_dict` (indices.py:14-18) is never
  read and is left out; the health collector's is `ClusterHealth.StatusCode`. The node collector is modelled from its parameter dict on.
- Base.BaseEsCollector.Collect: a generator left half-consumed by a consumer that stops early is not
  modelled; a collect drains the stored generator completely.
- `GaugeMetricFamily` is a plain record. Prometheus name validation and the float conversion of values are left
  out (values are integers; a role sample is 1 or 0).
- Base.IntervalHandle: `int()` is modelled for ASCII digits, one sign, single underscores between
  digits, and the whitespace `int()` skips (0x09-0x0D, 0x20, 0x85, 0xA0, 0x1680, 0x2000-0x200A,
  0x2028, 0x2029, 0x202F, 0x205F, 0x3000; the ASCII separators 0x1C-0x1F are not skipped). Unicode decimal digits other than ASCII,
  which Python also accepts, are left out.
- QueryMetric.QueryMetricCollector.GenJob: `config['global']` and `config['metrics']` are given as
  parameters rather than looked up.
- EsNode.EsNodeCollector.GetMetric: a non-empty list or string as `nodes` is taken to raise. For a list of integers,
  Python would index the list by its own elements instead. A node's stats are read from its dict entry,
  since a parsed JSON object has distinct keys.
