/**
 * `EsNodeCollector`: the selection of the `nodes.stats` request parameters,
 * and the translation of its response into one role family and the
 * flattened stats families per node.
 */
module EsNode {
  import opened Wrappers
  import opened Json
  import opened Metrics
  import opened OrderedMap
  import opened Triples

  /** The collector key, and so the prefix of every family name. */
  const Key := "es_node"

  /** `f'{self.key}_role'`. */
  const RoleMetric := Key + "_role"

  /** `labels_key_list`. */
  const LabelNames: seq<string> := ["node", "node_id", "instance"]

  /** The roles the role family reports, in sample order. */
  const Roles: seq<string> := ["data", "ingest", "master", "ml"]

  /** The stats groups of a node, in the order they are flattened. */
  const StatsGroups: seq<string> :=
    ["indices", "os", "process", "jvm", "thread_pool", "fs", "transport", "http", "breakers", "script",
     "discovery", "ingest"]

  // ---------------------------------------------------------------------
  // Request parameters
  // ---------------------------------------------------------------------

  /** The path arguments of `nodes.stats` and the query parameters left over. */
  datatype Selection = Selection(nodeId: Json, metric: Json, indexMetric: Json, rest: map<string, Json>)

  /** The `metric` values under which an `index_metric` is sent. */
  predicate TakesIndexMetric(metric: Json)
  {
    metric == JStr("indices") || metric == JStr("_all")
  }

  /**
   * The constructor's pops from `param_dict`: None where `pop('node_id')`
   * raises KeyError. `metric` is taken out when present (None otherwise), and
   * `index_metric` is taken out only under an `indices` or `_all` metric;
   * otherwise it stays among the query parameters.
   */
  function SelectParams(params: map<string, Json>): (r: Option<Selection>)
    ensures r.None? <==> "node_id" !in params
    ensures r.Some? ==>
      && r.value.nodeId == params["node_id"]
      && r.value.metric == (if "metric" in params then params["metric"] else JNull)
      && "node_id" !in r.value.rest && "metric" !in r.value.rest
      && (if TakesIndexMetric(r.value.metric) && "index_metric" in params
          then r.value.indexMetric == params["index_metric"] && "index_metric" !in r.value.rest
          else r.value.indexMetric == JNull && ("index_metric" in params ==> "index_metric" in r.value.rest))
      && (forall k :: k in r.value.rest ==> k in params && r.value.rest[k] == params[k])
      && (forall k :: k in params && k != "node_id" && k != "metric" && k != "index_metric" ==> k in r.value.rest)
  {
    if "node_id" !in params then None
    else
      var afterNode := params - {"node_id"};
      var metric := if "metric" in afterNode then afterNode["metric"] else JNull;
      var afterMetric := afterNode - {"metric"};
      if !TakesIndexMetric(metric) || "index_metric" !in afterMetric then
        Some(Selection(params["node_id"], metric, JNull, afterMetric))
      else
        Some(Selection(params["node_id"], metric, afterMetric["index_metric"], afterMetric - {"index_metric"}))
  }

  // ---------------------------------------------------------------------
  // The role family
  // ---------------------------------------------------------------------

  /** The node's `roles` value supports `in`: a list, a dict or a string. */
  predicate Container(roles: Json)
  {
    roles.JList? || roles.JObj? || roles.JStr?
  }

  /** `sub` occurs in `s` as a substring. */
  predicate Contains(s: string, sub: string)
  {
    sub <= s || (s != [] && Contains(s[1..], sub))
  }

  /** `role in node_role_list` for a container: list membership, dict key, or substring. */
  predicate Member(role: string, roles: Json)
  {
    match roles
    case JList(items) => JStr(role) in items
    case JObj(fields) => role in Keys(fields)
    case JStr(s) => Contains(s, role)
    case _ => false
  }

  /** `float(role in node_role_list)`: 1 or 0. */
  function RoleValue(role: string, roles: Json): Json
  {
    if Member(role, roles) then JInt(1) else JInt(0)
  }

  /** The role family after the samples of the first `k` roles. */
  function RoleFamilyUpTo(labelValues: seq<Json>, roles: Json, k: nat): Family
    requires k <= |Roles|
  {
    if k == 0 then Gauge(RoleMetric, "node role", LabelNames)
    else AddMetric(RoleFamilyUpTo(labelValues, roles, k - 1), labelValues, RoleValue(Roles[k - 1], roles))
  }

  /** The complete role family of a node. */
  function RoleFamily(labelValues: seq<Json>, roles: Json): Family
  {
    RoleFamilyUpTo(labelValues, roles, |Roles|)
  }

  lemma {:induction false} RoleFamilyUpToShape(labelValues: seq<Json>, roles: Json, k: nat)
    requires k <= |Roles| && |labelValues| == |LabelNames|
    ensures var g := RoleFamilyUpTo(labelValues, roles, k);
      && g.name == RoleMetric && g.doc == "node role" && g.labels == LabelNames
      && |g.samples| == k
      && forall r :: 0 <= r < k ==> g.samples[r] == Sample(labelValues, RoleValue(Roles[r], roles))
  {
    if k > 0 {
      RoleFamilyUpToShape(labelValues, roles, k - 1);
      assert labelValues[..|labelValues|] == labelValues;
    }
  }

  /**
   * The role family `es_node_role` has label names `node`, `node_id`,
   * `instance` and exactly four samples, for data, ingest, master and ml in
   * that order: each carries the node's label values, and is 1 exactly when
   * the node has that role.
   */
  lemma RoleFamilyShape(labelValues: seq<Json>, roles: Json)
    requires |labelValues| == |LabelNames|
    ensures var g := RoleFamily(labelValues, roles);
      && g.name == RoleMetric && g.labels == LabelNames
      && |g.samples| == 4
      && forall r :: 0 <= r < 4 ==>
        && g.samples[r].labelValues == labelValues
        && (g.samples[r].value == JInt(1) <==> Member(Roles[r], roles))
        && (g.samples[r].value == JInt(0) <==> !Member(Roles[r], roles))
  {
    RoleFamilyUpToShape(labelValues, roles, |Roles|);
  }

  // ---------------------------------------------------------------------
  // The families of one node, and of the whole response
  // ---------------------------------------------------------------------

  /** `[node_dict['name'], node_id, node_dict['transport_address']]`, or None where a lookup raises. */
  function NodeValues(nodeId: string, node: Json): (r: Option<seq<Json>>)
    ensures r.Some? ==> |r.value| == |LabelNames| && r.value[1] == JStr(nodeId)
    ensures r.Some? <==> Field(node, "name").Some? && Field(node, "transport_address").Some?
  {
    match Field(node, "name")
    case None => None
    case Some(name) =>
      match Field(node, "transport_address")
      case None => None
      case Some(instance) => Some([name, JStr(nodeId), instance])
  }

  /** The role part of a node: nothing when blocked, a TypeError when `roles` does not support `in`. */
  function RolePart(labelValues: seq<Json>, roles: Json, isBlock: string -> bool): Stream
  {
    if isBlock(RoleMetric) then Empty
    else if !Container(roles) then Raise(OtherError)
    else Stream([RoleFamily(labelValues, roles)], None)
  }

  /** The stats families of the groups from position `j` on; a missing group raises KeyError. */
  function GroupsFrom(node: Json, groups: seq<string>, labelValues: seq<Json>, j: nat, isBlock: string -> bool,
                      flatten: (string, Json) -> seq<Triple>): Stream
    requires j <= |groups|
    decreases |groups| - j
  {
    if j == |groups| then Empty
    else match Field(node, groups[j])
      case None => Raise(OtherError)
      case Some(stats) =>
        Then(Stream(TripleFamilies(flatten(Key + "_", stats), LabelNames, labelValues, isBlock), None),
             GroupsFrom(node, groups, labelValues, j + 1, isBlock, flatten))
  }

  /** What one pass of the outer loop yields for the node `nodeId`. */
  function NodeFamilies(nodeId: string, node: Json, isBlock: string -> bool,
                        flatten: (string, Json) -> seq<Triple>): Stream
  {
    match NodeValues(nodeId, node)
    case None => Raise(OtherError)
    case Some(values) =>
      match Field(node, "roles")
      case None => Raise(OtherError)
      case Some(roles) => Then(RolePart(values, roles, isBlock), GroupsFrom(node, StatsGroups, values, 0, isBlock, flatten))
  }

  /** The families of the nodes from position `i` on, stopping at the first that raises. */
  function NodesFrom(nodes: Entries<Json>, i: nat, isBlock: string -> bool,
                     flatten: (string, Json) -> seq<Triple>): Stream
    requires i <= |nodes|
    decreases |nodes| - i
  {
    if i == |nodes| then Empty
    else Then(NodeFamilies(nodes[i].0, nodes[i].1, isBlock, flatten), NodesFrom(nodes, i + 1, isBlock, flatten))
  }

  /**
   * `_get_metric` for the `nodes.stats` call `fetch`. Iterating an empty
   * list or string yields nothing; any other `nodes` value that is not a
   * dict raises.
   */
  function NodeStats(fetch: Fetch, isBlock: string -> bool, flatten: (string, Json) -> seq<Triple>): Stream
  {
    match fetch
    case FetchFailed(f) => Raise(f)
    case Fetched(response) =>
      match Field(response, "nodes")
      case None => Raise(OtherError)
      case Some(nodes) =>
        if nodes.JObj? then NodesFrom(nodes.fields, 0, isBlock, flatten)
        else if nodes == JList([]) || nodes == JStr([]) then Empty
        else Raise(OtherError)
  }

  // ---------------------------------------------------------------------
  // Properties
  // ---------------------------------------------------------------------

  /** A family of a node: the node label names, an unblocked name, and the node's label values on every sample. */
  predicate NodeFamily(f: Family, isBlock: string -> bool, labelValues: seq<Json>)
  {
    && f.labels == LabelNames && !isBlock(f.name)
    && forall s :: s in f.samples ==> s.labelValues == labelValues
  }

  lemma {:induction false} GroupsLabelled(node: Json, groups: seq<string>, labelValues: seq<Json>, j: nat, isBlock: string -> bool,
                                          flatten: (string, Json) -> seq<Triple>)
    requires j <= |groups| && |labelValues| == |LabelNames|
    ensures forall f :: f in GroupsFrom(node, groups, labelValues, j, isBlock, flatten).items ==>
      NodeFamily(f, isBlock, labelValues)
    decreases |groups| - j
  {
    if j < |groups| && Field(node, groups[j]).Some? {
      var ts := flatten(Key + "_", Field(node, groups[j]).value);
      var head := Stream(TripleFamilies(ts, LabelNames, labelValues, isBlock), None);
      var tail := GroupsFrom(node, groups, labelValues, j + 1, isBlock, flatten);
      assert GroupsFrom(node, groups, labelValues, j, isBlock, flatten) == Then(head, tail);
      TriplesAreNodeFamilies(ts, labelValues, isBlock);
      GroupsLabelled(node, groups, labelValues, j + 1, isBlock, flatten);
      ThenAll(head, tail, f => NodeFamily(f, isBlock, labelValues));
    }
  }

  lemma TriplesAreNodeFamilies(ts: seq<Triple>, labelValues: seq<Json>, isBlock: string -> bool)
    requires |labelValues| == |LabelNames|
    ensures forall f :: f in TripleFamilies(ts, LabelNames, labelValues, isBlock) ==> NodeFamily(f, isBlock, labelValues)
  {
    TripleFamiliesShape(ts, LabelNames, labelValues, isBlock);
    forall f | f in TripleFamilies(ts, LabelNames, labelValues, isBlock)
      ensures NodeFamily(f, isBlock, labelValues)
    {
      assert forall s :: s in f.samples ==> s == f.samples[0];
    }
  }

  /**
   * Every family yielded for a node has the label names `node`, `node_id`,
   * `instance`, a name the blocklist lets through, and the label values
   * `[name, node_id, transport_address]` on each of its samples.
   */
  lemma NodeFamiliesLabelled(nodeId: string, node: Json, isBlock: string -> bool,
                             flatten: (string, Json) -> seq<Triple>)
    ensures forall f :: f in NodeFamilies(nodeId, node, isBlock, flatten).items ==>
      NodeValues(nodeId, node).Some? && NodeFamily(f, isBlock, NodeValues(nodeId, node).value)
  {
    if NodeValues(nodeId, node).Some? && Field(node, "roles").Some? {
      var values := NodeValues(nodeId, node).value;
      var roles := Field(node, "roles").value;
      RoleFamilyShape(values, roles);
      var g := RoleFamily(values, roles);
      assert forall s :: s in g.samples ==> s.labelValues == values by {
        forall s | s in g.samples ensures s.labelValues == values {
          var r :| 0 <= r < |g.samples| && g.samples[r] == s;
        }
      }
      GroupsLabelled(node, StatsGroups, values, 0, isBlock, flatten);
      ThenAll(RolePart(values, roles, isBlock), GroupsFrom(node, StatsGroups, values, 0, isBlock, flatten),
              f => NodeFamily(f, isBlock, values));
    }
  }

  /**
   * Unless it is blocked, the role family is the first family of a node and
   * the stats families of the groups follow it; a blocked role family
   * leaves only the stats families.
   */
  lemma RoleComesFirst(nodeId: string, node: Json, isBlock: string -> bool, flatten: (string, Json) -> seq<Triple>)
    requires NodeValues(nodeId, node).Some? && Field(node, "roles").Some?
    ensures var values := NodeValues(nodeId, node).value;
      var roles := Field(node, "roles").value;
      var out := NodeFamilies(nodeId, node, isBlock, flatten);
      var groups := GroupsFrom(node, StatsGroups, values, 0, isBlock, flatten);
      && (!isBlock(RoleMetric) && Container(roles) ==> out.items == [RoleFamily(values, roles)] + groups.items)
      && (isBlock(RoleMetric) ==> out == groups)
      && (!isBlock(RoleMetric) && !Container(roles) ==> out == Raise(OtherError))
  {
    var values := NodeValues(nodeId, node).value;
    var groups := GroupsFrom(node, StatsGroups, values, 0, isBlock, flatten);
    assert [] + groups.items == groups.items;
  }

  /** Every stats group from position `j` on is a key of the node. */
  predicate GroupsPresent(node: Json, groups: seq<string>, j: nat)
  {
    forall g :: j <= g < |groups| ==> Field(node, groups[g]).Some?
  }

  /** The stats groups raise, with a KeyError, exactly when one of them is missing from the node. */
  lemma {:induction false} GroupsFailOnMissing(node: Json, groups: seq<string>, labelValues: seq<Json>, j: nat, isBlock: string -> bool,
                                               flatten: (string, Json) -> seq<Triple>)
    requires j <= |groups|
    ensures var s := GroupsFrom(node, groups, labelValues, j, isBlock, flatten);
      && (s.failure.None? <==> GroupsPresent(node, groups, j))
      && (s.failure.Some? ==> s.failure == Some(OtherError))
    decreases |groups| - j
  {
    if j < |groups| {
      if Field(node, groups[j]).Some? {
        GroupsFailOnMissing(node, groups, labelValues, j + 1, isBlock, flatten);
        assert GroupsPresent(node, groups, j) <==> GroupsPresent(node, groups, j + 1) by {
          if GroupsPresent(node, groups, j + 1) {
            forall g | j <= g < |groups| ensures Field(node, groups[g]).Some? {
              if g > j {
                assert j + 1 <= g;
              }
            }
          }
        }
      } else {
        assert !GroupsPresent(node, groups, j);
      }
    }
  }

  lemma {:induction false} NodesLabelled(nodes: Entries<Json>, i: nat, isBlock: string -> bool,
                                         flatten: (string, Json) -> seq<Triple>)
    requires i <= |nodes|
    ensures forall f :: f in NodesFrom(nodes, i, isBlock, flatten).items ==>
      f.labels == LabelNames && !isBlock(f.name)
    decreases |nodes| - i
  {
    if i < |nodes| {
      NodeFamiliesLabelled(nodes[i].0, nodes[i].1, isBlock, flatten);
      NodesLabelled(nodes, i + 1, isBlock, flatten);
      ThenAll(NodeFamilies(nodes[i].0, nodes[i].1, isBlock, flatten), NodesFrom(nodes, i + 1, isBlock, flatten),
              (f: Family) => f.labels == LabelNames && !isBlock(f.name));
    }
  }

  /** No family of the node collector has a blocked name, and all carry the node label names. */
  lemma NodeStatsLabelled(fetch: Fetch, isBlock: string -> bool, flatten: (string, Json) -> seq<Triple>)
    ensures forall f :: f in NodeStats(fetch, isBlock, flatten).items ==>
      f.labels == LabelNames && !isBlock(f.name)
  {
    if fetch.Fetched? && Field(fetch.response, "nodes").Some? && Field(fetch.response, "nodes").value.JObj? {
      NodesLabelled(Field(fetch.response, "nodes").value.fields, 0, isBlock, flatten);
    }
  }

  // ---------------------------------------------------------------------
  // The collector
  // ---------------------------------------------------------------------

  class EsNodeCollector {
    /** Query parameters of the `nodes.stats` call. */
    var paramDict: map<string, Json>
    var nodeId: Json
    var metric: Json
    var indexMetric: Json

    /** The state before the pops: the parameters as configured. */
    constructor (params: map<string, Json>)
      ensures paramDict == params && nodeId == JNull && metric == JNull && indexMetric == JNull
    {
      paramDict := params;
      nodeId := JNull;
      metric := JNull;
      indexMetric := JNull;
    }

    /** The constructor's pops; false where `pop('node_id')` raises, leaving everything as it was. */
    method SelectRequest() returns (ok: bool)
      modifies this
      ensures ok <==> "node_id" in old(paramDict)
      ensures ok ==> SelectParams(old(paramDict)) == Some(Selection(nodeId, metric, indexMetric, paramDict))
      ensures !ok ==> unchanged(this)
    {
      if "node_id" !in paramDict {
        return false;
      }
      nodeId := paramDict["node_id"];
      paramDict := paramDict - {"node_id"};
      if "metric" in paramDict {
        metric := paramDict["metric"];
        paramDict := paramDict - {"metric"};
      } else {
        metric := JNull;
        assert paramDict - {"metric"} == paramDict;
      }
      if !TakesIndexMetric(metric) || "index_metric" !in paramDict {
        indexMetric := JNull;
      } else {
        indexMetric := paramDict["index_metric"];
        paramDict := paramDict - {"index_metric"};
      }
      ok := true;
    }

    /** `EsNodeCollector(es_client, config)`, None where the constructor raises. */
    static method Create(params: map<string, Json>) returns (c: Option<EsNodeCollector>)
      ensures c.None? <==> "node_id" !in params
      ensures c.Some? ==> fresh(c.value)
      ensures c.Some? ==>
        SelectParams(params) == Some(Selection(c.value.nodeId, c.value.metric, c.value.indexMetric, c.value.paramDict))
    {
      var collector := new EsNodeCollector(params);
      var ok := collector.SelectRequest();
      c := if ok then Some(collector) else None;
    }

    /**
     * `_get_metric`, given what `nodes.stats` returned for this collector's
     * selection; `isBlock` and `flatten` stand for `is_block` and
     * `auto_gen_metric`.
     */
    method GetMetric(fetch: Fetch, isBlock: string -> bool, flatten: (string, Json) -> seq<Triple>)
      returns (out: Stream)
      ensures out == NodeStats(fetch, isBlock, flatten)
      ensures forall f :: f in out.items ==> f.labels == LabelNames && !isBlock(f.name)
    {
      NodeStatsLabelled(fetch, isBlock, flatten);
      if fetch.FetchFailed? {
        return Raise(fetch.failure);
      }
      var nodes := Field(fetch.response, "nodes");
      if nodes.None? {
        return Raise(OtherError);
      }
      if nodes.value.JObj? {
        out := EmitNodes(nodes.value.fields, isBlock, flatten);
      } else if nodes.value == JList([]) || nodes.value == JStr([]) {
        out := Empty;
      } else {
        out := Raise(OtherError);
      }
    }
  }

  /** `for node_id in all_node_dict`: each node's families, until one raises. */
  method EmitNodes(nodes: Entries<Json>, isBlock: string -> bool, flatten: (string, Json) -> seq<Triple>)
    returns (out: Stream)
    ensures out == NodesFrom(nodes, 0, isBlock, flatten)
  {
    var items: seq<Family> := [];
    var i := 0;
    while i < |nodes|
      invariant 0 <= i <= |nodes|
      invariant NodesFrom(nodes, 0, isBlock, flatten) == Then(Stream(items, None), NodesFrom(nodes, i, isBlock, flatten))
    {
      var s := EmitNode(nodes[i].0, nodes[i].1, isBlock, flatten);
      ThenAssoc(Stream(items, None), s, NodesFrom(nodes, i + 1, isBlock, flatten));
      if s.failure.Some? {
        return Stream(items + s.items, s.failure);
      }
      items := items + s.items;
      i := i + 1;
    }
    assert items + [] == items;
    out := Stream(items, None);
  }

  /** The body of the outer loop for one node. */
  method EmitNode(nodeId: string, node: Json, isBlock: string -> bool, flatten: (string, Json) -> seq<Triple>)
    returns (out: Stream)
    ensures out == NodeFamilies(nodeId, node, isBlock, flatten)
  {
    var name := Field(node, "name");
    if name.None? {
      return Raise(OtherError);
    }
    var instance := Field(node, "transport_address");
    if instance.None? {
      return Raise(OtherError);
    }
    var values := [name.value, JStr(nodeId), instance.value];
    var roles := Field(node, "roles");
    if roles.None? {
      return Raise(OtherError);
    }
    var items: seq<Family> := [];
    if !isBlock(RoleMetric) {
      if !Container(roles.value) {
        return Raise(OtherError);
      }
      var g := BuildRoleFamily(values, roles.value);
      items := [g];
    }
    var groups := EmitGroups(node, StatsGroups, values, isBlock, flatten);
    out := Stream(items + groups.items, groups.failure);
  }

  lemma GroupsStep(node: Json, groups: seq<string>, values: seq<Json>, j: nat, isBlock: string -> bool, flatten: (string, Json) -> seq<Triple>,
                   items: seq<Family>, fams: seq<Family>)
    requires j < |groups| && Field(node, groups[j]).Some?
    requires fams == TripleFamilies(flatten(Key + "_", Field(node, groups[j]).value), LabelNames, values, isBlock)
    ensures Then(Stream(items, None), GroupsFrom(node, groups, values, j, isBlock, flatten))
      == Then(Stream(items + fams, None), GroupsFrom(node, groups, values, j + 1, isBlock, flatten))
  {
    ThenAssoc(Stream(items, None), Stream(fams, None), GroupsFrom(node, groups, values, j + 1, isBlock, flatten));
  }

  /** `for es_system_metric in [...]`: the stats families of every group, until a group is missing. */
  method EmitGroups(node: Json, groups: seq<string>, values: seq<Json>, isBlock: string -> bool, flatten: (string, Json) -> seq<Triple>)
    returns (out: Stream)
    ensures out == GroupsFrom(node, groups, values, 0, isBlock, flatten)
  {
    var items: seq<Family> := [];
    var j := 0;
    while j < |groups|
      invariant 0 <= j <= |groups|
      invariant GroupsFrom(node, groups, values, 0, isBlock, flatten)
        == Then(Stream(items, None), GroupsFrom(node, groups, values, j, isBlock, flatten))
    {
      var stats := Field(node, groups[j]);
      if stats.None? {
        return Stream(items, Some(OtherError));
      }
      var fams := EmitTriples(flatten(Key + "_", stats.value), LabelNames, values, isBlock);
      GroupsStep(node, groups, values, j, isBlock, flatten, items, fams);
      items := items + fams;
      j := j + 1;
    }
    assert items + [] == items;
    out := Stream(items, None);
  }

  /** `GaugeMetricFamily(metric, 'node role', ...)` and its four `add_metric` calls. */
  method BuildRoleFamily(labelValues: seq<Json>, roles: Json) returns (g: Family)
    ensures g == RoleFamily(labelValues, roles)
  {
    g := Gauge(RoleMetric, "node role", LabelNames);
    var k := 0;
    while k < |Roles|
      invariant 0 <= k <= |Roles|
      invariant g == RoleFamilyUpTo(labelValues, roles, k)
    {
      g := AddMetric(g, labelValues, RoleValue(Roles[k], roles));
      k := k + 1;
    }
  }
}
