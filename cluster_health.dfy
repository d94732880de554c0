/**
 * The cluster-health translation shared by `ClusterHealthCollector` and
 * `EsClusterCollector`: the health response loses `cluster_name` and
 * `timed_out`, `status` becomes a number in place, and every remaining key
 * becomes one family labelled with the cluster name.
 */
module ClusterHealth {
  import opened Wrappers
  import opened Json
  import opened Metrics
  import OrderedMap

  /** The collector key, and so the family-name prefix, of `ClusterHealthCollector`. */
  const Key := "cluster_health"

  /**
   * `status_dict.get(status, 2)`: green 0, yellow 1, red 2, anything else
   * 2; a list or dict cannot be hashed and raises (None).
   */
  function StatusCode(status: Json): (r: Option<int>)
    ensures r.None? <==> status.JList? || status.JObj?
    ensures r == Some(0) <==> status == JStr("green")
    ensures r == Some(1) <==> status == JStr("yellow")
    ensures r.Some? && status != JStr("green") && status != JStr("yellow") ==> r == Some(2)
  {
    match status
    case JList(_) => None
    case JObj(_) => None
    case JStr(s) =>
      if s == "green" then Some(0)
      else if s == "yellow" then Some(1)
      else Some(2)
    case _ => Some(2)
  }

  /** The family for one remaining response entry. */
  function EntryFamily(prefix: string, doc: string -> string, clusterName: Json, entry: (string, Json)): Family
  {
    AddMetric(Gauge(prefix + "_" + entry.0, doc(entry.0), ["cluster_name"]), [clusterName], entry.1)
  }

  /** One family per entry, in order. */
  function Families(prefix: string, doc: string -> string, clusterName: Json, fields: OrderedMap.Entries<Json>): seq<Family>
  {
    if fields == [] then []
    else Families(prefix, doc, clusterName, fields[..|fields| - 1]) + [EntryFamily(prefix, doc, clusterName, fields[|fields| - 1])]
  }

  lemma {:induction false} FamiliesAt(prefix: string, doc: string -> string, clusterName: Json, fields: OrderedMap.Entries<Json>)
    ensures |Families(prefix, doc, clusterName, fields)| == |fields|
    ensures forall n :: 0 <= n < |fields| ==> Families(prefix, doc, clusterName, fields)[n] == EntryFamily(prefix, doc, clusterName, fields[n])
    decreases |fields|
  {
    if fields != [] {
      var init := fields[..|fields| - 1];
      FamiliesAt(prefix, doc, clusterName, init);
      forall n | 0 <= n < |init| ensures fields[n] == init[n] { }
    }
  }

  /** The response entries once `cluster_name` and `timed_out` are deleted and `status` is overwritten. */
  function Remaining(response: Json): Option<OrderedMap.Entries<Json>>
  {
    if Field(response, "cluster_name").None? then None
    else
      var fields := OrderedMap.Remove(response.fields, "cluster_name");
      if "timed_out" !in OrderedMap.Keys(fields) then None
      else
        var fields' := OrderedMap.Remove(fields, "timed_out");
        match OrderedMap.Get(fields', "status")
        case None => None
        case Some(status) =>
          match StatusCode(status)
          case None => None
          case Some(code) => Some(OrderedMap.Put(fields', "status", JInt(code)))
  }

  /**
   * What `_get_metric` produces for the health call `fetch`: every lookup,
   * `del` and hash happens before the first yield, so a failure yields nothing.
   */
  function Translation(prefix: string, doc: string -> string, fetch: Fetch): Stream
  {
    match fetch
    case FetchFailed(f) => Raise(f)
    case Fetched(response) =>
      match Remaining(response)
      case None => Raise(OtherError)
      case Some(fields) =>
        var clusterName := Field(response, "cluster_name").value;
        Stream(Families(prefix, doc, clusterName, fields), None)
  }

  lemma TranslationOf(prefix: string, doc: string -> string, response: Json, fields: OrderedMap.Entries<Json>)
    requires Remaining(response) == Some(fields)
    ensures Field(response, "cluster_name").Some?
    ensures Translation(prefix, doc, Fetched(response)) == Stream(Families(prefix, doc, Field(response, "cluster_name").value, fields), None)
  {
  }

  /** The keys that become families, in the response's order. */
  function EmittedKeys(response: Json): seq<string>
    requires response.JObj?
  {
    OrderedMap.Without(OrderedMap.Without(OrderedMap.Keys(response.fields), "cluster_name"), "timed_out")
  }

  /**
   * The translation raises exactly when the call failed (with that
   * failure), or `cluster_name`, `timed_out` or `status` is missing, or
   * `status` cannot be hashed; a failed translation yields nothing.
   */
  lemma TranslationFails(prefix: string, doc: string -> string, fetch: Fetch)
    ensures var out := Translation(prefix, doc, fetch);
      && (out.failure.Some? ==> out.items == [])
      && (fetch.FetchFailed? ==> out.failure == Some(fetch.failure))
      && (fetch.Fetched? ==>
           (out.failure.Some? <==>
              var response := fetch.response;
              || Field(response, "cluster_name").None?
              || Field(response, "timed_out").None?
              || Field(response, "status").None?
              || StatusCode(Field(response, "status").value).None?))
  {
    if fetch.Fetched? && Field(fetch.response, "cluster_name").Some? {
      var response := fetch.response;
      var m := response.fields;
      var fields := OrderedMap.Remove(m, "cluster_name");
      assert "timed_out" in OrderedMap.Keys(fields) <==> "timed_out" in OrderedMap.Keys(m);
      if "timed_out" in OrderedMap.Keys(fields) {
        var fields' := OrderedMap.Remove(fields, "timed_out");
        assert "status" in OrderedMap.Keys(fields') <==> "status" in OrderedMap.Keys(m);
        if "status" in OrderedMap.Keys(fields') {
          assert OrderedMap.Get(fields', "status") == OrderedMap.Get(m, "status") by {
            OrderedMap.RemoveToMap(m, "cluster_name");
            OrderedMap.RemoveToMap(fields, "timed_out");
            OrderedMap.GetToMap(fields', "status");
            OrderedMap.GetToMap(m, "status");
          }
        }
      }
    }
  }

  /** The number `status` becomes (None where the lookup or the hash raises). */
  function StatusValue(response: Json): Option<Json>
  {
    match Field(response, "status")
    case None => None
    case Some(status) =>
      match StatusCode(status)
      case None => None
      case Some(code) => Some(JInt(code))
  }

  /**
   * In a dict, the entries that remain are the response's keys other than
   * `cluster_name` and `timed_out`, in order, each with its response value
   * except `status`, which holds its code in its original place.
   */
  lemma RemainingShape(response: Json, last: OrderedMap.Entries<Json>)
    requires response.JObj? && OrderedMap.DistinctKeys(response.fields)
    requires Remaining(response) == Some(last)
    ensures OrderedMap.Keys(last) == EmittedKeys(response)
    ensures |last| == |response.fields| - 2
    ensures forall n :: 0 <= n < |last| ==>
      Some(last[n].1) == if last[n].0 == "status" then StatusValue(response) else Field(response, last[n].0)
  {
    var m := response.fields;
    var fields' := OrderedMap.Remove(OrderedMap.Remove(m, "cluster_name"), "timed_out");
    var status := OrderedMap.Get(fields', "status").value;
    var code := StatusCode(status).value;
    assert last == OrderedMap.Put(fields', "status", JInt(code));
    TrimmedShape(m, status, JInt(code), last);
    assert StatusValue(response) == Some(JInt(code));
  }

  /**
   * The entries left once `cluster_name` and `timed_out` are deleted from a
   * dict and `status` is overwritten with `v`: the dict's other keys in order,
   * each with its value, and `v` in the place of `status`.
   */
  lemma TrimmedShape(m: OrderedMap.Entries<Json>, status: Json, v: Json, last: OrderedMap.Entries<Json>)
    requires OrderedMap.DistinctKeys(m) && "cluster_name" in OrderedMap.Keys(m)
    requires "timed_out" in OrderedMap.Keys(OrderedMap.Remove(m, "cluster_name"))
    requires var f := OrderedMap.Remove(OrderedMap.Remove(m, "cluster_name"), "timed_out");
      OrderedMap.Get(f, "status") == Some(status) && last == OrderedMap.Put(f, "status", v)
    ensures OrderedMap.Keys(last) == OrderedMap.Without(OrderedMap.Without(OrderedMap.Keys(m), "cluster_name"), "timed_out")
    ensures |last| == |m| - 2
    ensures OrderedMap.Get(m, "status") == Some(status)
    ensures forall n :: 0 <= n < |last| ==>
      if last[n].0 == "status" then last[n].1 == v else Some(last[n].1) == OrderedMap.Get(m, last[n].0)
  {
    var f := OrderedMap.Remove(OrderedMap.Remove(m, "cluster_name"), "timed_out");
    TrimmedEntries(m);
    PutValues(m, f, "status", v);
    var at := OrderedMap.IndexOf(f, "status").value;
    OrderedMap.GetEntry(m, f[at]);
  }

  /** Deleting `cluster_name` and `timed_out` from a dict holding both. */
  lemma TrimmedEntries(m: OrderedMap.Entries<Json>)
    requires OrderedMap.DistinctKeys(m) && "cluster_name" in OrderedMap.Keys(m)
    requires "timed_out" in OrderedMap.Keys(OrderedMap.Remove(m, "cluster_name"))
    ensures var f := OrderedMap.Remove(OrderedMap.Remove(m, "cluster_name"), "timed_out");
      && OrderedMap.DistinctKeys(f) && |f| == |m| - 2
      && (forall e :: e in f ==> e in m)
  {
    var fields := OrderedMap.Remove(m, "cluster_name");
    OrderedMap.RemoveDistinct(m, "cluster_name");
    OrderedMap.RemoveDistinct(fields, "timed_out");
    OrderedMap.RemoveEntries(m, "cluster_name");
    OrderedMap.RemoveEntries(fields, "timed_out");
  }

  /**
   * Overwriting a present key `k` of a dict `f` whose entries all come from
   * the dict `m`: every other entry still holds what `m` stores under its key.
   */
  lemma PutValues<V>(m: OrderedMap.Entries<V>, f: OrderedMap.Entries<V>, k: string, v: V)
    requires OrderedMap.DistinctKeys(m) && OrderedMap.DistinctKeys(f) && k in OrderedMap.Keys(f)
    requires forall e :: e in f ==> e in m
    ensures |OrderedMap.Put(f, k, v)| == |f|
    ensures forall n :: 0 <= n < |f| ==>
      var e := OrderedMap.Put(f, k, v)[n];
      if e.0 == k then e.1 == v else Some(e.1) == OrderedMap.Get(m, e.0)
  {
    var last := OrderedMap.Put(f, k, v);
    var at := OrderedMap.IndexOf(f, k).value;
    OrderedMap.PutInPlace(f, k, v);
    forall n | 0 <= n < |f|
      ensures if last[n].0 == k then last[n].1 == v else Some(last[n].1) == OrderedMap.Get(m, last[n].0)
    {
      if n != at {
        assert last[n] == f[n] && f[n] in m && f[n].0 != k;
        OrderedMap.GetEntry(m, f[n]);
      }
    }
  }

  /**
   * A translated response (a dict, so its keys are distinct) yields one
   * family per key other than `cluster_name` and `timed_out`, in the
   * response's key order, so `status` keeps its place: two fewer families
   * than response keys. Each is named `<prefix>_<key>`, has the label name
   * `cluster_name` and one sample carrying the cluster name and the value,
   * the status code in place of the status string.
   */
  lemma TranslationFamilies(prefix: string, doc: string -> string, response: Json)
    requires response.JObj? && OrderedMap.DistinctKeys(response.fields)
    requires Translation(prefix, doc, Fetched(response)).failure.None?
    ensures var out := Translation(prefix, doc, Fetched(response));
      var ks := EmittedKeys(response);
      && "cluster_name" !in ks && "timed_out" !in ks
      && |out.items| == |ks| == |response.fields| - 2
      && forall n :: 0 <= n < |ks| ==>
           && out.items[n].name == prefix + "_" + ks[n]
           && out.items[n].doc == doc(ks[n])
           && out.items[n].labels == ["cluster_name"]
           && |out.items[n].samples| == 1
           && |out.items[n].samples[0].labelValues| == 1
           && Some(out.items[n].samples[0].labelValues[0]) == Field(response, "cluster_name")
           && Some(out.items[n].samples[0].value) == if ks[n] == "status" then StatusValue(response) else Field(response, ks[n])
  {
    var last := Remaining(response).value;
    var clusterName := Field(response, "cluster_name").value;
    var out := Translation(prefix, doc, Fetched(response));
    var ks := EmittedKeys(response);
    RemainingShape(response, last);
    TranslationOf(prefix, doc, response, last);
    FamiliesAt(prefix, doc, clusterName, last);
    forall n | 0 <= n < |ks|
      ensures && out.items[n].name == prefix + "_" + ks[n]
              && out.items[n].doc == doc(ks[n])
              && out.items[n].labels == ["cluster_name"]
              && |out.items[n].samples| == 1
              && |out.items[n].samples[0].labelValues| == 1
              && Some(out.items[n].samples[0].labelValues[0]) == Field(response, "cluster_name")
              && Some(out.items[n].samples[0].value) == if ks[n] == "status" then StatusValue(response) else Field(response, ks[n])
    {
      assert ks[n] == last[n].0 by {
        assert OrderedMap.Keys(last)[n] == last[n].0;
      }
      assert out.items[n] == EntryFamily(prefix, doc, clusterName, last[n]);
      EntryFamilyShape(prefix, doc, clusterName, last[n]);
    }
  }

  /** The family of one entry: its name, help text, the one label name and the one sample. */
  lemma EntryFamilyShape(prefix: string, doc: string -> string, clusterName: Json, entry: (string, Json))
    ensures var f := EntryFamily(prefix, doc, clusterName, entry);
      && f.name == prefix + "_" + entry.0
      && f.doc == doc(entry.0)
      && f.labels == ["cluster_name"]
      && f.samples == [Sample([clusterName], entry.1)]
  {
    assert [clusterName][..1] == [clusterName];
  }

  /**
   * The loop of `_get_metric` after the response has been trimmed: one
   * family per remaining entry, in order. Shared by both cluster collectors,
   * which pass their own prefix and help-text lookup.
   */
  method Translate(prefix: string, doc: string -> string, fetch: Fetch) returns (out: Stream)
    ensures out == Translation(prefix, doc, fetch)
  {
    if fetch.FetchFailed? {
      return Raise(fetch.failure);
    }
    var response := fetch.response;
    var fields := Trim(response);
    if fields.None? {
      return Raise(OtherError);
    }
    TranslationOf(prefix, doc, response, fields.value);
    var clusterName := Field(response, "cluster_name").value;
    var items := EmitFamilies(prefix, doc, clusterName, fields.value);
    out := Stream(items, None);
  }

  /** The `for key, value in response.items()` loop: one family per entry, in order. */
  method EmitFamilies(prefix: string, doc: string -> string, clusterName: Json, fields: OrderedMap.Entries<Json>)
    returns (items: seq<Family>)
    ensures items == Families(prefix, doc, clusterName, fields)
  {
    items := [];
    var i := 0;
    while i < |fields|
      invariant 0 <= i <= |fields|
      invariant items == Families(prefix, doc, clusterName, fields[..i])
    {
      var entry := fields[i];
      var g := Gauge(prefix + "_" + entry.0, doc(entry.0), ["cluster_name"]);
      g := AddMetric(g, [clusterName], entry.1);
      items := items + [g];
      assert fields[..i + 1][..i] == fields[..i];
      i := i + 1;
    }
    assert fields[..i] == fields;
  }

  /** The `del`s and the status overwrite at the top of `_get_metric`; None where one raises. */
  method Trim(response: Json) returns (fields: Option<OrderedMap.Entries<Json>>)
    ensures fields == Remaining(response)
  {
    if Field(response, "cluster_name").None? {
      return None;
    }
    var entries := OrderedMap.Remove(response.fields, "cluster_name");
    if "timed_out" !in OrderedMap.Keys(entries) {
      return None;
    }
    entries := OrderedMap.Remove(entries, "timed_out");
    var status := OrderedMap.Get(entries, "status");
    if status.None? {
      return None;
    }
    var code := StatusCode(status.value);
    if code.None? {
      return None;
    }
    entries := OrderedMap.Put(entries, "status", JInt(code.value));
    return Some(entries);
  }

  /** The help text of a `cluster_health` family: the key itself. */
  function HealthDoc(key: string): string
  {
    key
  }

  /** `ClusterHealthCollector._get_metric` for the health call `fetch`. */
  method GetMetric(fetch: Fetch) returns (out: Stream)
    ensures out == Translation(Key, HealthDoc, fetch)
    ensures forall n :: 0 <= n < |out.items| ==> out.items[n].labels == ["cluster_name"] && |out.items[n].samples| == 1
  {
    out := Translate(Key, HealthDoc, fetch);
    if fetch.Fetched? && Remaining(fetch.response).Some? {
      var fields := Remaining(fetch.response).value;
      var clusterName := Field(fetch.response, "cluster_name").value;
      TranslationOf(Key, HealthDoc, fetch.response, fields);
      FamiliesAt(Key, HealthDoc, clusterName, fields);
      forall n | 0 <= n < |out.items|
        ensures out.items[n].labels == ["cluster_name"] && |out.items[n].samples| == 1
      {
        EntryFamilyShape(Key, HealthDoc, clusterName, fields[n]);
      }
    }
  }
}
