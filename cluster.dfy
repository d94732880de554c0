/**
 * `EsClusterCollector`: the cluster-health translation under the key
 * `es_cluster`, with help texts looked up in its own (empty) doc dict.
 */
module Cluster {
  import opened Json
  import opened Metrics
  import ClusterHealth

  /** The collector key, and so the family-name prefix. */
  const Key := "es_cluster"

  /** `_doc_dict`: no entries. */
  const DocDict: map<string, string> := map[]

  /**
   * `docs.get('key', key)`: the lookup uses the literal `'key'`, not the
   * response key, so a doc dict could only ever supply one text for all keys.
   */
  function DocLookup(docs: map<string, string>, key: string): string
  {
    if "key" in docs then docs["key"] else key
  }

  /** The help text of an `es_cluster` family. */
  function Doc(key: string): string
  {
    DocLookup(DocDict, key)
  }

  /**
   * `EsClusterCollector._get_metric` for the health call `fetch`: the
   * shared translation, where every family's help text is its response key.
   */
  method GetMetric(fetch: Fetch) returns (out: Stream)
    ensures out == ClusterHealth.Translation(Key, Doc, fetch)
    ensures forall n :: 0 <= n < |out.items| ==>
      && out.items[n].name == Key + "_" + out.items[n].doc
      && out.items[n].labels == ["cluster_name"]
      && |out.items[n].samples| == 1
  {
    out := ClusterHealth.Translate(Key, Doc, fetch);
    if fetch.Fetched? && ClusterHealth.Remaining(fetch.response).Some? {
      var fields := ClusterHealth.Remaining(fetch.response).value;
      var clusterName := Field(fetch.response, "cluster_name").value;
      ClusterHealth.TranslationOf(Key, Doc, fetch.response, fields);
      ClusterHealth.FamiliesAt(Key, Doc, clusterName, fields);
      forall n | 0 <= n < |out.items|
        ensures out.items[n].name == Key + "_" + out.items[n].doc
        ensures out.items[n].labels == ["cluster_name"] && |out.items[n].samples| == 1
      {
        ClusterHealth.EntryFamilyShape(Key, Doc, clusterName, fields[n]);
      }
    }
  }
}
