/** The read-only resources and tool that the three FastMCP servers
    (`mcp_basic_server.py`, `mcp_advanced_server.py` and
    `postman_mcp_basic_server.py`) define alike, apart from
    `dataset_overview`'s encoding: the dataset overview, one protein
    record, and its function. A tool that raises is
    modelled as `Err` carrying `str` of the exception. */
module SdkResources {
  import opened Wrappers
  import opened StringOrder
  import opened OrderedDict
  import opened ProteinDb

  const JsonMime := "application/json"

  /** The object `dataset_overview` serialises. */
  datatype Overview = Overview(id: string, count: nat, ids: seq<string>, description: string)

  /** What `get_protein` serialises: the record with its id, or an error
      object. */
  datatype ProteinPayload = ProteinFields(fields: Record) | UnknownProtein(error: string)

  /** The table's keys are pairwise distinct. */
  lemma KeysDistinct(db: Table)
    ensures Distinct(Keys(db))
  {
  }

  /** `dataset_overview`: the count is the number of proteins and the ids
      are the table's keys, each once, in ascending order. */
  function DatasetOverview(db: Table): (r: Overview)
    ensures r.id == "proteins" && r.count == |db|
    ensures Sorted(r.ids) && multiset(r.ids) == multiset(Keys(db))
    ensures Distinct(r.ids)
    ensures forall k :: k in r.ids <==> Has(db, k)
  {
    KeysDistinct(db);
    SortDistinct(Keys(db));
    var ids := Sort(Keys(db));
    assert forall k :: k in ids <==> k in multiset(ids);
    assert forall k :: k in Keys(db) <==> k in multiset(Keys(db));
    Overview("proteins", |db|, ids, "Toy protein dataset used for the MCP workshop")
  }

  /** `not record`: the id is absent or its record is empty. */
  predicate Unknown(db: Table, pid: string) {
    !Has(db, pid) || At(db, pid) == map[]
  }

  /** `get_protein`: for a known, non-empty record, its fields plus
      `"id"` (a stored `"id"` field wins over the requested id, as in
      `{"id": protein_id, **record}`); otherwise the error object naming
      the id. Always tagged `application/json`. */
  function GetProtein(db: Table, pid: string): (r: (ProteinPayload, string))
    ensures r.1 == JsonMime
    ensures r.0.UnknownProtein? <==> Unknown(db, pid)
    ensures r.0.UnknownProtein? ==> r.0.error == "Unknown protein_id: " + pid
    ensures r.0.ProteinFields? ==>
              && r.0.fields.Keys == At(db, pid).Keys + {"id"}
              && (forall k :: k in At(db, pid) ==> r.0.fields[k] == At(db, pid)[k])
              && ("id" !in At(db, pid) ==> r.0.fields["id"] == Str(pid))
  {
    if Unknown(db, pid) then (UnknownProtein("Unknown protein_id: " + pid), JsonMime)
    else (ProteinFields(map["id" := Str(pid)] + At(db, pid)), JsonMime)
  }

  /** `get_protein_function`: the record's `function`; `ValueError` for
      an unknown or empty record, `KeyError` for a record without one. */
  function GetProteinFunction(db: Table, pid: string): (r: Result<Value>)
    ensures Unknown(db, pid) ==> r == Err("Unknown protein_id: " + pid)
    ensures !Unknown(db, pid) && "function" !in At(db, pid) ==> r == Err("'function'")
    ensures r.Ok? <==> !Unknown(db, pid) && "function" in At(db, pid)
    ensures r.Ok? ==> r.value == At(db, pid)["function"]
  {
    if Unknown(db, pid) then Err("Unknown protein_id: " + pid)
    else
      var rec := At(db, pid);
      if "function" in rec then Ok(rec["function"]) else Err("'function'")
  }

  /** Every id the overview lists resolves through `get_protein` unless its
      record is empty, and its record comes back field for field. */
  lemma OverviewIdsResolve(db: Table, k: string)
    requires k in DatasetOverview(db).ids && At(db, k) != map[]
    ensures GetProtein(db, k).0.ProteinFields?
    ensures forall f :: f in At(db, k) ==> GetProtein(db, k).0.fields[f] == At(db, k)[f]
  {
  }

  /** `get_protein` and `get_protein_function` agree: a protein whose
      function is served has a record that carries that function. */
  lemma FunctionIsRecordField(db: Table, pid: string)
    requires GetProteinFunction(db, pid).Ok?
    ensures GetProtein(db, pid).0.ProteinFields?
    ensures "function" in GetProtein(db, pid).0.fields
    ensures GetProtein(db, pid).0.fields["function"] == GetProteinFunction(db, pid).value
  {
  }
}
