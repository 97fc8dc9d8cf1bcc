/** The protein table every server reads: `protein_db.json`, loaded once
    and never written. Keys are protein ids (`P53_HUMAN`, ...) in file
    order; each record maps field names (`name`, `organism`, `function`,
    `log`, ...) to a string or a list of strings. */
module ProteinDb {
  import opened Wrappers
  import opened Text
  import opened OrderedDict

  /** A record field: a JSON string or a JSON list of strings. */
  datatype Value = Str(s: string) | Lines(lines: seq<string>)

  type Record = map<string, Value>

  /** The table, in the order `dict.items()` walks it. */
  type Table = Dict<Record>

  predicate Has(db: Table, id: string) {
    id in Keys(db)
  }

  /** `db[id]` for an id that is present. */
  function At(db: Table, id: string): Record
    requires Has(db, id)
  {
    Get(db, id).value
  }

  /** Python's `repr` of a string without quotes or backslashes in it. */
  function Quote(s: string): string {
    "'" + s + "'"
  }

  function QuoteAll(items: seq<string>): (r: seq<string>)
    ensures |r| == |items|
    ensures forall i :: 0 <= i < |items| ==> r[i] == Quote(items[i])
  {
    if items == [] then [] else [Quote(items[0])] + QuoteAll(items[1..])
  }

  /** How an f-string renders a field: a string as itself, a list as
      `['a', 'b']`. */
  function Show(v: Value): string {
    match v
    case Str(s) => s
    case Lines(items) => "[" + Join(", ", QuoteAll(items)) + "]"
  }

  /** How an f-string renders `dict.get(...)` of an argument: `None` when
      absent. */
  function ShowOpt(o: Option<string>): string {
    match o
    case None => "None"
    case Some(s) => s
  }

  // ---------------------------------------------------------------------
  // The name search shared by both `find_protein` tools
  // ---------------------------------------------------------------------

  /** The record's name is a string its lowered form contains `query` in. */
  predicate NameMatches(info: Record, query: string) {
    "name" in info && info["name"].Str? && Contains(Lower(info["name"].s), query)
  }

  /** The reference definition: the entries whose lowered name contains
      the query, in table order. */
  function Matching(entries: seq<(string, Record)>, query: string): (r: seq<(string, Record)>)
    ensures forall k :: 0 <= k < |r| ==> r[k] in entries && NameMatches(r[k].1, query)
    ensures |r| <= |entries|
    decreases |entries|
  {
    if entries == [] then []
    else
      var prev := Matching(entries[..|entries| - 1], query);
      var e := entries[|entries| - 1];
      assert forall x :: x in entries[..|entries| - 1] ==> x in entries;
      if NameMatches(e.1, query) then prev + [e] else prev
  }

  /** An entry whose lowered name contains the query is listed. */
  lemma {:induction false} MatchingComplete(entries: seq<(string, Record)>, query: string, i: int)
    requires 0 <= i < |entries| && NameMatches(entries[i].1, query)
    ensures entries[i] in Matching(entries, query)
    decreases |entries|
  {
    if i < |entries| - 1 {
      MatchingComplete(entries[..|entries| - 1], query, i);
    }
  }

  /** The positions of the entries whose lowered name contains the query,
      in increasing order. */
  function MatchedIndices(entries: seq<(string, Record)>, query: string): (idx: seq<nat>)
    ensures forall k :: 0 <= k < |idx| ==> idx[k] < |entries|
    decreases |entries|
  {
    if entries == [] then []
    else
      var n := |entries| - 1;
      var prev := MatchedIndices(entries[..n], query);
      if NameMatches(entries[n].1, query) then prev + [n] else prev
  }

  /** The positions are listed in increasing order, so each entry is
      listed at most once ... */
  lemma {:induction false} MatchedIndicesIncreasing(entries: seq<(string, Record)>, query: string)
    ensures forall k, l :: 0 <= k < l < |MatchedIndices(entries, query)| ==>
              MatchedIndices(entries, query)[k] < MatchedIndices(entries, query)[l]
    decreases |entries|
  {
    if entries != [] {
      var n := |entries| - 1;
      MatchedIndicesIncreasing(entries[..n], query);
      var prev := MatchedIndices(entries[..n], query);
      assert forall k :: 0 <= k < |prev| ==> prev[k] < n;
    }
  }

  /** ... every matching entry's position is listed ... */
  lemma {:induction false} MatchedIndicesComplete(entries: seq<(string, Record)>, query: string)
    ensures forall i :: 0 <= i < |entries| && NameMatches(entries[i].1, query) ==> i in MatchedIndices(entries, query)
    decreases |entries|
  {
    if entries != [] {
      var n := |entries| - 1;
      var init := entries[..n];
      MatchedIndicesComplete(init, query);
      forall i | 0 <= i < |entries| && NameMatches(entries[i].1, query) ensures i in MatchedIndices(entries, query) {
        if i < n {
          assert init[i] == entries[i];
          assert i in MatchedIndices(init, query);
        } else {
          assert MatchedIndices(entries, query) == MatchedIndices(init, query) + [n];
        }
      }
    }
  }

  /** ... and `Matching` lists the entries at exactly those positions, in
      that order. */
  lemma {:induction false} MatchingAtIndices(entries: seq<(string, Record)>, query: string)
    ensures |Matching(entries, query)| == |MatchedIndices(entries, query)|
    ensures forall k :: 0 <= k < |Matching(entries, query)| ==>
              Matching(entries, query)[k] == entries[MatchedIndices(entries, query)[k]]
    decreases |entries|
  {
    if entries != [] {
      var n := |entries| - 1;
      var init := entries[..n];
      MatchingAtIndices(init, query);
      var prev := MatchedIndices(init, query);
      var found := Matching(init, query);
      if NameMatches(entries[n].1, query) {
        var idx := prev + [n];
        var r := found + [entries[n]];
        assert Matching(entries, query) == r;
        assert MatchedIndices(entries, query) == idx;
        forall k | 0 <= k < |r| ensures r[k] == entries[idx[k]] {
          if k < |found| {
            assert idx[k] == prev[k] && entries[prev[k]] == init[prev[k]];
          }
        }
      } else {
        assert Matching(entries, query) == found;
        assert MatchedIndices(entries, query) == prev;
        forall k | 0 <= k < |found| ensures found[k] == entries[prev[k]] {
          assert entries[prev[k]] == init[prev[k]];
        }
      }
    }
  }
}
