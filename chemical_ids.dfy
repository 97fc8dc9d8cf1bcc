/** The identifier handling at the front of the chemical annotator
    (`utils/chemical_annotator/tools.py`): classifying an identifier
    string, normalising the `compounds` argument, resolving each
    identifier to SMILES, and the first-occurrence de-duplication of KEGG
    ids and pathways. The SMILES resolver and the KEGG pathway lookup are
    network services and become oracle arguments. */
module ChemicalIds {
  import opened Wrappers
  import opened Text

  // ---------------------------------------------------------------------
  // _looks_like_smiles
  // ---------------------------------------------------------------------

  /** The characters of the class `[0-9=#@\[\]()/\\]`. */
  predicate SmilesMark(c: char) {
    IsDigit(c) || c in {'=', '#', '@', '[', ']', '(', ')', '/', '\\'}
  }

  /** `re.search` of the class: some character is a SMILES mark. */
  function HasSmilesMark(v: string): (b: bool)
    ensures b <==> exists i :: 0 <= i < |v| && SmilesMark(v[i])
  {
    if v == [] then false
    else if SmilesMark(v[0]) then true
    else
      var b := HasSmilesMark(v[1..]);
      assert forall i :: 1 <= i < |v| ==> v[i] == v[1..][i - 1];
      assert b ==> exists i :: 1 <= i < |v| && SmilesMark(v[i]) by {
        if b {
          var i :| 0 <= i < |v[1..]| && SmilesMark(v[1..][i]);
          assert SmilesMark(v[i + 1]);
        }
      }
      b
  }

  /** `_looks_like_smiles`: false for the empty string or one with a
      space; otherwise true exactly when some character is a digit or one
      of `= # @ [ ] ( ) / \`. */
  function LooksLikeSmiles(v: string): (b: bool)
    ensures v == "" || ' ' in v ==> !b
    ensures v != "" && ' ' !in v ==> (b <==> exists i :: 0 <= i < |v| && SmilesMark(v[i]))
  {
    if v == "" || ' ' in v then false else HasSmilesMark(v)
  }

  // ---------------------------------------------------------------------
  // _infer_identifier_kind
  // ---------------------------------------------------------------------

  datatype Kind = Chembl | InchiKey | Inchi | Smiles | Name

  predicate IsUpper(c: char) { 'A' <= c <= 'Z' }

  predicate AllDigits(s: string) {
    forall i :: 0 <= i < |s| ==> IsDigit(s[i])
  }

  predicate AllUpper(s: string) {
    forall i :: 0 <= i < |s| ==> IsUpper(s[i])
  }

  /** `re.fullmatch(r"CHEMBL\d+", s, flags=re.IGNORECASE)`. */
  predicate IsChemblId(s: string) {
    |s| > 6 && Lower(s[..6]) == "chembl" && AllDigits(s[6..])
  }

  /** `re.fullmatch(r"[A-Z]{14}-[A-Z]{10}-[A-Z]", s)`. */
  predicate IsInchiKey(s: string) {
    |s| == 27 && AllUpper(s[..14]) && s[14] == '-' && AllUpper(s[15..25]) && s[25] == '-' && IsUpper(s[26])
  }

  predicate StartsWith(s: string, prefix: string) {
    |prefix| <= |s| && s[..|prefix|] == prefix
  }

  /** `_infer_identifier_kind`: the first of chembl, inchikey, inchi,
      smiles that fits, else name. The first three look at the stripped
      value, the smiles test at the value as given. */
  function InferIdentifierKind(v: string): (k: Kind)
    ensures k == Chembl <==> IsChemblId(Strip(v))
    ensures k == InchiKey <==> !IsChemblId(Strip(v)) && IsInchiKey(Strip(v))
    ensures k == Inchi <==> !IsChemblId(Strip(v)) && !IsInchiKey(Strip(v)) && StartsWith(Strip(v), "InChI=")
    ensures k == Smiles ==> LooksLikeSmiles(v)
    ensures k == Name ==> !LooksLikeSmiles(v)
  {
    var s := Strip(v);
    if IsChemblId(s) then Chembl
    else if IsInchiKey(s) then InchiKey
    else if StartsWith(s, "InChI=") then Inchi
    else if LooksLikeSmiles(v) then Smiles
    else Name
  }

  /** "CHEMBL25" is a ChEMBL id although, having digits, it also looks
      like SMILES: the order of the tests decides. */
  lemma {:induction false} Chembl25IsChembl()
    ensures LooksLikeSmiles("CHEMBL25")
    ensures InferIdentifierKind("CHEMBL25") == Chembl
  {
    assert "CHEMBL25"[6] == '2';
    Chembl25Shape();
  }

  /** "CHEMBL25" is already stripped and has the ChEMBL shape. */
  lemma Chembl25Shape()
    ensures Strip("CHEMBL25") == "CHEMBL25" && IsChemblId("CHEMBL25")
  {
    var s := "CHEMBL25";
    assert !IsSpace(s[0]) && !IsSpace(s[|s| - 1]);
    assert s[..6] == "CHEMBL";
    assert Lower("CHEMBL") == "chembl";
    assert s[6..] == "25" && AllDigits("25");
  }

  /** The ChEMBL and InChIKey shapes never overlap, and neither overlaps
      an InChI string, so for these three kinds the order of the tests
      does not matter. */
  lemma {:induction false} KindShapesDisjoint(s: string)
    ensures !(IsChemblId(s) && IsInchiKey(s))
    ensures StartsWith(s, "InChI=") ==> !IsChemblId(s) && !IsInchiKey(s)
  {
    if IsInchiKey(s) {
      assert s[6..][8] == s[14] == '-';
    }
    if StartsWith(s, "InChI=") {
      assert s[..6] == "InChI=";
      assert Lower("InChI=")[0] == 'i';
      if |s| == 27 {
        assert s[..14][1] == 'n';
      }
    }
  }

  // ---------------------------------------------------------------------
  // annotate_chemicals: input normalisation
  // ---------------------------------------------------------------------

  /** The `compounds` argument: `None`, one string, a list (whose items
      are `None` or shown as `str(raw)`), or anything else. */
  datatype Compounds = NoCompounds | OneCompound(s: string) | CompoundList(items: seq<Option<string>>) | OtherValue

  const NoCompoundsError := "No compounds provided. Please pass a list like ['aspirin', 'CHEMBL25']."
  const NotAListError := "compounds must be a list of identifiers or a single string."

  /** Lines 113-122: a string becomes a one-item list; `None` and the
      empty list raise "No compounds provided"; anything else that is not
      a list raises. */
  function NormaliseCompounds(c: Compounds): (r: Result<seq<Option<string>>>)
    ensures r.Ok? ==> r.value != []
    ensures c.OneCompound? ==> r == Ok([Some(c.s)])
    ensures c.CompoundList? && c.items != [] ==> r == Ok(c.items)
    ensures r == Err(NoCompoundsError) <==> c.NoCompounds? || c == CompoundList([])
    ensures r == Err(NotAListError) <==> c.OtherValue?
  {
    match c
    case NoCompounds => Err(NoCompoundsError)
    case OneCompound(s) => Ok([Some(s)])
    case CompoundList(items) => if items == [] then Err(NoCompoundsError) else Ok(items)
    case OtherValue => Err(NotAListError)
  }

  // ---------------------------------------------------------------------
  // annotate_chemicals: per-identifier resolution
  // ---------------------------------------------------------------------

  /** One row of `resolved_rows`. */
  datatype Row = Row(identifier: string, kind: Kind, smiles: Option<string>)

  /** The `identifier_type` hint given to the resolver. */
  function TypeHint(k: Kind): Option<Kind> {
    if k in {Chembl, InchiKey, Inchi} then Some(k) else None
  }

  /** `not smiles`. */
  predicate Missing(smiles: Option<string>) {
    smiles.None? || smiles.value == ""
  }

  /** The row for one stripped, non-empty identifier: a SMILES-shaped
      identifier is its own SMILES; anything else goes to the resolver,
      and when that finds nothing an identifier that still looks like
      SMILES is used as it is. */
  function ResolveOne(ident: string, resolve: (string, Option<Kind>) -> Option<string>): (row: Row)
    ensures row.identifier == ident && row.kind == InferIdentifierKind(ident)
    ensures row.kind == Smiles ==> row.smiles == Some(ident)
    ensures row.kind != Smiles && !Missing(resolve(ident, TypeHint(row.kind))) ==>
              row.smiles == resolve(ident, TypeHint(row.kind))
    ensures row.kind != Smiles && Missing(resolve(ident, TypeHint(row.kind))) ==>
              row.smiles == if LooksLikeSmiles(ident) then Some(ident) else resolve(ident, TypeHint(row.kind))
  {
    var kind := InferIdentifierKind(ident);
    if kind == Smiles then Row(ident, kind, Some(ident))
    else
      var found := resolve(ident, TypeHint(kind));
      if Missing(found) && LooksLikeSmiles(ident) then Row(ident, kind, Some(ident))
      else Row(ident, kind, found)
  }

  /** The identifiers kept: items that are not `None` and not blank,
      stripped, in order. */
  function Kept(items: seq<Option<string>>): (r: seq<string>)
    ensures forall k :: 0 <= k < |r| ==> Trimmed(r[k])
    ensures |r| <= |items|
    decreases |items|
  {
    if items == [] then []
    else
      var prev := Kept(items[..|items| - 1]);
      var raw := items[|items| - 1];
      if raw.None? || Strip(raw.value) == "" then prev
      else
        assert Trimmed(Strip(raw.value));
        prev + [Strip(raw.value)]
  }

  /** An item the loop resolves: not `None` and not blank. */
  predicate Keeps(raw: Option<string>) {
    raw.Some? && Strip(raw.value) != ""
  }

  /** The positions of the items the loop resolves, in increasing order. */
  function KeptIndices(items: seq<Option<string>>): (idx: seq<nat>)
    ensures forall k :: 0 <= k < |idx| ==> idx[k] < |items|
    decreases |items|
  {
    if items == [] then []
    else
      var n := |items| - 1;
      if Keeps(items[n]) then KeptIndices(items[..n]) + [n] else KeptIndices(items[..n])
  }

  /** Only items the loop resolves are listed ... */
  lemma {:induction false} KeptIndicesKeep(items: seq<Option<string>>)
    ensures forall k :: 0 <= k < |KeptIndices(items)| ==> Keeps(items[KeptIndices(items)[k]])
    decreases |items|
  {
    if items != [] {
      var n := |items| - 1;
      var init := items[..n];
      KeptIndicesKeep(init);
      var prev := KeptIndices(init);
      forall k | 0 <= k < |prev| ensures items[prev[k]] == init[prev[k]] { }
    }
  }

  /** ... in increasing order ... */
  lemma {:induction false} KeptIndicesIncreasing(items: seq<Option<string>>)
    ensures forall k, l :: 0 <= k < l < |KeptIndices(items)| ==> KeptIndices(items)[k] < KeptIndices(items)[l]
    decreases |items|
  {
    if items != [] {
      KeptIndicesIncreasing(items[..|items| - 1]);
    }
  }

  /** ... and every one of them is. */
  lemma {:induction false} KeptIndicesComplete(items: seq<Option<string>>)
    ensures forall i :: 0 <= i < |items| && Keeps(items[i]) ==> i in KeptIndices(items)
    decreases |items|
  {
    if items != [] {
      var n := |items| - 1;
      var init := items[..n];
      KeptIndicesComplete(init);
      forall i | 0 <= i < |items| && Keeps(items[i]) ensures i in KeptIndices(items) {
        if i < n {
          assert init[i] == items[i];
          assert i in KeptIndices(init);
        } else {
          assert KeptIndices(items) == KeptIndices(init) + [n];
        }
      }
    }
  }

  /** `Kept` holds the stripped items at exactly those positions, in
      order: `None` and blank items contribute nothing, every other item
      contributes its stripped value. */
  lemma {:induction false} KeptAtIndices(items: seq<Option<string>>)
    ensures |Kept(items)| == |KeptIndices(items)|
    ensures forall k :: 0 <= k < |Kept(items)| ==>
              items[KeptIndices(items)[k]].Some? && Kept(items)[k] == Strip(items[KeptIndices(items)[k]].value)
    decreases |items|
  {
    if items != [] {
      var n := |items| - 1;
      var init := items[..n];
      KeptAtIndices(init);
      var prev := KeptIndices(init);
      var kept := Kept(init);
      if Keeps(items[n]) {
        var idx := prev + [n];
        var r := kept + [Strip(items[n].value)];
        assert Kept(items) == r;
        assert KeptIndices(items) == idx;
        forall k | 0 <= k < |r| ensures items[idx[k]].Some? && r[k] == Strip(items[idx[k]].value) {
          if k < |kept| {
            assert idx[k] == prev[k] && items[prev[k]] == init[prev[k]];
          }
        }
      } else {
        assert Kept(items) == kept;
        assert KeptIndices(items) == prev;
        forall k | 0 <= k < |kept| ensures items[prev[k]].Some? && kept[k] == Strip(items[prev[k]].value) {
          assert items[prev[k]] == init[prev[k]];
        }
      }
    }
  }

  /** Non-empty, with no surrounding whitespace. */
  predicate Trimmed(t: string) {
    t != "" && !IsSpace(t[0]) && !IsSpace(t[|t| - 1])
  }

  /** The rows the loop of lines 124-148 builds over `items`. */
  function ResolvedRows(items: seq<Option<string>>, resolve: (string, Option<Kind>) -> Option<string>): (r: seq<Row>)
    ensures |r| <= |items|
    ensures forall k :: 0 <= k < |r| ==> Trimmed(r[k].identifier) && r[k].kind == InferIdentifierKind(r[k].identifier)
    decreases |items|
  {
    if items == [] then []
    else
      var prev := ResolvedRows(items[..|items| - 1], resolve);
      var raw := items[|items| - 1];
      if raw.None? || Strip(raw.value) == "" then prev
      else
        assert Trimmed(Strip(raw.value));
        prev + [ResolveOne(Strip(raw.value), resolve)]
  }

  /** The resolution loop. */
  method ResolveAll(items: seq<Option<string>>, resolve: (string, Option<Kind>) -> Option<string>)
      returns (rows: seq<Row>)
    ensures rows == ResolvedRows(items, resolve)
  {
    rows := [];
    for i := 0 to |items|
      invariant rows == ResolvedRows(items[..i], resolve)
    {
      assert items[..i + 1][..i] == items[..i];
      rows := ResolveItem(items[i], resolve, rows);
    }
    assert items[..|items|] == items;
  }

  /** The body of the loop at lines 125-148: skip `None` and blank items,
      otherwise append the row of the stripped identifier. */
  method ResolveItem(raw: Option<string>, resolve: (string, Option<Kind>) -> Option<string>, rows: seq<Row>)
      returns (rows': seq<Row>)
    ensures raw.None? || Strip(raw.value) == "" ==> rows' == rows
    ensures raw.Some? && Strip(raw.value) != "" ==> rows' == rows + [ResolveOne(Strip(raw.value), resolve)]
  {
    if raw.None? {
      return rows;
    }
    var identValue := Strip(raw.value);
    if identValue == "" {
      return rows;
    }
    rows' := rows + [ResolveOne(identValue, resolve)];
  }

  /** One row per kept identifier, in order: `None` and blank items are
      skipped, and every other item yields exactly its own row. */
  lemma {:induction false} RowsFollowKept(items: seq<Option<string>>, resolve: (string, Option<Kind>) -> Option<string>)
    ensures var rows := ResolvedRows(items, resolve);
            var kept := Kept(items);
            |rows| == |kept| && forall k :: 0 <= k < |rows| ==> rows[k] == ResolveOne(kept[k], resolve)
    decreases |items|
  {
    if items != [] {
      var init := items[..|items| - 1];
      RowsFollowKept(init, resolve);
      var raw := items[|items| - 1];
      if raw.None? || Strip(raw.value) == "" {
        assert ResolvedRows(items, resolve) == ResolvedRows(init, resolve);
        assert Kept(items) == Kept(init);
      } else {
        assert ResolvedRows(items, resolve) == ResolvedRows(init, resolve) + [ResolveOne(Strip(raw.value), resolve)];
        assert Kept(items) == Kept(init) + [Strip(raw.value)];
      }
    }
  }

  // ---------------------------------------------------------------------
  // KEGG ids and pathways: first-occurrence de-duplication
  // ---------------------------------------------------------------------

  predicate Distinct(s: seq<string>) {
    forall i, j :: 0 <= i < j < |s| ==> s[i] != s[j]
  }

  /** The position of the first occurrence of `x`. */
  function FirstIndex(xs: seq<string>, x: string): (i: nat)
    requires x in xs
    ensures i < |xs| && xs[i] == x
    ensures forall j :: 0 <= j < i ==> xs[j] != x
  {
    if xs[0] == x then 0 else 1 + FirstIndex(xs[1..], x)
  }

  lemma FirstIndexOfPrefix(xs: seq<string>, n: nat, x: string)
    requires n <= |xs| && x in xs[..n]
    ensures FirstIndex(xs, x) == FirstIndex(xs[..n], x) < n
  {
    var i := FirstIndex(xs[..n], x);
    assert xs[i] == x;
    assert forall j :: 0 <= j < i ==> xs[j] == xs[..n][j];
  }

  /** `list(dict.fromkeys(xs))`: each value of `xs` once. */
  function Dedup(xs: seq<string>): (r: seq<string>)
    ensures Distinct(r)
    ensures forall x :: x in r <==> x in xs
    decreases |xs|
  {
    if xs == [] then []
    else
      var d := Dedup(xs[..|xs| - 1]);
      var last := xs[|xs| - 1];
      assert forall x :: x in xs <==> x in xs[..|xs| - 1] || x == last;
      if last in d then d else d + [last]
  }

  /** Values of a prefix of `xs` listed in first-occurrence order within
      the prefix are in first-occurrence order within `xs` too, and all
      come before position `n`. */
  lemma PrefixOrder(xs: seq<string>, n: nat, d: seq<string>)
    requires n <= |xs|
    requires forall x :: x in d ==> x in xs[..n] && x in xs
    requires forall i, j :: 0 <= i < j < |d| ==> FirstIndex(xs[..n], d[i]) < FirstIndex(xs[..n], d[j])
    ensures forall i :: 0 <= i < |d| ==> FirstIndex(xs, d[i]) < n
    ensures forall i, j :: 0 <= i < j < |d| ==> FirstIndex(xs, d[i]) < FirstIndex(xs, d[j])
  {
    forall i | 0 <= i < |d|
      ensures FirstIndex(xs, d[i]) == FirstIndex(xs[..n], d[i]) < n
    {
      assert d[i] in d;
      FirstIndexOfPrefix(xs, n, d[i]);
    }
  }

  /** ... in the order of their first occurrences. */
  lemma {:induction false} DedupKeepsFirstOrder(xs: seq<string>)
    ensures forall i, j :: 0 <= i < j < |Dedup(xs)| ==> FirstIndex(xs, Dedup(xs)[i]) < FirstIndex(xs, Dedup(xs)[j])
    decreases |xs|
  {
    if xs != [] {
      var n := |xs| - 1;
      var init := xs[..n];
      DedupKeepsFirstOrder(init);
      var d := Dedup(init);
      forall x | x in d ensures x in xs[..n] && x in xs {
        var k :| 0 <= k < n && init[k] == x;
        assert xs[k] == x;
      }
      PrefixOrder(xs, n, d);
      if xs[n] !in d {
        AppendedLastOrder(xs, d);
      }
    }
  }

  /** A value seen for the first time at the end of `xs` is listed after
      the values of the prefix. */
  lemma AppendedLastOrder(xs: seq<string>, d: seq<string>)
    requires xs != [] && xs[|xs| - 1] !in d && (forall x :: x in d <==> x in xs[..|xs| - 1])
    requires forall x :: x in d ==> x in xs
    requires forall i :: 0 <= i < |d| ==> FirstIndex(xs, d[i]) < |xs| - 1
    requires forall i, j :: 0 <= i < j < |d| ==> FirstIndex(xs, d[i]) < FirstIndex(xs, d[j])
    ensures var r := d + [xs[|xs| - 1]];
            forall i, j :: 0 <= i < j < |r| ==> FirstIndex(xs, r[i]) < FirstIndex(xs, r[j])
  {
    var r := d + [xs[|xs| - 1]];
    assert FirstIndex(xs, xs[|xs| - 1]) == |xs| - 1;
    forall i, j | 0 <= i < j < |r| ensures FirstIndex(xs, r[i]) < FirstIndex(xs, r[j]) {
      assert r[i] == d[i];
      if j < |d| {
        assert r[j] == d[j];
      }
    }
  }

  /** A list without repeats is unchanged by de-duplication. */
  lemma {:induction false} DedupOfDistinct(xs: seq<string>)
    requires Distinct(xs)
    ensures Dedup(xs) == xs
    decreases |xs|
  {
    if xs != [] {
      var init := xs[..|xs| - 1];
      DedupOfDistinct(init);
      assert xs[|xs| - 1] !in init;
      assert init + [xs[|xs| - 1]] == xs;
    }
  }

  lemma DedupIdempotent(xs: seq<string>)
    ensures Dedup(Dedup(xs)) == Dedup(xs)
  {
    DedupOfDistinct(Dedup(xs));
  }

  /** The rows `get_pathways_from_ec` returns for one EC number:
      (KEGG id, pathway) pairs; no rows when it finds nothing. */
  type PathwayLookup = string -> seq<(string, string)>

  function KeggColumn(rows: seq<(string, string)>): (r: seq<string>)
    ensures |r| == |rows| && forall i :: 0 <= i < |rows| ==> r[i] == rows[i].0
  {
    if rows == [] then [] else [rows[0].0] + KeggColumn(rows[1..])
  }

  function PathwayColumn(rows: seq<(string, string)>): (r: seq<string>)
    ensures |r| == |rows| && forall i :: 0 <= i < |rows| ==> r[i] == rows[i].1
  {
    if rows == [] then [] else [rows[0].1] + PathwayColumn(rows[1..])
  }

  /** What `get_pathways_from_ec` returns for each EC number, stripped,
      in order. */
  function LookUps(ecs: seq<string>, lookup: PathwayLookup): (r: seq<seq<(string, string)>>)
    ensures |r| == |ecs| && forall i :: 0 <= i < |ecs| ==> r[i] == lookup(Strip(ecs[i]))
  {
    if ecs == [] then [] else [lookup(Strip(ecs[0]))] + LookUps(ecs[1..], lookup)
  }

  /** What `kegg_ids` holds after extending it over the lookups `found`:
      the distinct KEGG ids of each lookup, in order (`.unique()` keeps
      the order of appearance). */
  function ExtendedKegg(found: seq<seq<(string, string)>>): seq<string>
    decreases |found|
  {
    if found == [] then []
    else ExtendedKegg(found[..|found| - 1]) + Dedup(KeggColumn(found[|found| - 1]))
  }

  /** The same for `pathways`. */
  function ExtendedPathways(found: seq<seq<(string, string)>>): seq<string>
    decreases |found|
  {
    if found == [] then []
    else ExtendedPathways(found[..|found| - 1]) + Dedup(PathwayColumn(found[|found| - 1]))
  }

  /** One more lookup extends both lists by its distinct values; a lookup
      that finds nothing extends them by nothing. */
  lemma ExtendedStep(found: seq<seq<(string, string)>>, i: nat)
    requires i < |found|
    ensures ExtendedKegg(found[..i + 1]) == ExtendedKegg(found[..i]) + Dedup(KeggColumn(found[i]))
    ensures ExtendedPathways(found[..i + 1]) == ExtendedPathways(found[..i]) + Dedup(PathwayColumn(found[i]))
  {
    assert found[..i + 1][..i] == found[..i];
  }

  /** Lines 216-229 for one target: look each EC number up, extend, then
      keep first occurrences. */
  method EcPathways(ecList: string, lookup: PathwayLookup) returns (keggIds: seq<string>, pathways: seq<string>)
    ensures keggIds == Dedup(ExtendedKegg(LookUps(Split(ecList, ';'), lookup)))
    ensures pathways == Dedup(ExtendedPathways(LookUps(Split(ecList, ';'), lookup)))
  {
    var ecNumbers := Split(ecList, ';');
    ghost var found := LookUps(ecNumbers, lookup);
    keggIds := [];
    pathways := [];
    for i := 0 to |ecNumbers|
      invariant keggIds == ExtendedKegg(found[..i])
      invariant pathways == ExtendedPathways(found[..i])
    {
      ExtendedStep(found, i);
      keggIds, pathways := LookUpAndExtend(ecNumbers[i], lookup, keggIds, pathways);
    }
    assert found[..|ecNumbers|] == found;
    keggIds := Dedup(keggIds);
    pathways := Dedup(pathways);
  }

  /** The body of the loop at lines 220-226: strip one EC number, look it
      up, and extend both lists by the distinct values of a non-empty
      result. */
  method LookUpAndExtend(raw: string, lookup: PathwayLookup, keggIds: seq<string>, pathways: seq<string>)
      returns (keggIds': seq<string>, pathways': seq<string>)
    ensures keggIds' == keggIds + Dedup(KeggColumn(lookup(Strip(raw))))
    ensures pathways' == pathways + Dedup(PathwayColumn(lookup(Strip(raw))))
  {
    var ec := Strip(raw);
    var ecPathways := lookup(ec);
    keggIds', pathways' := keggIds, pathways;
    if ecPathways != [] {
      keggIds' := keggIds + Dedup(KeggColumn(ecPathways));
      pathways' := pathways + Dedup(PathwayColumn(ecPathways));
    }
  }

  /** Every KEGG id reported comes from one of the lookups ... */
  lemma {:induction false} ExtendedKeggSource(found: seq<seq<(string, string)>>, x: string) returns (i: nat)
    requires x in ExtendedKegg(found)
    ensures i < |found| && x in KeggColumn(found[i])
    decreases |found|
  {
    var n := |found| - 1;
    var init := found[..n];
    if x in ExtendedKegg(init) {
      i := ExtendedKeggSource(init, x);
      assert init[i] == found[i];
    } else {
      i := n;
    }
  }

  /** ... and every KEGG id any lookup returned is reported. */
  lemma ExtendedKeggComplete(found: seq<seq<(string, string)>>, i: nat, x: string)
    requires i < |found| && x in KeggColumn(found[i])
    ensures x in ExtendedKegg(found)
  {
    KeggReportedFrom(found, i, x, |found|);
    assert found[..|found|] == found;
  }

  /** The KEGG ids of lookup `i` are reported by every prefix that
      contains it. */
  lemma {:induction false} KeggReportedFrom(found: seq<seq<(string, string)>>, i: nat, x: string, j: nat)
    requires i < j <= |found| && x in KeggColumn(found[i])
    ensures x in ExtendedKegg(found[..j])
    decreases j
  {
    ExtendedStep(found, j - 1);
    var before := ExtendedKegg(found[..j - 1]);
    var added := Dedup(KeggColumn(found[j - 1]));
    if i < j - 1 {
      KeggReportedFrom(found, i, x, j - 1);
      assert x in before;
    } else {
      assert x in added;
    }
    assert x in before + added;
  }

  /** Every pathway reported comes from one of the lookups ... */
  lemma {:induction false} ExtendedPathwaysSource(found: seq<seq<(string, string)>>, x: string) returns (i: nat)
    requires x in ExtendedPathways(found)
    ensures i < |found| && x in PathwayColumn(found[i])
    decreases |found|
  {
    var n := |found| - 1;
    var init := found[..n];
    if x in ExtendedPathways(init) {
      i := ExtendedPathwaysSource(init, x);
      assert init[i] == found[i];
    } else {
      i := n;
    }
  }

  /** ... and every pathway any lookup returned is reported. */
  lemma ExtendedPathwaysComplete(found: seq<seq<(string, string)>>, i: nat, x: string)
    requires i < |found| && x in PathwayColumn(found[i])
    ensures x in ExtendedPathways(found)
  {
    PathwayReportedFrom(found, i, x, |found|);
    assert found[..|found|] == found;
  }

  /** The pathways of lookup `i` are reported by every prefix that
      contains it. */
  lemma {:induction false} PathwayReportedFrom(found: seq<seq<(string, string)>>, i: nat, x: string, j: nat)
    requires i < j <= |found| && x in PathwayColumn(found[i])
    ensures x in ExtendedPathways(found[..j])
    decreases j
  {
    ExtendedStep(found, j - 1);
    var before := ExtendedPathways(found[..j - 1]);
    var added := Dedup(PathwayColumn(found[j - 1]));
    if i < j - 1 {
      PathwayReportedFrom(found, i, x, j - 1);
      assert x in before;
    } else {
      assert x in added;
    }
    assert x in before + added;
  }
}
