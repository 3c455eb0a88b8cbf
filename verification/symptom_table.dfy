/** `build_symptom_dict` of orchestrator.py: fold the rows of the
    disease/symptom table into a map from disease name to the distinct
    symptoms listed for it in any row. */
module SymptomTable {
  import opened Common
  import opened Text

  /** A loaded CSV table: column headers and, per row, the cell texts as
      Python's `str(cell)` renders them. */
  datatype Table = Table(columns: seq<string>, rows: seq<seq<string>>)

  /** `str(x)` of an empty CSV cell, which pandas reads as NaN. */
  const MissingCell := "nan"

  const DiseaseHeader := "Disease"
  const SymptomPrefix := "Symptom_"

  /** The text of column `j` in `row`; a row shorter than the header reads
      as missing cells. */
  function Cell(row: seq<string>, j: nat): string
  {
    if j < |row| then row[j] else MissingCell
  }

  /** Position of the first column named `name`. */
  function IndexOf(cols: seq<string>, name: string): (r: Option<nat>)
    ensures r.None? <==> name !in cols
    ensures r.Some? ==> r.value < |cols| && cols[r.value] == name
  {
    if cols == [] then None
    else if cols[0] == name then Some(0)
    else match IndexOf(cols[1..], name)
      case None => None
      case Some(k) => Some(k + 1)
  }

  /** A cleaned cell value that is recorded as a symptom. */
  predicate Kept(v: string)
  {
    v != "" && v != MissingCell
  }

  /** Column `j` is a symptom column whose cleaned value in `row` is `s`. */
  predicate SymptomAt(cols: seq<string>, row: seq<string>, j: int, s: string)
  {
    0 <= j < |cols| && StartsWith(cols[j], SymptomPrefix)
    && Strip(Cell(row, j), Py) == s && Kept(s)
  }

  /** The stripped text of every column of `row`. */
  function CleanRow(cols: seq<string>, row: seq<string>): (vs: seq<string>)
    ensures |vs| == |cols|
    ensures forall j :: 0 <= j < |cols| ==> vs[j] == Strip(Cell(row, j), Py)
  {
    seq(|cols|, j requires 0 <= j < |cols| => Strip(Cell(row, j), Py))
  }

  /** Column `j` is a symptom column whose cleaned value is `s`. */
  predicate Picked(cols: seq<string>, vs: seq<string>, j: int, s: string)
    requires |vs| == |cols|
  {
    0 <= j < |cols| && StartsWith(cols[j], SymptomPrefix) && vs[j] == s && Kept(s)
  }

  /** The kept values of the symptom columns from column `j` on, in column
      order. */
  function PickFrom(cols: seq<string>, vs: seq<string>, j: nat): (r: seq<string>)
    requires |vs| == |cols|
    ensures forall k :: 0 <= k < |r| ==> Kept(r[k])
    ensures j <= |cols| ==> |r| <= |cols| - j
    decreases |cols| - j
  {
    if j >= |cols| then []
    else
      var rest := PickFrom(cols, vs, j + 1);
      if StartsWith(cols[j], SymptomPrefix) && Kept(vs[j]) then [vs[j]] + rest else rest
  }

  /** The kept symptoms of `row`, in column order. */
  function RowSymptoms(cols: seq<string>, row: seq<string>): (r: seq<string>)
    ensures forall k :: 0 <= k < |r| ==> Kept(r[k])
    ensures |r| <= |cols|
  {
    PickFrom(cols, CleanRow(cols, row), 0)
  }

  lemma {:induction false} PickFromSpec(cols: seq<string>, vs: seq<string>, j: nat, s: string)
    requires |vs| == |cols|
    ensures s in PickFrom(cols, vs, j) <==> exists k :: j <= k && Picked(cols, vs, k, s)
    decreases |cols| - j
  {
    if j < |cols| {
      PickFromSpec(cols, vs, j + 1, s);
      if Picked(cols, vs, j, s) {
        assert s in PickFrom(cols, vs, j);
      }
      if exists k :: j <= k && Picked(cols, vs, k, s) {
        var k :| j <= k && Picked(cols, vs, k, s);
        if k > j {
          assert exists k' :: j + 1 <= k' && Picked(cols, vs, k', s);
        }
      }
    }
  }

  /** A row contributes `s` exactly when some `Symptom_` column holds `s`
      after stripping, and `s` is neither empty nor "nan". */
  lemma RowSymptomsSpec(cols: seq<string>, row: seq<string>, s: string)
    ensures s in RowSymptoms(cols, row) <==> exists j :: SymptomAt(cols, row, j, s)
  {
    var vs := CleanRow(cols, row);
    PickFromSpec(cols, vs, 0, s);
    assert forall j :: Picked(cols, vs, j, s) <==> SymptomAt(cols, row, j, s);
  }

  /** Row `i` exists and its Disease cell (column `di`), once stripped, is `d`. */
  predicate RowNames(t: Table, di: nat, i: int, d: string)
  {
    0 <= i < |t.rows| && Strip(Cell(t.rows[i], di), Py) == d
  }

  /** Row `i` exists and names disease `d`; false when the table has no
      Disease column. */
  predicate DiseaseRow(t: Table, i: int, d: string)
  {
    match IndexOf(t.columns, DiseaseHeader)
    case None => false
    case Some(di) => RowNames(t, di, i, d)
  }

  /** Row `i` names disease `d` and lists symptom `s`. */
  predicate Contributes(t: Table, i: int, d: string, s: string)
  {
    DiseaseRow(t, i, d) && s in RowSymptoms(t.columns, t.rows[i])
  }

  /** Per row, in row order: the stripped Disease cell and the row's kept
      symptoms. */
  function Entries(t: Table, di: nat): (es: seq<(string, seq<string>)>)
    ensures |es| == |t.rows|
    ensures forall i :: 0 <= i < |es| ==>
              es[i] == (Strip(Cell(t.rows[i], di), Py), RowSymptoms(t.columns, t.rows[i]))
  {
    seq(|t.rows|, i requires 0 <= i < |t.rows| =>
      (Strip(Cell(t.rows[i], di), Py), RowSymptoms(t.columns, t.rows[i])))
  }

  function Lookup<K, V>(m: map<K, seq<V>>, k: K): seq<V>
  {
    if k in m then m[k] else []
  }

  /** The row loop from entry `i` on: create the key when missing, then
      extend its list with the entry's values. */
  function MergeFrom<K, V>(es: seq<(K, seq<V>)>, i: nat, acc: map<K, seq<V>>): map<K, seq<V>>
    decreases |es| - i
  {
    if i >= |es| then acc
    else MergeFrom(es, i + 1, acc[es[i].0 := Lookup(acc, es[i].0) + es[i].1])
  }

  /** The row loop only adds: a recorded key stays, and its list is only
      extended at the end. */
  lemma {:induction false} MergeFromExtends<K, V>(es: seq<(K, seq<V>)>, i: nat, acc: map<K, seq<V>>, d: K)
    requires d in acc
    ensures d in MergeFrom(es, i, acc) && acc[d] <= MergeFrom(es, i, acc)[d]
    decreases |es| - i
  {
    if i < |es| {
      var acc' := acc[es[i].0 := Lookup(acc, es[i].0) + es[i].1];
      assert acc[d] <= acc'[d];
      MergeFromExtends(es, i + 1, acc', d);
    }
  }

  /** Which keys the row loop records. */
  lemma {:induction false} MergeFromKeys<K, V>(es: seq<(K, seq<V>)>, i: nat, acc: map<K, seq<V>>, d: K)
    ensures d in MergeFrom(es, i, acc) <==> d in acc || exists k :: i <= k < |es| && es[k].0 == d
    decreases |es| - i
  {
    if i < |es| {
      MergeFromKeys(es, i + 1, acc[es[i].0 := Lookup(acc, es[i].0) + es[i].1], d);
      if exists k :: i <= k < |es| && es[k].0 == d {
        var k :| i <= k < |es| && es[k].0 == d;
        if k > i {
          assert exists k' :: i + 1 <= k' < |es| && es[k'].0 == d;
        }
      }
    }
  }

  /** Which values the row loop records under a key. */
  lemma {:induction false} MergeFromValues<K, V>(es: seq<(K, seq<V>)>, i: nat, acc: map<K, seq<V>>, d: K, s: V)
    ensures s in Lookup(MergeFrom(es, i, acc), d)
            <==> s in Lookup(acc, d) || exists k :: i <= k < |es| && es[k].0 == d && s in es[k].1
    decreases |es| - i
  {
    if i < |es| {
      var acc' := acc[es[i].0 := Lookup(acc, es[i].0) + es[i].1];
      MergeFromValues(es, i + 1, acc', d, s);
      assert s in Lookup(acc', d) <==> s in Lookup(acc, d) || (es[i].0 == d && s in es[i].1);
      if exists k :: i <= k < |es| && es[k].0 == d && s in es[k].1 {
        var k :| i <= k < |es| && es[k].0 == d && s in es[k].1;
        if k > i {
          assert exists k' :: i + 1 <= k' < |es| && es[k'].0 == d && s in es[k'].1;
        }
      }
    }
  }

  predicate NoDuplicates(s: seq<string>)
  {
    forall i, j :: 0 <= i < j < |s| ==> s[i] != s[j]
  }

  /** `list(set(xs))`: the distinct elements of `xs`. Python leaves their
      order unspecified; this keeps first occurrences in order. */
  function Dedup(xs: seq<string>): (r: seq<string>)
    ensures NoDuplicates(r)
    ensures forall x :: x in r <==> x in xs
    ensures |r| <= |xs|
  {
    if xs == [] then []
    else
      var init := xs[..|xs| - 1];
      var last := xs[|xs| - 1];
      var r := Dedup(init);
      assert xs == init + [last];
      if last in r then r else r + [last]
  }

  /** `build_symptom_dict(ds_df)`. */
  function BuildSymptomDict(t: Table): (r: map<string, seq<string>>)
    ensures DiseaseHeader !in t.columns ==> r == map[]
    ensures forall d :: d in r ==> NoDuplicates(r[d])
    ensures forall d :: d in r <==> exists i :: DiseaseRow(t, i, d)
    ensures forall d, s :: d in r ==> (s in r[d] <==> exists i :: Contributes(t, i, d, s))
  {
    match IndexOf(t.columns, DiseaseHeader)
    case None => map[]
    case Some(di) =>
      var es := Entries(t, di);
      var merged := MergeFrom(es, 0, map[]);
      var r := map d | d in merged :: Dedup(merged[d]);
      assert forall d :: d in r <==> exists i :: DiseaseRow(t, i, d) by {
        forall d ensures d in r <==> exists i :: DiseaseRow(t, i, d) {
          MergeFromKeys(es, 0, map[], d);
          if d in r {
            var i :| 0 <= i < |es| && es[i].0 == d;
            assert DiseaseRow(t, i, d);
          }
          if exists i :: DiseaseRow(t, i, d) {
            var i :| DiseaseRow(t, i, d);
            assert es[i].0 == d;
          }
        }
      }
      assert forall d, s :: d in r ==> (s in r[d] <==> exists i :: Contributes(t, i, d, s)) by {
        forall d, s | d in r ensures s in r[d] <==> exists i :: Contributes(t, i, d, s) {
          MergeFromValues(es, 0, map[], d, s);
          if s in r[d] {
            var i :| 0 <= i < |es| && es[i].0 == d && s in es[i].1;
            assert Contributes(t, i, d, s);
          }
          if exists i :: Contributes(t, i, d, s) {
            var i :| Contributes(t, i, d, s);
            assert es[i].0 == d && s in es[i].1;
          }
        }
      }
      r
  }

  /** Tying the builder to the cells: `s` is listed for `d` exactly when a
      row naming `d` has a `Symptom_` column whose stripped value is `s`,
      and `s` is neither empty nor "nan". */
  lemma SymptomListedIffInSomeCell(t: Table, d: string, s: string)
    ensures s in Lookup(BuildSymptomDict(t), d)
            <==> exists i, j :: DiseaseRow(t, i, d) && SymptomAt(t.columns, t.rows[i], j, s)
  {
    var r := BuildSymptomDict(t);
    if d in r && s in r[d] {
      var i :| Contributes(t, i, d, s);
      RowSymptomsSpec(t.columns, t.rows[i], s);
      var j :| SymptomAt(t.columns, t.rows[i], j, s);
      assert DiseaseRow(t, i, d) && SymptomAt(t.columns, t.rows[i], j, s);
    }
    if exists i, j :: DiseaseRow(t, i, d) && SymptomAt(t.columns, t.rows[i], j, s) {
      var i, j :| DiseaseRow(t, i, d) && SymptomAt(t.columns, t.rows[i], j, s);
      RowSymptomsSpec(t.columns, t.rows[i], s);
      assert Contributes(t, i, d, s);
    }
  }
}
