/** The column mapper: renames the keys of every CSV row to the SQL column
    names of a mapping, copying the values unchanged. */
module ColumnMapper {
  import opened Rows

  /** Every source column of the mapping is a key of the row. */
  predicate SourcesPresent(d: Row, mapping: Mapping) {
    forall i :: 0 <= i < |mapping| ==> mapping[i].0 in d
  }

  /** The target columns the mapping names. */
  function Targets(mapping: Mapping): set<string> {
    set i | 0 <= i < |mapping| :: mapping[i].1
  }

  /** No later pair of the mapping writes the same target as pair i. */
  predicate IsLastForTarget(mapping: Mapping, i: int)
    requires 0 <= i < |mapping|
  {
    forall j :: i < j < |mapping| ==> mapping[j].1 != mapping[i].1
  }

  lemma TargetsOfPrefix(mapping: Mapping)
    requires mapping != []
    ensures Targets(mapping) == Targets(mapping[..|mapping| - 1]) + {mapping[|mapping| - 1].1}
  {
    var n := |mapping|;
    var prefix := mapping[..n - 1];
    forall t | t in Targets(mapping)
      ensures t in Targets(prefix) + {mapping[n - 1].1}
    {
      var i :| 0 <= i < n && mapping[i].1 == t;
      if i < n - 1 {
        assert prefix[i].1 == t;
      }
    }
    forall t | t in Targets(prefix)
      ensures t in Targets(mapping)
    {
      var i :| 0 <= i < n - 1 && prefix[i].1 == t;
      assert mapping[i].1 == t;
    }
  }

  /** The dictionary comprehension that maps one row: the mapping's pairs
      are visited in order, each stores the row's value for its source under
      its target (a later pair overwriting an earlier one with the same
      target), and the first source the row lacks raises KeyError. */
  function MappedRow(d: Row, mapping: Mapping): (r: Result<Row>)
    ensures r.Ok? <==> SourcesPresent(d, mapping)
    ensures r.Ok? ==> r.value.Keys == Targets(mapping)
    ensures r.KeyError? ==> exists i :: 0 <= i < |mapping| && mapping[i].0 == r.key && r.key !in d
    decreases |mapping|
  {
    if mapping == [] then Ok(map[])
    else
      var n := |mapping|;
      var prefix := mapping[..n - 1];
      var (csv, sql) := mapping[n - 1];
      TargetsOfPrefix(mapping);
      assert forall i :: 0 <= i < n - 1 ==> prefix[i] == mapping[i];
      match MappedRow(d, prefix)
      case KeyError(k) => KeyError(k)
      case Ok(done) =>
        if csv in d then Ok(done[sql := d[csv]]) else KeyError(csv)
  }

  /** Values are copied verbatim and the last pair for a target wins: the
      value stored under the target of pair i, when no later pair writes that
      target, is the row's value for the source of pair i. */
  lemma {:induction false} MappedRowLastWins(d: Row, mapping: Mapping, i: int)
    requires SourcesPresent(d, mapping)
    requires 0 <= i < |mapping| && IsLastForTarget(mapping, i)
    ensures mapping[i].1 in MappedRow(d, mapping).value
    ensures MappedRow(d, mapping).value[mapping[i].1] == d[mapping[i].0]
  {
    var n := |mapping|;
    var prefix := mapping[..n - 1];
    if i < n - 1 {
      assert prefix[i] == mapping[i];
      assert SourcesPresent(d, prefix) by {
        forall k | 0 <= k < n - 1 ensures prefix[k].0 in d {
          assert prefix[k] == mapping[k];
        }
      }
      assert IsLastForTarget(prefix, i) by {
        forall j | i < j < n - 1 ensures prefix[j].1 != prefix[i].1 {
          assert prefix[j] == mapping[j];
        }
      }
      MappedRowLastWins(d, prefix, i);
      assert mapping[n - 1].1 != mapping[i].1;
    }
  }

  /** Every target of the mapping is written by a last pair, so together with
      MappedRowLastWins this fixes the value under every key of a mapped row. */
  lemma {:induction false} LastPairFor(mapping: Mapping, t: string) returns (i: int)
    requires t in Targets(mapping)
    ensures 0 <= i < |mapping| && mapping[i].1 == t && IsLastForTarget(mapping, i)
  {
    var n := |mapping|;
    if mapping[n - 1].1 == t {
      i := n - 1;
    } else {
      var prefix := mapping[..n - 1];
      TargetsOfPrefix(mapping);
      i := LastPairFor(prefix, t);
      assert prefix[i] == mapping[i];
      forall j | i < j < n
        ensures mapping[j].1 != mapping[i].1
      {
        if j < n - 1 {
          assert prefix[j] == mapping[j];
        }
      }
    }
  }

  /** A missing source is a hard failure: the KeyError names the first source,
      in mapping order, that the row lacks. */
  lemma {:induction false} MappedRowFailsAtFirstMissing(d: Row, mapping: Mapping, i: int)
    requires 0 <= i < |mapping| && mapping[i].0 !in d
    requires forall j :: 0 <= j < i ==> mapping[j].0 in d
    ensures MappedRow(d, mapping) == KeyError(mapping[i].0)
  {
    var n := |mapping|;
    var prefix := mapping[..n - 1];
    if i == n - 1 {
      assert SourcesPresent(d, prefix) by {
        forall k | 0 <= k < n - 1 ensures prefix[k].0 in d {
          assert prefix[k] == mapping[k];
        }
      }
    } else {
      assert prefix[i] == mapping[i];
      forall j | 0 <= j < i ensures prefix[j].0 in d {
        assert prefix[j] == mapping[j];
      }
      MappedRowFailsAtFirstMissing(d, prefix, i);
    }
  }

  /** map_csv_to_sql_column_names: one mapped row per input row, in order; the
      first row that lacks a source aborts the whole call with its KeyError,
      so no partial list is ever returned. */
  method MapCsvToSqlColumnNames(data: seq<Row>, mapping: Mapping) returns (r: Result<seq<Row>>)
    ensures r.Ok? <==> forall i :: 0 <= i < |data| ==> SourcesPresent(data[i], mapping)
    ensures r.Ok? ==> |r.value| == |data|
    ensures r.Ok? ==> forall i :: 0 <= i < |data| ==> MappedRow(data[i], mapping) == Ok(r.value[i])
    ensures r.KeyError? ==>
      exists i :: 0 <= i < |data| && MappedRow(data[i], mapping) == KeyError(r.key)
                  && forall k :: 0 <= k < i ==> SourcesPresent(data[k], mapping)
    ensures data == [] ==> r == Ok([])
    ensures mapping == [] ==> r.Ok? && forall i :: 0 <= i < |r.value| ==> r.value[i] == map[]
  {
    var mapped: seq<Row> := [];
    for i := 0 to |data|
      invariant |mapped| == i
      invariant forall k :: 0 <= k < i ==> MappedRow(data[k], mapping) == Ok(mapped[k])
    {
      var row := MappedRow(data[i], mapping);
      if row.KeyError? {
        return KeyError(row.key);
      }
      mapped := mapped + [row.value];
    }
    return Ok(mapped);
  }
}
