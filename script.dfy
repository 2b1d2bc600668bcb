/** The load script's use of the core: map every CSV row with the fixed
    mapping, then insert the mapped rows into meta_table and finance_table.
    Opening the connection and the file, and creating the tables, are not
    part of this model. */
module LoadScript {
  import opened Rows
  import opened ColumnMapper
  import opened Tables

  /** The mapping literal of the script, in its insertion order. */
  const ScriptMapping: Mapping := [("meta_table_name", "name"), ("finance_table_amount", "amount")]

  lemma ScriptTargets()
    ensures Targets(ScriptMapping) == {"name", "amount"}
  {
    assert ScriptMapping[0].1 == "name";
    assert ScriptMapping[1].1 == "amount";
  }

  /** A row mapped with the script's mapping has exactly the keys "name" and
      "amount": both source names are gone from it. */
  lemma ScriptMappedRowKeys(d: Row)
    requires MappedRow(d, ScriptMapping).Ok?
    ensures MappedRow(d, ScriptMapping).value.Keys == {"name", "amount"}
    ensures MetaKey !in MappedRow(d, ScriptMapping).value
    ensures FinanceKey !in MappedRow(d, ScriptMapping).value
  {
    ScriptTargets();
  }

  /** Rows produced by the script's mapping can never feed either insert: on
      any non-empty list, both parameter lists fail with KeyError. */
  lemma InsertKeysUnsatisfiableAfterMapping(data: seq<Row>, mapped: seq<Row>)
    requires |data| == |mapped| > 0
    requires forall i :: 0 <= i < |data| ==> MappedRow(data[i], ScriptMapping) == Ok(mapped[i])
    ensures ParamsList(mapped, MetaKey) == KeyError(MetaKey)
    ensures ParamsList(mapped, FinanceKey) == KeyError(FinanceKey)
  {
    ScriptMappedRowKeys(data[0]);
  }

  /** Lines "mapping = …" to "finance_table.insert_records(mapped_data)":
      on any non-empty input the script stops with a KeyError before a single
      batch is sent; when every row holds both source columns, that KeyError
      is the one meta_table's insert raises for "meta_table_name". Only an
      empty input gets through, sending one empty batch per table. */
  method RunScript(connection: Connection, data: seq<Row>) returns (r: Result<()>)
    modifies connection
    ensures data != [] ==> r.KeyError? && connection.sent == old(connection.sent)
    ensures data != [] && (forall i :: 0 <= i < |data| ==> SourcesPresent(data[i], ScriptMapping)) ==>
      r == KeyError(MetaKey)
    ensures data == [] ==>
      r == Ok(()) &&
      connection.sent == old(connection.sent) + [Batch(MetaInsert, []), Batch(FinanceInsert, [])]
  {
    var mapped :- MapCsvToSqlColumnNames(data, ScriptMapping);
    var metaTable := new MetaTable(connection);
    var financeTable := new FinanceTable(connection);
    r := metaTable.InsertRecords(mapped);
    if r.Ok? {
      r := financeTable.InsertRecords(mapped);
    }
    if data != [] {
      InsertKeysUnsatisfiableAfterMapping(data, mapped);
    } else {
      assert r.value == ();
    }
  }

  /** The one-row CSV {"meta_table_name": "Widget", "finance_table_amount":
      "19.99"} cannot be loaded: its mapped row is {"name": "Widget",
      "amount": "19.99"}, which holds no "meta_table_name" for meta_table's
      insert to read. */
  lemma WidgetRowIsRejected()
    ensures MappedRow(map["meta_table_name" := "Widget", "finance_table_amount" := "19.99"], ScriptMapping)
         == Ok(map["name" := "Widget", "amount" := "19.99"])
    ensures ParamsList([map["name" := "Widget", "amount" := "19.99"]], MetaKey) == KeyError(MetaKey)
  {
    var d := map["meta_table_name" := "Widget", "finance_table_amount" := "19.99"];
    var m := MappedRow(d, ScriptMapping).value;
    ScriptMappedRowKeys(d);
    MappedRowLastWins(d, ScriptMapping, 0);
    MappedRowLastWins(d, ScriptMapping, 1);
    assert m == map["name" := "Widget", "amount" := "19.99"];
  }

  /** With the inserts reading the mapped column names, every CSV value
      reaches the parameter list of its table, row for row: the name batch
      carries the "meta_table_name" values and the amount batch the
      "finance_table_amount" values. */
  lemma MappedParamsCarryCsvValues(data: seq<Row>, mapped: seq<Row>)
    requires |data| == |mapped|
    requires forall i :: 0 <= i < |data| ==> MappedRow(data[i], ScriptMapping) == Ok(mapped[i])
    ensures ParamsList(mapped, MetaColumn).Ok? && ParamsList(mapped, FinanceColumn).Ok?
    ensures forall i :: 0 <= i < |data| ==>
      MetaKey in data[i] && ParamsList(mapped, MetaColumn).value[i] == Param(data[i][MetaKey])
    ensures forall i :: 0 <= i < |data| ==>
      FinanceKey in data[i] && ParamsList(mapped, FinanceColumn).value[i] == Param(data[i][FinanceKey])
  {
    forall i | 0 <= i < |data|
      ensures MetaKey in data[i] && FinanceKey in data[i]
      ensures MetaColumn in mapped[i] && mapped[i][MetaColumn] == data[i][MetaKey]
      ensures FinanceColumn in mapped[i] && mapped[i][FinanceColumn] == data[i][FinanceKey]
    {
      assert ScriptMapping[0].0 in data[i] && ScriptMapping[1].0 in data[i];
      MappedRowLastWins(data[i], ScriptMapping, 0);
      MappedRowLastWins(data[i], ScriptMapping, 1);
    }
  }

  /** The script as evidently intended, with the inserts reading "name" and
      "amount": it fails only on a row that lacks a source column, and
      otherwise sends one batch per table carrying every row's value. */
  method RunScriptAsIntended(connection: Connection, data: seq<Row>) returns (r: Result<()>)
    modifies connection
    ensures r.Ok? <==> forall i :: 0 <= i < |data| ==> SourcesPresent(data[i], ScriptMapping)
    ensures r.KeyError? ==> connection.sent == old(connection.sent)
    ensures r.Ok? ==>
      |connection.sent| == |old(connection.sent)| + 2 &&
      connection.sent[..|old(connection.sent)|] == old(connection.sent) &&
      var meta := connection.sent[|old(connection.sent)|];
      var finance := connection.sent[|old(connection.sent)| + 1];
      meta.query == MetaInsert && finance.query == FinanceInsert &&
      |meta.params| == |finance.params| == |data| &&
      forall i :: 0 <= i < |data| ==>
        MetaKey in data[i] && FinanceKey in data[i] &&
        meta.params[i] == Param(data[i][MetaKey]) && finance.params[i] == Param(data[i][FinanceKey])
  {
    var mapped :- MapCsvToSqlColumnNames(data, ScriptMapping);
    MappedParamsCarryCsvValues(data, mapped);
    var metaTable := new MetaTable(connection);
    var financeTable := new FinanceTable(connection);
    r := metaTable.InsertMappedRecords(mapped);
    if r.Ok? {
      r := financeTable.InsertMappedRecords(mapped);
    }
  }
}
