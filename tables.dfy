/** The two table managers and the part of their insert path that is theirs:
    building the parameter list from the rows before the batch is sent. */
module Tables {
  import opened Rows

  /** The one-element parameter tuple `(v,)` bound to the `%s` placeholder. */
  datatype Param = Param(value: string)

  /** One executemany call: the statement text and its parameter tuples. */
  datatype Batch = Batch(query: string, params: seq<Param>)

  /** The keys the two inserts read from every row. */
  const MetaKey := "meta_table_name"
  const FinanceKey := "finance_table_amount"

  /** The table columns the inserts fill, which are also the targets of the
      script's column mapping. */
  const MetaColumn := "name"
  const FinanceColumn := "amount"
  const MetaInsert := "INSERT INTO meta_table (name) VALUES (%s)"
  const FinanceInsert := "INSERT INTO finance_table (amount) VALUES (%s)"

  /** The list comprehension `[(d[key],) for d in data]`: one tuple per row,
      in row order, holding the row's value for key; the first row without
      the key raises KeyError(key). */
  function ParamsList(data: seq<Row>, key: string): (r: Result<seq<Param>>)
    ensures r.Ok? <==> forall i :: 0 <= i < |data| ==> key in data[i]
    ensures r.KeyError? ==> r.key == key
    ensures r.Ok? ==> |r.value| == |data|
    ensures r.Ok? ==> forall i :: 0 <= i < |data| ==> r.value[i] == Param(data[i][key])
  {
    if data == [] then Ok([])
    else if key !in data[0] then KeyError(key)
    else
      match ParamsList(data[1..], key)
      case KeyError(k) => KeyError(k)
      case Ok(rest) => Ok([Param(data[0][key])] + rest)
  }

  /** The database session, seen only through the batches sent to it with
      executemany, in the order they were sent. */
  class Connection {
    var sent: seq<Batch>

    constructor ()
      ensures sent == []
    {
      sent := [];
    }

    /** execute_many: the batch is sent (and committed) as one call. */
    method ExecuteMany(query: string, params: seq<Param>)
      modifies this
      ensures sent == old(sent) + [Batch(query, params)]
    {
      sent := sent + [Batch(query, params)];
    }
  }

  class MetaTable {
    const connection: Connection

    constructor (connection: Connection)
      ensures this.connection == connection
    {
      this.connection := connection;
    }

    /** insert_records: every row must hold "meta_table_name"; the parameter
        list is complete before the batch is sent, so a missing key sends
        nothing. */
    method InsertRecords(data: seq<Row>) returns (r: Result<()>)
      modifies connection
      ensures r.Ok? <==> forall i :: 0 <= i < |data| ==> MetaKey in data[i]
      ensures r.KeyError? ==> r.key == MetaKey && connection.sent == old(connection.sent)
      ensures r.Ok? ==>
        connection.sent == old(connection.sent) + [Batch(MetaInsert, ParamsList(data, MetaKey).value)]
    {
      var params :- ParamsList(data, MetaKey);
      connection.ExecuteMany(MetaInsert, params);
      return Ok(());
    }

    /** insert_records as evidently intended: the parameter list reads the
        table's own column, the key the column mapper produces. */
    method InsertMappedRecords(data: seq<Row>) returns (r: Result<()>)
      modifies connection
      ensures r.Ok? <==> forall i :: 0 <= i < |data| ==> MetaColumn in data[i]
      ensures r.KeyError? ==> r.key == MetaColumn && connection.sent == old(connection.sent)
      ensures r.Ok? ==>
        connection.sent == old(connection.sent) + [Batch(MetaInsert, ParamsList(data, MetaColumn).value)]
    {
      var params :- ParamsList(data, MetaColumn);
      connection.ExecuteMany(MetaInsert, params);
      return Ok(());
    }
  }

  class FinanceTable {
    const connection: Connection

    constructor (connection: Connection)
      ensures this.connection == connection
    {
      this.connection := connection;
    }

    /** insert_records: as for MetaTable, with "finance_table_amount". */
    method InsertRecords(data: seq<Row>) returns (r: Result<()>)
      modifies connection
      ensures r.Ok? <==> forall i :: 0 <= i < |data| ==> FinanceKey in data[i]
      ensures r.KeyError? ==> r.key == FinanceKey && connection.sent == old(connection.sent)
      ensures r.Ok? ==>
        connection.sent == old(connection.sent) + [Batch(FinanceInsert, ParamsList(data, FinanceKey).value)]
    {
      var params :- ParamsList(data, FinanceKey);
      connection.ExecuteMany(FinanceInsert, params);
      return Ok(());
    }

    /** insert_records as evidently intended: the parameter list reads the
        table's own column, the key the column mapper produces. */
    method InsertMappedRecords(data: seq<Row>) returns (r: Result<()>)
      modifies connection
      ensures r.Ok? <==> forall i :: 0 <= i < |data| ==> FinanceColumn in data[i]
      ensures r.KeyError? ==> r.key == FinanceColumn && connection.sent == old(connection.sent)
      ensures r.Ok? ==>
        connection.sent == old(connection.sent) + [Batch(FinanceInsert, ParamsList(data, FinanceColumn).value)]
    {
      var params :- ParamsList(data, FinanceColumn);
      connection.ExecuteMany(FinanceInsert, params);
      return Ok(());
    }
  }
}
