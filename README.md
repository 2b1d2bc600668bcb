# CSV-to-MySQL loader: column mapping and insert parameters

The repository is a single script, `crud.py`, that reads a CSV file and
renames its columns with a fixed mapping. It is meant to insert the renamed
rows into two MySQL tables, `meta_table` (column `name`) and `finance_table`
(column `amount`), with one `executemany` batch per table. As written it
cannot: every non-empty CSV raises KeyError before any row is inserted (see
"## Findings").

This project models the part of that script that is logic rather than I/O:

- `map_csv_to_sql_column_names` (module `ColumnMapper`). A row is a
  `map<string, string>`. The mapping is a `seq<(string, string)>` of
  (CSV column, SQL column) pairs in the dictionary's insertion order, because
  "the last pair for a target wins" depends on that order. The per-row
  dictionary comprehension is the pure function `MappedRow`. The outer loop
  that appends to `mapped_data` is the method `MapCsvToSqlColumnNames`.
  Indexing a row with a missing key raises `KeyError`, which is the only error
  the code raises itself. It is modelled as `Result.KeyError(key)`, and it
  aborts the whole call.
- The `params_list` comprehensions of both `insert_records` methods (module
  `Tables`): the function `ParamsList` builds one 1-tuple (`Param`) per row, in
  row order. Both table classes are modelled with their shared connection. The
  connection is seen only through the batches handed to `execute_many`
  (`Connection.sent`), so the model can state that a missing key raises before
  any batch is sent.
- The script's composition (module `LoadScript`): the mapping literal, the
  call to the mapper, and the two inserts.

Rows and mappings are values, so the mapper cannot modify its inputs, and it
returns fresh rows and a fresh list. A mapping `seq` may repeat a source
column, which a Python dictionary cannot do. The results below hold for such
sequences too.

## Model

| member | source | states |
|---|---|---|
| `ColumnMapper.MappedRow` | crud.py:70 | the comprehension succeeds exactly when the row holds every source column of the mapping; a mapped row's keys are exactly the mapping's targets, with no source keys or other keys carried over; a failure names a source column the row lacks |
| `ColumnMapper.MappedRowLastWins` | crud.py:70 | values are copied verbatim: under the target of pair i, when no later pair writes that target, the mapped row holds the input's value for pair i's source (the last pair for a target wins) |
| `ColumnMapper.LastPairFor` | crud.py:70 | every target of the mapping has a last pair writing it, so `MappedRowLastWins` fixes the value under every key of a mapped row |
| `ColumnMapper.MappedRowFailsAtFirstMissing` | crud.py:70 | a missing source is a hard failure, never skipped or defaulted: the KeyError names the first source column, in mapping order, that the row lacks |
| `ColumnMapper.MapCsvToSqlColumnNames` | crud.py:67-72 | succeeds exactly when every row holds every source column; returns one mapped row per input row, in the same order, each the row's `MappedRow`; otherwise returns the KeyError of the first failing row and no list at all; empty data gives an empty list, and an empty mapping gives one empty row per input row |
| `Tables.ParamsList` | crud.py:40 | `[(d[key],) for d in data]`, used with "meta_table_name" here and with "finance_table_amount" at crud.py:63: succeeds exactly when every row holds the key; then it gives one tuple per row, in row order, with `params[i] == (data[i][key],)`; otherwise it gives KeyError(key) |
| `Tables.Connection.ExecuteMany` | crud.py:15-18 | a batch call appends exactly one (query, parameter list) batch to what the connection has been sent |
| `Tables.MetaTable.constructor` | crud.py:22-24 | the table manager holds the shared connection it was given |
| `Tables.MetaTable.InsertRecords` | crud.py:36-41 | succeeds exactly when every row holds "meta_table_name"; then one batch of the meta_table INSERT with the row-ordered parameter list is sent; on KeyError nothing is sent, because the list is built before the batch call |
| `Tables.FinanceTable.constructor` | crud.py:45-47 | the table manager holds the shared connection it was given |
| `Tables.FinanceTable.InsertRecords` | crud.py:59-64 | the same as `MetaTable.InsertRecords`, with "finance_table_amount" and the finance_table INSERT |
| `LoadScript.ScriptTargets` | crud.py:86 | the targets of the script's mapping are exactly "name" and "amount" |
| `LoadScript.ScriptMappedRowKeys` | crud.py:86-87 | a row mapped with the script's mapping has exactly the keys "name" and "amount", so it holds neither "meta_table_name" nor "finance_table_amount" |
| `LoadScript.InsertKeysUnsatisfiableAfterMapping` | crud.py:86-97 | for any non-empty input, after the mapping at line 87 the parameter lists of both inserts fail with KeyError: the key each insert requires is never present |
| `LoadScript.RunScript` | crud.py:86-97 | on any non-empty input the script ends in KeyError before any batch is sent; when every row holds both source columns, the error is KeyError("meta_table_name") from the meta_table insert; only an empty input succeeds, sending one empty batch per table |
| `LoadScript.WidgetRowIsRejected` | crud.py:86-96 | the one-row CSV {"meta_table_name": "Widget", "finance_table_amount": "19.99"} maps to {"name": "Widget", "amount": "19.99"}, and the meta_table insert then fails with KeyError("meta_table_name") |
| `Tables.MetaTable.InsertMappedRecords` | crud.py:36-41 | corrected insert_records that reads "name": succeeds exactly when every row holds "name", then sends one batch; sends nothing on KeyError |
| `Tables.FinanceTable.InsertMappedRecords` | crud.py:59-64 | corrected insert_records that reads "amount": succeeds exactly when every row holds "amount", then sends one batch; sends nothing on KeyError |
| `LoadScript.MappedParamsCarryCsvValues` | crud.py:86-87 | after the script's mapping, the parameter lists read by column name succeed, and row i's tuples hold the CSV row's "meta_table_name" and "finance_table_amount" values |
| `LoadScript.RunScriptAsIntended` | crud.py:86-97 | the corrected script fails exactly when some row lacks a source column, and then sends nothing; otherwise it sends the meta_table batch and then the finance_table batch, each with one tuple per CSV row carrying that row's value |

## Findings

| source | as written | input that shows it | evidently intended | confidence | as-written member | corrected member |
|---|---|---|---|---|---|---|
| crud.py:40 | `insert_records` reads "meta_table_name" (and "finance_table_amount" at crud.py:63). These are CSV column names, and the mapper at crud.py:87 has already renamed them to "name" and "amount" | any non-empty CSV, e.g. the one row {"meta_table_name": "Widget", "finance_table_amount": "19.99"}: the call at crud.py:96 raises KeyError('meta_table_name') and no row is inserted | the inserts read the mapped column names "name" and "amount", so each CSV value reaches its table | high (proved on the model; not executed) | `LoadScript.RunScript` | `LoadScript.RunScriptAsIntended` |

## Left out

- `PyMySQLCRUDMixin.execute_query` (crud.py:9-13): a cursor round trip whose result depends on the driver and the database.
- `Tables.Connection.ExecuteMany`: only records that the batch was handed over. What `executemany` and `commit` do in the database, including whether a failing row rolls back the batch, belongs to pymysql and MySQL.
- `create_table` of both classes (crud.py:26-34, 49-57): each sends a fixed DDL statement. Idempotence ("IF NOT EXISTS") is MySQL's property. `LoadScript.RunScript` therefore leaves out the two calls at crud.py:91 and crud.py:93.
- Connecting, opening and parsing `data.csv`, and closing the connection (crud.py:76-83, 100): I/O. The CSV rows are a parameter of `RunScript`.
- Query strings are modelled without the surrounding newlines and indentation of the triple-quoted literals.
- The FLOAT type of `amount` and any numeric conversion: the values stay strings in the code.
- The key order of a mapped dictionary (the first insertion of each target): Dafny maps are unordered, and nothing in the code depends on that order.
