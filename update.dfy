/** The UPDATE operations that `canyon_macros/src/query_operations/update.rs`
    generates for an entity.

    The generator's inputs (the table, the columns to update, the struct's
    fields, the primary key and its field index) are taken as given. The
    generated async methods are modelled as data: which statement they issue,
    with which parameters and against which datasource, or the error they
    return. `RunBody` then says what a generated method does when it runs. */
module UpdateOperations {
  import opened Wrappers
  import SqlText

  /** One entry of the SET list: `{column} = ${i + 2}` for the column at index `i`. */
  function SetEntry(column: string, i: nat): string {
    column + " = $" + SqlText.NatToString(i + 2)
  }

  function SetEntries(columns: seq<string>): seq<string> {
    seq(|columns|, i requires 0 <= i < |columns| => SetEntry(columns[i], i))
  }

  /** Builds `vec_columns_values` one entry per column in an enumerate loop
      and joins it with `", "`. */
  method SetList(updateColumns: seq<string>) returns (setList: string)
    ensures setList == SqlText.Join(SetEntries(updateColumns), ", ")
  {
    var columnsValues: seq<string> := [];
    var i := 0;
    while i < |updateColumns|
      invariant 0 <= i <= |updateColumns|
      invariant columnsValues == SetEntries(updateColumns[..i])
    {
      columnsValues := columnsValues + [updateColumns[i] + " = $" + SqlText.NatToString(i + 2)];
      i := i + 1;
    }
    assert updateColumns[..i] == updateColumns;
    setList := SqlText.Join(columnsValues, ", ");
  }

  /** A column name as the derive macro reads it: no comma, no `$`. */
  predicate PlainName(column: string) {
    ',' !in column && '$' !in column
  }

  /** The SET list has one entry per update column, in order, and the
      entry at index `i` names that column and placeholder `$(i + 2)`. An
      empty column list gives an empty SET list. */
  lemma SetListEntries(updateColumns: seq<string>)
    requires forall i :: 0 <= i < |updateColumns| ==> PlainName(updateColumns[i])
    ensures |updateColumns| == 0 ==> SqlText.Join(SetEntries(updateColumns), ", ") == ""
    ensures |updateColumns| > 0 ==>
      var entries := SqlText.SplitList(SqlText.Join(SetEntries(updateColumns), ", "));
      |entries| == |updateColumns| &&
      forall i :: 0 <= i < |entries| ==>
        ParseSetEntry(entries[i]) == Some((updateColumns[i], i + 2))
  {
    var entries := SetEntries(updateColumns);
    if |updateColumns| > 0 {
      forall i | 0 <= i < |entries| ensures ',' !in entries[i] && ParseSetEntry(entries[i]) == Some((updateColumns[i], i + 2)) {
        SetEntryParses(updateColumns[i], i);
      }
      SqlText.SplitJoin(entries);
    }
  }

  /** Reads a SET entry `{column} = ${k}` back into its column and placeholder number. */
  function ParseSetEntry(entry: string): Option<(string, nat)> {
    match SqlText.SplitAt(entry, '$')
    case None => None
    case Some(parts) =>
      var lhs := parts.0;
      if |lhs| < 3 || lhs[|lhs| - 3..] != " = " then None
      else match SqlText.ParseNat(parts.1)
        case None => None
        case Some(k) => Some((lhs[..|lhs| - 3], k))
  }

  /** An assignment `{column} = ${k}` reads back to its column and number. */
  lemma AssignmentParses(column: string, k: nat)
    requires PlainName(column)
    ensures ',' !in column + " = $" + SqlText.NatToString(k)
    ensures ParseSetEntry(column + " = $" + SqlText.NatToString(k)) == Some((column, k))
  {
    var digits := SqlText.NatToString(k);
    var lhs := column + " = ";
    assert column + " = $" + digits == lhs + ['$'] + digits;
    assert ',' !in digits by {
      forall j | 0 <= j < |digits| ensures digits[j] != ',' {
        assert SqlText.IsDigit(digits[j]);
      }
    }
    SqlText.SplitAtConcat(lhs, '$', digits);
    assert lhs[|lhs| - 3..] == " = " && lhs[..|lhs| - 3] == column;
    SqlText.ParseNatToString(k);
  }

  lemma SetEntryParses(column: string, i: nat)
    requires PlainName(column)
    ensures ',' !in SetEntry(column, i)
    ensures ParseSetEntry(SetEntry(column, i)) == Some((column, i + 2))
  {
    AssignmentParses(column, i + 2);
  }

  /** `format!("UPDATE {} SET {} WHERE {} = ${:?}", table, set, pk, pk_index + 1)`. */
  function UpdateStatement(table: string, setList: string, primaryKey: string, pkIndex: nat): string {
    "UPDATE " + table + " SET " + setList + " WHERE " + primaryKey + " = $" + SqlText.NatToString(pkIndex + 1)
  }

  /** Which datasource a generated query names: the literal `""` (the
      default datasource) or the method's `datasource_name` argument. */
  datatype DatasourceArg = DefaultDatasource | DatasourceArgument

  /** The body of a generated method. `params` are the struct fields bound
      as `&self.field`, in order. */
  datatype Body =
    | IssueQuery(stmt: string, params: seq<string>, datasource: DatasourceArg)
    | ReturnError(message: string)

  datatype GeneratedFn = GeneratedFn(name: string, body: Body)

  const UpdateUnsupported: string :=
    "You can't use the 'update' method on a CanyonEntity that does not have a #[primary_key] annotation. If you need to perform an specific search, use the Querybuilder instead."
  const UpdateDatasourceUnsupported: string :=
    "You can't use the 'update_datasource' method on a CanyonEntity that does not have a #[primary_key] annotation. If you need to perform an specific search, use the Querybuilder instead."

  /** `generate_update_tokens`: `update` and `update_datasource`. With a
      primary key both issue the same UPDATE with every field as a parameter,
      against `""` and against the argument; without one both only return an
      error. A primary key whose index cannot be found is a panic. */
  method GenerateUpdateTokens(
    table: string, updateColumns: seq<string>, fields: seq<string>,
    primaryKey: Option<string>, pkIndex: Option<nat>)
    returns (fns: seq<GeneratedFn>)
    requires primaryKey.Some? ==> pkIndex.Some?
    ensures |fns| == 2 && fns[0].name == "update" && fns[1].name == "update_datasource"
    ensures primaryKey.Some? ==>
      var stmt := UpdateStatement(table, SqlText.Join(SetEntries(updateColumns), ", "), primaryKey.value, pkIndex.value);
      fns[0].body == IssueQuery(stmt, fields, DefaultDatasource) &&
      fns[1].body == IssueQuery(stmt, fields, DatasourceArgument)
    ensures primaryKey.None? ==>
      fns[0].body == ReturnError(UpdateUnsupported) &&
      fns[1].body == ReturnError(UpdateDatasourceUnsupported)
  {
    var setList := SetList(updateColumns);
    match primaryKey {
      case Some(pk) =>
        var stmt := UpdateStatement(table, setList, pk, pkIndex.value);
        fns := [GeneratedFn("update", IssueQuery(stmt, fields, DefaultDatasource)),
                GeneratedFn("update_datasource", IssueQuery(stmt, fields, DatasourceArgument))];
      case None =>
        fns := [GeneratedFn("update", ReturnError(UpdateUnsupported)),
                GeneratedFn("update_datasource", ReturnError(UpdateDatasourceUnsupported))];
    }
  }

  /** What a generated `update` returns as its error: the query's own
      error, unchanged, or the boxed message (`into_inner` keeps the message
      and drops the `Unsupported` kind). */
  datatype UpdateError<E> = QueryFailed(queryError: E) | Message(text: string)

  /** A query the runtime is asked to execute. */
  datatype Call = Call(stmt: string, params: seq<string>, datasource: string)

  /** Running a generated body: the queries it issues and what it returns.
      `query` is `Transaction::query`; `argument` is the `datasource_name`
      passed to `update_datasource`. */
  function RunBody<R, E>(b: Body, argument: string, query: Call -> Result<R, E>): (r: (seq<Call>, Result<(), UpdateError<E>>))
    ensures b.IssueQuery? ==>
      var call := Call(b.stmt, b.params, if b.datasource == DefaultDatasource then "" else argument);
      r.0 == [call] &&
      (query(call).Ok? <==> r.1 == Ok(())) &&
      (query(call).Err? ==> r.1 == Err(QueryFailed(query(call).error)))
    ensures b.ReturnError? ==> r.0 == [] && r.1 == Err(Message(b.message))
  {
    match b
    case IssueQuery(stmt, params, ds) =>
      var call := Call(stmt, params, if ds == DefaultDatasource then "" else argument);
      (match query(call)
       case Ok(_) => ([call], Ok(()))
       case Err(e) => ([call], Err(QueryFailed(e))))
    case ReturnError(message) => ([], Err(Message(message)))
  }

  /** A builder function: `Query::generate(stmt, datasource)`. */
  datatype BuilderFn = BuilderFn(name: string, stmt: string, datasource: DatasourceArg)

  /** `generate_update_query_tokens`: `update_query` and
      `update_query_datasource` seed a query builder with `UPDATE {table}`,
      on `""` and on the argument respectively. */
  function GenerateUpdateQueryTokens(table: string): (fns: seq<BuilderFn>)
    ensures |fns| == 2 && fns[0].name == "update_query" && fns[1].name == "update_query_datasource"
    ensures fns[0].stmt == fns[1].stmt == "UPDATE " + table
    ensures fns[0].datasource == DefaultDatasource && fns[1].datasource == DatasourceArgument
  {
    var stmt := "UPDATE " + table;
    [BuilderFn("update_query", stmt, DefaultDatasource), BuilderFn("update_query_datasource", stmt, DatasourceArgument)]
  }

  /** The field a placeholder `$k` binds: parameters are numbered from 1. */
  function Bound(fields: seq<string>, k: nat): Option<string> {
    if 1 <= k <= |fields| then Some(fields[k - 1]) else None
  }

  /** The WHERE clause of the statement is `{pk} = ${pk_index + 1}`, and it
      reads back to the key and that placeholder number. */
  lemma WhereClauseParses(table: string, setList: string, primaryKey: string, pkIndex: nat)
    requires PlainName(primaryKey)
    ensures var whereTail := primaryKey + " = $" + SqlText.NatToString(pkIndex + 1);
      UpdateStatement(table, setList, primaryKey, pkIndex)
        == "UPDATE " + table + " SET " + setList + " WHERE " + whereTail &&
      ParseSetEntry(whereTail) == Some((primaryKey, pkIndex + 1))
  {
    AssignmentParses(primaryKey, pkIndex + 1);
  }

  /** When the primary key is the first field and the update columns are
      the remaining fields in order, every placeholder of the generated
      statement binds its own field: each SET entry, read back from the SET
      list, names a column and a placeholder that binds that column, and the
      WHERE clause `{pk} = ${pk_index + 1}` reads back to the key and a
      placeholder that binds the key. */
  lemma PlaceholdersBindWhenKeyFirst(
    table: string, updateColumns: seq<string>, fields: seq<string>,
    primaryKey: Option<string>, pkIndex: Option<nat>)
    requires |fields| > 0 && forall i :: 0 <= i < |fields| ==> PlainName(fields[i])
    requires primaryKey == Some(fields[0]) && pkIndex == Some(0) && updateColumns == fields[1..]
    ensures var entries := SqlText.SplitList(SqlText.Join(SetEntries(updateColumns), ", "));
      |updateColumns| > 0 ==>
        |entries| == |updateColumns| &&
        forall i :: 0 <= i < |entries| ==>
          ParseSetEntry(entries[i]).Some? &&
          Bound(fields, ParseSetEntry(entries[i]).value.1) == Some(ParseSetEntry(entries[i]).value.0)
    ensures var whereTail := primaryKey.value + " = $" + SqlText.NatToString(pkIndex.value + 1);
      var setList := SqlText.Join(SetEntries(updateColumns), ", ");
      UpdateStatement(table, setList, primaryKey.value, pkIndex.value)
        == "UPDATE " + table + " SET " + setList + " WHERE " + whereTail &&
      ParseSetEntry(whereTail).Some? &&
      ParseSetEntry(whereTail).value.0 == primaryKey.value &&
      Bound(fields, ParseSetEntry(whereTail).value.1) == primaryKey
  {
    forall i | 0 <= i < |updateColumns| ensures PlainName(updateColumns[i]) {
      assert updateColumns[i] == fields[i + 1];
    }
    SetListEntries(updateColumns);
    if |updateColumns| > 0 {
      var entries := SqlText.SplitList(SqlText.Join(SetEntries(updateColumns), ", "));
      forall i | 0 <= i < |entries|
        ensures ParseSetEntry(entries[i]).Some?
        ensures Bound(fields, ParseSetEntry(entries[i]).value.1) == Some(ParseSetEntry(entries[i]).value.0)
      {
        assert ParseSetEntry(entries[i]) == Some((updateColumns[i], i + 2));
        assert Bound(fields, i + 2) == Some(fields[i + 1]);
      }
    }
    WhereClauseParses(table, SqlText.Join(SetEntries(updateColumns), ", "), primaryKey.value, pkIndex.value);
    assert Bound(fields, pkIndex.value + 1) == primaryKey;
  }

  /** The SET numbering does not follow the key's position: for fields
      `column, key` with the key at index 1 and `column` as the update column
      (as in `name, id` keyed on `id`), the generated statement is
      `UPDATE t SET column = $2 WHERE key = $2`. Both placeholders read back
      as `$2`, which binds the key, so the SET entry writes the key's value. */
  lemma PlaceholdersMisbindWhenKeyNotFirst(table: string, column: string, key: string)
    requires PlainName(column) && PlainName(key) && column != key
    ensures var fields := [column, key];
      var setList := SqlText.Join(SetEntries([column]), ", ");
      var whereTail := key + " = $2";
      UpdateStatement(table, setList, key, 1) == "UPDATE " + table + " SET " + setList + " WHERE " + whereTail &&
      setList == column + " = $2" &&
      ParseSetEntry(setList) == Some((column, 2)) &&
      ParseSetEntry(whereTail) == Some((key, 2)) &&
      Bound(fields, 2) == Some(key) && Bound(fields, 2) != Some(column)
  {
    var two := SqlText.NatToString(2);
    assert two == "2";
    assert SetEntries([column]) == [SetEntry(column, 0)];
    var setList := SqlText.Join(SetEntries([column]), ", ");
    assert setList == column + " = $" + two == column + " = $2";
    SetEntryParses(column, 0);
    assert key + " = $" + two == key + " = $2";
    WhereClauseParses(table, setList, key, 1);
  }
}
