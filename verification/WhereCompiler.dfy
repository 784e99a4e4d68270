/**
 The SQLite adapter: `Where` lists compiled to positional-parameter SQL, and the guarded updates, deletes and
 reads built on them, proved against a reference meaning that knows nothing of SQL.
 */
module WhereCompiler {
  import opened Wrappers
  import opened Timestamps
  import opened Sql

  /** A `Where` of the adapter protocol. */
  datatype Condition = Compare(field: string, value: Value, op: Op) | Among(field: string, values: seq<Value>)

  // -- what a list of conditions means --------------------------------------------------------------------

  /** Numbers come before text; two numbers compare as such, and two texts character by character. */
  predicate Precedes(a: Value, b: Value) {
    || (a.Number? && b.Number? && a.n < b.n)
    || (a.Number? && b.Text?)
    || (a.Text? && b.Text? && Less(a.t, b.t))
  }

  predicate Relates(op: Op, a: Value, b: Value) {
    match op
    case Eq => a == b
    case Ne => a != b
    case Lt => Precedes(a, b)
    case Gt => Precedes(b, a)
  }

  /** The row has a value in the column, not NULL, that stands in the relation to a value that is not NULL either. */
  predicate Satisfies(row: Row, c: Condition) {
    && c.field in row && row[c.field] != Null
    && match c
       case Compare(field, value, op) => value != Null && Relates(op, row[field], value)
       case Among(field, values) => row[field] in values
  }

  predicate SatisfiesAll(row: Row, where: seq<Condition>) {
    forall i :: 0 <= i < |where| ==> Satisfies(row, where[i])
  }

  function Selected(table: seq<Row>, where: seq<Condition>): seq<Row> {
    if table == [] then []
    else if SatisfiesAll(table[0], where) then [table[0]] + Selected(table[1..], where)
    else Selected(table[1..], where)
  }

  function Unselected(table: seq<Row>, where: seq<Condition>): seq<Row> {
    if table == [] then []
    else if SatisfiesAll(table[0], where) then Unselected(table[1..], where)
    else [table[0]] + Unselected(table[1..], where)
  }

  lemma AtTheEnd(before: seq<Row>, row: Row)
    requires before != []
    ensures (before + [row])[0] == before[0] && (before + [row])[1..] == before[1..] + [row]
  {
  }

  lemma InFront(first: Row, a: seq<Row>, b: seq<Row>)
    ensures [first] + (a + b) == [first] + a + b
  {
  }

  /** The selected rows of a table are those that satisfy every condition, in their order. */
  lemma {:induction false} SelectedRows(before: seq<Row>, row: Row, where: seq<Condition>)
    ensures Selected(before + [row], where) ==
      Selected(before, where) + if SatisfiesAll(row, where) then [row] else []
  {
    if before == [] {
      assert before + [row] == [row] && [row][1..] == [];
    } else {
      AtTheEnd(before, row);
      SelectedRows(before[1..], row, where);
      InFront(before[0], Selected(before[1..], where), if SatisfiesAll(row, where) then [row] else []);
    }
  }

  /** The rows that a delete leaves are the others, in their order. */
  lemma {:induction false} UnselectedRows(before: seq<Row>, row: Row, where: seq<Condition>)
    ensures Unselected(before + [row], where) ==
      Unselected(before, where) + if SatisfiesAll(row, where) then [] else [row]
  {
    if before == [] {
      assert before + [row] == [row] && [row][1..] == [];
    } else {
      AtTheEnd(before, row);
      UnselectedRows(before[1..], row, where);
      InFront(before[0], Unselected(before[1..], where), if SatisfiesAll(row, where) then [] else [row]);
    }
  }

  predicate LastForItsColumn(data: Assignments, i: nat)
    requires i < |data|
  {
    forall j :: i < j < |data| ==> data[j].0 != data[i].0
  }

  predicate Unnamed(data: Assignments, field: string) {
    forall i :: 0 <= i < |data| ==> data[i].0 != field
  }

  /**
   `z` is `row` with the assignments made: a column holds what the last assignment to it says, and a column that none
   of them names is as it was.
   */
  ghost predicate Written(row: Row, data: Assignments, z: Row) {
    && (forall i :: 0 <= i < |data| && LastForItsColumn(data, i) ==> data[i].0 in z && z[data[i].0] == data[i].1)
    && (forall field :: Unnamed(data, field) ==>
          (field in z <==> field in row) && (field in row ==> z[field] == row[field]))
  }

  lemma LaterAssignment(data: Assignments, i: nat)
    requires 0 < i < |data| && LastForItsColumn(data, i)
    ensures LastForItsColumn(data[1..], i - 1) && data[1..][i - 1] == data[i]
  {
  }

  lemma FirstAssignment(data: Assignments, field: string)
    requires data != []
    ensures LastForItsColumn(data, 0) ==> Unnamed(data[1..], data[0].0)
    ensures Unnamed(data, field) ==> Unnamed(data[1..], field) && data[0].0 != field
  {
    forall j | 0 <= j < |data| - 1 ensures data[1..][j] == data[j + 1] {}
  }

  lemma {:induction false} AssignWrites(row: Row, data: Assignments)
    ensures Written(row, data, Assign(row, data))
    decreases |data|
  {
    if data != [] {
      var rest, first := data[1..], row[data[0].0 := data[0].1];
      AssignWrites(first, rest);
      var z := Assign(first, rest);
      forall i | 0 <= i < |data| && LastForItsColumn(data, i)
        ensures data[i].0 in z && z[data[i].0] == data[i].1
      {
        if i > 0 { LaterAssignment(data, i); } else { FirstAssignment(data, data[0].0); }
      }
      forall field | Unnamed(data, field)
        ensures (field in z <==> field in row) && (field in row ==> z[field] == row[field])
      {
        FirstAssignment(data, field);
      }
    }
  }

  /** Exactly the satisfying rows are written, each in its place. */
  ghost predicate WrittenWhere(table: seq<Row>, where: seq<Condition>, data: Assignments, z: seq<Row>) {
    && |z| == |table|
    && forall i :: 0 <= i < |table| ==>
         if SatisfiesAll(table[i], where) then Written(table[i], data, z[i]) else z[i] == table[i]
  }

  function Updated(table: seq<Row>, where: seq<Condition>, data: Assignments): (r: seq<Row>)
    ensures |r| == |table|
    ensures forall i :: 0 <= i < |r| ==>
      r[i] == if SatisfiesAll(table[i], where) then Assign(table[i], data) else table[i]
  {
    seq(|table|, i requires 0 <= i < |table| =>
      if SatisfiesAll(table[i], where) then Assign(table[i], data) else table[i])
  }

  lemma UpdatedIsWritten(table: seq<Row>, where: seq<Condition>, data: Assignments)
    ensures WrittenWhere(table, where, data, Updated(table, where, data))
  {
    forall i | 0 <= i < |table| && SatisfiesAll(table[i], where)
      ensures Written(table[i], data, Updated(table, where, data)[i])
    {
      AssignWrites(table[i], data);
    }
  }

  // -- the compiler -------------------------------------------------------------------------------------------

  /** `", ".join("?" * n)` and the closing bracket. */
  function Placeholders(n: nat): seq<Token> {
    if n == 0 then [Close] else if n == 1 then [Placeholder, Close] else [Placeholder, Comma] + Placeholders(n - 1)
  }

  function Clause(c: Condition): seq<Token> {
    match c
    case Compare(field, _, op) => [Column(field), Operator(op), Placeholder]
    case Among(field, values) => [Column(field), In, Open] + Placeholders(|values|)
  }

  function ClauseParams(c: Condition): seq<Value> {
    match c
    case Compare(_, value, _) => [value]
    case Among(_, values) => values
  }

  function Params(where: seq<Condition>): seq<Value> {
    if where == [] then [] else Params(where[..|where| - 1]) + ClauseParams(where[|where| - 1])
  }

  function JoinAnd(clauses: seq<seq<Token>>): seq<Token>
    requires clauses != []
  {
    if |clauses| == 1 then clauses[0] else clauses[0] + [And] + JoinAnd(clauses[1..])
  }

  function Clauses(where: seq<Condition>): (r: seq<seq<Token>>)
    ensures |r| == |where|
  {
    seq(|where|, i requires 0 <= i < |where| => Clause(where[i]))
  }

  function WhereTokens(where: seq<Condition>): seq<Token> {
    if where == [] then [] else [Where] + JoinAnd(Clauses(where))
  }

  datatype Error = UnknownIdentifier | Syntax

  type Models = map<string, set<string>>

  /** `_validate` */
  predicate Recognized(models: Models, model: string, fields: seq<string>) {
    model in models && forall i :: 0 <= i < |fields| ==> fields[i] in models[model]
  }

  function Fields(where: seq<Condition>): seq<string> {
    seq(|where|, i requires 0 <= i < |where| => where[i].field)
  }

  /** A sort column with its direction. */
  type Sort = (string, bool)

  /** The model exists, and every column that a call names is one of its own. */
  ghost predicate NamesColumns(
      models: Models, model: string, where: seq<Condition>, data: Assignments, sort: Option<Sort>) {
    && model in models
    && (forall i :: 0 <= i < |where| ==> where[i].field in models[model])
    && (forall i :: 0 <= i < |data| ==> data[i].0 in models[model])
    && (sort.Some? ==> sort.value.0 in models[model])
  }

  /** `_where_sql`: clauses and parameters gathered side by side. */
  method WhereSql(models: Models, model: string, where: seq<Condition>)
    returns (r: Result<(seq<Token>, seq<Value>), Error>)
    ensures r == if NamesColumns(models, model, where, [], None) then Ok((WhereTokens(where), Params(where)))
      else Err(UnknownIdentifier)
  {
    assert NamesColumns(models, model, where, [], None) <==> Recognized(models, model, Fields(where)) by {
      assert forall i :: 0 <= i < |where| ==> Fields(where)[i] == where[i].field;
    }
    if !Recognized(models, model, Fields(where)) { return Err(UnknownIdentifier); }
    if where == [] { return Ok(([], [])); }
    var clauses: seq<seq<Token>> := [];
    var params: seq<Value> := [];
    for i := 0 to |where|
      invariant clauses == Clauses(where)[..i]
      invariant params == Params(where[..i])
    {
      assert where[..i + 1][..i] == where[..i];
      var w := where[i];
      if w.Among? {
        clauses := clauses + [[Column(w.field), In, Open] + Placeholders(|w.values|)];
        params := params + w.values;
      } else {
        clauses := clauses + [[Column(w.field), Operator(w.op), Placeholder]];
        params := params + [w.value];
      }
    }
    assert where[..|where|] == where && clauses == Clauses(where);
    return Ok(([Where] + JoinAnd(clauses), params));
  }

  // -- the compiled clause means the conditions ----------------------------------------------------------------

  function ClauseTruth(c: Condition, row: Row): Truth {
    match c
    case Compare(field, value, op) => Comparison(op, Lookup(row, field), value)
    case Among(field, values) => Membership(Lookup(row, field), values)
  }

  lemma {:induction false} ListIsRead(values: seq<Value>, tokens: seq<Token>, params: seq<Value>)
    requires values != []
    ensures ReadList(Placeholders(|values|) + tokens, values + params) == Some(Rest(values, tokens, params))
  {
    var text := Placeholders(|values|) + tokens;
    assert (values + params)[1..] == values[1..] + params;
    if |values| == 1 {
      assert text[2..] == tokens;
      assert values == [values[0]];
    } else {
      ListIsRead(values[1..], tokens, params);
      assert text[2..] == Placeholders(|values| - 1) + tokens;
      assert values == [values[0]] + values[1..];
    }
  }

  lemma ComparisonIsRead(field: string, op: Op, value: Value, row: Row, tokens: seq<Token>, params: seq<Value>)
    ensures ReadCondition([Column(field), Operator(op), Placeholder] + tokens, [value] + params, row) ==
      Some(Rest(Comparison(op, Lookup(row, field), value), tokens, params))
  {
    assert ([Column(field), Operator(op), Placeholder] + tokens)[3..] == tokens;
    assert ([value] + params)[1..] == params;
  }

  lemma EmptyListIsRead(field: string, row: Row, tokens: seq<Token>, params: seq<Value>)
    ensures ReadCondition([Column(field), In, Open, Close] + tokens, params, row) == Some(Rest(False, tokens, params))
  {
    assert ([Column(field), In, Open, Close] + tokens)[4..] == tokens;
  }

  lemma MembershipIsRead(field: string, list: seq<Token>, params: seq<Value>, row: Row, read: Rest<seq<Value>>)
    requires list != [] && list[0] == Placeholder && ReadList(list, params) == Some(read)
    ensures ReadCondition([Column(field), In, Open] + list, params, row) ==
      Some(Rest(Membership(Lookup(row, field), read.got), read.tokens, read.params))
  {
    assert ([Column(field), In, Open] + list)[3..] == list;
  }

  lemma AmongIsRead(field: string, values: seq<Value>, row: Row, tokens: seq<Token>, params: seq<Value>)
    requires values != []
    ensures ReadCondition([Column(field), In, Open] + (Placeholders(|values|) + tokens), values + params, row) ==
      Some(Rest(Membership(Lookup(row, field), values), tokens, params))
  {
    var list := Placeholders(|values|) + tokens;
    ListIsRead(values, tokens, params);
    FirstPlaceholder(|values|, tokens);
    MembershipIsRead(field, list, values + params, row, Rest(values, tokens, params));
  }

  lemma FirstPlaceholder(n: nat, tokens: seq<Token>)
    requires n > 0
    ensures (Placeholders(n) + tokens)[0] == Placeholder
  {}

  lemma ClauseIsRead(c: Condition, row: Row, tokens: seq<Token>, params: seq<Value>)
    ensures ReadCondition(Clause(c) + tokens, ClauseParams(c) + params, row) ==
      Some(Rest(ClauseTruth(c, row), tokens, params))
  {
    match c
    case Compare(field, value, op) => ComparisonIsRead(field, op, value, row, tokens, params);
    case Among(field, values) =>
      if values == [] {
        EmptyListIsRead(field, row, tokens, params);
        assert values + params == params;
      } else {
        AmongIsRead(field, values, row, tokens, params);
        assert Clause(c) + tokens == [Column(field), In, Open] + (Placeholders(|values|) + tokens);
      }
  }

  /** All conditions of a list at once, from the first on. */
  function ListTruth(where: seq<Condition>, row: Row): Truth
    requires where != []
  {
    if |where| == 1 then ClauseTruth(where[0], row)
    else Conjunction(ClauseTruth(where[0], row), ListTruth(where[1..], row))
  }

  lemma {:induction false} ParamsFromTheFront(where: seq<Condition>)
    requires where != []
    ensures Params(where) == ClauseParams(where[0]) + Params(where[1..])
  {
    var n := |where| - 1;
    if n > 0 {
      ParamsFromTheFront(where[..n]);
      assert where[..n][1..] == where[1..][..n - 1];
    }
  }

  lemma JoinFromTheFront(where: seq<Condition>, tokens: seq<Token>)
    requires |where| > 1
    ensures JoinAnd(Clauses(where)) + tokens == Clause(where[0]) + ([And] + (JoinAnd(Clauses(where[1..])) + tokens))
  {
    assert Clauses(where)[1..] == Clauses(where[1..]);
  }

  lemma ReadConditionsStep(
      tokens: seq<Token>, params: seq<Value>, row: Row, first: Truth, rest: seq<Token>, left: seq<Value>)
    requires ReadCondition(tokens, params, row) == Some(Rest(first, [And] + rest, left))
    ensures var more := ReadConditions(rest, left, row);
      ReadConditions(tokens, params, row) ==
        if more.None? then None
        else Some(Rest(Conjunction(first, more.value.got), more.value.tokens, more.value.params))
  {
    assert ([And] + rest)[1..] == rest;
  }

  lemma {:induction false} ListTruthIsRead(where: seq<Condition>, row: Row, tokens: seq<Token>, params: seq<Value>)
    requires where != [] && (tokens == [] || tokens[0] != And)
    ensures ReadConditions(JoinAnd(Clauses(where)) + tokens, Params(where) + params, row) ==
      Some(Rest(ListTruth(where, row), tokens, params))
  {
    ParamsFromTheFront(where);
    var first, rest := where[0], where[1..];
    assert Params(where) + params == ClauseParams(first) + (Params(rest) + params);
    if |where| == 1 {
      ClauseIsRead(first, row, tokens, Params(rest) + params);
      assert Params(rest) + params == params;
    } else {
      var more := JoinAnd(Clauses(rest)) + tokens;
      JoinFromTheFront(where, tokens);
      ClauseIsRead(first, row, [And] + more, Params(rest) + params);
      ReadConditionsStep(
        Clause(first) + ([And] + more), ClauseParams(first) + (Params(rest) + params), row,
        ClauseTruth(first, row), more, Params(rest) + params);
      ListTruthIsRead(rest, row, tokens, params);
    }
  }

  lemma {:induction false} MembershipIsIn(x: Value, values: seq<Value>)
    ensures Membership(x, values).True? <==> !x.Null? && x in values
  {
    if values != [] { MembershipIsIn(x, values[1..]); }
  }

  lemma HoldsAsRelated(op: Op, a: Value, b: Value)
    ensures !a.Null? && !b.Null? ==> (Holds(op, a, b) <==> Relates(op, a, b))
  {
  }

  lemma {:induction false} ListTruthIsSatisfaction(where: seq<Condition>, row: Row)
    requires where != []
    ensures ListTruth(where, row).True? <==> SatisfiesAll(row, where)
  {
    if where[0].Among? {
      MembershipIsIn(Lookup(row, where[0].field), where[0].values);
    } else {
      HoldsAsRelated(where[0].op, Lookup(row, where[0].field), where[0].value);
    }
    assert ClauseTruth(where[0], row).True? <==> Satisfies(row, where[0]);
    if |where| > 1 {
      ListTruthIsSatisfaction(where[1..], row);
      assert SatisfiesAll(row, where) <==> Satisfies(row, where[0]) && SatisfiesAll(row, where[1..]) by {
        assert forall i :: 1 <= i < |where| ==> where[i] == where[1..][i - 1];
      }
    }
  }

  /** What a generated clause leaves behind, and when it is true: exactly on the rows that satisfy every condition. */
  lemma WhereIsRead(where: seq<Condition>, row: Row, tokens: seq<Token>, params: seq<Value>)
    requires tokens == [] || (tokens[0] != And && tokens[0] != Where)
    ensures var r := ReadWhere(WhereTokens(where) + tokens, Params(where) + params, row);
      && r.Some? && r.value.tokens == tokens && r.value.params == params
      && (r.value.got.True? <==> SatisfiesAll(row, where))
  {
    if where == [] {
      assert WhereTokens(where) + tokens == tokens && Params(where) + params == params;
    } else {
      var conditions := JoinAnd(Clauses(where)) + tokens;
      assert WhereTokens(where) + tokens == [Where] + conditions;
      WhereStep(conditions, Params(where) + params, row);
      ListTruthIsRead(where, row, tokens, params);
      ListTruthIsSatisfaction(where, row);
    }
  }

  lemma WhereStep(conditions: seq<Token>, params: seq<Value>, row: Row)
    ensures ReadWhere([Where] + conditions, params, row) == ReadConditions(conditions, params, row)
  {
    assert ([Where] + conditions)[1..] == conditions;
  }

  /** For every list of conditions and every row, NULLs and empty `in` lists included. */
  lemma WhereMeansItsConditions(where: seq<Condition>, row: Row)
    ensures Selects(WhereTokens(where), Params(where), row) == Some(SatisfiesAll(row, where))
  {
    WhereIsRead(where, row, [], []);
    assert WhereTokens(where) + [] == WhereTokens(where) && Params(where) + [] == Params(where);
  }

  // -- whole statements ---------------------------------------------------------------------------------------

  function AssignmentTokens(data: Assignments): seq<Token>
    requires data != []
  {
    var first := [Column(data[0].0), Operator(Eq), Placeholder];
    if |data| == 1 then first else first + [Comma] + AssignmentTokens(data[1..])
  }

  function DataValues(data: Assignments): seq<Value> {
    seq(|data|, i requires 0 <= i < |data| => data[i].1)
  }

  lemma {:induction false} AssignmentsAreRead(data: Assignments, tokens: seq<Token>, params: seq<Value>)
    requires data != [] && (tokens == [] || tokens[0] != Comma)
    ensures ReadAssignments(AssignmentTokens(data) + tokens, DataValues(data) + params) ==
      Some(Rest(data, tokens, params))
  {
    var text := AssignmentTokens(data) + tokens;
    assert (DataValues(data) + params)[1..] == DataValues(data[1..]) + params;
    if |data| == 1 {
      assert text[3..] == tokens;
      assert DataValues(data[1..]) + params == params;
      assert data == [(data[0].0, data[0].1)];
    } else {
      AssignmentsAreRead(data[1..], tokens, params);
      assert text[4..] == AssignmentTokens(data[1..]) + tokens;
      assert data == [data[0]] + data[1..];
    }
  }

  lemma UpdatedFromTheFront(where: seq<Condition>, data: Assignments, table: seq<Row>)
    requires table != []
    ensures Updated(table, where, data) ==
      [if SatisfiesAll(table[0], where) then Assign(table[0], data) else table[0]] + Updated(table[1..], where, data)
  {
  }

  lemma {:induction false} UpdateRowsMeans(where: seq<Condition>, data: Assignments, table: seq<Row>)
    ensures UpdateRows(data, WhereTokens(where), Params(where), table) ==
      Some((Updated(table, where, data), |Selected(table, where)|))
  {
    if table != [] {
      WhereMeansItsConditions(where, table[0]);
      UpdateRowsMeans(where, data, table[1..]);
      UpdatedFromTheFront(where, data, table);
    }
  }

  /**
   `UPDATE`: assignment and condition parameters never cross, every assignment is made on every satisfying row and on
   no other, and the count is the number of satisfying rows.
   */
  lemma UpdateMeans(where: seq<Condition>, data: Assignments, table: seq<Row>)
    requires data != []
    ensures var r := RunUpdate(AssignmentTokens(data) + WhereTokens(where), DataValues(data) + Params(where), table);
      r.Some? && WrittenWhere(table, where, data, r.value.0) && r.value.1 == |Selected(table, where)|
  {
    AssignmentsAreRead(data, WhereTokens(where), Params(where));
    UpdateRowsMeans(where, data, table);
    UpdatedIsWritten(table, where, data);
  }

  /** One row of a delete, given what its condition is and what the rest becomes. */
  lemma DeleteFirst(where: seq<Condition>, table: seq<Row>)
    requires table != [] && Selects(WhereTokens(where), Params(where), table[0]) == Some(SatisfiesAll(table[0], where))
    ensures var more := RunDelete(WhereTokens(where), Params(where), table[1..]);
      RunDelete(WhereTokens(where), Params(where), table) ==
        if more.None? then None
        else if SatisfiesAll(table[0], where) then Some((more.value.0, 1 + more.value.1))
        else Some(([table[0]] + more.value.0, more.value.1))
  {
  }

  lemma {:induction false} DeleteMeans(where: seq<Condition>, table: seq<Row>)
    ensures RunDelete(WhereTokens(where), Params(where), table) ==
      Some((Unselected(table, where), |Selected(table, where)|))
  {
    if table != [] {
      WhereMeansItsConditions(where, table[0]);
      DeleteMeans(where, table[1..]);
      DeleteFirst(where, table);
    }
  }

  lemma {:induction false} FilterMeans(where: seq<Condition>, table: seq<Row>, tokens: seq<Token>, params: seq<Value>)
    requires tokens == [] || (tokens[0] != And && tokens[0] != Where)
    ensures Filter(WhereTokens(where) + tokens, Params(where) + params, table) == Some(Selected(table, where))
  {
    if table != [] {
      WhereIsRead(where, table[0], tokens, params);
      FilterMeans(where, table[1..], tokens, params);
    }
  }

  function Tail(sort: Option<Sort>, limit: Option<int>): seq<Token> {
    (if sort.Some? then [OrderBy, Column(sort.value.0), Direction(sort.value.1)] else []) +
    (if limit.Some? then [Limit, Placeholder] else [])
  }

  function TailParams(limit: Option<int>): seq<Value> {
    if limit.Some? then [Number(limit.value)] else []
  }

  function Found(table: seq<Row>, where: seq<Condition>, sorter: Sorter, sort: Option<Sort>, limit: Option<int>)
    : seq<Row>
  {
    var rows := Selected(table, where);
    var sorted := if sort.Some? then sorter(sort.value.0, sort.value.1, rows) else rows;
    if limit.Some? && 0 <= limit.value < |sorted| then sorted[..limit.value] else sorted
  }

  /** `SELECT`: the limit is bound last, and reaches the `LIMIT`. */
  lemma SelectMeans(where: seq<Condition>, table: seq<Row>, sorter: Sorter, sort: Option<Sort>, limit: Option<int>)
    ensures RunSelect(WhereTokens(where) + Tail(sort, limit), Params(where) + TailParams(limit), sorter, table) ==
      Some(Found(table, where, sorter, sort, limit))
  {
    FilterMeans(where, table, Tail(sort, limit), TailParams(limit));
    WhereIsRead(where, map[], Tail(sort, limit), TailParams(limit));
    TailShapes(Selected(table, where), sorter, sort, limit);
  }

  lemma TailShapes(rows: seq<Row>, sorter: Sorter, sort: Option<Sort>, limit: Option<int>)
    ensures var sorted := if sort.Some? then sorter(sort.value.0, sort.value.1, rows) else rows;
      Shape(Tail(sort, limit), TailParams(limit), sorter, rows) ==
        Some(if limit.Some? then TakeLimit(sorted, limit.value) else sorted)
  {
    if sort.Some? {
      assert Tail(sort, limit)[3..] == if limit.Some? then [Limit, Placeholder] else [];
    }
  }

  // -- the adapter ----------------------------------------------------------------------------------------------

  function DataFields(data: Assignments): seq<string> {
    seq(|data|, i requires 0 <= i < |data| => data[i].0)
  }

  class SqliteAdapter {
    const models: Models
    const sorter: Sorter
    var tables: map<string, seq<Row>>

    ghost predicate Valid()
      reads this
    {
      models.Keys == tables.Keys
    }

    constructor (models: Models, sorter: Sorter)
      ensures Valid() && this.models == models && this.sorter == sorter
      ensures forall m :: m in models ==> tables[m] == []
    {
      this.models := models;
      this.sorter := sorter;
      tables := map m | m in models :: [];
    }

    method FindMany(model: string, where: seq<Condition>, limit: Option<int>, sort: Option<Sort>)
      returns (r: Result<seq<Row>, Error>)
      requires Valid()
      ensures r ==
        if NamesColumns(models, model, where, [], sort) then Ok(Found(tables[model], where, sorter, sort, limit))
        else Err(UnknownIdentifier)
    {
      var compiled := WhereSql(models, model, where);
      if compiled.Err? { return Err(compiled.error); }
      var sql, params := compiled.value.0, compiled.value.1;
      if sort.Some? {
        if sort.value.0 !in models[model] { return Err(UnknownIdentifier); }
        sql := sql + [OrderBy, Column(sort.value.0), Direction(sort.value.1)];
      }
      if limit.Some? {
        sql := sql + [Limit, Placeholder];
        params := params + [Number(limit.value)];
      }
      SelectMeans(where, tables[model], sorter, sort, limit);
      assert sql == WhereTokens(where) + Tail(sort, limit) && params == Params(where) + TailParams(limit);
      return Ok(RunSelect(sql, params, sorter, tables[model]).value);
    }

    /** `find_one`: the first satisfying row, if there is one. */
    method FindOne(model: string, where: seq<Condition>) returns (r: Result<Option<Row>, Error>)
      requires Valid()
      ensures r == if !NamesColumns(models, model, where, [], None) then Err(UnknownIdentifier)
        else if Selected(tables[model], where) == [] then Ok(None)
        else Ok(Some(Selected(tables[model], where)[0]))
    {
      var rows := FindMany(model, where, Some(1), None);
      match rows
      case Err(e) => return Err(e);
      case Ok(found) => return Ok(if found == [] then None else Some(found[0]));
    }

    /** An empty assignment list is a syntax error in SQL. */
    method UpdateMany(model: string, where: seq<Condition>, data: Assignments) returns (r: Result<nat, Error>)
      requires Valid()
      modifies this
      ensures Valid()
      ensures r ==
        if !NamesColumns(models, model, where, data, None) then Err(UnknownIdentifier)
        else if data == [] then Err(Syntax)
        else Ok(|Selected(old(tables)[model], where)|)
      ensures r.Ok? ==>
        && WrittenWhere(old(tables)[model], where, data, tables[model])
        && tables == old(tables)[model := tables[model]]
      ensures r.Err? ==> tables == old(tables)
    {
      assert Recognized(models, model, DataFields(data)) <==> NamesColumns(models, model, [], data, None) by {
        assert forall i :: 0 <= i < |data| ==> DataFields(data)[i] == data[i].0;
      }
      if !Recognized(models, model, DataFields(data)) { return Err(UnknownIdentifier); }
      var compiled := WhereSql(models, model, where);
      if compiled.Err? { return Err(compiled.error); }
      if data == [] { return Err(Syntax); }
      var sql := AssignmentTokens(data) + compiled.value.0;
      var params := DataValues(data) + compiled.value.1;
      UpdateMeans(where, data, tables[model]);
      var done := RunUpdate(sql, params, tables[model]).value;
      tables := tables[model := done.0];
      return Ok(done.1);
    }

    method Delete(model: string, where: seq<Condition>) returns (r: Result<nat, Error>)
      requires Valid()
      modifies this
      ensures Valid()
      ensures r == if NamesColumns(models, model, where, [], None) then Ok(|Selected(old(tables)[model], where)|)
        else Err(UnknownIdentifier)
      ensures tables == if r.Ok? then old(tables)[model := Unselected(old(tables)[model], where)] else old(tables)
    {
      var compiled := WhereSql(models, model, where);
      if compiled.Err? { return Err(compiled.error); }
      DeleteMeans(where, tables[model]);
      var done := RunDelete(compiled.value.0, compiled.value.1, tables[model]).value;
      tables := tables[model := done.0];
      return Ok(done.1);
    }

    /** `update` re-reads with the same conditions, so it returns None when the update made them false. */
    method Update(model: string, where: seq<Condition>, data: Assignments) returns (r: Result<Option<Row>, Error>)
      requires Valid()
      modifies this
      ensures Valid()
      ensures r.Ok? <==> NamesColumns(models, model, where, data, None) && data != []
      ensures r == Err(Syntax) <==> NamesColumns(models, model, where, data, None) && data == []
      ensures r.Ok? ==>
        && WrittenWhere(old(tables)[model], where, data, tables[model])
        && tables == old(tables)[model := tables[model]]
      ensures r.Ok? ==> var now := Selected(tables[model], where); r == Ok(if now == [] then None else Some(now[0]))
      ensures r.Err? ==> tables == old(tables)
    {
      var changed := UpdateMany(model, where, data);
      if changed.Err? { return Err(changed.error); }
      r := FindOne(model, where);
    }
  }

  // -- guarded transitions ----------------------------------------------------------------------------------------

  /** No two rows share a non-null value in this column. */
  ghost predicate UniqueColumn(table: seq<Row>, field: string) {
    forall i, j :: 0 <= i < j < |table| && !Lookup(table[i], field).Null? ==>
      Lookup(table[i], field) != Lookup(table[j], field)
  }

  /** A compare-and-set addressed by a unique column changes at most one row, so its count tells who won. */
  lemma {:induction false} GuardedUpdateCount(table: seq<Row>, where: seq<Condition>, i: nat)
    requires i < |where| && where[i].Compare? && where[i].op == Eq && UniqueColumn(table, where[i].field)
    ensures |Selected(table, where)| <= 1
    ensures |Selected(table, where)| == 1 <==> exists k :: 0 <= k < |table| && SatisfiesAll(table[k], where)
  {
    if table != [] {
      var rest := table[1..];
      GuardedUpdateCount(rest, where, i);
      assert forall k :: 0 <= k < |rest| ==> rest[k] == table[k + 1];
      if SatisfiesAll(table[0], where) {
        assert Satisfies(table[0], where[i]);
        forall k | 0 <= k < |rest| ensures !SatisfiesAll(rest[k], where) {
          assert Lookup(table[k + 1], where[i].field) != Lookup(table[0], where[i].field);
          assert !Satisfies(rest[k], where[i]);
        }
      } else {
        assert forall k :: 0 <= k < |table| && SatisfiesAll(table[k], where) ==>
          k > 0 && SatisfiesAll(rest[k - 1], where);
      }
    }
  }
}
