/**
 The SQL the adapter writes, as tokens, and what a database makes of it: placeholders take the parameters from
 left to right, and conditions are three-valued.
 */
module Sql {
  import opened Wrappers
  import opened Timestamps

  datatype Value = Null | Number(n: int) | Text(t: string)

  /** A row of a table by column name. */
  type Row = map<string, Value>

  datatype Op = Eq | Ne | Lt | Gt

  datatype Token =
    | Column(name: string) | Operator(op: Op) | Placeholder | In | Open | Close | Comma | And | Where | Set
    | OrderBy | Direction(descending: bool) | Limit

  datatype Truth = True | False | Unknown

  function Known(b: bool): Truth { if b then True else False }

  // -- operators ------------------------------------------------------------------------------------------

  /** Storage-class order: numbers before text, text by its bytes. */
  predicate Before(a: Value, b: Value)
    requires !a.Null? && !b.Null?
  {
    if a.Number? then b.Text? || a.n < b.n else b.Text? && Less(a.t, b.t)
  }

  predicate Holds(op: Op, a: Value, b: Value)
    requires !a.Null? && !b.Null?
  {
    match op
    case Eq => a == b
    case Ne => a != b
    case Lt => Before(a, b)
    case Gt => Before(b, a)
  }

  /** A comparison with NULL is unknown. */
  function Comparison(op: Op, a: Value, b: Value): Truth {
    if a.Null? || b.Null? then Unknown else Known(Holds(op, a, b))
  }

  /** `IN` over a list: false on the empty list even for NULL, otherwise the disjunction of equalities. */
  function Membership(a: Value, values: seq<Value>): Truth {
    if values == [] then False else Or(Comparison(Eq, a, values[0]), Membership(a, values[1..]))
  }

  function Or(a: Truth, b: Truth): Truth {
    if a.True? || b.True? then True else if a.False? && b.False? then False else Unknown
  }

  function Conjunction(a: Truth, b: Truth): Truth {
    if a.False? || b.False? then False else if a.True? && b.True? then True else Unknown
  }

  function Lookup(row: Row, field: string): Value { if field in row then row[field] else Null }

  // -- reading a statement ----------------------------------------------------------------------------------

  /** A part that was read, with the tokens and the parameters that are left. */
  datatype Rest<T> = Rest(got: T, tokens: seq<Token>, params: seq<Value>)

  /** `? , ? , ... )` */
  function ReadList(tokens: seq<Token>, params: seq<Value>): (r: Option<Rest<seq<Value>>>)
    ensures r.Some? ==> |r.value.tokens| < |tokens|
  {
    if |tokens| < 2 || tokens[0] != Placeholder || params == [] then None
    else if tokens[1] == Close then Some(Rest([params[0]], tokens[2..], params[1..]))
    else if tokens[1] != Comma then None
    else
      match ReadList(tokens[2..], params[1..])
      case Some(more) => Some(Rest([params[0]] + more.got, more.tokens, more.params))
      case None => None
  }

  /** One condition on a row: a comparison with a placeholder, or `IN` over a possibly empty list of them. */
  function ReadCondition(tokens: seq<Token>, params: seq<Value>, row: Row): (r: Option<Rest<Truth>>)
    ensures r.Some? ==> |r.value.tokens| < |tokens|
  {
    if |tokens| < 3 || !tokens[0].Column? then None
    else if tokens[1].Operator? && tokens[2] == Placeholder && params != [] then
      Some(Rest(Comparison(tokens[1].op, Lookup(row, tokens[0].name), params[0]), tokens[3..], params[1..]))
    else if tokens[1] == In && tokens[2] == Open then
      if |tokens| > 3 && tokens[3] == Close then Some(Rest(False, tokens[4..], params))
      else (
        match ReadList(tokens[3..], params)
        case Some(list) => Some(Rest(Membership(Lookup(row, tokens[0].name), list.got), list.tokens, list.params))
        case None => None
      )
    else None
  }

  function ReadConditions(tokens: seq<Token>, params: seq<Value>, row: Row): Option<Rest<Truth>>
    decreases |tokens|
  {
    match ReadCondition(tokens, params, row)
    case None => None
    case Some(first) =>
      if first.tokens == [] || first.tokens[0] != And then Some(first)
      else
        match ReadConditions(first.tokens[1..], first.params, row)
        case Some(more) => Some(Rest(Conjunction(first.got, more.got), more.tokens, more.params))
        case None => None
  }

  /** An optional `WHERE`. */
  function ReadWhere(tokens: seq<Token>, params: seq<Value>, row: Row): Option<Rest<Truth>> {
    if tokens == [] || tokens[0] != Where then Some(Rest(True, tokens, params))
    else ReadConditions(tokens[1..], params, row)
  }

  type Assignments = seq<(string, Value)>

  /** `"a" = ? , "b" = ?` */
  function ReadAssignments(tokens: seq<Token>, params: seq<Value>): Option<Rest<Assignments>>
    decreases |tokens|
  {
    if |tokens| < 3 || !tokens[0].Column? || tokens[1] != Operator(Eq) || tokens[2] != Placeholder || params == [] then
      None
    else
      var first := (tokens[0].name, params[0]);
      if |tokens| == 3 || tokens[3] != Comma then Some(Rest([first], tokens[3..], params[1..]))
      else
        match ReadAssignments(tokens[4..], params[1..])
        case Some(more) => Some(Rest([first] + more.got, more.tokens, more.params))
        case None => None
  }

  // -- running a statement ------------------------------------------------------------------------------------

  /** A row is selected when its condition is true; leftover tokens or parameters are an error. */
  function Selects(tokens: seq<Token>, params: seq<Value>, row: Row): Option<bool> {
    match ReadWhere(tokens, params, row)
    case Some(r) => if r.tokens == [] && r.params == [] then Some(r.got.True?) else None
    case None => None
  }

  function Assign(row: Row, data: Assignments): Row
    decreases |data|
  {
    if data == [] then row else Assign(row[data[0].0 := data[0].1], data[1..])
  }

  /** The table after `UPDATE ... SET tokens`, and the number of rows changed. */
  function RunUpdate(tokens: seq<Token>, params: seq<Value>, table: seq<Row>): Option<(seq<Row>, nat)> {
    match ReadAssignments(tokens, params)
    case None => None
    case Some(set_) => UpdateRows(set_.got, set_.tokens, set_.params, table)
  }

  function UpdateRows(data: Assignments, tokens: seq<Token>, params: seq<Value>, table: seq<Row>)
    : Option<(seq<Row>, nat)>
  {
    if table == [] then Some(([], 0))
    else
      match (Selects(tokens, params, table[0]), UpdateRows(data, tokens, params, table[1..]))
      case (Some(hit), Some(more)) =>
        if hit then Some(([Assign(table[0], data)] + more.0, 1 + more.1)) else Some(([table[0]] + more.0, more.1))
      case _ => None
  }

  /** The table after `DELETE FROM ... tokens`, and the number of rows removed. */
  function RunDelete(tokens: seq<Token>, params: seq<Value>, table: seq<Row>): Option<(seq<Row>, nat)> {
    if table == [] then Some(([], 0))
    else
      match (Selects(tokens, params, table[0]), RunDelete(tokens, params, table[1..]))
      case (Some(hit), Some(more)) => if hit then Some((more.0, 1 + more.1)) else Some(([table[0]] + more.0, more.1))
      case _ => None
  }

  /** How rows come out: `ORDER BY` a column, a parameter of the model; without it, in storage order. */
  type Sorter = (string, bool, seq<Row>) -> seq<Row>

  /** `LIMIT` of a negative number is no limit. */
  function TakeLimit(rows: seq<Row>, limit: int): seq<Row> {
    if 0 <= limit < |rows| then rows[..limit] else rows
  }

  /** The `ORDER BY` and `LIMIT` after the conditions. */
  function Shape(tokens: seq<Token>, params: seq<Value>, sorter: Sorter, rows: seq<Row>): Option<seq<Row>> {
    if |tokens| >= 3 && tokens[0] == OrderBy && tokens[1].Column? && tokens[2].Direction? then
      ShapeLimit(tokens[3..], params, sorter(tokens[1].name, tokens[2].descending, rows))
    else ShapeLimit(tokens, params, rows)
  }

  function ShapeLimit(tokens: seq<Token>, params: seq<Value>, rows: seq<Row>): Option<seq<Row>> {
    if tokens == [] && params == [] then Some(rows)
    else if tokens == [Limit, Placeholder] && |params| == 1 && params[0].Number? then Some(TakeLimit(rows, params[0].n))
    else None
  }

  /** The rows whose condition is true, with the tokens and parameters that follow the condition. */
  function Filter(tokens: seq<Token>, params: seq<Value>, table: seq<Row>): Option<seq<Row>> {
    if table == [] then Some([])
    else
      match (ReadWhere(tokens, params, table[0]), Filter(tokens, params, table[1..]))
      case (Some(r), Some(more)) => if r.got.True? then Some([table[0]] + more) else Some(more)
      case _ => None
  }

  /** `SELECT * FROM ... tokens`; every row leaves the same tokens over, so the empty row shows which. */
  function RunSelect(tokens: seq<Token>, params: seq<Value>, sorter: Sorter, table: seq<Row>): Option<seq<Row>> {
    match (Filter(tokens, params, table), ReadWhere(tokens, params, map[]))
    case (Some(rows), Some(rest)) => Shape(rest.tokens, rest.params, sorter, rows)
    case _ => None
  }
}
