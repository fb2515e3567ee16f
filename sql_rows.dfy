/**
 * What the handlers exchange with the database: parameterised queries with `?`
 * placeholders, result sets read row by row with `rows.Next`/`rows.Scan`, and
 * nullable columns read through `sql.NullString` / `sql.NullInt64`.
 */
module SqlRows {
  import opened Wrappers

  /** A positional query argument: a string filter value or an integer (LIMIT, OFFSET). */
  datatype Arg = Text(s: string) | Int(n: int)

  /** A query as handed to the database driver: SQL text and its positional arguments. */
  datatype SqlQuery = SqlQuery(text: string, args: seq<Arg>)

  /** The number of `?` placeholders in SQL text. */
  function Placeholders(sql: string): nat
  {
    if sql == [] then 0
    else (if sql[|sql| - 1] == '?' then 1 else 0) + Placeholders(sql[..|sql| - 1])
  }

  /** Placeholders of concatenated SQL text add up. */
  lemma {:induction false} PlaceholdersAppend(a: string, b: string)
    ensures Placeholders(a + b) == Placeholders(a) + Placeholders(b)
  {
    if b == [] {
      assert a + b == a;
    } else {
      assert (a + b)[..|a + b| - 1] == a + b[..|b| - 1];
      PlaceholdersAppend(a, b[..|b| - 1]);
    }
  }

  /** Text without a `?` holds no placeholder. */
  lemma {:induction false} NoPlaceholders(sql: string)
    requires '?' !in sql
    ensures Placeholders(sql) == 0
  {
    if sql != [] {
      NoPlaceholders(sql[..|sql| - 1]);
    }
  }

  /** Text whose only `?` is its last character holds one placeholder. */
  lemma OnePlaceholder(sql: string)
    requires |sql| >= 1 && sql[|sql| - 1] == '?' && '?' !in sql[..|sql| - 1]
    ensures Placeholders(sql) == 1
  {
    NoPlaceholders(sql[..|sql| - 1]);
  }

  /** A query is aligned when it binds exactly one argument per placeholder. */
  predicate Aligned(q: SqlQuery)
  {
    Placeholders(q.text) == |q.args|
  }

  /** `strings.Join`: the parts with `sep` between neighbours. */
  function Join(parts: seq<string>, sep: string): (r: string)
    ensures parts == [] ==> r == ""
    ensures |parts| == 1 ==> r == parts[0]
  {
    if parts == [] then ""
    else if |parts| == 1 then parts[0]
    else parts[0] + sep + Join(parts[1..], sep)
  }

  /** Joining parts that hold one placeholder each, with a separator that holds none, gives one per part. */
  lemma {:induction false} JoinPlaceholders(parts: seq<string>, sep: string)
    requires forall i :: 0 <= i < |parts| ==> Placeholders(parts[i]) == 1
    requires Placeholders(sep) == 0
    ensures Placeholders(Join(parts, sep)) == |parts|
  {
    if |parts| > 1 {
      JoinPlaceholders(parts[1..], sep);
      PlaceholdersAppend(parts[0], sep);
      PlaceholdersAppend(parts[0] + sep, Join(parts[1..], sep));
    }
  }

  /** Adding a part to a non-empty list puts `sep` between the earlier parts and the new one. */
  lemma {:induction false} JoinSnoc(parts: seq<string>, p: string, sep: string)
    requires parts != []
    ensures Join(parts + [p], sep) == Join(parts, sep) + sep + p
  {
    if |parts| == 1 {
      assert (parts + [p])[1..] == [p];
    } else {
      assert (parts + [p])[1..] == parts[1..] + [p];
      JoinSnoc(parts[1..], p, sep);
    }
  }

  /**
   * A result set as `rows.Next` delivers it: for each row, the outcome of
   * `rows.Scan` (the typed row, or the scan error's text), then the error
   * `rows.Err` reports once iteration stops, if any.
   */
  datatype RowStream<R> = RowStream(scans: seq<Result<R, string>>, err: Option<string>)

  /** What `db.Query` returns: a result set, or an error together with whether the rows handle is nil. */
  datatype QueryAnswer<R> = Rows(stream: RowStream<R>) | QueryFailed(message: string, nilHandle: bool)

  /** The first scan error of a result set, if some row failed to scan. */
  function FirstScanError<R>(scans: seq<Result<R, string>>): (e: Option<string>)
    ensures e.None? <==> forall i :: 0 <= i < |scans| ==> scans[i].Success?
    ensures e.Some? ==>
      exists i :: 0 <= i < |scans| && scans[i] == Failure(e.value) &&
        forall j :: 0 <= j < i ==> scans[j].Success?
  {
    if scans == [] then None
    else if scans[0].Failure? then Some(scans[0].error)
    else
      var e := FirstScanError(scans[1..]);
      if e.Some? then
        var i :| 0 <= i < |scans[1..]| && scans[1..][i] == Failure(e.value) &&
          forall j :: 0 <= j < i ==> scans[1..][j].Success?;
        assert scans[i + 1] == Failure(e.value);
        assert forall j :: 0 <= j < i + 1 ==> scans[j].Success? by {
          forall j | 0 <= j < i + 1 ensures scans[j].Success? {
            if j > 0 { assert scans[j] == scans[1..][j - 1]; }
          }
        }
        e
      else e
  }

  /** The error text a handler writes when reading a result set fails, if it does. */
  function StreamError<R>(rows: RowStream<R>): (e: Option<string>)
    ensures e.None? <==> (forall i :: 0 <= i < |rows.scans| ==> rows.scans[i].Success?) && rows.err.None?
    ensures FirstScanError(rows.scans).Some? ==> e == Some("Row scan error: " + FirstScanError(rows.scans).value)
    ensures FirstScanError(rows.scans).None? && rows.err.Some? ==> e == Some("Rows error: " + rows.err.value)
  {
    match FirstScanError(rows.scans)
    case Some(e) => Some("Row scan error: " + e)
    case None => if rows.err.Some? then Some("Rows error: " + rows.err.value) else None
  }

  /**
   * The `for rows.Next() { Scan; append }` loop followed by the `rows.Err()`
   * check: one output per row, in row order, converted by `convert`; the first
   * scan error, or else the iteration error, aborts with nothing collected.
   */
  method Collect<R, T>(rows: RowStream<R>, convert: R -> T) returns (res: Result<seq<T>, string>)
    ensures res.Success? <==> StreamError(rows).None?
    ensures res.Failure? ==> res.error == StreamError(rows).value
    ensures res.Success? ==> |res.value| == |rows.scans|
    ensures res.Success? ==>
      forall i :: 0 <= i < |rows.scans| ==> res.value[i] == convert(rows.scans[i].value)
  {
    var out: seq<T> := [];
    var i := 0;
    while i < |rows.scans|
      invariant 0 <= i <= |rows.scans|
      invariant forall j :: 0 <= j < i ==> rows.scans[j].Success?
      invariant |out| == i
      invariant forall j :: 0 <= j < i ==> out[j] == convert(rows.scans[j].value)
    {
      match rows.scans[i]
      case Failure(e) =>
        return Failure("Row scan error: " + e);
      case Success(r) =>
        out := out + [convert(r)];
      i := i + 1;
    }
    if rows.err.Some? {
      return Failure("Rows error: " + rows.err.value);
    }
    return Success(out);
  }

  /** `v` is what a nullable text column reads as: its value, or "" when NULL. */
  predicate ReadsText(col: Option<string>, v: string)
  {
    if col.Some? then v == col.value else v == ""
  }

  /** `v` is what a nullable integer column reads as: its value, or 0 when NULL. */
  predicate ReadsInt(col: Option<int>, v: int)
  {
    if col.Some? then v == col.value else v == 0
  }

  /** A nullable string column read as `NullString.String`: "" when NULL. */
  function OrEmpty(col: Option<string>): (s: string)
    ensures ReadsText(col, s)
  {
    if col.Some? then col.value else ""
  }

  /** A nullable integer column read as `NullInt64.Int64`: 0 when NULL. */
  function OrZero(col: Option<int>): (n: int)
    ensures ReadsInt(col, n)
  {
    if col.Some? then col.value else 0
  }

  /** The null-to-default mapping is lossy: NULL and the default read the same. */
  lemma NullIndistinguishable()
    ensures OrEmpty(None) == OrEmpty(Some(""))
    ensures OrZero(None) == OrZero(Some(0))
  {
  }
}
