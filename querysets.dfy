/**
 * The Django queryset operations the tile pipelines chain together: filter,
 * exclude, annotate, slicing and values().
 *
 * A queryset is its column names and its rows, in the order the database
 * returns them. A reference to a column the queryset lacks raises FieldError
 * when the operation is applied, whatever the rows are, as Django resolves
 * names against the model before any SQL runs.
 */
module QuerySets {
  import opened Common

  datatype QuerySet = QuerySet(columns: set<string>, rows: seq<Row>)

  /** Every row holds exactly the queryset's columns. */
  predicate WellFormed(qs: QuerySet) {
    forall i | 0 <= i < |qs.rows| :: qs.rows[i].Keys == qs.columns
  }

  /** `a` is `b` with some rows left out and the rest in their order. */
  predicate IsSubsequence(a: seq<Row>, b: seq<Row>)
    decreases |b|
  {
    if a == [] then true
    else if b == [] then false
    else if a[0] == b[0] then IsSubsequence(a[1..], b[1..])
    else IsSubsequence(a, b[1..])
  }

  /** The rows that satisfy `keep`, in source order. */
  function KeepRows(rows: seq<Row>, keep: Row -> bool): (r: seq<Row>)
    ensures |r| <= |rows|
    ensures forall i | 0 <= i < |r| :: keep(r[i])
    ensures forall row | row in r :: row in rows
    ensures forall row | row in rows && keep(row) :: row in r
    ensures IsSubsequence(r, rows)
    ensures forall row {:trigger multiset(r)[row]} :: multiset(r)[row] == if keep(row) then multiset(rows)[row] else 0
  {
    if rows == [] then []
    else if keep(rows[0]) then
      var rest := KeepRows(rows[1..], keep);
      assert ([rows[0]] + rest)[1..] == rest;
      assert rows == [rows[0]] + rows[1..];
      [rows[0]] + rest
    else
      assert rows == [rows[0]] + rows[1..];
      KeepRows(rows[1..], keep)
  }

  /** When every row satisfies `keep`, nothing is dropped. */
  lemma {:induction false} KeepAll(rows: seq<Row>, keep: Row -> bool)
    requires forall i | 0 <= i < |rows| :: keep(rows[i])
    ensures KeepRows(rows, keep) == rows
  {
    if rows != [] {
      assert keep(rows[0]);
      KeepAll(rows[1..], keep);
      assert [rows[0]] + rows[1..] == rows;
    }
  }

  /** The first `limit` elements when the limit is truthy, all of them otherwise. */
  function Truncate<T>(s: seq<T>, limit: Option<nat>): (r: seq<T>)
    ensures r <= s
    ensures IsTruthy(limit) ==> |r| == Min(limit.value, |s|)
    ensures !IsTruthy(limit) ==> r == s
  {
    if IsTruthy(limit) && limit.value < |s| then s[..limit.value] else s
  }

  function Unresolved(qs: QuerySet, names: set<string>): Error {
    FieldError(names - qs.columns)
  }

  /** `qs.filter(...)`: a condition over the columns `uses`. */
  function Filter(qs: QuerySet, uses: set<string>, keep: Row -> bool): (r: Result<QuerySet>)
    ensures r.Ok? <==> uses <= qs.columns
    ensures r.Ok? ==> r.value.columns == qs.columns && r.value.rows == KeepRows(qs.rows, keep)
    ensures r.Ok? && WellFormed(qs) ==> WellFormed(r.value)
  {
    if uses <= qs.columns then Ok(QuerySet(qs.columns, KeepRows(qs.rows, keep)))
    else Err(Unresolved(qs, uses))
  }

  /** `qs.exclude(...)`: drops the rows that satisfy `drop`. */
  function Exclude(qs: QuerySet, uses: set<string>, drop: Row -> bool): (r: Result<QuerySet>)
    ensures r.Ok? <==> uses <= qs.columns
    ensures r.Ok? ==> r.value.columns == qs.columns
    ensures r.Ok? ==> forall i | 0 <= i < |r.value.rows| :: !drop(r.value.rows[i])
    ensures r.Ok? ==> forall row | row in qs.rows && !drop(row) :: row in r.value.rows
    ensures r.Ok? ==> IsSubsequence(r.value.rows, qs.rows)
    ensures r.Ok? ==> forall row {:trigger multiset(r.value.rows)[row]} :: multiset(r.value.rows)[row] == if drop(row) then 0 else multiset(qs.rows)[row]
    ensures r.Ok? && WellFormed(qs) ==> WellFormed(r.value)
  {
    Filter(qs, uses, row => !drop(row))
  }

  /** Each row extended with column `name`, computed by `f` from the row. */
  function AnnotateRows(rows: seq<Row>, name: string, f: Row -> Value): (r: seq<Row>)
    ensures |r| == |rows|
    ensures forall i | 0 <= i < |r| :: r[i].Keys == rows[i].Keys + {name}
    ensures forall i | 0 <= i < |r| :: r[i][name] == f(rows[i])
    ensures forall i, c | 0 <= i < |r| && c in rows[i] && c != name :: r[i][c] == rows[i][c]
  {
    seq(|rows|, i requires 0 <= i < |rows| => rows[i][name := f(rows[i])])
  }

  /** `qs.annotate(name=...)`: an expression over the columns `uses`. */
  function Annotate(qs: QuerySet, name: string, uses: set<string>, f: Row -> Value): (r: Result<QuerySet>)
    ensures r.Ok? <==> uses <= qs.columns
    ensures r.Ok? ==> r.value.columns == qs.columns + {name}
    ensures r.Ok? ==> r.value.rows == AnnotateRows(qs.rows, name, f)
    ensures r.Ok? && WellFormed(qs) ==> WellFormed(r.value)
  {
    if uses <= qs.columns then Ok(QuerySet(qs.columns + {name}, AnnotateRows(qs.rows, name, f)))
    else Err(Unresolved(qs, uses))
  }

  /** `qs[:limit]` when the limit is truthy; the queryset unchanged otherwise. */
  function Slice(qs: QuerySet, limit: Option<nat>): (r: QuerySet)
    ensures r.columns == qs.columns
    ensures r.rows == Truncate(qs.rows, limit)
    ensures WellFormed(qs) ==> WellFormed(r)
  {
    QuerySet(qs.columns, Truncate(qs.rows, limit))
  }

  /** One row of `values(*fields)`: exactly the named columns. */
  function Project(row: Row, fields: seq<string>): (r: Row)
    ensures r.Keys == set f | f in fields
    ensures forall f | f in fields && f in row :: r[f] == row[f]
  {
    map f | f in fields :: Column(row, f)
  }

  /** `qs.values(*fields)`: FieldError unless every field is a column. */
  function Values(qs: QuerySet, fields: seq<string>): (r: Result<seq<Row>>)
    ensures r.Ok? <==> (set f | f in fields) <= qs.columns
    ensures r.Ok? ==> |r.value| == |qs.rows|
    ensures r.Ok? ==> forall i | 0 <= i < |qs.rows| :: r.value[i] == Project(qs.rows[i], fields)
  {
    var names := set f | f in fields;
    if names <= qs.columns then Ok(seq(|qs.rows|, i requires 0 <= i < |qs.rows| => Project(qs.rows[i], fields)))
    else Err(Unresolved(qs, names))
  }
}
