/**
 * Parametrised SQL as the services hand it to the database driver: text
 * with `?` placeholders plus the values bound to them, and what the
 * driver's `Exec` gives back. The database itself is not modelled.
 */
module Sql {
  import opened Errors
  import opened Text

  /** A value bound to a placeholder. */
  datatype Arg = IntArg(i: int) | StrArg(s: string)

  /** SQL text and the values bound to its placeholders, in order. */
  datatype Query = Query(text: string, args: seq<Arg>)

  /** The driver can bind the query: one value per `?`. */
  predicate Aligned(q: Query) {
    Count(q.text, '?') == |q.args|
  }

  /** SQL text with one `?` between each two consecutive fragments. */
  function Template(fragments: seq<string>): string {
    Join(fragments, '?')
  }

  predicate NoPlaceholder(s: string) {
    '?' !in s
  }

  /** A template of n fragments free of `?` has n - 1 placeholders. */
  lemma {:induction false} TemplatePlaceholders(fragments: seq<string>)
    requires |fragments| >= 1
    requires forall k :: 0 <= k < |fragments| ==> NoPlaceholder(fragments[k])
    ensures Count(Template(fragments), '?') == |fragments| - 1
  {
    if |fragments| == 1 {
      CountAbsent(fragments[0], '?');
    } else {
      TemplatePlaceholders(fragments[1..]);
      CountAbsent(fragments[0], '?');
      CountAppend(fragments[0], ['?'], '?');
      CountAppend(fragments[0] + ['?'], Join(fragments[1..], '?'), '?');
    }
  }

  /**
   * What the driver's `Exec` returns: an error, or a result whose
   * `LastInsertId` and `RowsAffected` may each fail in turn.
   */
  datatype ExecResult =
    | ExecFailed(error: string)
    | Executed(lastInsertId: Ret<int>, rowsAffected: Ret<int>)

  /**
   * The shared tail of the insert methods: `(0, err)` for the first error
   * met, else the inserted row's id with a nil error.
   */
  function InsertedId(res: ExecResult): (r: Ret<int>)
    ensures r.err == Nil <==> res.Executed? && res.lastInsertId.err == Nil
    ensures r.err == Nil ==> r.value == res.lastInsertId.value
    ensures r.err != Nil ==> r.value == 0
    ensures res.ExecFailed? ==> r.err == Fail(res.error)
    ensures res.Executed? && res.lastInsertId.err != Nil ==> r.err == res.lastInsertId.err
  {
    match res
    case ExecFailed(e) => Ret(0, Fail(e))
    case Executed(id, _) => if id.err != Nil then Ret(0, id.err) else Ret(id.value, Nil)
  }

  /**
   * The shared tail of the update and delete methods: `(0, err)` for the
   * first error met, else the number of rows affected with a nil error.
   */
  function AffectedRows(res: ExecResult): (r: Ret<int>)
    ensures r.err == Nil <==> res.Executed? && res.rowsAffected.err == Nil
    ensures r.err == Nil ==> r.value == res.rowsAffected.value
    ensures r.err != Nil ==> r.value == 0
    ensures res.ExecFailed? ==> r.err == Fail(res.error)
    ensures res.Executed? && res.rowsAffected.err != Nil ==> r.err == res.rowsAffected.err
  {
    match res
    case ExecFailed(e) => Ret(0, Fail(e))
    case Executed(_, n) => if n.err != Nil then Ret(0, n.err) else Ret(n.value, Nil)
  }
}
