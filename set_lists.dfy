/** The SET lists that the profile handlers grow one `updates.push` at a time: for each column
    of a fixed order, an item when the request supplies that field. */
module SetLists {
  import opened Wrappers

  /** One `column = ?` item: the column's place in the handler's order, and its value. */
  datatype Write = Write(column: nat, value: string)

  /** The list after the handler has looked at the first `k` columns, `fields` holding the
      request's value (or None) for each column in order. */
  function Expected(fields: seq<Option<string>>, k: nat): seq<Write>
    requires k <= |fields|
  {
    if k == 0 then []
    else Expected(fields, k - 1) + (if fields[k - 1].Some? then [Write(k - 1, fields[k - 1].value)] else [])
  }

  predicate Ascending(list: seq<Write>) {
    forall i, j :: 0 <= i < j < |list| ==> list[i].column < list[j].column
  }

  /** Columns appear in the fixed order, each at most once, all among the first `k`. */
  lemma {:induction false} ExpectedOrdered(fields: seq<Option<string>>, k: nat)
    requires k <= |fields|
    ensures Ascending(Expected(fields, k))
    ensures forall i :: 0 <= i < |Expected(fields, k)| ==> Expected(fields, k)[i].column < k
  {
    if k > 0 {
      ExpectedOrdered(fields, k - 1);
    }
  }

  /** An item is in the list exactly when the request supplied that value for that column. */
  lemma {:induction false} ExpectedExact(fields: seq<Option<string>>, k: nat)
    requires k <= |fields|
    ensures forall w :: w in Expected(fields, k) <==> w.column < k && fields[w.column] == Some(w.value)
  {
    if k > 0 {
      ExpectedExact(fields, k - 1);
    }
  }

  /** The list is empty exactly when none of the first `k` fields is supplied. */
  lemma {:induction false} ExpectedEmpty(fields: seq<Option<string>>, k: nat)
    requires k <= |fields|
    ensures Expected(fields, k) == [] <==> forall c :: 0 <= c < k ==> fields[c].None?
  {
    if k > 0 {
      ExpectedEmpty(fields, k - 1);
    }
  }
}
