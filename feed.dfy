/**
  The contact feed: `load_single_username_from_excel` reads the username
  column and the name column of the campaign spreadsheet (each with its
  empty cells dropped, so the two lists may differ in length) and returns
  the pair at a position together with the following position.
 */
module Feed {
  import opened Wrappers

  /** What a lookup yields: the contact and the next position, the
      exhaustion marker `(None, None, start_index)`, or an `IndexError`
      raised by the list subscript. */
  datatype Lookup =
    | Found(username: string, name: string, nextIndex: int)
    | Exhausted(index: int)
    | IndexError

  /** Python's list subscript `l[i]`: a negative index counts from the end,
      and an index outside `-len(l) .. len(l) - 1` raises `IndexError`
      (`None` here). */
  function PyIndex<T>(l: seq<T>, i: int): (r: Option<T>)
    ensures r.Some? <==> -|l| <= i < |l|
    ensures 0 <= i < |l| ==> r == Some(l[i])
    ensures -|l| <= i < 0 ==> r == Some(l[|l| + i])
  {
    if 0 <= i < |l| then Some(l[i])
    else if -|l| <= i < 0 then Some(l[|l| + i])
    else None
  }

  /** `load_single_username_from_excel(..., start_index)` on the two columns. */
  function LoadSingle(usernames: seq<string>, names: seq<string>, startIndex: int): (r: Lookup)
    ensures r.Exhausted? <==> startIndex >= |usernames|
    ensures r.Exhausted? ==> r.index == startIndex
    ensures r.Found? ==> r.nextIndex == startIndex + 1
    ensures r.Found? ==> PyIndex(usernames, startIndex) == Some(r.username) && PyIndex(names, startIndex) == Some(r.name)
    ensures 0 <= startIndex < |usernames| && startIndex < |names| ==>
              r == Found(usernames[startIndex], names[startIndex], startIndex + 1)
    ensures r.IndexError? <==>
              startIndex < |usernames| && (startIndex < -|usernames| || !(-|names| <= startIndex < |names|))
  {
    if startIndex >= |usernames| then Exhausted(startIndex)
    else
      match (PyIndex(usernames, startIndex), PyIndex(names, startIndex))
      case (Some(u), Some(n)) => Found(u, n, startIndex + 1)
      case _ => IndexError
  }
}
