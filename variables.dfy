/**
 * The `variables` objects sent with the two queries. Both fetchers wrap each
 * id as a one-element list holding `str(id)`; the items query passes its
 * `limit` through as given (default 10).
 */
module Variables {
  import opened Wrappers
  import opened Decimal

  /** An id as a caller may pass it: a Python str or int. */
  datatype Scalar = Text(text: string) | Number(number: int)

  /** Python's `str()` on such an id: the service recovers the id from the string. */
  function Str(x: Scalar): (s: string)
    ensures Carries(s, x)
  {
    match x
    case Text(t) => t
    case Number(n) => IntToStringRoundTrip(n); IntToString(n)
  }

  /** The service recovers `x` from the string `s`. */
  predicate Carries(s: string, x: Scalar) {
    match x
    case Text(t) => s == t
    case Number(n) => ParseInt(s) == Some(n)
  }

  /** `limit` when the caller gives none. */
  const DefaultLimit: int := 10

  datatype GroupsVariables = GroupsVariables(boardId: seq<string>)

  datatype ItemsVariables = ItemsVariables(boardId: seq<string>, groupId: seq<string>, limit: int)

  /** Variables of the groups query. */
  function GroupsQueryVariables(boardId: Scalar): (v: GroupsVariables)
    ensures |v.boardId| == 1 && Carries(v.boardId[0], boardId)
  {
    GroupsVariables([Str(boardId)])
  }

  /** Variables of the items query; `limit` defaults to `DefaultLimit` as in the source. */
  function ItemsQueryVariables(boardId: Scalar, groupId: Scalar, limit: int := DefaultLimit): (v: ItemsVariables)
    ensures |v.boardId| == 1 && Carries(v.boardId[0], boardId)
    ensures |v.groupId| == 1 && Carries(v.groupId[0], groupId)
    ensures v.limit == limit
  {
    ItemsVariables([Str(boardId)], [Str(groupId)], limit)
  }
}
