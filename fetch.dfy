/**
 * `fetch_groups` and `fetch_items` with the HTTP call taken out: each is a
 * classifier from the reply to either an abort (the script's `sys.exit(1)`,
 * or an uncaught exception, with a tag saying which) or the list it returns.
 */
module Fetch {
  import opened Wrappers
  import opened Response

  /** The only status code the fetchers accept. */
  const HttpOk: int := 200

  /** A JSON `null` where the code expects an object or a list: Python raises and the script dies. */
  datatype Fault =
    | NullErrors     // `for error in None` (TypeError)
    | NullData       // `None.get('boards', [])` (AttributeError)
    | NullItemsPage  // `None.get('items', [])` (AttributeError)

  /** Why a fetch stopped the script. */
  datatype Reason =
    | HttpStatus(code: int)
    | ServiceErrors(errors: seq<ServiceError>)
    | NoBoards
    | NoGroups
    | Crash(fault: Fault)

  datatype Outcome<+T> = Abort(reason: Reason) | Ok(value: T)

  /** The boards list as `data.get('data', {}).get('boards', [])` and `not boards` see it:
      a missing or null `boards` and a missing `data` all read as no boards. */
  function BoardsSeen(d: Data): seq<Board> {
    if d.boards.Present? then d.boards.value else []
  }

  /**
   * The checks both fetchers run, in the same order: the status code, then
   * the `errors` key, then `data.boards`, whose first element is kept.
   */
  function FirstBoard(r: HttpResponse): (o: Outcome<Board>)
    ensures r.status != HttpOk ==> o == Abort(HttpStatus(r.status))
    ensures r.status == HttpOk && r.body.errors.Present? ==> o == Abort(ServiceErrors(r.body.errors.value))
    ensures o.Ok? <==>
      r.status == HttpOk && r.body.errors.Absent? && r.body.data.Present? && BoardsSeen(r.body.data.value) != []
    ensures o.Ok? ==> o.value == BoardsSeen(r.body.data.value)[0]
    ensures r.status == HttpOk && r.body.errors.Null? ==> o == Abort(Crash(NullErrors))
    ensures r.status == HttpOk && r.body.errors.Absent? && r.body.data.Null? ==> o == Abort(Crash(NullData))
    ensures r.status == HttpOk && r.body.errors.Absent? && !r.body.data.Null? && o.Abort? ==> o.reason == NoBoards
  {
    if r.status != HttpOk then Abort(HttpStatus(r.status))
    else
      match r.body.errors
      case Present(es) => Abort(ServiceErrors(es))
      case Null => Abort(Crash(NullErrors))
      case Absent =>
        match r.body.data
        case Null => Abort(Crash(NullData))
        case Absent => Abort(NoBoards)
        case Present(d) =>
          match d.boards
          case Present(boards) => if boards == [] then Abort(NoBoards) else Ok(boards[0])
          case _ => Abort(NoBoards)
  }

  /** A board's groups as `board.get('groups', [])` and `not groups` see them. */
  function GroupsSeen(b: Board): seq<Group> {
    if b.groups.Present? then b.groups.value else []
  }

  /** `fetch_groups`: the first board's groups, unchanged, or an abort. */
  function FetchGroups(r: HttpResponse): (o: Outcome<seq<Group>>)
    ensures FirstBoard(r).Abort? ==> o == Abort(FirstBoard(r).reason)
    ensures o.Ok? <==> FirstBoard(r).Ok? && GroupsSeen(FirstBoard(r).value) != []
    ensures o.Ok? ==> o.value == GroupsSeen(FirstBoard(r).value) && o.value != []
    ensures FirstBoard(r).Ok? && o.Abort? ==> o.reason == NoGroups
  {
    match FirstBoard(r)
    case Abort(why) => Abort(why)
    case Ok(board) =>
      match board.groups
      case Present(groups) => if groups == [] then Abort(NoGroups) else Ok(groups)
      case _ => Abort(NoGroups)
  }

  /** A group's items as `group.get('items_page', {}).get('items', [])` sees them, or the
      crash when `items_page` is null. A null `items` reads as no items. */
  function ItemsOf(g: Group): (o: Outcome<seq<Item>>)
    ensures o.Abort? <==> g.itemsPage.Null?
    ensures o.Abort? ==> o.reason == Crash(NullItemsPage)
    ensures o.Ok? && o.value != [] ==> g.itemsPage.Present? && g.itemsPage.value.items == Present(o.value)
    ensures g.itemsPage.Present? && g.itemsPage.value.items.Present? ==> o == Ok(g.itemsPage.value.items.value)
    ensures g.itemsPage.Absent? || (g.itemsPage.Present? && !g.itemsPage.value.items.Present?) ==> o == Ok([])
  {
    match g.itemsPage
    case Null => Abort(Crash(NullItemsPage))
    case Absent => Ok([])
    case Present(page) =>
      match page.items
      case Present(items) => Ok(items)
      case _ => Ok([])
  }

  /** `fetch_items`: the first group of the first board gives the items, in reply order. */
  function FetchItems(r: HttpResponse): (o: Outcome<seq<Item>>)
    ensures FirstBoard(r).Abort? ==> o == Abort(FirstBoard(r).reason)
    ensures FirstBoard(r).Ok? && GroupsSeen(FirstBoard(r).value) == [] ==> o == Abort(NoGroups)
    ensures FirstBoard(r).Ok? && GroupsSeen(FirstBoard(r).value) != [] ==>
      o == ItemsOf(GroupsSeen(FirstBoard(r).value)[0])
  {
    match FirstBoard(r)
    case Abort(why) => Abort(why)
    case Ok(board) =>
      match board.groups
      case Present(groups) =>
        if groups == [] then Abort(NoGroups) else ItemsOf(groups[0])
      case _ => Abort(NoGroups)
  }

  // ---------------------------------------------------------------------
  // Properties of the two classifiers
  // ---------------------------------------------------------------------

  /** A status other than 200 aborts before the body is looked at. */
  lemma StatusCheckedFirst(r: HttpResponse, other: Body)
    requires r.status != HttpOk
    ensures FetchGroups(r) == FetchGroups(r.(body := other)) == Abort(HttpStatus(r.status))
    ensures FetchItems(r) == FetchItems(r.(body := other)) == Abort(HttpStatus(r.status))
  {
  }

  /** Once the status is 200, an `errors` key aborts whatever `data` holds; an empty list of
      errors aborts as well, since the code tests for the key, not for its contents. */
  lemma ErrorsCheckedBeforeData(r: HttpResponse, other: Field<Data>)
    requires r.status == HttpOk && !r.body.errors.Absent?
    ensures FetchGroups(r).Abort? && FetchItems(r).Abort?
    ensures FetchGroups(r) == FetchGroups(r.(body := r.body.(data := other)))
    ensures FetchItems(r) == FetchItems(r.(body := r.body.(data := other)))
    ensures r.body.errors.Present? ==> FetchGroups(r) == Abort(ServiceErrors(r.body.errors.value))
  {
  }

  /** A missing `data`, a missing or null `boards` and an empty `boards` list all give the
      same "no boards" abort, in both fetchers. */
  lemma MissingDataIsNoBoards(status: int, boards: Field<seq<Board>>)
    requires status == HttpOk
    requires boards == Absent || boards == Null || boards == Present([])
    ensures var noData := HttpResponse(status, Body(Absent, Absent));
            var noBoards := HttpResponse(status, Body(Absent, Present(Data(boards))));
            FetchGroups(noData) == FetchGroups(noBoards) == Abort(NoBoards) &&
            FetchItems(noData) == FetchItems(noBoards) == Abort(NoBoards)
  {
  }

  /** Only `boards[0]` is consulted: the boards after it never change the outcome. */
  lemma OnlyFirstBoard(status: int, errors: Field<seq<ServiceError>>, first: Board, rest: seq<Board>, rest': seq<Board>)
    ensures var r := HttpResponse(status, Body(errors, Present(Data(Present([first] + rest)))));
            var r' := HttpResponse(status, Body(errors, Present(Data(Present([first] + rest')))));
            FetchGroups(r) == FetchGroups(r') && FetchItems(r) == FetchItems(r')
  {
  }

  /** `fetch_groups` succeeds exactly when the first board has a non-empty `groups` list,
      and then returns that list unchanged. */
  lemma FetchGroupsResult(r: HttpResponse)
    ensures FetchGroups(r).Ok? <==>
      r.status == HttpOk && r.body.errors.Absent? && r.body.data.Present? &&
      var boards := BoardsSeen(r.body.data.value);
      boards != [] && boards[0].groups.Present? && boards[0].groups.value != []
    ensures FetchGroups(r).Ok? ==> FetchGroups(r).value == BoardsSeen(r.body.data.value)[0].groups.value
  {
  }

  /** In `fetch_items` a missing, null or empty `groups` is fatal, while a missing
      `items_page`, a missing or null `items` and an empty `items` all return `[]`. */
  lemma FetchItemsEmptyCases(status: int, groups: Field<seq<Group>>, g: Group, rest: seq<Group>)
    requires status == HttpOk
    ensures groups == Absent || groups == Null || groups == Present([]) ==>
      FetchItems(HttpResponse(status, Body(Absent, Present(Data(Present([Board(groups)])))))) == Abort(NoGroups)
    ensures g.itemsPage == Absent ||
            g.itemsPage == Present(ItemsPage(Absent)) ||
            g.itemsPage == Present(ItemsPage(Null)) ||
            g.itemsPage == Present(ItemsPage(Present([]))) ==>
      FetchItems(HttpResponse(status, Body(Absent, Present(Data(Present([Board(Present([g] + rest))])))))) == Ok([])
  {
  }

  /** On success `fetch_items` returns exactly the items of the first group of the first
      board, in reply order, neither filtered nor reordered; the groups after it are ignored. */
  lemma FetchItemsSuccess(status: int, g: Group, rest: seq<Group>, items: seq<Item>)
    requires status == HttpOk
    requires g.itemsPage == Present(ItemsPage(Present(items)))
    ensures FetchItems(HttpResponse(status, Body(Absent, Present(Data(Present([Board(Present([g] + rest))])))))) == Ok(items)
  {
  }

  /** The two fetchers run the same checks: whatever makes `fetch_groups` abort makes
      `fetch_items` abort the same way, and when `fetch_items` succeeds, `fetch_groups`
      succeeds on the same reply and its first group is the one the items came from. */
  lemma FetchersShareChecks(r: HttpResponse)
    ensures FetchGroups(r).Abort? ==> FetchItems(r) == Abort(FetchGroups(r).reason)
    ensures FetchItems(r).Ok? ==> FetchGroups(r).Ok? && FetchItems(r) == ItemsOf(FetchGroups(r).value[0])
  {
  }
}
