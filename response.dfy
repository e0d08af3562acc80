/**
 * The parsed reply of the Monday.com GraphQL endpoint, as the two fetchers
 * read it. Only the keys the fetchers look at are modelled; every key read
 * with `.get` is a `Field`, so that an absent key and a JSON `null` differ.
 */
module Response {
  import opened Wrappers

  /** One entry of the top-level `errors` list (the response format of section 7.1 of the GraphQL specification). */
  datatype ServiceError = ServiceError(message: string)

  /** One entry of an item's `column_values`: the column id and its `text`. */
  datatype ColumnValue = ColumnValue(id: string, text: Field<string>)

  /** One item of a group, as requested by the items query. */
  datatype Item = Item(id: string, name: string, columnValues: seq<ColumnValue>)

  /** The `items_page` object of a group. */
  datatype ItemsPage = ItemsPage(items: Field<seq<Item>>)

  /** A group: the groups query asks for `id` and `title` only, so `itemsPage` is then Absent. */
  datatype Group = Group(id: string, title: string, itemsPage: Field<ItemsPage>)

  /** A board and its `groups` list. */
  datatype Board = Board(groups: Field<seq<Group>>)

  /** The `data` object and its `boards` list. */
  datatype Data = Data(boards: Field<seq<Board>>)

  /** The JSON body: the optional top-level `errors` and `data` keys. */
  datatype Body = Body(errors: Field<seq<ServiceError>>, data: Field<Data>)

  /** What `requests.post` hands back: the HTTP status code and the body it would parse. */
  datatype HttpResponse = HttpResponse(status: int, body: Body)
}
