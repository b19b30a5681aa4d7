/** Values that the dsx query builder passes to and receives from the
    document store: keys, filter values, accumulated queries, cursors, the
    backend oracle and the log of calls made against it. */
module Types {

  datatype Option<+X> = None | Some(value: X)

  /** A reply of the backend: a value, or the backend's own error text. */
  datatype Reply<+R> = Done(value: R) | Failed(reason: string)

  /** Errors the wrapper returns to its callers. */
  datatype Error =
    | UsesOffset              // cursor pagination asked of an offset query
    | UsesCursor              // offset-style execution asked of a cursor query
    | BackendError(reason: string) // any backend error, passed through verbatim

  datatype Result<+R> = Ok(value: R) | Err(error: Error)

  /** The `error` return of a Go call that produces nothing else. */
  datatype Outcome = Pass | Fail(error: Error)

  /** A name key: kind plus string id, with no parent. */
  datatype Key = NameKey(kind: string, name: string)

  /** The pseudo-field that filters on an entity's key. */
  const KeyField: string := "__key__"

  /** The closed set of comparison operators. */
  datatype Operator = Equal | GreaterEqual | Greater | LessEqual | Less | In | NotIn

  /** The operator text handed to the backend. */
  function Symbol(op: Operator): string
  {
    match op
    case Equal => "="
    case GreaterEqual => ">="
    case Greater => ">"
    case LessEqual => "<="
    case Less => "<"
    case In => "in"
    case NotIn => "not in"
  }

  /** A filter comparison value as the caller passes it (Go `interface{}`):
      a string, a key, or any other value, told apart only by an opaque tag. */
  datatype Value = Str(s: string) | KeyValue(key: Key) | Other(tag: nat)

  /** A filter as the backend receives it: field, operator text, value. */
  datatype Filter = Filter(field: string, op: string, value: Value)

  /** An opaque, backend-issued resumption point. */
  datatype Cursor = Cursor(position: seq<bv8>)

  /** The backend-native query that the builder accumulates. */
  datatype Query = Query(
    kind: string,
    filters: seq<Filter>,
    orders: seq<string>,
    limit: Option<int>,
    offset: Option<int>,
    start: Option<Cursor>,
    ancestor: Option<Key>,
    distinct: bool,
    keysOnly: bool)

  /** The query a fresh builder holds: only the kind is set. */
  function EmptyQuery(kind: string): Query
  {
    Query(kind, [], [], None, None, None, None, false, false)
  }

  /** What the backend's iterator yields for a query: `items` one at a time,
      then either the end of the iteration (`failure == None`) or an error. */
  datatype Stream<T> = Stream(items: seq<T>, failure: Option<string>)

  /** One answer of the iterator's Next. */
  datatype Step<T> = Item(item: T) | End | Broken(reason: string)

  /** The answer to the `i`-th call of Next on `s`. */
  function Next<T>(s: Stream<T>, i: nat): Step<T>
  {
    if i < |s.items| then Item(s.items[i])
    else match s.failure
      case None => End
      case Some(e) => Broken(e)
  }

  /** The backend as an oracle: each RPC is a total function of its request. */
  datatype Backend<!T> = Backend(
    getAll: Query -> Reply<seq<T>>,
    run: Query -> Stream<T>,
    cursorAfter: Query -> Reply<Cursor>,
    getKeys: Query -> Reply<seq<Key>>,
    put: (Key, T) -> Option<string>,
    putMulti: (seq<Key>, seq<T>) -> Option<string>,
    deleteMulti: seq<Key> -> Option<string>)

  /** One call made against the backend. */
  datatype Call<T> =
    | GetAllCall(query: Query)
    | RunCall(query: Query)
    | CursorCall(query: Query)
    | GetKeysCall(query: Query)
    | PutCall(key: Key, entity: T)
    | PutMultiCall(keys: seq<Key>, entities: seq<T>)
    | DeleteMultiCall(batch: seq<Key>)
}
