/** The dsx query builder: a single-owner object that accumulates a backend
    query through fluent calls, executes it with the pagination guards, and
    performs the batch writes and the batched delete. */
module Dsx {
  import opened Types
  import opened Batches

  /** Ids of the name keys in `keys`. */
  function Names(keys: seq<Key>): set<string>
  {
    set k | k in keys :: k.name
  }

  /** No two keys in `keys` carry the same id. */
  predicate DistinctNames(keys: seq<Key>)
  {
    forall i, j :: 0 <= i < j < |keys| ==> keys[i].name != keys[j].name
  }

  /** `keys` and `entities` are parallel sequences that pair, position by
      position, the name key of `kind` for each id of `items` with that id's
      entity, every id exactly once. */
  ghost predicate Paired<T>(kind: string, items: map<string, T>, keys: seq<Key>, entities: seq<T>)
  {
    && |keys| == |entities|
    && Names(keys) == items.Keys
    && DistinctNames(keys)
    && forall i :: 0 <= i < |keys| ==>
         keys[i].kind == kind && keys[i].name in items && entities[i] == items[keys[i].name]
  }

  /** Distinct ids: as many ids as keys. */
  lemma {:induction false} NamesCount(keys: seq<Key>)
    requires DistinctNames(keys)
    ensures |Names(keys)| == |keys|
    decreases |keys|
  {
    if keys != [] {
      var last := keys[|keys| - 1];
      var init := keys[..|keys| - 1];
      NamesCount(init);
      assert keys == init + [last];
      NamesSnoc(init, last);
    }
  }

  lemma NamesSnoc(keys: seq<Key>, k: Key)
    ensures Names(keys + [k]) == Names(keys) + {k.name}
  {
  }

  lemma NameIn(keys: seq<Key>, i: nat)
    requires i < |keys|
    ensures keys[i].name in Names(keys)
  {
  }

  /** A pairing holds one key and one entity per id of the map. */
  lemma PairedLength<T>(kind: string, items: map<string, T>, keys: seq<Key>, entities: seq<T>)
    requires Paired(kind, items, keys, entities)
    ensures |keys| == |entities| == |items|
  {
    NamesCount(keys);
  }

  class QueryBuilder<T> {
    const db: Backend<T>
    const kind: string
    var query: Query
    var limit: int
    var usingOffset: bool
    var usingCursor: bool

    /** The builder's fields agree with the query it holds: `limit` mirrors
        the query's limit, each flag records that an offset or a start
        cursor is set, and every key filter compares against a key of the
        builder's own kind. */
    ghost predicate Valid()
      reads this
    {
      && query.kind == kind
      && (if query.limit == None then limit == 0 else limit > 0 && query.limit == Some(limit))
      && usingOffset == query.offset.Some?
      && (query.offset.Some? ==> query.offset.value > 0)
      && usingCursor == query.start.Some?
      && forall i :: 0 <= i < |query.filters| && query.filters[i].field == KeyField ==>
           query.filters[i].value.KeyValue? && query.filters[i].value.key.kind == kind
    }

    /** `Query[T](db, ctx, kind)`: an empty query of `kind`, limit 0, no
        pagination mode. */
    constructor (db: Backend<T>, kind: string)
      ensures Valid()
      ensures this.db == db && this.kind == kind
      ensures query == EmptyQuery(kind)
      ensures limit == 0 && !usingOffset && !usingCursor
    {
      this.db := db;
      this.kind := kind;
      query := EmptyQuery(kind);
      limit := 0;
      usingOffset := false;
      usingCursor := false;
    }

    method WithDistinct()
      requires Valid()
      modifies this
      ensures Valid()
      ensures query == old(query).(distinct := true)
      ensures limit == old(limit) && usingOffset == old(usingOffset) && usingCursor == old(usingCursor)
    {
      query := query.(distinct := true);
    }

    /** A positive limit is recorded in both places; any other is ignored. */
    method WithLimit(n: int)
      requires Valid()
      modifies this
      ensures Valid()
      ensures n <= 0 ==> query == old(query) && limit == old(limit)
      ensures n > 0 ==> query == old(query).(limit := Some(n)) && limit == n
      ensures usingOffset == old(usingOffset) && usingCursor == old(usingCursor)
    {
      if n > 0 {
        query := query.(limit := Some(n));
        limit := n;
      }
    }

    /** A positive offset is set and marks offset pagination; any other is
        ignored. The cursor flag is neither read nor changed. */
    method WithOffset(n: int)
      requires Valid()
      modifies this
      ensures Valid()
      ensures n <= 0 ==> query == old(query) && usingOffset == old(usingOffset)
      ensures n > 0 ==> query == old(query).(offset := Some(n)) && usingOffset
      ensures limit == old(limit) && usingCursor == old(usingCursor)
    {
      if n > 0 {
        query := query.(offset := Some(n));
        usingOffset := true;
      }
    }

    /** Appends an ascending order on `field`. */
    method WithOrder(field: string)
      requires Valid()
      modifies this
      ensures Valid()
      ensures query == old(query).(orders := old(query.orders) + [field])
      ensures limit == old(limit) && usingOffset == old(usingOffset) && usingCursor == old(usingCursor)
    {
      query := query.(orders := query.orders + [field]);
    }

    /** Appends a descending order on `field`, written "-field". */
    method WithOrderDesc(field: string)
      requires Valid()
      modifies this
      ensures Valid()
      ensures query == old(query).(orders := old(query.orders) + ["-" + field])
      ensures limit == old(limit) && usingOffset == old(usingOffset) && usingCursor == old(usingCursor)
    {
      query := query.(orders := query.orders + ["-" + field]);
    }

    /** A non-empty token that `decode` accepts becomes the start position
        and marks cursor pagination; an empty or undecodable one is ignored. */
    method WithCursor(token: string, decode: string -> Option<Cursor>)
      requires Valid()
      modifies this
      ensures Valid()
      ensures token == "" || decode(token) == None ==>
        query == old(query) && usingCursor == old(usingCursor)
      ensures token != "" && decode(token) != None ==>
        query == old(query).(start := decode(token)) && usingCursor
      ensures limit == old(limit) && usingOffset == old(usingOffset)
    {
      if token != "" {
        var c := decode(token);
        if c.Some? {
          query := query.(start := c);
          usingCursor := true;
        }
      }
    }

    /** Appends a filter. On the key pseudo-field a string id becomes the
        name key of this builder's kind and any other value is dropped. */
    method WithFilter(field: string, op: Operator, value: Value)
      requires Valid()
      modifies this
      ensures Valid()
      ensures field == KeyField && !value.Str? ==> query == old(query)
      ensures field == KeyField && value.Str? ==>
        query == old(query).(filters := old(query.filters) + [Filter(field, Symbol(op), KeyValue(NameKey(kind, value.s)))])
      ensures field != KeyField ==>
        query == old(query).(filters := old(query.filters) + [Filter(field, Symbol(op), value)])
      ensures limit == old(limit) && usingOffset == old(usingOffset) && usingCursor == old(usingCursor)
    {
      if field == KeyField {
        if value.Str? {
          query := query.(filters := query.filters + [Filter(field, Symbol(op), KeyValue(NameKey(kind, value.s)))]);
        }
      } else {
        query := query.(filters := query.filters + [Filter(field, Symbol(op), value)]);
      }
    }

    /** Restricts to descendants of `ancestor`; no key is a no-op. */
    method WithAncestorKey(ancestor: Option<Key>)
      requires Valid()
      modifies this
      ensures Valid()
      ensures ancestor == None ==> query == old(query)
      ensures ancestor != None ==> query == old(query).(ancestor := ancestor)
      ensures limit == old(limit) && usingOffset == old(usingOffset) && usingCursor == old(usingCursor)
    {
      if ancestor.Some? {
        query := query.(ancestor := ancestor);
      }
    }

    method KeysOnly()
      requires Valid()
      modifies this
      ensures Valid()
      ensures query == old(query).(keysOnly := true)
      ensures limit == old(limit) && usingOffset == old(usingOffset) && usingCursor == old(usingCursor)
    {
      query := query.(keysOnly := true);
    }

    /** Materialises the whole result with one GetAll call; a cursor query
        is refused before any call. */
    method Select() returns (r: Result<seq<T>>, calls: seq<Call<T>>)
      ensures usingCursor ==> r == Err(UsesCursor) && calls == []
      ensures !usingCursor ==> calls == [GetAllCall(query)]
      ensures !usingCursor ==> match db.getAll(query)
        case Done(es) => r == Ok(es)
        case Failed(e) => r == Err(BackendError(e))
    {
      if usingCursor {
        return Err(UsesCursor), [];
      }
      calls := [GetAllCall(query)];
      match db.getAll(query)
      case Done(es) => r := Ok(es);
      case Failed(e) => r := Err(BackendError(e));
    }

    /** The first entity of what Select returns, or None (not an error) when
        Select returns nothing. */
    method Get() returns (r: Result<Option<T>>, calls: seq<Call<T>>)
      ensures usingCursor ==> r == Err(UsesCursor) && calls == []
      ensures !usingCursor ==> calls == [GetAllCall(query)]
      ensures !usingCursor ==> match db.getAll(query)
        case Done(es) => r == Ok(if es == [] then None else Some(es[0]))
        case Failed(e) => r == Err(BackendError(e))
    {
      if usingCursor {
        return Err(UsesCursor), [];
      }
      var all;
      all, calls := Select();
      match all
      case Err(e) => r := Err(e);
      case Ok(es) => r := Ok(if |es| > 0 then Some(es[0]) else None);
    }

    /** Iterates the query, collecting every entity in iteration order, then
        encodes the iterator's cursor. An offset query is refused before any
        call; an iteration or cursor error returns no partial result. */
    method SelectWithCursor(encode: Cursor -> string) returns (r: Result<(seq<T>, string)>, calls: seq<Call<T>>)
      ensures usingOffset ==> r == Err(UsesOffset) && calls == []
      ensures !usingOffset && db.run(query).failure != None ==>
        r == Err(BackendError(db.run(query).failure.value)) && calls == [RunCall(query)]
      ensures !usingOffset && db.run(query).failure == None ==>
        calls == [RunCall(query), CursorCall(query)] &&
        match db.cursorAfter(query)
        case Done(c) => r == Ok((db.run(query).items, encode(c)))
        case Failed(e) => r == Err(BackendError(e))
    {
      if usingOffset {
        return Err(UsesOffset), [];
      }
      var result: seq<T> := [];
      var it := db.run(query);
      calls := [RunCall(query)];
      var i := 0;
      while true
        invariant 0 <= i <= |it.items|
        invariant result == it.items[..i]
        decreases |it.items| - i
      {
        match Next(it, i)
        case End =>
          assert result == it.items;
          break;
        case Broken(e) =>
          return Err(BackendError(e)), calls;
        case Item(x) =>
          result := result + [x];
          i := i + 1;
      }
      calls := calls + [CursorCall(query)];
      match db.cursorAfter(query)
      case Failed(e) => r := Err(BackendError(e));
      case Done(c) => r := Ok((result, encode(c)));
    }

    /** Writes one entity under the name key (kind, id). */
    method Upsert(id: string, entity: T) returns (r: Outcome, calls: seq<Call<T>>)
      ensures calls == [PutCall(NameKey(kind, id), entity)]
      ensures r == match db.put(NameKey(kind, id), entity)
        case None => Pass
        case Some(e) => Fail(BackendError(e))
    {
      var key := NameKey(kind, id);
      calls := [PutCall(key, entity)];
      match db.put(key, entity)
      case None => r := Pass;
      case Some(e) => r := Fail(BackendError(e));
    }

    /** Builds the parallel key and entity sequences of `items`, in the
        order the ids are visited. */
    method PairUp(items: map<string, T>) returns (keys: seq<Key>, entities: seq<T>)
      ensures Paired(kind, items, keys, entities)
    {
      keys, entities := [], [];
      var rest := items.Keys;
      while rest != {}
        invariant rest !! Names(keys)
        invariant rest + Names(keys) == items.Keys
        invariant |keys| == |entities|
        invariant DistinctNames(keys)
        invariant forall i :: 0 <= i < |keys| ==>
          keys[i].kind == kind && keys[i].name in items && entities[i] == items[keys[i].name]
        decreases rest
      {
        var id :| id in rest;
        NamesSnoc(keys, NameKey(kind, id));
        forall i | 0 <= i < |keys| ensures keys[i].name != id {
          NameIn(keys, i);
        }
        keys := keys + [NameKey(kind, id)];
        entities := entities + [items[id]];
        rest := rest - {id};
      }
    }

    /** Writes a map of id to entity with one PutMulti call on parallel key
        and entity sequences; an empty map makes no call. */
    method UpsertMulti(items: map<string, T>) returns (r: Outcome, calls: seq<Call<T>>)
      ensures |items| == 0 ==> r == Pass && calls == []
      ensures |items| > 0 ==>
        && |calls| == 1 && calls[0].PutMultiCall?
        && Paired(kind, items, calls[0].keys, calls[0].entities)
        && r == match db.putMulti(calls[0].keys, calls[0].entities)
             case None => Pass
             case Some(e) => Fail(BackendError(e))
    {
      if |items| == 0 {
        return Pass, [];
      }
      var keys, entities := PairUp(items);
      calls := [PutMultiCall(keys, entities)];
      match db.putMulti(keys, entities)
      case None => r := Pass;
      case Some(e) => r := Fail(BackendError(e));
    }

    /** Fetches the keys of the query made keys-only, then deletes them in
        consecutive batches of at most 500, in order, stopping at the first
        refused batch; batches already deleted stay deleted. */
    method Delete() returns (r: Outcome, calls: seq<Call<T>>)
      ensures calls != [] && calls[0] == GetKeysCall(query.(keysOnly := true))
      ensures match db.getKeys(query.(keysOnly := true))
        case Failed(e) => r == Fail(BackendError(e)) && |calls| == 1
        case Done(keys) => BatchedDelete(keys, db.deleteMulti, r, calls[1..])
    {
      var keysQuery := query.(keysOnly := true);
      var reply := db.getKeys(keysQuery);
      if reply.Failed? {
        return Fail(BackendError(reply.reason)), [GetKeysCall(keysQuery)];
      }
      var keys := reply.value;
      ghost var bs := Chunks(keys);
      ChunkCount(keys);
      var issued: seq<Call<T>> := [];
      var total := |keys|;
      if total > 0 {
        var i := 0;
        ghost var j := 0;
        while i < total
          invariant i == j * BatchSize
          invariant j <= |bs|
          invariant i < total <==> j < |bs|
          invariant forall m :: 0 <= m < j ==> db.deleteMulti(bs[m]) == None
          invariant issued == DeleteCalls(bs[..j])
        {
          var end := i + BatchSize;
          if end > total {
            end := total;
          }
          var batch := keys[i..end];
          ChunkAt(keys, j);
          assert batch == bs[j];
          assert DeleteCalls<T>(bs[..j + 1]) == issued + [DeleteMultiCall(batch)];
          issued := issued + [DeleteMultiCall(batch)];
          var failed := db.deleteMulti(batch);
          if failed.Some? {
            RefusedAt(bs, db.deleteMulti, j);
            return Fail(BackendError(failed.value)), [GetKeysCall(keysQuery)] + issued;
          }
          i := i + BatchSize;
          j := j + 1;
          BatchIndex(total, j);
        }
      }
      RefusedAt(bs, db.deleteMulti, |bs|);
      assert bs[..|bs|] == bs;
      r, calls := Pass, [GetKeysCall(keysQuery)] + issued;
    }
  }

  /** Offset and cursor can both be configured without complaint; the
      conflict surfaces only when a query runs, and then before any backend
      call, whichever execution is asked for. */
  method BothPaginationModes<T>(db: Backend<T>, kind: string, offset: int, token: string,
                                decode: string -> Option<Cursor>, encode: Cursor -> string)
    returns (plain: Result<seq<T>>, first: Result<Option<T>>, paged: Result<(seq<T>, string)>, calls: seq<Call<T>>)
    requires offset > 0 && token != "" && decode(token) != None
    ensures plain == Err(UsesCursor) && first == Err(UsesCursor) && paged == Err(UsesOffset)
    ensures calls == []
  {
    var qb := new QueryBuilder(db, kind);
    qb.WithOffset(offset);
    qb.WithCursor(token, decode);
    assert qb.usingOffset && qb.usingCursor;
    var c1, c2, c3;
    plain, c1 := qb.Select();
    first, c2 := qb.Get();
    paged, c3 := qb.SelectWithCursor(encode);
    calls := c1 + c2 + c3;
  }

  /** Cursor pagination as documented: a first page of at most `pageSize`
      entities, then a fresh builder of the same kind and limit given the
      returned token. When the cursor library decodes every non-empty token
      it encodes, the second builder holds exactly the first query resumed
      at the first page's end cursor; a cursor encoded as the empty token
      is ignored, and the second builder holds the first query unchanged. */
  method NextPage<T>(db: Backend<T>, kind: string, pageSize: int,
                     decode: string -> Option<Cursor>, encode: Cursor -> string)
    returns (page: Result<(seq<T>, string)>, resumed: Query)
    requires pageSize > 0
    requires forall c :: encode(c) != "" ==> decode(encode(c)) == Some(c)
    ensures var q := EmptyQuery(kind).(limit := Some(pageSize));
      db.run(q).failure == None && db.cursorAfter(q).Done? ==>
        var cur := db.cursorAfter(q).value;
        && page == Ok((db.run(q).items, encode(cur)))
        && resumed == if encode(cur) == "" then q else q.(start := Some(cur))
    ensures page.Err? ==> resumed == EmptyQuery(kind).(limit := Some(pageSize))
  {
    var qb := new QueryBuilder(db, kind);
    qb.WithLimit(pageSize);
    var calls;
    page, calls := qb.SelectWithCursor(encode);
    var next := new QueryBuilder(db, kind);
    next.WithLimit(pageSize);
    if page.Ok? {
      next.WithCursor(page.value.1, decode);
    }
    resumed := next.query;
  }
}
