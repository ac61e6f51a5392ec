/** The generic CRUD handlers of handler.go over an abstract store and cache. The
    relational store is a map from table name to rows keyed by auto-increment id,
    the cache a map from key to the marshalled response, and every store or cache
    operation a handler issues is appended to an effect log, so that the order of
    operations can be stated. SQL evaluation is an uninterpreted engine; a store
    error is an input naming the step that fails. */
module Handlers {
  import opened Common
  import opened GoText
  import opened Schema
  import opened Registry
  import opened Binding
  import opened ListQuery
  import opened Ownership

  /** A table: auto-increment id to record. */
  type Table = map<nat, Instance>

  /** A response body as the handler marshals it. `ShapedBody` is a record copied
      into the model's response shape by `Replace`, whose effect is not modelled. */
  datatype Body =
    | ListBody(result: ListResult)
    | RecordBody(record: Instance)
    | ShapedBody(record: Instance)
    | IdBody(id: nat)
    | EmptyObject
    | ErrorBody(detail: string)

  datatype Response = Response(status: int, body: Body)

  function Ok(b: Body): Response {
    Response(200, b)
  }

  /** fastError (handler.go:16-31): status 400 and a `detail` message. Messages
      looked up with `ctx.Tr` are represented by their translation keys. */
  function BadRequest(detail: string): Response {
    Response(400, ErrorBody(detail))
  }

  const StoreError: string := "store error"
  const BadId: string := "id parameter error"
  const SearchDisabled: string := "search is not enabled"

  /** The storage calls that can report an error. */
  datatype Step = CountStep | FetchStep | ExistStep | GetStep | InsertStep | UpdateStep | DeleteStep

  /** A store or cache operation, as issued. */
  datatype Effect =
    | CountRows(q: Query)
    | FetchRows(f: Fetch)
    | ExistRow(table: string, id: nat)
    | GetRow(table: string, id: nat)
    | InsertRow(table: string, id: nat)
    | UpdateRow(table: string, id: nat)
    | DeleteRow(table: string, id: nat)
    | CacheSave(key: string, ttl: int)
    | CacheDelete(key: string)
    | DelayedCacheDelete(key: string, delay: int)

  /** The count and the rows the store returns for a query. */
  datatype Engine = Engine(count: (map<string, Table>, Query) -> nat, fetch: (map<string, Table>, Fetch) -> seq<Row>)

  /** What the handlers are built with: the registered models, the route prefix,
      the query engine, the binding helpers and `genRedisKey`. */
  datatype Env = Env(
    lists: seq<ModelInfo>,
    prefix: string,
    engine: Engine,
    helpers: Helpers,
    genKey: (string, string, string) -> string)

  /** The store, the next auto-increment id and the cache. */
  datatype Store = Store(tables: map<string, Table>, nextId: nat, cache: map<string, Body>)

  /** What one handler call does: the new store, the effects it issued, its response. */
  datatype Outcome = Outcome(store: Store, log: seq<Effect>, resp: Response)

  /** The list endpoint's URL parameters; `filters` is what `filterMatch` kept. */
  datatype ListParams = ListParams(
    page: Option<int>,
    pageSize: Option<int>,
    orderDesc: string,
    order: string,
    filters: map<string, string>,
    search: string)

  function RowsOf(s: Store, table: string): Table {
    if table in s.tables then s.tables[table] else map[]
  }

  /** The owner value as the ownership condition compares it with a column. */
  function Render(v: Value): string {
    match v
    case StrV(x) => x
    case IntV(i) => Itoa(i)
    case UintV(u) => NatDigits(u)
    case _ => ""
  }

  /** The ownership condition of `base()`, `col = ?` bound to the raw context value:
      always true for a model that is not private, and false for every row when no
      value is stored (the condition is then `col = NULL`). */
  predicate InScope(info: ModelInfo, row: Instance, pv: Option<string>) {
    !info.private || (pv.Some? && info.structColName in row && Render(row[info.structColName]) == pv.value)
  }

  /** `base().ID(id)` finds a row. */
  predicate Visible(s: Store, info: ModelInfo, id: nat, pv: Option<string>) {
    id in RowsOf(s, info.mapName) && InScope(info, RowsOf(s, info.mapName)[id], pv)
  }

  /** The owner value `%v`-formatted, as the cache key and the owner coercion use it. */
  function Owner(info: ModelInfo, req: Request): string {
    PrivateValue(req, info.keyName)
  }

  /** The raw owner value the ownership condition binds: None when nothing is stored. */
  function Scope(info: ModelInfo, req: Request): (pv: Option<string>)
    ensures pv.Some? <==> info.keyName in req.values
    ensures pv.Some? ==> pv.value == Owner(info, req)
  {
    if info.keyName in req.values then Some(req.values[info.keyName]) else None
  }

  /** genRedisKey(RequestURI, PrivateColName, owner). */
  function CacheKey(env: Env, info: ModelInfo, req: Request): string {
    env.genKey(req.uri, info.tableColName, Owner(info, req))
  }

  function Put(s: Store, table: string, id: nat, rec: Instance): Store {
    s.(tables := s.tables[table := RowsOf(s, table)[id := rec]])
  }

  function Evict(s: Store, on: bool, key: string): Store {
    if on then s.(cache := s.cache - {key}) else s
  }

  // ---------------------------------------------------------------- specifications

  /** GetAllFunc (handler.go:38-177) given the where-session it built: the search
      check, then the count, then the rest. */
  function ListOutcome(s: Store, env: Env, info: ModelInfo, req: Request, p: ListParams, fault: Option<Step>, where: Query): Outcome {
    if |RewriteSearch(p.search)| >= 1 && |info.settings.searchFields| < 1 then Outcome(s, [], BadRequest(SearchDisabled))
    else if fault == Some(CountStep) then Outcome(s, [CountRows(where)], BadRequest(StoreError))
    else
      var o := ListAfterCount(s, env, info, req, p, fault, where, env.engine.count(s.tables, where));
      Outcome(o.store, [CountRows(where)] + o.log, o.resp)
  }

  /** The data query of a given kind issued only when the count is at least 1; the
      projection, the result and the cache save. */
  function ListAfterCount(s: Store, env: Env, info: ModelInfo, req: Request, p: ListParams, fault: Option<Step>, where: Query, all: nat): Outcome {
    var page := Clamp(p.page, 1, info.settings.maxCount);
    var pageSize := Clamp(p.pageSize, 20, info.settings.maxSize);
    var search := RewriteSearch(p.search);
    var f := DataFetch(where, info, UseRangeScan(info, p.filters, p.order, p.orderDesc, search), pageSize, Window(page, pageSize));
    if all >= 1 && fault == Some(FetchStep) then Outcome(s, [FetchRows(f)], BadRequest(StoreError))
    else
      var fetched := if all >= 1 then env.engine.fetch(s.tables, f) else [];
      var data := if info.settings.allResp.Some? && |fetched| > 0 then ProjectRows(fetched, info.settings.allResp.value) else fetched;
      var result := BuildResult(pageSize, page, all, data, p.orderDesc, p.order, p.filters, p.search, search);
      var log := if all >= 1 then [FetchRows(f)] else [];
      if info.settings.allListCacheTime >= 1 then
        var key := CacheKey(env, info, req);
        Outcome(s.(cache := s.cache[key := ListBody(result)]), log + [CacheSave(key, info.settings.allListCacheTime)], Ok(ListBody(result)))
      else Outcome(s, log, Ok(ListBody(result)))
  }

  /** GetSingle (handler.go:180-225). */
  function SingleOutcome(s: Store, env: Env, info: ModelInfo, req: Request, id: Option<nat>, fault: Option<Step>): Outcome {
    if id.None? then Outcome(s, [], BadRequest(BadId))
    else
      var t, i := info.mapName, id.value;
      if fault == Some(GetStep) || !Visible(s, info, i, Scope(info, req)) then
        Outcome(s, [GetRow(t, i)], BadRequest("apiNotFoundDataFail"))
      else
        var row := RowsOf(s, t)[i];
        var body := if info.settings.singleResp then ShapedBody(row) else RecordBody(row);
        if info.settings.singleCacheTime >= 1 then
          var key := CacheKey(env, info, req);
          Outcome(s.(cache := s.cache[key := body]), [GetRow(t, i), CacheSave(key, info.settings.singleCacheTime)], Ok(body))
        else Outcome(s, [GetRow(t, i)], Ok(body))
  }

  /** AddData (handler.go:228-272): binding, owner coercion, then the insert. */
  function AddOutcome(s: Store, env: Env, info: ModelInfo, req: Request, fault: Option<Step>): Outcome {
    match BindByName(env.lists, info.mapName, req, env.helpers)
    case Failure(e) => Outcome(s, [], BadRequest(e))
    case Success(inst) =>
      match SetOwner(info, inst, Owner(info, req))
      case Failure(e) => Outcome(s, [], BadRequest(e))
      case Success(rec) => AddInsert(s, info, fault, rec)
  }

  /** The insert under the next auto-increment id. */
  function AddInsert(s: Store, info: ModelInfo, fault: Option<Step>, rec: Instance): Outcome {
    var t := info.mapName;
    if fault == Some(InsertStep) then Outcome(s, [InsertRow(t, s.nextId)], BadRequest("apiAddDataFail"))
    else
      Outcome(Put(s, t, s.nextId, rec).(nextId := s.nextId + 1), [InsertRow(t, s.nextId)],
        Ok(if info.settings.postResp then ShapedBody(rec) else RecordBody(rec)))
  }

  /** EditData (handler.go:275-364): the scoped existence check, then the rest. */
  function EditOutcome(s: Store, env: Env, info: ModelInfo, req: Request, id: Option<nat>, fault: Option<Step>): Outcome {
    if id.None? then Outcome(s, [], BadRequest(BadId))
    else
      var t, i := info.mapName, id.value;
      if fault == Some(ExistStep) then Outcome(s, [ExistRow(t, i)], BadRequest(StoreError))
      else if !Visible(s, info, i, Scope(info, req)) then Outcome(s, [ExistRow(t, i)], BadRequest("apiNotFoundDataFail"))
      else
        var o := EditChecked(s, env, info, req, i, fault);
        Outcome(o.store, [ExistRow(t, i)] + o.log, o.resp)
  }

  /** Binding, owner coercion, then the write. */
  function EditChecked(s: Store, env: Env, info: ModelInfo, req: Request, i: nat, fault: Option<Step>): Outcome {
    match BindByName(env.lists, info.mapName, req, env.helpers)
    case Failure(e) => Outcome(s, [], BadRequest(e))
    case Success(inst) =>
      match SetOwner(info, inst, Owner(info, req))
      case Failure(e) => Outcome(s, [], BadRequest(e))
      case Success(rec) => EditWrite(s, info, CacheKey(env, info, req), i, fault, rec)
  }

  /** The write of EditData: the first cache delete, the update by id (without the
      ownership condition, as written), and the delayed second delete. */
  function EditWrite(s: Store, info: ModelInfo, key: string, i: nat, fault: Option<Step>, rec: Instance): Outcome {
    var t, on := info.mapName, info.settings.singleCacheTime >= 1;
    var s1 := Evict(s, on, key);
    var log1 := (if on then [CacheDelete(key)] else []) + [UpdateRow(t, i)];
    if fault == Some(UpdateStep) || i !in RowsOf(s1, t) then Outcome(s1, log1, BadRequest("apiUpdateFail"))
    else
      Outcome(Put(s1, t, i, rec), log1 + (if on then [DelayedCacheDelete(key, info.settings.delayDeleteTime)] else []),
        Ok(if info.settings.putResp then ShapedBody(rec) else IdBody(i)))
  }

  /** DeleteData (handler.go:367-421): the scoped fetch, then the removal. */
  function DeleteOutcome(s: Store, env: Env, info: ModelInfo, req: Request, id: Option<nat>, fault: Option<Step>): Outcome {
    if id.None? then Outcome(s, [], BadRequest(BadId))
    else
      var t, i, pv := info.mapName, id.value, Scope(info, req);
      if fault == Some(GetStep) then Outcome(s, [GetRow(t, i)], BadRequest(StoreError))
      else if !Visible(s, info, i, pv) then Outcome(s, [GetRow(t, i)], BadRequest("apiNotFoundData"))
      else
        var o := DeleteRemove(s, info, CacheKey(env, info, req), i, fault);
        Outcome(o.store, [GetRow(t, i)] + o.log, o.resp)
  }

  /** The scoped delete of a fetched row and the cache delete after it. */
  function DeleteRemove(s: Store, info: ModelInfo, key: string, i: nat, fault: Option<Step>): Outcome
    requires i in RowsOf(s, info.mapName)
  {
    var t, row := info.mapName, RowsOf(s, info.mapName)[i];
    if fault == Some(DeleteStep) then Outcome(s, [DeleteRow(t, i)], BadRequest("apiDeleteFail"))
    else
      var on := info.settings.singleCacheTime >= 1;
      var s1 := s.(tables := s.tables[t := RowsOf(s, t) - {i}]);
      Outcome(Evict(s1, on, key), [DeleteRow(t, i)] + (if on then [CacheDelete(key)] else []),
        Ok(if info.settings.deleteResp then ShapedBody(row) else IdBody(i)))
  }

  // ---------------------------------------------------------------- cache middleware

  /** What the middleware does to the request: hand over to the next handler, or
      write a JSON body. */
  datatype MwStep = Next | WriteJson(body: Body)

  /** getCacheMiddleware (handler.go:424-452) as written: a miss calls `ctx.Next()`
      and then goes on to decode the empty string, which fails, calls `ctx.Next()`
      again and writes an empty object after whatever the handler wrote. A hit is
      written back as stored. */
  function CacheMiddlewareAsWritten(cache: map<string, Body>, key: string, header: string): (steps: seq<MwStep>)
    ensures header == "no-cache" ==> steps == [Next]
    ensures |steps| >= 1 && steps[|steps| - 1].WriteJson? <==> header != "no-cache"
  {
    if header == "no-cache" then [Next]
    else if key in cache then [WriteJson(cache[key])]
    else [Next, Next, WriteJson(EmptyObject)]
  }

  /** The middleware with a return after each `ctx.Next()`. */
  function CacheMiddleware(cache: map<string, Body>, key: string, header: string): (steps: seq<MwStep>)
    ensures |steps| == 1
    ensures steps[0] == Next <==> header == "no-cache" || key !in cache
  {
    if header == "no-cache" then [Next]
    else if key in cache then [WriteJson(cache[key])]
    else [Next]
  }

  /** On a miss the middleware as written calls `ctx.Next()` twice and then writes
      an empty object, where the corrected middleware hands over once. */
  lemma MiddlewareMissFallsThrough(cache: map<string, Body>, key: string, header: string)
    requires header != "no-cache" && key !in cache
    ensures CacheMiddlewareAsWritten(cache, key, header) == [Next, Next, WriteJson(EmptyObject)]
    ensures CacheMiddleware(cache, key, header) == [Next]
  {
  }

  /** On a hit and on a "no-cache" request the two agree. */
  lemma MiddlewareAgreesOtherwise(cache: map<string, Body>, key: string, header: string)
    requires header == "no-cache" || key in cache
    ensures CacheMiddlewareAsWritten(cache, key, header) == CacheMiddleware(cache, key, header)
  {
  }

  // ---------------------------------------------------------------- the handlers

  class RestApi {
    const env: Env
    var tables: map<string, Table>
    var nextId: nat
    var cache: map<string, Body>
    /** Every store and cache operation issued so far, in order. */
    var effects: seq<Effect>

    function State(): Store
      reads this
    {
      Store(tables, nextId, cache)
    }

    constructor (e: Env)
      ensures env == e && State() == Store(map[], 1, map[]) && effects == []
    {
      env := e;
      tables := map[];
      nextId := 1;
      cache := map[];
      effects := [];
    }

    /** The model a request path resolves to (the segment after the prefix). */
    function ModelFor(path: string): ModelInfo {
      ResolveModel(env.lists, env.prefix, path)
    }

    /** GetAllFunc. `where` is the session the handler built; its filter conditions
        follow the map's iteration order. */
    method GetAllFunc(path: string, req: Request, p: ListParams, fault: Option<Step>) returns (resp: Response, ghost where: Query)
      modifies this
      ensures var info := ModelFor(path);
        where.table == info.mapName && where.order == OrderFor(p.order, p.orderDesc)
        && IsWhere(info, p.filters, RewriteSearch(p.search), Scope(info, req), where.conds)
      ensures var o := ListOutcome(old(State()), env, ModelFor(path), req, p, fault, where);
        State() == o.store && effects == old(effects) + o.log && resp == o.resp
    {
      var info := ModelFor(path);
      var search := RewriteSearch(p.search);
      var q := BuildWhere(info, p.order, p.orderDesc, p.filters, search, Scope(info, req));
      where := q;
      if |search| >= 1 && |info.settings.searchFields| < 1 {
        return BadRequest(SearchDisabled), where;
      }
      var log := [CountRows(q)];
      if fault == Some(CountStep) {
        effects := effects + log;
        return BadRequest(StoreError), where;
      }
      var all := env.engine.count(tables, q);
      var rest;
      resp, rest := FetchPage(info, req, p, fault, q, all);
      effects := effects + (log + rest);
    }

    /** The rest of GetAllFunc once the count is known. */
    method FetchPage(info: ModelInfo, req: Request, p: ListParams, fault: Option<Step>, q: Query, all: nat) returns (resp: Response, log: seq<Effect>)
      modifies this
      ensures var o := ListAfterCount(old(State()), env, info, req, p, fault, q, all);
        State() == o.store && log == o.log && resp == o.resp
      ensures effects == old(effects)
    {
      var page := Clamp(p.page, 1, info.settings.maxCount);
      var pageSize := Clamp(p.pageSize, 20, info.settings.maxSize);
      var search := RewriteSearch(p.search);
      var w := Window(page, pageSize);
      var dataList: seq<Row> := [];
      var f := DataFetch(q, info, UseRangeScan(info, p.filters, p.order, p.orderDesc, search), pageSize, w);
      log := [];
      if all >= 1 {
        log := [FetchRows(f)];
        if fault == Some(FetchStep) {
          return BadRequest(StoreError), log;
        }
        dataList := env.engine.fetch(tables, f);
      }
      if info.settings.allResp.Some? && |dataList| > 0 {
        var projected := Project(dataList, info.settings.allResp.value);
        ProjectRowsUnique(projected, dataList, info.settings.allResp.value);
        dataList := projected;
      }
      var result := BuildResult(pageSize, page, all, dataList, p.orderDesc, p.order, p.filters, p.search, search);
      if info.settings.allListCacheTime >= 1 {
        var key := CacheKey(env, info, req);
        cache := cache[key := ListBody(result)];
        log := log + [CacheSave(key, info.settings.allListCacheTime)];
      }
      resp := Ok(ListBody(result));
    }

    /** GetSingle. */
    method GetSingle(path: string, req: Request, id: Option<nat>, fault: Option<Step>) returns (resp: Response)
      modifies this
      ensures var o := SingleOutcome(old(State()), env, ModelFor(path), req, id, fault);
        State() == o.store && effects == old(effects) + o.log && resp == o.resp
    {
      if id.None? {
        return BadRequest(BadId);
      }
      var info := ModelFor(path);
      var pv := Scope(info, req);
      var t := info.mapName;
      var log := [GetRow(t, id.value)];
      var has := fault != Some(GetStep) && t in tables && id.value in tables[t] && InScope(info, tables[t][id.value], pv);
      if !has {
        effects := effects + log;
        return BadRequest("apiNotFoundDataFail");
      }
      var newData := tables[t][id.value];
      var body := RecordBody(newData);
      if info.settings.singleResp {
        body := ShapedBody(newData);
      }
      if info.settings.singleCacheTime >= 1 {
        var key := CacheKey(env, info, req);
        cache := cache[key := body];
        log := log + [CacheSave(key, info.settings.singleCacheTime)];
      }
      effects := effects + log;
      resp := Ok(body);
    }

    /** AddData. */
    method AddData(path: string, req: Request, fault: Option<Step>) returns (resp: Response)
      modifies this
      ensures var o := AddOutcome(old(State()), env, ModelFor(path), req, fault);
        State() == o.store && effects == old(effects) + o.log && resp == o.resp
    {
      var info := ModelFor(path);
      var newInstance := GetCtxValues(env.lists, info.mapName, req, env.helpers);
      if newInstance.Failure? {
        return BadRequest(newInstance.error);
      }
      var owned := SetOwner(info, newInstance.value, Owner(info, req));
      if owned.Failure? {
        return BadRequest(owned.error);
      }
      var log;
      resp, log := Insert(info, fault, owned.value);
      effects := effects + log;
    }

    /** InsertOne under the next auto-increment id. */
    method Insert(info: ModelInfo, fault: Option<Step>, rec: Instance) returns (resp: Response, log: seq<Effect>)
      modifies this
      ensures var o := AddInsert(old(State()), info, fault, rec);
        State() == o.store && log == o.log && resp == o.resp
      ensures effects == old(effects)
    {
      var t := info.mapName;
      log := [InsertRow(t, nextId)];
      if fault == Some(InsertStep) {
        return BadRequest("apiAddDataFail"), log;
      }
      tables := tables[t := (if t in tables then tables[t] else map[])[nextId := rec]];
      nextId := nextId + 1;
      resp := Ok(if info.settings.postResp then ShapedBody(rec) else RecordBody(rec));
    }

    /** EditData. */
    method EditData(path: string, req: Request, id: Option<nat>, fault: Option<Step>) returns (resp: Response)
      modifies this
      ensures var o := EditOutcome(old(State()), env, ModelFor(path), req, id, fault);
        State() == o.store && effects == old(effects) + o.log && resp == o.resp
    {
      var info := ModelFor(path);
      var pv := Scope(info, req);
      if id.None? {
        return BadRequest(BadId);
      }
      var t, i := info.mapName, id.value;
      var log := [ExistRow(t, i)];
      if fault == Some(ExistStep) {
        effects := effects + log;
        return BadRequest(StoreError);
      }
      var has := t in tables && i in tables[t] && InScope(info, tables[t][i], pv);
      if !has {
        effects := effects + log;
        return BadRequest("apiNotFoundDataFail");
      }
      var rest;
      resp, rest := BindAndWrite(info, req, i, fault);
      effects := effects + (log + rest);
    }

    /** The binding, the owner coercion and the write of EditData. */
    method BindAndWrite(info: ModelInfo, req: Request, i: nat, fault: Option<Step>) returns (resp: Response, log: seq<Effect>)
      modifies this
      ensures var o := EditChecked(old(State()), env, info, req, i, fault);
        State() == o.store && log == o.log && resp == o.resp
      ensures effects == old(effects)
    {
      var newInstance := GetCtxValues(env.lists, info.mapName, req, env.helpers);
      if newInstance.Failure? {
        return BadRequest(newInstance.error), [];
      }
      var owned := SetOwner(info, newInstance.value, Owner(info, req));
      if owned.Failure? {
        return BadRequest(owned.error), [];
      }
      resp, log := WriteEdit(info, CacheKey(env, info, req), i, fault, owned.value);
    }

    /** The first cache delete, the update, and the delayed second delete. */
    method WriteEdit(info: ModelInfo, key: string, i: nat, fault: Option<Step>, rec: Instance) returns (resp: Response, log: seq<Effect>)
      modifies this
      ensures var o := EditWrite(old(State()), info, key, i, fault, rec);
        State() == o.store && log == o.log && resp == o.resp
      ensures effects == old(effects)
    {
      var t, on := info.mapName, info.settings.singleCacheTime >= 1;
      log := [];
      if on {
        cache := cache - {key};
        log := [CacheDelete(key)];
      }
      log := log + [UpdateRow(t, i)];
      var aff := if t in tables && i in tables[t] then 1 else 0;
      if fault == Some(UpdateStep) || aff < 1 {
        return BadRequest("apiUpdateFail"), log;
      }
      var rows: Table := tables[t][i := rec];
      tables := tables[t := rows];
      if on {
        log := log + [DelayedCacheDelete(key, info.settings.delayDeleteTime)];
      }
      resp := Ok(if info.settings.putResp then ShapedBody(rec) else IdBody(i));
    }

    /** DeleteData. */
    method DeleteData(path: string, req: Request, id: Option<nat>, fault: Option<Step>) returns (resp: Response)
      modifies this
      ensures var o := DeleteOutcome(old(State()), env, ModelFor(path), req, id, fault);
        State() == o.store && effects == old(effects) + o.log && resp == o.resp
    {
      var info := ModelFor(path);
      var pv := Scope(info, req);
      if id.None? {
        return BadRequest(BadId);
      }
      var t, i := info.mapName, id.value;
      var log := [GetRow(t, i)];
      if fault == Some(GetStep) {
        effects := effects + log;
        return BadRequest(StoreError);
      }
      var has := t in tables && i in tables[t] && InScope(info, tables[t][i], pv);
      if !has {
        effects := effects + log;
        return BadRequest("apiNotFoundData");
      }
      var rest;
      resp, rest := Remove(info, CacheKey(env, info, req), i, fault);
      effects := effects + (log + rest);
    }

    /** The scoped delete of the fetched row, then the cache delete. */
    method Remove(info: ModelInfo, key: string, i: nat, fault: Option<Step>) returns (resp: Response, log: seq<Effect>)
      requires info.mapName in tables && i in tables[info.mapName]
      modifies this
      ensures var o := DeleteRemove(old(State()), info, key, i, fault);
        State() == o.store && log == o.log && resp == o.resp
      ensures effects == old(effects)
    {
      var t := info.mapName;
      var newData := tables[t][i];
      log := [DeleteRow(t, i)];
      if fault == Some(DeleteStep) {
        return BadRequest("apiDeleteFail"), log;
      }
      tables := tables[t := tables[t] - {i}];
      if info.settings.singleCacheTime >= 1 {
        cache := cache - {key};
        log := log + [CacheDelete(key)];
      }
      resp := Ok(if info.settings.deleteResp then ShapedBody(newData) else IdBody(i));
    }
  }

  // ---------------------------------------------------------------- properties

  /** The store's own invariant: every stored id is below the next auto-increment id. */
  ghost predicate IdsBelow(s: Store) {
    forall t, i | t in s.tables && i in s.tables[t] :: i < s.nextId
  }

  /** Outside the handler's own table nothing changes. */
  ghost predicate SameElsewhere(s: Store, s2: Store, table: string) {
    forall t | t != table :: (t in s2.tables <==> t in s.tables) && (t in s.tables ==> s2.tables[t] == s.tables[t])
  }

  /** The list handler rejects a search on a model without search fields before it
      touches the store; otherwise it counts first and asks for rows only when the
      count is at least 1, and the page and page size it reports respect the caps. */
  lemma ListEffects(s: Store, env: Env, info: ModelInfo, req: Request, p: ListParams, fault: Option<Step>, where: Query)
    ensures var o := ListOutcome(s, env, info, req, p, fault, where);
      |RewriteSearch(p.search)| >= 1 && |info.settings.searchFields| < 1 ==>
        o.store == s && o.log == [] && o.resp == BadRequest(SearchDisabled)
    ensures var o := ListOutcome(s, env, info, req, p, fault, where);
      var all := env.engine.count(s.tables, where);
      !(|RewriteSearch(p.search)| >= 1 && |info.settings.searchFields| < 1) ==>
        |o.log| >= 1 && o.log[0] == CountRows(where)
        && ((|o.log| >= 2 && o.log[1].FetchRows?) <==> fault != Some(CountStep) && all >= 1)
        && (|o.log| >= 2 && o.log[1].FetchRows? ==>
              var page := Clamp(p.page, 1, info.settings.maxCount);
              var pageSize := Clamp(p.pageSize, 20, info.settings.maxSize);
              o.log[1] == FetchRows(DataFetch(where, info, UseRangeScan(info, p.filters, p.order, p.orderDesc, RewriteSearch(p.search)),
                                              pageSize, Window(page, pageSize))))
        && (o.resp.status == 200 <==> fault != Some(CountStep) && !(all >= 1 && fault == Some(FetchStep)))
    ensures var o := ListOutcome(s, env, info, req, p, fault, where);
      o.resp.status == 200 ==>
        o.resp.body.ListBody?
        && o.resp.body.result.all == env.engine.count(s.tables, where)
        && (o.resp.body.result.all < 1 ==> o.resp.body.result.data == [])
        && o.resp.body.result.page <= info.settings.maxCount
        && o.resp.body.result.pageSize <= info.settings.maxSize
  {
  }

  /** Listing never writes a table or takes an id, and the only cache entry it can
      write is the one under the request's own key. */
  lemma ListReadOnly(s: Store, env: Env, info: ModelInfo, req: Request, p: ListParams, fault: Option<Step>, where: Query)
    ensures var o := ListOutcome(s, env, info, req, p, fault, where);
      o.store.tables == s.tables && o.store.nextId == s.nextId
      && forall k | k != CacheKey(env, info, req) :: (k in o.store.cache <==> k in s.cache) && (k in s.cache ==> o.store.cache[k] == s.cache[k])
  {
  }

  /** With list caching on, a successful listing is what the cache middleware serves
      for the same request afterwards. */
  lemma ListCached(s: Store, env: Env, info: ModelInfo, req: Request, p: ListParams, fault: Option<Step>, where: Query, header: string)
    requires header != "no-cache" && info.settings.allListCacheTime >= 1
    ensures var o := ListOutcome(s, env, info, req, p, fault, where);
      o.resp.status == 200 ==> CacheMiddleware(o.store.cache, CacheKey(env, info, req), header) == [WriteJson(o.resp.body)]
  {
  }

  /** A single fetch succeeds exactly when the row exists within the requester's
      scope, returns that row, and changes no table. */
  lemma SingleFinds(s: Store, env: Env, info: ModelInfo, req: Request, i: nat)
    ensures var o := SingleOutcome(s, env, info, req, Some(i), None);
      (o.resp.status == 200 <==> Visible(s, info, i, Scope(info, req)))
      && (o.resp.status == 200 ==> (o.resp.body.RecordBody? || o.resp.body.ShapedBody?) && o.resp.body.record == RowsOf(s, info.mapName)[i])
      && o.store.tables == s.tables && o.store.nextId == s.nextId
  {
  }

  /** With single caching on, a successful fetch is what the cache middleware serves
      for the same request afterwards. */
  lemma SingleCached(s: Store, env: Env, info: ModelInfo, req: Request, id: Option<nat>, fault: Option<Step>, header: string)
    requires header != "no-cache" && info.settings.singleCacheTime >= 1
    ensures var o := SingleOutcome(s, env, info, req, id, fault);
      o.resp.status == 200 ==> CacheMiddleware(o.store.cache, CacheKey(env, info, req), header) == [WriteJson(o.resp.body)]
  {
  }

  /** A create either changes nothing, or stores the bound and owner-stamped record
      under the next id, which no row had, and echoes it. */
  lemma AddEffects(s: Store, env: Env, info: ModelInfo, req: Request, fault: Option<Step>)
    requires IdsBelow(s)
    ensures var o := AddOutcome(s, env, info, req, fault);
      o.resp.status != 200 ==> o.store == s
    ensures var o := AddOutcome(s, env, info, req, fault);
      o.resp.status == 200 ==>
        BindByName(env.lists, info.mapName, req, env.helpers).Success?
        && SetOwner(info, BindByName(env.lists, info.mapName, req, env.helpers).value, Owner(info, req)).Success?
    ensures var o := AddOutcome(s, env, info, req, fault);
      o.resp.status == 200 ==>
        var rec := SetOwner(info, BindByName(env.lists, info.mapName, req, env.helpers).value, Owner(info, req)).value;
        s.nextId !in RowsOf(s, info.mapName)
        && RowsOf(o.store, info.mapName) == RowsOf(s, info.mapName)[s.nextId := rec]
        && o.store.nextId == s.nextId + 1 && o.store.cache == s.cache
        && o.log == [InsertRow(info.mapName, s.nextId)]
        && (o.resp.body.RecordBody? || o.resp.body.ShapedBody?) && o.resp.body.record == rec
        && SameElsewhere(s, o.store, info.mapName)
  {
    var b := BindByName(env.lists, info.mapName, req, env.helpers);
    if b.Success? && SetOwner(info, b.value, Owner(info, req)).Success? {
      AddInsertEffects(s, info, fault, SetOwner(info, b.value, Owner(info, req)).value);
    }
  }

  /** The insert step: on success the record is stored under the next id, which no
      row had; on failure nothing changes. */
  lemma AddInsertEffects(s: Store, info: ModelInfo, fault: Option<Step>, rec: Instance)
    requires IdsBelow(s)
    ensures var o := AddInsert(s, info, fault, rec);
      o.resp.status != 200 ==> o.store == s
    ensures var o := AddInsert(s, info, fault, rec);
      o.resp.status == 200 ==>
        s.nextId !in RowsOf(s, info.mapName)
        && RowsOf(o.store, info.mapName) == RowsOf(s, info.mapName)[s.nextId := rec]
        && o.store.nextId == s.nextId + 1 && o.store.cache == s.cache
        && o.log == [InsertRow(info.mapName, s.nextId)]
        && (o.resp.body.RecordBody? || o.resp.body.ShapedBody?) && o.resp.body.record == rec
        && SameElsewhere(s, o.store, info.mapName)
  {
  }

  /** Every handler keeps every stored id below the next one. */
  lemma HandlersKeepIds(s: Store, env: Env, info: ModelInfo, req: Request, p: ListParams, id: Option<nat>, fault: Option<Step>, where: Query)
    requires IdsBelow(s)
    ensures IdsBelow(ListOutcome(s, env, info, req, p, fault, where).store)
    ensures IdsBelow(SingleOutcome(s, env, info, req, id, fault).store)
    ensures IdsBelow(AddOutcome(s, env, info, req, fault).store)
    ensures IdsBelow(EditOutcome(s, env, info, req, id, fault).store)
    ensures IdsBelow(DeleteOutcome(s, env, info, req, id, fault).store)
  {
    ListReadOnly(s, env, info, req, p, fault, where);
    SingleKeeps(s, env, info, req, id, fault);
    AddKeepsIds(s, env, info, req, fault);
    EditKeepsIds(s, env, info, req, id, fault);
    DeleteKeepsIds(s, env, info, req, id, fault);
  }

  lemma SingleKeeps(s: Store, env: Env, info: ModelInfo, req: Request, id: Option<nat>, fault: Option<Step>)
    ensures var o := SingleOutcome(s, env, info, req, id, fault);
      o.store.tables == s.tables && o.store.nextId == s.nextId
  {
  }

  lemma AddKeepsIds(s: Store, env: Env, info: ModelInfo, req: Request, fault: Option<Step>)
    requires IdsBelow(s)
    ensures IdsBelow(AddOutcome(s, env, info, req, fault).store)
  {
    var o := AddOutcome(s, env, info, req, fault);
    if o.resp.status == 200 {
      AddEffects(s, env, info, req, fault);
      forall t, i | t in o.store.tables && i in o.store.tables[t]
        ensures i < o.store.nextId
      {
        if t != info.mapName {
          assert o.store.tables[t] == s.tables[t];
        } else if i != s.nextId {
          assert i in RowsOf(s, t);
        }
      }
    } else {
      AddEffects(s, env, info, req, fault);
    }
  }

  lemma EditKeepsIds(s: Store, env: Env, info: ModelInfo, req: Request, id: Option<nat>, fault: Option<Step>)
    requires IdsBelow(s)
    ensures IdsBelow(EditOutcome(s, env, info, req, id, fault).store)
  {
    if id.Some? {
      forall rec: Instance {
        EditWriteKeeps(s, info, CacheKey(env, info, req), id.value, fault, rec);
      }
    }
  }

  /** The write of an edit replaces an existing row or changes no table. */
  lemma EditWriteKeeps(s: Store, info: ModelInfo, key: string, i: nat, fault: Option<Step>, rec: Instance)
    ensures var o := EditWrite(s, info, key, i, fault, rec);
      o.store.nextId == s.nextId && SameElsewhere(s, o.store, info.mapName)
      && (o.store.tables == s.tables || (i in RowsOf(s, info.mapName) && RowsOf(o.store, info.mapName) == RowsOf(s, info.mapName)[i := rec]))
    ensures IdsBelow(s) ==> IdsBelow(EditWrite(s, info, key, i, fault, rec).store)
  {
  }

  /** An edit first checks, within the requester's scope, that the row exists, and
      changes nothing when it does not. */
  lemma EditMissing(s: Store, env: Env, info: ModelInfo, req: Request, i: nat, fault: Option<Step>)
    requires fault != Some(ExistStep) && !Visible(s, info, i, Scope(info, req))
    ensures EditOutcome(s, env, info, req, Some(i), fault)
      == Outcome(s, [ExistRow(info.mapName, i)], BadRequest("apiNotFoundDataFail"))
  {
  }

  /** The write step deletes the cached entry before the update and, only when the
      update succeeds, schedules the second delete; the successful update replaces
      the whole row, and a failed one changes no table. */
  lemma EditWriteEffects(s: Store, info: ModelInfo, key: string, i: nat, fault: Option<Step>, rec: Instance)
    ensures var o := EditWrite(s, info, key, i, fault, rec);
      o.resp.status == 200 <==> fault != Some(UpdateStep) && i in RowsOf(s, info.mapName)
    ensures var o := EditWrite(s, info, key, i, fault, rec);
      var t := info.mapName;
      o.resp.status != 200 ==>
        o.store == Evict(s, info.settings.singleCacheTime >= 1, key)
        && o.log == (if info.settings.singleCacheTime >= 1 then [CacheDelete(key)] else []) + [UpdateRow(t, i)]
        && forall e | e in o.log :: !e.DelayedCacheDelete?
    ensures var o := EditWrite(s, info, key, i, fault, rec);
      var t := info.mapName;
      o.resp.status == 200 ==>
        RowsOf(o.store, t) == RowsOf(s, t)[i := rec] && SameElsewhere(s, o.store, t) && o.store.nextId == s.nextId
        && (info.settings.singleCacheTime >= 1 ==>
              o.log == [CacheDelete(key), UpdateRow(t, i), DelayedCacheDelete(key, info.settings.delayDeleteTime)])
        && (info.settings.singleCacheTime < 1 ==> o.log == [UpdateRow(t, i)])
  {
  }

  /** A successful edit passed the scoped existence check and the binding, replaced
      the whole row with the bound, owner-stamped record, and issued its cache deletes
      around the update. */
  lemma {:induction false} EditEffects(s: Store, env: Env, info: ModelInfo, req: Request, i: nat, fault: Option<Step>)
    ensures var o := EditOutcome(s, env, info, req, Some(i), fault);
      o.resp.status == 200 ==>
        Visible(s, info, i, Scope(info, req))
        && BindByName(env.lists, info.mapName, req, env.helpers).Success?
        && SetOwner(info, BindByName(env.lists, info.mapName, req, env.helpers).value, Owner(info, req)).Success?
    ensures var o := EditOutcome(s, env, info, req, Some(i), fault);
      var key, t := CacheKey(env, info, req), info.mapName;
      o.resp.status == 200 ==>
        var rec := SetOwner(info, BindByName(env.lists, info.mapName, req, env.helpers).value, Owner(info, req)).value;
        RowsOf(o.store, t) == RowsOf(s, t)[i := rec] && SameElsewhere(s, o.store, t) && o.store.nextId == s.nextId
        && (info.settings.singleCacheTime >= 1 ==>
              o.log == [ExistRow(t, i), CacheDelete(key), UpdateRow(t, i), DelayedCacheDelete(key, info.settings.delayDeleteTime)])
        && (info.settings.singleCacheTime < 1 ==> o.log == [ExistRow(t, i), UpdateRow(t, i)])
    ensures var o := EditOutcome(s, env, info, req, Some(i), fault);
      var b := BindByName(env.lists, info.mapName, req, env.helpers);
      fault != Some(ExistStep) && Visible(s, info, i, Scope(info, req)) ==>
        (b.Failure? ==> o == Outcome(s, [ExistRow(info.mapName, i)], BadRequest(b.error)))
        && (b.Success? && SetOwner(info, b.value, Owner(info, req)).Failure? ==>
              o == Outcome(s, [ExistRow(info.mapName, i)], BadRequest(SetOwner(info, b.value, Owner(info, req)).error)))
    ensures var o := EditOutcome(s, env, info, req, Some(i), fault);
      o.resp.status != 200 ==> o.store.tables == s.tables && forall e | e in o.log :: !e.DelayedCacheDelete?
  {
    var o := EditOutcome(s, env, info, req, Some(i), fault);
    if o.resp.status != 200 && fault != Some(ExistStep) && Visible(s, info, i, Scope(info, req)) {
      var b := BindByName(env.lists, info.mapName, req, env.helpers);
      if b.Success? && SetOwner(info, b.value, Owner(info, req)).Success? {
        var rec := SetOwner(info, b.value, Owner(info, req)).value;
        EditWriteEffects(s, info, CacheKey(env, info, req), i, fault, rec);
      }
    }
    if o.resp.status == 200 {
      var inst := BindByName(env.lists, info.mapName, req, env.helpers).value;
      var rec := SetOwner(info, inst, Owner(info, req)).value;
      EditWriteEffects(s, info, CacheKey(env, info, req), i, fault, rec);
    }
  }

  /** With single caching on, an edit that got past its checks leaves no cached entry
      under the request's key, so the middleware hands the next read to the handler. */
  lemma EditInvalidates(s: Store, env: Env, info: ModelInfo, req: Request, i: nat, fault: Option<Step>, header: string)
    requires info.settings.singleCacheTime >= 1
    ensures var o := EditOutcome(s, env, info, req, Some(i), fault);
      |o.log| >= 2 ==>
        (o.log[1] == CacheDelete(CacheKey(env, info, req))
         && CacheMiddleware(o.store.cache, CacheKey(env, info, req), header) == [Next])
  {
  }

  /** A delete succeeds exactly when the row exists within the requester's scope and
      the store does not fail; it then removes that row only, and with caching on
      deletes the cached entry after the row. */
  lemma DeleteEffects(s: Store, env: Env, info: ModelInfo, req: Request, i: nat, fault: Option<Step>)
    ensures var o := DeleteOutcome(s, env, info, req, Some(i), fault);
      o.resp.status == 200 <==> Visible(s, info, i, Scope(info, req)) && fault != Some(GetStep) && fault != Some(DeleteStep)
    ensures var o := DeleteOutcome(s, env, info, req, Some(i), fault);
      o.resp.status != 200 ==> o.store == s
    ensures var o := DeleteOutcome(s, env, info, req, Some(i), fault);
      var key, t := CacheKey(env, info, req), info.mapName;
      o.resp.status == 200 ==>
        RowsOf(o.store, t) == RowsOf(s, t) - {i} && SameElsewhere(s, o.store, t) && o.store.nextId == s.nextId
        && o.log == [GetRow(t, i), DeleteRow(t, i)] + (if info.settings.singleCacheTime >= 1 then [CacheDelete(key)] else [])
        && (info.settings.singleCacheTime >= 1 ==> key !in o.store.cache)
  {
  }

  /** Deleting the same id twice: the second request, by anyone, finds nothing and
      changes nothing. */
  lemma {:induction false} DeleteTwice(s: Store, env: Env, info: ModelInfo, req: Request, req2: Request, i: nat)
    ensures var o := DeleteOutcome(s, env, info, req, Some(i), None);
      o.resp.status == 200 ==>
        DeleteOutcome(o.store, env, info, req2, Some(i), None) == Outcome(o.store, [GetRow(info.mapName, i)], BadRequest("apiNotFoundData"))
  {
    DeleteEffects(s, env, info, req, i, None);
  }

  /** A record created by a requester is read back by the same requester under the
      id it was given, when the model is not private, or its owner field is a string
      and an owner value is stored. */
  lemma {:induction false} AddThenGet(s: Store, env: Env, info: ModelInfo, req: Request, req2: Request)
    requires IdsBelow(s)
    requires Scope(info, req2) == Scope(info, req)
    requires info.private ==> Scope(info, req).Some?
    requires !info.private || FieldType(info.fieldList.fields, info.structColName) == Some("string")
    ensures var o := AddOutcome(s, env, info, req, None);
      o.resp.status == 200 ==>
        var g := SingleOutcome(o.store, env, info, req2, Some(s.nextId), None);
        g.resp.status == 200 && g.resp.body.record == o.resp.body.record
  {
    var o := AddOutcome(s, env, info, req, None);
    if o.resp.status == 200 {
      AddEffects(s, env, info, req, None);
      var inst := BindByName(env.lists, info.mapName, req, env.helpers).value;
      SetOwnerFrame(info, inst, Owner(info, req));
      assert Visible(o.store, info, s.nextId, Scope(info, req2));
      SingleFinds(o.store, env, info, req2, s.nextId);
    }
  }

  /** In a private model with a string owner field, a record created by one owner is
      not found by another. */
  lemma {:induction false} AddHiddenFromOthers(s: Store, env: Env, info: ModelInfo, req: Request, req2: Request)
    requires IdsBelow(s)
    requires info.private && FieldType(info.fieldList.fields, info.structColName) == Some("string")
    requires Owner(info, req2) != Owner(info, req)
    ensures var o := AddOutcome(s, env, info, req, None);
      o.resp.status == 200 ==>
        SingleOutcome(o.store, env, info, req2, Some(s.nextId), None).resp == BadRequest("apiNotFoundDataFail")
  {
    var o := AddOutcome(s, env, info, req, None);
    if o.resp.status == 200 {
      AddEffects(s, env, info, req, None);
      var inst := BindByName(env.lists, info.mapName, req, env.helpers).value;
      SetOwnerFrame(info, inst, Owner(info, req));
      assert !Visible(o.store, info, s.nextId, Scope(info, req2));
    }
  }

  /** In a private model a request with no owner value stored finds no row: the
      single fetch, the edit and the delete all report that nothing was found, and
      none of them changes the store. */
  lemma NoOwnerFindsNothing(s: Store, env: Env, info: ModelInfo, req: Request, i: nat, fault: Option<Step>)
    requires info.private && info.keyName !in req.values
    ensures SingleOutcome(s, env, info, req, Some(i), fault)
      == Outcome(s, [GetRow(info.mapName, i)], BadRequest("apiNotFoundDataFail"))
    ensures fault != Some(ExistStep) ==>
      EditOutcome(s, env, info, req, Some(i), fault) == Outcome(s, [ExistRow(info.mapName, i)], BadRequest("apiNotFoundDataFail"))
    ensures fault != Some(GetStep) ==>
      DeleteOutcome(s, env, info, req, Some(i), fault) == Outcome(s, [GetRow(info.mapName, i)], BadRequest("apiNotFoundData"))
  {
  }

  lemma DeleteKeepsIds(s: Store, env: Env, info: ModelInfo, req: Request, id: Option<nat>, fault: Option<Step>)
    requires IdsBelow(s)
    ensures IdsBelow(DeleteOutcome(s, env, info, req, id, fault).store)
  {
  }
}
