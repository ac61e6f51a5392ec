/** The resource registry (main.go): what a registered record offers, the per-resource
    `modelInfo` that `Run` records, the lookups by table name and by request path, and
    the routes `Run` registers for the five generic operations. */
module Registry {
  import opened Common
  import opened GoText
  import opened Schema

  // ---------------------------------------------------------------- configuration

  /** isContain (main.go:17-24). */
  function IsContain(items: seq<string>, item: string): (r: bool)
    ensures r <==> item in items
  {
    if items == [] then false
    else if items[0] == item then true
    else IsContain(items[1..], item)
  }

  /** The five generic operations, named as the disable list names them. */
  datatype Op = GetAll | GetSingle | Post | Put | Delete

  const AllOps: seq<Op> := [GetAll, GetSingle, Post, Put, Delete]

  function OpName(op: Op): string {
    match op
    case GetAll => "get(all)"
    case GetSingle => "get(single)"
    case Post => "post"
    case Put => "put"
    case Delete => "delete"
  }

  function Verb(op: Op): string {
    match op
    case GetAll => "GET"
    case GetSingle => "GET"
    case Post => "POST"
    case Put => "PUT"
    case Delete => "DELETE"
  }

  function PathOf(op: Op): string {
    if op == GetAll || op == Post then "/" else "/{id:uint64}"
  }

  /** PrivateAccessProcess: the context key holding the owner, and the struct field
      that stores it. */
  datatype PrivateAccess = PrivateAccess(contextKey: string, colName: string)

  /** The optional interfaces a registered record implements: private access, a
      party-wide pre-middleware, a disable list, an overriding handler per operation
      and a route pre-middleware per operation. */
  datatype Capabilities = Capabilities(
    privateAccess: Option<PrivateAccess>,
    globalPreMiddleware: bool,
    disableMethods: seq<string>,
    overrides: set<Op>,
    preMiddleware: set<Op>)

  /** The storage engine's table metadata for a record: the special columns. */
  datatype TableMeta = TableMeta(
    autoIncrement: string,
    version: string,
    deleted: string,
    created: set<string>,
    updated: string)

  /** Per-resource settings the handlers read: the searchable columns, the response
      shapes (`allResp` keeps the leaf list of the list response shape), the page caps
      (`getPage`) and the cache durations. */
  datatype HandlerSettings = HandlerSettings(
    searchFields: seq<string>,
    allResp: Option<seq<StructInfo>>,
    singleResp: bool,
    postResp: bool,
    putResp: bool,
    deleteResp: bool,
    maxCount: int,
    maxSize: int,
    allListCacheTime: int,
    singleCacheTime: int,
    delayDeleteTime: int)

  const NoSettings: HandlerSettings := HandlerSettings([], None, false, false, false, false, 0, 0, 0, 0, 0)

  /** One entry of `StructList`: the record's type, the table name the engine gives
      it, its table metadata (None when the engine reports an error), the interfaces
      it implements and its handler settings. */
  datatype RegisteredModel = RegisteredModel(
    typ: GoType,
    tableName: string,
    tableInfo: Option<TableMeta>,
    caps: Capabilities,
    settings: HandlerSettings)

  /** Config: the route prefix, the registered records and the engine's column mapper. */
  datatype Config = Config(prefix: string, structList: seq<RegisteredModel>, mapper: string -> string)

  /** modelInfo, carrying also the handler settings. `tableColName` is the column the
      ownership predicate and the cache key use, `structColName` the field the
      ownership value is written to. */
  datatype ModelInfo = ModelInfo(
    mapName: string,
    model: GoType,
    private: bool,
    keyName: string,
    tableColName: string,
    structColName: string,
    fieldList: TableFieldsResp,
    settings: HandlerSettings)

  /** The zero modelInfo{}. */
  const EmptyInfo: ModelInfo := ModelInfo("", Basic(""), false, "", "", "", EmptyFields, NoSettings)

  // ---------------------------------------------------------------- field lists

  function FieldsOf(m: RegisteredModel, mapper: string -> string): TableFieldsResp {
    match m.tableInfo
    case None => EmptyFields
    case Some(t) => TableFieldsResp(Flatten(m.typ, mapper), t.autoIncrement, t.version, t.deleted, t.created, t.updated)
  }

  /** The field list of the first registered record with the given table name. */
  function FieldsFor(config: Config, tableName: string): (r: TableFieldsResp)
    ensures (forall i | 0 <= i < |config.structList| :: config.structList[i].tableName != tableName) ==> r == EmptyFields
    ensures forall i | 0 <= i < |config.structList| && config.structList[i].tableName == tableName
                       && (forall j | 0 <= j < i :: config.structList[j].tableName != tableName)
              :: r == FieldsOf(config.structList[i], config.mapper)
  {
    var p := (m: RegisteredModel) => m.tableName == tableName;
    forall i | 0 <= i < |config.structList| && p(config.structList[i])
                       && (forall j | 0 <= j < i :: !p(config.structList[j]))
      ensures FirstIndex(config.structList, p) == Some(i)
    {
      FirstIndexIs(config.structList, p, i);
    }
    match FirstIndex(config.structList, p)
    case None => EmptyFields
    case Some(k) => FieldsOf(config.structList[k], config.mapper)
  }

  /** tableNameReflectFieldsAndTypes (main.go:182-203). */
  method ReflectFieldsAndTypes(config: Config, tableName: string) returns (resp: TableFieldsResp)
    ensures resp == FieldsFor(config, tableName)
  {
    var i := 0;
    while i < |config.structList|
      invariant 0 <= i <= |config.structList|
      invariant forall j | 0 <= j < i :: config.structList[j].tableName != tableName
    {
      var item := config.structList[i];
      if item.tableName == tableName {
        match item.tableInfo {
          case None =>
            return EmptyFields;
          case Some(meta) =>
            var values := GetNestedStructMaps(item.typ, config.mapper);
            return TableFieldsResp(values, meta.autoIncrement, meta.version, meta.deleted, meta.created, meta.updated);
        }
      }
      i := i + 1;
    }
    return EmptyFields;
  }

  /** The private column resolution of Run (main.go:82-89): the column name of the
      first leaf whose field name is the private field, or "" when there is none. */
  function PrivateTableColName(fields: seq<StructInfo>, structColName: string): (col: string)
    ensures (forall i | 0 <= i < |fields| :: fields[i].name != structColName) ==> col == ""
    ensures forall i | 0 <= i < |fields| && fields[i].name == structColName
                       && (forall j | 0 <= j < i :: fields[j].name != structColName)
              :: col == fields[i].mapName
  {
    var p := (f: StructInfo) => f.name == structColName;
    forall i | 0 <= i < |fields| && p(fields[i]) && (forall j | 0 <= j < i :: !p(fields[j]))
      ensures FirstIndex(fields, p) == Some(i)
    {
      FirstIndexIs(fields, p, i);
    }
    match FirstIndex(fields, p)
    case None => ""
    case Some(k) => fields[k].mapName
  }

  /** The modelInfo Run records for a registered record (main.go:59-89). */
  function InfoFor(config: Config, m: RegisteredModel): ModelInfo {
    var fl := FieldsFor(config, m.tableName);
    match m.caps.privateAccess
    case None => ModelInfo(m.tableName, m.typ, false, "", "", "", fl, m.settings)
    case Some(pa) =>
      ModelInfo(m.tableName, m.typ, true, pa.contextKey, PrivateTableColName(fl.fields, pa.colName), pa.colName, fl, m.settings)
  }

  method BuildInfo(config: Config, m: RegisteredModel) returns (info: ModelInfo)
    ensures info == InfoFor(config, m)
    ensures info.private <==> m.caps.privateAccess.Some?
    ensures info.mapName == m.tableName
  {
    var fl := ReflectFieldsAndTypes(config, m.tableName);
    info := ModelInfo(m.tableName, m.typ, false, "", "", "", fl, m.settings);
    if m.caps.privateAccess.Some? {
      var pa := m.caps.privateAccess.value;
      var col := ResolvePrivateColumn(fl.fields, pa.colName);
      info := ModelInfo(m.tableName, m.typ, true, pa.contextKey, col, pa.colName, fl, m.settings);
    }
  }

  /** The loop of main.go:83-88. */
  method ResolvePrivateColumn(fields: seq<StructInfo>, structColName: string) returns (col: string)
    ensures col == PrivateTableColName(fields, structColName)
  {
    col := "";
    var i := 0;
    while i < |fields|
      invariant 0 <= i <= |fields|
      invariant forall j | 0 <= j < i :: fields[j].name != structColName
    {
      if fields[i].name == structColName {
        col := fields[i].mapName;
        break;
      }
      i := i + 1;
    }
  }

  // ---------------------------------------------------------------- lookups

  /** The first entry whose MapName is `name`. */
  function Lookup(lists: seq<ModelInfo>, name: string): (r: Option<ModelInfo>)
    ensures r.None? <==> forall i | 0 <= i < |lists| :: lists[i].mapName != name
    ensures r.Some? ==> r.value in lists && r.value.mapName == name
    ensures forall i | 0 <= i < |lists| && lists[i].mapName == name
                       && (forall j | 0 <= j < i :: lists[j].mapName != name)
              :: r == Some(lists[i])
  {
    var p := (m: ModelInfo) => m.mapName == name;
    forall i | 0 <= i < |lists| && p(lists[i]) && (forall j | 0 <= j < i :: !p(lists[j]))
      ensures FirstIndex(lists, p) == Some(i)
    {
      FirstIndexIs(lists, p, i);
    }
    match FirstIndex(lists, p)
    case None => None
    case Some(k) => Some(lists[k])
  }

  /** tableNameGetModelInfo (main.go:261-268). */
  function TableNameGetModelInfo(lists: seq<ModelInfo>, tableName: string): (r: Result<ModelInfo, string>)
    ensures r.Failure? <==> forall i | 0 <= i < |lists| :: lists[i].mapName != tableName
    ensures r.Success? ==> r.value in lists && r.value.mapName == tableName
    ensures forall i | 0 <= i < |lists| && lists[i].mapName == tableName
                       && (forall j | 0 <= j < i :: lists[j].mapName != tableName)
              :: r == Success(lists[i])
  {
    match Lookup(lists, tableName)
    case None => Failure("model not found")
    case Some(m) => Success(m)
  }

  /** pathGetModel (main.go:172-180) as written: the model named by the FIRST path
      segment, whatever the configured prefix is. */
  function PathGetModel(lists: seq<ModelInfo>, path: string): (m: ModelInfo)
    requires '/' in path
    ensures m == EmptyInfo || (m in lists && m.mapName == Split(path, '/')[1])
    ensures (forall i | 0 <= i < |lists| :: lists[i].mapName != Split(path, '/')[1]) ==> m == EmptyInfo
    ensures forall i | 0 <= i < |lists| && lists[i].mapName == Split(path, '/')[1]
                       && (forall j | 0 <= j < i :: lists[j].mapName != Split(path, '/')[1])
              :: m == lists[i]
  {
    match Lookup(lists, Split(path, '/')[1])
    case None => EmptyInfo
    case Some(info) => info
  }

  /** The path after the configured prefix has at least one '/'. */
  predicate UnderPrefix(prefix: string, path: string) {
    |prefix| <= |path| && path[..|prefix|] == prefix && '/' in path[|prefix|..]
  }

  /** The resource segment of a path under the prefix. */
  function Resource(prefix: string, path: string): string
    requires UnderPrefix(prefix, path)
  {
    Split(path[|prefix|..], '/')[1]
  }

  /** The lookup the handlers use: the segment after the configured prefix. */
  function ResolveModel(lists: seq<ModelInfo>, prefix: string, path: string): (m: ModelInfo)
    ensures m == EmptyInfo || m in lists
    ensures !UnderPrefix(prefix, path) ==> m == EmptyInfo
    ensures UnderPrefix(prefix, path) && m != EmptyInfo ==> m.mapName == Resource(prefix, path)
    ensures UnderPrefix(prefix, path) ==>
              (forall i | 0 <= i < |lists| :: lists[i].mapName != Resource(prefix, path)) ==> m == EmptyInfo
    ensures UnderPrefix(prefix, path) ==>
              forall i | 0 <= i < |lists| && lists[i].mapName == Resource(prefix, path)
                         && (forall j | 0 <= j < i :: lists[j].mapName != Resource(prefix, path))
                :: m == lists[i]
  {
    if UnderPrefix(prefix, path) then
      match Lookup(lists, Resource(prefix, path))
      case None => EmptyInfo
      case Some(info) => info
    else EmptyInfo
  }

  /** With the prefix stripped, a request for resource `name` finds the first entry
      registered under that name. */
  lemma ResolveModelFinds(lists: seq<ModelInfo>, prefix: string, name: string, tail: string)
    requires '/' !in name
    requires tail == [] || tail[0] == '/'
    requires Lookup(lists, name).Some?
    ensures ResolveModel(lists, prefix, prefix + "/" + name + tail) == Lookup(lists, name).value
  {
    var rest := "/" + name + tail;
    Assoc(prefix, "/", name);
    Assoc(prefix, "/" + name, tail);
    assert prefix + "/" + name + tail == prefix + rest;
    assert [] + ['/'] == "/";
    SplitSecond([], name, tail, '/');
  }

  /** Without a prefix the corrected lookup is pathGetModel. */
  lemma ResolveModelNoPrefix(lists: seq<ModelInfo>, path: string)
    requires '/' in path
    ensures ResolveModel(lists, "", path) == PathGetModel(lists, path)
  {
    assert path[..0] == "" && path[0..] == path;
  }

  /** As written, pathGetModel under the prefix "/api/v1" looks up "api": a request
      for a registered resource finds nothing unless a resource is named "api". */
  lemma PathGetModelIgnoresPrefix(lists: seq<ModelInfo>, name: string, tail: string)
    requires forall i | 0 <= i < |lists| :: lists[i].mapName != "api"
    ensures PathGetModel(lists, "/api/v1/" + name + tail) == EmptyInfo
  {
    var path := "/api/v1/" + name + tail;
    assert path == [] + ['/'] + "api" + ("/v1/" + name + tail);
    SplitSecond([], "api", "/v1/" + name + tail, '/');
  }

  // ---------------------------------------------------------------- routes

  /** The route group of a resource: the configured prefix and the table name. */
  datatype Party = Party(prefix: string, name: string)

  datatype Handler = Generic(op: Op) | ModelOverride(op: Op)

  datatype Route = Route(party: Party, verb: string, path: string, handler: Handler, preMiddleware: bool)

  function RouteFor(party: Party, caps: Capabilities, op: Op): Route {
    Route(party, Verb(op), PathOf(op),
      if op in caps.overrides then ModelOverride(op) else Generic(op),
      op in caps.preMiddleware)
  }

  function PartyOf(config: Config, m: RegisteredModel): Party {
    Party(config.prefix, m.tableName)
  }

  function RouteIfEnabled(party: Party, caps: Capabilities, op: Op): seq<Route> {
    if IsContain(caps.disableMethods, OpName(op)) then [] else [RouteFor(party, caps, op)]
  }

  /** The routes registered for one resource, in the order of main.go:103-166. */
  function RoutesFor(config: Config, m: RegisteredModel): seq<Route> {
    var p, c := PartyOf(config, m), m.caps;
    RouteIfEnabled(p, c, GetAll) + RouteIfEnabled(p, c, GetSingle) + RouteIfEnabled(p, c, Post)
    + RouteIfEnabled(p, c, Put) + RouteIfEnabled(p, c, Delete)
  }

  lemma RouteIfEnabledMembers(p: Party, c: Capabilities, r: Route)
    requires r in RouteIfEnabled(p, c, GetAll) + RouteIfEnabled(p, c, GetSingle) + RouteIfEnabled(p, c, Post)
                  + RouteIfEnabled(p, c, Put) + RouteIfEnabled(p, c, Delete)
    ensures r == RouteFor(p, c, r.handler.op) && OpName(r.handler.op) !in c.disableMethods
  {
    var a := RouteIfEnabled(p, c, GetAll) + RouteIfEnabled(p, c, GetSingle) + RouteIfEnabled(p, c, Post);
    var b := RouteIfEnabled(p, c, Put) + RouteIfEnabled(p, c, Delete);
    assert r in a || r in b;
    if r in RouteIfEnabled(p, c, GetAll) { RouteIfEnabledMember(p, c, GetAll, r); }
    else if r in RouteIfEnabled(p, c, GetSingle) { RouteIfEnabledMember(p, c, GetSingle, r); }
    else if r in RouteIfEnabled(p, c, Post) { RouteIfEnabledMember(p, c, Post, r); }
    else if r in RouteIfEnabled(p, c, Put) { RouteIfEnabledMember(p, c, Put, r); }
    else { RouteIfEnabledMember(p, c, Delete, r); }
  }

  lemma RouteIfEnabledMember(p: Party, c: Capabilities, op: Op, r: Route)
    requires r in RouteIfEnabled(p, c, op)
    ensures r == RouteFor(p, c, op) && r.handler.op == op && OpName(op) !in c.disableMethods
  {
  }

  lemma RouteIfEnabledIn(p: Party, c: Capabilities, op: Op)
    requires OpName(op) !in c.disableMethods
    ensures RouteFor(p, c, op) in RouteIfEnabled(p, c, GetAll) + RouteIfEnabled(p, c, GetSingle) + RouteIfEnabled(p, c, Post)
                  + RouteIfEnabled(p, c, Put) + RouteIfEnabled(p, c, Delete)
  {
    assert RouteFor(p, c, op) in RouteIfEnabled(p, c, op);
  }

  /** A route for an operation is registered iff its name is not in the disable list;
      it is served by the record's own handler iff the record overrides it, and it
      carries the record's pre-middleware iff the record provides one. */
  lemma RouteRegistered(config: Config, m: RegisteredModel, op: Op)
    ensures (exists r | r in RoutesFor(config, m) :: r.handler.op == op)
            <==> OpName(op) !in m.caps.disableMethods
    ensures forall r | r in RoutesFor(config, m) && r.handler.op == op ::
              && r.party == PartyOf(config, m)
              && r.verb == Verb(op) && r.path == PathOf(op)
              && (r.handler.ModelOverride? <==> op in m.caps.overrides)
              && (r.preMiddleware <==> op in m.caps.preMiddleware)
  {
    var p, c := PartyOf(config, m), m.caps;
    var rs := RoutesFor(config, m);
    forall r | r in rs
      ensures r == RouteFor(p, c, r.handler.op) && OpName(r.handler.op) !in c.disableMethods
    {
      RouteIfEnabledMembers(p, c, r);
    }
    if OpName(op) !in c.disableMethods {
      assert RouteFor(p, c, op) in RouteIfEnabled(p, c, op);
      RouteIfEnabledIn(p, c, op);
    }
  }

  /** All routes Run registers, resource by resource. */
  function AllRoutes(config: Config, ms: seq<RegisteredModel>): seq<Route> {
    if ms == [] then [] else AllRoutes(config, ms[..|ms| - 1]) + RoutesFor(config, ms[|ms| - 1])
  }

  function AllInfos(config: Config, ms: seq<RegisteredModel>): (infos: seq<ModelInfo>)
    ensures |infos| == |ms|
  {
    if ms == [] then [] else AllInfos(config, ms[..|ms| - 1]) + [InfoFor(config, ms[|ms| - 1])]
  }

  function AllPartyMiddleware(config: Config, ms: seq<RegisteredModel>): seq<Party> {
    if ms == [] then []
    else AllPartyMiddleware(config, ms[..|ms| - 1])
         + (if ms[|ms| - 1].caps.globalPreMiddleware then [PartyOf(config, ms[|ms| - 1])] else [])
  }

  lemma RunStep(config: Config, ms: seq<RegisteredModel>, i: nat)
    requires i < |ms|
    ensures AllInfos(config, ms[..i + 1]) == AllInfos(config, ms[..i]) + [InfoFor(config, ms[i])]
    ensures AllRoutes(config, ms[..i + 1]) == AllRoutes(config, ms[..i]) + RoutesFor(config, ms[i])
    ensures AllPartyMiddleware(config, ms[..i + 1]) == AllPartyMiddleware(config, ms[..i])
              + (if ms[i].caps.globalPreMiddleware then [PartyOf(config, ms[i])] else [])
  {
    assert ms[..i + 1][..i] == ms[..i];
  }

  lemma {:induction false} AllInfosAt(config: Config, ms: seq<RegisteredModel>, k: nat)
    requires k < |ms|
    ensures AllInfos(config, ms)[k] == InfoFor(config, ms[k])
  {
    if k < |ms| - 1 {
      assert ms[..|ms| - 1][k] == ms[k];
      AllInfosAt(config, ms[..|ms| - 1], k);
    }
  }

  /** Every route Run registers belongs to some registered resource's route set, and
      every route of every resource is registered. */
  lemma {:induction false} AllRoutesMembers(config: Config, ms: seq<RegisteredModel>, r: Route)
    ensures r in AllRoutes(config, ms) <==> exists k | 0 <= k < |ms| :: r in RoutesFor(config, ms[k])
  {
    if ms != [] {
      var init, last := ms[..|ms| - 1], ms[|ms| - 1];
      AllRoutesMembers(config, init, r);
      assert AllRoutes(config, ms) == AllRoutes(config, init) + RoutesFor(config, last);
      assert r in AllRoutes(config, ms) <==> r in AllRoutes(config, init) || r in RoutesFor(config, last);
      if r in AllRoutes(config, init) {
        var k :| 0 <= k < |init| && r in RoutesFor(config, init[k]);
        assert ms[k] == init[k];
        assert r in RoutesFor(config, ms[k]);
      } else if r in RoutesFor(config, last) {
        assert r in RoutesFor(config, ms[|ms| - 1]);
      } else {
        forall k | 0 <= k < |ms|
          ensures r !in RoutesFor(config, ms[k])
        {
          if k < |ms| - 1 {
            assert ms[k] == init[k];
          }
        }
      }
    }
  }

  /** The record registered at position k gets the modelInfo InfoFor describes: it is
      private iff it offers private access, and then its table column is the column
      of the first leaf named like the private field. */
  lemma RegisteredInfo(config: Config, k: nat)
    requires k < |config.structList|
    ensures var info := AllInfos(config, config.structList)[k];
            var m := config.structList[k];
            && info.mapName == m.tableName
            && (info.private <==> m.caps.privateAccess.Some?)
            && info.fieldList == FieldsFor(config, m.tableName)
            && (info.private ==> info.tableColName == PrivateTableColName(info.fieldList.fields, m.caps.privateAccess.value.colName))
            && (!info.private ==> info.tableColName == "" && info.keyName == "")
  {
    AllInfosAt(config, config.structList, k);
  }

  lemma ConcatFive<T>(r0: seq<T>, a: seq<T>, b: seq<T>, c: seq<T>, d: seq<T>, e: seq<T>)
    ensures r0 + a + b + c + d + e == r0 + (a + b + c + d + e)
  {
  }

  // ---------------------------------------------------------------- Api

  class Api {
    const config: Config
    var modelLists: seq<ModelInfo>
    var routes: seq<Route>
    /** Parties that got the record's global pre-middleware. */
    var partyMiddleware: seq<Party>

    /** New (main.go:48-54), without the package-level singleton. */
    constructor (c: Config)
      ensures config == c
      ensures modelLists == [] && routes == [] && partyMiddleware == []
    {
      config := c;
      modelLists := [];
      routes := [];
      partyMiddleware := [];
    }

    /** api.Handle for one operation, guarded by the disable list. */
    method Handle(party: Party, caps: Capabilities, op: Op)
      modifies this
      ensures routes == old(routes) + RouteIfEnabled(party, caps, op)
      ensures modelLists == old(modelLists) && partyMiddleware == old(partyMiddleware)
    {
      if !IsContain(caps.disableMethods, OpName(op)) {
        var handler := Generic(op);
        if op in caps.overrides {
          handler := ModelOverride(op);
        }
        routes := routes + [Route(party, Verb(op), PathOf(op), handler, op in caps.preMiddleware)];
      }
    }

    /** The body of Run's loop for one record (main.go:59-166). */
    method Register(model: RegisteredModel)
      modifies this
      ensures modelLists == old(modelLists) + [InfoFor(config, model)]
      ensures routes == old(routes) + RoutesFor(config, model)
      ensures partyMiddleware == old(partyMiddleware)
                + (if model.caps.globalPreMiddleware then [PartyOf(config, model)] else [])
    {
      var party := Party(config.prefix, model.tableName);
      var info := BuildInfo(config, model);
      modelLists := modelLists + [info];
      if model.caps.globalPreMiddleware {
        partyMiddleware := partyMiddleware + [party];
      }
      ghost var before := routes;
      Handle(party, model.caps, GetAll);
      Handle(party, model.caps, GetSingle);
      Handle(party, model.caps, Post);
      Handle(party, model.caps, Put);
      Handle(party, model.caps, Delete);
      ghost var c := model.caps;
      ConcatFive(before, RouteIfEnabled(party, c, GetAll), RouteIfEnabled(party, c, GetSingle),
        RouteIfEnabled(party, c, Post), RouteIfEnabled(party, c, Put), RouteIfEnabled(party, c, Delete));
    }

    /** One iteration of Run's loop: registers ms[i] after ms[..i]. */
    method RegisterNext(ms: seq<RegisteredModel>, i: nat, ghost infos0: seq<ModelInfo>, ghost routes0: seq<Route>, ghost parties0: seq<Party>)
      requires i < |ms|
      requires modelLists == infos0 + AllInfos(config, ms[..i])
      requires routes == routes0 + AllRoutes(config, ms[..i])
      requires partyMiddleware == parties0 + AllPartyMiddleware(config, ms[..i])
      modifies this
      ensures modelLists == infos0 + AllInfos(config, ms[..i + 1])
      ensures routes == routes0 + AllRoutes(config, ms[..i + 1])
      ensures partyMiddleware == parties0 + AllPartyMiddleware(config, ms[..i + 1])
    {
      RunStep(config, ms, i);
      Register(ms[i]);
      Assoc(infos0, AllInfos(config, ms[..i]), [InfoFor(config, ms[i])]);
      Assoc(routes0, AllRoutes(config, ms[..i]), RoutesFor(config, ms[i]));
      Assoc(parties0, AllPartyMiddleware(config, ms[..i]),
        if ms[i].caps.globalPreMiddleware then [PartyOf(config, ms[i])] else []);
    }

    /** Run (main.go:56-170). */
    method Run()
      modifies this
      ensures modelLists == old(modelLists) + AllInfos(config, config.structList)
      ensures routes == old(routes) + AllRoutes(config, config.structList)
      ensures partyMiddleware == old(partyMiddleware) + AllPartyMiddleware(config, config.structList)
    {
      var ms := config.structList;
      ghost var infos0, routes0, parties0 := modelLists, routes, partyMiddleware;
      var i := 0;
      while i < |ms|
        invariant 0 <= i <= |ms|
        invariant modelLists == infos0 + AllInfos(config, ms[..i])
        invariant routes == routes0 + AllRoutes(config, ms[..i])
        invariant partyMiddleware == parties0 + AllPartyMiddleware(config, ms[..i])
      {
        RegisterNext(ms, i, infos0, routes0, parties0);
        i := i + 1;
      }
      assert ms[..|ms|] == ms;
    }
  }
}
