# apiBuilder core in Dafny

apiBuilder turns registered Go record types into REST resources backed by an xorm
relational store and a redis cache. For every registered record, `Api.Run` creates a route
group under the configured prefix. It registers up to five routes: list, single get, create,
update and delete. A record can disable, override or wrap each of them through optional
interfaces.

The generic handlers in `handler.go` do the work. They resolve the model from the request
path and bind a record from the request's form values. Private models are scoped to the
requesting owner. The list endpoint pages, filters and searches. Responses may be cached by
request key, and the cache middleware serves them back.

This project models that core:

- `Schema` (main.go:206-248): flattening a record type into its leaf columns.
- `Registry` (main.go:17-268): the model registry, route registration and model lookup.
- `Binding` (main.go:271-366): form-value binding with its type coercions.
  - `GoText` models the Go `strings` and `strconv` semantics it relies on.
  - `GoTime` models the `"2006-01-02 15:04:05"` time layout.
- `ListQuery` (handler.go:38-177): query building, paging, projection and the list result.
- `Ownership` (handler.go:235-255, 306-325): the owner coercion.
- `Handlers` (handler.go): the five handlers and the cache middleware.
  - `Handlers.RestApi` is a class whose fields are the store, the cache and an effect log.
  - Each handler method is proved against a specification function of the old state.
  - Lemmas about those functions state what the handlers promise.

## Model

| member | source | states |
|---|---|---|
| GoText.TrimSpace | main.go:272 | the result is the input with exactly its leading and trailing Unicode spaces removed; empty iff the input is all spaces |
| GoText.Split | main.go:173 | at least one part; no part holds the separator; two or more parts iff the separator occurs |
| GoText.JoinSplit | main.go:173 | joining the parts of a split with the separator gives back the input |
| GoText.ParseUint | main.go:322 | base-10 uint64 parse: 0 on a syntax error (empty input included), the maximum uint64 on overflow |
| GoText.ParseInt | main.go:315 | base-10 int64 parse with optional sign: 0 on a syntax error, the clamped bound on overflow |
| GoText.ParseUintFormat | main.go:322 | parsing the decimal text of any uint64 gives it back without error |
| GoText.ParseIntItoa | main.go:315 | parsing the decimal text of any int64 gives it back without error |
| GoText.WrapSigned | main.go:319 | `SetInt` truncation: the result is within the field's signed range, congruent to the input modulo 2^width, and equal to it when it fits |
| GoText.WrapUnsigned | main.go:326 | `SetUint`/`uint64(i)` truncation: the result is below 2^width, congruent to the input, and equal to it when it fits |
| GoTime.ParseLocal | main.go:353 | a successful parse of layout "2006-01-02 15:04:05" is a local time with in-range calendar fields and a four-digit year |
| GoTime.ParseFormatLocal | main.go:353 | parsing the layout's formatting of a valid local time gives it back |
| Schema.GetNestedStructMaps | main.go:206-248 | the leaves of a type: one pointer level removed, no leaves for a non-struct type |
| Schema.StructFields | main.go:215-246 | the field loop produces the declaration-order flattening |
| Schema.FieldLeaves | main.go:221-245 | one field contributes the flattening of its struct type, or a single leaf |
| Schema.FlattenMapNames | main.go:229 | every leaf's column name is the column mapper applied to its field name |
| Schema.FlattenAppend | main.go:215-246 | fields declared one after another flatten to the concatenation of their leaves |
| Schema.FlattenInPlace | main.go:221-237 | a nested struct field is replaced in place by its own leaves; time.Time and time.Duration stay single leaves |
| Schema.FlattenFlat | main.go:238-245 | a record without struct fields has exactly one leaf per field, in order (`Leaves`) |
| Schema.FlattenNonStruct | main.go:207-212 | a pointer to a pointer, or any non-struct type, has no leaves |
| Registry.IsContain | main.go:17-24 | true iff the item is in the list |
| Registry.FieldsFor | main.go:182-203 | the field list of the first registered record with that table name; empty when there is none |
| Registry.ReflectFieldsAndTypes | main.go:182-203 | the loop returns the field list of the first match |
| Registry.PrivateTableColName | main.go:82-89 | the column of the first field named like the owner field; "" when there is none |
| Registry.ResolvePrivateColumn | main.go:82-89 | the loop finds that column |
| Registry.BuildInfo | main.go:64-80 | a model is private iff it implements the private-access interface; its name is the table name |
| Registry.Lookup | main.go:174-179 | the first model with that name; None iff there is none |
| Registry.TableNameGetModelInfo | main.go:261-268 | an error iff no model has that name; otherwise the FIRST registered model with that name |
| Registry.PathGetModel | main.go:172-180 | as written: the first model named by the path's second segment; the zero model iff none has that name |
| Registry.PathGetModelIgnoresPrefix | main.go:172-173 | under the prefix "/api/v1" every lookup is for "api" and finds nothing |
| Registry.ResolveModel | main.go:172-180 | corrected lookup of the segment after the prefix: the first model with that name; the zero model when none has it or the path is not under the prefix |
| Registry.ResolveModelFinds | main.go:172-180 | a request for prefix + "/" + name finds the model registered under that name |
| Registry.ResolveModelNoPrefix | main.go:172-180 | with an empty prefix the corrected lookup agrees with the code as written |
| Registry.RouteRegistered | main.go:97-166 | an operation's route is registered iff it is not disabled; it carries the fixed verb and path, the override iff one is implemented, and the pre-middleware iff one is implemented |
| Registry.AllRoutesMembers | main.go:58-168 | a route is registered iff it belongs to some registered record |
| Registry.RegisteredInfo | main.go:73-91 | the k-th model entry has the record's table name, is private iff the interface is implemented, carries that record's field list and owner column; a non-private entry has no owner column or key |
| Registry.Api.constructor | main.go:48-54 | a new Api has no models, routes or party middleware |
| Registry.Api.Handle | main.go:103-114 | a route is appended unless the operation is disabled |
| Registry.Api.Register | main.go:58-167 | one record appends its model entry, its routes in order, and its party middleware when it has one |
| Registry.Api.RegisterNext | main.go:58-168 | one loop step extends the models, routes and party middleware by the next record's |
| Registry.Api.Run | main.go:56-170 | after Run, the models, routes and party middleware are those of every record in registration order |
| Binding.GetValuePostWins | main.go:271-277 | a post value with a non-space character wins, trimmed of its surrounding spaces only |
| Binding.GetValueFallsBack | main.go:271-277 | an absent or blank post value falls back to the form value, or "" |
| Binding.Width | main.go:314-327 | the bit width of each integer kind; 64 for `int`, `uint`, `int64`, `uint64` and time.Duration |
| Binding.CoerceField | main.go:310-361 | a column aborts iff it is a time column whose numeric text (by `IsNum`) does not parse as an int64 or whose other text does not parse in the layout; an integer column stores ParseInt's (or ParseUint's) clamped result truncated to its width, i.e. the value in range congruent to it; a parsed layout time is stored; a string column stores the text; a column of an unlisted type keeps its zero value |
| Binding.NumericNeverAborts | main.go:314-327 | integer columns always get a value within their width, congruent to the parser's clamped result modulo 2^width; unparsable text gives 0 |
| Binding.CoerceInt8Wraps | main.go:314-320 | "300" in an int8 column is stored as 44 |
| Binding.CoerceIntItoa | main.go:314-320 | a 64-bit signed column stores the integer its text spells |
| Binding.CoerceUintFormat | main.go:321-327 | a 64-bit unsigned column stores the integer its text spells |
| Binding.CoerceTimeFormat | main.go:352-359 | a time column stores the local time its layout text spells |
| Binding.CoerceTimeEpoch | main.go:345-351 | numeric text becomes the Unix time it spells; an overflowing number aborts |
| Binding.BindByName | main.go:280-285 | "model not found" when no model has the name; otherwise the binding of the first such model |
| Binding.GetCtxValues | main.go:280-366 | the loop over the columns computes that binding |
| Binding.BindFromFails | main.go:292-363 | binding fails iff some column it reads aborts |
| Binding.BindFromKeys | main.go:292-363 | every bound key is a column the loop set |
| Binding.BindFromValue | main.go:309-361 | a set column holds the coercion of its request value; any other column is untouched |
| Binding.BindFromUntouched | main.go:292-363 | a field no remaining column names is untouched |
| Binding.SkippedNeverBound | main.go:292-308 | the auto-increment, updated, deleted and created columns are never bound |
| ListQuery.Clamp | handler.go:40-48 | the page or page size is the parameter (or the default) capped at the maximum, with no lower clamp |
| ListQuery.PagingDefaults | handler.go:40-45 | without parameters, page 1 and page size 20 |
| ListQuery.Window | handler.go:66-67 | start and end computed in 64-bit arithmetic |
| ListQuery.WindowCoversPage | handler.go:66-67 | without overflow, start is (page-1)*size and the window covers the page |
| ListQuery.RewriteSearch | handler.go:57 | `ReplaceAll("__", "%")`: no pair remains, text without a pair is unchanged, the empty string maps to itself |
| ListQuery.RewriteFirstPair | handler.go:57 | wherever the leftmost pair stands, the text before it is kept, it becomes "%", and the rewrite continues after it |
| ListQuery.RewriteLeadingPair | handler.go:57 | a leading pair becomes "%" and the rest is rewritten |
| ListQuery.OrderFor | handler.go:75-79 | `order` wins; `order_desc` applies only without it |
| ListQuery.Likes | handler.go:94-98 | one `like` per search field, in field order |
| ListQuery.AddFilters | handler.go:89-93 | one equality per filter entry, after the given conditions |
| ListQuery.AddLikes | handler.go:94-98 | the likes appended after the given conditions |
| ListQuery.BuildWhere | handler.go:69-100 | the session's table and order, and its conditions: owner, soft delete, filters, likes |
| ListQuery.LikesMembers | handler.go:94-98 | a like is present iff its column is a search field and its pattern is the search |
| ListQuery.WhereMembers | handler.go:69-100 | each kind of condition is present exactly when the handler adds it; no range condition is counted |
| ListQuery.DataFetch | handler.go:111-116 | the id-range scan adds `between start and end` with no offset; otherwise the offset is the start |
| ListQuery.HasColumn | handler.go:130-135 | true iff some response field has that column name |
| ListQuery.ProjectRow | handler.go:127-136 | the row keeps exactly the response shape's columns, with their values |
| ListQuery.Project | handler.go:124-140 | every row is projected in order |
| ListQuery.ProjectRows | handler.go:124-140 | the projection of every row in order |
| ListQuery.ProjectRowsUnique | handler.go:124-140 | any row list with that property is the projection |
| ListQuery.BuildResult | handler.go:142-159 | `desc_field`, `order`, `filter` and `search` are present iff non-empty; the search echo is the raw parameter |
| Ownership.FieldType | handler.go:237-239 | the type of the first field with the owner field's name; None iff there is none |
| Ownership.Atoi | handler.go:244 | the parsed value, kept even on error, within int64 |
| Ownership.CoerceOwner | handler.go:238-254 | a string field takes the owner text; an integer field takes a value within its width congruent to Atoi's result modulo 2^width; any other type, or a missing field, fails with "apiPrivateParseFail" |
| Ownership.SetOwnerFrame | handler.go:235-255 | a non-private record is unchanged; otherwise only the owner field changes, or the request is rejected |
| Ownership.OwnerIntRoundTrip | handler.go:243-246 | a signed owner field gets back the integer the owner text spells |
| Ownership.OwnerUintRoundTrip | handler.go:247-250 | an unsigned owner field gets back the non-negative integer the owner text spells |
| Ownership.OwnerNotNumberIsZero | handler.go:243-250 | non-numeric owner text (such as "<nil>") gives an integer owner field 0 instead of an error |
| Ownership.OwnerNegativeWraps | handler.go:247-250 | "-1" in a uint64 owner field becomes the largest uint64 |
| Handlers.CacheMiddlewareAsWritten | handler.go:424-452 | as written: "no-cache" hands over once; anything else ends by writing JSON |
| Handlers.CacheMiddleware | handler.go:424-452 | corrected: exactly one step, which hands over iff the request is "no-cache" or the key is not cached |
| Handlers.MiddlewareMissFallsThrough | handler.go:436-451 | on a miss the code as written calls `ctx.Next()` twice and then writes `{}`; the corrected one hands over once |
| Handlers.MiddlewareAgreesOtherwise | handler.go:427-450 | on a hit or a "no-cache" request both versions behave the same |
| Handlers.RestApi.GetAllFunc | handler.go:38-177 | the session built and the new store, effects and response of the list specification |
| Handlers.RestApi.FetchPage | handler.go:109-176 | the fetch, projection, result and cache save after the count |
| Handlers.RestApi.GetSingle | handler.go:180-225 | the new store, effects and response of the single-get specification |
| Handlers.RestApi.AddData | handler.go:228-272 | the new store, effects and response of the create specification |
| Handlers.RestApi.Insert | handler.go:257-271 | the insert under the next id |
| Handlers.RestApi.EditData | handler.go:275-364 | the new store, effects and response of the update specification |
| Handlers.RestApi.BindAndWrite | handler.go:300-363 | the binding, the owner coercion and the write |
| Handlers.RestApi.WriteEdit | handler.go:327-363 | the cache delete, the update and the delayed cache delete |
| Handlers.RestApi.DeleteData | handler.go:367-421 | the new store, effects and response of the delete specification |
| Handlers.RestApi.Remove | handler.go:393-420 | the scoped delete and the cache delete |
| Handlers.ListEffects | handler.go:56-121 | a search without search fields is rejected before any store call; otherwise the count comes first; rows are fetched iff the count is at least 1, with the count's conditions, the range-scan choice and the window of the clamped page and size; success iff no store error; page and size respect the caps; no data when the count is 0 |
| Handlers.ListReadOnly | handler.go:102-176 | listing writes no table and no cache entry other than its own key |
| Handlers.ListCached | handler.go:161-176 | with list caching on, the middleware serves the listing's response for the same request |
| Handlers.SingleFinds | handler.go:190-200 | a get succeeds iff the row exists within the owner's scope, returns that row, and writes no table |
| Handlers.SingleCached | handler.go:209-224 | with single caching on, the middleware serves the get's response for the same request |
| Handlers.SingleKeeps | handler.go:180-225 | a get changes no table and no id |
| Handlers.AddEffects | handler.go:228-272 | a failed create changes nothing; a successful one stores the bound, owner-stamped record under a fresh id, issues one insert and echoes the record |
| Handlers.AddKeepsIds | handler.go:259 | a create keeps every stored id below the next one |
| Handlers.EditKeepsIds | handler.go:334 | an update keeps every stored id below the next one |
| Handlers.DeleteKeepsIds | handler.go:393 | a delete keeps every stored id below the next one |
| Handlers.HandlersKeepIds | handler.go:38-421 | every handler keeps every stored id below the next one |
| Handlers.EditWriteKeeps | handler.go:333-338 | the write replaces an existing row or changes no table |
| Handlers.EditMissing | handler.go:290-299 | an update of a row outside the owner's scope issues only the existence check and changes nothing |
| Handlers.EditWriteEffects | handler.go:327-363 | the cache delete precedes the update; the update succeeds iff the row exists and the store does not fail; the delayed delete follows only a successful update; the whole row is replaced, and a failed update changes no table |
| Handlers.EditEffects | handler.go:275-364 | a successful update passed the scoped check and the binding, replaced the row by the owner-stamped record, and ordered its effects as above; a binding or owner-coercion failure issues only the existence check and changes nothing; no failed update changes a table or schedules the delayed delete |
| Handlers.EditInvalidates | handler.go:327-336 | once an update reaches its write, the request's cache entry is gone and the middleware hands the next read to the handler |
| Handlers.DeleteEffects | handler.go:367-421 | a delete succeeds iff the row is visible and no store error occurs; it then removes only that row and deletes the cache entry after it; a failure changes nothing |
| Handlers.DeleteTwice | handler.go:384-391 | a second delete of the same id, by anyone, reports "apiNotFoundData" and changes nothing |
| Handlers.Scope | handler.go:65-73 | the raw owner value the scope binds: present iff the context holds one, and then equal to its text |
| Handlers.AddThenGet | handler.go:257-263 | the creator reads back the created record under its id (non-private model, or string owner field with an owner value stored) |
| Handlers.NoOwnerFindsNothing | handler.go:186-200 | in a private model a request without an owner value finds no row: get, update and delete report not found and change nothing |
| Handlers.AddHiddenFromOthers | handler.go:190-200 | in a private model with a string owner field, another owner does not find the created record |

## Left out

- SQL evaluation: the count and the rows a query returns are an uninterpreted engine, so `filterMatch`, soft-delete filtering and the `like` semantics are not evaluated. A soft-deleting engine's `Delete` is modelled as removal.
- Store and cache errors are an input naming the failing step. Redis errors are ignored by the code, so they are not modelled. Cache expiry (the TTL) is recorded in the effect but not enforced.
- The JSON marshalling of cached bodies is not modelled; a cached body is stored and served as a value.
- `Replace` (copying into a response shape) is not part of this model. A shaped response carries the record unchanged.
- The delayed second cache delete runs in a goroutine. It is recorded as an effect; its timing and its concurrency with other requests are not modelled.
- `ParseFloat`, `parseBool` and `IsNum` are not part of this model. Float text is kept as text; `parseBool` and `IsNum` are parameters.
- `genRedisKey` is not part of this model and is a parameter. Translated messages (`ctx.Tr`) are represented by their translation keys. An error's own text is represented by a constant ("store error", "id parameter error", "search is not enabled", "model not found", and the wrapping messages of the time coercion).
- The id written back into the record by `InsertOne` is not modelled; the id is the store key.
- The `reflect` panics of `FieldByName` on a missing field, and binding into a field the record type does not have, are not modelled. Binding produces a map from field name to value.
- Timezones: `time.Local` is an abstract zone and Unix times are kept as seconds.
- The `modelInfo` wrapper of handler.go (getPage, the response shapes, the cache durations) is not part of this model. Its values are fields of `HandlerSettings`.
- `tableNameGetModel`, `newModel` and `newType` are reflection helpers without behaviour of their own.
- Handlers.RestApi.GetAllFunc: the order of the filter conditions follows the map's iteration order, which Go leaves unspecified. The contract states which conditions appear, not their order.
- Handlers.RestApi.EditData: the update is by id alone, as in the code. Ownership is enforced only by the existence check before it.
- Handlers.RestApi.ModelFor: the handlers resolve their model with the corrected lookup `Registry.ResolveModel`, the segment after the configured prefix, where handler.go calls `pathGetModel` as written (see Findings); under a non-empty prefix the model's handlers find the resource the code misses.
- Handlers.RestApi.GetSingle, Handlers.RestApi.EditData, Handlers.RestApi.DeleteData: handler.go's single `PrivateColName` is held under two names, a modelling choice. `tableColName` is the column name, used in the SQL conditions and the cache key. `structColName` is the Go field name, used by `FieldByName` and by the scope check on a stored row.
- Handlers.RestApi.EditData: the existence check filters on the literal column `id` (handler.go:291); the model assumes it is the primary key that `.ID(id)` uses elsewhere.
- Handlers.InScope: the scope compares the `%v` text of the stored owner field with the raw context value; the SQL comparison of differently typed values is not modelled. A missing context value matches no row, as `col = NULL` does.

The model keeps these behaviours of the code:

- The search `like` conditions are joined with AND, so every search field must match.
- The binding also skips the deleted column.
- The page has no lower clamp.

## Findings

| source | as written | input that shows it | evidently intended | confidence | as-written member | corrected member |
|---|---|---|---|---|---|---|
| handler.go:437-450 | on a cache miss the middleware calls `ctx.Next()` without returning, fails to decode the empty string, calls `ctx.Next()` again and then writes `{}` after the handler's response | any request without `Cache-control: no-cache` whose key is not cached | return after handing over to the handler | high, not executed | Handlers.MiddlewareMissFallsThrough | Handlers.CacheMiddleware |
| main.go:172-173 | `pathGetModel` looks up the second segment of the full request path, so a non-empty route prefix is looked up instead of the resource | prefix "/api/v1" and path "/api/v1/users/" looks up "api" | look up the segment after the prefix | medium, not executed | Registry.PathGetModelIgnoresPrefix | Registry.ResolveModelFinds |
