/** Query planning for the list endpoint (handler.go:38-159): the clamped page and
    page size, the search rewrite, the conjunctive predicate set, the choice between
    a primary-key range scan and an offset scan, the projection of rows onto a
    response shape, and the keys echoed in the result. */
module ListQuery {
  import opened Common
  import opened GoText
  import opened Schema
  import opened Registry

  // ---------------------------------------------------------------- paging

  /** `ctx.URLParamIntDefault(name, default)` followed by the `if v > cap` clamp;
      `param` is None when the parameter is missing or not an integer. There is no
      lower clamp. */
  function Clamp(param: Option<int>, default: int, cap: int): (v: int)
    ensures v <= cap
    ensures v == cap || v == (if param.Some? then param.value else default)
    ensures (if param.Some? then param.value else default) <= cap ==> v == (if param.Some? then param.value else default)
  {
    var p := if param.Some? then param.value else default;
    if p > cap then cap else p
  }

  /** The page (default 1) and page size (default 20) under the model's caps. */
  lemma PagingDefaults(maxCount: int, maxSize: int)
    requires 1 <= maxCount && 20 <= maxSize
    ensures Clamp(None, 1, maxCount) == 1 && Clamp(None, 20, maxSize) == 20
  {
  }

  /** `start` and `end` in Go's 64-bit int arithmetic. */
  function Window(page: int, pageSize: int): (w: (int, int))
    ensures -Cutoff <= w.0 < Cutoff && -Cutoff <= w.1 < Cutoff
  {
    (WrapSigned((page - 1) * pageSize, 64), WrapSigned(page * (pageSize * 2), 64))
  }

  /** Without overflow the window starts at the page's first row and reaches at least
      one page further. */
  lemma WindowCoversPage(page: int, pageSize: int)
    requires 1 <= page && 0 <= pageSize && page * pageSize * 2 < Cutoff
    ensures Window(page, pageSize) == ((page - 1) * pageSize, page * pageSize * 2)
    ensures 0 <= Window(page, pageSize).0 && Window(page, pageSize).0 + pageSize <= Window(page, pageSize).1
  {
    assert 0 <= (page - 1) * pageSize <= page * pageSize;
    assert page * (pageSize * 2) == page * pageSize * 2;
  }

  // ---------------------------------------------------------------- search

  predicate NoPair(s: string) {
    forall i | 0 <= i < |s| - 1 :: !(s[i] == '_' && s[i + 1] == '_')
  }

  /** strings.ReplaceAll(s, "__", "%"): pairs are replaced left to right without
      overlap, so "___" becomes "%_". */
  function RewriteSearch(s: string): (r: string)
    ensures |r| <= |s|
    ensures r == [] <==> s == []
    ensures NoPair(r)
    ensures NoPair(s) ==> r == s
    ensures r != [] && r[0] == '_' ==> s[0] == '_' && (|s| == 1 || s[1] != '_')
  {
    if |s| >= 2 && s[0] == '_' && s[1] == '_' then
      var t := RewriteSearch(s[2..]);
      assert NoPair(['%'] + t) by {
        var u := ['%'] + t;
        forall i | 0 <= i < |u| - 1 ensures !(u[i] == '_' && u[i + 1] == '_') {
          if i > 0 { assert u[i] == t[i - 1] && u[i + 1] == t[i]; }
        }
      }
      ['%'] + t
    else if s == [] then []
    else
      var t := RewriteSearch(s[1..]);
      assert NoPair([s[0]] + t) by {
        var u := [s[0]] + t;
        forall i | 0 <= i < |u| - 1 ensures !(u[i] == '_' && u[i + 1] == '_') {
          if i > 0 { assert u[i] == t[i - 1] && u[i + 1] == t[i]; }
        }
      }
      assert NoPair(s) ==> NoPair(s[1..]) by {
        if NoPair(s) {
          forall i | 0 <= i < |s[1..]| - 1 ensures !(s[1..][i] == '_' && s[1..][i + 1] == '_') {
            assert s[1..][i] == s[i + 1] && s[1..][i + 1] == s[i + 2];
          }
        }
      }
      [s[0]] + t
  }

  /** The documented example: a leading "__" becomes a leading "%". */
  lemma RewriteLeadingPair(t: string)
    ensures RewriteSearch("__" + t) == "%" + RewriteSearch(t)
  {
    assert ("__" + t)[2..] == t;
  }

  /** Every pair becomes "%", wherever it stands: the text before the leftmost pair
      (which holds no pair and does not end in '_') is kept, the pair becomes "%",
      and the rewrite goes on after it. With `NoPair(s) ==> RewriteSearch(s) == s`
      this determines the result on every input. */
  lemma {:induction false} RewriteFirstPair(a: string, b: string)
    requires NoPair(a) && (a == [] || a[|a| - 1] != '_')
    ensures RewriteSearch(a + "__" + b) == a + "%" + RewriteSearch(b)
    decreases |a|
  {
    if a == [] {
      assert a + "__" + b == "__" + b;
      RewriteLeadingPair(b);
    } else {
      var rest := a[1..];
      BeforeFirstPair(a, b);
      RewriteStep(a + "__" + b);
      RewriteFirstPair(rest, b);
      assert a == [a[0]] + rest;
      Assoc([a[0]], rest, "%" + RewriteSearch(b));
      Assoc(rest, "%", RewriteSearch(b));
      Assoc(a, "%", RewriteSearch(b));
    }
  }

  /** Before the leftmost pair the text starts with no pair, and what follows its
      first character again stands before the leftmost pair. */
  lemma BeforeFirstPair(a: string, b: string)
    requires NoPair(a) && a != [] && a[|a| - 1] != '_'
    ensures var s := a + "__" + b;
      |s| >= 2 && s[0] == a[0] && !(s[0] == '_' && s[1] == '_') && s[1..] == a[1..] + "__" + b
    ensures NoPair(a[1..]) && (a[1..] == [] || a[1..][|a[1..]| - 1] != '_')
  {
    var s, rest := a + "__" + b, a[1..];
    if |a| >= 2 { assert s[1] == a[1]; } else { assert s[1] == '_'; }
    forall i | 0 <= i < |rest| - 1 ensures !(rest[i] == '_' && rest[i + 1] == '_') {
      assert rest[i] == a[i + 1] && rest[i + 1] == a[i + 2];
    }
    assert s[1..] == rest + "__" + b;
  }

  /** Outside a pair the first character is kept. */
  lemma RewriteStep(s: string)
    requires |s| >= 1 && !(|s| >= 2 && s[0] == '_' && s[1] == '_')
    ensures RewriteSearch(s) == [s[0]] + RewriteSearch(s[1..])
  {
  }

  // ---------------------------------------------------------------- predicates

  /** One `Where` condition of the query. */
  datatype Pred =
    | OwnerEq(col: string, owner: Option<string>)  // `col = ?` with the raw owner value (None: nil)
    | NotDeleted(col: string)                      // `col = '0001-01-01 00:00:00' OR col IS NULL`
    | FieldEq(col: string, value: string)          // one filter entry
    | Like(col: string, pattern: string)           // `col like ?` with the rewritten search
    | Between(col: string, lo: int, hi: int)

  datatype Order = Unordered | OrderBy(expr: string) | DescBy(col: string)

  /** A session: the table, its conditions (all ANDed) and its ordering. */
  datatype Query = Query(table: string, conds: seq<Pred>, order: Order)

  /** `order` wins over `order_desc`. */
  function OrderFor(orderBy: string, descField: string): (o: Order)
    ensures o.OrderBy? <==> |orderBy| >= 1
    ensures o.DescBy? <==> |orderBy| < 1 && |descField| >= 1
    ensures o.OrderBy? ==> o.expr == orderBy
    ensures o.DescBy? ==> o.col == descField
  {
    if |orderBy| >= 1 then OrderBy(orderBy) else if |descField| >= 1 then DescBy(descField) else Unordered
  }

  /** The conditions `base` and the soft-delete clause add before the filters. */
  function FixedPreds(info: ModelInfo, pv: Option<string>): seq<Pred> {
    (if info.private then [OwnerEq(info.tableColName, pv)] else [])
    + (if |info.fieldList.deleted| >= 1 then [NotDeleted(info.fieldList.deleted)] else [])
  }

  function Likes(fields: seq<string>, pattern: string): (ps: seq<Pred>)
    ensures |ps| == |fields|
    ensures forall i | 0 <= i < |fields| :: ps[i] == Like(fields[i], pattern)
  {
    if fields == [] then [] else [Like(fields[0], pattern)] + Likes(fields[1..], pattern)
  }

  function SearchPreds(info: ModelInfo, search: string): seq<Pred> {
    if |search| >= 1 then Likes(info.settings.searchFields, search) else []
  }

  /** The conditions of `where()`: the fixed ones, then one per filter entry in the
      map's (unspecified) iteration order, then one `like` per search field. */
  ghost predicate IsWhere(info: ModelInfo, filters: map<string, string>, search: string, pv: Option<string>, conds: seq<Pred>) {
    var fixed, likes := FixedPreds(info, pv), SearchPreds(info, search);
    && |conds| == |fixed| + |filters| + |likes|
    && conds[..|fixed|] == fixed
    && conds[|fixed| + |filters|..] == likes
    && forall p :: p in conds[|fixed|..|fixed| + |filters|] <==> p.FieldEq? && p.col in filters && filters[p.col] == p.value
  }

  /** The filter loop: one condition per entry, in whatever order the map yields. */
  method AddFilters(conds: seq<Pred>, filters: map<string, string>) returns (r: seq<Pred>)
    ensures |r| == |conds| + |filters| && r[..|conds|] == conds
    ensures forall p :: p in r[|conds|..] <==> p.FieldEq? && p.col in filters && filters[p.col] == p.value
  {
    r := conds;
    var rest := filters.Keys;
    ghost var done: set<string> := {};
    while rest != {}
      invariant rest + done == filters.Keys && rest !! done
      invariant |r| == |conds| + |done| && r[..|conds|] == conds
      invariant forall p :: p in r[|conds|..] <==> p.FieldEq? && p.col in done && filters[p.col] == p.value
      decreases rest
    {
      var k :| k in rest;
      ghost var before := r;
      r := r + [FieldEq(k, filters[k])];
      assert r[|conds|..] == before[|conds|..] + [FieldEq(k, filters[k])];
      rest := rest - {k};
      done := done + {k};
    }
    assert done == filters.Keys;
  }

  /** The search loop over the declared search fields. */
  method AddLikes(conds: seq<Pred>, fields: seq<string>, pattern: string) returns (r: seq<Pred>)
    ensures r == conds + Likes(fields, pattern)
  {
    r := conds;
    var i := 0;
    while i < |fields|
      invariant 0 <= i <= |fields|
      invariant r == conds + Likes(fields[..i], pattern)
    {
      assert fields[..i + 1] == fields[..i] + [fields[i]];
      LikesAppend(fields[..i], fields[i], pattern);
      r := r + [Like(fields[i], pattern)];
      i := i + 1;
    }
    assert fields[..i] == fields;
  }

  lemma LikesAppend(fields: seq<string>, f: string, pattern: string)
    ensures Likes(fields + [f], pattern) == Likes(fields, pattern) + [Like(f, pattern)]
  {
    var a, b := Likes(fields + [f], pattern), Likes(fields, pattern) + [Like(f, pattern)];
    assert |a| == |b|;
    forall i | 0 <= i < |a| ensures a[i] == b[i] {
      if i < |fields| { assert (fields + [f])[i] == fields[i]; }
    }
  }

  /** `base()` and `where()` (handler.go:69-100). */
  method BuildWhere(info: ModelInfo, orderBy: string, descField: string, filters: map<string, string>, search: string, pv: Option<string>)
    returns (q: Query)
    ensures q.table == info.mapName && q.order == OrderFor(orderBy, descField)
    ensures IsWhere(info, filters, search, pv, q.conds)
  {
    var conds: seq<Pred> := [];
    if info.private {
      conds := conds + [OwnerEq(info.tableColName, pv)];
    }
    if |info.fieldList.deleted| >= 1 {
      conds := conds + [NotDeleted(info.fieldList.deleted)];
    }
    ghost var fixed := conds;
    assert fixed == FixedPreds(info, pv);
    conds := AddFilters(conds, filters);
    ghost var filtered := conds;
    if |search| >= 1 {
      conds := AddLikes(conds, info.settings.searchFields, search);
    }
    assert conds == filtered + SearchPreds(info, search);
    assert conds[..|fixed|] == filtered[..|fixed|];
    assert conds[|fixed|..|fixed| + |filters|] == filtered[|fixed|..];
    assert conds[|fixed| + |filters|..] == SearchPreds(info, search);
    q := Query(info.mapName, conds, OrderFor(orderBy, descField));
  }

  lemma InThree(conds: seq<Pred>, a: nat, b: nat, p: Pred)
    requires a <= b <= |conds|
    ensures p in conds <==> p in conds[..a] || p in conds[a..b] || p in conds[b..]
  {
    assert conds == conds[..a] + conds[a..b] + conds[b..];
  }

  lemma LikesMembers(fields: seq<string>, pattern: string, p: Pred)
    ensures p in Likes(fields, pattern) <==> p.Like? && p.col in fields && p.pattern == pattern
  {
    if p.Like? && p.col in fields && p.pattern == pattern {
      var i :| 0 <= i < |fields| && fields[i] == p.col;
      assert Likes(fields, pattern)[i] == p;
    }
  }

  /** Membership in the where-set, in both directions: an owner condition iff the
      model is private, a soft-delete condition iff the table has a deleted column,
      one equality per filter entry, one `like` per search field iff there is a
      search, and never a range condition. */
  lemma WhereMembers(info: ModelInfo, filters: map<string, string>, search: string, pv: Option<string>, conds: seq<Pred>, p: Pred)
    requires IsWhere(info, filters, search, pv, conds)
    ensures p.OwnerEq? ==> (p in conds <==> info.private && p == OwnerEq(info.tableColName, pv))
    ensures p.NotDeleted? ==> (p in conds <==> |info.fieldList.deleted| >= 1 && p.col == info.fieldList.deleted)
    ensures p.FieldEq? ==> (p in conds <==> p.col in filters && filters[p.col] == p.value)
    ensures p.Like? ==> (p in conds <==> |search| >= 1 && p.col in info.settings.searchFields && p.pattern == search)
    ensures !(p.Between? && p in conds)
  {
    var fixed, likes := FixedPreds(info, pv), SearchPreds(info, search);
    var a, b := |fixed|, |fixed| + |filters|;
    InThree(conds, a, b, p);
    assert conds[..a] == fixed && conds[b..] == likes;
    LikesMembers(info.settings.searchFields, search, p);
    assert p in conds[a..b] <==> p.FieldEq? && p.col in filters && filters[p.col] == p.value;
  }

  // ---------------------------------------------------------------- the data query

  /** The range scan is used iff there is an auto-increment column and no filter,
      order, descending field or search (handler.go:112). */
  predicate UseRangeScan(info: ModelInfo, filters: map<string, string>, orderBy: string, descField: string, search: string) {
    |info.fieldList.autoIncrement| >= 1 && |filters| < 1 && |orderBy| < 1 && |descField| < 1 && |search| < 1
  }

  /** A fetch: the session, `Limit(limit, offset)`. */
  datatype Fetch = Fetch(q: Query, limit: int, offset: int)

  function DataFetch(where: Query, info: ModelInfo, range: bool, pageSize: int, w: (int, int)): (f: Fetch)
    ensures f.limit == pageSize && f.q.table == where.table && f.q.order == where.order
    ensures range ==> f.offset == 0 && f.q.conds == where.conds + [Between(info.fieldList.autoIncrement, w.0, w.1)]
    ensures !range ==> f == Fetch(where, pageSize, w.0)
  {
    if range then Fetch(Query(where.table, where.conds + [Between(info.fieldList.autoIncrement, w.0, w.1)], where.order), pageSize, 0)
    else Fetch(where, pageSize, w.0)
  }

  // ---------------------------------------------------------------- projection

  /** A row as `QueryString` returns it: column name to text. */
  type Row = map<string, string>

  function ColumnNames(shape: seq<StructInfo>): set<string> {
    set i | 0 <= i < |shape| :: shape[i].mapName
  }

  /** The inner search over the response shape's fields. */
  method HasColumn(shape: seq<StructInfo>, k: string) returns (found: bool)
    ensures found <==> k in ColumnNames(shape)
  {
    found := false;
    var i := 0;
    while i < |shape|
      invariant 0 <= i <= |shape|
      invariant !found ==> forall j | 0 <= j < i :: shape[j].mapName != k
      invariant found ==> k in ColumnNames(shape)
    {
      if shape[i].mapName == k {
        found := true;
        break;
      }
      i := i + 1;
    }
  }

  /** One row: the columns the shape names, with their values. */
  method ProjectRow(item: Row, shape: seq<StructInfo>) returns (c: Row)
    ensures c.Keys == item.Keys * ColumnNames(shape)
    ensures forall k | k in c :: c[k] == item[k]
  {
    c := map[];
    var rest := item.Keys;
    while rest != {}
      invariant rest <= item.Keys
      invariant c.Keys == (item.Keys - rest) * ColumnNames(shape)
      invariant forall k | k in c :: c[k] == item[k]
      decreases rest
    {
      var k :| k in rest;
      var has := HasColumn(shape, k);
      if has {
        c := c[k := item[k]];
      }
      rest := rest - {k};
    }
  }

  /** The projection of handler.go:124-140: row count and order kept, each row cut
      down to the shape's columns with values unchanged. */
  method Project(dataList: seq<Row>, shape: seq<StructInfo>) returns (r: seq<Row>)
    ensures |r| == |dataList|
    ensures forall i | 0 <= i < |r| :: r[i].Keys == dataList[i].Keys * ColumnNames(shape)
    ensures forall i, k | 0 <= i < |r| && k in r[i] :: r[i][k] == dataList[i][k]
  {
    r := [];
    var i := 0;
    while i < |dataList|
      invariant 0 <= i <= |dataList| && |r| == i
      invariant forall j | 0 <= j < i :: r[j].Keys == dataList[j].Keys * ColumnNames(shape)
      invariant forall j, k | 0 <= j < i && k in r[j] :: r[j][k] == dataList[j][k]
    {
      var c := ProjectRow(dataList[i], shape);
      r := r + [c];
      i := i + 1;
    }
  }

  /** The projection as a value. */
  function ProjectRows(rows: seq<Row>, shape: seq<StructInfo>): (r: seq<Row>)
    ensures |r| == |rows|
    ensures forall i | 0 <= i < |r| :: r[i].Keys == rows[i].Keys * ColumnNames(shape)
    ensures forall i, k | 0 <= i < |r| && k in r[i] :: r[i][k] == rows[i][k]
  {
    seq(|rows|, i requires 0 <= i < |rows| => map k | k in rows[i].Keys * ColumnNames(shape) :: rows[i][k])
  }

  /** The projection is determined by its contract. */
  lemma ProjectRowsUnique(r: seq<Row>, rows: seq<Row>, shape: seq<StructInfo>)
    requires |r| == |rows|
    requires forall i | 0 <= i < |r| :: r[i].Keys == rows[i].Keys * ColumnNames(shape)
    requires forall i, k | 0 <= i < |r| && k in r[i] :: r[i][k] == rows[i][k]
    ensures r == ProjectRows(rows, shape)
  {
    var e := ProjectRows(rows, shape);
    forall i | 0 <= i < |r| ensures r[i] == e[i] {
      assert r[i].Keys == e[i].Keys;
    }
  }

  // ---------------------------------------------------------------- the result

  /** The result map of handler.go:142-159. The four fixed keys are always present;
      an optional key is present iff its field is Some. */
  datatype ListResult = ListResult(
    pageSize: int,
    page: int,
    all: int,
    data: seq<Row>,
    descField: Option<string>,
    order: Option<string>,
    filter: Option<map<string, string>>,
    search: Option<string>)

  /** `desc_field`, `order`, `filter` and `search` are echoed iff non-empty; `s` is the
      raw search parameter and `search` its rewrite, and the echo is the raw one. */
  function BuildResult(pageSize: int, page: int, all: int, data: seq<Row>, descField: string, orderBy: string,
                       filters: map<string, string>, s: string, search: string): (r: ListResult)
    ensures r.pageSize == pageSize && r.page == page && r.all == all && r.data == data
    ensures r.descField.Some? <==> |descField| >= 1
    ensures r.order.Some? <==> |orderBy| >= 1
    ensures r.filter.Some? <==> |filters| >= 1
    ensures r.search.Some? <==> |search| >= 1
    ensures r.descField.Some? ==> r.descField.value == descField
    ensures r.order.Some? ==> r.order.value == orderBy
    ensures r.filter.Some? ==> r.filter.value == filters
    ensures r.search.Some? ==> r.search.value == s
  {
    ListResult(pageSize, page, all, data,
      if |descField| >= 1 then Some(descField) else None,
      if |orderBy| >= 1 then Some(orderBy) else None,
      if |filters| >= 1 then Some(filters) else None,
      if |search| >= 1 then Some(s) else None)
  }
}
