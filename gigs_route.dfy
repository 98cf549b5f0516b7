/**
 * The list and create endpoints of app/api/gigs/route.ts over an in-memory
 * store that stands in for the database: a user table, a category table and
 * the gig table.
 */
module GigsRoute {
  import opened Wrappers
  import opened Text
  import opened Seqs
  import opened GigView
  import RelativeTime

  // ------------------------------------------------------------ tables

  /** `findUnique({ where: { name } })`: the category whose name is exactly `name`. */
  function FindByName(cats: seq<Category>, name: string): (r: Option<Category>)
    ensures r.Some? ==> r.value in cats && r.value.name == name
    ensures r.None? ==> forall i :: 0 <= i < |cats| ==> cats[i].name != name
  {
    if cats == [] then None
    else if cats[0].name == name then Some(cats[0])
    else FindByName(cats[1..], name)
  }

  /** The category a gig is connected to. */
  function FindById(cats: seq<Category>, id: Id): (r: Option<Category>)
    ensures r.Some? ==> r.value in cats && r.value.id == id
    ensures r.None? ==> forall i :: 0 <= i < |cats| ==> cats[i].id != id
  {
    if cats == [] then None
    else if cats[0].id == id then Some(cats[0])
    else FindById(cats[1..], id)
  }

  predicate UniqueNames(cats: seq<Category>) {
    forall i, j :: 0 <= i < j < |cats| ==> cats[i].name != cats[j].name
  }

  predicate UniqueCategoryIds(cats: seq<Category>) {
    forall i, j :: 0 <= i < j < |cats| ==> cats[i].id != cats[j].id
  }

  /** A gig whose author and category both resolve. */
  predicate Joinable(users: map<UserId, Author>, cats: seq<Category>, g: GigRow) {
    && g.authorId in users
    && FindById(cats, g.categoryId).Some?
  }

  /** What the database's relations and unique constraints guarantee. */
  predicate Consistent(users: map<UserId, Author>, cats: seq<Category>, gigs: seq<GigRow>, nextCategoryId: Id, nextGigId: Id) {
    && (forall u :: u in users ==> users[u].id == u)
    && UniqueNames(cats)
    && UniqueCategoryIds(cats)
    && (forall i :: 0 <= i < |cats| ==> cats[i].id < nextCategoryId)
    && (forall i :: 0 <= i < |gigs| ==> gigs[i].id < nextGigId && Joinable(users, cats, gigs[i]))
    && (forall i, j :: 0 <= i < j < |gigs| ==> gigs[i].id != gigs[j].id)
  }

  // ------------------------------------------------------------- GET

  /** The `where` object of GET: empty, or a case-insensitive equality on
      the category's name. */
  datatype Where = AllGigs | CategoryNamed(name: string)

  /** GET filters only on a `category` parameter that is present, non-empty
      and not "all". */
  function BuildWhere(category: Option<string>): (w: Where)
    ensures w == AllGigs <==> category.None? || category.value == "" || category.value == "all"
    ensures w.CategoryNamed? ==> w.name == category.value
  {
    if category.Some? && Text.Truthy(category.value) && category.value != "all" then CategoryNamed(category.value)
    else AllGigs
  }

  predicate Matches(cats: seq<Category>, w: Where, g: GigRow)
    ensures w == AllGigs ==> Matches(cats, w, g)
    ensures Matches(cats, w, g) && w.CategoryNamed? ==>
      exists i :: 0 <= i < |cats| && cats[i].id == g.categoryId && EqualsIgnoringCase(cats[i].name, w.name)
    ensures UniqueCategoryIds(cats) && w.CategoryNamed? ==>
      (Matches(cats, w, g) <==> exists i :: 0 <= i < |cats| && cats[i].id == g.categoryId && EqualsIgnoringCase(cats[i].name, w.name))
  {
    match w
    case AllGigs => true
    case CategoryNamed(n) =>
      match FindById(cats, g.categoryId)
      case Some(c) =>
        assert UniqueCategoryIds(cats) ==> forall j :: 0 <= j < |cats| && cats[j].id == g.categoryId ==> cats[j] == c;
        EqualsIgnoringCase(c.name, n)
      case None => false
  }

  /** Newest first: `orderBy: { createdAt: "desc" }`. */
  predicate NewestFirst(rows: seq<GigRow>) {
    forall i, j :: 0 <= i < j < |rows| ==> rows[i].createdAt >= rows[j].createdAt
  }

  function Insert(g: GigRow, rows: seq<GigRow>): (r: seq<GigRow>)
    requires NewestFirst(rows)
    ensures NewestFirst(r)
    ensures multiset(r) == multiset(rows) + multiset{g}
    ensures |r| == |rows| + 1
    ensures r[0] == g || (rows != [] && r[0] == rows[0])
  {
    if rows == [] || g.createdAt >= rows[0].createdAt then [g] + rows
    else
      var rest := Insert(g, rows[1..]);
      assert rows == [rows[0]] + rows[1..];
      [rows[0]] + rest
  }

  /** The order the database returns: a newest-first permutation. */
  function SortNewest(rows: seq<GigRow>): (r: seq<GigRow>)
    ensures NewestFirst(r)
    ensures multiset(r) == multiset(rows)
  {
    if rows == [] then []
    else
      assert rows == [rows[0]] + rows[1..];
      Insert(rows[0], SortNewest(rows[1..]))
  }

  /** `findMany({ where, orderBy: { createdAt: "desc" } })`. */
  function FindMany(cats: seq<Category>, gigs: seq<GigRow>, w: Where): (r: seq<GigRow>)
    ensures NewestFirst(r)
    ensures forall g :: multiset(r)[g] == if Matches(cats, w, g) then multiset(gigs)[g] else 0
  {
    var p := (g: GigRow) => Matches(cats, w, g);
    assert forall g :: multiset(Filter(gigs, p))[g] == if Matches(cats, w, g) then multiset(gigs)[g] else 0 by {
      forall g ensures multiset(Filter(gigs, p))[g] == if Matches(cats, w, g) then multiset(gigs)[g] else 0 {
        FilterMultiset(gigs, p, g);
      }
    }
    SortNewest(Filter(gigs, p))
  }

  /** The rows returned are newest first and are exactly the matching gigs,
      each as often as it is stored. */
  lemma FindManySelects(cats: seq<Category>, gigs: seq<GigRow>, w: Where)
    ensures NewestFirst(FindMany(cats, gigs, w))
    ensures forall g :: multiset(FindMany(cats, gigs, w))[g] == if Matches(cats, w, g) then multiset(gigs)[g] else 0
    ensures forall g :: g in FindMany(cats, gigs, w) <==> g in gigs && Matches(cats, w, g)
  {
  }

  /** Without a filter, GET returns every stored gig. */
  lemma FindManyAll(cats: seq<Category>, gigs: seq<GigRow>)
    ensures multiset(FindMany(cats, gigs, AllGigs)) == multiset(gigs)
  {
    FilterAllPass(gigs, (g: GigRow) => Matches(cats, AllGigs, g));
  }

  /** A category name that matches no category gives an empty list, not an error. */
  lemma FindManyUnknownCategory(cats: seq<Category>, gigs: seq<GigRow>, name: string)
    requires forall i :: 0 <= i < |cats| ==> !EqualsIgnoringCase(cats[i].name, name)
    ensures FindMany(cats, gigs, CategoryNamed(name)) == []
  {
    FilterNonePass(gigs, (g: GigRow) => Matches(cats, CategoryNamed(name), g));
  }

  /** Every row returned is stored, so it joins when the store's do. */
  lemma FindManyJoinable(users: map<UserId, Author>, cats: seq<Category>, gigs: seq<GigRow>, w: Where)
    requires forall i :: 0 <= i < |gigs| ==> Joinable(users, cats, gigs[i])
    ensures var rows := FindMany(cats, gigs, w);
      forall i :: 0 <= i < |rows| ==> Joinable(users, cats, rows[i]) && Matches(cats, w, rows[i])
  {
    var rows := FindMany(cats, gigs, w);
    FindManySelects(cats, gigs, w);
    forall i | 0 <= i < |rows| ensures Joinable(users, cats, rows[i]) && Matches(cats, w, rows[i]) {
      assert rows[i] in rows;
    }
  }

  lemma FindManyAllLength(cats: seq<Category>, gigs: seq<GigRow>)
    ensures |FindMany(cats, gigs, AllGigs)| == |gigs|
  {
    FindManyAll(cats, gigs);
    var rows := FindMany(cats, gigs, AllGigs);
    assert |rows| == |multiset(rows)| == |multiset(gigs)| == |gigs|;
  }

  /** `formatTime` at `now` for each row, joined with its author and category. */
  function FormatRows(users: map<UserId, Author>, cats: seq<Category>, rows: seq<GigRow>, now: int): (r: seq<Gig>)
    requires forall u :: u in users ==> users[u].id == u
    requires forall i :: 0 <= i < |rows| ==> Joinable(users, cats, rows[i])
    ensures |r| == |rows|
    ensures forall i :: 0 <= i < |r| ==>
      Joinable(users, cats, rows[i])
      && r[i] == ToView(rows[i], users[rows[i].authorId], FindById(cats, rows[i].categoryId).value,
                        RelativeTime.FormatTime(now, rows[i].createdAt))
  {
    if rows == [] then []
    else
      var g := rows[0];
      assert Joinable(users, cats, rows[0]);
      [ToView(g, users[g.authorId], FindById(cats, g.categoryId).value, RelativeTime.FormatTime(now, g.createdAt))]
      + FormatRows(users, cats, rows[1..], now)
  }

  /** Every row handed to the formatter has its view, with its id and its
      category's name, among the results. */
  lemma FormatRowsLists(users: map<UserId, Author>, cats: seq<Category>, rows: seq<GigRow>, now: int, g: GigRow)
    requires forall u :: u in users ==> users[u].id == u
    requires forall i :: 0 <= i < |rows| ==> Joinable(users, cats, rows[i])
    requires g in rows
    ensures Joinable(users, cats, g)
    ensures exists i :: (0 <= i < |rows| && FormatRows(users, cats, rows, now)[i].id == g.id
                         && FormatRows(users, cats, rows, now)[i].category == FindById(cats, g.categoryId).value.name)
  {
    var i :| 0 <= i < |rows| && rows[i] == g;
    assert FormatRows(users, cats, rows, now)[i].id == g.id;
  }

  // ------------------------------------------------------------ POST

  /** The JSON body of POST. */
  datatype PostBody = PostBody(title: Json, description: Json, price: Json, timeEstimate: Json, category: Json, codeSnippet: Json)

  /** `title && description && price && timeEstimate && category`. */
  function RequiredFields(b: PostBody): seq<Json> {
    [b.title, b.description, b.price, b.timeEstimate, b.category]
  }

  predicate FieldsFilled(b: PostBody)
    ensures !FieldsFilled(b) <==> exists v :: v in RequiredFields(b) && v in FalsyValues
  {
    JsonTruthy(b.title) && JsonTruthy(b.description) && JsonTruthy(b.price)
    && JsonTruthy(b.timeEstimate) && JsonTruthy(b.category)
  }

  /** The values the gig table accepts for its text columns. */
  predicate GigDataWellTyped(b: PostBody) {
    b.title.Str? && b.description.Str? && b.timeEstimate.Str?
    && (b.codeSnippet.Undefined? || b.codeSnippet.Null? || b.codeSnippet.Str?)
  }

  /** The code snippet column: the posted text, or null for anything else. */
  function Snippet(v: Json): (r: Option<string>)
    ensures r.Some? <==> v.Str?
    ensures r.Some? ==> r.value == v.s
  {
    if v.Str? then Some(v.s) else None
  }

  datatype PostResponse = Created(gig: Gig) | Rejected(status: nat, error: string)

  const Unauthorized: PostResponse := Rejected(401, "Unauthorized")
  const MissingFields: PostResponse := Rejected(400, "Must fill in all fields")
  const ServerError: PostResponse := Rejected(500, "failed to fetch gigs")

  function Status(r: PostResponse): nat {
    match r
    case Created(_) => 201
    case Rejected(s, _) => s
  }

  /** The category table after the get-or-create of POST. */
  function CategoriesAfter(cats: seq<Category>, nextCategoryId: Id, name: string): (r: seq<Category>)
    ensures |cats| <= |r| <= |cats| + 1 && r[..|cats|] == cats
    ensures |r| == |cats| + 1 <==> forall i :: 0 <= i < |cats| ==> cats[i].name != name
  {
    if FindByName(cats, name).Some? then cats else cats + [Category(nextCategoryId, name)]
  }

  /** The category record POST connects the new gig to. */
  function ResolvedCategory(cats: seq<Category>, nextCategoryId: Id, name: string): (c: Category)
    ensures c.name == name
    ensures FindByName(cats, name).Some? ==> c in cats
    ensures FindByName(cats, name).None? ==> c.id == nextCategoryId
  {
    match FindByName(cats, name)
    case Some(c) => c
    case None => Category(nextCategoryId, name)
  }

  /** Get-or-create by exact name never duplicates a name: the table keeps
      its unique names, only grows at its end, gains a row only when the
      name was absent, and afterwards the lookup finds the resolved record. */
  lemma GetOrCreate(cats: seq<Category>, nextCategoryId: Id, name: string)
    requires UniqueNames(cats)
    ensures var after := CategoriesAfter(cats, nextCategoryId, name);
      && UniqueNames(after)
      && after[..|cats|] == cats
      && (|after| == |cats| <==> exists i :: 0 <= i < |cats| && cats[i].name == name)
      && |after| <= |cats| + 1
      && FindByName(after, name) == Some(ResolvedCategory(cats, nextCategoryId, name))
      && ResolvedCategory(cats, nextCategoryId, name).name == name
  {
    var after := CategoriesAfter(cats, nextCategoryId, name);
    if FindByName(cats, name).None? {
      FindByNameAppended(cats, Category(nextCategoryId, name));
    } else {
      FindByNameUnique(cats, name);
    }
  }

  lemma {:induction false} FindByNameAppended(cats: seq<Category>, c: Category)
    requires forall i :: 0 <= i < |cats| ==> cats[i].name != c.name
    ensures FindByName(cats + [c], c.name) == Some(c)
  {
    if cats == [] {
    } else {
      assert (cats + [c])[1..] == cats[1..] + [c];
      FindByNameAppended(cats[1..], c);
    }
  }

  lemma FindByNameUnique(cats: seq<Category>, name: string)
    requires UniqueNames(cats)
    ensures forall i :: 0 <= i < |cats| && cats[i].name == name ==> FindByName(cats, name) == Some(cats[i])
  {
  }

  /** A gig created in a category is listed by GET, whether unfiltered or
      filtered by its category name in any letter case. */
  lemma CreatedGigIsListed(cats: seq<Category>, gigs: seq<GigRow>, g: GigRow, c: Category, param: Option<string>)
    requires FindById(cats, g.categoryId) == Some(c)
    requires param.None? || param.value == "" || param.value == "all" || EqualsIgnoringCase(param.value, c.name)
    ensures g in FindMany(cats, gigs + [g], BuildWhere(param))
  {
    FindManySelects(cats, gigs + [g], BuildWhere(param));
  }

  // ----------------------------------------------------------- store

  class Store {
    var users: map<UserId, Author>
    var categories: seq<Category>
    var gigs: seq<GigRow>
    var nextCategoryId: Id
    var nextGigId: Id

    ghost predicate Valid()
      reads this
    {
      Consistent(users, categories, gigs, nextCategoryId, nextGigId)
    }

    /** A store with the given users (sign-in creates them) and no gigs. */
    constructor (users: map<UserId, Author>)
      requires forall u :: u in users ==> users[u].id == u
      ensures Valid()
      ensures this.users == users && categories == [] && gigs == []
      ensures nextCategoryId == 0 && nextGigId == 0
    {
      this.users := users;
      categories := [];
      gigs := [];
      nextCategoryId := 0;
      nextGigId := 0;
    }

    /** GET /api/gigs?category=... read at time `now`. */
    method Get(category: Option<string>, now: int) returns (r: seq<Gig>)
      requires Valid()
      ensures var rows := FindMany(categories, gigs, BuildWhere(category));
        && (forall i :: 0 <= i < |rows| ==> Joinable(users, categories, rows[i]))
        && r == FormatRows(users, categories, rows, now)
      ensures BuildWhere(category) == AllGigs ==> |r| == |gigs|
      ensures BuildWhere(category).CategoryNamed? ==>
        forall i :: 0 <= i < |r| ==> EqualsIgnoringCase(r[i].category, category.value)
    {
      var where := AllGigs;
      if category.Some? && Text.Truthy(category.value) && category.value != "all" {
        where := CategoryNamed(category.value);
      }
      var rows := FindMany(categories, gigs, where);
      FindManyJoinable(users, categories, gigs, where);
      if where == AllGigs {
        FindManyAllLength(categories, gigs);
      }
      r := FormatRows(users, categories, rows, now);
    }

    /** `findUnique` by exact name, then `create` when absent. */
    method GetOrCreateCategory(name: string) returns (cat: Category)
      requires Valid()
      modifies this
      ensures Valid()
      ensures users == old(users) && gigs == old(gigs) && nextGigId == old(nextGigId)
      ensures categories == CategoriesAfter(old(categories), old(nextCategoryId), name)
      ensures nextCategoryId == old(nextCategoryId) + |categories| - |old(categories)|
      ensures cat == ResolvedCategory(old(categories), old(nextCategoryId), name)
      ensures FindById(categories, cat.id) == Some(cat)
    {
      GetOrCreate(categories, nextCategoryId, name);
      var categoryRecord := FindByName(categories, name);
      if categoryRecord.None? {
        var created := Category(nextCategoryId, name);
        JoinableKept(users, categories, categories + [created], gigs);
        categories := categories + [created];
        nextCategoryId := nextCategoryId + 1;
        categoryRecord := Some(created);
      }
      cat := categoryRecord.value;
      FindByIdUnique(categories, cat);
    }

    /** `gig.create`, connected to the author and the category. */
    method CreateGig(g: GigRow)
      requires Valid()
      requires g.id == nextGigId && Joinable(users, categories, g)
      modifies this
      ensures Valid()
      ensures users == old(users) && categories == old(categories) && nextCategoryId == old(nextCategoryId)
      ensures gigs == old(gigs) + [g] && nextGigId == old(nextGigId) + 1
    {
      gigs := gigs + [g];
      nextGigId := nextGigId + 1;
    }

    /** POST /api/gigs by `user` (None when there is no session) at time `now`. */
    method Post(user: Option<UserId>, body: PostBody, now: int) returns (resp: PostResponse)
      requires Valid()
      modifies this
      ensures Valid()
      ensures users == old(users)
      ensures user.None? ==> resp == Unauthorized
      ensures user.Some? && !FieldsFilled(body) ==> resp == MissingFields
      ensures user.Some? && FieldsFilled(body) && !body.category.Str? ==> resp == ServerError
      ensures user.None? || !FieldsFilled(body) || !body.category.Str? ==>
        categories == old(categories) && gigs == old(gigs)
        && nextCategoryId == old(nextCategoryId) && nextGigId == old(nextGigId)
      ensures user.Some? && FieldsFilled(body) && body.category.Str? ==>
        && categories == CategoriesAfter(old(categories), old(nextCategoryId), body.category.s)
        && nextCategoryId == old(nextCategoryId) + |categories| - |old(categories)|
      ensures user.Some? && FieldsFilled(body) && body.category.Str? ==>
        var cat := ResolvedCategory(old(categories), old(nextCategoryId), body.category.s);
        if user.value in users && GigDataWellTyped(body) then
          var g := NewGig(old(nextGigId), body, now, user.value, cat.id);
          && gigs == old(gigs) + [g]
          && nextGigId == old(nextGigId) + 1
          && resp == Created(ToView(g, users[user.value], cat, "Just now"))
        else
          gigs == old(gigs) && nextGigId == old(nextGigId) && resp == ServerError
    {
      if user.None? {
        return Unauthorized;
      }
      if !FieldsFilled(body) {
        return MissingFields;
      }
      if !body.category.Str? {
        // the lookup rejects a name that is not a string
        return ServerError;
      }
      var cat := GetOrCreateCategory(body.category.s);
      if !(user.value in users && GigDataWellTyped(body)) {
        // connecting an unknown author or storing a non-text column fails
        // after the category has been created
        return ServerError;
      }
      var g := NewGig(nextGigId, body, now, user.value, cat.id);
      CreateGig(g);
      resp := Created(ToView(g, users[user.value], cat, "Just now"));
    }
  }

  /** The row `gig.create` stores for a well-typed body. */
  function NewGig(id: Id, body: PostBody, now: int, author: UserId, categoryId: Id): (g: GigRow)
    requires GigDataWellTyped(body)
    ensures g.authorId == author && g.categoryId == categoryId && g.createdAt == now && g.id == id
    ensures g.title == body.title.s && g.description == body.description.s && g.price == body.price
    ensures g.timeEstimate == body.timeEstimate.s
    ensures g.codeSnippet == if body.codeSnippet.Str? then Some(body.codeSnippet.s) else None
  {
    GigRow(id, body.title.s, body.description.s, body.price, body.timeEstimate.s,
           Snippet(body.codeSnippet), now, author, categoryId)
  }

  lemma FindByIdUnique(cats: seq<Category>, c: Category)
    requires UniqueCategoryIds(cats) && c in cats
    ensures FindById(cats, c.id) == Some(c)
  {
  }

  /** Appending a category keeps every existing gig's join. */
  lemma {:induction false} FindByIdPrefix(cats: seq<Category>, more: seq<Category>, id: Id)
    requires FindById(cats, id).Some?
    ensures FindById(cats + more, id) == FindById(cats, id)
  {
    if cats[0].id != id {
      assert (cats + more)[1..] == cats[1..] + more;
      FindByIdPrefix(cats[1..], more, id);
    }
  }

  lemma JoinableKept(users: map<UserId, Author>, cats: seq<Category>, cats': seq<Category>, gigs: seq<GigRow>)
    requires |cats| <= |cats'| && cats'[..|cats|] == cats
    requires forall i :: 0 <= i < |gigs| ==> Joinable(users, cats, gigs[i])
    ensures forall i :: 0 <= i < |gigs| ==> Joinable(users, cats', gigs[i])
  {
    forall i | 0 <= i < |gigs| ensures Joinable(users, cats', gigs[i]) {
      FindByIdPrefix(cats, cats'[|cats|..], gigs[i].categoryId);
      assert cats' == cats + cats'[|cats|..];
    }
  }
}

/** A client of the store: an anonymous post changes nothing, a post in a new
    category creates the category and returns the new gig, and a later list
    call includes that gig, unfiltered and under its category in lower case. */
module GigsRouteScenario {
  import opened Wrappers
  import opened GigView
  import opened GigsRoute
  import opened Text

  method NewCategoryScenario() returns (anonymous: PostResponse, created: PostResponse, all: seq<Gig>, rust: seq<Gig>)
    ensures anonymous == Unauthorized && Status(anonymous) == 401
    ensures created.Created? && Status(created) == 201
    ensures created.gig.category == "Rust" && created.gig.postedAt == "Just now"
    ensures created.gig.postedBy.username == "user" && created.gig.postedBy.avatar == PlaceholderAvatar
    ensures exists i :: 0 <= i < |all| && all[i].id == created.gig.id
    ensures exists i :: 0 <= i < |rust| && rust[i].id == created.gig.id && rust[i].category == "Rust"
  {
    var ada := Author("u1", None, None, None);
    var store := new Store(map["u1" := ada]);
    var body := PostBody(Str("Fix a borrow error"), Str("It does not compile"), Num(10.0), Str("1 hour"), Str("Rust"), Undefined);
    anonymous := store.Post(None, body, 1000);
    assert store.gigs == [] && store.categories == [] && store.nextCategoryId == 0;
    assert FieldsFilled(body) && GigDataWellTyped(body);
    created := store.Post(Some("u1"), body, 1000);
    assert ResolvedCategory([], 0, "Rust") == Category(0, "Rust");
    var g := store.gigs[0];
    all, rust := ListNewGig(store, g);
  }

  /** Listing a store whose only gig is `g`, in category "Rust": `g` is in the
      unfiltered list and in the list for "rust". */
  method ListNewGig(store: Store, g: GigRow) returns (all: seq<Gig>, rust: seq<Gig>)
    requires store.Valid()
    requires store.gigs == [g] && store.categories == [Category(0, "Rust")] && g.categoryId == 0
    ensures exists i :: 0 <= i < |all| && all[i].id == g.id
    ensures exists i :: 0 <= i < |rust| && rust[i].id == g.id && rust[i].category == "Rust"
  {
    all := ListUnder(store, g, None);
    assert EqualsIgnoringCase("rust", "Rust") by {
      assert ToLower("Rust") == "rust";
    }
    rust := ListUnder(store, g, Some("rust"));
  }

  /** Listing under a parameter that selects `g`'s category includes `g`. */
  method ListUnder(store: Store, g: GigRow, param: Option<string>) returns (r: seq<Gig>)
    requires store.Valid()
    requires store.gigs == [g] && |store.categories| == 1 && store.categories[0].id == g.categoryId
    requires param.None? || EqualsIgnoringCase(param.value, store.categories[0].name)
    ensures exists i :: 0 <= i < |r| && r[i].id == g.id && r[i].category == store.categories[0].name
  {
    assert store.gigs == [] + [g];
    assert FindById(store.categories, g.categoryId) == Some(store.categories[0]);
    r := store.Get(param, 5000);
    CreatedGigIsListed(store.categories, [], g, store.categories[0], param);
    FormatRowsLists(store.users, store.categories, FindMany(store.categories, store.gigs, BuildWhere(param)), 5000, g);
  }
}
