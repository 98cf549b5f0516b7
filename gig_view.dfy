/**
 * Stored records and the client-facing view of a gig, with the default
 * substitutions for the author's username and avatar
 * (app/api/gigs/route.ts, the mapping used by both GET and POST).
 */
module GigView {
  import opened Wrappers
  import opened Text

  type UserId = string

  /** Record ids; the database generates them, here they come from counters. */
  type Id = nat

  /** A JSON value as a request body may carry it. JSON has no NaN, so a
      number is falsy exactly when it is zero; arrays and objects are always
      truthy. */
  datatype Json = Undefined | Null | Bool(b: bool) | Num(x: real) | Str(s: string) | Compound

  /** The JSON values JavaScript treats as false. */
  const FalsyValues: set<Json> := {Undefined, Null, Bool(false), Num(0.0), Str("")}

  predicate JsonTruthy(v: Json)
    ensures JsonTruthy(v) <==> v !in FalsyValues
  {
    match v
    case Undefined => false
    case Null => false
    case Bool(b) => b
    case Num(x) => x != 0.0
    case Str(s) => Text.Truthy(s)
    case Compound => true
  }

  /** The author columns the queries select: id, name, image, username. */
  datatype Author = Author(id: UserId, name: Option<string>, image: Option<string>, username: Option<string>)

  datatype Category = Category(id: Id, name: string)

  /** A stored gig. The price is kept as the value that was posted: its
      conversion to a floating-point number is not modelled. */
  datatype GigRow = GigRow(
    id: Id, title: string, description: string, price: Json, timeEstimate: string,
    codeSnippet: Option<string>, createdAt: int, authorId: UserId, categoryId: Id)

  datatype PostedBy = PostedBy(id: UserId, name: Option<string>, username: string, avatar: string)

  datatype Gig = Gig(
    id: Id, title: string, description: string, price: Json, timeEstimate: string,
    category: string, codeSnippet: Option<string>, postedAt: string, postedBy: PostedBy)

  const PlaceholderAvatar: string := "/placeholder.svg?height=40&width=40"
  const FallbackUsername: string := "user"

  /** `o` is a non-null, non-empty string. */
  predicate Present(o: Option<string>) { o.Some? && Text.Truthy(o.value) }

  /** `name?.toLowerCase().replace(/\s+/g, "")`, with null giving "". */
  function NameHandle(name: Option<string>): (r: string)
    ensures name.None? ==> r == ""
    ensures forall i :: 0 <= i < |r| ==> !IsSpace(r[i]) && !IsUpper(r[i])
  {
    match name
    case None => ""
    case Some(n) =>
      var h := StripSpace(ToLower(n));
      assert forall i :: 0 <= i < |h| ==> h[i] in ToLower(n) by {
        forall i | 0 <= i < |h| ensures h[i] in ToLower(n) {
          assert h[i] in h;
        }
      }
      h
  }

  /** `username || name?.toLowerCase().replace(/\s+/g, "") || "user"`. */
  function Username(a: Author): (r: string)
    ensures r != ""
  {
    if Present(a.username) then a.username.value
    else if NameHandle(a.name) != "" then NameHandle(a.name)
    else FallbackUsername
  }

  /** `image || placeholder`. */
  function Avatar(a: Author): (r: string)
    ensures r != ""
    ensures Present(a.image) ==> r == a.image.value
    ensures !Present(a.image) ==> r == PlaceholderAvatar
    ensures r == PlaceholderAvatar <==> !Present(a.image) || a.image.value == PlaceholderAvatar
  {
    if Present(a.image) then a.image.value else PlaceholderAvatar
  }

  lemma ToLowerKeepsSpaces(s: string)
    ensures forall i :: 0 <= i < |s| ==> (IsSpace(ToLower(s)[i]) <==> IsSpace(s[i]))
  {
  }

  /** A display name yields a handle exactly when it has a non-whitespace
      character; the handle has no whitespace and no capital letters. */
  lemma NameHandleOfName(n: string)
    ensures NameHandle(Some(n)) != "" <==> exists i :: 0 <= i < |n| && !IsSpace(n[i])
    ensures forall i :: 0 <= i < |NameHandle(Some(n))| ==> !IsSpace(NameHandle(Some(n))[i]) && !IsUpper(NameHandle(Some(n))[i])
  {
    ToLowerKeepsSpaces(n);
    StripSpaceEmptyIff(ToLower(n));
  }

  /** The username rule, case by case: the stored username when non-empty;
      else the lowercased display name without whitespace, when that is
      non-empty; else "user". */
  lemma UsernameChoice(a: Author)
    ensures Present(a.username) ==> Username(a) == a.username.value
    ensures !Present(a.username) && a.name.Some? && (exists i :: 0 <= i < |a.name.value| && !IsSpace(a.name.value[i])) ==>
      Username(a) == StripSpace(ToLower(a.name.value))
    ensures !Present(a.username) && (a.name.None? || forall i :: 0 <= i < |a.name.value| ==> IsSpace(a.name.value[i])) ==>
      Username(a) == FallbackUsername
  {
    if a.name.Some? {
      NameHandleOfName(a.name.value);
    }
  }

  function Poster(a: Author): (p: PostedBy)
    ensures p.id == a.id && p.name == a.name
    ensures p.username == Username(a) && p.avatar == Avatar(a)
  {
    PostedBy(a.id, a.name, Username(a), Avatar(a))
  }

  /** The view of a stored gig joined with its author and category. */
  function ToView(g: GigRow, author: Author, cat: Category, postedAt: string): (v: Gig)
    requires author.id == g.authorId && cat.id == g.categoryId
    ensures v.id == g.id && v.title == g.title && v.description == g.description
    ensures v.price == g.price && v.timeEstimate == g.timeEstimate && v.codeSnippet == g.codeSnippet
    ensures v.category == cat.name && v.postedAt == postedAt
    ensures v.postedBy.id == g.authorId && v.postedBy.name == author.name
    ensures v.postedBy.username != "" && v.postedBy.avatar != ""
    ensures v.postedBy == Poster(author)
  {
    Gig(g.id, g.title, g.description, g.price, g.timeEstimate, cat.name, g.codeSnippet, postedAt, Poster(author))
  }
}
