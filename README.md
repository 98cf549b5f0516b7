# CodingGigs core, modelled in Dafny

CodingGigs is a small marketplace where signed-in users post short coding
tasks ("gigs") and browse them by category. This project models the part of
it that holds logic:

- the gigs API (`app/api/gigs/route.ts`);
- the list shaping of the home page (`app/page.tsx`).

The gigs API has four parts:

- the relative-time label `formatTime`;
- the mapping of a stored gig to its client view, including the username and avatar defaults;
- the GET endpoint, with its optional case-insensitive category filter and its newest-first order;
- the POST endpoint, with its ordered guards, its get-or-create of the category by exact name and its creation of the gig.

The database is an in-memory `Store` class. It has a user table, a category
table, a gig table and two id counters. The route handlers are methods of
this class. The formatting and the page logic are pure functions.

Files and modules:

- `wrappers.dfy` (`Wrappers`): `Option`, where `None` stands for `null`/`undefined`.
- `text.dfy` (`Text`):
  - ASCII `toLowerCase`;
  - the ECMAScript `\s` class and `replace(/\s+/g, "")`;
  - string truthiness;
  - the decimal numeral of a count, and its inverse.
- `seqs.dfy` (`Seqs`): `filter` on sequences. It keeps exactly the passing elements, with their multiplicities and in order.
- `relative_time.dfy` (`RelativeTime`):
  - `formatTime` as a classification into tiers followed by a rendering;
  - a parser that reads each label back;
  - the tier boundaries stated in whole seconds.
- `gig_view.dfy` (`GigView`): the stored records, the view model, and the username and avatar rules.
- `gigs_route.dfy` (`GigsRoute`, `GigsRouteScenario`):
  - the category lookups and the GET filter;
  - the newest-first sort that the database performs;
  - the `Store` class with `Get` and `Post`;
  - a client that posts, anonymously and then signed in.
- `home_page.dfy` (`HomePage`): the URL `getGigs` fetches, the `getCategories` summaries, the three category tab panels and the "all" panel.

Inputs that the source reads from the environment are parameters here:

- the current time `now`, in integer milliseconds;
- the signed-in user (`Option<UserId>`);
- the JSON request body (`PostBody`, whose fields are JSON values);
- `NEXT_PUBLIC_API_URL` (`Option<string>`);
- `encodeURIComponent` (an arbitrary function `string -> string`).

The POST guard `!price` rejects only falsy values: the number `0`, `""`,
`null`, `false`, or a missing field. A JSON string `"0"` is truthy, so it
passes the guard. The app's own form sends `Number.parseFloat(price)`, so
the number `0` is what it rejects in practice.

POST returns `postedAt` as the literal `"Just now"`, with a capital J. It
does not call `formatTime`, whose label for a new gig would be
`"just now"`. The model keeps both spellings as the code has them.

## Model

| member | source | states |
|---|---|---|
| Text.ToLower | app/api/gigs/route.ts:53 | lowercasing keeps the length, maps each character through the ASCII case fold, and leaves no capital letter |
| Text.StripSpace | app/api/gigs/route.ts:53 | removing every `\s` run (the ECMAScript whitespace set, `Text.IsSpace`) keeps, in order, exactly the non-whitespace characters: the result is a subsequence of the input with no whitespace, and each non-whitespace character occurs in it as often as in the input |
| Text.StripSpaceEmptyIff | app/api/gigs/route.ts:53 | removing every whitespace run leaves the empty string exactly when every character is whitespace |
| Text.DigitsValueOfNatToString | app/api/gigs/route.ts:163 | the decimal numeral printed for a count reads back as that count |
| RelativeTime.Classify | app/api/gigs/route.ts:153-178 | every count shown is at least 1; minute counts stay below 60, hour counts below 24, day counts below 30 |
| RelativeTime.ParseRender | app/api/gigs/route.ts:157-177 | every label that `Render` (and so `FormatTime`) produces, including the "s" suffix rule, reads back as the tier and count it was made from |
| RelativeTime.RenderInjective | app/api/gigs/route.ts:157-177 | two different tiers or counts never produce the same label |
| RelativeTime.JustNowIff | app/api/gigs/route.ts:155-159 | the `FormatTime` label is "just now" exactly when fewer than 60 whole seconds elapsed, and always when createdAt is in the future |
| RelativeTime.TierBySeconds | app/api/gigs/route.ts:161-177 | the tiers are disjoint and cover all inputs: minutes for [60, 3600) s, hours for [3600, 86400) s, days for [86400, 2592000) s, months beyond, and there is no year tier |
| RelativeTime.CountBySeconds | app/api/gigs/route.ts:161-176 | the count shown equals the elapsed seconds floor-divided by the tier's unit (60, 3600, 86400 or 2592000) |
| RelativeTime.FloorDivDiv | app/api/gigs/route.ts:166-176 | chaining the floor divisions by 60, 60, 24 and 30 equals one floor division by their product |
| RelativeTime.MinuteLabel | app/api/gigs/route.ts:161-164 | between 60 and 3600 seconds the label is "N minute ago" or "N minutes ago", with N = floor(s/60) in [1, 60) and the "s" only when N > 1 |
| RelativeTime.ExampleSeconds | app/api/gigs/route.ts:155-164 | 30 s gives "just now", a future time gives "just now", 90 s gives "1 minute ago", 150 s gives "2 minutes ago" |
| RelativeTime.ExampleHoursDaysMonths | app/api/gigs/route.ts:166-177 | 3700 s gives "1 hour ago", 90000 s gives "1 day ago", 40 days gives "1 month ago" |
| GigView.NameHandle | app/api/gigs/route.ts:53 | a missing display name gives the empty handle; any handle has no whitespace and no capital letters |
| GigView.Username | app/api/gigs/route.ts:51-54 | the username shown is never empty |
| GigView.UsernameChoice | app/api/gigs/route.ts:51-54 | the username is the stored one when non-empty; otherwise the display name lowercased with whitespace removed, when that has a non-whitespace character; otherwise "user" |
| GigView.NameHandleOfName | app/api/gigs/route.ts:53 | a display name gives a non-empty handle exactly when it has a non-whitespace character; the handle has no whitespace and no capital letters |
| GigView.Avatar | app/api/gigs/route.ts:55 | the avatar is the stored image when that is non-empty and the placeholder otherwise, so it is never empty; it equals the placeholder exactly when no non-empty image is stored or the stored image is the placeholder URL itself |
| GigView.Poster | app/api/gigs/route.ts:48-56 | postedBy copies the author's id and name and carries the username and avatar chosen by the two rules |
| GigView.ToView | app/api/gigs/route.ts:124-142 | the view copies id, title, description, price, timeEstimate and codeSnippet unchanged; category is the joined category's name; postedAt is the given label; postedBy is the author's `Poster`, with the username and avatar chosen by the two rules |
| GigsRoute.FindByName | app/api/gigs/route.ts:87-89 | the lookup finds a category whose name is exactly the given one, or reports that no category has that name |
| GigsRoute.FindById | app/api/gigs/route.ts:107-109 | the category connected by id is in the table, or no category has that id |
| GigView.JsonTruthy | app/api/gigs/route.ts:80 | a JSON value is truthy exactly when it is not one of the falsy values `undefined`, `null`, `false`, `0` and `""` |
| GigsRoute.Matches | app/api/gigs/route.ts:12-19 | with no filter every gig matches; with a category filter, and category ids unique, a gig matches exactly when its category's name equals the filter name ignoring case |
| GigsRoute.FindMany | app/api/gigs/route.ts:21-37 | findMany returns rows newest first, each gig that matches the filter as often as it is stored and no other gig |
| GigsRoute.BuildWhere | app/api/gigs/route.ts:8-19 | GET filters by category exactly when the parameter is present, non-empty and not "all", and then on the parameter's own text |
| GigsRoute.Insert | app/api/gigs/route.ts:34-36 | inserting into a newest-first list keeps it newest-first and adds exactly one element |
| GigsRoute.SortNewest | app/api/gigs/route.ts:34-36 | the database order is newest createdAt first and is a permutation of its input |
| GigsRoute.FindManySelects | app/api/gigs/route.ts:10-37 | findMany returns rows newest first; they are exactly the gigs that match the filter, each as often as it is stored |
| GigsRoute.FindManyAll | app/api/gigs/route.ts:10-21 | with no filter, findMany returns every stored gig |
| GigsRoute.FindManyAllLength | app/api/gigs/route.ts:10-21 | with no filter, findMany returns as many rows as there are stored gigs |
| GigsRoute.FindManyUnknownCategory | app/api/gigs/route.ts:12-19 | a category name that matches no category, in any letter case, gives an empty list rather than an error |
| GigsRoute.FindManyJoinable | app/api/gigs/route.ts:21-33 | every returned row has a resolvable author and category and satisfies the filter |
| GigsRoute.FormatRows | app/api/gigs/route.ts:39-57 | one view per row, in row order; view i is the mapping of row i with its author, its category and formatTime at `now`, so it carries the row's id, title, description, price, timeEstimate and codeSnippet unchanged, its category's name and the author's postedBy |
| GigsRoute.FieldsFilled | app/api/gigs/route.ts:80 | the 400 guard fires exactly when one of title, description, price, timeEstimate and category is a falsy JSON value |
| GigsRoute.Snippet | app/api/gigs/route.ts:103 | a text codeSnippet is stored as that text; undefined or null as null (other values make POST fail with 500, through `GigDataWellTyped`) |
| GigsRoute.CategoriesAfter | app/api/gigs/route.ts:87-95 | the category table after get-or-create keeps every existing row in place and grows by one row exactly when no category has the name |
| GigsRoute.ResolvedCategory | app/api/gigs/route.ts:87-95 | the resolved category has the posted name; it is the stored row when one has that name, and otherwise the new row with the next id |
| GigsRoute.GetOrCreate | app/api/gigs/route.ts:87-95 | get-or-create by exact name never duplicates a name; it appends a category only when the name is absent, keeps the existing rows, and afterwards the lookup finds the resolved record |
| GigsRoute.NewGig | app/api/gigs/route.ts:97-110 | the created row is linked to the current user and to the resolved category, is created at `now`, and carries the posted fields |
| GigsRoute.CreatedGigIsListed | app/api/gigs/route.ts:10-37 | a gig created in a category is listed by GET, both unfiltered and filtered by that category's name in any letter case |
| GigsRoute.Store.Get | app/api/gigs/route.ts:5-59 | GET's result is the formatted findMany of the built filter; unfiltered it returns as many views as there are gigs; filtered, every view's category equals the parameter ignoring case |
| GigsRoute.Store.GetOrCreateCategory | app/api/gigs/route.ts:87-95 | the category table becomes the get-or-create result, the category counter advances by one exactly when a row is created, the returned record is the resolved one, and the gigs are untouched |
| GigsRoute.Store.CreateGig | app/api/gigs/route.ts:97-122 | exactly one gig row is appended and the gig counter advances by one; nothing else changes |
| GigsRoute.Store.Post | app/api/gigs/route.ts:68-151 | with no user: 401 and nothing changes. With a falsy title, description, price, timeEstimate or category: 400 and nothing changes. A non-text category gives 500 and nothing changes. Otherwise the category is got or created, the category counter advancing exactly when a row is created; then, for a known author and text title, description and timeEstimate (`GigDataWellTyped`), exactly one gig is appended, the gig counter advances by one and 201 is returned with postedAt "Just now"; else 500 is returned with no gig added and the gig counter unchanged |
| GigsRouteScenario.NewCategoryScenario | app/api/gigs/route.ts:68-144 | an anonymous post is refused with 401; the same post signed in creates the category and returns 201 with the "user" and placeholder defaults; the new gig is then listed unfiltered and under "rust" |
| GigsRouteScenario.ListNewGig | app/api/gigs/route.ts:5-59 | a store whose only gig is in category "Rust" lists that gig unfiltered and under "rust", with category "Rust" |
| GigsRouteScenario.ListUnder | app/api/gigs/route.ts:8-59 | with a single category, a parameter that is absent or equals the category's name ignoring case lists the only gig under that category's name |
| GigsRoute.FormatRowsLists | app/api/gigs/route.ts:39-57 | every row handed to the formatter appears among the views, with its id and its category's name |
| HomePage.ApiUrl | app/page.tsx:30-31 | the API URL is the configured one when non-empty, and the local default otherwise |
| HomePage.GigsUrl | app/page.tsx:33-36 | the URL is the bare API URL exactly when the category is "all"; otherwise it is the API URL followed by "?category=" and the encoded category |
| HomePage.HomeUrl | app/page.tsx:65 | the home page, which uses the default argument, fetches the bare API URL |
| HomePage.GigCount | app/page.tsx:50-55 | a category's gig count is at most the number of gigs, and is 0 exactly when no gig is in that category |
| HomePage.Summaries | app/page.tsx:49-62 | one summary per category row, in the same order, with that row's name and gig count |
| HomePage.SummariesCountEveryGig | app/page.tsx:49-62 | the sidebar counts sum to the number of gigs, because each gig is counted under exactly one category |
| HomePage.CategoryTabs | app/page.tsx:112-117 | there are min(3, number of categories) tab panels, for the first categories in order, each with the lowercased name as its value |
| HomePage.InTabSelects | app/page.tsx:118-123 | a tab (`InTab`) holds exactly the gigs whose category equals the tab's name ignoring case, with their multiplicities, as a subsequence of the list |
| HomePage.AllTab | app/page.tsx:102-110 | the "all" panel shows every gig as a card when the list is non-empty, and the empty-state message otherwise |
| HomePage.Home | app/page.tsx:64-128 | the page's sidebar is the category summaries; it has at most 3 category tabs and no more than there are categories; the "all" panel is `AllTab` of the gigs, showing cards exactly when there are gigs, and the tab panels are `CategoryTabs` of the categories and gigs |
| HomePage.TabsWithinAll | app/page.tsx:96-128 | every gig in a category tab also appears in the "all" panel; with no gigs every category tab is empty |

## Left out

- HTTP and I/O are not modelled: `fetch` with its `res.ok` error and its revalidation, `NextResponse`, and reading the body with `request.json()`. Responses are values; the body is a `PostBody` value.
- The database engine is replaced by in-memory tables. Ids come from two counters instead of generated strings. A database failure, and the generic 500 it causes through the `catch` blocks, is not modelled. The 500 cases the model does have are input-driven: a non-text category, an unknown author, and non-text gig columns.
- The race between the category lookup and its creation under concurrent posts is not modelled. The model is sequential.
- The session lookup in `lib/auth.ts` is not part of this model. The signed-in user is an input.
- `Number.parseFloat(price)` is not modelled, because it is floating-point parsing. The stored price is the posted JSON value. The model keeps only the truthiness check on it.
- GigsRoute.SortNewest: the database does not fix the order of gigs with equal `createdAt`. The model's stable insertion sort picks one order, but the contracts promise only newest-first order and a permutation.
- The time difference is taken as an exact integer number of milliseconds, and `Math.floor` of the floating-point quotient is taken as exact floor division.
- Text.ToLower: folds ASCII letters only. Unicode case mapping is left out because it rests on tables for the whole of Unicode. The `\s` class is modelled in full.
- The case-insensitive database filter (`mode: "insensitive"`) is modelled as equality after ASCII lowercasing. Collation details of the database are left out.
- `app/api/gigs/[id]/route.ts` (get by id) is not part of this model.
- UI rendering is not modelled: the card component, the post form, the layout, theming and the footer. The home page renders panels for three categories, but its tab list has only the "All Gigs" trigger. The model covers the panels' contents, not how they are selected.
