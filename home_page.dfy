/**
 * The list shaping of the home page (app/page.tsx): the URL it fetches
 * gigs from, the category summaries of the sidebar, the category tab
 * panels and the "all" panel.
 */
module HomePage {
  import opened Wrappers
  import opened Text
  import opened Seqs
  import opened GigView
  import GigsRoute

  // --------------------------------------------------------------- URL

  const LocalApiUrl: string := "http://localhost:3000/api/gigs"

  /** The default argument of `getGigs`. */
  const AllCategories: string := "all"

  /** `process.env.NEXT_PUBLIC_API_URL || "http://localhost:3000/api/gigs"`. */
  function ApiUrl(env: Option<string>): (r: string)
    ensures r != ""
    ensures r == if Present(env) then env.value else LocalApiUrl
  {
    if Present(env) then env.value else LocalApiUrl
  }

  /** The URL `getGigs(category)` fetches; `encode` is `encodeURIComponent`.
      The bare API URL is requested exactly for "all"; any other category,
      the empty one included, is sent as an encoded query parameter after
      the API URL. */
  function GigsUrl(apiUrl: string, category: string, encode: string -> string): (r: string)
    ensures r == apiUrl <==> category == AllCategories
    ensures category != AllCategories ==>
      |r| > |apiUrl| && r[..|apiUrl|] == apiUrl && r[|apiUrl|..] == "?category=" + encode(category)
  {
    if category == AllCategories then apiUrl
    else
      var r := apiUrl + "?category=" + encode(category);
      assert |r| > |apiUrl|;
      r
  }

  /** `Home` calls `getGigs()` and so fetches the bare API URL. */
  function HomeUrl(env: Option<string>, encode: string -> string): (r: string)
    ensures r == ApiUrl(env)
  {
    GigsUrl(ApiUrl(env), AllCategories, encode)
  }

  // ---------------------------------------------------------- sidebar

  datatype CategorySummary = CategorySummary(name: string, count: nat)

  /** `_count.gigs`: the number of gigs connected to category `id`. */
  function GigCount(gigs: seq<GigRow>, id: Id): (n: nat)
    ensures n <= |gigs|
    ensures n == 0 <==> forall i :: 0 <= i < |gigs| ==> gigs[i].categoryId != id
  {
    if gigs == [] then 0
    else (if gigs[0].categoryId == id then 1 else 0) + GigCount(gigs[1..], id)
  }

  /** `getCategories`: one summary per category row, in row order. */
  function Summaries(cats: seq<Category>, gigs: seq<GigRow>): (r: seq<CategorySummary>)
    ensures |r| == |cats|
    ensures forall i :: 0 <= i < |cats| ==> r[i].name == cats[i].name && r[i].count == GigCount(gigs, cats[i].id)
  {
    if cats == [] then []
    else [CategorySummary(cats[0].name, GigCount(gigs, cats[0].id))] + Summaries(cats[1..], gigs)
  }

  function TotalCount(s: seq<CategorySummary>): nat {
    if s == [] then 0 else s[0].count + TotalCount(s[1..])
  }

  /** The number of categories with id `id`. */
  function Hits(cats: seq<Category>, id: Id): nat {
    if cats == [] then 0 else (if cats[0].id == id then 1 else 0) + Hits(cats[1..], id)
  }

  lemma {:induction false} HitsOfUniqueId(cats: seq<Category>, id: Id)
    requires GigsRoute.UniqueCategoryIds(cats)
    ensures Hits(cats, id) == if GigsRoute.FindById(cats, id).Some? then 1 else 0
  {
    if cats != [] {
      HitsOfUniqueId(cats[1..], id);
      if cats[0].id == id {
        assert GigsRoute.FindById(cats[1..], id).None? by {
          forall i | 0 <= i < |cats[1..]| ensures cats[1..][i].id != id {
            assert cats[1..][i] == cats[i + 1];
          }
        }
      }
    }
  }

  lemma {:induction false} TotalCountOfConsGig(cats: seq<Category>, g: GigRow, rest: seq<GigRow>)
    ensures TotalCount(Summaries(cats, [g] + rest)) == Hits(cats, g.categoryId) + TotalCount(Summaries(cats, rest))
  {
    assert ([g] + rest)[1..] == rest;
    if cats != [] {
      TotalCountOfConsGig(cats[1..], g, rest);
    }
  }

  lemma {:induction false} TotalCountNoGigs(cats: seq<Category>)
    ensures TotalCount(Summaries(cats, [])) == 0
  {
    if cats != [] {
      TotalCountNoGigs(cats[1..]);
    }
  }

  /** The sidebar counts add up to the number of gigs: each gig is counted
      under exactly one category. */
  lemma {:induction false} SummariesCountEveryGig(cats: seq<Category>, gigs: seq<GigRow>)
    requires GigsRoute.UniqueCategoryIds(cats)
    requires forall i :: 0 <= i < |gigs| ==> GigsRoute.FindById(cats, gigs[i].categoryId).Some?
    ensures TotalCount(Summaries(cats, gigs)) == |gigs|
  {
    if gigs == [] {
      TotalCountNoGigs(cats);
    } else {
      assert gigs == [gigs[0]] + gigs[1..];
      TotalCountOfConsGig(cats, gigs[0], gigs[1..]);
      HitsOfUniqueId(cats, gigs[0].categoryId);
      forall i | 0 <= i < |gigs[1..]| ensures GigsRoute.FindById(cats, gigs[1..][i].categoryId).Some? {
        assert gigs[1..][i] == gigs[i + 1];
      }
      SummariesCountEveryGig(cats, gigs[1..]);
    }
  }

  // ------------------------------------------------------------- tabs

  /** At most this many categories get a tab panel: `categories.slice(0, 3)`. */
  const TabLimit: nat := 3

  datatype TabPanel = TabPanel(value: string, gigs: seq<Gig>)

  /** The gigs shown under the tab of the category called `name`. */
  function InTab(gigs: seq<Gig>, name: string): seq<Gig> {
    Filter(gigs, (g: Gig) => EqualsIgnoringCase(g.category, name))
  }

  /** A tab holds exactly the gigs whose category equals the tab's category
      ignoring case, each as often as listed, in list order. */
  lemma InTabSelects(gigs: seq<Gig>, name: string)
    ensures IsSubsequence(InTab(gigs, name), gigs)
    ensures forall g :: multiset(InTab(gigs, name))[g] == if EqualsIgnoringCase(g.category, name) then multiset(gigs)[g] else 0
    ensures forall g :: g in InTab(gigs, name) <==> g in gigs && EqualsIgnoringCase(g.category, name)
  {
    var p := (g: Gig) => EqualsIgnoringCase(g.category, name);
    FilterIsSubsequence(gigs, p);
    forall g ensures multiset(InTab(gigs, name))[g] == if EqualsIgnoringCase(g.category, name) then multiset(gigs)[g] else 0 {
      FilterMultiset(gigs, p, g);
    }
  }

  function CategoryTabs(cats: seq<CategorySummary>, gigs: seq<Gig>): (r: seq<TabPanel>)
    ensures |r| == if |cats| < TabLimit then |cats| else TabLimit
    ensures forall i :: 0 <= i < |r| ==> r[i].value == ToLower(cats[i].name) && r[i].gigs == InTab(gigs, cats[i].name)
  {
    var shown := if |cats| < TabLimit then cats else cats[..TabLimit];
    seq(|shown|, i requires 0 <= i < |shown| => TabPanel(ToLower(shown[i].name), InTab(gigs, shown[i].name)))
  }

  // -------------------------------------------------------- all panel

  const EmptyMessage: string := "No gigs found, Be the first one to post!"

  datatype AllPanel = Cards(gigs: seq<Gig>) | EmptyState(message: string)

  function AllTab(gigs: seq<Gig>): (p: AllPanel)
    ensures p.Cards? <==> |gigs| > 0
    ensures p.Cards? ==> p.gigs == gigs
    ensures p.EmptyState? ==> p.message == EmptyMessage
  {
    if |gigs| > 0 then Cards(gigs) else EmptyState(EmptyMessage)
  }

  // ------------------------------------------------------------- page

  datatype Page = Page(all: AllPanel, tabs: seq<TabPanel>, sidebar: seq<CategorySummary>)

  function Home(gigs: seq<Gig>, categories: seq<CategorySummary>): (p: Page)
    ensures p.sidebar == categories
    ensures |p.tabs| <= TabLimit && |p.tabs| <= |categories|
    ensures p.all.Cards? <==> |gigs| > 0
    ensures p.all == AllTab(gigs) && p.tabs == CategoryTabs(categories, gigs)
  {
    Page(AllTab(gigs), CategoryTabs(categories, gigs), categories)
  }

  /** Every gig under a category tab is also among the cards of the "all"
      panel, and when there are no gigs every category tab is empty. */
  lemma TabsWithinAll(gigs: seq<Gig>, categories: seq<CategorySummary>)
    ensures var page := Home(gigs, categories);
      && (page.all.EmptyState? ==> forall i :: 0 <= i < |page.tabs| ==> page.tabs[i].gigs == [])
      && (page.all.Cards? ==> forall i, g :: 0 <= i < |page.tabs| && g in page.tabs[i].gigs ==> g in page.all.gigs)
  {
    var page := Home(gigs, categories);
    forall i | 0 <= i < |page.tabs| ensures forall g :: g in page.tabs[i].gigs ==> g in gigs {
      InTabSelects(gigs, categories[i].name);
    }
  }
}
