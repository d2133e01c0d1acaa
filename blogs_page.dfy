/**
 * app/blogs/page.tsx: the signed-in reader's list of published posts, with
 * a search over title, author and excerpt.
 */
module BlogsPage {
  import opened Wrappers
  import opened Text
  import opened Schema
  import opened Json
  import opened Navigation
  import opened Http
  import Seqs

  const ExcerptLength := 150

  datatype PublicBlog = PublicBlog(id: string, title: string, excerpt: string, content: string,
                                   author: string, status: BlogStatus, createdAt: string, views: int)

  /** The fetch's filter: published posts only, in the order the server sent them. */
  function PublishedOnly(blogs: seq<PublicBlog>): (r: seq<PublicBlog>)
    ensures forall i | 0 <= i < |r| :: r[i] in blogs && r[i].status == Published
    ensures forall i | 0 <= i < |blogs| && blogs[i].status == Published :: blogs[i] in r
  {
    Seqs.Filter((b: PublicBlog) => b.status == Published, blogs)
  }

  /** The row test of `handleSearch`. */
  predicate Matches(b: PublicBlog, term: string) {
    IncludesIgnoringCase(b.title, term) || IncludesIgnoringCase(b.author, term) || IncludesIgnoringCase(b.excerpt, term)
  }

  /** `handleSearch`'s filter of the published list. */
  function Search(blogs: seq<PublicBlog>, term: string): (r: seq<PublicBlog>)
    ensures forall i | 0 <= i < |r| :: r[i] in blogs && Matches(r[i], term)
    ensures forall i | 0 <= i < |blogs| && Matches(blogs[i], term) :: blogs[i] in r
  {
    Seqs.Filter((b: PublicBlog) => Matches(b, term), blogs)
  }

  /** Clearing the search shows the whole published list again. */
  lemma EmptySearchShowsAll(blogs: seq<PublicBlog>)
    ensures Search(blogs, "") == blogs
  {
    forall i | 0 <= i < |blogs|
      ensures Matches(blogs[i], "")
    {
      EmptyTermMatches(blogs[i].title);
    }
    Seqs.FilterKeepsAll((b: PublicBlog) => Matches(b, ""), blogs);
  }

  /** The search term is stored lower-cased; searching with it finds the same posts as the term typed. */
  lemma {:induction false} LowerCasedTermSearchesAlike(blogs: seq<PublicBlog>, term: string)
    ensures Search(blogs, Lower(term)) == Search(blogs, term)
  {
    LowerIdempotent(term);
    if blogs != [] {
      LowerCasedTermSearchesAlike(blogs[1..], term);
    }
  }

  /** "Found N blog" with "s" unless N is exactly one. */
  function CountNoun(n: nat): (word: string)
    ensures word == "blog" <==> n == 1
    ensures word == "blog" || word == "blogs"
  {
    "blog" + (if n != 1 then "s" else "")
  }

  /** A card's text: the excerpt when there is one, else the first 150 characters of the content, then "...". */
  function CardText(b: PublicBlog): (text: string)
    ensures |text| >= 3 && text[|text| - 3..] == "..."
    ensures b.excerpt != "" ==> text[..|text| - 3] == b.excerpt
    ensures b.excerpt == "" ==> text[..|text| - 3] <= b.content
    ensures b.excerpt == "" ==> |text| - 3 == if |b.content| <= ExcerptLength then |b.content| else ExcerptLength
  {
    var t := Or(Some(b.excerpt), Prefix(b.content, ExcerptLength));
    assert (t + "...")[..|t|] == t;
    assert (t + "...")[|t|..] == "...";
    t + "..."
  }

  class Page {
    var blogs: seq<PublicBlog>
    var filteredBlogs: seq<PublicBlog>
    var searchTerm: string
    var loading: bool

    constructor ()
      ensures blogs == [] && filteredBlogs == [] && searchTerm == "" && loading
    {
      blogs := [];
      filteredBlogs := [];
      searchTerm := "";
      loading := true;
    }

    /** The session effect: no signed-in user goes to the login page and fetches nothing. */
    method OnSession(user: Option<SessionUser>) returns (redirect: Option<Redirect>, fetches: bool)
      ensures user.None? <==> redirect == Some(Redirect(LoginPath, 0))
      ensures fetches <==> user.Some?
      ensures redirect.Some? ==> !fetches
    {
      if user.None? {
        return Some(Redirect(LoginPath, 0)), false;
      }
      return None, true;
    }

    /**
     * The end of `fetchBlogs`: a payload (`None` when the request failed or
     * was not OK) is filtered to published posts, which become both the list
     * and the shown list; a failure changes neither.
     */
    method ReceiveBlogs(data: Option<Payload<PublicBlog>>)
      modifies this
      ensures !loading && searchTerm == old(searchTerm)
      ensures data.Some? ==> blogs == PublishedOnly(ListOf(data.value)) && filteredBlogs == blogs
      ensures data.None? ==> blogs == old(blogs) && filteredBlogs == old(filteredBlogs)
    {
      if data.Some? {
        var published := PublishedOnly(ListOf(data.value));
        blogs := published;
        filteredBlogs := published;
      }
      loading := false;
    }

    /** `handleSearch`: always filters the full published list, never the previous result. */
    method HandleSearch(term: string)
      modifies this
      ensures searchTerm == Lower(term)
      ensures filteredBlogs == Search(blogs, term)
      ensures blogs == old(blogs) && loading == old(loading)
    {
      var lowered := Lower(term);
      searchTerm := lowered;
      LowerCasedTermSearchesAlike(blogs, term);
      filteredBlogs := Search(blogs, lowered);
    }
  }

  /** Every post a search shows after a fetch is published. */
  lemma SearchShowsOnlyPublished(data: Payload<PublicBlog>, term: string, i: nat)
    requires i < |Search(PublishedOnly(ListOf(data)), term)|
    ensures Search(PublishedOnly(ListOf(data)), term)[i].status == Published
  {
    var published := PublishedOnly(ListOf(data));
    assert Search(published, term)[i] in published;
  }
}
