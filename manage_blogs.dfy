/**
 * components/Admin/ManageBlogs.tsx: the admin's post list, fetched from
 * `/api/blogs`, filtered by a search term and a status, with a confirmed
 * delete per row.
 */
module ManageBlogs {
  import opened Wrappers
  import opened Text
  import opened Toast
  import opened Schema
  import opened Json
  import Seqs

  datatype BlogRow = BlogRow(id: string, title: string, author: string, createdAt: string, status: BlogStatus,
                             views: int, excerpt: Option<string>, thumbnail: Option<string>)

  /** The status drop-down: "all", "published" or "draft". */
  datatype StatusFilter = AllStatuses | OnlyStatus(status: BlogStatus)

  const LoadFailed := "Failed to load blogs"
  const BlogDeleted := "Blog deleted successfully"
  const DeleteFailed := "Failed to delete blog"

  /** The row test of `filteredBlogs`. */
  predicate Shown(b: BlogRow, term: string, filter: StatusFilter) {
    (IncludesIgnoringCase(b.title, term) || IncludesIgnoringCase(b.author, term))
    && (filter.AllStatuses? || b.status == filter.status)
  }

  /** `filteredBlogs`: the rows passing the search and the status filter, in list order. */
  function FilteredBlogs(blogs: seq<BlogRow>, term: string, filter: StatusFilter): (r: seq<BlogRow>)
    ensures forall i | 0 <= i < |r| :: r[i] in blogs && Shown(r[i], term, filter)
    ensures forall i | 0 <= i < |blogs| && Shown(blogs[i], term, filter) :: blogs[i] in r
  {
    Seqs.Filter((b: BlogRow) => Shown(b, term, filter), blogs)
  }

  /** With no search term and the filter on "all", every post is listed. */
  lemma EmptySearchShowsEveryBlog(blogs: seq<BlogRow>)
    ensures FilteredBlogs(blogs, "", AllStatuses) == blogs
  {
    forall i | 0 <= i < |blogs|
      ensures Shown(blogs[i], "", AllStatuses)
    {
      EmptyTermMatches(blogs[i].title);
    }
    Seqs.FilterKeepsAll((b: BlogRow) => Shown(b, "", AllStatuses), blogs);
  }

  /** The "published" and "draft" filters split the rows a search finds between them. */
  lemma StatusFiltersPartition(blogs: seq<BlogRow>, term: string)
    ensures |FilteredBlogs(blogs, term, OnlyStatus(Published))| + |FilteredBlogs(blogs, term, OnlyStatus(Draft))|
            == |FilteredBlogs(blogs, term, AllStatuses)|
  {
    var all := FilteredBlogs(blogs, term, AllStatuses);
    FilterOfFiltered(blogs, term, Published);
    FilterOfFiltered(blogs, term, Draft);
    Seqs.CountPartition((b: BlogRow) => b.status == Published, (b: BlogRow) => b.status == Draft, all);
  }

  /** Filtering by one status is filtering the "all" result by that status. */
  lemma {:induction false} FilterOfFiltered(blogs: seq<BlogRow>, term: string, status: BlogStatus)
    ensures FilteredBlogs(blogs, term, OnlyStatus(status))
            == Seqs.Filter((b: BlogRow) => b.status == status, FilteredBlogs(blogs, term, AllStatuses))
  {
    if blogs != [] {
      FilterOfFiltered(blogs[1..], term, status);
      var head := if Shown(blogs[0], term, AllStatuses) then [blogs[0]] else [];
      Seqs.FilterAppend((b: BlogRow) => b.status == status, head, FilteredBlogs(blogs[1..], term, AllStatuses));
    }
  }

  /** `blogs.filter((b) => b._id !== id)`: every post with that id goes, the others stay in order. */
  function WithoutBlog(blogs: seq<BlogRow>, id: string): (r: seq<BlogRow>)
    ensures forall i | 0 <= i < |r| :: r[i].id != id && r[i] in blogs
    ensures forall i | 0 <= i < |blogs| && blogs[i].id != id :: blogs[i] in r
  {
    Seqs.Filter((b: BlogRow) => b.id != id, blogs)
  }

  /** Deleting an id no post has leaves the list as it was. */
  lemma DeleteAbsentBlogChangesNothing(blogs: seq<BlogRow>, id: string)
    requires forall i | 0 <= i < |blogs| :: blogs[i].id != id
    ensures WithoutBlog(blogs, id) == blogs
  {
    Seqs.FilterKeepsAll((b: BlogRow) => b.id != id, blogs);
  }

  class Panel {
    var blogs: seq<BlogRow>
    var loading: bool
    var searchTerm: string
    var filterStatus: StatusFilter
    var loadingId: Option<string>

    constructor ()
      ensures blogs == [] && loading && searchTerm == "" && filterStatus == AllStatuses && loadingId.None?
    {
      blogs := [];
      loading := true;
      searchTerm := "";
      filterStatus := AllStatuses;
      loadingId := None;
    }

    /**
     * The end of `fetchBlogs`: a payload (`None` when the request or its JSON
     * failed) replaces the list; a failure keeps it and shows an error.
     * `loading` ends either way.
     */
    method ReceiveBlogs(data: Option<Payload<BlogRow>>) returns (notice: Option<Notice>)
      modifies this
      ensures !loading && searchTerm == old(searchTerm) && filterStatus == old(filterStatus)
      ensures loadingId == old(loadingId)
      ensures data.Some? ==> blogs == ListOf(data.value) && notice.None?
      ensures data.None? ==> blogs == old(blogs) && notice == Some(Notice(LoadFailed, ErrorToast))
    {
      if data.Some? {
        blogs := ListOf(data.value);
        notice := None;
      } else {
        notice := Some(Notice(LoadFailed, ErrorToast));
      }
      loading := false;
    }

    /**
     * `handleDeleteBlog`: a declined confirmation does nothing; otherwise the
     * DELETE request is made (`deleted` is whether it came back OK), a
     * success removes the post, and `loadingId` is cleared afterwards.
     */
    method DeleteBlog(id: string, confirmed: bool, deleted: bool) returns (requested: bool, notice: Option<Notice>)
      modifies this
      ensures requested == confirmed
      ensures !confirmed ==> blogs == old(blogs) && loadingId == old(loadingId) && notice.None?
      ensures confirmed && deleted ==> blogs == WithoutBlog(old(blogs), id) && notice == Some(Notice(BlogDeleted, SuccessToast))
      ensures confirmed && !deleted ==> blogs == old(blogs) && notice == Some(Notice(DeleteFailed, ErrorToast))
      ensures confirmed ==> loadingId.None?
      ensures loading == old(loading) && searchTerm == old(searchTerm) && filterStatus == old(filterStatus)
    {
      if !confirmed {
        return false, None;
      }
      loadingId := Some(id);
      if deleted {
        blogs := WithoutBlog(blogs, id);
        notice := Some(Notice(BlogDeleted, SuccessToast));
      } else {
        notice := Some(Notice(DeleteFailed, ErrorToast));
      }
      loadingId := None;
      requested := true;
    }
  }
}
