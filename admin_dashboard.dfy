/**
 * app/admin/page.tsx: the admin home's four counters, computed once from the
 * admin blog list and the user list.
 */
module AdminDashboard {
  import opened Wrappers
  import opened Json
  import opened Toast
  import Seqs

  datatype Stats = Stats(totalBlogs: nat, publishedBlogs: nat, draftBlogs: nat, totalUsers: nat)

  const InitialStats := Stats(0, 0, 0, 0)

  /** A fetched post as the counters see it: its `status` string, whatever the server sent. */
  datatype StatBlog = StatBlog(status: string)

  /** The two fetched payloads: the blog list, and the length of the `users` array when the reply has one. */
  datatype StatsData = StatsData(blogs: Payload<StatBlog>, usersCount: Option<nat>)

  predicate IsPublished(b: StatBlog) { b.status == "published" }
  predicate IsDraft(b: StatBlog) { b.status == "draft" }

  /**
   * The counters of `fetchStats`: a blog payload that is not an array counts
   * as empty, published and draft posts are counted by status, and a missing
   * user list counts as zero users.
   */
  function Tally(data: StatsData): (s: Stats)
    ensures s.totalBlogs == |ArrayOrEmpty(data.blogs)|
    ensures s.publishedBlogs == Seqs.Count(IsPublished, ArrayOrEmpty(data.blogs))
    ensures s.draftBlogs == Seqs.Count(IsDraft, ArrayOrEmpty(data.blogs))
    ensures s.publishedBlogs + s.draftBlogs <= s.totalBlogs
    ensures data.blogs.ObjectPayload? ==> s.totalBlogs == 0 && s.publishedBlogs == 0 && s.draftBlogs == 0
    ensures data.usersCount.None? ==> s.totalUsers == 0
    ensures data.usersCount.Some? ==> s.totalUsers == data.usersCount.value
  {
    var blogs := ArrayOrEmpty(data.blogs);
    Seqs.CountDisjoint(IsPublished, IsDraft, blogs);
    Stats(|blogs|, Seqs.Count(IsPublished, blogs), Seqs.Count(IsDraft, blogs),
          if data.usersCount.Some? then data.usersCount.value else 0)
  }

  /** When every post is either published or a draft, the two counters add up to the total. */
  lemma ValidStatusesAddUp(data: StatsData)
    requires data.blogs.ArrayPayload?
    requires forall i | 0 <= i < |data.blogs.items| :: data.blogs.items[i].status in {"published", "draft"}
    ensures Tally(data).publishedBlogs + Tally(data).draftBlogs == Tally(data).totalBlogs
  {
    Seqs.CountPartition(IsPublished, IsDraft, data.blogs.items);
  }

  /** What a counter shows: "-" while loading, the number's decimal text afterwards. */
  function Display(loading: bool, n: nat): (text: string)
    ensures loading <==> text == "-"
    ensures !loading ==> IsDigits(text) && DigitsValue(text) == n
  {
    if loading then "-" else DecimalString(n)
  }

  class Dashboard {
    var stats: Stats
    var loading: bool

    constructor ()
      ensures stats == InitialStats && loading
    {
      stats := InitialStats;
      loading := true;
    }

    /**
     * `fetchStats` completes: `data` is `None` when a request or its JSON
     * failed, which keeps the previous counters. `loading` ends either way.
     */
    method FetchStats(data: Option<StatsData>)
      modifies this
      ensures !loading
      ensures data.Some? ==> stats == Tally(data.value)
      ensures data.None? ==> stats == old(stats)
    {
      if data.Some? {
        stats := Tally(data.value);
      }
      loading := false;
    }
  }
}
