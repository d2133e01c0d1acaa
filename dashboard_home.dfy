/**
 * components/Admin/DashboardHome.tsx: the dashboard's four statistic cards
 * and the `StatCard` that renders each.
 */
module DashboardHome {
  import opened Wrappers
  import opened Toast
  import opened AdminDashboard

  datatype Color = Green | Blue | Purple | Orange

  datatype Trend = Trend(value: int, isPositive: bool)

  datatype Card = Card(title: string, value: nat, icon: string, trend: Trend, color: Color)

  /** The cards in display order, with the given counters and trends. */
  function CardsOf(s: Stats, total: Trend, published: Trend, draft: Trend, users: Trend): seq<Card> {
    [ Card("Total Blogs", s.totalBlogs, "📝", total, Green),
      Card("Published Blogs", s.publishedBlogs, "✅", published, Blue),
      Card("Draft Blogs", s.draftBlogs, "📄", draft, Purple),
      Card("Total Users", s.totalUsers, "👥", users, Orange) ]
  }

  /** The cards before any fetch: every value 0, every trend a rising 0. */
  function InitialCards(): (cards: seq<Card>)
    ensures |cards| == 4
    ensures forall i | 0 <= i < 4 :: cards[i].value == 0 && cards[i].trend == Trend(0, true)
  {
    CardsOf(InitialStats, Trend(0, true), Trend(0, true), Trend(0, true), Trend(0, true))
  }

  /**
   * The cards after a fetch: counted as on the admin home, with the fixed
   * trends 12 up, 5 up, 3 down and 8 up.
   */
  function FetchedCards(data: StatsData): (cards: seq<Card>)
    ensures |cards| == 4
    ensures cards[0].value == Tally(data).totalBlogs && cards[1].value == Tally(data).publishedBlogs
    ensures cards[2].value == Tally(data).draftBlogs && cards[3].value == Tally(data).totalUsers
    ensures cards[1].value + cards[2].value <= cards[0].value
    ensures cards[0].trend == Trend(12, true) && cards[1].trend == Trend(5, true)
    ensures cards[2].trend == Trend(3, false) && cards[3].trend == Trend(8, true)
  {
    CardsOf(Tally(data), Trend(12, true), Trend(5, true), Trend(3, false), Trend(8, true))
  }

  function Abs(n: int): nat { if n < 0 then -n else n }

  const TrendSuffix := "% from last month"

  /**
   * `StatCard`'s trend line: an up arrow exactly when the trend is positive,
   * a space, the decimal magnitude of the trend, then "% from last month".
   */
  function TrendLine(t: Trend): (line: string)
    ensures |line| > 2 + |TrendSuffix|
    ensures (line[0] == '↑' <==> t.isPositive) && (line[0] == '↓' <==> !t.isPositive)
    ensures line[1] == ' ' && line[|line| - |TrendSuffix|..] == TrendSuffix
    ensures IsDigits(line[2..|line| - |TrendSuffix|]) && DigitsValue(line[2..|line| - |TrendSuffix|]) == Abs(t.value)
  {
    var digits := DecimalString(Abs(t.value));
    var line := [if t.isPositive then '↑' else '↓'] + " " + digits + TrendSuffix;
    assert line[2..|line| - |TrendSuffix|] == digits;
    assert line[|line| - |TrendSuffix|..] == TrendSuffix;
    line
  }

  /** The trend line shows the magnitude only: a negative value reads like its opposite. */
  lemma TrendLineShowsMagnitude(value: int, isPositive: bool)
    ensures TrendLine(Trend(value, isPositive)) == TrendLine(Trend(-value, isPositive))
  {
    assert Abs(value) == Abs(-value);
  }

  class Home {
    var stats: seq<Card>
    var loading: bool

    constructor ()
      ensures stats == InitialCards() && loading
    {
      stats := InitialCards();
      loading := true;
    }

    /** `fetchStats` completes; a failure (`None`) keeps the cards. */
    method FetchStats(data: Option<StatsData>)
      modifies this
      ensures !loading
      ensures data.Some? ==> stats == FetchedCards(data.value)
      ensures data.None? ==> stats == old(stats)
    {
      if data.Some? {
        stats := FetchedCards(data.value);
      }
      loading := false;
    }
  }
}
