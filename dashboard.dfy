/**
 * The values the dashboard derives from today's statistics document: the scale of the category
 * bars, the five busiest senders, one row per category of the taxonomy, the headline counters,
 * and the sender names shown, which undo the store's '.'-to-'_' key encoding.
 */
module Dashboard {
  import opened Wrappers
  import opened Text
  import opened Seqs
  import opened Records
  import Categories
  import DbService

  /** The statistics as the dashboard receives them; a field the document lacks is `None`. */
  datatype DashboardStats = DashboardStats(totalProcessed: Option<nat>, categories: Option<Record<nat>>,
                                           senders: Option<Record<nat>>)

  /** The largest value of a record of counts, with 1 as the floor: `Math.max(...values, 1)`. */
  function MaxOf(r: Record<nat>): (m: nat)
    ensures m >= 1
    ensures forall i | 0 <= i < |r| :: r[i].1 <= m
    ensures m == 1 || exists i | 0 <= i < |r| :: r[i].1 == m
  {
    if r == [] then 1
    else
      var rest := MaxOf(r[1..]);
      assert forall i | 1 <= i < |r| :: r[i] == r[1..][i - 1];
      if r[0].1 > rest then r[0].1 else rest
  }

  /** `maxCategoryCount`: 1 when there are no statistics. */
  function MaxCategoryCount(stats: Option<DashboardStats>): (m: nat)
    ensures m >= 1
    ensures stats.None? ==> m == 1
    ensures stats.Some? ==> var cs := stats.value.categories.GetOr([]); forall i | 0 <= i < |cs| :: cs[i].1 <= m
  {
    if stats.None? then 1 else MaxOf(stats.value.categories.GetOr([]))
  }

  /** Counts in non-increasing order. */
  predicate SortedDesc(s: Record<nat>) {
    forall i, j | 0 <= i < j < |s| :: s[i].1 >= s[j].1
  }

  /** Places `e` before the first entry whose count is not larger, so equal counts keep their order. */
  function Insert(e: (string, nat), s: Record<nat>): (r: Record<nat>)
    requires SortedDesc(s)
    ensures SortedDesc(r)
    ensures multiset(r) == multiset(s) + multiset{e}
    ensures |r| == |s| + 1
    ensures r[0] == e || (s != [] && r[0] == s[0])
  {
    if s == [] || s[0].1 <= e.1 then [e] + s
    else
      var rest := Insert(e, s[1..]);
      assert s == [s[0]] + s[1..];
      [s[0]] + rest
  }

  /** `entries.sort((a, b) => b[1] - a[1])`: a stable sort by count, largest first. */
  function SortByCountDesc(s: Record<nat>): (r: Record<nat>)
    ensures SortedDesc(r)
    ensures multiset(r) == multiset(s)
    ensures |r| == |s|
  {
    if s == [] then []
    else
      assert s == [s[0]] + s[1..];
      Insert(s[0], SortByCountDesc(s[1..]))
  }

  /** `sortedSenders`: the five senders with the largest counts, largest first. */
  function TopSenders(stats: Option<DashboardStats>): Record<nat> {
    if stats.None? then [] else Take(SortByCountDesc(stats.value.senders.GetOr([])), 5)
  }

  /**
   * The top senders are at most five, in non-increasing order, each an entry of the statistics,
   * as many as there are up to five, and no sender left out has a larger count than the last one
   * shown.
   */
  lemma TopSendersAreTop(stats: Option<DashboardStats>)
    ensures var top := TopSenders(stats);
            var senders := if stats.None? then [] else stats.value.senders.GetOr([]);
            && |top| == Min(5, |senders|)
            && SortedDesc(top)
            && (forall e | e in top :: e in senders)
            && (forall e | e in senders && e !in top :: |top| > 0 && e.1 <= top[|top| - 1].1)
  {
    if stats.Some? {
      var senders := stats.value.senders.GetOr([]);
      PrefixOfSortedIsTop(SortByCountDesc(senders), senders, 5);
    }
  }

  /** The first `n` entries of a sorted rearrangement of `s` are entries of `s` no smaller than the rest. */
  lemma PrefixOfSortedIsTop(sorted: Record<nat>, s: Record<nat>, n: nat)
    requires SortedDesc(sorted) && multiset(sorted) == multiset(s) && n >= 1
    ensures var top := Take(sorted, n);
            && SortedDesc(top)
            && (forall e | e in top :: e in s)
            && (forall e | e in s && e !in top :: |top| > 0 && e.1 <= top[|top| - 1].1)
  {
    var top := Take(sorted, n);
    forall e | e in top ensures e in s {
      assert e in multiset(sorted);
    }
    forall e | e in s && e !in top ensures |top| > 0 && e.1 <= top[|top| - 1].1 {
      assert e in multiset(sorted);
      var j :| 0 <= j < |sorted| && sorted[j] == e;
      assert j >= |top|;
      assert sorted[|top| - 1] == top[|top| - 1];
    }
  }

  /** One bar of the category card: its name, its count and its length in percent of the scale. */
  datatype CategoryRow = CategoryRow(category: string, count: nat, percentage: real)

  /** `stats?.categories?.[category] || 0` */
  function CountOf(stats: Option<DashboardStats>, category: string): nat {
    if stats.None? then 0 else Get(stats.value.categories.GetOr([]), category).GetOr(0)
  }

  /** The category bars, one per category of the taxonomy, in its order; `Math.round` is left out. */
  function CategoryRows(stats: Option<DashboardStats>): seq<CategoryRow> {
    seq(|Categories.EmailCategories|, i requires 0 <= i < |Categories.EmailCategories| =>
      var c := Categories.EmailCategories[i];
      CategoryRow(c, CountOf(stats, c), CountOf(stats, c) as real / MaxCategoryCount(stats) as real * 100.0))
  }

  /**
   * Every category of the taxonomy has its row, in the taxonomy's order; a category the statistics
   * lack shows 0; and each bar's percentage lies between 0 and 100.
   */
  lemma CategoryRowsFollowTaxonomy(stats: Option<DashboardStats>)
    ensures var rows := CategoryRows(stats);
            && |rows| == |Categories.EmailCategories|
            && (forall i | 0 <= i < |rows| :: rows[i].category == Categories.EmailCategories[i])
            && (forall i | 0 <= i < |rows| ::
                  stats.None? || !HasKey(stats.value.categories.GetOr([]), rows[i].category) ==> rows[i].count == 0)
            && (forall i | 0 <= i < |rows| :: 0.0 <= rows[i].percentage <= 100.0)
  {
    var rows := CategoryRows(stats);
    var m := MaxCategoryCount(stats);
    forall i | 0 <= i < |rows| ensures 0.0 <= rows[i].percentage <= 100.0 {
      var c := Categories.EmailCategories[i];
      assert rows[i].count <= m by {
        if stats.Some? && HasKey(stats.value.categories.GetOr([]), c) {
          var cs := stats.value.categories.GetOr([]);
          assert cs[IndexOf(cs, c)].1 <= m;
        }
      }
      PercentageBound(rows[i].count, m);
    }
  }

  lemma PercentageBound(count: nat, m: nat)
    requires 1 <= m && count <= m
    ensures 0.0 <= count as real / m as real * 100.0 <= 100.0
  {
    assert count as real / m as real <= 1.0;
  }

  /** Today's volume card: `totalProcessed || 0`. */
  function TodayVolume(stats: Option<DashboardStats>): nat {
    if stats.None? then 0 else stats.value.totalProcessed.GetOr(0)
  }

  /** The spam card: `categories['Spam'] || 0`. */
  function SpamCount(stats: Option<DashboardStats>): nat {
    CountOf(stats, "Spam")
  }

  /** Without statistics every card reads 0 and there are no top senders. */
  lemma NoStatsShowsZeros()
    ensures TodayVolume(None) == 0 && SpamCount(None) == 0 && TopSenders(None) == []
    ensures forall row | row in CategoryRows(None) :: row.count == 0 && row.percentage == 0.0
  {
  }

  /** The name shown for a sender key: `name.replace(/_/g, '.')`. */
  function DisplaySender(name: string): string {
    ReplaceAll(name, '_', '.')
  }

  /**
   * Showing a stored sender key gives back the sender exactly when the sender had no '_': a '_' of
   * the sender's own is shown as '.'.
   */
  lemma {:induction false} DisplayUndoesSenderKey(sender: string)
    ensures DisplaySender(DbService.SenderKey(sender)) == sender <==> '_' !in sender
  {
    if '_' !in sender {
      ReplaceAllRoundTrip(sender, '.', '_');
    } else {
      var i :| 0 <= i < |sender| && sender[i] == '_';
      assert DisplaySender(DbService.SenderKey(sender))[i] == '.';
    }
  }

  /** The shown name of "first_last@mail.com" is not the sender. */
  lemma UnderscoreSenderMisshown()
    ensures DisplaySender(DbService.SenderKey("first_last@mail.com")) == "first.last@mail.com"
  {
    DisplayUndoesSenderKey("first_last@mail.com");
    assert '_' in "first_last@mail.com" by { assert "first_last@mail.com"[5] == '_'; }
    var s := "first_last@mail.com";
    var d := DisplaySender(DbService.SenderKey(s));
    assert |d| == |s|;
    assert forall i | 0 <= i < |s| :: d[i] == (if s[i] == '_' || s[i] == '.' then '.' else s[i]);
  }
}
