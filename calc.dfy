/** The ranking engine: rank one day's channels by message count, join two
    days' rankings on channel id, total the messages, and render the display
    lines (src/calc/index.ts). */
module Calc {
  import opened Wrappers
  import opened Seqs
  import opened Decimal
  import opened Types

  // ---------------------------------------------------------------------
  // Sorting by message count, highest first
  // ---------------------------------------------------------------------

  predicate SortedByCountDesc(s: seq<AggregatedData>) {
    forall i, j :: 0 <= i < j < |s| ==> s[i].Count() >= s[j].Count()
  }

  /** Every entry of `s` has a count of at least `c`. */
  predicate AllAtLeast(s: seq<AggregatedData>, c: nat) {
    forall k :: 0 <= k < |s| ==> s[k].Count() >= c
  }

  /** Inserts `x` into `s` after every entry whose count is at least x's:
      one step of a stable descending insertion sort. */
  function Insert(x: AggregatedData, s: seq<AggregatedData>): (r: seq<AggregatedData>)
    ensures |r| == |s| + 1
    decreases |s|
  {
    if s == [] then [x]
    else if s[|s| - 1].Count() >= x.Count() then s + [x]
    else Insert(x, s[..|s| - 1]) + [s[|s| - 1]]
  }

  lemma {:induction false} InsertPermutes(x: AggregatedData, s: seq<AggregatedData>)
    ensures multiset(Insert(x, s)) == multiset(s) + multiset{x}
    decreases |s|
  {
    if s != [] && s[|s| - 1].Count() < x.Count() {
      assert s == s[..|s| - 1] + [s[|s| - 1]];
      InsertPermutes(x, s[..|s| - 1]);
    }
  }

  lemma SortedSnoc(s: seq<AggregatedData>, y: AggregatedData)
    requires SortedByCountDesc(s) && AllAtLeast(s, y.Count())
    ensures SortedByCountDesc(s + [y])
  {
  }

  lemma {:induction false} InsertAllAtLeast(x: AggregatedData, s: seq<AggregatedData>, c: nat)
    requires AllAtLeast(s, c) && x.Count() >= c
    ensures AllAtLeast(Insert(x, s), c)
    decreases |s|
  {
    if s != [] && s[|s| - 1].Count() < x.Count() {
      InsertAllAtLeast(x, s[..|s| - 1], c);
    }
  }

  lemma {:induction false} InsertSorted(x: AggregatedData, s: seq<AggregatedData>)
    requires SortedByCountDesc(s)
    ensures SortedByCountDesc(Insert(x, s))
    decreases |s|
  {
    if s == [] {
    } else if s[|s| - 1].Count() >= x.Count() {
      SortedSnoc(s, x);
    } else {
      var init, last := s[..|s| - 1], s[|s| - 1];
      InsertSorted(x, init);
      InsertAllAtLeast(x, init, last.Count());
      SortedSnoc(Insert(x, init), last);
    }
  }

  /** The stable sort `data.sort((a, b) => b.messages.length - a.messages.length)`
      as a function: insertion of each entry, from the first to the last. */
  function SortByCount(s: seq<AggregatedData>): (r: seq<AggregatedData>)
    ensures |r| == |s|
  {
    if s == [] then [] else Insert(s[|s| - 1], SortByCount(s[..|s| - 1]))
  }

  /** The sort orders by count, highest first. */
  lemma {:induction false} SortByCountSorted(s: seq<AggregatedData>)
    ensures SortedByCountDesc(SortByCount(s))
  {
    if s != [] {
      SortByCountSorted(s[..|s| - 1]);
      InsertSorted(s[|s| - 1], SortByCount(s[..|s| - 1]));
    }
  }

  /** The sort is a permutation of its input. */
  lemma {:induction false} SortByCountPermutes(s: seq<AggregatedData>)
    ensures multiset(SortByCount(s)) == multiset(s)
  {
    if s != [] {
      assert s == s[..|s| - 1] + [s[|s| - 1]];
      SortByCountPermutes(s[..|s| - 1]);
      InsertPermutes(s[|s| - 1], SortByCount(s[..|s| - 1]));
    }
  }

  function HasCount(c: nat): AggregatedData -> bool {
    (x: AggregatedData) => x.Count() == c
  }

  /** The entries of `s` whose count is `c`, in their order in `s`. */
  function WithCount(s: seq<AggregatedData>, c: nat): seq<AggregatedData> {
    Filter(HasCount(c), s)
  }

  lemma {:induction false} InsertKeepsTies(x: AggregatedData, s: seq<AggregatedData>, c: nat)
    ensures WithCount(Insert(x, s), c) == WithCount(s, c) + WithCount([x], c)
    decreases |s|
  {
    if s == [] {
    } else if s[|s| - 1].Count() >= x.Count() {
      FilterAppend(HasCount(c), s, [x]);
    } else {
      var init, last := s[..|s| - 1], s[|s| - 1];
      assert s == init + [last];
      InsertKeepsTies(x, init, c);
      FilterAppend(HasCount(c), Insert(x, init), [last]);
      FilterAppend(HasCount(c), init, [last]);
    }
  }

  /** The sort is stable: entries with equal counts keep their input order. */
  lemma {:induction false} SortByCountStable(s: seq<AggregatedData>, c: nat)
    ensures WithCount(SortByCount(s), c) == WithCount(s, c)
  {
    if s != [] {
      var init, last := s[..|s| - 1], s[|s| - 1];
      assert s == init + [last];
      SortByCountStable(init, c);
      InsertKeepsTies(last, SortByCount(init), c);
      FilterAppend(HasCount(c), init, [last]);
    }
  }

  lemma HeadWithCount(t: seq<AggregatedData>, c: nat)
    requires t != []
    ensures WithCount(t, c) == if t[0].Count() == c then [t[0]] + WithCount(t[1..], c) else WithCount(t[1..], c)
  {
  }

  lemma NonEmptyHasCount(t: seq<AggregatedData>)
    ensures t != [] ==> t[0] in WithCount(t, t[0].Count())
  {
  }

  /** Two sequences sorted by count that agree on every count start with the
      same entry. */
  lemma SameHead(t1: seq<AggregatedData>, t2: seq<AggregatedData>)
    requires SortedByCountDesc(t1) && SortedByCountDesc(t2) && t1 != [] && t2 != []
    requires forall c: nat :: WithCount(t1, c) == WithCount(t2, c)
    ensures t1[0] == t2[0]
  {
    var c1, c2 := t1[0].Count(), t2[0].Count();
    NonEmptyHasCount(t1);
    NonEmptyHasCount(t2);
    assert t1[0] in WithCount(t2, c1);
    var k2 :| 0 <= k2 < |t2| && t2[k2] == t1[0];
    assert t2[0].Count() >= t2[k2].Count();
    assert t2[0] in WithCount(t1, c2);
    var k1 :| 0 <= k1 < |t1| && t1[k1] == t2[0];
    assert t1[0].Count() >= t1[k1].Count();
    HeadWithCount(t1, c1);
    HeadWithCount(t2, c1);
    assert WithCount(t1, c1)[0] == t1[0] && WithCount(t2, c1)[0] == t2[0];
  }

  /** Removing the same first entry from two sequences that agree on every
      count keeps them in agreement. */
  lemma TailsWithCount(t1: seq<AggregatedData>, t2: seq<AggregatedData>)
    requires t1 != [] && t2 != [] && t1[0] == t2[0]
    requires forall c: nat :: WithCount(t1, c) == WithCount(t2, c)
    ensures forall c: nat :: WithCount(t1[1..], c) == WithCount(t2[1..], c)
  {
    forall c: nat ensures WithCount(t1[1..], c) == WithCount(t2[1..], c) {
      HeadWithCount(t1, c);
      HeadWithCount(t2, c);
      if t1[0].Count() == c {
        assert WithCount(t1[1..], c) == WithCount(t1, c)[1..];
        assert WithCount(t2[1..], c) == WithCount(t2, c)[1..];
      }
    }
  }

  /** Two sequences sorted by count, highest first, that list the entries of
      every count in the same order are equal. */
  lemma {:induction false} StableSortUnique(t1: seq<AggregatedData>, t2: seq<AggregatedData>)
    requires SortedByCountDesc(t1) && SortedByCountDesc(t2)
    requires forall c: nat :: WithCount(t1, c) == WithCount(t2, c)
    ensures t1 == t2
    decreases |t1|
  {
    NonEmptyHasCount(t1);
    NonEmptyHasCount(t2);
    if t1 == [] || t2 == [] {
    } else {
      SameHead(t1, t2);
      TailsWithCount(t1, t2);
      StableSortUnique(t1[1..], t2[1..]);
      assert t1 == [t1[0]] + t1[1..];
      assert t2 == [t2[0]] + t2[1..];
    }
  }

  /** Any stable descending sort of `s` (in particular the engine's own sort)
      produces exactly SortByCount(s). */
  lemma StableSortIsSortByCount(s: seq<AggregatedData>, t: seq<AggregatedData>)
    requires SortedByCountDesc(t)
    requires forall c: nat :: WithCount(t, c) == WithCount(s, c)
    ensures t == SortByCount(s)
  {
    forall c: nat ensures WithCount(t, c) == WithCount(SortByCount(s), c) {
      SortByCountStable(s, c);
    }
    SortByCountSorted(s);
    StableSortUnique(t, SortByCount(s));
  }

  /** Insertion puts `x` right after the last entry whose count is at least
      x's. */
  lemma {:induction false} InsertAtPosition(x: AggregatedData, t: seq<AggregatedData>, j: nat)
    requires j <= |t|
    requires j == 0 || t[j - 1].Count() >= x.Count()
    requires forall k :: j <= k < |t| ==> t[k].Count() < x.Count()
    ensures Insert(x, t) == t[..j] + [x] + t[j..]
    decreases |t|
  {
    if j < |t| {
      var init, last := t[..|t| - 1], t[|t| - 1];
      assert last.Count() < x.Count();
      assert Insert(x, t) == Insert(x, init) + [last];
      InsertAtPosition(x, init, j);
      assert t[..j] == init[..j];
      assert t[j..] == init[j..] + [last];
      assert init[..j] + [x] + init[j..] + [last] == t[..j] + [x] + t[j..];
    } else {
      assert t[..j] == t && t[j..] == [];
    }
  }

  /** One insertion pass: moves a[i] left past the entries of a[..i] with a
      smaller count. */
  method InsertAt(a: array<AggregatedData>, i: nat)
    requires i < a.Length
    modifies a
    ensures a[..i + 1] == Insert(old(a[i]), old(a[..i]))
    ensures forall k :: i < k < a.Length ==> a[k] == old(a[k])
  {
    var x := a[i];
    ghost var sorted := a[..i];
    var j := i;
    while j > 0 && a[j - 1].Count() < x.Count()
      invariant 0 <= j <= i
      invariant forall k :: 0 <= k < j ==> a[k] == sorted[k]
      invariant forall k :: j < k <= i ==> a[k] == sorted[k - 1]
      invariant forall k :: i < k < a.Length ==> a[k] == old(a[k])
      invariant forall k :: j <= k < i ==> sorted[k].Count() < x.Count()
    {
      a[j] := a[j - 1];
      j := j - 1;
    }
    a[j] := x;
    ghost var inserted := sorted[..j] + [x] + sorted[j..];
    forall k | 0 <= k <= i ensures a[k] == inserted[k] {
      if k > j {
        assert inserted[k] == sorted[j..][k - j - 1];
      }
    }
    assert a[..i + 1] == inserted;
    InsertAtPosition(x, sorted, j);
  }

  lemma SortByCountPrefix(s: seq<AggregatedData>, i: nat)
    requires i < |s|
    ensures SortByCount(s[..i + 1]) == Insert(s[i], SortByCount(s[..i]))
  {
    assert s[..i + 1][..i] == s[..i];
  }

  /** `data.sort(...)` on the caller's array, in place. */
  method SortByMessageCount(a: array<AggregatedData>)
    modifies a
    ensures a[..] == SortByCount(old(a[..]))
  {
    ghost var input := a[..];
    var i := 0;
    while i < a.Length
      invariant 0 <= i <= a.Length
      invariant a[..i] == SortByCount(input[..i])
      invariant forall k :: i <= k < a.Length ==> a[k] == input[k]
    {
      InsertAt(a, i);
      SortByCountPrefix(input, i);
      i := i + 1;
    }
    assert a[..] == a[..a.Length];
    assert input == input[..a.Length];
  }

  // ---------------------------------------------------------------------
  // Competition ranks
  // ---------------------------------------------------------------------

  /** How many entries of `s` have a count strictly greater than `c`. */
  function CountGreater(s: seq<AggregatedData>, c: nat): (n: nat)
    ensures n <= |s|
  {
    if s == [] then 0 else (if s[0].Count() > c then 1 else 0) + CountGreater(s[1..], c)
  }

  /** The competition rank of entry `i`: one more than the number of entries
      with a strictly greater count. */
  function CompetitionRank(s: seq<AggregatedData>, i: nat): int
    requires i < |s|
  {
    1 + CountGreater(s, s[i].Count())
  }

  /** The reference ranking: every entry with its competition rank. */
  function CompetitionRanking(s: seq<AggregatedData>): (r: seq<Ranking>)
    ensures |r| == |s|
  {
    seq(|s|, i requires 0 <= i < |s| => Ranking(s[i], CompetitionRank(s, i)))
  }

  lemma {:induction false} CountGreaterAppend(a: seq<AggregatedData>, b: seq<AggregatedData>, c: nat)
    ensures CountGreater(a + b, c) == CountGreater(a, c) + CountGreater(b, c)
  {
    if a == [] {
      assert a + b == b;
    } else {
      assert (a + b)[0] == a[0];
      assert (a + b)[1..] == a[1..] + b;
      CountGreaterAppend(a[1..], b, c);
    }
  }

  lemma {:induction false} CountGreaterAll(s: seq<AggregatedData>, c: nat)
    requires forall k :: 0 <= k < |s| ==> s[k].Count() > c
    ensures CountGreater(s, c) == |s|
  {
    if s != [] {
      CountGreaterAll(s[1..], c);
    }
  }

  lemma {:induction false} CountGreaterNone(s: seq<AggregatedData>, c: nat)
    requires forall k :: 0 <= k < |s| ==> s[k].Count() <= c
    ensures CountGreater(s, c) == 0
  {
    if s != [] {
      CountGreaterNone(s[1..], c);
    }
  }

  lemma {:induction false} CountGreaterMonotone(s: seq<AggregatedData>, lo: nat, hi: nat)
    requires lo <= hi
    ensures CountGreater(s, hi) <= CountGreater(s, lo)
  {
    if s != [] {
      CountGreaterMonotone(s[1..], lo, hi);
    }
  }

  /** When exactly the first `i` entries exceed `c`, `i` entries exceed `c`. */
  lemma {:induction false} CountGreaterSplit(s: seq<AggregatedData>, i: nat, c: nat)
    requires i <= |s|
    requires forall k :: 0 <= k < i ==> s[k].Count() > c
    requires forall k :: i <= k < |s| ==> s[k].Count() <= c
    ensures CountGreater(s, c) == i
  {
    if i == 0 {
      CountGreaterNone(s, c);
    } else {
      CountGreaterSplit(s[1..], i - 1, c);
    }
  }

  lemma SortedAt(s: seq<AggregatedData>, k: nat, l: nat)
    requires SortedByCountDesc(s) && k <= l < |s|
    ensures s[k].Count() >= s[l].Count()
  {
  }

  /** In a sorted sequence, an entry whose count differs from its
      predecessor's has exactly its position's worth of greater entries. */
  lemma {:induction false} CountGreaterAtBoundary(s: seq<AggregatedData>, i: nat)
    requires SortedByCountDesc(s) && i < |s|
    requires i == 0 || s[i - 1].Count() > s[i].Count()
    ensures CountGreater(s, s[i].Count()) == i
  {
    var c := s[i].Count();
    forall k | 0 <= k < i ensures s[k].Count() > c {
      SortedAt(s, k, i - 1);
    }
    forall k | i <= k < |s| ensures s[k].Count() <= c {
      SortedAt(s, i, k);
    }
    CountGreaterSplit(s, i, c);
  }

  /** Competition ranks respect counts in every input: equal counts share a
      rank, and a strictly greater count gets a strictly smaller rank. */
  lemma {:induction false} CompetitionRankOrder(s: seq<AggregatedData>, i: nat, j: nat)
    requires i < |s| && j < |s|
    ensures s[i].Count() == s[j].Count() ==> CompetitionRank(s, i) == CompetitionRank(s, j)
    ensures s[i].Count() > s[j].Count() ==> CompetitionRank(s, i) < CompetitionRank(s, j)
  {
    if s[i].Count() > s[j].Count() {
      CountGreaterStrict(s, i, s[j].Count());
    }
  }

  lemma {:induction false} CountGreaterStrict(s: seq<AggregatedData>, i: nat, lo: nat)
    requires i < |s| && s[i].Count() > lo
    ensures CountGreater(s, s[i].Count()) < CountGreater(s, lo)
  {
    if i == 0 {
      CountGreaterMonotone(s[1..], lo, s[0].Count());
    } else {
      assert s[1..][i - 1] == s[i];
      CountGreaterStrict(s[1..], i - 1, lo);
    }
  }

  /** `r` ranks `s` by the rule of `calcRank`: the first entry gets rank 1,
      and every later entry gets its predecessor's rank when the two counts
      are equal, and its 1-based position otherwise. */
  predicate RankedByTieRule(s: seq<AggregatedData>, r: seq<Ranking>) {
    && |r| == |s|
    && (forall i :: 0 <= i < |s| ==> r[i].channel == s[i])
    && (|s| > 0 ==> r[0].rank == 1)
    && (forall i :: 0 < i < |s| ==>
          r[i].rank == if s[i].Count() == s[i - 1].Count() then r[i - 1].rank else i + 1)
  }

  lemma {:induction false} TieRuleBounds(s: seq<AggregatedData>, r: seq<Ranking>, i: nat)
    requires RankedByTieRule(s, r) && i < |s|
    ensures 1 <= r[i].rank <= i + 1
  {
    if i > 0 {
      TieRuleBounds(s, r, i - 1);
    }
  }

  /** Ranks never decrease along the ranking. */
  lemma {:induction false} TieRuleMonotone(s: seq<AggregatedData>, r: seq<Ranking>, i: nat, j: nat)
    requires RankedByTieRule(s, r) && i <= j < |s|
    ensures r[i].rank <= r[j].rank
    decreases j
  {
    if i < j {
      TieRuleMonotone(s, r, i, j - 1);
      TieRuleBounds(s, r, j - 1);
    }
  }

  /** On input sorted by count, the tie rule yields competition ranks. */
  lemma {:induction false} TieRuleIsCompetition(s: seq<AggregatedData>, r: seq<Ranking>, i: nat)
    requires RankedByTieRule(s, r) && SortedByCountDesc(s) && i < |s|
    ensures r[i].rank == CompetitionRank(s, i)
  {
    if i == 0 || s[i].Count() != s[i - 1].Count() {
      CountGreaterAtBoundary(s, i);
    } else {
      TieRuleIsCompetition(s, r, i - 1);
    }
  }

  /** The closure `calcRank` mapped over the sorted entries: it threads the
      previous count and the previous rank from one entry to the next. */
  method AssignRanks(s: seq<AggregatedData>) returns (r: seq<Ranking>)
    ensures RankedByTieRule(s, r)
    ensures forall i :: 0 <= i < |s| ==> 1 <= r[i].rank <= i + 1
    ensures forall i, j :: 0 <= i < j < |s| ==> r[i].rank <= r[j].rank
    ensures SortedByCountDesc(s) ==> r == CompetitionRanking(s)
  {
    var prevMessageCount: Option<nat> := None;
    var prevRank := 0;
    r := [];
    for i := 0 to |s|
      invariant |r| == i
      invariant forall k :: 0 <= k < i ==> r[k].channel == s[k]
      invariant prevMessageCount == if i == 0 then None else Some(s[i - 1].Count())
      invariant i > 0 ==> prevRank == r[i - 1].rank
      invariant i > 0 ==> r[0].rank == 1
      invariant forall k :: 0 < k < i ==>
                  r[k].rank == if s[k].Count() == s[k - 1].Count() then r[k - 1].rank else k + 1
    {
      var count := s[i].Count();
      var rank := if prevMessageCount == Some(count) then prevRank else i + 1;
      prevMessageCount := Some(count);
      prevRank := rank;
      r := r + [Ranking(s[i], rank)];
    }
    forall i | 0 <= i < |s| ensures 1 <= r[i].rank <= i + 1 {
      TieRuleBounds(s, r, i);
    }
    forall i, j | 0 <= i < j < |s| ensures r[i].rank <= r[j].rank {
      TieRuleMonotone(s, r, i, j);
    }
    if SortedByCountDesc(s) {
      forall i | 0 <= i < |s| ensures r[i] == CompetitionRanking(s)[i] {
        TieRuleIsCompetition(s, r, i);
      }
    }
  }

  /** `calcRankingOfDay`: sorts the caller's array in place, then ranks it. */
  method CalcRankingOfDay(data: array<AggregatedData>) returns (r: seq<Ranking>)
    modifies data
    ensures data[..] == SortByCount(old(data[..]))
    ensures multiset(data[..]) == multiset(old(data[..])) && SortedByCountDesc(data[..])
    ensures r == CompetitionRanking(data[..])
  {
    SortByMessageCount(data);
    SortByCountPermutes(old(data[..]));
    SortByCountSorted(old(data[..]));
    r := AssignRanks(data[..]);
  }

  // ---------------------------------------------------------------------
  // Day-over-day rank movement
  // ---------------------------------------------------------------------

  /** `Array.prototype.find` on channel id, as the index of the first match. */
  function FindIndexById(rs: seq<Ranking>, id: string): (r: Option<nat>)
    ensures r.Some? ==> r.value < |rs| && rs[r.value].channel.id == id
    ensures r.Some? ==> forall k :: 0 <= k < r.value ==> rs[k].channel.id != id
    ensures r.None? <==> forall k :: 0 <= k < |rs| ==> rs[k].channel.id != id
  {
    if rs == [] then None
    else if rs[0].channel.id == id then Some(0)
    else
      match FindIndexById(rs[1..], id)
      case None => None
      case Some(k) => Some(k + 1)
  }

  /** Today's entry `t` joined with the first entry of `yesterday` that has
      the same channel id. */
  function RankingDiffOf(t: Ranking, yesterday: seq<Ranking>): (d: RankingDiff)
    ensures d.channel == t.channel && d.rank == t.rank
    ensures (forall k :: 0 <= k < |yesterday| ==> yesterday[k].channel.id != t.channel.id) ==> d.diff == 0
    ensures forall k :: 0 <= k < |yesterday| && yesterday[k].channel.id == t.channel.id
              && (forall j :: 0 <= j < k ==> yesterday[j].channel.id != t.channel.id)
              ==> d.diff == yesterday[k].rank - t.rank
  {
    match FindIndexById(yesterday, t.channel.id)
    case None => RankingDiff(t.channel, t.rank, 0)
    case Some(k) => RankingDiff(t.channel, t.rank, yesterday[k].rank - t.rank)
  }

  /** `calcRankingDiff`: a left join of today's ranking with yesterday's. */
  method CalcRankingDiff(todayRanking: seq<Ranking>, yesterdayRanking: seq<Ranking>) returns (data: seq<RankingDiff>)
    ensures |data| == |todayRanking|
    ensures forall i :: 0 <= i < |todayRanking| ==> data[i] == RankingDiffOf(todayRanking[i], yesterdayRanking)
  {
    data := [];
    for i := 0 to |todayRanking|
      invariant |data| == i
      invariant forall k :: 0 <= k < i ==> data[k] == RankingDiffOf(todayRanking[k], yesterdayRanking)
    {
      var t := todayRanking[i];
      var found := FindIndexById(yesterdayRanking, t.channel.id);
      if found.None? {
        data := data + [RankingDiff(t.channel, t.rank, 0)];
      } else {
        data := data + [RankingDiff(t.channel, t.rank, yesterdayRanking[found.value].rank - t.rank)];
      }
    }
  }

  predicate UniqueIds(rs: seq<Ranking>) {
    forall i, j :: 0 <= i < j < |rs| ==> rs[i].channel.id != rs[j].channel.id
  }

  /** With unique ids on both days, swapping the days negates the movement
      of every channel present on both. */
  lemma DiffAntisymmetric(today: seq<Ranking>, yesterday: seq<Ranking>, i: nat, k: nat)
    requires UniqueIds(today) && UniqueIds(yesterday)
    requires i < |today| && k < |yesterday|
    requires today[i].channel.id == yesterday[k].channel.id
    ensures RankingDiffOf(yesterday[k], today).diff == -RankingDiffOf(today[i], yesterday).diff
    ensures RankingDiffOf(today[i], yesterday).diff == yesterday[k].rank - today[i].rank
  {
  }

  // ---------------------------------------------------------------------
  // Total message count
  // ---------------------------------------------------------------------

  /** The sum of `messages.length` over `data`. */
  function SumOfMessages(data: seq<AggregatedData>): (n: nat)
    ensures forall i :: 0 <= i < |data| ==> data[i].Count() <= n
    ensures n == 0 <==> forall i :: 0 <= i < |data| ==> data[i].Count() == 0
  {
    if data == [] then 0
    else
      var rest := SumOfMessages(data[1..]);
      assert forall i :: 1 <= i < |data| ==> data[i] == data[1..][i - 1];
      data[0].Count() + rest
  }

  lemma {:induction false} SumOfMessagesAppend(a: seq<AggregatedData>, b: seq<AggregatedData>)
    ensures SumOfMessages(a + b) == SumOfMessages(a) + SumOfMessages(b)
  {
    if a == [] {
      assert a + b == b;
    } else {
      assert (a + b)[1..] == a[1..] + b;
      SumOfMessagesAppend(a[1..], b);
    }
  }

  /** `countSumOfMessages`: the accumulator loop. */
  method CountSumOfMessages(data: seq<AggregatedData>) returns (count: nat)
    ensures count == SumOfMessages(data)
  {
    count := 0;
    for i := 0 to |data|
      invariant count == SumOfMessages(data[..i])
    {
      assert data[..i + 1] == data[..i] + [data[i]];
      SumOfMessagesAppend(data[..i], [data[i]]);
      count := count + data[i].Count();
    }
    assert data[..|data|] == data;
  }

  // ---------------------------------------------------------------------
  // Display lines
  // ---------------------------------------------------------------------

  /** `(count / sum * 100).toFixed(1)`: floating-point division and rounding,
      supplied by the caller. */
  type FixedPercent = (nat, nat) -> string

  /** `calcRatioPercentage`: the rounded share followed by a percent sign. */
  function CalcRatioPercentage(count: nat, sum: nat, toFixed: FixedPercent): string {
    toFixed(count, sum) + "%"
  }

  const SidewayTrend: string := ":arrow_right:"
  const UpTrend: string := ":arrow_up:"
  const DownTrend: string := ":arrow_down:"

  /** `diffToString`: the trend glyph, followed by the signed movement when
      the rank changed. */
  function DiffToString(diff: int): (s: string)
    ensures diff == 0 ==> s == SidewayTrend
    ensures diff > 0 ==> s == UpTrend + " +" + NatToString(diff)
    ensures diff < 0 ==> s == DownTrend + " -" + NatToString(-diff)
  {
    if diff == 0 then SidewayTrend
    else if diff > 0 then UpTrend + " +" + IntToString(diff)
    else if diff < 0 then DownTrend + " " + IntToString(diff)
    else assert false; ""
  }

  /** The eighth character of the trend text names the direction: 'r'ight,
      'u'p or 'd'own. */
  lemma TrendLetter(diff: int)
    ensures |DiffToString(diff)| > 7
    ensures DiffToString(diff)[7] == if diff == 0 then 'r' else if diff > 0 then 'u' else 'd'
  {
  }

  /** The trend text determines the movement. */
  lemma DiffToStringInjective(a: int, b: int)
    requires DiffToString(a) == DiffToString(b)
    ensures a == b
  {
    TrendLetter(a);
    TrendLetter(b);
    if a > 0 {
      MagnitudeAfterGlyph(a);
      MagnitudeAfterGlyph(b);
      NatToStringInjective(a, b);
    } else if a < 0 {
      MagnitudeAfterGlyph(a);
      MagnitudeAfterGlyph(b);
      NatToStringInjective(-a, -b);
    }
  }

  /** After the glyph, a space and the sign comes the magnitude of the movement. */
  lemma MagnitudeAfterGlyph(diff: int)
    requires diff != 0
    ensures var offset := if diff > 0 then 12 else 14;
            |DiffToString(diff)| > offset && DiffToString(diff)[offset..] == NatToString(if diff > 0 then diff else -diff)
  {
  }

  /** `formatAttachmentFieldValue`: "{rank}. <#{id}> {trend} / 発言数: {count} ({pct})". */
  function FormatAttachmentFieldValue(rankingDiff: RankingDiff, sumOfMessages: nat, toFixed: FixedPercent): (s: string)
    ensures var head := IntToString(rankingDiff.rank) + ". <#" + rankingDiff.channel.id + "> ";
            |s| > |head| && s[..|head|] == head
    ensures |s| >= 2 && s[|s| - 2..] == "%)"
  {
    IntToString(rankingDiff.rank) + ". <#" + rankingDiff.channel.id + "> "
    + DiffToString(rankingDiff.diff)
    + " / 発言数: " + NatToString(rankingDiff.channel.Count())
    + " (" + CalcRatioPercentage(rankingDiff.channel.Count(), sumOfMessages, toFixed) + ")"
  }

  /** The rendered line, part by part: after the rank and the channel link
      come the trend text, then the label with the message count and an
      opening parenthesis, then the share with "%)". */
  lemma FormatAttachmentFieldValueParts(rankingDiff: RankingDiff, sumOfMessages: nat, toFixed: FixedPercent)
    ensures var s := FormatAttachmentFieldValue(rankingDiff, sumOfMessages, toFixed);
            var head := IntToString(rankingDiff.rank) + ". <#" + rankingDiff.channel.id + "> ";
            var trend := DiffToString(rankingDiff.diff);
            var mid := " / 発言数: " + NatToString(rankingDiff.channel.Count()) + " (";
            && |s| == |head| + |trend| + |mid| + |toFixed(rankingDiff.channel.Count(), sumOfMessages)| + 2
            && s[..|head|] == head
            && s[|head|..|head| + |trend|] == trend
            && s[|head| + |trend|..|head| + |trend| + |mid|] == mid
            && s[|head| + |trend| + |mid|..] == toFixed(rankingDiff.channel.Count(), sumOfMessages) + "%)"
  {
    var s := FormatAttachmentFieldValue(rankingDiff, sumOfMessages, toFixed);
    var head := IntToString(rankingDiff.rank) + ". <#" + rankingDiff.channel.id + "> ";
    var trend := DiffToString(rankingDiff.diff);
    var count := NatToString(rankingDiff.channel.Count());
    var mid := " / 発言数: " + count + " (";
    var share := toFixed(rankingDiff.channel.Count(), sumOfMessages);
    assert s == head + trend + " / 発言数: " + count + " (" + (share + "%") + ")";
    Regroup(head, trend, " / 発言数: ", count, " (", share, "%", ")");
    assert "%" + ")" == "%)";
    ConcatParts(head, trend, mid, share + "%)");
  }

  /** The direction of the movement can be read off a rendered line: the text
      after the rank and the channel link starts with the glyph, whose eighth
      character is 'r'ight, 'u'p or 'd'own. */
  lemma LineShowsDirection(rankingDiff: RankingDiff, sumOfMessages: nat, toFixed: FixedPercent)
    ensures var s := FormatAttachmentFieldValue(rankingDiff, sumOfMessages, toFixed);
            var at := |IntToString(rankingDiff.rank) + ". <#" + rankingDiff.channel.id + "> "| + 7;
            |s| > at
            && s[at] == if rankingDiff.diff == 0 then 'r' else if rankingDiff.diff > 0 then 'u' else 'd'
  {
    var s := FormatAttachmentFieldValue(rankingDiff, sumOfMessages, toFixed);
    var head := IntToString(rankingDiff.rank) + ". <#" + rankingDiff.channel.id + "> ";
    var trend := DiffToString(rankingDiff.diff);
    TrendLetter(rankingDiff.diff);
    FormatAttachmentFieldValueParts(rankingDiff, sumOfMessages, toFixed);
    assert s[|head| + 7] == trend[7];
  }

  /** A channel is displayed only if it had a message in the window. */
  function IsActive(rankingDiff: RankingDiff): (active: bool)
    ensures active <==> |rankingDiff.channel.messages| > 0
  {
    rankingDiff.channel.Count() != 0
  }

  /** The `.map` callback: a field with only a value, the rendered line. */
  function FieldOf(rankingDiff: RankingDiff, sumOfMessages: nat, toFixed: FixedPercent): (field: AttachmentField)
    ensures field.title.None? && field.short.None?
    ensures field.value == Some(FormatAttachmentFieldValue(rankingDiff, sumOfMessages, toFixed))
  {
    AttachmentField(None, Some(FormatAttachmentFieldValue(rankingDiff, sumOfMessages, toFixed)), None)
  }

  /** `dataToAttachmentFields`: drops the idle channels and renders the rest,
      in order. */
  function DataToAttachmentFields(rankingData: seq<RankingDiff>, sumOfMessages: nat, toFixed: FixedPercent): (fields: seq<AttachmentField>)
    ensures |fields| == |Filter(IsActive, rankingData)|
    ensures forall i :: 0 <= i < |fields| ==> fields[i] == FieldOf(Filter(IsActive, rankingData)[i], sumOfMessages, toFixed)
    ensures forall rd :: rd in rankingData && rd.channel.Count() != 0 ==> FieldOf(rd, sumOfMessages, toFixed) in fields
    ensures forall f :: f in fields ==>
              exists rd :: rd in rankingData && rd.channel.Count() != 0 && f == FieldOf(rd, sumOfMessages, toFixed)
  {
    var active := Filter(IsActive, rankingData);
    var fields := seq(|active|, i requires 0 <= i < |active| => FieldOf(active[i], sumOfMessages, toFixed));
    RenderedActive(rankingData, fields, sumOfMessages, toFixed);
    fields
  }

  /** Rendering the active entries one by one gives a field for every active
      entry and no other field. */
  lemma RenderedActive(rankingData: seq<RankingDiff>, fields: seq<AttachmentField>, sumOfMessages: nat, toFixed: FixedPercent)
    requires |fields| == |Filter(IsActive, rankingData)|
    requires forall i :: 0 <= i < |fields| ==> fields[i] == FieldOf(Filter(IsActive, rankingData)[i], sumOfMessages, toFixed)
    ensures forall rd :: rd in rankingData && rd.channel.Count() != 0 ==> FieldOf(rd, sumOfMessages, toFixed) in fields
    ensures forall f :: f in fields ==>
              exists rd :: rd in rankingData && rd.channel.Count() != 0 && f == FieldOf(rd, sumOfMessages, toFixed)
  {
    var active := Filter(IsActive, rankingData);
    forall rd | rd in rankingData && rd.channel.Count() != 0 ensures FieldOf(rd, sumOfMessages, toFixed) in fields {
      FilterComplete(IsActive, rankingData, rd);
      var k :| 0 <= k < |active| && active[k] == rd;
      assert fields[k] == FieldOf(rd, sumOfMessages, toFixed);
    }
    forall f | f in fields
      ensures exists rd :: rd in rankingData && rd.channel.Count() != 0 && f == FieldOf(rd, sumOfMessages, toFixed)
    {
      var k :| 0 <= k < |fields| && fields[k] == f;
      assert active[k] in active;
    }
  }

  /** Rendering distributes over concatenation, so the display keeps the
      ranking's order. */
  lemma DataToAttachmentFieldsAppend(a: seq<RankingDiff>, b: seq<RankingDiff>, sumOfMessages: nat, toFixed: FixedPercent)
    ensures DataToAttachmentFields(a + b, sumOfMessages, toFixed)
         == DataToAttachmentFields(a, sumOfMessages, toFixed) + DataToAttachmentFields(b, sumOfMessages, toFixed)
  {
    var fa := DataToAttachmentFields(a, sumOfMessages, toFixed);
    var fb := DataToAttachmentFields(b, sumOfMessages, toFixed);
    var fab := DataToAttachmentFields(a + b, sumOfMessages, toFixed);
    var active := Filter(IsActive, a + b);
    FilterAppend(IsActive, a, b);
    assert active == Filter(IsActive, a) + Filter(IsActive, b);
    forall i | 0 <= i < |fab| ensures fab[i] == (fa + fb)[i] {
      if i < |fa| {
        assert active[i] == Filter(IsActive, a)[i];
      } else {
        assert active[i] == Filter(IsActive, b)[i - |fa|];
      }
    }
  }

  /** When every channel is active, field `i` renders entry `i`. */
  lemma AllActiveFields(rankingData: seq<RankingDiff>, sumOfMessages: nat, toFixed: FixedPercent)
    requires forall i :: 0 <= i < |rankingData| ==> rankingData[i].channel.Count() != 0
    ensures |DataToAttachmentFields(rankingData, sumOfMessages, toFixed)| == |rankingData|
    ensures forall i :: 0 <= i < |rankingData| ==>
              DataToAttachmentFields(rankingData, sumOfMessages, toFixed)[i] == FieldOf(rankingData[i], sumOfMessages, toFixed)
  {
    FilterIdentity(IsActive, rankingData);
  }
}
