/** The concrete scenarios of the engine's unit tests (src/calc/index.test.ts),
    and a rendering scenario for one channel with 1 of 10 messages, stated
    about the model. */
module CalcFixtures {
  import opened Wrappers
  import opened Decimal
  import opened Types
  import opened Calc

  /** `new Array(n).fill({})`: n messages with neither marker nor subtype. */
  function Messages(n: nat): (ms: seq<Message>)
    ensures |ms| == n
  {
    seq(n, _ => Message(None, None))
  }

  /** `createAggregatedData`: the channel's name doubles as its id. */
  function Aggregated(name: string, messageCount: nat): (a: AggregatedData)
    ensures a.id == name && a.name == name && a.Count() == messageCount
  {
    AggregatedData(name, name, Messages(messageCount))
  }

  /** `createRanking`. */
  function Ranked(name: string, messageCount: nat, rank: int): Ranking {
    Ranking(Aggregated(name, messageCount), rank)
  }

  function FixtureInput(): seq<AggregatedData> {
    [Aggregated("a", 10), Aggregated("b", 30), Aggregated("c", 20), Aggregated("d", 40), Aggregated("e", 50)]
  }

  lemma InsertBelowAll(x: AggregatedData, t: seq<AggregatedData>)
    requires forall k :: 0 <= k < |t| ==> t[k].Count() >= x.Count()
    ensures Insert(x, t) == t + [x]
  {
  }

  lemma InsertAboveLast(x: AggregatedData, t: seq<AggregatedData>)
    requires t != [] && t[|t| - 1].Count() < x.Count()
    ensures Insert(x, t) == Insert(x, t[..|t| - 1]) + [t[|t| - 1]]
  {
  }

  /** The sort of the fixture, for any five channels with its counts. */
  lemma SortFive(a: AggregatedData, b: AggregatedData, c: AggregatedData, d: AggregatedData, e: AggregatedData)
    requires a.Count() == 10 && b.Count() == 30 && c.Count() == 20 && d.Count() == 40 && e.Count() == 50
    ensures SortByCount([a, b, c, d, e]) == [e, d, b, c, a]
  {
    var input := [a, b, c, d, e];
    assert input[..4] == [a, b, c, d] && [a, b, c, d][..3] == [a, b, c];
    assert [a, b, c][..2] == [a, b] && [a, b][..1] == [a];
    assert SortByCount([a]) == [a];
    InsertAboveLast(b, [a]);
    assert SortByCount([a, b]) == [b, a];
    InsertAboveLast(c, [b, a]);
    assert [b, a][..1] == [b];
    InsertBelowAll(c, [b]);
    assert SortByCount([a, b, c]) == [b, c, a];
    InsertAboveLast(d, [b, c, a]);
    assert [b, c, a][..2] == [b, c];
    InsertAboveLast(d, [b, c]);
    assert [b, c][..1] == [b];
    InsertAboveLast(d, [b]);
    assert SortByCount([a, b, c, d]) == [d, b, c, a];
    InsertAboveLast(e, [d, b, c, a]);
    assert [d, b, c, a][..3] == [d, b, c];
    InsertAboveLast(e, [d, b, c]);
    assert [d, b, c][..2] == [d, b];
    InsertAboveLast(e, [d, b]);
    assert [d, b][..1] == [d];
    InsertAboveLast(e, [d]);
    assert input[..4] + [input[4]] == input;
  }

  /** Five channels with distinct counts come out highest first, ranked 1 to 5;
      no channels give no ranking. */
  lemma CalcRankingOfDayFixture()
    ensures CompetitionRanking(SortByCount(FixtureInput()))
         == [Ranked("e", 50, 1), Ranked("d", 40, 2), Ranked("b", 30, 3), Ranked("c", 20, 4), Ranked("a", 10, 5)]
    ensures CompetitionRanking(SortByCount([])) == []
  {
    var input := FixtureInput();
    SortFive(input[0], input[1], input[2], input[3], input[4]);
    var sorted := SortByCount(input);
    forall i | 0 <= i < 5 ensures CompetitionRank(sorted, i) == i + 1 {
      CountGreaterAtBoundary(sorted, i);
    }
  }

  function TodayRanking(): seq<Ranking> {
    [Ranked("a", 30, 3), Ranked("b", 10, 5), Ranked("c", 50, 1), Ranked("d", 40, 2), Ranked("e", 20, 4)]
  }

  function YesterdayRanking(): seq<Ranking> {
    [Ranked("a", 20, 4), Ranked("b", 30, 3), Ranked("c", 10, 5), Ranked("d", 50, 1), Ranked("e", 40, 2)]
  }

  /** The join of the two fixture days moves the channels by 1, -2, 4, -1, -2. */
  lemma CalcRankingDiffFixture()
    ensures forall i :: 0 <= i < 5 ==>
              RankingDiffOf(TodayRanking()[i], YesterdayRanking()).diff == [1, -2, 4, -1, -2][i]
  {
    var t, y := TodayRanking(), YesterdayRanking();
    forall i | 0 <= i < 5 ensures RankingDiffOf(t[i], y).diff == [1, -2, 4, -1, -2][i] {
      assert t[i].channel.id == y[i].channel.id;
      forall j | 0 <= j < i ensures y[j].channel.id != t[i].channel.id {
        assert y[j].channel.id[0] != t[i].channel.id[0];
      }
    }
  }

  /** Every fixture channel is active, so field `i` renders diff entry `i`. */
  lemma DataToAttachmentFieldsFixture(toFixed: FixedPercent)
    ensures var diffs := seq(5, i requires 0 <= i < 5 => RankingDiffOf(TodayRanking()[i], YesterdayRanking()));
            var sum := SumOfMessages(seq(5, i requires 0 <= i < 5 => TodayRanking()[i].channel));
            sum == 150
            && |DataToAttachmentFields(diffs, sum, toFixed)| == 5
            && forall i :: 0 <= i < 5 ==>
                 DataToAttachmentFields(diffs, sum, toFixed)[i] == FieldOf(diffs[i], sum, toFixed)
  {
    var diffs := seq(5, i requires 0 <= i < 5 => RankingDiffOf(TodayRanking()[i], YesterdayRanking()));
    var channels := seq(5, i requires 0 <= i < 5 => TodayRanking()[i].channel);
    assert channels == [Aggregated("a", 30), Aggregated("b", 10), Aggregated("c", 50), Aggregated("d", 40), Aggregated("e", 20)];
    assert SumOfMessages(channels) == 150 by {
      SumOfMessagesAppend(channels[..1], channels[1..]);
      SumOfMessagesAppend(channels[1..2], channels[2..]);
      SumOfMessagesAppend(channels[2..3], channels[3..]);
      SumOfMessagesAppend(channels[3..4], channels[4..]);
    }
    AllActiveFields(diffs, 150, toFixed);
  }

  function DummyChannel(): AggregatedData {
    AggregatedData("dummy-id", "dummy", Messages(1))
  }

  /** The rendered line is the rank, the channel link, the trend text, the
      count and the share, with the fixed separators. */
  lemma LineOfDummy(diff: int, toFixed: FixedPercent)
    ensures FormatAttachmentFieldValue(RankingDiff(DummyChannel(), 1, diff), 10, toFixed)
         == "1. <#dummy-id> " + DiffToString(diff) + " / 発言数: 1 (" + toFixed(1, 10) + "%)"
  {
    var d, p := DiffToString(diff), toFixed(1, 10);
    var head := "1. <#dummy-id> ";
    assert IntToString(1) + ". <#" + "dummy-id" + "> " == head;
    assert NatToString(1) == "1";
    var tail := " / 発言数: " + "1" + " (" + (p + "%") + ")";
    assert tail == " / 発言数: 1 (" + p + "%)";
    assert FormatAttachmentFieldValue(RankingDiff(DummyChannel(), 1, diff), 10, toFixed) == head + d + tail;
  }

  /** The rendered line for a channel that moved up 3, down 2, or stayed. */
  lemma FormatAttachmentFieldValueScenario(toFixed: FixedPercent)
    ensures FormatAttachmentFieldValue(RankingDiff(DummyChannel(), 1, 3), 10, toFixed)
         == "1. <#dummy-id> " + ":arrow_up: +3" + " / 発言数: 1 (" + toFixed(1, 10) + "%)"
    ensures FormatAttachmentFieldValue(RankingDiff(DummyChannel(), 1, -2), 10, toFixed)
         == "1. <#dummy-id> " + ":arrow_down: -2" + " / 発言数: 1 (" + toFixed(1, 10) + "%)"
    ensures FormatAttachmentFieldValue(RankingDiff(DummyChannel(), 1, 0), 10, toFixed)
         == "1. <#dummy-id> " + ":arrow_right:" + " / 発言数: 1 (" + toFixed(1, 10) + "%)"
  {
    LineOfDummy(3, toFixed);
    LineOfDummy(-2, toFixed);
    LineOfDummy(0, toFixed);
    assert NatToString(2) == "2" && NatToString(3) == "3";
  }
}
