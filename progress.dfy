/** `get_next_goals` and the lines of `get_progress_summary`. Money is shown
    with Python's `:,.2f` format, which this model takes as the parameter
    `money`. */
module Progress {
  import opened Text
  import opened Numbers
  import opened Conversation
  import Achievements

  const FirstSaleGoal := "Make your first sale"
  const FiveSalesGoal := "Reach 5 sales"

  /** The profit goal shows the current profit as `money` formats it. */
  function ProfitGoal(profit: real, money: real -> string): (r: string)
    ensures |r| == 35 + |money(profit)| && r[34..|r| - 1] == money(profit)
  {
    "Reach $500 in profit (Currently: $" + money(profit) + ")"
  }

  /** The feedback goal shows how many positive feedback are missing to 10. */
  function FeedbackGoal(positive: int): (r: string)
    ensures |r| > 27 && r[4..|r| - 23] == IntToString(10 - positive)
    ensures positive < 10 ==> AllDigits(r[4..|r| - 23]) && DigitsValue(r[4..|r| - 23]) + positive == 10
  {
    "Get " + IntToString(10 - positive) + " more positive feedback"
  }

  /** The goals still open, in the order sales, profit, feedback. */
  function NextGoals(c: Context, money: real -> string): (r: seq<string>)
    ensures |r| <= 3
    ensures r == [] <==> c.salesCount >= 5 && c.totalProfit >= 500.0 && c.positiveFeedback >= 10
    ensures c.salesCount < 1 ==> r[0] == FirstSaleGoal
    ensures 1 <= c.salesCount < 5 ==> r[0] == FiveSalesGoal
    ensures c.positiveFeedback < 10 ==> r[|r| - 1] == FeedbackGoal(c.positiveFeedback)
    ensures |r| == (if c.salesCount < 5 then 1 else 0) + (if c.totalProfit < 500.0 then 1 else 0)
                   + (if c.positiveFeedback < 10 then 1 else 0)
    ensures c.totalProfit < 500.0 ==> r[if c.salesCount < 5 then 1 else 0] == ProfitGoal(c.totalProfit, money)
  {
    var sales := if c.salesCount < 1 then [FirstSaleGoal] else if c.salesCount < 5 then [FiveSalesGoal] else [];
    var profit := if c.totalProfit < 500.0 then [ProfitGoal(c.totalProfit, money)] else [];
    var feedback := if c.positiveFeedback < 10 then [FeedbackGoal(c.positiveFeedback)] else [];
    sales + profit + feedback
  }

  /** The profit goal starts `Reach $`. */
  lemma ProfitGoalShape(profit: real, money: real -> string)
    ensures |ProfitGoal(profit, money)| > 6
    ensures ProfitGoal(profit, money)[0] == 'R' && ProfitGoal(profit, money)[6] == '$'
  {
    var head := "Reach $500 in profit (Currently: $";
    assert ProfitGoal(profit, money) == head + (money(profit) + ")");
    assert head[0] == 'R' && head[6] == '$';
  }

  /** The feedback goal starts with `G`. */
  lemma FeedbackGoalShape(positive: int)
    ensures |FeedbackGoal(positive)| > 0 && FeedbackGoal(positive)[0] == 'G'
  {
    assert FeedbackGoal(positive) == "Get " + (IntToString(10 - positive) + " more positive feedback");
  }

  /** The four kinds of goal never coincide. */
  lemma GoalsDistinct(profit: real, positive: int, money: real -> string)
    ensures FirstSaleGoal != FiveSalesGoal
    ensures ProfitGoal(profit, money) != FirstSaleGoal && ProfitGoal(profit, money) != FiveSalesGoal
    ensures FeedbackGoal(positive) != FirstSaleGoal && FeedbackGoal(positive) != FiveSalesGoal
    ensures ProfitGoal(profit, money) != FeedbackGoal(positive)
  {
    ProfitGoalShape(profit, money);
    FeedbackGoalShape(positive);
    assert FirstSaleGoal[0] == 'M' && FiveSalesGoal[0] == 'R' && FiveSalesGoal[6] == '5';
  }

  /** Membership in a goal list built from four distinct goals. */
  lemma ListedIff(first: string, five: string, p: string, f: string,
                  sales: int, profit: real, positive: int, goals: seq<string>)
    requires first != five && p != first && p != five && f != first && f != five && p != f
    requires goals == (if sales < 1 then [first] else if sales < 5 then [five] else [])
                      + (if profit < 500.0 then [p] else [])
                      + (if positive < 10 then [f] else [])
    ensures first in goals <==> sales < 1
    ensures five in goals <==> 1 <= sales < 5
    ensures p in goals <==> profit < 500.0
    ensures f in goals <==> positive < 10
  {
  }

  /** Each goal is listed exactly while its threshold is not met. */
  lemma GoalsListed(c: Context, money: real -> string)
    ensures FirstSaleGoal in NextGoals(c, money) <==> c.salesCount < 1
    ensures FiveSalesGoal in NextGoals(c, money) <==> 1 <= c.salesCount < 5
    ensures ProfitGoal(c.totalProfit, money) in NextGoals(c, money) <==> c.totalProfit < 500.0
    ensures FeedbackGoal(c.positiveFeedback) in NextGoals(c, money) <==> c.positiveFeedback < 10
  {
    GoalsDistinct(c.totalProfit, c.positiveFeedback, money);
    ListedIff(FirstSaleGoal, FiveSalesGoal, ProfitGoal(c.totalProfit, money), FeedbackGoal(c.positiveFeedback),
              c.salesCount, c.totalProfit, c.positiveFeedback, NextGoals(c, money));
  }

  /** The open goals are listed once each, and every entry is one of the
      four goals. */
  lemma GoalsOnce(c: Context, money: real -> string)
    ensures NoDup(NextGoals(c, money))
    ensures forall g :: g in NextGoals(c, money) ==>
              g == FirstSaleGoal || g == FiveSalesGoal
              || g == ProfitGoal(c.totalProfit, money) || g == FeedbackGoal(c.positiveFeedback)
  {
    GoalsDistinct(c.totalProfit, c.positiveFeedback, money);
  }

  /** The number of positive feedback still missing is the distance to 10. */
  lemma FeedbackGoalCount(c: Context, money: real -> string)
    requires 0 <= c.positiveFeedback < 10
    ensures var g := NextGoals(c, money)[|NextGoals(c, money)| - 1];
      && g == "Get " + NatToString(10 - c.positiveFeedback) + " more positive feedback"
      && DigitsValue(g[4..|g| - 23]) + c.positiveFeedback == 10
  {
    var g := NextGoals(c, money)[|NextGoals(c, money)| - 1];
    assert g == FeedbackGoal(c.positiveFeedback);
    assert IntToString(10 - c.positiveFeedback) == NatToString(10 - c.positiveFeedback);
  }

  /** A goal is open exactly when the matching badge's threshold is not met:
      the first-sale, profit and feedback goals stand opposite the
      first-sale, profit and feedback badges of a list holding no identifier. */
  lemma GoalsOppositeBadges(c: Context, money: real -> string)
    requires forall b :: b in c.achievements ==> b !in Achievements.Ids
    ensures FirstSaleGoal in NextGoals(c, money) <==> Achievements.FirstSale !in Achievements.NewBadges(c)
    ensures ProfitGoal(c.totalProfit, money) in NextGoals(c, money) <==> Achievements.ProfitPro !in Achievements.NewBadges(c)
    ensures FeedbackGoal(c.positiveFeedback) in NextGoals(c, money) <==> Achievements.FeedbackKing !in Achievements.NewBadges(c)
  {
    GoalsListed(c, money);
    Achievements.BadgeIff(c);
  }

  /** `"• " + x` for every `x`. */
  function Bullets(xs: seq<string>): (r: seq<string>)
    ensures |r| == |xs|
    ensures forall i :: 0 <= i < |xs| ==> r[i] == "• " + xs[i]
  {
    if xs == [] then [] else ["• " + xs[0]] + Bullets(xs[1..])
  }

  /** The bullets of a longer prefix end with the bullet of the new element. */
  lemma BulletsSnoc(xs: seq<string>, i: int)
    requires 0 <= i < |xs|
    ensures Bullets(xs[..i + 1]) == Bullets(xs[..i]) + ["• " + xs[i]]
  {
    var l, r := Bullets(xs[..i + 1]), Bullets(xs[..i]) + ["• " + xs[i]];
    assert |l| == |r|;
    forall k | 0 <= k < |l|
      ensures l[k] == r[k]
    {
      if k < i {
        assert xs[..i + 1][k] == xs[..i][k];
      }
    }
  }

  /** The four statistics lines. */
  function Stats(c: Context, money: real -> string): (r: seq<string>)
    ensures |r| == 4 && |r[0]| > 9 && |r[1]| >= 17 && |r[2]| > 21 && |r[3]| > 18
    ensures r[1][17..] == money(c.totalProfit)
    ensures c.salesCount >= 0 ==> AllDigits(r[0][9..]) && DigitsValue(r[0][9..]) == c.salesCount
    ensures c.positiveFeedback >= 0 ==> AllDigits(r[2][21..]) && DigitsValue(r[2][21..]) == c.positiveFeedback
    ensures r[3][|r[3]| - 1] == '%'
    ensures c.responseRate >= 0 ==> AllDigits(r[3][17..|r[3]| - 1]) && DigitsValue(r[3][17..|r[3]| - 1]) == c.responseRate
  {
    [ "• Sales: " + IntToString(c.salesCount),
      "• Total Profit: $" + money(c.totalProfit),
      "• Positive Feedback: " + IntToString(c.positiveFeedback),
      "• Response Rate: " + IntToString(c.responseRate) + "%" ]
  }

  const ProgressHeading := " Your Progress:"
  const AchievementsHeading := "\n Your Achievements:"
  const GoalsHeading := "\n Next Goals:"

  /** A heading and its bullets, or nothing when there is nothing to list.
      `SummaryLayout` places the sections in the summary. */
  function Section(heading: string, xs: seq<string>): (r: seq<string>)
    ensures xs == [] ==> r == []
    ensures xs != [] ==> |r| == 1 + |xs| && r[0] == heading && r[1..] == Bullets(xs)
  {
    if xs != [] then [heading] + Bullets(xs) else []
  }

  /** The lines of the summary before they are joined. */
  function SummaryLines(c: Context, money: real -> string): (r: seq<string>)
    ensures |r| >= 5 && r[..5] == [ProgressHeading] + Stats(c, money)
  {
    [ProgressHeading] + Stats(c, money)
    + Section(AchievementsHeading, c.achievements)
    + Section(GoalsHeading, NextGoals(c, money))
  }

  /** `get_progress_summary` on the context `c` (after its `get_user_context`). */
  function Summary(c: Context, money: real -> string): (r: string)
    ensures ProgressHeading <= r
  {
    Join(SummaryLines(c, money), "\n")
  }

  /** The summary lists the heading and the four statistics, then every
      stored badge under its heading when there is one, then every open goal
      under its heading when there is one, each in its order. */
  lemma SummaryLayout(c: Context, money: real -> string)
    ensures var lines := SummaryLines(c, money);
      var a := c.achievements;
      var goals := NextGoals(c, money);
      var na := if a == [] then 0 else 1 + |a|;
      && |lines| == 5 + na + (if goals == [] then 0 else 1 + |goals|)
      && lines[..5] == [ProgressHeading] + Stats(c, money)
      && (a != [] ==> lines[5..6 + |a|] == [AchievementsHeading] + Bullets(a))
      && (goals != [] ==> lines[5 + na..] == [GoalsHeading] + Bullets(goals))
  {
    var a := c.achievements;
    var goals := NextGoals(c, money);
    var head := [ProgressHeading] + Stats(c, money);
    var mid := Section(AchievementsHeading, a);
    var tail := Section(GoalsHeading, goals);
    var lines := SummaryLines(c, money);
    assert lines == head + mid + tail;
    assert |head| == 5;
    assert (head + mid + tail)[..5] == head;
    assert (head + mid + tail)[5..5 + |mid|] == mid;
    assert (head + mid + tail)[5 + |mid|..] == tail;
  }
}
