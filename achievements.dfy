/** The badge rules of `update_achievements`. The stored list receives the
    badges' display names, while every rule but the first tests the list for
    the badge's identifier; the two never coincide, so the threshold badges
    are reported again on every evaluation, and the first-chat badge is
    reported only while the list is empty. */
module Achievements {
  import opened Wrappers
  import opened Text
  import opened Conversation

  /** Identifiers of the badge table. */
  const FirstChatId := "first_chat"
  const BudgetSetId := "budget_set"
  const FirstSaleId := "first_sale"
  const QuickResponseId := "quick_response"
  const BulkBuyerId := "bulk_buyer"
  const ProfitMakerId := "profit_maker"
  const FeedbackKingId := "feedback_king"

  /** Display names of the badge table, each with its leading space, in
      table order. */
  const Names := [" First Chat", " Budget Planner", " First Sale", " Speed Demon",
                  " Bulk Master", " Profit Pro", " Feedback King"]
  const FirstChat := Names[0]
  const BudgetPlanner := Names[1]
  const FirstSale := Names[2]
  const SpeedDemon := Names[3]
  const BulkMaster := Names[4]
  const ProfitPro := Names[5]
  const FeedbackKing := Names[6]

  const Ids := [FirstChatId, BudgetSetId, FirstSaleId, QuickResponseId, BulkBuyerId, ProfitMakerId, FeedbackKingId]

  /** Python's truth value of `context.get('budget')`: present and not zero. */
  predicate BudgetTruthy(b: Option<real>)
  {
    b.Some? && b.value != 0.0
  }

  /** The seven rules of `update_achievements`, in source order, as flags
      beside `Names`: the first tests for an empty list, the others test a
      threshold and the absence of the badge's identifier. */
  function Rules(c: Context): (r: seq<bool>)
    ensures |r| == |Names|
  {
    [ c.achievements == [],
      BudgetTruthy(c.budget) && BudgetSetId !in c.achievements,
      c.salesCount >= 1 && FirstSaleId !in c.achievements,
      c.avgResponseTime < 1800.0 && QuickResponseId !in c.achievements,
      c.bulkPurchases >= 5 && BulkBuyerId !in c.achievements,
      c.totalProfit >= 500.0 && ProfitMakerId !in c.achievements,
      c.positiveFeedback >= 10 && FeedbackKingId !in c.achievements ]
  }

  function If(cond: bool, badge: string): seq<string>
  {
    if cond then [badge] else []
  }

  /** The names at positions `lo` to `hi - 1` whose flag is set, in table order. */
  function Picked(flags: seq<bool>, names: seq<string>, lo: nat, hi: nat): seq<string>
    requires lo <= hi <= |flags| && |flags| == |names|
    decreases hi
  {
    if hi == lo then [] else Picked(flags, names, lo, hi - 1) + If(flags[hi - 1], names[hi - 1])
  }

  /** `Picked` seen from the front. */
  lemma {:induction false} PickedFront(flags: seq<bool>, names: seq<string>, lo: nat, hi: nat)
    requires lo < hi <= |flags| && |flags| == |names|
    ensures Picked(flags, names, lo, hi) == If(flags[lo], names[lo]) + Picked(flags, names, lo + 1, hi)
    decreases hi
  {
    if hi > lo + 1 {
      PickedFront(flags, names, lo, hi - 1);
      var a, b, c := If(flags[lo], names[lo]), Picked(flags, names, lo + 1, hi - 1), If(flags[hi - 1], names[hi - 1]);
      assert (a + b) + c == a + (b + c);
    }
  }

  /** Only the flags in the range matter. */
  lemma {:induction false} PickedSame(f: seq<bool>, g: seq<bool>, names: seq<string>, lo: nat, hi: nat)
    requires lo <= hi <= |f| && |f| == |g| == |names|
    requires forall k :: lo <= k < hi ==> f[k] == g[k]
    ensures Picked(f, names, lo, hi) == Picked(g, names, lo, hi)
    decreases hi
  {
    if hi > lo {
      PickedSame(f, g, names, lo, hi - 1);
    }
  }

  /** Joining two lists without duplicates and without common elements. */
  lemma NoDupAppend(a: seq<string>, b: seq<string>)
    requires NoDup(a) && NoDup(b)
    requires forall x :: x in a ==> x !in b
    ensures NoDup(a + b)
  {
    forall i, j | 0 <= i < j < |a + b|
      ensures (a + b)[i] != (a + b)[j]
    {
      if j >= |a| && i < |a| {
        assert (a + b)[i] in a && (a + b)[j] in b;
      }
    }
  }

  /** Picking from distinct names: a name is picked iff it lies in the range
      and its flag is set, and none is picked twice. */
  lemma {:induction false} PickedSpec(flags: seq<bool>, names: seq<string>, lo: nat, hi: nat)
    requires lo <= hi <= |flags| && |flags| == |names| && NoDup(names)
    ensures NoDup(Picked(flags, names, lo, hi))
    ensures forall x :: x in Picked(flags, names, lo, hi) ==> x in names
    ensures forall k :: 0 <= k < |names| ==> (names[k] in Picked(flags, names, lo, hi) <==> lo <= k < hi && flags[k])
    decreases hi
  {
    if hi > lo {
      var prev := Picked(flags, names, lo, hi - 1);
      PickedSpec(flags, names, lo, hi - 1);
      assert names[hi - 1] !in prev;
      NoDupAppend(prev, If(flags[hi - 1], names[hi - 1]));
    }
  }

  lemma NamesDistinct()
    ensures NoDup(Names)
  {
  }

  /** The badges of the six threshold rules, in table order. */
  function ThresholdBadges(c: Context): (r: seq<string>)
    ensures FirstChat !in r && NoDup(r)
    ensures forall k :: 1 <= k < |Names| ==> (Names[k] in r <==> Rules(c)[k])
  {
    NamesDistinct();
    PickedSpec(Rules(c), Names, 1, |Names|);
    Picked(Rules(c), Names, 1, |Names|)
  }

  /** `new_achievements`: the first-chat badge while the stored list is
      empty, then the threshold badges. */
  function NewBadges(c: Context): (r: seq<string>)
    ensures r == If(c.achievements == [], FirstChat) + ThresholdBadges(c)
    ensures NoDup(r) && forall x :: x in r ==> x in Names
    ensures forall k :: 0 <= k < |Names| ==> (Names[k] in r <==> Rules(c)[k])
  {
    NamesDistinct();
    PickedSpec(Rules(c), Names, 0, |Names|);
    PickedFront(Rules(c), Names, 0, |Names|);
    Picked(Rules(c), Names, 0, |Names|)
  }

  /** `list(set(s))` with one fixed order: the first occurrence of each
      element, in the order of `s`. */
  function Dedup(s: seq<string>): (r: seq<string>)
    ensures forall x :: x in r <==> x in s
    ensures NoDup(r)
    ensures |r| <= |s|
  {
    if s == [] then []
    else
      var d := Dedup(s[..|s| - 1]);
      var x := s[|s| - 1];
      assert s == s[..|s| - 1] + [x];
      if x in d then d else d + [x]
  }

  /** The context after the assignment `context['achievements'] = ...`. */
  function Evaluated(c: Context): (r: Context)
    ensures forall b :: b in r.achievements <==> b in c.achievements || b in NewBadges(c)
    ensures NoDup(r.achievements)
    ensures r == c.(achievements := r.achievements)
  {
    c.(achievements := Dedup(c.achievements + NewBadges(c)))
  }

  /** No identifier is a display name. */
  lemma IdsAreNotNames()
    ensures forall b :: b in Names ==> b !in Ids
  {
  }

  /** The first-chat badge is reported exactly while the stored list is
      empty; on a list holding no identifier each threshold badge is
      reported exactly when its condition holds. */
  lemma BadgeIff(c: Context)
    ensures FirstChat in NewBadges(c) <==> c.achievements == []
    ensures (forall b :: b in c.achievements ==> b !in Ids) ==>
      && (BudgetPlanner in NewBadges(c) <==> BudgetTruthy(c.budget))
      && (FirstSale in NewBadges(c) <==> c.salesCount >= 1)
      && (SpeedDemon in NewBadges(c) <==> c.avgResponseTime < 1800.0)
      && (BulkMaster in NewBadges(c) <==> c.bulkPurchases >= 5)
      && (ProfitPro in NewBadges(c) <==> c.totalProfit >= 500.0)
      && (FeedbackKing in NewBadges(c) <==> c.positiveFeedback >= 10)
  {
    var r := NewBadges(c);
    assert Names[0] in r <==> Rules(c)[0];
    assert Names[1] in r <==> Rules(c)[1];
    assert Names[2] in r <==> Rules(c)[2];
    assert Names[3] in r <==> Rules(c)[3];
    assert Names[4] in r <==> Rules(c)[4];
    assert Names[5] in r <==> Rules(c)[5];
    assert Names[6] in r <==> Rules(c)[6];
    assert BudgetSetId in Ids && FirstSaleId in Ids && QuickResponseId in Ids;
    assert BulkBuyerId in Ids && ProfitMakerId in Ids && FeedbackKingId in Ids;
  }

  /** The stored list gains no identifier, so a list that had none keeps having none. */
  lemma EvaluatedHasNoIds(c: Context)
    requires forall b :: b in c.achievements ==> b !in Ids
    ensures forall b :: b in Evaluated(c).achievements ==> b !in Ids
  {
    IdsAreNotNames();
  }

  /** Evaluation adds display names only, so it changes no identifier's
      membership, and it leaves the list non-empty. */
  lemma EvaluatedIds(c: Context)
    ensures forall id :: id in Ids ==> (id in Evaluated(c).achievements <==> id in c.achievements)
    ensures Evaluated(c).achievements != []
  {
    var e := Evaluated(c);
    IdsAreNotNames();
    if c.achievements != [] {
      assert c.achievements[0] in e.achievements;
    } else {
      assert Names[0] in NewBadges(c);
      assert FirstChat in e.achievements;
    }
  }

  /** The threshold rules see the same flags before and after evaluation. */
  lemma EvaluatedRules(c: Context)
    ensures forall k :: 1 <= k < |Names| ==> Rules(Evaluated(c))[k] == Rules(c)[k]
  {
    EvaluatedIds(c);
    assert BudgetSetId in Ids && FirstSaleId in Ids && QuickResponseId in Ids;
    assert BulkBuyerId in Ids && ProfitMakerId in Ids && FeedbackKingId in Ids;
  }

  /** Evaluating again reports every threshold badge of the first evaluation
      again, and never the first-chat badge. */
  lemma ReReported(c: Context)
    ensures NewBadges(Evaluated(c)) == ThresholdBadges(c)
  {
    var e := Evaluated(c);
    EvaluatedIds(c);
    EvaluatedRules(c);
    PickedSame(Rules(e), Rules(c), Names, 1, |Names|);
  }

  /** The badges already stored are kept, and every reported badge is stored. */
  lemma EvaluatedKeeps(c: Context)
    ensures forall b :: b in c.achievements ==> b in Evaluated(c).achievements
    ensures forall b :: b in NewBadges(c) ==> b in Evaluated(c).achievements
    ensures |Evaluated(c).achievements| <= |c.achievements| + |NewBadges(c)|
  {
  }
}
