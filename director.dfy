/** The stage director, the decision part of `get_next_question`: a prompt
    chosen by conversation stage, budget tier, experience level or last
    topic, replaced by a promotional line in the experience and follow-up
    stages when the promotion flag is set and the promotion context names
    one of the promotions. */
module Director {
  import opened Wrappers
  import opened Text
  import opened Conversation
  import Signals

  const InitialQuestion := "Hey! What's your budget for starting out? "
  const InterestsQuestion := "Have you sold anything like this before? "

  /** The three budget templates, each written as the text before and after
      its single `${budget}` placeholder. */
  const LowHead := "Perfect! With "
  const LowTail := ", I recommend starting with AirPods - they're only $10.90 to buy and you can sell them for $60-80! Want me to explain how? "
  const MediumHead := "Nice! "
  const MediumTail := " is a good start. Are you interested in electronics like AirPods, or fashion items like designer clothes? "
  const HighHead := "Awesome! "
  const HighTail := " gives you lots of options. What catches your interest more: electronics, fashion, or luxury items? "

  const BeginnerQuestion := "No worries! Everyone starts somewhere. Want some tips on how to get your first sale? "
  const ExperienceQuestions: seq<(string, string)> := [
    ("beginner", BeginnerQuestion),
    ("intermediate", "Great experience! Ready to learn some pro strategies to boost your profits? "),
    ("advanced", "Impressive! Would you like to explore some advanced scaling techniques? ")
  ]

  const DefaultFollowUp := "What specific part would you like to know more about? "
  const FollowUpQuestions: seq<(string, string)> := [
    ("default", DefaultFollowUp),
    ("product", "Want to see the current best-selling items in this category? "),
    ("pricing", "Would you like some pricing strategies for maximum profit? "),
    ("supplier", "Should I tell you about our exclusive supplier network? ")
  ]

  const ScalePromotion := "Ready to scale up? Our InvexPro app can help with that! Want to learn more? "
  const Promotions: seq<(string, string)> := [
    ("track your inventory", "BTW, our InvexPro app makes tracking inventory super easy! Want to check it out? "),
    ("track packages", "Quick tip: our InvexPro app can handle all your tracking needs! Interested? "),
    ("access exclusive suppliers", "Hey, want access to our exclusive supplier network through InvexPro? "),
    ("scale your business", ScalePromotion),
    ("calculate profits", "BTW, InvexPro can auto-calculate all your profits! Interested? "),
    ("manage customer", "Pro tip: InvexPro makes customer management a breeze! Want to see how? ")
  ]

  datatype Tier = Low | Medium | High

  function BudgetTier(b: real): (t: Tier)
    ensures t == Low <==> b <= 20.0
    ensures t == Medium <==> 20.0 < b < 200.0
    ensures t == High <==> 200.0 <= b
  {
    if b <= 20.0 then Low else if b < 200.0 then Medium else High
  }

  /** The text around the placeholder of a tier's template. */
  function TierText(t: Tier): (string, string)
  {
    match t
    case Low => (LowHead, LowTail)
    case Medium => (MediumHead, MediumTail)
    case High => (HighHead, HighTail)
  }

  /** The budget prompt with the placeholder replaced by `'$' + str(b)`;
      `render` is Python's rendering of a float. */
  function BudgetQuestion(b: real, render: real -> string): (r: string)
    ensures exists i :: OccursAt(r, "$" + render(b), i)
  {
    var (head, tail) := TierText(BudgetTier(b));
    DollarBetween(head, render(b), tail);
    head + "$" + render(b) + tail
  }

  lemma DollarBetween(head: string, x: string, tail: string)
    ensures OccursAt(head + "$" + x + tail, "$" + x, |head|)
  {
    assert (head + "$" + x + tail)[|head|..|head| + 1 + |x|] == "$" + x;
  }

  /** `table.get(key, default)` on a table without repeated keys. */
  function Lookup(t: seq<(string, string)>, key: string, default: string): (r: string)
    ensures (forall j :: 0 <= j < |t| ==> t[j].0 != key) ==> r == default
    ensures forall j :: 0 <= j < |t| && t[j].0 == key && (forall k :: 0 <= k < j ==> t[k].0 != key) ==> r == t[j].1
  {
    if t == [] then default
    else if t[0].0 == key then t[0].1
    else
      var r := Lookup(t[1..], key, default);
      assert forall j :: 1 <= j < |t| ==> t[1..][j - 1] == t[j];
      r
  }

  /** `questions['experience_set'].get(level, beginner)`; `None` is no key. */
  function ExperienceQuestion(level: Option<string>): (r: string)
    ensures level == Some("intermediate") ==> r == ExperienceQuestions[1].1
    ensures level == Some("advanced") ==> r == ExperienceQuestions[2].1
    ensures level != Some("intermediate") && level != Some("advanced") ==> r == BeginnerQuestion
  {
    match level
    case None => BeginnerQuestion
    case Some(l) => Lookup(ExperienceQuestions, l, BeginnerQuestion)
  }

  /** `questions['follow_up'].get(topic, default)`; `None` is no key. */
  function FollowUpQuestion(topic: Option<string>): (r: string)
    ensures topic == Some("product") ==> r == FollowUpQuestions[1].1
    ensures topic == Some("pricing") ==> r == FollowUpQuestions[2].1
    ensures topic == Some("supplier") ==> r == FollowUpQuestions[3].1
    ensures topic != Some("product") && topic != Some("pricing") && topic != Some("supplier") ==> r == DefaultFollowUp
  {
    match topic
    case None => DefaultFollowUp
    case Some(t) => Lookup(FollowUpQuestions, t, DefaultFollowUp)
  }

  /** The prompt for the stage before any promotion; `None` where Python
      raises `TypeError` by comparing a `None` budget with 20. */
  function StageQuestion(c: Context, render: real -> string): (r: Option<string>)
    ensures r.None? <==> c.conversationStage == BudgetSet && c.budget.None?
    ensures c.conversationStage == Initial ==> r == Some(InitialQuestion)
    ensures c.conversationStage == InterestsSet ==> r == Some(InterestsQuestion)
    ensures c.conversationStage == ExperienceSet ==> r == Some(ExperienceQuestion(c.experienceLevel))
    ensures c.conversationStage == FollowUp ==> r == Some(FollowUpQuestion(c.lastTopic))
  {
    var stage := c.conversationStage;
    if stage == BudgetSet then
      (match c.budget
       case None => None
       case Some(b) => Some(BudgetQuestion(b, render)))
    else if stage == ExperienceSet then Some(ExperienceQuestion(c.experienceLevel))
    else if stage == FollowUp then Some(FollowUpQuestion(c.lastTopic))
    else if stage == Initial then Some(InitialQuestion)
    else if stage == InterestsSet then Some(InterestsQuestion)
    else Some(DefaultFollowUp)
  }

  /** The first promotion, in table order, whose key occurs in `text`. */
  function FirstPromotion(t: seq<(string, string)>, text: string): (r: Option<string>)
    ensures r.Some? ==> exists j :: 0 <= j < |t| && Contains(text, t[j].0) && r.value == t[j].1
  {
    if t == [] then None
    else if Contains(text, t[0].0) then Some(t[0].1)
    else
      var r := FirstPromotion(t[1..], text);
      assert r.Some? ==> exists j :: 1 <= j < |t| && Contains(text, t[j].0) && r.value == t[j].1 by {
        if r.Some? {
          var j :| 0 <= j < |t[1..]| && Contains(text, t[1..][j].0) && r.value == t[1..][j].1;
          assert t[1..][j] == t[j + 1];
        }
      }
      r
  }

  predicate PromotingStage(stage: string)
  {
    stage == ExperienceSet || stage == FollowUp
  }

  /** `get_next_question` on the context `c` (after its `get_user_context`). */
  function NextQuestion(c: Context, render: real -> string): (r: Option<string>)
    ensures r.None? <==> StageQuestion(c, render).None?
    ensures r != StageQuestion(c, render) ==> c.shouldPromote && PromotingStage(c.conversationStage)
  {
    match StageQuestion(c, render)
    case None => None
    case Some(q) =>
      if c.shouldPromote && PromotingStage(c.conversationStage) then
        match FirstPromotion(Promotions, c.promotionContext)
        case Some(p) => Some(p)
        case None => Some(q)
      else Some(q)
  }

  /** The first key that occurs chooses the promotion. */
  lemma {:induction false} FirstPromotionFirstWins(t: seq<(string, string)>, text: string, j: int)
    requires 0 <= j < |t| && Contains(text, t[j].0)
    requires forall k :: 0 <= k < j ==> !Contains(text, t[k].0)
    ensures FirstPromotion(t, text) == Some(t[j].1)
  {
    if j > 0 {
      assert forall k :: 0 <= k < j - 1 ==> t[1..][k] == t[k + 1];
      FirstPromotionFirstWins(t[1..], text, j - 1);
    }
  }

  /** With no key occurring there is no promotion. */
  lemma {:induction false} FirstPromotionNone(t: seq<(string, string)>, text: string)
    requires forall k :: 0 <= k < |t| ==> !Contains(text, t[k].0)
    ensures FirstPromotion(t, text) == None
  {
    if t != [] {
      assert forall k :: 0 <= k < |t| - 1 ==> t[1..][k] == t[k + 1];
      FirstPromotionNone(t[1..], text);
    }
  }

  /** Stage `budget_set` picks the low template up to 20, the medium one
      below 200 and the high one from 200 on, with the budget substituted. */
  lemma BudgetTiers(c: Context, render: real -> string)
    requires c.conversationStage == BudgetSet && c.budget.Some?
    ensures var b := c.budget.value;
      && (b <= 20.0 ==> NextQuestion(c, render) == Some(LowHead + "$" + render(b) + LowTail))
      && (20.0 < b < 200.0 ==> NextQuestion(c, render) == Some(MediumHead + "$" + render(b) + MediumTail))
      && (200.0 <= b ==> NextQuestion(c, render) == Some(HighHead + "$" + render(b) + HighTail))
  {
  }

  /** The question is missing (Python raises) exactly in stage `budget_set`
      without a budget. */
  lemma RaisesIff(c: Context, render: real -> string)
    ensures NextQuestion(c, render).None? <==> c.conversationStage == BudgetSet && c.budget.None?
  {
  }

  /** Every context reached by merging analyses gets a question. */
  lemma AnalyzedContextHasQuestion(c: Context, render: real -> string)
    requires Signals.BudgetStageHasBudget(c)
    ensures NextQuestion(c, render).Some?
  {
  }

  /** Unknown or missing experience levels and topics fall back to the
      beginner and the default prompts; an unknown stage gets the follow-up
      default and never a promotion. */
  lemma Fallbacks(c: Context, render: real -> string)
    ensures (c.experienceLevel.None? || c.experienceLevel.value !in {"beginner", "intermediate", "advanced"}) ==>
              ExperienceQuestion(c.experienceLevel) == BeginnerQuestion
    ensures (c.lastTopic.None? || c.lastTopic.value !in {"default", "product", "pricing", "supplier"}) ==>
              FollowUpQuestion(c.lastTopic) == DefaultFollowUp
    ensures c.conversationStage !in {Initial, BudgetSet, InterestsSet, ExperienceSet, FollowUp} ==>
              NextQuestion(c, render) == Some(DefaultFollowUp)
    ensures c.conversationStage == ExperienceSet && !PromotionShown(c)
            && c.experienceLevel != Some("intermediate") && c.experienceLevel != Some("advanced") ==>
              NextQuestion(c, render) == Some(BeginnerQuestion)
    ensures c.conversationStage == FollowUp && !PromotionShown(c)
            && c.lastTopic != Some("product") && c.lastTopic != Some("pricing") && c.lastTopic != Some("supplier") ==>
              NextQuestion(c, render) == Some(DefaultFollowUp)
  {
  }

  /** A promotion replaces the prompt: the flag is set and a key occurs in
      the promotion context (the stage decides whether it is shown). */
  predicate PromotionShown(c: Context)
  {
    c.shouldPromote && FirstPromotion(Promotions, c.promotionContext).Some?
  }

  /** The question the user gets in each stage other than `budget_set`
      (see `BudgetTiers`): the fixed prompts of the initial and interests
      stages, and the level's or topic's prompt unless a promotion is shown. */
  lemma StagePrompts(c: Context, render: real -> string)
    ensures c.conversationStage == Initial ==> NextQuestion(c, render) == Some(InitialQuestion)
    ensures c.conversationStage == InterestsSet ==> NextQuestion(c, render) == Some(InterestsQuestion)
    ensures c.conversationStage == ExperienceSet && !PromotionShown(c) ==>
              NextQuestion(c, render) == Some(ExperienceQuestion(c.experienceLevel))
    ensures c.conversationStage == FollowUp && !PromotionShown(c) ==>
              NextQuestion(c, render) == Some(FollowUpQuestion(c.lastTopic))
  {
  }

  /** A promotional line replaces the prompt exactly when the flag is set,
      the stage is `experience_set` or `follow_up` and a promotion key
      occurs in the promotion context. */
  lemma PromotionOverride(c: Context, render: real -> string)
    ensures c.shouldPromote && PromotingStage(c.conversationStage)
            && FirstPromotion(Promotions, c.promotionContext).Some? ==>
              NextQuestion(c, render) == FirstPromotion(Promotions, c.promotionContext)
    ensures !(c.shouldPromote && PromotingStage(c.conversationStage)
              && FirstPromotion(Promotions, c.promotionContext).Some?) ==>
              NextQuestion(c, render) == StageQuestion(c, render)
  {
  }

  /** A promotion context without `c` names no promotion: every key has one. */
  lemma NoPromotionWithoutC(s: string)
    requires 'c' !in s
    ensures FirstPromotion(Promotions, s) == None
  {
    ContainsChar(s, Promotions[0].0, 3);
    ContainsChar(s, Promotions[1].0, 3);
    ContainsChar(s, Promotions[2].0, 1);
    ContainsChar(s, Promotions[3].0, 1);
    ContainsChar(s, Promotions[4].0, 0);
    ContainsChar(s, Promotions[5].0, 7);
    FirstPromotionNone(Promotions, s);
  }

  /** A text without `k` or `x` that starts with `scale your business`:
      the keys before the scaling one cannot occur in it. */
  predicate SelectsScale(s: string)
  {
    'k' !in s && 'x' !in s && Promotions[3].0 <= s
  }

  /** The scaling promotion is chosen for such a text. */
  lemma ScaleKeyFirst(s: string)
    requires SelectsScale(s)
    ensures FirstPromotion(Promotions, s) == Some(ScalePromotion)
  {
    ContainsChar(s, Promotions[0].0, 4);
    ContainsChar(s, Promotions[1].0, 4);
    ContainsChar(s, Promotions[2].0, 8);
    FirstPromotionFirstWins(Promotions, s, 3);
  }

  /** The budget rule's promotion context is such a text. */
  lemma ScalePhraseSelectsScale()
    ensures SelectsScale(Signals.ScalePhrase)
  {
  }

  /** A promotion context that selects the scaling promotion, in a promoting
      stage with the flag set, replaces the prompt by the scaling line. */
  lemma ScalePromotionShown(c: Context, render: real -> string)
    requires c.shouldPromote && PromotingStage(c.conversationStage)
    requires SelectsScale(c.promotionContext)
    ensures NextQuestion(c, render) == Some(ScalePromotion)
  {
    ScaleKeyFirst(c.promotionContext);
  }

  /** `s` has its only `c` at `p` and no `y`, `x` or `u`: `track packages`
      needs two `c` and every other key has one of those letters. */
  predicate SelectsNone(s: string, p: int)
  {
    0 <= p < |s| && s[p] == 'c' && forall i :: 0 <= i < |s| && i != p ==> s[i] !in "cyxu"
  }

  /** No promotion is chosen for such a text. */
  lemma SingleCNoPromotion(s: string, p: int)
    requires SelectsNone(s, p)
    ensures FirstPromotion(Promotions, s) == None
  {
    forall i | 0 <= i < |s|
      ensures s[i] != 'y' && s[i] != 'x' && s[i] != 'u'
      ensures s[i] == 'c' ==> i == p
    {
      if i != p {
        assert s[i] !in "cyxu";
      }
    }
    assert 'y' !in s && 'x' !in s && 'u' !in s;
    assert !Contains(s, Promotions[0].0) by { ContainsChar(s, Promotions[0].0, 6); }
    assert !Contains(s, Promotions[1].0) by { ContainsTwoChars(s, Promotions[1].0, 3, 8); }
    assert !Contains(s, Promotions[2].0) by { ContainsChar(s, Promotions[2].0, 8); }
    assert !Contains(s, Promotions[3].0) by { ContainsChar(s, Promotions[3].0, 6); }
    assert !Contains(s, Promotions[4].0) by { ContainsChar(s, Promotions[4].0, 4); }
    assert !Contains(s, Promotions[5].0) by { ContainsChar(s, Promotions[5].0, 8); }
    FirstPromotionNone(Promotions, s);
  }

  /** The context of the `shipping` trigger has its only `c` at index 3 and
      selects no promotion. */
  lemma ShippingSelectsNone()
    ensures SelectsNone(Signals.PromotionTriggers[6].1, 3)
  {
  }

  /** The experience rule's promotion context has no `c`, so no key occurs in it. */
  lemma NextLevelHasNoC()
    ensures 'c' !in Signals.NextLevelPhrase
  {
  }

  /** A promotion context that selects nothing leaves the stage prompt. */
  lemma NoPromotionShown(c: Context, render: real -> string, p: int)
    requires 'c' !in c.promotionContext || SelectsNone(c.promotionContext, p)
    ensures NextQuestion(c, render) == StageQuestion(c, render)
  {
    if 'c' !in c.promotionContext {
      NoPromotionWithoutC(c.promotionContext);
    } else {
      SingleCNoPromotion(c.promotionContext, p);
    }
  }

  /** The remaining lemmas give the promotion each promotion context
      selects. A context starting with the key of a promotion selects it
      when it lacks a letter of every earlier key. */
  lemma InventoryContextPromotion()
    ensures FirstPromotion(Promotions, Signals.PromotionTriggers[0].1) == Some(Promotions[0].1)
  {
    assert Promotions[0].0 <= Signals.PromotionTriggers[0].1;
  }

  lemma TrackingKeyFirst(s: string)
    requires 'y' !in s && Promotions[1].0 <= s
    ensures FirstPromotion(Promotions, s) == Some(Promotions[1].1)
  {
    ContainsChar(s, Promotions[0].0, 6);
    FirstPromotionFirstWins(Promotions, s, 1);
  }

  lemma TrackingContextLetters(s: string)
    requires s == "track packages, sales" + ", and customer data"
    ensures 'y' !in s
  {
    var a, b := "track packages, sales", ", and customer data";
    assert 'y' !in a;
    assert 'y' !in b;
  }

  lemma TrackingContextSplit()
    ensures Signals.PromotionTriggers[1].1 == "track packages, sales" + ", and customer data"
  {
  }

  lemma TrackingContextPromotion()
    ensures FirstPromotion(Promotions, Signals.PromotionTriggers[1].1) == Some(Promotions[1].1)
  {
    var s := Signals.PromotionTriggers[1].1;
    TrackingContextSplit();
    TrackingContextLetters(s);
    assert Promotions[1].0 <= s;
    TrackingKeyFirst(s);
  }

  lemma SupplierKeyFirst(s: string)
    requires 'k' !in s && Promotions[2].0 <= s
    ensures FirstPromotion(Promotions, s) == Some(Promotions[2].1)
  {
    ContainsChar(s, Promotions[0].0, 4);
    ContainsChar(s, Promotions[1].0, 4);
    FirstPromotionFirstWins(Promotions, s, 2);
  }

  lemma SupplierContextLetters(s: string)
    requires s == "access exclusive suppliers" + " with 2-day delivery"
    ensures 'k' !in s
  {
    var a, b := "access exclusive suppliers", " with 2-day delivery";
    assert 'k' !in a;
    assert 'k' !in b;
  }

  lemma SupplierContextSplit()
    ensures Signals.PromotionTriggers[2].1 == "access exclusive suppliers" + " with 2-day delivery"
  {
  }

  lemma SupplierContextPromotion()
    ensures FirstPromotion(Promotions, Signals.PromotionTriggers[2].1) == Some(Promotions[2].1)
  {
    var s := Signals.PromotionTriggers[2].1;
    SupplierContextSplit();
    SupplierContextLetters(s);
    assert Promotions[2].0 <= s;
    SupplierKeyFirst(s);
  }

  lemma ScalingContextLetters(s: string)
    requires s == "scale your business" + " with automated tools"
    ensures 'k' !in s && 'x' !in s
  {
    var a, b := "scale your business", " with automated tools";
    assert 'k' !in a && 'x' !in a;
    assert 'k' !in b && 'x' !in b;
  }

  lemma ScalingContextSplit()
    ensures Signals.PromotionTriggers[3].1 == "scale your business" + " with automated tools"
  {
  }

  lemma ScalingContextPromotion()
    ensures FirstPromotion(Promotions, Signals.PromotionTriggers[3].1) == Some(ScalePromotion)
  {
    var s := Signals.PromotionTriggers[3].1;
    ScalingContextSplit();
    ScalingContextLetters(s);
    assert Promotions[3].0 <= s;
    ScaleKeyFirst(s);
  }

  lemma ProfitKeyFirst(s: string)
    requires 'y' !in s && 'g' !in s && 'v' !in s && Promotions[4].0 <= s
    ensures FirstPromotion(Promotions, s) == Some(Promotions[4].1)
  {
    ContainsChar(s, Promotions[0].0, 6);
    ContainsChar(s, Promotions[1].0, 11);
    ContainsChar(s, Promotions[2].0, 14);
    ContainsChar(s, Promotions[3].0, 6);
    FirstPromotionFirstWins(Promotions, s, 4);
  }

  lemma ProfitContextLetters(s: string)
    requires s == "calculate profits" + " and track expenses"
    ensures 'y' !in s && 'g' !in s && 'v' !in s
  {
    var a, b := "calculate profits", " and track expenses";
    assert 'y' !in a && 'g' !in a && 'v' !in a;
    assert 'y' !in b && 'g' !in b && 'v' !in b;
  }

  lemma ProfitContextSplit()
    ensures Signals.PromotionTriggers[4].1 == "calculate profits" + " and track expenses"
  {
  }

  lemma ProfitContextPromotion()
    ensures FirstPromotion(Promotions, Signals.PromotionTriggers[4].1) == Some(Promotions[4].1)
  {
    var s := Signals.PromotionTriggers[4].1;
    ProfitContextSplit();
    ProfitContextLetters(s);
    assert Promotions[4].0 <= s;
    ProfitKeyFirst(s);
  }

  lemma CustomerKeyFirst(s: string)
    requires 'k' !in s && 'x' !in s && 'y' !in s && 'f' !in s && Promotions[5].0 <= s
    ensures FirstPromotion(Promotions, s) == Some(Promotions[5].1)
  {
    ContainsChar(s, Promotions[0].0, 4);
    ContainsChar(s, Promotions[1].0, 4);
    ContainsChar(s, Promotions[2].0, 8);
    ContainsChar(s, Promotions[3].0, 6);
    ContainsChar(s, Promotions[4].0, 13);
    FirstPromotionFirstWins(Promotions, s, 5);
  }

  lemma CustomerContextLetters(s: string)
    requires s == "manage customer" + " relationships"
    ensures 'k' !in s && 'x' !in s && 'y' !in s && 'f' !in s
  {
    var a, b := "manage customer", " relationships";
    assert 'k' !in a && 'x' !in a && 'y' !in a && 'f' !in a;
    assert 'k' !in b && 'x' !in b && 'y' !in b && 'f' !in b;
  }

  lemma CustomerContextSplit()
    ensures Signals.PromotionTriggers[5].1 == "manage customer" + " relationships"
  {
  }

  lemma CustomerContextPromotion()
    ensures FirstPromotion(Promotions, Signals.PromotionTriggers[5].1) == Some(Promotions[5].1)
  {
    var s := Signals.PromotionTriggers[5].1;
    CustomerContextSplit();
    CustomerContextLetters(s);
    assert Promotions[5].0 <= s;
    CustomerKeyFirst(s);
  }

  lemma ShippingContextPromotion()
    ensures FirstPromotion(Promotions, Signals.PromotionTriggers[6].1) == None
  {
    ShippingSelectsNone();
    SingleCNoPromotion(Signals.PromotionTriggers[6].1, 3);
  }

  lemma BudgetContextPromotion()
    ensures FirstPromotion(Promotions, Signals.ScalePhrase) == Some(ScalePromotion)
  {
    ScalePhraseSelectsScale();
    ScaleKeyFirst(Signals.ScalePhrase);
  }

  lemma ExperienceContextPromotion()
    ensures FirstPromotion(Promotions, Signals.NextLevelPhrase) == None
  {
    NextLevelHasNoC();
    NoPromotionWithoutC(Signals.NextLevelPhrase);
  }

  /** The promotion each promotion context selects: the six triggers from
      `inventory` to `customer` and the budget rule select the promotion of
      the matching key, the `shipping` trigger and the experience rule
      select none. */
  lemma ContextPromotions()
    ensures FirstPromotion(Promotions, Signals.PromotionTriggers[0].1) == Some(Promotions[0].1)
    ensures FirstPromotion(Promotions, Signals.PromotionTriggers[1].1) == Some(Promotions[1].1)
    ensures FirstPromotion(Promotions, Signals.PromotionTriggers[2].1) == Some(Promotions[2].1)
    ensures FirstPromotion(Promotions, Signals.PromotionTriggers[3].1) == Some(ScalePromotion)
    ensures FirstPromotion(Promotions, Signals.PromotionTriggers[4].1) == Some(Promotions[4].1)
    ensures FirstPromotion(Promotions, Signals.PromotionTriggers[5].1) == Some(Promotions[5].1)
    ensures FirstPromotion(Promotions, Signals.PromotionTriggers[6].1) == None
    ensures FirstPromotion(Promotions, Signals.ScalePhrase) == Some(ScalePromotion)
    ensures FirstPromotion(Promotions, Signals.NextLevelPhrase) == None
  {
    InventoryContextPromotion();
    TrackingContextPromotion();
    SupplierContextPromotion();
    ScalingContextPromotion();
    ProfitContextPromotion();
    CustomerContextPromotion();
    ShippingContextPromotion();
    BudgetContextPromotion();
    ExperienceContextPromotion();
  }
}
