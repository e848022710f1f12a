/** The signal extractor of `analyze_message`: keyword tables in the order
    Python iterates them, and the updates dictionary the four rule families
    build, each family a fold over its table in which a later match
    overwrites an earlier one. */
module Signals {
  import opened Wrappers
  import opened Text
  import opened Numbers
  import opened Conversation

  /** Promotion triggers: keyword and the promotion context it selects. */
  const PromotionTriggers: seq<(string, string)> := [
    ("inventory", "track your inventory and manage stock levels"),
    ("tracking", "track packages, sales, and customer data"),
    ("supplier", "access exclusive suppliers with 2-day delivery"),
    ("scaling", "scale your business with automated tools"),
    ("profit", "calculate profits and track expenses"),
    ("customer", "manage customer relationships"),
    ("shipping", "track shipments and manage deliveries")
  ]

  const BudgetWords: seq<string> := ["budget", "spend", "invest", "$"]

  /** Promotion context of a budget above 100. */
  const ScalePhrase := "scale your business efficiently"

  /** Promotion context of an intermediate or advanced seller. */
  const NextLevelPhrase := "take your business to the next level"

  const ProductKeywords: seq<(string, seq<string>)> := [
    ("electronics", ["electronics", "airpods", "phones", "gadgets", "tech"]),
    ("fashion", ["clothes", "fashion", "shoes", "apparel", "wear"]),
    ("accessories", ["accessories", "watches", "jewelry", "bags"])
  ]

  const ExperienceKeywords: seq<(string, seq<string>)> := [
    ("beginner", ["new", "beginner", "starting", "never", "first time"]),
    ("intermediate", ["some", "few months", "year"]),
    ("advanced", ["experienced", "professional", "years"])
  ]

  predicate PromotingLevel(level: string)
  {
    level == "intermediate" || level == "advanced"
  }

  // ----- promotion triggers -----

  predicate AnyTrigger(t: seq<(string, string)>, lower: string)
  {
    exists j :: 0 <= j < |t| && Contains(lower, t[j].0)
  }

  /** The trigger loop over the table `t`, starting from the updates `u`. */
  function Triggers(t: seq<(string, string)>, lower: string, u: Updates): (r: Updates)
    ensures r == u.(shouldPromote := r.shouldPromote, promotionContext := r.promotionContext)
    ensures r.shouldPromote == u.shouldPromote || r.shouldPromote == Some(true)
  {
    if t == [] then u
    else
      var prev := Triggers(t[..|t| - 1], lower, u);
      if Contains(lower, t[|t| - 1].0)
      then prev.(shouldPromote := Some(true), promotionContext := Some(t[|t| - 1].1))
      else prev
  }

  /** The trigger loop writes only the two promotion keys, and sets the flag
      exactly when some trigger occurs. */
  lemma {:induction false} TriggersEffect(t: seq<(string, string)>, lower: string, u: Updates)
    ensures !AnyTrigger(t, lower) ==> Triggers(t, lower, u) == u
    ensures AnyTrigger(t, lower) ==>
      Triggers(t, lower, u) == u.(shouldPromote := Some(true),
                                  promotionContext := Triggers(t, lower, u).promotionContext)
  {
    if t != [] {
      var t' := t[..|t| - 1];
      TriggersEffect(t', lower, u);
      assert forall j :: 0 <= j < |t'| ==> t'[j] == t[j];
      if AnyTrigger(t, lower) && !Contains(lower, t[|t| - 1].0) {
        var j :| 0 <= j < |t| && Contains(lower, t[j].0);
        assert AnyTrigger(t', lower);
      }
      if AnyTrigger(t', lower) {
        var j :| 0 <= j < |t'| && Contains(lower, t'[j].0);
        assert Contains(lower, t[j].0);
      }
    }
  }

  /** When several triggers occur, the last one in table order chooses the
      promotion context. */
  lemma {:induction false} TriggersLastWins(t: seq<(string, string)>, lower: string, u: Updates, j: int)
    requires 0 <= j < |t| && Contains(lower, t[j].0)
    requires forall k :: j < k < |t| ==> !Contains(lower, t[k].0)
    ensures Triggers(t, lower, u).promotionContext == Some(t[j].1)
  {
    if j < |t| - 1 {
      var t' := t[..|t| - 1];
      assert forall k :: j < k < |t'| ==> t'[k] == t[k];
      TriggersLastWins(t', lower, u, j);
    }
  }

  // ----- budget -----

  /** The budget rule's amount: a budget word occurs and the scan finds a number.
      `AnalyzeBudget` states what it means for the analysis. */
  function BudgetSignal(message: string, lower: string): (r: Option<real>)
    ensures r.Some? <==> ContainsAny(lower, BudgetWords) && FirstAmount(message).Some?
    ensures r.Some? ==> r == FirstAmount(message)
  {
    if ContainsAny(lower, BudgetWords) then FirstAmount(message) else None
  }

  /** The budget rule: record the amount and stage `budget_set`, and
      above 100 the scaling promotion. */
  function BudgetStep(u: Updates, message: string, lower: string): (r: Updates)
    ensures BudgetSignal(message, lower).None? ==> r == u
    ensures BudgetSignal(message, lower).Some? ==>
      && r.budget == Some(BudgetSignal(message, lower))
      && r.conversationStage == Some(BudgetSet)
      && r == u.(budget := r.budget, conversationStage := r.conversationStage,
                 shouldPromote := r.shouldPromote, promotionContext := r.promotionContext)
    ensures r.promotionContext != u.promotionContext ==> r.promotionContext == Some(ScalePhrase)
    ensures r.shouldPromote == u.shouldPromote || r.shouldPromote == Some(true)
  {
    match BudgetSignal(message, lower)
    case None => u
    case Some(a) =>
      var v := u.(budget := Some(Some(a)), conversationStage := Some(BudgetSet));
      if a > 100.0 then v.(shouldPromote := Some(true), promotionContext := Some(ScalePhrase)) else v
  }

  // ----- interests -----

  /** The stored interests after the interest loop over `t`: a category whose
      keywords occur is appended unless it is already there. */
  function InterestsAfter(t: seq<(string, seq<string>)>, lower: string, base: seq<string>): (r: seq<string>)
    ensures base <= r && |r| <= |base| + |t|
  {
    if t == [] then base
    else
      var prev := InterestsAfter(t[..|t| - 1], lower, base);
      var (category, keywords) := t[|t| - 1];
      if ContainsAny(lower, keywords) && category !in prev then prev + [category] else prev
  }

  predicate AnyCategory(t: seq<(string, seq<string>)>, lower: string)
  {
    exists j :: 0 <= j < |t| && ContainsAny(lower, t[j].1)
  }

  /** The interest loop only appends; a category ends up in the list iff it
      was there or its keywords occur; no duplicate is ever introduced. */
  lemma {:induction false} InterestsAfterSpec(t: seq<(string, seq<string>)>, lower: string, base: seq<string>)
    ensures base <= InterestsAfter(t, lower, base)
    ensures forall c :: c in InterestsAfter(t, lower, base) <==>
              c in base || exists j :: 0 <= j < |t| && t[j].0 == c && ContainsAny(lower, t[j].1)
    ensures NoDup(base) ==> NoDup(InterestsAfter(t, lower, base))
  {
    if t != [] {
      var t' := t[..|t| - 1];
      InterestsAfterSpec(t', lower, base);
      assert forall j :: 0 <= j < |t'| ==> t'[j] == t[j];
      var prev := InterestsAfter(t', lower, base);
      forall c | c in InterestsAfter(t, lower, base)
        ensures c in base || exists j :: 0 <= j < |t| && t[j].0 == c && ContainsAny(lower, t[j].1)
      {
        if c !in prev {
          assert t[|t| - 1].0 == c && ContainsAny(lower, t[|t| - 1].1);
        }
      }
      forall c | c in base || exists j :: 0 <= j < |t| && t[j].0 == c && ContainsAny(lower, t[j].1)
        ensures c in InterestsAfter(t, lower, base)
      {
        if c !in base {
          var j :| 0 <= j < |t| && t[j].0 == c && ContainsAny(lower, t[j].1);
          if j < |t| - 1 {
            assert t'[j].0 == c;
          }
        }
      }
    }
  }

  /** Interests are added by the loop exactly when a category whose keywords
      occur is not yet stored. */
  lemma {:induction false} InterestsGrowIff(t: seq<(string, seq<string>)>, lower: string, base: seq<string>)
    ensures |InterestsAfter(t, lower, base)| > |base| <==>
              exists j :: 0 <= j < |t| && ContainsAny(lower, t[j].1) && t[j].0 !in base
  {
    InterestsAfterSpec(t, lower, base);
    var r := InterestsAfter(t, lower, base);
    if |r| > |base| {
      GrowthWitness(t, lower, base);
    }
    if exists j :: 0 <= j < |t| && ContainsAny(lower, t[j].1) && t[j].0 !in base {
      var j :| 0 <= j < |t| && ContainsAny(lower, t[j].1) && t[j].0 !in base;
      assert t[j].0 in r;
      assert r != base;
    }
  }

  lemma {:induction false} GrowthWitness(t: seq<(string, seq<string>)>, lower: string, base: seq<string>)
    requires |InterestsAfter(t, lower, base)| > |base|
    ensures exists j :: 0 <= j < |t| && ContainsAny(lower, t[j].1) && t[j].0 !in base
  {
    var t' := t[..|t| - 1];
    var prev := InterestsAfter(t', lower, base);
    assert forall j :: 0 <= j < |t'| ==> t'[j] == t[j];
    if |prev| > |base| {
      GrowthWitness(t', lower, base);
      var j :| 0 <= j < |t'| && ContainsAny(lower, t'[j].1) && t'[j].0 !in base;
      assert ContainsAny(lower, t[j].1) && t[j].0 !in base;
    } else {
      InterestsAfterSpec(t', lower, base);
      assert prev == base;
      assert t[|t| - 1].0 !in base;
    }
  }

  /** The interest rule writes the list and stage `interests_set` only
      when the loop added a category. `InterestsAfterSpec` and
      `InterestsGrowIff` state what the written list and the write mean. */
  function InterestUpdates(u: Updates, base: seq<string>, interests: seq<string>): (r: Updates)
    ensures r == u.(interests := r.interests, conversationStage := r.conversationStage)
    ensures |interests| > |base| ==> r.interests == Some(interests) && r.conversationStage == Some(InterestsSet)
    ensures |interests| <= |base| ==> r == u
  {
    if |interests| > |base| then u.(interests := Some(interests), conversationStage := Some(InterestsSet)) else u
  }

  // ----- experience -----

  predicate AnyLevel(t: seq<(string, seq<string>)>, lower: string)
  {
    exists j :: 0 <= j < |t| && ContainsAny(lower, t[j].1)
  }

  predicate LevelPromotes(t: seq<(string, seq<string>)>, lower: string)
  {
    exists j :: 0 <= j < |t| && ContainsAny(lower, t[j].1) && PromotingLevel(t[j].0)
  }

  /** One level of the experience loop: a keyword of `level` records the
      level and stage `experience_set`, and promotes an intermediate or
      advanced level. */
  function ExperienceStep(u: Updates, level: string, keywords: seq<string>, lower: string): (r: Updates)
    ensures !ContainsAny(lower, keywords) ==> r == u
    ensures ContainsAny(lower, keywords) ==>
      r.experienceLevel == Some(Some(level)) && r.conversationStage == Some(ExperienceSet)
    ensures r == u.(experienceLevel := r.experienceLevel, conversationStage := r.conversationStage,
                    shouldPromote := r.shouldPromote, promotionContext := r.promotionContext)
    ensures r.shouldPromote != u.shouldPromote || r.promotionContext != u.promotionContext ==> PromotingLevel(level)
    ensures r.shouldPromote == u.shouldPromote || r.shouldPromote == Some(true)
  {
    if ContainsAny(lower, keywords) then
      var v := u.(experienceLevel := Some(Some(level)), conversationStage := Some(ExperienceSet));
      if PromotingLevel(level) then v.(shouldPromote := Some(true), promotionContext := Some(NextLevelPhrase)) else v
    else u
  }

  /** The experience loop over the table `t`, starting from the updates `u`. */
  function Experience(t: seq<(string, seq<string>)>, lower: string, u: Updates): (r: Updates)
    ensures r == u.(experienceLevel := r.experienceLevel, conversationStage := r.conversationStage,
                    shouldPromote := r.shouldPromote, promotionContext := r.promotionContext)
    ensures r.shouldPromote == u.shouldPromote || r.shouldPromote == Some(true)
  {
    if t == [] then u
    else ExperienceStep(Experience(t[..|t| - 1], lower, u), t[|t| - 1].0, t[|t| - 1].1, lower)
  }

  /** The experience loop writes the level and the stage when some level
      matches, and the promotion keys exactly when an intermediate or
      advanced level matches; nothing else. */
  lemma {:induction false} ExperienceEffect(t: seq<(string, seq<string>)>, lower: string, u: Updates)
    ensures !AnyLevel(t, lower) ==> Experience(t, lower, u) == u
    ensures AnyLevel(t, lower) ==> Experience(t, lower, u).conversationStage == Some(ExperienceSet)
    ensures Experience(t, lower, u) == u.(
      experienceLevel := Experience(t, lower, u).experienceLevel,
      conversationStage := Experience(t, lower, u).conversationStage,
      shouldPromote := if LevelPromotes(t, lower) then Some(true) else u.shouldPromote,
      promotionContext := if LevelPromotes(t, lower) then Some(NextLevelPhrase) else u.promotionContext)
  {
    if t != [] {
      var t' := t[..|t| - 1];
      ExperienceEffect(t', lower, u);
      assert forall j :: 0 <= j < |t'| ==> t'[j] == t[j];
      var last := |t| - 1;
      if AnyLevel(t, lower) && !ContainsAny(lower, t[last].1) {
        var j :| 0 <= j < |t| && ContainsAny(lower, t[j].1);
        assert AnyLevel(t', lower);
      }
      if AnyLevel(t', lower) {
        var j :| 0 <= j < |t'| && ContainsAny(lower, t'[j].1);
        assert ContainsAny(lower, t[j].1);
      }
      if LevelPromotes(t, lower) && !(ContainsAny(lower, t[last].1) && PromotingLevel(t[last].0)) {
        var j :| 0 <= j < |t| && ContainsAny(lower, t[j].1) && PromotingLevel(t[j].0);
        assert LevelPromotes(t', lower);
      }
      if LevelPromotes(t', lower) {
        var j :| 0 <= j < |t'| && ContainsAny(lower, t'[j].1) && PromotingLevel(t'[j].0);
        assert ContainsAny(lower, t[j].1) && PromotingLevel(t[j].0);
      }
    }
  }

  /** When keywords of several levels occur, the last level in table order is recorded. */
  lemma {:induction false} ExperienceLastWins(t: seq<(string, seq<string>)>, lower: string, u: Updates, j: int)
    requires 0 <= j < |t| && ContainsAny(lower, t[j].1)
    requires forall k :: j < k < |t| ==> !ContainsAny(lower, t[k].1)
    ensures Experience(t, lower, u).experienceLevel == Some(Some(t[j].0))
  {
    if j < |t| - 1 {
      var t' := t[..|t| - 1];
      assert forall k :: j < k < |t'| ==> t'[k] == t[k];
      ExperienceLastWins(t', lower, u, j);
    }
  }

  // ----- the whole analysis -----

  /** The updates `analyze_message` returns for `message` when the stored
      interests (after the first `get_user_context` of the interest loop)
      are `base`. */
  function Analyze(message: string, base: seq<string>): (r: Updates)
    ensures r == NoUpdates.(shouldPromote := r.shouldPromote, promotionContext := r.promotionContext,
                            budget := r.budget, conversationStage := r.conversationStage,
                            interests := r.interests, experienceLevel := r.experienceLevel)
    ensures r.shouldPromote == None || r.shouldPromote == Some(true)
  {
    var lower := Lower(message);
    var afterTriggers := Triggers(PromotionTriggers, lower, NoUpdates);
    var afterBudget := BudgetStep(afterTriggers, message, lower);
    var afterInterests := InterestUpdates(afterBudget, base, InterestsAfter(ProductKeywords, lower, base));
    Experience(ExperienceKeywords, lower, afterInterests)
  }

  /** The budget key is set iff a budget word occurs and a number is found,
      and it holds the first number of the message. */
  lemma AnalyzeBudget(message: string, base: seq<string>)
    ensures Analyze(message, base).budget ==
      if ContainsAny(Lower(message), BudgetWords) && FirstAmount(message).Some?
      then Some(FirstAmount(message)) else None
  {
    var lower := Lower(message);
    TriggersEffect(PromotionTriggers, lower, NoUpdates);
    var u2 := BudgetStep(Triggers(PromotionTriggers, lower, NoUpdates), message, lower);
    ExperienceEffect(ExperienceKeywords, lower,
      InterestUpdates(u2, base, InterestsAfter(ProductKeywords, lower, base)));
  }

  /** The level key is absent when no level's keyword occurs, and otherwise
      holds the last level in table order whose keyword occurs. */
  lemma AnalyzeExperience(message: string, base: seq<string>)
    ensures !AnyLevel(ExperienceKeywords, Lower(message)) ==> Analyze(message, base).experienceLevel == None
    ensures forall j :: 0 <= j < |ExperienceKeywords| && ContainsAny(Lower(message), ExperienceKeywords[j].1)
                        && (forall k :: j < k < |ExperienceKeywords| ==> !ContainsAny(Lower(message), ExperienceKeywords[k].1)) ==>
              Analyze(message, base).experienceLevel == Some(Some(ExperienceKeywords[j].0))
  {
    var lower := Lower(message);
    var u := InterestUpdates(BudgetStep(Triggers(PromotionTriggers, lower, NoUpdates), message, lower),
                             base, InterestsAfter(ProductKeywords, lower, base));
    assert u.experienceLevel == None;
    ExperienceEffect(ExperienceKeywords, lower, u);
    forall j | 0 <= j < |ExperienceKeywords| && ContainsAny(lower, ExperienceKeywords[j].1)
               && (forall k :: j < k < |ExperienceKeywords| ==> !ContainsAny(lower, ExperienceKeywords[k].1))
      ensures Analyze(message, base).experienceLevel == Some(Some(ExperienceKeywords[j].0))
    {
      ExperienceLastWins(ExperienceKeywords, lower, u, j);
    }
  }

  /** The stage is that of the last rule family that fired: experience, then
      a newly added interest, then the budget rule. */
  lemma AnalyzeStage(message: string, base: seq<string>)
    ensures Analyze(message, base).conversationStage ==
      if AnyLevel(ExperienceKeywords, Lower(message)) then Some(ExperienceSet)
      else if exists j :: 0 <= j < |ProductKeywords| && ContainsAny(Lower(message), ProductKeywords[j].1)
                                                      && ProductKeywords[j].0 !in base
      then Some(InterestsSet)
      else if BudgetSignal(message, Lower(message)).Some? then Some(BudgetSet)
      else None
  {
    var lower := Lower(message);
    TriggersEffect(PromotionTriggers, lower, NoUpdates);
    InterestsGrowIff(ProductKeywords, lower, base);
    var u2 := BudgetStep(Triggers(PromotionTriggers, lower, NoUpdates), message, lower);
    ExperienceEffect(ExperienceKeywords, lower,
      InterestUpdates(u2, base, InterestsAfter(ProductKeywords, lower, base)));
  }

  /** The promotion flag is set iff a trigger occurs, the budget exceeds 100
      or an intermediate or advanced keyword occurs; the context comes from
      the last of these rules that fired. */
  lemma AnalyzePromotion(message: string, base: seq<string>)
    ensures
      var lower := Lower(message);
      var big := BudgetSignal(message, lower).Some? && BudgetSignal(message, lower).value > 100.0;
      var u := Analyze(message, base);
      && u.shouldPromote == (if AnyTrigger(PromotionTriggers, lower) || big || LevelPromotes(ExperienceKeywords, lower)
                             then Some(true) else None)
      && u.promotionContext == (if LevelPromotes(ExperienceKeywords, lower) then Some(NextLevelPhrase)
                                else if big then Some(ScalePhrase)
                                else Triggers(PromotionTriggers, lower, NoUpdates).promotionContext)
      && (!AnyTrigger(PromotionTriggers, lower) ==> Triggers(PromotionTriggers, lower, NoUpdates).promotionContext == None)
  {
    var lower := Lower(message);
    TriggersEffect(PromotionTriggers, lower, NoUpdates);
    var u2 := BudgetStep(Triggers(PromotionTriggers, lower, NoUpdates), message, lower);
    ExperienceEffect(ExperienceKeywords, lower,
      InterestUpdates(u2, base, InterestsAfter(ProductKeywords, lower, base)));
  }

  /** The interests key, when present, is the whole stored list after the
      loop, which never holds a duplicate if it did not before. */
  lemma AnalyzeInterests(message: string, base: seq<string>)
    ensures
      var after := InterestsAfter(ProductKeywords, Lower(message), base);
      && Analyze(message, base).interests == (if |after| > |base| then Some(after) else None)
      && (NoDup(base) ==> NoDup(after))
  {
    var lower := Lower(message);
    TriggersEffect(PromotionTriggers, lower, NoUpdates);
    InterestsAfterSpec(ProductKeywords, lower, base);
    var u2 := BudgetStep(Triggers(PromotionTriggers, lower, NoUpdates), message, lower);
    ExperienceEffect(ExperienceKeywords, lower,
      InterestUpdates(u2, base, InterestsAfter(ProductKeywords, lower, base)));
  }

  /** Stage `budget_set` always comes with a budget. */
  predicate BudgetStageHasBudget(c: Context)
  {
    c.conversationStage == BudgetSet ==> c.budget.Some?
  }

  /** Merging the analysis of any message keeps a budget beside stage `budget_set`. */
  lemma AnalyzeKeepsBudgetStage(c: Context, message: string, base: seq<string>)
    requires BudgetStageHasBudget(c)
    ensures BudgetStageHasBudget(Apply(c, Analyze(message, base)))
  {
    AnalyzeBudget(message, base);
    AnalyzeStage(message, base);
  }
}
