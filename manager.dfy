/** `ConversationManager`: the per-user session store and the operations on
    it. Every method that reads the clock takes the current time `now`
    (microseconds); Python's float rendering and money formatting are the
    parameters `render` and `money`. */
module Manager {
  import opened Wrappers
  import opened Text
  import opened Conversation
  import opened Store
  import Signals
  import Director
  import Achievements
  import Progress
  import Numbers

  class ConversationManager {
    var conversations: map<string, Session>

    constructor()
      ensures conversations == map[]
    {
      conversations := map[];
    }

    /** `_cleanup_expired`: snapshot the expired ids, then delete them one by one. */
    method CleanupExpired(now: int)
      modifies this
      ensures conversations == Sweep(old(conversations), now)
    {
      var expired := set u | u in conversations && Expired(conversations[u], now);
      ghost var m0 := conversations;
      while expired != {}
        invariant expired <= conversations.Keys
        invariant forall u :: u in conversations <==> u in m0 && (!Expired(m0[u], now) || u in expired)
        invariant forall u :: u in conversations ==> conversations[u] == m0[u]
        invariant forall u :: u in expired ==> Expired(m0[u], now)
        decreases |expired|
      {
        var u :| u in expired;
        conversations := map k | k in conversations && k != u :: conversations[k];
        expired := expired - {u};
      }
      assert conversations == Sweep(m0, now);
    }

    /** `get_user_context`: sweep, then create the session or refresh its
        timestamp; the stored context is returned. */
    method GetUserContext(id: string, now: int) returns (ctx: Context)
      modifies this
      ensures conversations == Touch(old(conversations), id, now)
      ensures id in conversations && ctx == conversations[id].context
    {
      CleanupExpired(now);
      if id !in conversations {
        conversations := conversations[id := NewSession(now)];
      } else {
        conversations := conversations[id := conversations[id].(lastUpdated := now)];
      }
      ctx := conversations[id].context;
    }

    /** `update_context`. */
    method UpdateContext(id: string, u: Updates, now: int)
      modifies this
      ensures conversations == Update(old(conversations), id, u, now)
    {
      if id in conversations {
        var s := conversations[id];
        conversations := conversations[id := s.(context := Apply(s.context, u), lastUpdated := now)];
      }
    }

    /** `add_to_history`; Python's default for `is_bot` is `False`. */
    method AddToHistory(id: string, message: string, isBot: bool, now: int)
      modifies this
      ensures conversations == Append(old(conversations), id, message, isBot, now)
    {
      if id in conversations {
        var s := conversations[id];
        conversations := conversations[id := s.(history := s.history + [Entry(now, message, isBot)], lastUpdated := now)];
      }
    }

    /** `get_conversation_history`: the slice `history[-limit:]`, or nothing
        for an unknown user; Python's default for `limit` is 5. */
    method GetConversationHistory(id: string, limit: int) returns (r: seq<Entry>)
      ensures id in conversations ==> r == Recent(conversations[id].history, limit)
      ensures id !in conversations ==> r == []
    {
      if id in conversations {
        var h := conversations[id].history;
        var start := -limit;
        if start < 0 {
          start := start + |h|;
        }
        if start < 0 {
          start := 0;
        } else if start > |h| {
          start := |h|;
        }
        r := h[start..];
      } else {
        r := [];
      }
    }

    /** `reset_user_context`. */
    method ResetUserContext(id: string, now: int)
      modifies this
      ensures conversations == Reset(old(conversations), id, now)
    {
      conversations := conversations[id := Session(now, ResetContext, [])];
    }

    /** `get_next_question`: the prompt for the stored stage, replaced by the
        first promotion whose key occurs in the promotion context; `None`
        where Python raises. */
    method GetNextQuestion(id: string, now: int, render: real -> string) returns (q: Option<string>)
      modifies this
      ensures conversations == Touch(old(conversations), id, now)
      ensures q == Director.NextQuestion(conversations[id].context, render)
    {
      var ctx := GetUserContext(id, now);
      q := Director.StageQuestion(ctx, render);
      if q.None? {
        return;
      }
      if ctx.shouldPromote && Director.PromotingStage(ctx.conversationStage) {
        var i := 0;
        while i < |Director.Promotions|
          invariant 0 <= i <= |Director.Promotions|
          invariant forall k :: 0 <= k < i ==> !Contains(ctx.promotionContext, Director.Promotions[k].0)
        {
          if Contains(ctx.promotionContext, Director.Promotions[i].0) {
            Director.FirstPromotionFirstWins(Director.Promotions, ctx.promotionContext, i);
            q := Some(Director.Promotions[i].1);
            return;
          }
          i := i + 1;
        }
        Director.FirstPromotionNone(Director.Promotions, ctx.promotionContext);
      }
    }

    /** The promotion-trigger loop of `analyze_message`: each trigger whose
        word occurs sets the promotion keys, a later one overwriting. */
    static method ScanTriggers(lower: string) returns (u: Updates)
      ensures u == Signals.Triggers(Signals.PromotionTriggers, lower, NoUpdates)
    {
      u := NoUpdates;
      var triggers := Signals.PromotionTriggers;
      var i := 0;
      while i < |triggers|
        invariant 0 <= i <= |triggers|
        invariant u == Signals.Triggers(triggers[..i], lower, NoUpdates)
      {
        assert triggers[..i + 1][..i] == triggers[..i];
        if Contains(lower, triggers[i].0) {
          u := u.(shouldPromote := Some(true), promotionContext := Some(triggers[i].1));
        }
        i := i + 1;
      }
      assert triggers[..i] == triggers;
    }

    /** The budget block of `analyze_message`, written as statements in the
        source's order; its specification is the function
        `Signals.BudgetStep`, which makes the same decisions as one
        expression. */
    static method ScanBudget(u0: Updates, message: string, lower: string) returns (u: Updates)
      ensures u == Signals.BudgetStep(u0, message, lower)
    {
      u := u0;
      if ContainsAny(lower, Signals.BudgetWords) {
        var amount := Numbers.FirstAmount(message);
        if amount.Some? {
          u := u.(budget := Some(Some(amount.value)), conversationStage := Some(BudgetSet));
          if amount.value > 100.0 {
            u := u.(shouldPromote := Some(true), promotionContext := Some(Signals.ScalePhrase));
          }
        }
      }
    }

    /** One matching category of `analyze_message`'s interest loop:
        `get_user_context`, then the category appended to the stored list
        itself when it is not there yet. */
    method AddInterest(id: string, category: string, now: int) returns (interests: seq<string>, added: bool)
      modifies this
      ensures var t := Touch(old(conversations), id, now);
        && added == (category !in t[id].context.interests)
        && interests == t[id].context.interests + (if added then [category] else [])
        && conversations == WithInterests(t, id, interests)
    {
      var ctx := GetUserContext(id, now);
      interests := ctx.interests;
      added := category !in interests;
      if added {
        interests := interests + [category];
        var s := conversations[id];
        conversations := conversations[id := s.(context := s.context.(interests := interests))];
      } else {
        WithInterestsSame(conversations, id);
      }
    }

    /** The interest loop of `analyze_message` over a table of categories:
        every matching category touches the session and appends a new
        category to the stored list. */
    method ScanCategories(id: string, lower: string, now: int, u0: Updates, products: seq<(string, seq<string>)>) returns (u: Updates)
      modifies this
      ensures var m1 := Touch(old(conversations), id, now);
        var base := m1[id].context.interests;
        && u == Signals.InterestUpdates(u0, base, Signals.InterestsAfter(products, lower, base))
        && (Signals.AnyCategory(products, lower) ==>
              conversations == WithInterests(m1, id, Signals.InterestsAfter(products, lower, base)))
        && (!Signals.AnyCategory(products, lower) ==> conversations == old(conversations))
    {
      ghost var m0 := conversations;
      ghost var m1 := Touch(m0, id, now);
      ghost var base := m1[id].context.interests;
      u := u0;
      ghost var touched := false;
      var i := 0;
      while i < |products|
        invariant 0 <= i <= |products|
        invariant touched == Signals.AnyCategory(products[..i], lower)
        invariant !touched ==> conversations == m0
        invariant touched ==> conversations == WithInterests(m1, id, Signals.InterestsAfter(products[..i], lower, base))
        invariant u == Signals.InterestUpdates(u0, base, Signals.InterestsAfter(products[..i], lower, base))
      {
        var (category, keywords) := products[i];
        ghost var prev := Signals.InterestsAfter(products[..i], lower, base);
        assert products[..i + 1][..i] == products[..i];
        Signals.InterestsAfterSpec(products[..i], lower, base);
        if ContainsAny(lower, keywords) {
          if !touched {
            Signals.InterestsGrowIff(products[..i], lower, base);
            assert prev == base;
          }
          ghost var before := conversations;
          var interests, added := AddInterest(id, category, now);
          InterestWrite(m0, id, now, touched, before, prev, interests);
          assert interests == Signals.InterestsAfter(products[..i + 1], lower, base);
          if added {
            u := u.(interests := Some(interests), conversationStage := Some(InterestsSet));
          }
          touched := true;
        }
        assert Signals.AnyCategory(products[..i + 1], lower) <==>
               Signals.AnyCategory(products[..i], lower) || ContainsAny(lower, keywords);
        i := i + 1;
      }
      assert products[..i] == products;
    }

    /** The interest loop of `analyze_message` over the product table. */
    method ScanInterests(id: string, lower: string, now: int, u0: Updates) returns (u: Updates)
      modifies this
      ensures var m1 := Touch(old(conversations), id, now);
        var base := m1[id].context.interests;
        && u == Signals.InterestUpdates(u0, base, Signals.InterestsAfter(Signals.ProductKeywords, lower, base))
        && (Signals.AnyCategory(Signals.ProductKeywords, lower) ==>
              conversations == WithInterests(m1, id, Signals.InterestsAfter(Signals.ProductKeywords, lower, base)))
        && (!Signals.AnyCategory(Signals.ProductKeywords, lower) ==> conversations == old(conversations))
    {
      u := ScanCategories(id, lower, now, u0, Signals.ProductKeywords);
    }

    /** The experience loop of `analyze_message`. */
    static method ScanExperience(lower: string, u0: Updates) returns (u: Updates)
      ensures u == Signals.Experience(Signals.ExperienceKeywords, lower, u0)
    {
      u := u0;
      var levels := Signals.ExperienceKeywords;
      var i := 0;
      while i < |levels|
        invariant 0 <= i <= |levels|
        invariant u == Signals.Experience(levels[..i], lower, u0)
      {
        var (level, keywords) := levels[i];
        assert levels[..i + 1][..i] == levels[..i];
        if ContainsAny(lower, keywords) {
          u := u.(experienceLevel := Some(Some(level)), conversationStage := Some(ExperienceSet));
          if level == "intermediate" || level == "advanced" {
            u := u.(shouldPromote := Some(true), promotionContext := Some(Signals.NextLevelPhrase));
          }
        }
        i := i + 1;
      }
      assert levels[..i] == levels;
    }

    /** `analyze_message`: the updates the message calls for. The interest
        loop touches the session once per matching category and appends the
        new categories to the stored list itself. */
    method AnalyzeMessage(id: string, message: string, now: int) returns (u: Updates)
      modifies this
      ensures var m1 := Touch(old(conversations), id, now);
        var base := m1[id].context.interests;
        var lower := Lower(message);
        && u == Signals.Analyze(message, base)
        && (Signals.AnyCategory(Signals.ProductKeywords, lower) ==>
              conversations == WithInterests(m1, id, Signals.InterestsAfter(Signals.ProductKeywords, lower, base)))
        && (!Signals.AnyCategory(Signals.ProductKeywords, lower) ==> conversations == old(conversations))
    {
      var lower := Lower(message);
      u := ScanTriggers(lower);
      u := ScanBudget(u, message, lower);
      u := ScanInterests(id, lower, now, u);
      u := ScanExperience(lower, u);
    }

    /** One rule of `update_achievements`: append the badge when it is earned.
        `Achievements.BadgeIff` states when each badge is earned. */
    static method Award(badges: seq<string>, earned: bool, badge: string) returns (r: seq<string>)
      ensures r == badges + Achievements.If(earned, badge)
    {
      r := badges;
      if earned {
        r := r + [badge];
      }
    }

    /** The `new_achievements` list of `update_achievements`, rule after rule. */
    method NewAchievements(ctx: Context) returns (badges: seq<string>)
      ensures badges == Achievements.NewBadges(ctx)
    {
      var prior := ctx.achievements;
      ghost var rules, names := Achievements.Rules(ctx), Achievements.Names;
      badges := [];
      badges := Award(badges, prior == [], Achievements.FirstChat);
      assert badges == Achievements.Picked(rules, names, 0, 1);
      badges := Award(badges, ctx.budget.Some? && ctx.budget.value != 0.0 && Achievements.BudgetSetId !in prior, Achievements.BudgetPlanner);
      assert badges == Achievements.Picked(rules, names, 0, 2);
      badges := Award(badges, ctx.salesCount >= 1 && Achievements.FirstSaleId !in prior, Achievements.FirstSale);
      assert badges == Achievements.Picked(rules, names, 0, 3);
      badges := Award(badges, ctx.avgResponseTime < 1800.0 && Achievements.QuickResponseId !in prior, Achievements.SpeedDemon);
      assert badges == Achievements.Picked(rules, names, 0, 4);
      badges := Award(badges, ctx.bulkPurchases >= 5 && Achievements.BulkBuyerId !in prior, Achievements.BulkMaster);
      assert badges == Achievements.Picked(rules, names, 0, 5);
      badges := Award(badges, ctx.totalProfit >= 500.0 && Achievements.ProfitMakerId !in prior, Achievements.ProfitPro);
      assert badges == Achievements.Picked(rules, names, 0, 6);
      badges := Award(badges, ctx.positiveFeedback >= 10 && Achievements.FeedbackKingId !in prior, Achievements.FeedbackKing);
      assert badges == Achievements.Picked(rules, names, 0, 7);
    }

    /** `update_achievements`: the new badges, and the caller's context with
        the merged list, which is then written back with `update_context`. */
    method UpdateAchievements(id: string, ctx: Context, now: int) returns (badges: seq<string>, updated: Context)
      modifies this
      ensures badges == Achievements.NewBadges(ctx)
      ensures updated == Achievements.Evaluated(ctx)
      ensures conversations == Update(old(conversations), id, AsUpdates(updated), now)
    {
      badges := NewAchievements(ctx);
      updated := ctx.(achievements := Achievements.Dedup(ctx.achievements + badges));
      UpdateContext(id, AsUpdates(updated), now);
    }

    /** Bullets appended one line at a time. */
    static method AppendBullets(lines: seq<string>, xs: seq<string>) returns (r: seq<string>)
      ensures r == lines + Progress.Bullets(xs)
    {
      r := lines;
      var i := 0;
      while i < |xs|
        invariant 0 <= i <= |xs|
        invariant r == lines + Progress.Bullets(xs[..i])
      {
        Progress.BulletsSnoc(xs, i);
        r := r + ["• " + xs[i]];
        i := i + 1;
      }
      assert xs[..i] == xs;
    }

    /** A heading and its bullets, appended when there is something to list. */
    static method AppendSection(lines: seq<string>, heading: string, xs: seq<string>) returns (r: seq<string>)
      ensures r == lines + Progress.Section(heading, xs)
    {
      r := lines;
      if xs != [] {
        r := AppendBullets(r + [heading], xs);
        assert r == lines + ([heading] + Progress.Bullets(xs));
      }
    }

    /** `get_progress_summary`: the lines built one by one, then joined. */
    method GetProgressSummary(id: string, now: int, money: real -> string) returns (s: string)
      modifies this
      ensures conversations == Touch(old(conversations), id, now)
      ensures s == Progress.Summary(conversations[id].context, money)
    {
      var ctx := GetUserContext(id, now);
      var lines := [Progress.ProgressHeading] + Progress.Stats(ctx, money);
      lines := AppendSection(lines, Progress.AchievementsHeading, ctx.achievements);
      lines := AppendSection(lines, Progress.GoalsHeading, Progress.NextGoals(ctx, money));
      s := Join(lines, "\n");
    }
  }
}
