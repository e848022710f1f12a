/** The per-user record the conversation manager keeps: the context fields,
    the partial updates merged into them with `dict.update`, the history log
    and the session that bundles them. */
module Conversation {
  import opened Wrappers

  /** The values `conversation_stage` takes. The field itself is a string,
      since any value may be written into it. */
  const Initial := "initial"
  const BudgetSet := "budget_set"
  const InterestsSet := "interests_set"
  const ExperienceSet := "experience_set"
  const FollowUp := "follow_up"

  /** A sale record as the sale command writes it into `sales_history`. */
  datatype Sale = Sale(item: string, buyPrice: real, sellPrice: real, profit: real, platform: string, date: string)

  /** A feedback record as the feedback command writes it into `feedback_history`. */
  datatype Feedback = Feedback(rating: int, comment: string, date: string)

  /** The `context` dictionary. Every key the manager creates is a field;
      `None` in `budget`, `experienceLevel` and `lastTopic` is Python's `None`,
      and `None` in the two history fields means that the key is absent
      (it appears only after a reset). */
  datatype Context = Context(
    budget: Option<real>,
    interests: seq<string>,
    experienceLevel: Option<string>,
    conversationStage: string,
    lastTopic: Option<string>,
    shouldPromote: bool,
    promotionContext: string,
    achievements: seq<string>,
    salesCount: int,
    totalProfit: real,
    positiveFeedback: int,
    avgResponseTime: real,
    bulkPurchases: int,
    responseRate: int,
    salesHistory: Option<seq<Sale>>,
    feedbackHistory: Option<seq<Feedback>>)

  /** A dictionary of updates: `Some(v)` for a key it holds, `None` for one it lacks. */
  datatype Updates = Updates(
    budget: Option<Option<real>>,
    interests: Option<seq<string>>,
    experienceLevel: Option<Option<string>>,
    conversationStage: Option<string>,
    lastTopic: Option<Option<string>>,
    shouldPromote: Option<bool>,
    promotionContext: Option<string>,
    achievements: Option<seq<string>>,
    salesCount: Option<int>,
    totalProfit: Option<real>,
    positiveFeedback: Option<int>,
    avgResponseTime: Option<real>,
    bulkPurchases: Option<int>,
    responseRate: Option<int>,
    salesHistory: Option<seq<Sale>>,
    feedbackHistory: Option<seq<Feedback>>)

  /** A message of the history log. */
  datatype Entry = Entry(timestamp: int, message: string, isBot: bool)

  /** One user's entry in `conversations`. */
  datatype Session = Session(lastUpdated: int, context: Context, history: seq<Entry>)

  /** The empty dictionary `{}`. */
  const NoUpdates := Updates(None, None, None, None, None, None, None, None,
                             None, None, None, None, None, None, None, None)

  /** The context a new user gets. */
  const DefaultContext := Context(
    budget := None, interests := [], experienceLevel := None,
    conversationStage := Initial, lastTopic := None,
    shouldPromote := false, promotionContext := "", achievements := [],
    salesCount := 0, totalProfit := 0.0, positiveFeedback := 0,
    avgResponseTime := 3600.0, bulkPurchases := 0, responseRate := 0,
    salesHistory := None, feedbackHistory := None)

  /** The context a reset writes: the defaults plus empty sale and feedback logs. */
  const ResetContext := DefaultContext.(salesHistory := Some([]), feedbackHistory := Some([]))

  function Pick<T>(update: Option<T>, current: T): T
  {
    if update.Some? then update.value else current
  }

  /** `context.update(u)`: every key of `u` overwrites, every other key stays. */
  function Apply(c: Context, u: Updates): (r: Context)
    ensures u.budget.Some? ==> r.budget == u.budget.value
    ensures u.interests.Some? ==> r.interests == u.interests.value
    ensures u.experienceLevel.Some? ==> r.experienceLevel == u.experienceLevel.value
    ensures u.conversationStage.Some? ==> r.conversationStage == u.conversationStage.value
    ensures u.lastTopic.Some? ==> r.lastTopic == u.lastTopic.value
    ensures u.shouldPromote.Some? ==> r.shouldPromote == u.shouldPromote.value
    ensures u.promotionContext.Some? ==> r.promotionContext == u.promotionContext.value
    ensures u.achievements.Some? ==> r.achievements == u.achievements.value
    ensures u.salesCount.Some? ==> r.salesCount == u.salesCount.value
    ensures u.totalProfit.Some? ==> r.totalProfit == u.totalProfit.value
    ensures u.positiveFeedback.Some? ==> r.positiveFeedback == u.positiveFeedback.value
    ensures u.avgResponseTime.Some? ==> r.avgResponseTime == u.avgResponseTime.value
    ensures u.bulkPurchases.Some? ==> r.bulkPurchases == u.bulkPurchases.value
    ensures u.responseRate.Some? ==> r.responseRate == u.responseRate.value
    ensures u.salesHistory.Some? ==> r.salesHistory == u.salesHistory
    ensures u.feedbackHistory.Some? ==> r.feedbackHistory == u.feedbackHistory
  {
    Context(
      budget := Pick(u.budget, c.budget),
      interests := Pick(u.interests, c.interests),
      experienceLevel := Pick(u.experienceLevel, c.experienceLevel),
      conversationStage := Pick(u.conversationStage, c.conversationStage),
      lastTopic := Pick(u.lastTopic, c.lastTopic),
      shouldPromote := Pick(u.shouldPromote, c.shouldPromote),
      promotionContext := Pick(u.promotionContext, c.promotionContext),
      achievements := Pick(u.achievements, c.achievements),
      salesCount := Pick(u.salesCount, c.salesCount),
      totalProfit := Pick(u.totalProfit, c.totalProfit),
      positiveFeedback := Pick(u.positiveFeedback, c.positiveFeedback),
      avgResponseTime := Pick(u.avgResponseTime, c.avgResponseTime),
      bulkPurchases := Pick(u.bulkPurchases, c.bulkPurchases),
      responseRate := Pick(u.responseRate, c.responseRate),
      salesHistory := if u.salesHistory.Some? then u.salesHistory else c.salesHistory,
      feedbackHistory := if u.feedbackHistory.Some? then u.feedbackHistory else c.feedbackHistory)
  }

  /** The keys `u` lacks keep their values. */
  lemma ApplyKeeps(c: Context, u: Updates)
    ensures u.budget.None? ==> Apply(c, u).budget == c.budget
    ensures u.interests.None? ==> Apply(c, u).interests == c.interests
    ensures u.experienceLevel.None? ==> Apply(c, u).experienceLevel == c.experienceLevel
    ensures u.conversationStage.None? ==> Apply(c, u).conversationStage == c.conversationStage
    ensures u.lastTopic.None? ==> Apply(c, u).lastTopic == c.lastTopic
    ensures u.shouldPromote.None? ==> Apply(c, u).shouldPromote == c.shouldPromote
    ensures u.promotionContext.None? ==> Apply(c, u).promotionContext == c.promotionContext
    ensures u.achievements.None? ==> Apply(c, u).achievements == c.achievements
    ensures u.salesCount.None? ==> Apply(c, u).salesCount == c.salesCount
    ensures u.totalProfit.None? ==> Apply(c, u).totalProfit == c.totalProfit
    ensures u.positiveFeedback.None? ==> Apply(c, u).positiveFeedback == c.positiveFeedback
    ensures u.avgResponseTime.None? ==> Apply(c, u).avgResponseTime == c.avgResponseTime
    ensures u.bulkPurchases.None? ==> Apply(c, u).bulkPurchases == c.bulkPurchases
    ensures u.responseRate.None? ==> Apply(c, u).responseRate == c.responseRate
    ensures u.salesHistory.None? ==> Apply(c, u).salesHistory == c.salesHistory
    ensures u.feedbackHistory.None? ==> Apply(c, u).feedbackHistory == c.feedbackHistory
  {
  }

  /** The empty dictionary changes nothing. */
  lemma ApplyNothing(c: Context)
    ensures Apply(c, NoUpdates) == c
  {
  }

  /** The whole context `c` seen as a dictionary of updates: every key it holds. */
  function AsUpdates(c: Context): (u: Updates)
    ensures forall d: Context :: Apply(d, u) == c.(
      salesHistory := if c.salesHistory.Some? then c.salesHistory else d.salesHistory,
      feedbackHistory := if c.feedbackHistory.Some? then c.feedbackHistory else d.feedbackHistory)
  {
    Updates(Some(c.budget), Some(c.interests), Some(c.experienceLevel), Some(c.conversationStage),
            Some(c.lastTopic), Some(c.shouldPromote), Some(c.promotionContext), Some(c.achievements),
            Some(c.salesCount), Some(c.totalProfit), Some(c.positiveFeedback), Some(c.avgResponseTime),
            Some(c.bulkPurchases), Some(c.responseRate), c.salesHistory, c.feedbackHistory)
  }
}
