# Conversation manager of the InvexBot reselling assistant

`ConversationManager` keeps one session per chat user. A session holds:

- a context dictionary: budget, interests, experience level, conversation stage, promotion flag and promotion context, badges and seller statistics;
- a history of messages;
- a last-updated time.

A session expires 30 minutes after its last update. It is swept away the next time any user's context is fetched.

On top of the store the manager offers these operations:

- it chooses the next question from the stage, and may replace it with a casual promotion of the InvexPro app;
- it reads a message for promotion triggers, a budget, product interests and experience;
- it awards badges;
- it puts together a progress summary with the goals still open.

The project models the class as the Dafny class `Manager.ConversationManager`. Its one field is `conversations: map<string, Session>`. Each Python method that touches the store becomes a method of the class; the ones that change the map say so with `modifies this`, while `GetConversationHistory` only reads it. `get_next_goals` reads no state and is the function `Progress.NextGoals`. Each method is proved against pure functions:

- the store functions of `Store` (`Sweep`, `Touch`, `Update`, `Append`, `Reset`, `WithInterests`, `Recent`);
- the question director of `Director`;
- the message analysis of `Signals`;
- the badge rules of `Achievements`;
- the summary layout of `Progress`.

The lemmas beside those functions state what the source promises.

Some quirks of the source are modelled as written:

- `analyze_message` calls `get_user_context` once per matching product category. It appends new categories to the stored interest list in place. So the store changes even though the method only returns updates.
- `update_achievements` tests the stored list for badge identifiers (`'budget_set'`) but stores display names (`' Budget Planner'`). So every threshold badge is reported again on every evaluation (`Achievements.ReReported`). The first-chat badge is reported only while the list is empty.
- In stage `budget_set` with no budget, `get_next_question` compares `None <= 20` and raises. The model returns `None` there (`Director.RaisesIff`).
- The budget placeholder is replaced by `'$'` followed by Python's `str` of the float, so a budget of 15 reads `$15.0`. The float's text is a parameter of the model.
- The budget scan stops at a thousands separator: `$1,500` gives a budget of 1 (`Numbers.ScanThousandsComma`).

Modules:

- `Wrappers`: `Option`.
- `Text`: ASCII lower-casing, the substring test, lists without repeats and `join`.
- `Numbers`: integer rendering and the budget regular expression.
- `Conversation`: the context, the updates and the session.
- `Store`, `Signals`, `Director`, `Achievements`, `Progress`: as above.
- `Manager`: the class.

## Model

| member | source | states |
|---|---|---|
| `Manager.ConversationManager.constructor` | conversation_manager.py:8-9 | a new manager holds no sessions |
| `Manager.ConversationManager.CleanupExpired` | conversation_manager.py:79-88 | the store afterwards is `Sweep` of the store before: exactly the sessions not older than 30 minutes remain, unchanged |
| `Store.Sweep` | conversation_manager.py:79-87 | a user survives iff it was stored and is not `Store.Expired`, the strict test of line 84 that its last update is more than 30 minutes old; survivors keep their session |
| `Manager.ConversationManager.GetUserContext` | conversation_manager.py:21-54 | the store becomes `Touch` of the old one and the returned context is the stored context of the user |
| `Store.Touch` | conversation_manager.py:21-54 | after the sweep the user is present with timestamp `now`; a live session keeps context and history, a missing or expired one gets `Store.NewSession`, the default context of lines 30-50 and an empty history; other users are only swept |
| `Store.TouchStable` | conversation_manager.py:21-54 | fetching a user already touched at `now` in a swept store changes nothing |
| `Store.TouchIdempotent` | conversation_manager.py:21-54 | fetching the same user twice at the same time is fetching once |
| `Manager.ConversationManager.UpdateContext` | conversation_manager.py:56-61 | the store becomes `Update`: the existing user's context is merged with the updates and its time refreshed; an unknown user is not created |
| `Store.Update` | conversation_manager.py:56-61 | same keys; only the user's context (merged with `Apply`) and timestamp change; history kept |
| `Conversation.Apply` | conversation_manager.py:59 | every key present in the updates overwrites the context's value |
| `Conversation.ApplyKeeps` | conversation_manager.py:59 | every key absent from the updates keeps its value |
| `Conversation.ApplyNothing` | conversation_manager.py:59 | merging the empty dictionary changes nothing |
| `Conversation.AsUpdates` | conversation_manager.py:260-261 | merging a whole context writes every one of its keys; the two log keys only where the context has them |
| `Manager.ConversationManager.AddToHistory` | conversation_manager.py:63-71 | the store becomes `Append`: one entry at the end of an existing user's history, time refreshed, nothing for an unknown user |
| `Store.Append` | conversation_manager.py:63-71 | same keys, the user's history grows by exactly the new entry, context kept, other users unchanged |
| `Manager.ConversationManager.GetConversationHistory` | conversation_manager.py:73-77 | returns `Recent(history, limit)` for a known user and nothing otherwise; the store is not changed |
| `Store.Recent` | conversation_manager.py:76 | Python's `history[-limit:]`: the last `min(limit, n)` entries for a positive limit, the whole history for 0, the history without its first `-limit` entries for a negative one |
| `Store.RecentAfterAppend` | conversation_manager.py:63-76 | after an append the window ends with the new entry, after the previous window one shorter |
| `Manager.ConversationManager.ResetUserContext` | conversation_manager.py:315-339 | the store becomes `Reset`: the user, present or not, gets the reset context, an empty history and time `now` |
| `Store.Reset` | conversation_manager.py:315-339 | keys gain the user; other users unchanged; the user's session is the reset context with empty logs and empty history |
| `Manager.ConversationManager.GetNextQuestion` | conversation_manager.py:90-161 | the store becomes `Touch` and the result is `NextQuestion` of the stored context: the stage prompt, replaced by the first promotion in table order whose key occurs in the promotion context |
| `Director.NextQuestion` | conversation_manager.py:121-161 | there is no question exactly when the stage prompt is missing; the question differs from the stage prompt only with the flag set in a promoting stage |
| `Director.BudgetTier` | conversation_manager.py:124-129 | the low tier iff the budget is at most 20, the medium tier iff it is above 20 and below 200, the high tier iff it is 200 or more |
| `Director.ExperienceQuestion` | conversation_manager.py:133-134 | the intermediate and advanced prompts for those levels; the beginner prompt for `beginner`, any other level and no level |
| `Director.FollowUpQuestion` | conversation_manager.py:137-138 | the product, pricing and supplier prompts for those topics; the default follow-up for `default`, any other topic and no topic |
| `Director.StageQuestion` | conversation_manager.py:96-141 | the stage prompt is missing (Python raises) exactly in stage `budget_set` without a budget; `initial` and `interests_set` give their fixed prompts, `experience_set` the level's prompt and `follow_up` the topic's prompt |
| `Director.BudgetQuestion` | conversation_manager.py:122-130 | the prompt contains `'$'` followed by the rendered budget |
| `Director.FirstPromotion` | conversation_manager.py:157-159 | a promotion is returned only when its key occurs in the text |
| `Director.Lookup` | conversation_manager.py:134-141 | `dict.get(key, default)`: the default when the key is absent, the value of its first entry otherwise |
| `Director.BudgetTiers` | conversation_manager.py:122-130 | budget up to 20 gives the low template, below 200 the medium one, otherwise the high one, each with `'$' + str(budget)` in place of the placeholder |
| `Director.RaisesIff` | conversation_manager.py:122-124 | there is no question (Python raises) exactly in stage `budget_set` without a budget |
| `Director.AnalyzedContextHasQuestion` | conversation_manager.py:184-195 | a context where `budget_set` always comes with a budget always gets a question |
| `Director.Fallbacks` | conversation_manager.py:132-141 | unknown experience levels, topics and stages fall back to the beginner prompt, the default follow-up and the default follow-up; in `experience_set` and `follow_up` without a shown promotion the user receives exactly those fallbacks |
| `Director.StagePrompts` | conversation_manager.py:96-160 | the question the user receives: the fixed prompt in `initial` and `interests_set`, and the level's or topic's prompt in `experience_set` and `follow_up` unless a promotion is shown |
| `Director.PromotionOverride` | conversation_manager.py:143-161 | a promotion replaces the prompt only in stages `experience_set` and `follow_up` with the flag set, and only when some key occurs; otherwise the stage prompt stands |
| `Director.FirstPromotionFirstWins` | conversation_manager.py:157-159 | the first key in table order that occurs chooses the promotion |
| `Director.FirstPromotionNone` | conversation_manager.py:157-161 | with no key occurring no promotion is returned |
| `Director.NoPromotionWithoutC` | conversation_manager.py:148-159 | a promotion context without the letter `c` chooses no promotion |
| `Director.ScaleKeyFirst` | conversation_manager.py:148-159 | a context that starts with `scale your business` and has no `k` or `x` chooses the scaling promotion |
| `Director.ScalePhraseSelectsScale` | conversation_manager.py:195 | the budget rule's context `scale your business efficiently` is such a text |
| `Director.ScalePromotionShown` | conversation_manager.py:143-159 | in a promoting stage with the flag set, that context yields the scaling promotion |
| `Director.SingleCNoPromotion` | conversation_manager.py:148-159 | a text with one `c` and no `y`, `x` or `u` chooses no promotion |
| `Director.ShippingSelectsNone` | conversation_manager.py:176 | the `shipping` trigger's context is such a text, so it never selects a promotion |
| `Director.NextLevelHasNoC` | conversation_manager.py:228 | the experience rule's context `take your business to the next level` has no `c`, so it selects no promotion |
| `Director.ContextPromotions` | conversation_manager.py:148-228 | the promotion each promotion context selects: the contexts of `inventory`, `tracking`, `supplier`, `scaling`, `profit` and `customer` and of a budget above 100 select the promotion of their key, the contexts of `shipping` and of the experience rule select none |
| `Director.InventoryContextPromotion` | conversation_manager.py:149-170 | the `inventory` context selects the inventory promotion |
| `Director.TrackingContextPromotion` | conversation_manager.py:149-171 | the `tracking` context selects the package promotion |
| `Director.SupplierContextPromotion` | conversation_manager.py:149-172 | the `supplier` context selects the supplier promotion |
| `Director.ScalingContextPromotion` | conversation_manager.py:149-173 | the `scaling` context selects the scaling promotion |
| `Director.ProfitContextPromotion` | conversation_manager.py:149-174 | the `profit` context selects the profit promotion |
| `Director.CustomerContextPromotion` | conversation_manager.py:149-175 | the `customer` context selects the customer promotion |
| `Director.ShippingContextPromotion` | conversation_manager.py:148-176 | the `shipping` context selects no promotion |
| `Director.BudgetContextPromotion` | conversation_manager.py:148-195 | the budget rule's context selects the scaling promotion |
| `Director.ExperienceContextPromotion` | conversation_manager.py:148-228 | the experience rule's context selects no promotion |
| `Director.NoPromotionShown` | conversation_manager.py:143-161 | a context that selects no promotion leaves the stage prompt |
| `Manager.ConversationManager.AnalyzeMessage` | conversation_manager.py:163-230 | returns `Signals.Analyze(message, interests)` for the interests stored after the first fetch; when a product category matches, the store is the touched store with the interests after the loop written in place, otherwise it is unchanged |
| `Signals.Analyze` | conversation_manager.py:163-230 | the analysis writes only the flag, the promotion context, the budget, the stage, the interests and the level, and the flag only as `True` |
| `Signals.AnalyzeExperience` | conversation_manager.py:214-223 | the level key is absent when no level's keyword occurs, and otherwise holds the last level in table order whose keyword occurs |
| `Manager.ConversationManager.ScanTriggers` | conversation_manager.py:168-182 | the trigger loop computes `Triggers` over the trigger table |
| `Signals.Triggers` | conversation_manager.py:179-182 | the trigger loop changes nothing but the two promotion keys and only sets the flag to `True` |
| `Signals.TriggersEffect` | conversation_manager.py:179-182 | the trigger loop writes only the two promotion keys, and writes them exactly when some trigger occurs |
| `Signals.TriggersLastWins` | conversation_manager.py:179-182 | when several triggers occur, the last one in table order sets the promotion context |
| `Manager.ConversationManager.ScanBudget` | conversation_manager.py:184-195 | the budget block computes `BudgetStep` |
| `Signals.BudgetStep` | conversation_manager.py:184-195 | with no budget read nothing changes; with one the budget is that amount and the stage `budget_set`; only those keys and the promotion keys change, the context only to the scaling phrase |
| `Signals.BudgetSignal` | conversation_manager.py:185-189 | a budget is read iff a budget word occurs and the message holds a number, and it is the first number |
| `Numbers.FirstAmount` | conversation_manager.py:187-189 | the regular expression finds a number iff the message holds a digit; the number is not negative |
| `Numbers.FirstAmountOfWhole` | conversation_manager.py:187-189 | any run of digits after digit-free text, followed by neither a digit nor `.` with two digits, is read as the run's value, leading zeros included |
| `Numbers.FirstAmountOfNat` | conversation_manager.py:187-189 | a rendered whole number not followed by a digit or `.` is read back as itself |
| `Numbers.FirstAmountWithCents` | conversation_manager.py:187-189 | a run of digits followed by `.` and two digits is read as the run's value plus the cents; later digits are ignored |
| `Numbers.Cents` | conversation_manager.py:187-189 | the two decimals are worth at least 0 and less than 1 |
| `Numbers.ScanTrailingDot` | conversation_manager.py:187-189 | `$150.` reads 150 |
| `Numbers.ScanOneDecimal` | conversation_manager.py:187-189 | `12.5` reads 12 |
| `Numbers.ScanLeadingZero` | conversation_manager.py:187-189 | `$0150` reads 150 |
| `Numbers.ScanThirdDecimal` | conversation_manager.py:187-189 | `12.345` reads 12.34 |
| `Numbers.ScanThousandsComma` | conversation_manager.py:187-189 | `$1,500` reads 1: a thousands separator ends the number |
| `Manager.ConversationManager.ScanInterests` | conversation_manager.py:197-211 | the interest loop over the product table returns `InterestUpdates` and writes the grown list into the store through `get_user_context` |
| `Manager.ConversationManager.ScanCategories` | conversation_manager.py:204-211 | the same loop over any category table; the store stays untouched until the first category matches and then holds the list grown so far |
| `Manager.ConversationManager.AddInterest` | conversation_manager.py:206-209 | one matching category: fetch the user, append the category to the stored list when it is missing, report whether it was added |
| `Store.WithInterests` | conversation_manager.py:207-209 | the in-place append changes only the user's stored interests, not even the timestamp |
| `Signals.InterestsAfter` | conversation_manager.py:204-211 | the loop keeps the stored list as a prefix and adds at most one category per table entry |
| `Signals.InterestUpdates` | conversation_manager.py:208-211 | only the interests and stage keys change; when the loop added a category they hold the new list and `interests_set`, otherwise nothing changes |
| `Signals.InterestsAfterSpec` | conversation_manager.py:204-211 | the loop only appends; a category ends up in the list iff it was there or its keywords occur; no duplicate is introduced |
| `Signals.InterestsGrowIff` | conversation_manager.py:208-211 | the interests key is written iff some matching category was not yet stored |
| `Manager.ConversationManager.ScanExperience` | conversation_manager.py:213-228 | the experience loop computes `Experience` over the level table |
| `Signals.ExperienceStep` | conversation_manager.py:221-228 | a keyword of the level records it with stage `experience_set`; otherwise nothing changes; only the level, stage and promotion keys change, the promotion keys only for an intermediate or advanced level |
| `Signals.Experience` | conversation_manager.py:220-228 | the experience loop changes nothing but the level, the stage and the promotion keys, and only sets the flag to `True` |
| `Signals.ExperienceEffect` | conversation_manager.py:220-228 | the loop writes the level and stage when some level matches, and the promotion keys exactly when an intermediate or advanced keyword matches |
| `Signals.ExperienceLastWins` | conversation_manager.py:220-223 | the last matching level in table order is recorded |
| `Signals.AnalyzeBudget` | conversation_manager.py:184-189 | the budget key of the analysis is the first number when a budget word occurs, absent otherwise |
| `Signals.AnalyzeStage` | conversation_manager.py:190-223 | the stage key comes from the last rule family that fired: experience, then interests, then budget |
| `Signals.AnalyzePromotion` | conversation_manager.py:179-228 | the flag is set iff a trigger occurs, the budget exceeds 100 or an intermediate or advanced keyword occurs; the context is that of the last rule that fired |
| `Signals.AnalyzeInterests` | conversation_manager.py:204-211 | the interests key, when present, is the whole stored list after the loop |
| `Signals.AnalyzeKeepsBudgetStage` | conversation_manager.py:184-195 | merging any analysis keeps a budget beside stage `budget_set` |
| `Manager.ConversationManager.NewAchievements` | conversation_manager.py:234-257 | the seven rules, checked one after another, produce `NewBadges` |
| `Manager.ConversationManager.Award` | conversation_manager.py:238-257 | one rule: the badge is appended exactly when earned |
| `Manager.ConversationManager.UpdateAchievements` | conversation_manager.py:232-263 | returns `NewBadges`; the caller's context gains the merged list (`Evaluated`) and is written back with `update_context` |
| `Achievements.Rules` | conversation_manager.py:238-257 | one flag per badge, in table order |
| `Achievements.ThresholdBadges` | conversation_manager.py:241-257 | never the first-chat badge, no repeats, each threshold badge iff its rule holds |
| `Achievements.NewBadges` | conversation_manager.py:234-257 | the first-chat badge while the list is empty, then the threshold badges; no repeats; only display names |
| `Achievements.BadgeIff` | conversation_manager.py:238-257 | the first-chat badge is reported iff the list is empty; on a list holding no identifier each threshold badge is reported iff its threshold is met |
| `Achievements.Dedup` | conversation_manager.py:260 | `list(set(...))`: the same elements, no repeats, no longer |
| `Achievements.Evaluated` | conversation_manager.py:260 | the stored list holds exactly the old badges and the new ones, without repeats; nothing else in the context changes |
| `Achievements.EvaluatedKeeps` | conversation_manager.py:260 | old badges are kept, new ones stored, and the list grows by at most the new badges |
| `Achievements.IdsAreNotNames` | conversation_manager.py:11-19 | no badge identifier is a display name |
| `Achievements.EvaluatedHasNoIds` | conversation_manager.py:241-260 | evaluation never stores an identifier |
| `Achievements.EvaluatedIds` | conversation_manager.py:241-260 | evaluation changes no identifier's membership and leaves the list non-empty |
| `Achievements.EvaluatedRules` | conversation_manager.py:241-257 | the threshold rules see the same flags before and after an evaluation |
| `Achievements.ReReported` | conversation_manager.py:238-260 | a second evaluation reports exactly the threshold badges of the first again |
| `Manager.ConversationManager.GetProgressSummary` | conversation_manager.py:265-296 | the store becomes `Touch` and the result is `Summary` of the stored context |
| `Manager.ConversationManager.AppendSection` | conversation_manager.py:284-294 | a heading and one bullet per item are appended when there is something to list |
| `Manager.ConversationManager.AppendBullets` | conversation_manager.py:286-287 | one `• item` line per item, in order |
| `Progress.Section` | conversation_manager.py:284-294 | nothing for an empty list, else the heading followed by the bullets |
| `Progress.Bullets` | conversation_manager.py:286-294 | one line per item, `• ` then the item |
| `Progress.Stats` | conversation_manager.py:273-281 | four lines; the sales, feedback and response-rate lines end with digits that read back as the stored counts, the profit line with the money text; the rate line ends with `%` |
| `Progress.SummaryLines` | conversation_manager.py:270-294 | the lines start with the progress heading and the four statistics |
| `Progress.Summary` | conversation_manager.py:296 | the summary starts with the progress heading |
| `Progress.SummaryLayout` | conversation_manager.py:265-296 | the summary lines are the heading and four statistics, then the badges under their heading when there are any, then the open goals under theirs |
| `Progress.NextGoals` | conversation_manager.py:298-313 | one goal per unmet threshold (sales below 5, profit below 500, positive feedback below 10) and no other; the sales goal comes first, the profit goal right after it, the feedback goal last |
| `Progress.ProfitGoal` | conversation_manager.py:307-308 | the profit goal shows the current profit, as formatted, after `Reach $500 in profit (Currently: $` |
| `Progress.FeedbackGoal` | conversation_manager.py:310-311 | the feedback goal shows `10 - positive`, and below ten that number plus the positive count is ten |
| `Progress.GoalsListed` | conversation_manager.py:302-311 | each goal is listed exactly while its threshold is not met |
| `Progress.GoalsDistinct` | conversation_manager.py:302-311 | the four goal texts never coincide |
| `Progress.GoalsOnce` | conversation_manager.py:298-313 | the goal list has no repeats and holds only the four goals |
| `Progress.FeedbackGoalCount` | conversation_manager.py:310-311 | the feedback goal names the number missing to ten |
| `Progress.GoalsOppositeBadges` | conversation_manager.py:244-311 | on a list holding no identifier, the first-sale, profit and feedback goals are open iff the matching badge is not reported |
| `Text.Lower` | conversation_manager.py:165 | `lower()`: same length, each ASCII capital lowered, every other character kept |
| `Text.ContainsIff` | conversation_manager.py:158 | the substring test holds iff the pattern occurs at some position |
| `Text.Join` | conversation_manager.py:296 | joining no lines gives the empty string, one line gives that line, and the result starts with the first line |
| `Text.JoinSnoc` | conversation_manager.py:296 | joining one more line appends the separator and that line |
| `Numbers.IntToString` | conversation_manager.py:274-311 | `str(n)`: digits that read back as `n` and have no leading zero, with a minus sign before a negative number |
| `Numbers.NatToString` | conversation_manager.py:281 | `str(n)` of a natural number: digits that read back as `n`, a leading `0` only for 0 itself |
| `Numbers.CanonicalDigits` | conversation_manager.py:281 | every digit string without a leading zero is the rendering of its value, so the rendering is the only one |

## Left out

- `datetime.now()` is the parameter `now`, an integer number of microseconds. The 30-minute expiry is 1_800_000_000 of them, with a strict comparison.
- Float rendering is left to parameters:
  - `GetNextQuestion` takes `str(float)` as `render`.
  - `GetProgressSummary` takes the `:,.2f` money format as `money`.
  - The model does not define either rendering.
- Logging (`logger.info`) is not modelled; it does not affect state.
- `lower()` is modelled for ASCII letters only. Python's Unicode lower-casing is not modelled.
- The number scan takes `\d` as the ASCII digits 0-9. On a `str`, Python's `\d` matches every Unicode decimal digit and `float()` accepts them; such digits are not modelled.
- The `previous_purchases` key is not modelled. `get_user_context` and `reset_user_context` set it to `[]` (lines 36 and 323), but nothing reads it.
- Dictionary aliasing is modelled only where the source relies on it, in the in-place interest append.
  - `UpdateAchievements` returns the caller's updated context.
  - It does not mutate a shared dictionary.
- `Achievements.Dedup` fixes one order, the first occurrence; `list(set(...))` leaves the order unspecified. Only the lemmas about membership and repeats speak for the source.
- `Manager.ConversationManager.GetNextQuestion` returns `None` where Python raises `TypeError`, in stage `budget_set` without a budget.
- Field defaults that `context.get(key, default)` would supply for a missing key are not modelled. The model's context always holds every key the manager creates, so those defaults never apply. The two log keys are the exception: they exist only after a reset and are `Option`s.
- main.py, the Discord bot that calls the manager, is not part of this model. Neither is concurrent access.
- The default arguments are not modelled: `AddToHistory` takes `is_bot` and `GetConversationHistory` takes `limit` explicitly, where Python defaults them to `False` and `5`.
- The number pattern `\$?(\d+(?:\.\d{2})?)` is written out as a scan over characters, not as a general regular-expression engine.
