# Couple's kitchen: the gamification loop, in Dafny

This project models the core of a meal-ordering app for two partners. One partner orders a
dish from the shared menu, and the other cooks it. The order moves through
`Pending → Cooking → Served → Completed`. Finishing and rating meals earns coins. Coins buy
coupons ("rewards"), and a few actions unlock achievements.

The application root holds the state: the menu, the orders, the coin balance (120 at start),
the achievement catalog (all locked) and the reward catalog (nothing redeemed). Five handlers
change that state. In the model it is the class `Gamification.App`, and each handler is one
method. Each method's postcondition gives the whole new state in terms of the old one. The
per-element rewrites that the handlers apply with `map` are pure functions, and the lemmas
about them are proved separately. The object invariant `Valid()` says three things:

- the balance is never negative;
- order ids are unique;
- achievement ids are unique.

Every handler preserves it. The only debit sits behind the check `coins >= cost`, and the only
credits are +50 and +10. `MasterChefLocked()` is preserved by every handler, because no code
path ever unlocks "Master Chef" (achievement `"2"`).

Around that core, the views compute values from their props and keep small state of their own:

- **`OrderView`**
  - the fixed status flow behind the advance button;
  - the newest-first listing, proved sorted, a permutation and stable;
  - which buttons an order shows;
  - the rating modal, as a class `RatingForm`.
- **`MenuView`**
  - the category-and-search filter, proved to keep exactly the matching dishes, in menu order;
  - the construction of a new custom dish;
  - the order and add-dish modals, as a class `MenuForm`.
- **`Memories`**
  - the completed orders (the food diary);
  - the rating total and the average, kept as a numerator and a denominator;
  - the unlocked-achievement figure.
- **`Types`**: the records and enumerations.
- **`Seqs`** and **`Text`**: the JavaScript operations the code leans on (`map`, `filter`,
  `indexOf`, `toLowerCase`, `includes`).

A view hands work to the root through a callback (`onOrder`, `rateOrder`, `updateOrderStatus`,
`onAddDish`). In the model, the view's method returns that call as a value
(`OrderRequest`, `RateRequest`, `StatusRequest`, the new `Dish`). The method returns no value
when the source makes no call.

The model follows the code, including its quirks:

- `RateOrder` credits 10 coins on every call. This holds for an unknown id and for an order that
  is already completed. It never unlocks an achievement.
- `UpdateStatus` credits 50 coins whenever the requested status is `Completed`, even for an
  unknown id.
- A rating of `0` counts as "not rated" for the "Rate Meal" button, because the source tests
  JavaScript truthiness.
- An empty rating target id makes `submitRating` do nothing, for the same reason.
- Rating an order that is already completed overwrites its rating and review, and the 10 coins
  are paid again.
- `UpdateStatus` and `RateOrder` silently ignore an unknown order id: no order changes, and the
  credits above are still paid.

Order ids and timestamps come from `Date.now()` in the source. Here they are parameters of
`PlaceOrder` and `SaveNewDish`, and `PlaceOrder` requires that the id is not already used by an
order. `showNotification` becomes an append-only log, `notifications`.

## Model

| member | source | states |
|---|---|---|
| `Gamification.App.constructor` | App.tsx:39-78 | Initial state: the seed menu, no orders, 120 coins, the four achievements all locked, the four rewards never redeemed, partner "Sam"; the invariant holds and Master Chef is locked |
| `Gamification.App.AddDish` | App.tsx:89-92 | The dish is put in front of the menu, the rest is kept in order, and one notification is logged. The invariant and the Master Chef lock are kept |
| `Gamification.App.PlaceOrder` | App.tsx:94-111 | Exactly one order is prepended and the old orders follow unchanged and in order. The new one is `Pending` with the dish's id and name, the partner as chef, the time and note given, and no rating or review. Achievement "3" is unlocked if and only if some lower-cased tag contains "spicy"; otherwise achievements are unchanged. Notifications: "Ordered …!" then any unlock notice. Invariant and Master Chef lock kept |
| `Gamification.App.UpdateStatus` | App.tsx:113-121 | Orders become `WithStatus(old orders)`. For status `Completed`: exactly +50 coins, achievement "1" unlocked, notices logged. For other statuses: coins, achievements and notifications unchanged. The invariant is kept, including a non-negative balance |
| `Gamification.App.RateOrder` | App.tsx:123-127 | Orders become `WithRating(old orders)`. A flat +10 coins whatever the rating and whether or not the id is known. Achievements untouched |
| `Gamification.App.Redeem` | App.tsx:129-136 | When `coins >= cost`: coins drop by exactly `cost`, only the matching reward's count rises by 1, and "4" is unlocked. Otherwise coins, rewards, achievements and notifications are all unchanged. The balance stays non-negative |
| `Gamification.App.UnlockAchievement` | App.tsx:138-146 | Achievements become `Unlock(old, id)`; the notices are `UnlockNotices(old, id)`, at most one since ids are unique; Master Chef stays locked unless its own id is given |
| `Gamification.WithStatus` | App.tsx:114 | Same length and ids. Orders whose id matches get the new status, and every other field of theirs is unchanged. All other orders are unchanged |
| `Gamification.WithRating` | App.tsx:124 | Same length and ids. Matching orders get the rating, the review and status `Completed`, and every other field of theirs is unchanged. All other orders are unchanged |
| `Gamification.Unlock` | App.tsx:139-145 | Same length. Only `unlocked` may change, and it ends true exactly when it was true or the id matches, so it never reverts |
| `Gamification.UnlockNotices` | App.tsx:140-142 | No notice exactly when every entry with the id is already unlocked |
| `Gamification.UnlockTwice` | App.tsx:138-146 | A second unlock with the same id changes nothing and shows nothing |
| `Gamification.UnlockNotifiesAtMostOnce` | App.tsx:138-146 | With unique ids, one unlock shows at most one notification |
| `Gamification.RedeemIn` | App.tsx:132 | Same length. The reward with the id has its count raised by exactly 1. All others are unchanged |
| `Gamification.HasSpicyTag` | App.tsx:108 | True exactly when "spicy" occurs (`Text.Occurs`) in some lower-cased tag |
| `Gamification.SpicyTagTriggers` | App.tsx:108 | A dish with the tag "Spicy" (as the seed carbonara at App.tsx:41 has) triggers the spicy achievement |
| `Gamification.IsActive` | App.tsx:195 | The badge's condition: the order is `Pending` or `Cooking` |
| `Gamification.PendingOrdersCount` | App.tsx:195 | At most the number of orders, and 0 exactly when no order is `Pending` or `Cooking` |
| `Gamification.PendingOrdersCountCons` | App.tsx:195 | A prepended order adds one to the badge exactly when it is `Pending` or `Cooking` |
| `Gamification.WithRatingKeepsRange` | App.tsx:123-124 | Rating with a value in 1..5 keeps every order's rating within 1..5 |
| `OrderView.Successor` | views/OrderView.tsx:21-26 | The flow lookup via `indexOf` yields nothing exactly for `Completed`, else the status one rank further on |
| `OrderView.HandleStatusChange` | views/OrderView.tsx:21-27 | No call for a completed order; otherwise a call for that order's id with exactly the successor status |
| `OrderView.AdvanceReachesCompleted` | views/OrderView.tsx:22-25 | Repeated advancing never lowers the rank. From any status, `Completed` is reached after exactly `3 - rank` presses and not before; from `Pending` that is three |
| `OrderView.ShowsAdvance` | views/OrderView.tsx:88 | The guard of the advance button: the order is not `Completed` |
| `OrderView.ShowsRateMeal` | views/OrderView.tsx:101 | The guard of "Rate Meal": the order is `Served` and its rating is falsy (absent or 0) |
| `OrderView.ShowsAdvanceIffCall` | views/OrderView.tsx:88-101 | The advance button shows exactly when pressing it makes a call. "Rate Meal" (served and unrated) shows only where the advance button does too |
| `OrderView.InsertByDate` | views/OrderView.tsx:19 | Inserting adds exactly the one order to the multiset and keeps neighbours newest first |
| `OrderView.SortedOrders` | views/OrderView.tsx:19 | The listing is a permutation of the orders, with neighbours newest first |
| `OrderView.SortedOrdersIsNewestFirst` | views/OrderView.tsx:19 | Every earlier entry of the listing is at least as new as every later one (non-increasing `orderDate`) |
| `OrderView.InsertKeepsTies` | views/OrderView.tsx:19 | Inserting puts the order in front of those with its own timestamp and leaves every other timestamp's orders as they were |
| `OrderView.SortedOrdersIsStable` | views/OrderView.tsx:19 | For every timestamp, the orders with that timestamp appear in the listing in input order (stable sort) |
| `OrderView.RatingForm.constructor` | views/OrderView.tsx:14-16 | No target, rating 5, empty review |
| `OrderView.RatingForm.Open` | views/OrderView.tsx:104 | "Rate Meal" sets the target to the order's id |
| `OrderView.RatingForm.ChooseStars` | views/OrderView.tsx:133-134 | A star button sets the rating. Only 1..5 are offered, and the form keeps the rating among them |
| `OrderView.RatingForm.EditReview` | views/OrderView.tsx:149 | The review text becomes the typed text |
| `OrderView.RatingForm.Cancel` | views/OrderView.tsx:153 | The target is cleared |
| `OrderView.RatingForm.Submit` | views/OrderView.tsx:29-36 | With a truthy target: a call carrying the target, the stars and the review, then target none, review "" and rating 5. Otherwise no call and no change. A call's rating is always in 1..5 |
| `MenuView.MatchesCategory` | views/MenuView.tsx:34 | The category half of the filter: "All", or the dish's own category |
| `MenuView.MatchesSearch` | views/MenuView.tsx:35-36 | The search half of the filter: the lower-cased name or some lower-cased tag contains the lower-cased term |
| `MenuView.MatchesSearchIff` | views/MenuView.tsx:35-36 | A dish matches the search exactly when the lower-cased term occurs in its lower-cased name or in one of its lower-cased tags |
| `MenuView.FilteredDishes` | views/MenuView.tsx:33-38 | An order-preserving subsequence of the menu. A dish is in it if and only if it is on the menu, the choice is "All" or names its category, and it matches the search. Each such dish appears exactly as often as on the menu, and no other dish appears |
| `MenuView.ShowsWholeMenu` | views/MenuView.tsx:33-37 | With "All" and an empty search every dish is kept, since every string contains "" |
| `MenuView.NewDish` | views/MenuView.tsx:80-90 | The entered fields, tags exactly `["Custom", "Homemade"]`, not a favourite. The typed description is kept, and an empty one becomes "A delicious homemade dish." |
| `MenuView.MenuForm.constructor` | views/MenuView.tsx:15-30 | "All", empty search, modals closed, nothing selected. New-dish fields: empty name and description, `Dinner`, `Medium`, 500 |
| `MenuView.MenuForm.OpenOrder` | views/MenuView.tsx:40-49 | Selects the dish, sets the suggested time and opens the order modal |
| `MenuView.MenuForm.ConfirmOrder` | views/MenuView.tsx:51-58 | With a dish selected, a call carrying the dish, the time and the note, then the modal closes and the note and selection are cleared. Otherwise no call and no change |
| `MenuView.MenuForm.SaveNewDish` | views/MenuView.tsx:78-96 | An empty name does nothing. Otherwise the built `NewDish` is handed on, and name, description and category reset to "", "" and `Dinner`. Difficulty and calories are not reset |
| `Memories.CompletedOrders` | views/MemoriesView.tsx:11 | An order-preserving subsequence holding exactly the completed orders, each as often as in the input. This is also the food-diary list (views/MemoriesView.tsx:60) |
| `Memories.RatingOrZero` | views/MemoriesView.tsx:12 | The `curr.rating` fallback to 0: the rating when it is truthy, else 0; 0 exactly when the rating is absent or 0 |
| `Memories.TotalRatings` | views/MemoriesView.tsx:12 | The `reduce` sum of `RatingOrZero`, starting from 0; 0 when no order carries a truthy rating |
| `Memories.TotalRatingsBounds` | views/MemoriesView.tsx:12 | A missing rating counts 0. With ratings in 1..5, the total is at least the number of rated orders and at most 5 × the number of orders |
| `Memories.CompletedRatingsBounds` | views/MemoriesView.tsx:11-12 | With every rating in 1..5, the completed orders' total lies between 0 and 5 × their count |
| `Memories.AverageRating` | views/MemoriesView.tsx:13 | "0.0" exactly when nothing is completed. Otherwise the total over the count of all completed orders, rated or not, and at most 5 when ratings are in range |
| `Memories.UnlockedCount` | views/MemoriesView.tsx:32 | At most the catalog size. It is 0 exactly when nothing is unlocked, and equals the catalog size exactly when everything is |
| `Seqs.IndexOf` | views/OrderView.tsx:23 | -1 exactly when absent; otherwise the first position holding the value |
| `Seqs.Filter` | views/MenuView.tsx:33 | An order-preserving subsequence, at most as long as the input, whose members are exactly the input's members that meet the predicate |
| `Seqs.FilterCounts` | views/MenuView.tsx:33 | Each element meeting the predicate is kept exactly as often as it occurs in the input; no other element is kept |
| `Seqs.Map` | App.tsx:114 | Same length, each element rewritten in place |
| `Text.Lower` | views/MenuView.tsx:35 | Same length, each character lowered |
| `Text.Contains` | views/MenuView.tsx:35-36 | `includes` as a left-to-right scan; every string contains the empty needle |
| `Text.ContainsIff` | views/MenuView.tsx:35-36 | `includes` holds exactly when the needle occurs at some position (`Occurs`) |
| `Text.SomeTagContains` | views/MenuView.tsx:36 | True exactly when some lower-cased tag contains the needle |
| `Text.SomeTagOccursIff` | App.tsx:108 | `tags.some(t => t.toLowerCase().includes(needle))` holds exactly when the needle occurs in some lower-cased tag |

The types in `types.ts` (lines 2-60) are datatypes. An order's status is one of exactly four
constructors, a dish's difficulty one of three, and its category one of six. The optional
fields (`rating`, `review`, `chefNote`, `scheduledTime`, `rewardEarned`, `calories`) are
`Option`s. An achievement's only changing field is `unlocked`. A reward carries `cost` and
`redeemedCount`.

## Left out

- services/geminiService.ts, views/ChefAIView.tsx and the autofill `handleAutoFill` (views/MenuView.tsx:60-76): asynchronous calls to a remote AI model followed by JSON parsing. They are foreign I/O and touch none of the modelled state.
- components/TutorialOverlay.tsx, components/Header.tsx, components/Navigation.tsx, views/SettingsView.tsx and views/StoreView.tsx: presentation only. StoreView's affordability check repeats the guard of `handleRedeem`, which `Gamification.App.Redeem` models.
- The profile: `PlaceOrder` reads `partnerName`, which is "Sam" from the constructor. Editing the profile from the settings view is not modelled. The same goes for themes, the tutorial flag and the view switch.
- Clock and locale: `Date.now()` ids and timestamps, and the suggested order time (views/MenuView.tsx:42-46), become parameters. Date and time formatting (views/OrderView.tsx:38-46) is left out.
- `toFixed(1)` rounding of the average: `Memories.AverageRating` keeps the integer total and count instead of the floating-point quotient.
- Notification display: the single on-screen slot that a newer message overwrites, and the 3-second `setTimeout` dismissal (App.tsx:80-83), become the append-only log `notifications`.
- React scheduling: batched updates, stale closures, and double invocation of the updater that calls `showNotification` (App.tsx:139-141). Handlers are modelled as running one at a time, each seeing the previous one's state.
- Image URLs, CSS classes and the `THEMES` table.
- Plain field setters the model does not need: choosing a category, typing the search term, the order time or the order note, the add-dish fields (name, description, category, difficulty and calories, views/MenuView.tsx:253-306), the "+" button that opens the add-dish modal (views/MenuView.tsx:115), and closing the modals without saving. `MenuView.FilteredDishes` takes the category and the term as parameters, and `MenuView.MenuForm.SaveNewDish` reads the add-dish fields as they stand.
- The `Memory`, `ChatMessage`, `AppTheme`, `UserProfile`, `ThemeColor` and `ViewState` declarations of types.ts: no modelled operation uses them.
- Numbers are unbounded integers. Coins, costs, counts, star ratings and timestamps are whole numbers in the source.
- MenuView.NewDish: takes calories as an integer. The form's number field (views/MenuView.tsx:302-306) stores `Number(value)`, which can be fractional (450.5) or `NaN`. `MenuView.MenuForm.newDishCalories` is narrowed the same way; nothing proved depends on calories.
- Text.Lower: lowers ASCII letters only, whereas JavaScript's `toLowerCase` applies full Unicode case mapping.
