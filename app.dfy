/** The gamification loop of the application root: orders, a coin balance,
    the achievement catalog and the reward catalog, changed by five handlers. */
module Gamification {
  import opened Types
  import opened Seqs
  import opened Text

  const InitialCoins := 120
  const CompletionCredit := 50
  const RatingCredit := 10

  const FirstDateId := "1"
  const MasterChefId := "2"
  const SpicyLoveId := "3"
  const GenerousSoulId := "4"

  const DefaultPartnerName := "Sam"

  const InitialDishes: seq<Dish> := [
    Dish("1", "Heart-shaped Pancakes", "Fluffy pancakes made with love and strawberries.",
         Breakfast, Easy, Some(450), ["Sweet", "Quick"], true),
    Dish("2", "Spicy Carbonara", "Classic Italian pasta with a spicy twist for date night.",
         Dinner, Medium, Some(800), ["Pasta", "Spicy"], false),
    Dish("3", "Midnight Tacos", "Quick beef tacos for late night cravings.",
         Snack, Easy, Some(300), ["Mexican", "Savory"], true)
  ]

  const InitialAchievements: seq<Achievement> := [
    Achievement(FirstDateId, "First Date", "Complete your first order", "\U{1F942}", false),
    Achievement(MasterChefId, "Master Chef", "Cook 5 meals rated 5 stars", "\U{1F468}\U{200D}\U{1F373}", false),
    Achievement(SpicyLoveId, "Spicy Love", "Order a spicy dish", "\U{1F336}\U{FE0F}", false),
    Achievement(GenerousSoulId, "Generous Soul", "Redeem a coupon for your partner", "\U{1F381}", false)
  ]

  const InitialRewards: seq<Reward> := [
    Reward("1", "Dishwashing Pass", 100, "\U{1F9FC}", "One free pass from doing dishes.", 0),
    Reward("2", "Movie Choice", 150, "\U{1F3AC}", "I get to pick the movie tonight.", 0),
    Reward("3", "10m Massage", 300, "\U{1F486}", "A relaxing shoulder or foot massage.", 0),
    Reward("4", "Breakfast in Bed", 500, "\U{1F950}", "Served with coffee and a smile.", 0)
  ]

  const UnlockedPrefix := "\U{1F3C6} Unlocked: "
  const DishAddedNotice := "Added new dish to menu!"
  const CookingDoneNotice := "Cooking Done! +50 Coins"
  const RatingNotice := "Rating submitted! +10 Coins"

  predicate OrderIdsUnique(orders: seq<Order>)
  {
    forall i, j :: 0 <= i < j < |orders| ==> orders[i].id != orders[j].id
  }

  predicate AchievementIdsUnique(achievements: seq<Achievement>)
  {
    forall i, j :: 0 <= i < j < |achievements| ==> achievements[i].id != achievements[j].id
  }

  /** The per-order rewrite of `handleUpdateStatus`: only orders with the
      given id change, and of them only the status. */
  function WithStatus(orders: seq<Order>, orderId: string, status: Status): (r: seq<Order>)
    ensures |r| == |orders|
    ensures forall i :: 0 <= i < |orders| ==> r[i].id == orders[i].id
    ensures forall i :: 0 <= i < |orders| && orders[i].id == orderId ==>
      r[i].status == status && r[i].(status := orders[i].status) == orders[i]
    ensures forall i :: 0 <= i < |orders| && orders[i].id != orderId ==> r[i] == orders[i]
  {
    Map(orders, (o: Order) => if o.id == orderId then o.(status := status) else o)
  }

  /** The per-order rewrite of `handleRateOrder`: orders with the given id get
      the rating, the review and status `Completed`; nothing else changes. */
  function WithRating(orders: seq<Order>, orderId: string, rating: int, review: string): (r: seq<Order>)
    ensures |r| == |orders|
    ensures forall i :: 0 <= i < |orders| ==> r[i].id == orders[i].id
    ensures forall i :: 0 <= i < |orders| && orders[i].id == orderId ==>
      && r[i].rating == Some(rating) && r[i].review == Some(review) && r[i].status == Completed
      && r[i].(rating := orders[i].rating, review := orders[i].review, status := orders[i].status) == orders[i]
    ensures forall i :: 0 <= i < |orders| && orders[i].id != orderId ==> r[i] == orders[i]
  {
    Map(orders, (o: Order) => if o.id == orderId then o.(rating := Some(rating), review := Some(review), status := Completed) else o)
  }

  /** The entries `unlockAchievement(id)` flips: those with the id that are still locked. */
  function LockedWithId(id: string): Achievement -> bool
  {
    (a: Achievement) => a.id == id && !a.unlocked
  }

  /** The per-entry rewrite of `unlockAchievement`: an entry ends unlocked when
      it was unlocked before or carries the id; no other field changes. */
  function Unlock(achievements: seq<Achievement>, id: string): (r: seq<Achievement>)
    ensures |r| == |achievements|
    ensures forall i :: 0 <= i < |achievements| ==>
      && r[i].(unlocked := achievements[i].unlocked) == achievements[i]
      && r[i].unlocked == (achievements[i].unlocked || achievements[i].id == id)
  {
    Map(achievements, (a: Achievement) => if a.id == id && !a.unlocked then a.(unlocked := true) else a)
  }

  /** The notifications `unlockAchievement(id)` shows, one per entry it flips:
      none exactly when every entry with the id is already unlocked. */
  function UnlockNotices(achievements: seq<Achievement>, id: string): (r: seq<string>)
    ensures r == [] <==>
      forall i :: 0 <= i < |achievements| && achievements[i].id == id ==> achievements[i].unlocked
  {
    FilterEmptyIff(achievements, LockedWithId(id));
    Map(Filter(achievements, LockedWithId(id)), (a: Achievement) => UnlockedPrefix + a.title)
  }

  /** The per-reward rewrite of `handleRedeem`: the reward with the id counts
      one more redemption; nothing else changes. */
  function RedeemIn(rewards: seq<Reward>, rewardId: string): (r: seq<Reward>)
    ensures |r| == |rewards|
    ensures forall i :: 0 <= i < |rewards| && rewards[i].id == rewardId ==>
      r[i] == rewards[i].(redeemedCount := rewards[i].redeemedCount + 1)
    ensures forall i :: 0 <= i < |rewards| && rewards[i].id != rewardId ==> r[i] == rewards[i]
  {
    Map(rewards, (w: Reward) => if w.id == rewardId then w.(redeemedCount := w.redeemedCount + 1) else w)
  }

  /** The spicy trigger of `handleOrder`: some tag, lower-cased, contains "spicy". */
  function HasSpicyTag(dish: Dish): (r: bool)
    ensures r <==> exists i :: 0 <= i < |dish.tags| && Occurs(Lower(dish.tags[i]), "spicy")
  {
    SomeTagOccursIff(dish.tags, "spicy");
    SomeTagContains(dish.tags, "spicy")
  }

  predicate IsActive(o: Order)
  {
    o.status == Pending || o.status == Cooking
  }

  /** The badge count of the navigation bar: orders still pending or cooking. */
  function PendingOrdersCount(orders: seq<Order>): (r: nat)
    ensures r <= |orders|
    ensures r == 0 <==> forall i :: 0 <= i < |orders| ==> !IsActive(orders[i])
  {
    FilterEmptyIff(orders, IsActive);
    |Filter(orders, IsActive)|
  }

  /** A new order adds one to the badge exactly when it is pending or cooking. */
  lemma PendingOrdersCountCons(o: Order, orders: seq<Order>)
    ensures PendingOrdersCount([o] + orders) == PendingOrdersCount(orders) + (if IsActive(o) then 1 else 0)
  {
    FilterCons(o, orders, IsActive);
  }

  /** Unlocking twice changes nothing the second time and shows nothing more. */
  lemma UnlockTwice(achievements: seq<Achievement>, id: string)
    ensures Unlock(Unlock(achievements, id), id) == Unlock(achievements, id)
    ensures UnlockNotices(Unlock(achievements, id), id) == []
  {
  }

  /** With unique ids, one call shows at most one notification. */
  lemma UnlockNotifiesAtMostOnce(achievements: seq<Achievement>, id: string)
    requires AchievementIdsUnique(achievements)
    ensures |UnlockNotices(achievements, id)| <= 1
  {
    FilterAtMostOne(achievements, LockedWithId(id));
  }

  /** Rating with a value the star buttons offer keeps every rating in 1..5. */
  lemma WithRatingKeepsRange(orders: seq<Order>, orderId: string, rating: int, review: string)
    requires 1 <= rating <= 5
    requires forall i :: 0 <= i < |orders| ==> RatingInRange(orders[i].rating)
    ensures forall i :: 0 <= i < |orders| ==> RatingInRange(WithRating(orders, orderId, rating, review)[i].rating)
  {
  }

  /** A dish tagged "Spicy", such as the seed menu's carbonara, triggers "Spicy Love". */
  lemma SpicyTagTriggers(dish: Dish, i: int)
    requires 0 <= i < |dish.tags| && dish.tags[i] == "Spicy"
    ensures HasSpicyTag(dish)
  {
    assert OccursAt(Lower(dish.tags[i]), "spicy", 0);
  }

  /** The application root's state and its handlers. Handlers run one at a
      time; `notifications` logs every message shown, oldest first. */
  class App {
    var dishes: seq<Dish>
    var orders: seq<Order>
    var coins: int
    var achievements: seq<Achievement>
    var rewards: seq<Reward>
    var notifications: seq<string>
    var partnerName: string

    /** The balance is never negative; order ids and achievement ids are unique. */
    ghost predicate Valid()
      reads this
    {
      coins >= 0 && OrderIdsUnique(orders) && AchievementIdsUnique(achievements)
    }

    /** No entry "Master Chef" is unlocked. */
    predicate MasterChefLocked()
      reads this
    {
      forall i :: 0 <= i < |achievements| && achievements[i].id == MasterChefId ==> !achievements[i].unlocked
    }

    /** The initial state: the seed menu, no orders, 120 coins, every
        achievement locked and every reward never redeemed. */
    constructor ()
      ensures Valid() && MasterChefLocked()
      ensures dishes == InitialDishes && orders == [] && coins == InitialCoins
      ensures achievements == InitialAchievements && rewards == InitialRewards
      ensures notifications == [] && partnerName == DefaultPartnerName
      ensures forall i :: 0 <= i < |achievements| ==> !achievements[i].unlocked
      ensures forall i :: 0 <= i < |rewards| ==> rewards[i].redeemedCount == 0
    {
      dishes := InitialDishes;
      orders := [];
      coins := InitialCoins;
      achievements := InitialAchievements;
      rewards := InitialRewards;
      notifications := [];
      partnerName := DefaultPartnerName;
    }

    /** `handleAddDish`: the dish goes first on the menu. */
    method AddDish(dish: Dish)
      requires Valid()
      modifies this`dishes, this`notifications
      ensures Valid()
      ensures dishes == [dish] + old(dishes)
      ensures notifications == old(notifications) + [DishAddedNotice]
      ensures old(MasterChefLocked()) ==> MasterChefLocked()
    {
      dishes := [dish] + dishes;
      notifications := notifications + [DishAddedNotice];
    }

    /** `unlockAchievement`: flips the still-locked entries with the id and
        announces each flip; unlocked entries stay unlocked. */
    method UnlockAchievement(id: string)
      requires Valid()
      modifies this`achievements, this`notifications
      ensures Valid()
      ensures achievements == Unlock(old(achievements), id)
      ensures notifications == old(notifications) + UnlockNotices(old(achievements), id)
      ensures |notifications| <= |old(notifications)| + 1
      ensures id != MasterChefId && old(MasterChefLocked()) ==> MasterChefLocked()
    {
      UnlockNotifiesAtMostOnce(achievements, id);
      notifications := notifications + UnlockNotices(achievements, id);
      achievements := Unlock(achievements, id);
    }

    /** `handleOrder`: puts a new pending order first, announces it, and
        unlocks "Spicy Love" when the dish has a spicy tag. `orderId` and
        `now` stand for `Date.now()`; the id must not be in use. */
    method PlaceOrder(dish: Dish, time: string, note: string, orderId: string, now: int)
      requires Valid()
      requires forall i :: 0 <= i < |orders| ==> orders[i].id != orderId
      modifies this`orders, this`achievements, this`notifications
      ensures Valid()
      ensures |orders| == |old(orders)| + 1 && orders[1..] == old(orders)
      ensures orders[0] == Order(orderId, dish.id, dish.name, now, Some(time), Pending,
                                 None, None, Some(note), partnerName, None)
      ensures HasSpicyTag(dish) ==>
        && achievements == Unlock(old(achievements), SpicyLoveId)
        && notifications == old(notifications) + ["Ordered " + dish.name + "!"] + UnlockNotices(old(achievements), SpicyLoveId)
      ensures !HasSpicyTag(dish) ==>
        && achievements == old(achievements)
        && notifications == old(notifications) + ["Ordered " + dish.name + "!"]
      ensures HasSpicyTag(dish) ==>
        forall i :: 0 <= i < |achievements| && achievements[i].id == SpicyLoveId ==> achievements[i].unlocked
      ensures old(MasterChefLocked()) ==> MasterChefLocked()
    {
      var order := Order(orderId, dish.id, dish.name, now, Some(time), Pending,
                         None, None, Some(note), partnerName, None);
      orders := [order] + orders;
      notifications := notifications + ["Ordered " + dish.name + "!"];
      if HasSpicyTag(dish) {
        UnlockAchievement(SpicyLoveId);
      }
    }

    /** `handleUpdateStatus`: rewrites the status of the orders with the id.
        Requesting `Completed` credits 50 coins and unlocks "First Date" on
        every call, whether or not an order has the id. */
    method UpdateStatus(orderId: string, status: Status)
      requires Valid()
      modifies this`orders, this`coins, this`achievements, this`notifications
      ensures Valid()
      ensures orders == WithStatus(old(orders), orderId, status)
      ensures status == Completed ==>
        && coins == old(coins) + CompletionCredit
        && achievements == Unlock(old(achievements), FirstDateId)
        && notifications == old(notifications) + [CookingDoneNotice] + UnlockNotices(old(achievements), FirstDateId)
      ensures status != Completed ==>
        && coins == old(coins)
        && achievements == old(achievements)
        && notifications == old(notifications)
      ensures old(MasterChefLocked()) ==> MasterChefLocked()
    {
      orders := WithStatus(orders, orderId, status);
      if status == Completed {
        coins := coins + CompletionCredit;
        notifications := notifications + [CookingDoneNotice];
        UnlockAchievement(FirstDateId);
      }
    }

    /** `handleRateOrder`: the orders with the id get the rating and review
        and become `Completed`; 10 coins are credited on every call, whatever
        the rating and whether or not an order has the id. */
    method RateOrder(orderId: string, rating: int, review: string)
      requires Valid()
      modifies this`orders, this`coins, this`notifications
      ensures Valid()
      ensures orders == WithRating(old(orders), orderId, rating, review)
      ensures coins == old(coins) + RatingCredit
      ensures notifications == old(notifications) + [RatingNotice]
    {
      orders := WithRating(orders, orderId, rating, review);
      coins := coins + RatingCredit;
      notifications := notifications + [RatingNotice];
    }

    /** `handleRedeem`: when the balance covers the cost, debits it, counts
        one more redemption of the reward with that id and unlocks "Generous
        Soul"; otherwise nothing changes. */
    method Redeem(reward: Reward)
      requires Valid()
      modifies this`coins, this`rewards, this`achievements, this`notifications
      ensures Valid()
      ensures old(coins) >= reward.cost ==>
        && coins == old(coins) - reward.cost
        && rewards == RedeemIn(old(rewards), reward.id)
        && achievements == Unlock(old(achievements), GenerousSoulId)
        && notifications == old(notifications) + ["Redeemed: " + reward.title + "!"]
                            + UnlockNotices(old(achievements), GenerousSoulId)
      ensures old(coins) < reward.cost ==>
        && coins == old(coins)
        && rewards == old(rewards)
        && achievements == old(achievements)
        && notifications == old(notifications)
      ensures old(MasterChefLocked()) ==> MasterChefLocked()
    {
      if coins >= reward.cost {
        coins := coins - reward.cost;
        rewards := RedeemIn(rewards, reward.id);
        notifications := notifications + ["Redeemed: " + reward.title + "!"];
        UnlockAchievement(GenerousSoulId);
      }
    }
  }
}
