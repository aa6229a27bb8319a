/** The memories view: the completed orders (the food diary), the numbers on
    its statistics card, and how many achievements are unlocked. */
module Memories {
  import opened Types
  import opened Seqs

  predicate IsCompleted(o: Order)
  {
    o.status == Completed
  }

  /** `completedOrders`, which the food diary lists: exactly the completed
      orders, each as often as in the input, in their original order. */
  function CompletedOrders(orders: seq<Order>): (r: seq<Order>)
    ensures IsSubsequence(r, orders)
    ensures forall o :: o in r <==> o in orders && o.status == Completed
    ensures forall o :: multiset(r)[o] == if o.status == Completed then multiset(orders)[o] else 0
  {
    FilterCounts(orders, IsCompleted);
    Filter(orders, IsCompleted)
  }

  /** `curr.rating || 0`: a missing rating counts as 0. */
  function RatingOrZero(o: Order): (r: int)
    ensures r == 0 <==> !IsRated(o.rating)
    ensures IsRated(o.rating) ==> r == o.rating.value
  {
    if o.rating.Some? then o.rating.value else 0
  }

  /** `totalRatings`: the sum of the ratings; nothing rated sums to 0. */
  function TotalRatings(orders: seq<Order>): (r: int)
    ensures (forall i :: 0 <= i < |orders| ==> !IsRated(orders[i].rating)) ==> r == 0
  {
    if orders == [] then 0 else RatingOrZero(orders[0]) + TotalRatings(orders[1..])
  }

  /** With ratings in 1..5 the total lies between the number of rated orders
      and five times the number of orders. */
  lemma {:induction false} TotalRatingsBounds(orders: seq<Order>)
    requires forall i :: 0 <= i < |orders| ==> RatingInRange(orders[i].rating)
    ensures |Filter(orders, (o: Order) => o.rating.Some?)| <= TotalRatings(orders) <= 5 * |orders|
  {
    if orders != [] {
      TotalRatingsBounds(orders[1..]);
      FilterCons(orders[0], orders[1..], (o: Order) => o.rating.Some?);
      assert [orders[0]] + orders[1..] == orders;
    }
  }

  /** The average shown on the card, before rounding to one decimal: the
      literal "0.0" when nothing is completed, or the total over the number
      of completed orders, rated or not. */
  datatype Average = NoMeals | Ratio(total: int, count: nat)

  function AverageRating(orders: seq<Order>): (a: Average)
    ensures a.NoMeals? <==> |CompletedOrders(orders)| == 0
    ensures a.Ratio? ==> a.count == |CompletedOrders(orders)| && a.total == TotalRatings(CompletedOrders(orders))
    ensures a.Ratio? && (forall i :: 0 <= i < |orders| ==> RatingInRange(orders[i].rating)) ==>
      0 <= a.total <= 5 * a.count
  {
    var done := CompletedOrders(orders);
    CompletedRatingsBounds(orders);
    if |done| > 0 then Ratio(TotalRatings(done), |done|) else NoMeals
  }

  /** With ratings in 1..5, the completed orders' total is at most five per order. */
  lemma CompletedRatingsBounds(orders: seq<Order>)
    ensures (forall i :: 0 <= i < |orders| ==> RatingInRange(orders[i].rating)) ==>
      0 <= TotalRatings(CompletedOrders(orders)) <= 5 * |CompletedOrders(orders)|
  {
    var done := CompletedOrders(orders);
    if forall i :: 0 <= i < |orders| ==> RatingInRange(orders[i].rating) {
      forall i | 0 <= i < |done|
        ensures RatingInRange(done[i].rating)
      {
        assert done[i] in orders;
      }
      TotalRatingsBounds(done);
    }
  }

  predicate IsUnlocked(a: Achievement)
  {
    a.unlocked
  }

  /** The achievements figure of the card: never more than the catalog, all
      of it exactly when every entry is unlocked, none exactly when none is. */
  function UnlockedCount(achievements: seq<Achievement>): (n: nat)
    ensures n <= |achievements|
    ensures n == 0 <==> forall i :: 0 <= i < |achievements| ==> !achievements[i].unlocked
    ensures n == |achievements| <==> forall i :: 0 <= i < |achievements| ==> achievements[i].unlocked
  {
    FilterEmptyIff(achievements, IsUnlocked);
    FilterFullIff(achievements, IsUnlocked);
    |Filter(achievements, IsUnlocked)|
  }
}
