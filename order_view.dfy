/** The kitchen view: the fixed status flow behind the advance button, the
    newest-first listing, which buttons an order shows, and the rating form. */
module OrderView {
  import opened Types
  import opened Seqs

  /** The stages in the order the advance button walks them. */
  const Flow: seq<Status> := [Pending, Cooking, Served, Completed]

  /** The rating the form starts from and returns to. */
  const DefaultRating := 5

  /** The ratings the form's star buttons offer. */
  const StarChoices: seq<int> := [1, 2, 3, 4, 5]

  /** The position of a status in the flow, written out independently of `Flow`. */
  function Rank(s: Status): nat
  {
    match s
    case Pending => 0
    case Cooking => 1
    case Served => 2
    case Completed => 3
  }

  /** The successor lookup of `handleStatusChange`: the next stage in the
      flow, or none for the last one. */
  function Successor(s: Status): (r: Option<Status>)
    ensures r.None? <==> s == Completed
    ensures r.Some? ==> Rank(r.value) == Rank(s) + 1
  {
    var i := IndexOf(Flow, s);
    assert Flow[Rank(s)] == s;
    assert IndexOf(Flow, s) == Rank(s);
    if i < |Flow| - 1 then Some(Flow[i + 1]) else None
  }

  /** The call `handleStatusChange(order)` makes to `updateOrderStatus`. */
  datatype StatusRequest = StatusRequest(orderId: string, status: Status)

  /** `handleStatusChange`: asks for the successor status of the order, or
      makes no call for a completed order. */
  function HandleStatusChange(order: Order): (call: Option<StatusRequest>)
    ensures call.None? <==> order.status == Completed
    ensures call.Some? ==> call.value.orderId == order.id && Rank(call.value.status) == Rank(order.status) + 1
  {
    match Successor(order.status)
    case Some(next) => Some(StatusRequest(order.id, next))
    case None => None
  }

  /** The status reached after pressing the advance button `n` times. */
  function AdvanceTimes(s: Status, n: nat): Status
    decreases n
  {
    if n == 0 then s
    else match Successor(s)
      case Some(next) => AdvanceTimes(next, n - 1)
      case None => s
  }

  /** Advancing never goes back, and from any status it reaches `Completed`
      after exactly `3 - Rank(s)` presses, and not before. */
  lemma {:induction false} AdvanceReachesCompleted(s: Status, n: nat)
    ensures Rank(AdvanceTimes(s, n)) >= Rank(s)
    ensures AdvanceTimes(s, n) == Completed <==> n >= 3 - Rank(s)
    decreases n
  {
    if n > 0 {
      match Successor(s)
      case Some(next) => AdvanceReachesCompleted(next, n - 1);
      case None =>
    }
  }

  /** The advance button is shown exactly when pressing it makes a call. */
  predicate ShowsAdvance(order: Order)
  {
    order.status != Completed
  }

  /** "Rate Meal" is shown for a served order whose rating is falsy. */
  predicate ShowsRateMeal(order: Order)
  {
    order.status == Served && !IsRated(order.rating)
  }

  lemma ShowsAdvanceIffCall(order: Order)
    ensures ShowsAdvance(order) <==> HandleStatusChange(order).Some?
    ensures ShowsRateMeal(order) ==> ShowsAdvance(order)
  {
  }

  predicate NewestFirst(orders: seq<Order>)
  {
    forall i, j :: 0 <= i < j < |orders| ==> orders[i].orderDate >= orders[j].orderDate
  }

  /** Neighbours are in order. */
  predicate NeighboursNewestFirst(orders: seq<Order>)
  {
    forall i :: 0 <= i < |orders| - 1 ==> orders[i].orderDate >= orders[i + 1].orderDate
  }

  lemma {:induction false} NeighboursSuffice(orders: seq<Order>)
    requires NeighboursNewestFirst(orders)
    ensures NewestFirst(orders)
  {
    if |orders| > 1 {
      NeighboursSuffice(orders[1..]);
      forall j | 1 <= j < |orders|
        ensures orders[0].orderDate >= orders[j].orderDate
      {
        assert orders[1..][0] == orders[1];
        assert orders[1..][j - 1] == orders[j];
        assert orders[0].orderDate >= orders[1].orderDate;
      }
    }
  }

  /** Places `o` before the first order not newer than it. */
  function InsertByDate(o: Order, orders: seq<Order>): (r: seq<Order>)
    ensures multiset(r) == multiset(orders) + multiset{o}
    ensures |r| == |orders| + 1
    ensures r[0] == o || (orders != [] && r[0] == orders[0])
    ensures NeighboursNewestFirst(orders) ==> NeighboursNewestFirst(r)
  {
    if orders == [] then [o]
    else if orders[0].orderDate <= o.orderDate then [o] + orders
    else
      assert orders == [orders[0]] + orders[1..];
      [orders[0]] + InsertByDate(o, orders[1..])
  }

  /** `sortedOrders`: a stable sort of a copy of the orders, newest first. */
  function SortedOrders(orders: seq<Order>): (r: seq<Order>)
    ensures multiset(r) == multiset(orders)
    ensures NeighboursNewestFirst(r)
  {
    if orders == [] then []
    else
      assert orders == [orders[0]] + orders[1..];
      InsertByDate(orders[0], SortedOrders(orders[1..]))
  }

  /** The listing is newest first and holds exactly the orders given. */
  lemma SortedOrdersIsNewestFirst(orders: seq<Order>)
    ensures NewestFirst(SortedOrders(orders))
    ensures multiset(SortedOrders(orders)) == multiset(orders)
  {
    NeighboursSuffice(SortedOrders(orders));
  }

  /** The orders with timestamp `t`. */
  function PlacedAt(t: int): Order -> bool
  {
    (o: Order) => o.orderDate == t
  }

  /** Inserting `o` adds it to the orders sharing its timestamp, in front,
      and leaves the orders of every other timestamp as they were. */
  lemma {:induction false} InsertKeepsTies(o: Order, orders: seq<Order>, t: int)
    ensures Filter(InsertByDate(o, orders), PlacedAt(t))
         == (if o.orderDate == t then [o] else []) + Filter(orders, PlacedAt(t))
    decreases |orders|, 1
  {
    var q := PlacedAt(t);
    if orders == [] || orders[0].orderDate <= o.orderDate {
      assert InsertByDate(o, orders) == [o] + orders;
      FilterCons(o, orders, q);
    } else {
      InsertKeepsTiesStep(o, orders, t);
    }
  }

  lemma InsertKeepsTiesStep(o: Order, orders: seq<Order>, t: int)
    requires orders != [] && orders[0].orderDate > o.orderDate
    ensures Filter(InsertByDate(o, orders), PlacedAt(t))
         == (if o.orderDate == t then [o] else []) + Filter(orders, PlacedAt(t))
    decreases |orders|, 0
  {
    var q := PlacedAt(t);
    var x, tail := orders[0], orders[1..];
    var rest := InsertByDate(o, tail);
    assert InsertByDate(o, orders) == [x] + rest;
    assert [x] + tail == orders;
    InsertKeepsTies(o, tail, t);
    FilterCons(x, rest, q);
    FilterCons(x, tail, q);
    if o.orderDate == t {
      assert !q(x);
      assert Filter(rest, q) == [o] + Filter(tail, q);
    } else {
      assert Filter(rest, q) == Filter(tail, q);
    }
  }

  /** Stability: the orders sharing any one timestamp keep their input order. */
  lemma {:induction false} SortedOrdersIsStable(orders: seq<Order>, t: int)
    ensures Filter(SortedOrders(orders), PlacedAt(t)) == Filter(orders, PlacedAt(t))
  {
    if orders != [] {
      SortedOrdersIsStable(orders[1..], t);
      InsertKeepsTies(orders[0], SortedOrders(orders[1..]), t);
      FilterCons(orders[0], orders[1..], PlacedAt(t));
      assert [orders[0]] + orders[1..] == orders;
    }
  }

  /** The call `submitRating` makes to `rateOrder`. */
  datatype RateRequest = RateRequest(orderId: string, rating: int, review: string)

  /** The rating modal's state: which order is being rated (none when the
      modal is closed), the chosen stars and the review text. */
  class RatingForm {
    var ratingOrderId: Option<string>
    var ratingValue: int
    var reviewText: string

    /** The chosen rating is always one the star buttons offer. */
    ghost predicate Valid()
      reads this
    {
      ratingValue in StarChoices
    }

    constructor ()
      ensures Valid()
      ensures ratingOrderId == None && ratingValue == DefaultRating && reviewText == ""
    {
      ratingOrderId := None;
      ratingValue := DefaultRating;
      reviewText := "";
    }

    /** "Rate Meal" opens the modal for the order. */
    method Open(order: Order)
      requires Valid()
      modifies this`ratingOrderId
      ensures Valid()
      ensures ratingOrderId == Some(order.id)
    {
      ratingOrderId := Some(order.id);
    }

    /** A star button sets the rating. */
    method ChooseStars(star: int)
      requires star in StarChoices
      modifies this`ratingValue
      ensures Valid()
      ensures ratingValue == star
    {
      ratingValue := star;
    }

    method EditReview(text: string)
      requires Valid()
      modifies this`reviewText
      ensures Valid()
      ensures reviewText == text
    {
      reviewText := text;
    }

    /** "Cancel" closes the modal; the stars and the review are kept. */
    method Cancel()
      requires Valid()
      modifies this`ratingOrderId
      ensures Valid()
      ensures ratingOrderId == None
    {
      ratingOrderId := None;
    }

    /** `submitRating`: with a (truthy) target id, hands the rating on and
        resets the form to its initial state; otherwise does nothing. */
    method Submit() returns (call: Option<RateRequest>)
      requires Valid()
      modifies this
      ensures Valid()
      ensures old(ratingOrderId).Some? && old(ratingOrderId).value != "" ==>
        && call == Some(RateRequest(old(ratingOrderId).value, old(ratingValue), old(reviewText)))
        && ratingOrderId == None && reviewText == "" && ratingValue == DefaultRating
      ensures !(old(ratingOrderId).Some? && old(ratingOrderId).value != "") ==>
        && call == None
        && ratingOrderId == old(ratingOrderId) && ratingValue == old(ratingValue) && reviewText == old(reviewText)
      ensures call.Some? ==> call.value.rating in StarChoices
    {
      if ratingOrderId.Some? && ratingOrderId.value != "" {
        call := Some(RateRequest(ratingOrderId.value, ratingValue, reviewText));
        ratingOrderId := None;
        reviewText := "";
        ratingValue := DefaultRating;
      } else {
        call := None;
      }
    }
  }
}
