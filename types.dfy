/** The records and enumerations of the meal-ordering application. Optional
    TypeScript fields (`x?: T`) become `Option<T>`; numbers become `int`
    (calories, which the add-dish form may hold as a fraction, are narrowed
    to `int` too). */
module Types {

  datatype Option<T> = None | Some(value: T)

  /** The six menu categories. */
  datatype DishCategory = Breakfast | Lunch | Dinner | Dessert | Drink | Snack

  datatype Difficulty = Easy | Medium | Hard

  /** The four stages of an order; `Completed` is the last. */
  datatype Status = Pending | Cooking | Served | Completed

  /** A menu entry. The image URL is not modelled. */
  datatype Dish = Dish(
    id: string,
    name: string,
    description: string,
    category: DishCategory,
    difficulty: Difficulty,
    calories: Option<int>,
    tags: seq<string>,
    isFavorite: bool)

  /** A request from one partner to the other. `rating` is meant to lie in 1..5. */
  datatype Order = Order(
    id: string,
    dishId: string,
    dishName: string,
    orderDate: int,
    scheduledTime: Option<string>,
    status: Status,
    rating: Option<int>,
    review: Option<string>,
    chefNote: Option<string>,
    chef: string,
    rewardEarned: Option<int>)

  /** An entry of the fixed achievement catalog; `unlocked` is its only state. */
  datatype Achievement = Achievement(
    id: string,
    title: string,
    description: string,
    icon: string,
    unlocked: bool)

  /** A coupon to be bought with coins. */
  datatype Reward = Reward(
    id: string,
    title: string,
    cost: int,
    icon: string,
    description: string,
    redeemedCount: int)

  /** JavaScript truthiness of an optional rating: absent and 0 are both falsy. */
  predicate IsRated(rating: Option<int>)
  {
    rating.Some? && rating.value != 0
  }

  /** The documented range of a rating. */
  predicate RatingInRange(rating: Option<int>)
  {
    rating.Some? ==> 1 <= rating.value <= 5
  }
}
