/** The menu view: which dishes the search and the category buttons leave on
    screen, the order modal and the add-dish modal. */
module MenuView {
  import opened Types
  import opened Seqs
  import opened Text

  /** The category buttons: "All" or one category. */
  datatype CategoryChoice = All | Only(category: DishCategory)

  const DefaultDescription := "A delicious homemade dish."
  const CustomTags: seq<string> := ["Custom", "Homemade"]
  const DefaultNewCategory := Dinner
  const DefaultNewDifficulty := Medium
  const DefaultNewCalories := 500

  predicate MatchesCategory(choice: CategoryChoice, dish: Dish)
  {
    choice.All? || choice.category == dish.category
  }

  /** The search of the menu: the lower-cased name or some lower-cased tag
      contains the lower-cased term. */
  predicate MatchesSearch(dish: Dish, term: string)
  {
    Contains(Lower(dish.name), Lower(term)) || SomeTagContains(dish.tags, Lower(term))
  }

  /** A dish matches exactly when the lower-cased term occurs in its
      lower-cased name or in one of its lower-cased tags. */
  lemma MatchesSearchIff(dish: Dish, term: string)
    ensures MatchesSearch(dish, term) <==>
      || Occurs(Lower(dish.name), Lower(term))
      || exists i :: 0 <= i < |dish.tags| && Occurs(Lower(dish.tags[i]), Lower(term))
  {
    ContainsIff(Lower(dish.name), Lower(term));
    SomeTagOccursIff(dish.tags, Lower(term));
  }

  function Shown(choice: CategoryChoice, term: string): Dish -> bool
  {
    (d: Dish) => MatchesCategory(choice, d) && MatchesSearch(d, term)
  }

  /** `filteredDishes`: the dishes of the chosen category that match the
      search, in menu order. */
  function FilteredDishes(dishes: seq<Dish>, choice: CategoryChoice, term: string): (r: seq<Dish>)
    ensures IsSubsequence(r, dishes)
    ensures forall d :: d in r <==> d in dishes && MatchesCategory(choice, d) && MatchesSearch(d, term)
    ensures forall d :: multiset(r)[d] == (if MatchesCategory(choice, d) && MatchesSearch(d, term) then multiset(dishes)[d] else 0)
  {
    FilterCounts(dishes, Shown(choice, term));
    Filter(dishes, Shown(choice, term))
  }

  /** With "All" and an empty search, the whole menu is shown. */
  lemma ShowsWholeMenu(dishes: seq<Dish>)
    ensures FilteredDishes(dishes, All, "") == dishes
  {
    assert forall i :: 0 <= i < |dishes| ==> Shown(All, "")(dishes[i]);
    FilterKeepsAll(dishes, Shown(All, ""));
  }

  /** The dish `handleSaveNewDish` builds: the given fields, the fixed tags,
      not a favourite, and the stock description when none was typed. */
  function NewDish(id: string, name: string, description: string, category: DishCategory,
                   difficulty: Difficulty, calories: int): (d: Dish)
    ensures d.id == id && d.name == name && d.category == category
    ensures d.difficulty == difficulty && d.calories == Some(calories)
    ensures d.tags == ["Custom", "Homemade"] && !d.isFavorite
    ensures d.description != ""
    ensures description != "" ==> d.description == description
    ensures description == "" ==> d.description == DefaultDescription
  {
    Dish(id, name, if description == "" then DefaultDescription else description,
         category, difficulty, Some(calories), CustomTags, false)
  }

  /** The call `confirmOrder` makes to `onOrder`. */
  datatype OrderRequest = OrderRequest(dish: Dish, time: string, note: string)

  /** The menu view's own state. */
  class MenuForm {
    var selectedCategory: CategoryChoice
    var searchTerm: string
    var isOrderModalOpen: bool
    var isAddDishModalOpen: bool
    var selectedDish: Option<Dish>
    var orderTime: string
    var orderNote: string
    var newDishName: string
    var newDishDesc: string
    var newDishCategory: DishCategory
    var newDishDiff: Difficulty
    var newDishCalories: int

    constructor ()
      ensures selectedCategory == All && searchTerm == ""
      ensures !isOrderModalOpen && !isAddDishModalOpen
      ensures selectedDish == None && orderTime == "" && orderNote == ""
      ensures newDishName == "" && newDishDesc == "" && newDishCategory == DefaultNewCategory
      ensures newDishDiff == DefaultNewDifficulty && newDishCalories == DefaultNewCalories
    {
      selectedCategory := All;
      searchTerm := "";
      isOrderModalOpen := false;
      isAddDishModalOpen := false;
      selectedDish := None;
      orderTime := "";
      orderNote := "";
      newDishName := "";
      newDishDesc := "";
      newDishCategory := DefaultNewCategory;
      newDishDiff := DefaultNewDifficulty;
      newDishCalories := DefaultNewCalories;
    }

    /** `handleOrderClick`: selects the dish and opens the order modal; the
        suggested time, computed from the clock, is a parameter. */
    method OpenOrder(dish: Dish, suggestedTime: string)
      modifies this`selectedDish, this`orderTime, this`isOrderModalOpen
      ensures selectedDish == Some(dish) && orderTime == suggestedTime && isOrderModalOpen
    {
      selectedDish := Some(dish);
      orderTime := suggestedTime;
      isOrderModalOpen := true;
    }

    /** `confirmOrder`: with a dish selected, hands the order on, closes the
        modal and clears the note and the selection; otherwise does nothing.
        The time is kept. */
    method ConfirmOrder() returns (call: Option<OrderRequest>)
      modifies this`isOrderModalOpen, this`orderNote, this`selectedDish
      ensures old(selectedDish).Some? ==>
        && call == Some(OrderRequest(old(selectedDish).value, orderTime, old(orderNote)))
        && !isOrderModalOpen && orderNote == "" && selectedDish == None
      ensures old(selectedDish).None? ==>
        && call == None
        && isOrderModalOpen == old(isOrderModalOpen) && orderNote == old(orderNote) && selectedDish == None
    {
      if selectedDish.Some? {
        call := Some(OrderRequest(selectedDish.value, orderTime, orderNote));
        isOrderModalOpen := false;
        orderNote := "";
        selectedDish := None;
      } else {
        call := None;
      }
    }

    /** `handleSaveNewDish`: with a non-empty name, hands on the new dish,
        closes the modal and resets name, description and category (not
        difficulty or calories); with an empty name does nothing. `id`
        stands for `Date.now()`. */
    method SaveNewDish(id: string) returns (added: Option<Dish>)
      modifies this`isAddDishModalOpen, this`newDishName, this`newDishDesc, this`newDishCategory
      ensures old(newDishName) == "" ==>
        && added == None
        && isAddDishModalOpen == old(isAddDishModalOpen)
        && newDishName == old(newDishName) && newDishDesc == old(newDishDesc)
        && newDishCategory == old(newDishCategory)
      ensures old(newDishName) != "" ==>
        && added == Some(NewDish(id, old(newDishName), old(newDishDesc), old(newDishCategory),
                                 newDishDiff, newDishCalories))
        && !isAddDishModalOpen
        && newDishName == "" && newDishDesc == "" && newDishCategory == DefaultNewCategory
    {
      if newDishName == "" {
        added := None;
        return;
      }
      added := Some(NewDish(id, newDishName, newDishDesc, newDishCategory, newDishDiff, newDishCalories));
      isAddDishModalOpen := false;
      newDishName := "";
      newDishDesc := "";
      newDishCategory := DefaultNewCategory;
    }
  }
}
