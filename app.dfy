/** The request handlers of server/app.py as operations on a store holding the
    three tables. Reads are functions of the tables; the delete and the create
    are methods that change them. */
module App {
  import opened Wrappers
  import opened Models
  import Keys

  /** The JSON bodies the handlers send. */
  datatype Body =
    | Empty
    | Error(error: string)
    | Errors(errors: seq<string>)
    | Restaurants(restaurants: seq<RestaurantSummary>)
    | Pizzas(pizzas: seq<PizzaSummary>)
    | RestaurantDetail(restaurant: RestaurantOut)
    | Created(restaurantPizza: RestaurantPizzaOut)

  /** An HTTP status code and a body. */
  datatype Response = Response(status: int, body: Body)

  const NOT_FOUND: Response := Response(404, Error("Restaurant not found"))
  const VALIDATION_FAILED: Response := Response(400, Errors(["validation errors"]))

  /** A key of the request's JSON object: absent, or present with a value. */
  datatype Field<T> = Absent | Given(value: T)

  /** The parsed JSON posted to /restaurant_pizzas: an object, whose foreign keys may
      be JSON null, or any other JSON value (null, a list, a number, a string). */
  datatype CreateBody =
    | JsonObject(price: Field<PriceIn>, pizzaId: Field<Option<Id>>, restaurantId: Field<Option<Id>>)
    | NonObject

  /** Why building the row raised: a TypeError on subscripting a value that is not
      an object, a KeyError on a lookup, or the validator's ValueError. */
  datatype CreateError = NotSubscriptable | MissingKey(key: string) | InvalidPrice(reason: PriceError)

  /** The `try` block's construction step: subscripting the parsed body, the three lookups data["price"],
      data["pizza_id"], data["restaurant_id"] in that order, then the constructor,
      which runs the price validator. */
  function NewRestaurantPizza(data: CreateBody): (r: Result<RestaurantPizza, CreateError>)
    ensures data.NonObject? ==> r == Failure(NotSubscriptable)
    ensures data.JsonObject? && data.price.Absent? ==> r == Failure(MissingKey("price"))
    ensures data.JsonObject? && data.price.Given? && data.pizzaId.Absent? ==> r == Failure(MissingKey("pizza_id"))
    ensures data.JsonObject? && data.price.Given? && data.pizzaId.Given? && data.restaurantId.Absent? ==>
      r == Failure(MissingKey("restaurant_id"))
    ensures r.Success? <==>
      && data.JsonObject?
      && data.price.Given? && data.pizzaId.Given? && data.restaurantId.Given?
      && data.price.value.Int? && PriceInRange(data.price.value.n)
    ensures r.Success? ==>
      r.value == RestaurantPizza(data.price.value.n, data.restaurantId.value, data.pizzaId.value)
  {
    match data
    case NonObject => Failure(NotSubscriptable)
    case JsonObject(price, pizzaId, restaurantId) =>
      match (price, pizzaId, restaurantId)
      case (Absent, _, _) => Failure(MissingKey("price"))
      case (Given(_), Absent, _) => Failure(MissingKey("pizza_id"))
      case (Given(_), Given(_), Absent) => Failure(MissingKey("restaurant_id"))
      case (Given(v), Given(p), Given(q)) =>
        match ValidatePrice(v)
        case Failure(e) => Failure(InvalidPrice(e))
        case Success(n) => Success(RestaurantPizza(n, q, p))
  }

  /** The database: three tables keyed by primary key. */
  class Store {
    var restaurants: RestaurantTable
    var pizzas: PizzaTable
    var restaurantPizzas: JoinTable

    /** Every stored price lies in 1..30. */
    ghost predicate Valid()
      reads this
    {
      PricesValid(restaurantPizzas)
    }

    /** A store seeded with restaurants and pizzas and no join rows. */
    constructor (restaurants: RestaurantTable, pizzas: PizzaTable)
      ensures Valid()
      ensures this.restaurants == restaurants && this.pizzas == pizzas && restaurantPizzas == map[]
    {
      this.restaurants := restaurants;
      this.pizzas := pizzas;
      restaurantPizzas := map[];
    }

    /** GET /restaurants: every restaurant once, in id order, as id, name and address. */
    function GetRestaurants(): (r: Response)
      reads this
      ensures r.status == 200 && r.body.Restaurants?
      ensures |r.body.restaurants| == |restaurants|
      ensures forall i :: 0 <= i < |r.body.restaurants| ==>
        r.body.restaurants[i].id in restaurants &&
        r.body.restaurants[i] == SummarizeRestaurant(r.body.restaurants[i].id, restaurants[r.body.restaurants[i].id])
      ensures forall k :: k in restaurants ==>
        exists i :: 0 <= i < |r.body.restaurants| && r.body.restaurants[i].id == k
      ensures forall i, j :: 0 <= i < j < |r.body.restaurants| ==>
        r.body.restaurants[i].id < r.body.restaurants[j].id
    {
      var table := restaurants;
      var ids := Keys.Ascending(table.Keys);
      var list := seq(|ids|, i requires 0 <= i < |ids| => SummarizeRestaurant(ids[i], table[ids[i]]));
      assert forall i :: 0 <= i < |ids| ==> list[i].id == ids[i];
      Response(200, Restaurants(list))
    }

    /** GET /restaurants/<id>: 404 for an unknown id, else the full restaurant. */
    function GetRestaurant(id: nat): (r: Response)
      reads this
      ensures id !in restaurants ==> r == NOT_FOUND
      ensures id in restaurants ==>
        r == Response(200, RestaurantDetail(SerializeRestaurant(id, restaurants[id], pizzas, restaurantPizzas)))
    {
      if id !in restaurants then NOT_FOUND
      else Response(200, RestaurantDetail(SerializeRestaurant(id, restaurants[id], pizzas, restaurantPizzas)))
    }

    /** GET /pizzas: every pizza once, in id order, as id, name and ingredients. */
    function GetPizzas(): (r: Response)
      reads this
      ensures r.status == 200 && r.body.Pizzas?
      ensures |r.body.pizzas| == |pizzas|
      ensures forall i :: 0 <= i < |r.body.pizzas| ==>
        r.body.pizzas[i].id in pizzas &&
        r.body.pizzas[i] == SummarizePizza(r.body.pizzas[i].id, pizzas[r.body.pizzas[i].id])
      ensures forall k :: k in pizzas ==>
        exists i :: 0 <= i < |r.body.pizzas| && r.body.pizzas[i].id == k
      ensures forall i, j :: 0 <= i < j < |r.body.pizzas| ==>
        r.body.pizzas[i].id < r.body.pizzas[j].id
    {
      var table := pizzas;
      var ids := Keys.Ascending(table.Keys);
      var list := seq(|ids|, i requires 0 <= i < |ids| => SummarizePizza(ids[i], table[ids[i]]));
      assert forall i :: 0 <= i < |ids| ==> list[i].id == ids[i];
      Response(200, Pizzas(list))
    }

    /** DELETE /restaurants/<id>: 404 and no change for an unknown id; otherwise
        204 with an empty body, the restaurant gone and its join rows with it
        (the cascade), pizzas and all other join rows untouched. */
    method DeleteRestaurant(id: nat) returns (r: Response)
      requires Valid()
      modifies this
      ensures Valid()
      ensures pizzas == old(pizzas)
      ensures id !in old(restaurants) ==>
        r == NOT_FOUND && restaurants == old(restaurants) && restaurantPizzas == old(restaurantPizzas)
      ensures id in old(restaurants) ==>
        && r == Response(204, Empty)
        && restaurants == old(restaurants) - {id}
        && restaurantPizzas == WithoutRestaurant(old(restaurantPizzas), id)
    {
      if id !in restaurants {
        return NOT_FOUND;
      }
      restaurantPizzas := WithoutRestaurant(restaurantPizzas, id);
      restaurants := restaurants - {id};
      r := Response(204, Empty);
    }

    /** POST /restaurant_pizzas. `accepted` is the database engine's verdict on the
        commit (a foreign-key or type check the engine may apply); the model leaves
        it open. Any failure gives 400 and no change; success adds exactly one row
        under a fresh id and answers 201 with the serialised row. */
    method CreateRestaurantPizza(data: CreateBody, accepted: bool) returns (r: Response)
      requires Valid()
      modifies this
      ensures Valid()
      ensures restaurants == old(restaurants) && pizzas == old(pizzas)
      ensures r.status == 201 <==> NewRestaurantPizza(data).Success? && accepted
      ensures r.status != 201 ==> r == VALIDATION_FAILED && restaurantPizzas == old(restaurantPizzas)
      ensures r.status == 201 ==>
        var id := Keys.NextId(old(restaurantPizzas).Keys);
        var row := NewRestaurantPizza(data).value;
        && id !in old(restaurantPizzas)
        && restaurantPizzas == old(restaurantPizzas)[id := row]
        && r == Response(201, Created(SerializeRestaurantPizza(id, row, restaurants, pizzas)))
    {
      var built := NewRestaurantPizza(data);
      if built.Failure? || !accepted {
        return VALIDATION_FAILED;
      }
      var row := built.value;
      var id := Keys.NextId(restaurantPizzas.Keys);
      restaurantPizzas := restaurantPizzas[id := row];
      r := Response(201, Created(SerializeRestaurantPizza(id, row, restaurants, pizzas)));
    }
  }

  /** A client of the contracts alone: an out-of-range and a valid create, then a
      delete, against a store seeded with restaurant 1 and pizza 1. */
  method SeededWalkthrough() {
    var store := new Store(map[1 := Restaurant(Some("Karen's Pizza Shack"), Some("address1"))],
                           map[1 := Pizza(Some("Emma"), Some("Dough, Tomato Sauce, Cheese"))]);
    var bad := store.CreateRestaurantPizza(JsonObject(Given(Int(35)), Given(Some(1)), Given(Some(1))), true);
    assert bad == VALIDATION_FAILED && store.restaurantPizzas == map[];
    var junk := store.CreateRestaurantPizza(NonObject, true);
    assert junk == VALIDATION_FAILED && store.restaurantPizzas == map[];
    var good := store.CreateRestaurantPizza(JsonObject(Given(Int(5)), Given(Some(1)), Given(Some(1))), true);
    assert good.status == 201 && good.body.restaurantPizza.price == 5;
    assert good.body.restaurantPizza.pizza == Some(PizzaSummary(1, Some("Emma"), Some("Dough, Tomato Sauce, Cheese")));
    assert store.restaurantPizzas == map[1 := RestaurantPizza(5, Some(1), Some(1))];
    var gone := store.DeleteRestaurant(1);
    assert gone == Response(204, Empty) && store.restaurantPizzas == map[];
    assert store.GetRestaurant(1) == NOT_FOUND;
  }
}
