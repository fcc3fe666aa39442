/** The schema of server/models.py: the three tables, the price validator, the
    relationships with their cascade rules and association proxies, and the shapes
    the serializer produces, one datatype per nesting context. */
module Models {
  import opened Wrappers
  import Keys

  /** An integer primary key. */
  type Id = int

  /** A row of `restaurants`. Both string columns are nullable. */
  datatype Restaurant = Restaurant(name: Option<string>, address: Option<string>)

  /** A row of `pizzas`. Both string columns are nullable. */
  datatype Pizza = Pizza(name: Option<string>, ingredients: Option<string>)

  /** A row of `restaurant_pizzas`. The price is non-nullable; the two foreign keys
      are declared without `nullable=False` and so may be null. */
  datatype RestaurantPizza = RestaurantPizza(price: int, restaurantId: Option<Id>, pizzaId: Option<Id>)

  /** A table maps each primary key to the row stored under it. */
  type RestaurantTable = map<Id, Restaurant>
  type PizzaTable = map<Id, Pizza>
  type JoinTable = map<Id, RestaurantPizza>

  /** A loaded ORM object: its primary key and its row. */
  datatype Entity<T> = Entity(id: Id, record: T)

  // ---------------------------------------------------------------------------
  // Price validation

  const MIN_PRICE: int := 1
  const MAX_PRICE: int := 30

  predicate PriceInRange(p: int) {
    MIN_PRICE <= p <= MAX_PRICE
  }

  /** The value assigned to `price`. JSON null, a JSON integer, or anything else.
      Python treats `true`/`false` as the integers 1/0; this model files booleans
      under NonInt and does not reproduce that. */
  datatype PriceIn = Null | Int(n: int) | NonInt

  /** The three ValueErrors the validator raises. */
  datatype PriceError = Missing | NotAnInteger | OutOfRange

  /** RestaurantPizza.validate_price: accepts exactly the integers 1..30 and
      returns them unchanged. */
  function ValidatePrice(v: PriceIn): (r: Result<int, PriceError>)
    ensures v.Null? ==> r == Failure(Missing)
    ensures v.NonInt? ==> r == Failure(NotAnInteger)
    ensures v.Int? && !PriceInRange(v.n) ==> r == Failure(OutOfRange)
    ensures r.Success? <==> v.Int? && PriceInRange(v.n)
    ensures r.Success? ==> v == Int(r.value) && PriceInRange(r.value)
  {
    match v
    case Null => Failure(Missing)
    case NonInt => Failure(NotAnInteger)
    case Int(n) => if n < 1 || n > 30 then Failure(OutOfRange) else Success(n)
  }

  /** The store invariant: every stored join row has a price in 1..30. */
  ghost predicate PricesValid(rps: JoinTable) {
    forall k :: k in rps ==> PriceInRange(rps[k].price)
  }

  // ---------------------------------------------------------------------------
  // Relationships

  /** Restaurant.restaurant_pizzas: the ids of the join rows whose restaurant_id is
      rid, ascending (the listing order the model fixes for the unordered query). */
  function RowsOfRestaurant(rps: JoinTable, rid: Id): (rows: seq<Id>)
    ensures forall i :: 0 <= i < |rows| ==> rows[i] in rps && rps[rows[i]].restaurantId == Some(rid)
    ensures forall k :: k in rps && rps[k].restaurantId == Some(rid) ==> k in rows
    ensures forall i, j :: 0 <= i < j < |rows| ==> rows[i] < rows[j]
  {
    Keys.Ascending(set k | k in rps && rps[k].restaurantId == Some(rid))
  }

  /** Pizza.restaurant_pizzas: the ids of the join rows whose pizza_id is pid. */
  function RowsOfPizza(rps: JoinTable, pid: Id): (rows: seq<Id>)
    ensures forall i :: 0 <= i < |rows| ==> rows[i] in rps && rps[rows[i]].pizzaId == Some(pid)
    ensures forall k :: k in rps && rps[k].pizzaId == Some(pid) ==> k in rows
    ensures forall i, j :: 0 <= i < j < |rows| ==> rows[i] < rows[j]
  {
    Keys.Ascending(set k | k in rps && rps[k].pizzaId == Some(pid))
  }

  /** RestaurantPizza.pizza: the pizza a join row refers to, or None when its
      pizza_id is null or names no stored pizza. */
  function PizzaOf(pizzas: PizzaTable, row: RestaurantPizza): (p: Option<Entity<Pizza>>)
    ensures p.Some? <==> row.pizzaId.Some? && row.pizzaId.value in pizzas
    ensures p.Some? ==> p.value == Entity(row.pizzaId.value, pizzas[row.pizzaId.value])
  {
    match row.pizzaId
    case Some(k) => if k in pizzas then Some(Entity(k, pizzas[k])) else None
    case None => None
  }

  /** RestaurantPizza.restaurant: the restaurant a join row refers to, if any. */
  function RestaurantOf(restaurants: RestaurantTable, row: RestaurantPizza): (r: Option<Entity<Restaurant>>)
    ensures r.Some? <==> row.restaurantId.Some? && row.restaurantId.value in restaurants
    ensures r.Some? ==> r.value == Entity(row.restaurantId.value, restaurants[row.restaurantId.value])
  {
    match row.restaurantId
    case Some(k) => if k in restaurants then Some(Entity(k, restaurants[k])) else None
    case None => None
  }

  /** The association proxy Restaurant.pizzas: the `pizza` of each of the
      restaurant's join rows, in the order of restaurant_pizzas. */
  function PizzasOfRestaurant(pizzas: PizzaTable, rps: JoinTable, rid: Id): (ps: seq<Option<Entity<Pizza>>>)
    ensures |ps| == |RowsOfRestaurant(rps, rid)|
    ensures forall i :: 0 <= i < |ps| ==> ps[i] == PizzaOf(pizzas, rps[RowsOfRestaurant(rps, rid)[i]])
  {
    var rows := RowsOfRestaurant(rps, rid);
    seq(|rows|, i requires 0 <= i < |rows| => PizzaOf(pizzas, rps[rows[i]]))
  }

  /** The association proxy Pizza.restaurants. */
  function RestaurantsOfPizza(restaurants: RestaurantTable, rps: JoinTable, pid: Id): (rs: seq<Option<Entity<Restaurant>>>)
    ensures |rs| == |RowsOfPizza(rps, pid)|
    ensures forall i :: 0 <= i < |rs| ==> rs[i] == RestaurantOf(restaurants, rps[RowsOfPizza(rps, pid)[i]])
  {
    var rows := RowsOfPizza(rps, pid);
    seq(|rows|, i requires 0 <= i < |rows| => RestaurantOf(restaurants, rps[rows[i]]))
  }

  /** A pizza is listed in Restaurant.pizzas exactly when some join row links the
      restaurant to it. */
  lemma PizzasOfRestaurantMembers(pizzas: PizzaTable, rps: JoinTable, rid: Id, pid: Id)
    ensures (pid in pizzas && Some(Entity(pid, pizzas[pid])) in PizzasOfRestaurant(pizzas, rps, rid))
        <==> (pid in pizzas && exists k :: k in rps && rps[k].restaurantId == Some(rid) && rps[k].pizzaId == Some(pid))
  {
  }

  /** A restaurant is listed in Pizza.restaurants exactly when some join row links
      the pizza to it. */
  lemma RestaurantsOfPizzaMembers(restaurants: RestaurantTable, rps: JoinTable, pid: Id, rid: Id)
    ensures (rid in restaurants && Some(Entity(rid, restaurants[rid])) in RestaurantsOfPizza(restaurants, rps, pid))
        <==> (rid in restaurants && exists k :: k in rps && rps[k].pizzaId == Some(pid) && rps[k].restaurantId == Some(rid))
  {
  }

  // ---------------------------------------------------------------------------
  // Cascades: cascade="all, delete-orphan" on both one-to-many relationships

  /** The join rows left after deleting restaurant rid: every row of rid goes,
      every other row stays as it was. */
  function WithoutRestaurant(rps: JoinTable, rid: Id): (kept: JoinTable)
    ensures forall k :: k in kept <==> k in rps && rps[k].restaurantId != Some(rid)
    ensures forall k :: k in kept ==> kept[k] == rps[k]
    ensures PricesValid(rps) ==> PricesValid(kept)
    ensures RowsOfRestaurant(kept, rid) == []
  {
    var kept := map k | k in rps && rps[k].restaurantId != Some(rid) :: rps[k];
    assert (set k | k in kept && kept[k].restaurantId == Some(rid)) == {};
    kept
  }

  /** The join rows left after deleting pizza pid. */
  function WithoutPizza(rps: JoinTable, pid: Id): (kept: JoinTable)
    ensures forall k :: k in kept <==> k in rps && rps[k].pizzaId != Some(pid)
    ensures forall k :: k in kept ==> kept[k] == rps[k]
    ensures PricesValid(rps) ==> PricesValid(kept)
    ensures RowsOfPizza(kept, pid) == []
  {
    var kept := map k | k in rps && rps[k].pizzaId != Some(pid) :: rps[k];
    assert (set k | k in kept && kept[k].pizzaId == Some(pid)) == {};
    kept
  }

  /** The restaurant cascade leaves every other restaurant exactly its join rows. */
  lemma WithoutRestaurantSparesOthers(rps: JoinTable, rid: Id, other: Id)
    requires other != rid
    ensures RowsOfRestaurant(WithoutRestaurant(rps, rid), other) == RowsOfRestaurant(rps, other)
  {
    var kept := WithoutRestaurant(rps, rid);
    assert (set k | k in kept && kept[k].restaurantId == Some(other))
        == (set k | k in rps && rps[k].restaurantId == Some(other));
  }

  /** The pizza cascade leaves every other pizza exactly its join rows. */
  lemma WithoutPizzaSparesOthers(rps: JoinTable, pid: Id, other: Id)
    requires other != pid
    ensures RowsOfPizza(WithoutPizza(rps, pid), other) == RowsOfPizza(rps, other)
  {
    var kept := WithoutPizza(rps, pid);
    assert (set k | k in kept && kept[k].pizzaId == Some(other))
        == (set k | k in rps && rps[k].pizzaId == Some(other));
  }

  // ---------------------------------------------------------------------------
  // Serialised shapes. Each nesting context has its own datatype, so a shape
  // that must not carry a back-reference has no field to carry it in.

  /** A restaurant with its scalar columns only: the list projection
      only=("id", "name", "address"), and a restaurant nested under a join row. */
  datatype RestaurantSummary = RestaurantSummary(id: Id, name: Option<string>, address: Option<string>)

  /** A pizza with its scalar columns only. */
  datatype PizzaSummary = PizzaSummary(id: Id, name: Option<string>, ingredients: Option<string>)

  /** A join row nested under its restaurant: no `restaurant` field. */
  datatype RowUnderRestaurant = RowUnderRestaurant(
    id: Id, price: int, restaurantId: Option<Id>, pizzaId: Option<Id>, pizza: Option<PizzaSummary>)

  /** A join row nested under its pizza: no `pizza` field. */
  datatype RowUnderPizza = RowUnderPizza(
    id: Id, price: int, restaurantId: Option<Id>, pizzaId: Option<Id>, restaurant: Option<RestaurantSummary>)

  /** Restaurant.to_dict(). */
  datatype RestaurantOut = RestaurantOut(
    id: Id, name: Option<string>, address: Option<string>, restaurantPizzas: seq<RowUnderRestaurant>)

  /** Pizza.to_dict(). */
  datatype PizzaOut = PizzaOut(
    id: Id, name: Option<string>, ingredients: Option<string>, restaurantPizzas: seq<RowUnderPizza>)

  /** RestaurantPizza.to_dict(): both parents, neither with its restaurant_pizzas. */
  datatype RestaurantPizzaOut = RestaurantPizzaOut(
    id: Id, price: int, restaurantId: Option<Id>, pizzaId: Option<Id>,
    restaurant: Option<RestaurantSummary>, pizza: Option<PizzaSummary>)

  function SummarizeRestaurant(id: Id, r: Restaurant): RestaurantSummary {
    RestaurantSummary(id, r.name, r.address)
  }

  function SummarizePizza(id: Id, p: Pizza): PizzaSummary {
    PizzaSummary(id, p.name, p.ingredients)
  }

  /** The nested `pizza` of a join row: null when the relationship loads nothing. */
  function PizzaSummaryOf(pizzas: PizzaTable, row: RestaurantPizza): Option<PizzaSummary> {
    match PizzaOf(pizzas, row)
    case Some(e) => Some(SummarizePizza(e.id, e.record))
    case None => None
  }

  /** The nested `restaurant` of a join row. */
  function RestaurantSummaryOf(restaurants: RestaurantTable, row: RestaurantPizza): Option<RestaurantSummary> {
    match RestaurantOf(restaurants, row)
    case Some(e) => Some(SummarizeRestaurant(e.id, e.record))
    case None => None
  }

  /** n shows the stored join row n.id, with its pizza. */
  ghost predicate ShowsRowUnderRestaurant(n: RowUnderRestaurant, pizzas: PizzaTable, rps: JoinTable) {
    && n.id in rps
    && n.price == rps[n.id].price
    && n.restaurantId == rps[n.id].restaurantId
    && n.pizzaId == rps[n.id].pizzaId
    && n.pizza == PizzaSummaryOf(pizzas, rps[n.id])
  }

  /** n shows the stored join row n.id, with its restaurant. */
  ghost predicate ShowsRowUnderPizza(n: RowUnderPizza, restaurants: RestaurantTable, rps: JoinTable) {
    && n.id in rps
    && n.price == rps[n.id].price
    && n.restaurantId == rps[n.id].restaurantId
    && n.pizzaId == rps[n.id].pizzaId
    && n.restaurant == RestaurantSummaryOf(restaurants, rps[n.id])
  }

  /** Restaurant.to_dict() under serialize_rules ("-restaurant_pizzas.restaurant",):
      the restaurant's columns and each of its join rows, once, in id order, each
      with its pizza. */
  function SerializeRestaurant(id: Id, r: Restaurant, pizzas: PizzaTable, rps: JoinTable): (out: RestaurantOut)
    ensures out.id == id && out.name == r.name && out.address == r.address
    ensures forall i :: 0 <= i < |out.restaurantPizzas| ==>
      ShowsRowUnderRestaurant(out.restaurantPizzas[i], pizzas, rps) && out.restaurantPizzas[i].restaurantId == Some(id)
    ensures forall k :: k in rps && rps[k].restaurantId == Some(id) ==>
      exists i :: 0 <= i < |out.restaurantPizzas| && out.restaurantPizzas[i].id == k
    ensures forall i, j :: 0 <= i < j < |out.restaurantPizzas| ==>
      out.restaurantPizzas[i].id < out.restaurantPizzas[j].id
  {
    var rows := RowsOfRestaurant(rps, id);
    var nested := seq(|rows|, i requires 0 <= i < |rows| =>
      var row := rps[rows[i]];
      RowUnderRestaurant(rows[i], row.price, row.restaurantId, row.pizzaId, PizzaSummaryOf(pizzas, row)));
    assert forall i :: 0 <= i < |rows| ==> nested[i].id == rows[i];
    RestaurantOut(id, r.name, r.address, nested)
  }

  /** Pizza.to_dict() under serialize_rules ("-restaurant_pizzas.pizza",). */
  function SerializePizza(id: Id, p: Pizza, restaurants: RestaurantTable, rps: JoinTable): (out: PizzaOut)
    ensures out.id == id && out.name == p.name && out.ingredients == p.ingredients
    ensures forall i :: 0 <= i < |out.restaurantPizzas| ==>
      ShowsRowUnderPizza(out.restaurantPizzas[i], restaurants, rps) && out.restaurantPizzas[i].pizzaId == Some(id)
    ensures forall k :: k in rps && rps[k].pizzaId == Some(id) ==>
      exists i :: 0 <= i < |out.restaurantPizzas| && out.restaurantPizzas[i].id == k
    ensures forall i, j :: 0 <= i < j < |out.restaurantPizzas| ==>
      out.restaurantPizzas[i].id < out.restaurantPizzas[j].id
  {
    var rows := RowsOfPizza(rps, id);
    var nested := seq(|rows|, i requires 0 <= i < |rows| =>
      var row := rps[rows[i]];
      RowUnderPizza(rows[i], row.price, row.restaurantId, row.pizzaId, RestaurantSummaryOf(restaurants, row)));
    assert forall i :: 0 <= i < |rows| ==> nested[i].id == rows[i];
    PizzaOut(id, p.name, p.ingredients, nested)
  }

  /** RestaurantPizza.to_dict() under serialize_rules ("-restaurant.restaurant_pizzas",
      "-pizza.restaurant_pizzas"): the row's columns, and each parent that the row's
      foreign key finds, as its columns only. */
  function SerializeRestaurantPizza(id: Id, row: RestaurantPizza, restaurants: RestaurantTable, pizzas: PizzaTable)
    : (out: RestaurantPizzaOut)
    ensures out.id == id && out.price == row.price
    ensures out.restaurantId == row.restaurantId && out.pizzaId == row.pizzaId
    ensures out.restaurant.Some? <==> row.restaurantId.Some? && row.restaurantId.value in restaurants
    ensures out.restaurant.Some? ==>
      out.restaurant.value == SummarizeRestaurant(row.restaurantId.value, restaurants[row.restaurantId.value])
    ensures out.pizza.Some? <==> row.pizzaId.Some? && row.pizzaId.value in pizzas
    ensures out.pizza.Some? ==>
      out.pizza.value == SummarizePizza(row.pizzaId.value, pizzas[row.pizzaId.value])
  {
    RestaurantPizzaOut(id, row.price, row.restaurantId, row.pizzaId,
      RestaurantSummaryOf(restaurants, row), PizzaSummaryOf(pizzas, row))
  }
}
