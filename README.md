# Pizza restaurant API — a Dafny model

This project models the part of the pizza-ordering API that the repository's own
code decides. That covers the `restaurants`, `pizzas` and `restaurant_pizzas`
tables, the price validator on `RestaurantPizza`, the two one-to-many
relationships with their `all, delete-orphan` cascades, the association proxies,
and the serialisation shapes. It also covers the five JSON handlers:

- list restaurants
- get a restaurant
- delete a restaurant
- list pizzas
- create a restaurant-pizza

Modules:

- `Wrappers`: `Option` and `Result`.
- `Keys` (keys.dfy): the tables' integer primary keys. It lists ids in ascending
  order and computes the id an insert gets. That id follows SQLite's rule for an
  `INTEGER PRIMARY KEY`: one more than the largest id in use, or 1 when the table
  is empty.
- `Models` (models.dfy, server/models.py): the rows as datatypes, tables as
  `map<Id, Row>`, and `ValidatePrice` over a tagged input `Null | Int(n) | NonInt`.
  It also holds the relationships and association proxies as functions of the
  tables, the cascades as functions from a join table to the rows that survive,
  and one output datatype per nesting context. A shape that must not carry a
  back-reference has no field for it. For example, `RowUnderRestaurant` has no
  `restaurant`, `RowUnderPizza` has no `pizza`, and the summaries nested in
  `RestaurantPizzaOut` have no `restaurant_pizzas`.
- `App` (app.dfy, server/app.py): `Response(status, body)`, the posted JSON
  value, and a `Store` class holding the three tables. The read handlers are
  functions of the store. `DeleteRestaurant` and `CreateRestaurantPizza` are
  methods that change it. `Store.Valid()` is the store invariant: every stored
  price lies in 1..30. Both writers keep it.

Modelling decisions:

- Nullability follows the code. Only `price` is declared `nullable=False`. The
  names, the address, the ingredients and both foreign keys are nullable, so they
  are `Option`s. A foreign key may be JSON `null` in a request. The relationships
  read as if every join row had both parents. The columns do not require that, so
  the model does not either.
- The queries have no `ORDER BY`. The model fixes ascending id order for the list
  endpoints and for each relationship collection.
- `to_dict()` serialises columns and relationships, not association proxies.
  When a join row is nested, its own `serialize_rules` apply as well. So in a
  restaurant's detail, each join row carries its pizza as columns only.
- A missing pizza or restaurant for a non-null foreign key loads as `None`, and
  the model serialises it as null.
- Whether the database engine accepts the commit is the `accepted` parameter of
  `CreateRestaurantPizza`. This covers foreign-key enforcement, which SQLite
  applies only with a pragma, and other engine-side type checks. The model leaves
  that verdict open. It does not claim that unknown ids are rejected.
- Path ids are `nat`, because Flask's `<int:id>` converter matches only
  non-negative integers.

## Model

| member | source | states |
|---|---|---|
| `Models.ValidatePrice` | server/models.py:84-92 | null is rejected as missing; a non-integer is rejected; an integer outside 1..30 is rejected; it succeeds exactly on integers 1..30 and then returns that same integer |
| `Models.RowsOfRestaurant` | server/models.py:25-29 | a restaurant's `restaurant_pizzas` are exactly the stored join rows whose restaurant_id is that restaurant, each once, in id order |
| `Models.RowsOfPizza` | server/models.py:50-54 | a pizza's `restaurant_pizzas` are exactly the stored join rows whose pizza_id is that pizza, each once, in id order |
| `Models.RestaurantOf` | server/models.py:77 | `RestaurantPizza.restaurant` loads a restaurant exactly when the row's restaurant_id is non-null and names a stored restaurant, and then it is that restaurant with that id |
| `Models.PizzaOf` | server/models.py:78 | `RestaurantPizza.pizza` loads a pizza exactly when the row's pizza_id is non-null and names a stored pizza, and then it is that pizza with that id |
| `Models.PizzasOfRestaurant` | server/models.py:32 | `Restaurant.pizzas` has one entry per join row of the restaurant, in the same order, and each entry is the pizza that row refers to, or none |
| `Models.RestaurantsOfPizza` | server/models.py:57 | `Pizza.restaurants` has one entry per join row of the pizza, in the same order, and each entry is the restaurant that row refers to, or none |
| `Models.PizzasOfRestaurantMembers` | server/models.py:32 | a stored pizza appears in `Restaurant.pizzas` if and only if some join row links that restaurant to that pizza |
| `Models.RestaurantsOfPizzaMembers` | server/models.py:57 | a stored restaurant appears in `Pizza.restaurants` if and only if some join row links that pizza to that restaurant |
| `Models.WithoutRestaurant` | server/models.py:25-29 | the restaurant cascade keeps exactly the join rows whose restaurant_id is not the deleted restaurant, each unchanged, adds none, keeps prices in 1..30, and leaves the deleted parent an empty `restaurant_pizzas` |
| `Models.WithoutPizza` | server/models.py:50-54 | the pizza cascade keeps exactly the join rows whose pizza_id is not the deleted pizza, each unchanged, adds none, keeps prices in 1..30, and leaves the deleted parent an empty `restaurant_pizzas` |
| `Models.WithoutRestaurantSparesOthers` | server/models.py:25-29 | the restaurant cascade leaves every other restaurant's `restaurant_pizzas` as it was |
| `Models.WithoutPizzaSparesOthers` | server/models.py:50-54 | the pizza cascade leaves every other pizza's `restaurant_pizzas` as it was |
| `Models.SerializeRestaurant` | server/models.py:34-36 | the restaurant's id, name and address, then each of its join rows exactly once in id order, each with the stored price and keys and the pizza as its columns; the nested rows have no restaurant field |
| `Models.SerializePizza` | server/models.py:59-60 | the pizza's id, name and ingredients, then each of its join rows exactly once in id order, each with the stored price and keys and the restaurant as its columns; the nested rows have no pizza field |
| `Models.SerializeRestaurantPizza` | server/models.py:80-81 | the row's id, price and keys; the restaurant and the pizza as their columns only, present exactly when the foreign key names a stored row |
| `Keys.NextId` | server/models.py:69 | the generated primary key is not in use, exceeds every id in use, is the largest id plus one, and is 1 in an empty table |
| `App.NewRestaurantPizza` | server/app.py:66-71 | a parsed body that is not a JSON object fails at the first subscript; a missing `price`, `pizza_id` or `restaurant_id` raises, checked in that order; otherwise the row is built exactly when the price validates, and it holds the given price, restaurant_id and pizza_id |
| `App.Store.GetRestaurants` | server/app.py:27-30 | status 200 and one entry per stored restaurant, each id once in id order, each exactly its id, name and address |
| `App.Store.GetRestaurant` | server/app.py:34-39 | an absent id gives 404 with `{"error": "Restaurant not found"}`; a present id gives 200 with the full serialised restaurant |
| `App.Store.DeleteRestaurant` | server/app.py:43-51 | an absent id gives 404 and leaves all three tables unchanged; a present id gives 204 with an empty body, removes the restaurant and cascades to its join rows, leaves pizzas and all other join rows unchanged, and keeps every price in 1..30 |
| `App.Store.GetPizzas` | server/app.py:55-58 | status 200 and one entry per stored pizza, each id once in id order, each exactly its id, name and ingredients |
| `App.Store.CreateRestaurantPizza` | server/app.py:62-77 | 201 exactly when the row builds and the engine accepts the commit; otherwise, including for a body that is not a JSON object, 400 with `{"errors": ["validation errors"]}` and no change; on 201 exactly one row is added, under a fresh id, holding the given values, restaurants and pizzas are unchanged, the body is the serialised new row, and every price stays in 1..30 |

## Left out

- Flask application setup, routing, JSON settings, migrations, the database URI
  from the environment, the `/` HTML page and the `__main__` runner. These are
  framework configuration and I/O.
- Session and transaction mechanics, the foreign-key naming convention, and the
  internals of the serializer library. Only their declared effect is modelled.
- Referential integrity on create. Neither server/models.py nor server/app.py
  checks that `pizza_id` or `restaurant_id` exist. The engine's verdict is the open `accepted` parameter.
- Python's `bool` being an `int`: JSON `true` would pass the validator as 1. The
  model treats booleans as `NonInt`.
- Foreign-key values in the posted body are modelled as integers or null. Other
  JSON values are not modelled, because the engine's handling of them is not in
  this code.
- A request body that does not parse as JSON, or that is sent without a JSON
  content type. `request.get_json()` (server/app.py:64) runs before the `try`, and
  Flask itself answers such a request with 400 Bad Request or 415 Unsupported
  Media Type. A body that parses to a JSON value other than an object is
  modelled: it is `NonObject`, and it gets the handler's 400.
- An engine failure on the delete's commit (server/app.py:50). It is not caught
  by the handler, and Flask turns it into a 500 response.
- The "delete-orphan" half of the cascade, which removes a join row taken out of
  a parent's collection in the session. No handler does that.
- No handler deletes a pizza. The pizza cascade is modelled as the declared rule
  (`Models.WithoutPizza`) that such a delete would apply.
- `Keys.NextId` gives SQLite's choice of id for an inserted row. Another engine,
  chosen through `DB_URI` (server/app.py:10), may draw ids from a sequence that
  never reuses them. There only freshness holds, not "largest id plus one".
  SQLite's random id, used once the largest possible rowid is taken, is not
  modelled either, because ids here are unbounded.
- `__repr__` methods, which are display only.
- Concurrency and isolation, which the database engine handles.
