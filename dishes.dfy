/** The dish controller: the `dishExists` and `validateDish` middleware as
    decisions over the request, and the module-level `dishes` array with its
    `create` and `update` handlers as a class whose methods change it in place.
    No handler removes a dish. */
module Dishes {
  import opened Js
  import opened Middleware

  /** A dish record; `imageUrl` is the `image_url` field of the body. */
  datatype Dish = Dish(
    id: string,
    name: JsValue,
    description: JsValue,
    price: JsValue,
    imageUrl: JsValue)

  function Ids(dishes: seq<Dish>): (ids: seq<string>)
    ensures |ids| == |dishes|
    ensures forall i :: 0 <= i < |dishes| ==> ids[i] == dishes[i].id
  {
    seq(|dishes|, i requires 0 <= i < |dishes| => dishes[i].id)
  }

  const DishFields: seq<string> := ["name", "description", "price", "image_url"]

  function NotFoundError(dishId: string): HttpError {
    HttpError(404, "Dish does not exist: " + dishId)
  }

  function MissingFieldError(field: string): HttpError {
    HttpError(400, "Dish must include a " + field)
  }

  const PriceError := HttpError(400, "Dish must have a price that is an integer greater than 0")

  function IdMismatchError(bodyId: JsValue, routeId: string): HttpError {
    HttpError(400, "Dish id does not match route id. Dish: " + Display(bodyId) + ", Route: " + routeId)
  }

  /* ---------- dishExists ---------- */

  /** `dishExists`: binds the first dish whose id is the route's `dishId`, or
      signals 404 naming that id. */
  function DishExists(dishes: seq<Dish>, dishId: string): (r: Lookup)
    ensures r.Bound? <==> exists j :: 0 <= j < |dishes| && dishes[j].id == dishId
    ensures r.Bound? ==> r.index < |dishes| && dishes[r.index].id == dishId
    ensures r.Bound? ==> forall j :: 0 <= j < r.index ==> dishes[j].id != dishId
    ensures r.NotFound? ==> r.error == HttpError(404, "Dish does not exist: " + dishId)
  {
    var i := FirstIndexOf(Ids(dishes), dishId, 0);
    if i == -1 then NotFound(NotFoundError(dishId)) else Bound(i)
  }

  /* ---------- validateDish ---------- */

  /** The test applied to a present `price`: `<= 0` or not an integer. On a
      value that is not a number `<= 0` coerces, but `Number.isInteger` is
      false there already, so the coercion never decides the outcome. */
  predicate PriceRejected(price: JsValue)
    ensures PriceRejected(price) <==> !(price.Num? && price.n > 0.0 && IsInteger(price))
  {
    (price.Num? && price.n <= 0.0) || !IsInteger(price)
  }

  /** `validateDish`: the single signal it emits. It calls `next()` exactly
      when the four fields are present and the price is a positive integer. */
  function DishValidation(data: JsValue): (signal: Signal)
    ensures Nullish(data) <==> signal == Thrown
    ensures signal == Next <==>
      && !Nullish(data)
      && (forall j :: 0 <= j < |DishFields| ==> Truthy(Prop(data, DishFields[j])))
      && Prop(data, "price").Num? && Prop(data, "price").n > 0.0 && IsInteger(Prop(data, "price"))
    ensures signal.Fail? ==> signal.error.status == 400
  {
    if Nullish(data) then Thrown
    else match FirstFalsy(data, DishFields, 0)
      case Some(k) => Fail(MissingFieldError(DishFields[k]))
      case None => if PriceRejected(Prop(data, "price")) then Fail(PriceError) else Next
  }

  /** `validateDish` as the middleware runs it: the required-field loop with
      early exit, then the price rule. */
  method ValidateDish(data: JsValue) returns (signal: Signal)
    ensures signal == DishValidation(data)
  {
    if Nullish(data) {
      return Thrown;
    }
    var missing := FindMissingField(data, DishFields);
    if missing.Some? {
      return Fail(MissingFieldError(DishFields[missing.value]));
    }
    var price := Prop(data, "price");
    if PriceRejected(price) {
      return Fail(PriceError);
    }
    return Next;
  }

  /** The fields are checked in the order name, description, price,
      image_url; the first falsy one is the only thing reported. */
  lemma MissingFieldReported(data: JsValue, k: nat)
    requires !Nullish(data) && k < |DishFields|
    requires forall j :: 0 <= j < k ==> Truthy(Prop(data, DishFields[j]))
    requires !Truthy(Prop(data, DishFields[k]))
    ensures DishValidation(data) == Fail(MissingFieldError(DishFields[k]))
  {
    var r := FirstFalsy(data, DishFields, 0);
    assert r.Some? && r.value == k;
  }

  /** With all four fields present, a price that is not a positive integer is
      reported by the price rule. */
  lemma PriceReported(data: JsValue)
    requires !Nullish(data)
    requires forall j :: 0 <= j < |DishFields| ==> Truthy(Prop(data, DishFields[j]))
    requires !(Prop(data, "price").Num? && Prop(data, "price").n > 0.0 && IsInteger(Prop(data, "price")))
    ensures DishValidation(data) == Fail(PriceError)
  {
    assert FirstFalsy(data, DishFields, 0).None?;
  }

  /** A price of 0 is falsy, so it is reported as a missing price, never by
      the price rule, once name and description are present. */
  lemma ZeroPriceIsMissing(data: JsValue)
    requires !Nullish(data)
    requires Truthy(Prop(data, "name")) && Truthy(Prop(data, "description"))
    requires Prop(data, "price") == Num(0.0)
    ensures DishValidation(data) == Fail(MissingFieldError("price"))
  {
    MissingFieldReported(data, 2);
  }

  /* ---------- the dishes store and its handlers ---------- */

  /** The module-level `dishes` array. A record is identified by its position:
      `res.locals.dish` is the element `dishExists` found. */
  class DishStore {
    var dishes: seq<Dish>

    /** The array as loaded from the seed data, whatever it holds. */
    constructor (seed: seq<Dish>)
      ensures dishes == seed
    {
      dishes := seed;
    }

    /** `create`: appends one dish with the supplied id and the body's four
        fields; earlier dishes keep their values and positions. */
    method Create(data: JsValue, newId: string) returns (created: Dish)
      requires !data.Null?
      requires newId !in Ids(dishes)
      modifies this
      ensures created == Dish(newId, BodyField(data, "name"), BodyField(data, "description"),
                              BodyField(data, "price"), BodyField(data, "image_url"))
      ensures dishes == old(dishes) + [created]
      ensures DishExists(dishes, newId) == Bound(|old(dishes)|)
      ensures UniqueIds(Ids(old(dishes))) ==> UniqueIds(Ids(dishes))
    {
      created := Dish(newId, BodyField(data, "name"), BodyField(data, "description"),
                      BodyField(data, "price"), BodyField(data, "image_url"));
      dishes := dishes + [created];
      assert Ids(dishes) == Ids(old(dishes)) + [newId];
      assert dishes[|old(dishes)|].id == newId;
      forall j | 0 <= j < |old(dishes)|
        ensures dishes[j].id != newId
      {
        assert Ids(old(dishes))[j] == dishes[j].id;
      }
    }

    /** `update`: a truthy body id other than the bound dish's is a 400 and
        changes nothing; otherwise the four fields of the bound dish are
        overwritten and nothing else changes. */
    method Update(dishId: string, data: JsValue) returns (result: Result<Dish>)
      requires DishExists(dishes, dishId).Bound?
      requires !data.Null?
      modifies this
      ensures var i := DishExists(old(dishes), dishId).index;
        var bodyId := BodyField(data, "id");
        if Truthy(bodyId) && bodyId != Str(old(dishes)[i].id) then
          result == Err(IdMismatchError(bodyId, old(dishes)[i].id)) && dishes == old(dishes)
        else
          && result == Ok(Dish(dishId, BodyField(data, "name"), BodyField(data, "description"),
                               BodyField(data, "price"), BodyField(data, "image_url")))
          && dishes == old(dishes)[i := result.value]
      ensures Ids(dishes) == Ids(old(dishes))
      ensures DishExists(dishes, dishId) == DishExists(old(dishes), dishId)
    {
      var i := DishExists(dishes, dishId).index;
      var dish := dishes[i];
      var id := BodyField(data, "id");
      if Truthy(id) && id != Str(dish.id) {
        return Err(IdMismatchError(id, dish.id));
      }
      dish := dish.(
        name := BodyField(data, "name"),
        description := BodyField(data, "description"),
        price := BodyField(data, "price"),
        imageUrl := BodyField(data, "image_url"));
      dishes := dishes[i := dish];
      result := Ok(dish);
      assert Ids(dishes) == Ids(old(dishes));
    }
  }
}
