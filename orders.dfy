/** The order controller: the `orderExists`, `validateOrder` and
    `validateStatus` middleware as decisions over the request, and the
    module-level `orders` array with its `create`, `update` and `destroy`
    handlers as a class whose methods change it in place. */
module Orders {
  import opened Js
  import opened Middleware

  /** An order record. Every field but `id` holds whatever the request body
      carried: `create` and `update` store it unconverted. */
  datatype Order = Order(
    id: string,
    deliverTo: JsValue,
    mobileNumber: JsValue,
    status: JsValue,
    dishes: JsValue)

  function Ids(orders: seq<Order>): (ids: seq<string>)
    ensures |ids| == |orders|
    ensures forall i :: 0 <= i < |orders| ==> ids[i] == orders[i].id
  {
    seq(|orders|, i requires 0 <= i < |orders| => orders[i].id)
  }

  const OrderFields: seq<string> := ["deliverTo", "mobileNumber", "dishes"]
  const ValidStatuses: seq<string> := ["pending", "preparing", "out-for-delivery", "delivered"]

  function NotFoundError(orderId: string): HttpError {
    HttpError(404, "Order does not exist: " + orderId)
  }

  function MissingFieldError(field: string): HttpError {
    HttpError(400, "Order must include a " + field)
  }

  const NoDishesError := HttpError(400, "Order must include at least one dish")

  const QuantityMessageTail := " must have a quantity that is an integer greater than 0"

  function QuantityError(index: nat): HttpError {
    HttpError(400, "Dish " + NatToString(index) + QuantityMessageTail)
  }

  /** The quantity message names its line item: the digits between "Dish "
      and the fixed tail read back as the index, so no two items share one. */
  lemma QuantityErrorNamesIndex(index: nat)
    ensures var m := QuantityError(index).message;
      && |m| > 5 + |QuantityMessageTail|
      && m[..5] == "Dish "
      && (forall k :: 5 <= k < |m| - |QuantityMessageTail| ==> '0' <= m[k] <= '9')
      && DecimalValue(m[5..|m| - |QuantityMessageTail|]) == index
  {
    var m := QuantityError(index).message;
    var digits := NatToString(index);
    assert m == "Dish " + digits + QuantityMessageTail;
    assert m[5..|m| - |QuantityMessageTail|] == digits;
  }

  /** Distinct line items get distinct quantity messages. */
  lemma QuantityErrorInjective(i: nat, j: nat)
    requires QuantityError(i) == QuantityError(j)
    ensures i == j
  {
    QuantityErrorNamesIndex(i);
    QuantityErrorNamesIndex(j);
  }

  const StatusError :=
    HttpError(400, "Order must have a status of pending, preparing, out-for-delivery, delivered")

  const DeliveredError := HttpError(400, "A delivered order cannot be changed")

  function IdMismatchError(bodyId: JsValue, routeId: string): HttpError {
    HttpError(400, "Order id does not match route id. Order: " + Display(bodyId) + ", Route: " + routeId)
  }

  const NotPendingError := HttpError(400, "An order cannot be deleted unless it is pending")

  /* ---------- orderExists ---------- */

  /** `orderExists`: binds the first order whose id is the route's `orderId`,
      or signals 404 naming that id. */
  function OrderExists(orders: seq<Order>, orderId: string): (r: Lookup)
    ensures r.Bound? <==> exists j :: 0 <= j < |orders| && orders[j].id == orderId
    ensures r.Bound? ==> r.index < |orders| && orders[r.index].id == orderId
    ensures r.Bound? ==> forall j :: 0 <= j < r.index ==> orders[j].id != orderId
    ensures r.NotFound? ==> r.error == HttpError(404, "Order does not exist: " + orderId)
  {
    var i := FirstIndexOf(Ids(orders), orderId, 0);
    if i == -1 then NotFound(NotFoundError(orderId)) else Bound(i)
  }

  /* ---------- validateOrder ---------- */

  /** The test applied to `dish.quantity`: falsy, `<= 0`, or not an integer.
      On a value that is not a number `<= 0` coerces, but `Number.isInteger`
      is false there already, so the coercion never decides the outcome. */
  predicate QuantityRejected(quantity: JsValue)
    ensures QuantityRejected(quantity) <==> !(quantity.Num? && quantity.n > 0.0 && IsInteger(quantity))
  {
    !Truthy(quantity) || (quantity.Num? && quantity.n <= 0.0) || !IsInteger(quantity)
  }

  /** What `dishes.forEach(...)` and the `next()` after it emit, from line item
      `from` on. `return next(...)` inside the callback leaves only the
      callback, so every rejected item gets its own 400 and the loop goes on;
      a null or undefined item makes `dish.quantity` throw. */
  function QuantitySignals(items: seq<JsValue>, from: nat): (s: seq<Signal>)
    requires from <= |items|
    decreases |items| - from
    ensures |s| >= 1
    ensures s[|s| - 1] == (if AllPresent(items, from) then Next else Thrown)
    ensures forall p :: 0 <= p < |s| - 1 ==> s[p].Fail? && s[p].error.status == 400
  {
    if from == |items| then [Next]
    else if Nullish(items[from]) then [Thrown]
    else
      (if QuantityRejected(Prop(items[from], "quantity")) then [Fail(QuantityError(from))] else [])
      + QuantitySignals(items, from + 1)
  }

  /** The positions at or after `from` whose quantity is rejected, ascending. */
  function RejectedIndices(items: seq<JsValue>, from: nat): (r: seq<nat>)
    requires from <= |items|
    requires AllPresent(items, from)
    decreases |items| - from
    ensures forall k :: 0 <= k < |r| ==> from <= r[k] < |items| && QuantityRejected(Prop(items[r[k]], "quantity"))
    ensures forall k, l :: 0 <= k < l < |r| ==> r[k] < r[l]
    ensures forall i :: from <= i < |items| && QuantityRejected(Prop(items[i], "quantity")) ==> i in r
  {
    if from == |items| then []
    else
      var rest := RejectedIndices(items, from + 1);
      if QuantityRejected(Prop(items[from], "quantity")) then [from] + rest else rest
  }

  /** One quantity 400 per listed position, in the listed order. */
  function Failures(indices: seq<nat>): (r: seq<Signal>)
    ensures |r| == |indices|
    ensures forall k :: 0 <= k < |indices| ==> r[k] == Fail(QuantityError(indices[k]))
  {
    seq(|indices|, k requires 0 <= k < |indices| => Fail(QuantityError(indices[k])))
  }

  /** When no line item is null or undefined, the loop emits exactly one 400
      per rejected item, in ascending position order, and then `next()`. */
  lemma {:induction false} QuantitySignalsExact(items: seq<JsValue>, from: nat)
    requires from <= |items|
    requires AllPresent(items, from)
    decreases |items| - from
    ensures QuantitySignals(items, from) == Failures(RejectedIndices(items, from)) + [Next]
  {
    if from == |items| {
      QuantitySignalsDone(items);
    } else {
      assert !Nullish(items[from]) && AllPresent(items, from + 1);
      QuantitySignalsExact(items, from + 1);
      var rest := RejectedIndices(items, from + 1);
      QuantitySignalsStep(items, from);
      if QuantityRejected(Prop(items[from], "quantity")) {
        assert RejectedIndices(items, from) == [from] + rest;
        FailuresCons(from, rest);
        AppendAssoc([Fail(QuantityError(from))], Failures(rest), [Next]);
      } else {
        assert RejectedIndices(items, from) == rest;
      }
    }
  }

  /** When line item `p` is the first null or undefined one from `from` on,
      the loop emits one 400 per rejected item before it, in ascending
      position order, and then throws at `p`. */
  lemma {:induction false} QuantitySignalsBeforeThrow(items: seq<JsValue>, from: nat, p: nat)
    requires from <= p < |items| && Nullish(items[p])
    requires forall i :: from <= i < p ==> !Nullish(items[i])
    decreases p - from
    ensures QuantitySignals(items, from) == Failures(RejectedIndices(items[..p], from)) + [Thrown]
  {
    var prefix := items[..p];
    if from == p {
      QuantitySignalsThrow(items, p);
      assert RejectedIndices(prefix, from) == [];
    } else {
      QuantitySignalsBeforeThrow(items, from + 1, p);
      assert prefix[from] == items[from];
      var rest := RejectedIndices(prefix, from + 1);
      QuantitySignalsStep(items, from);
      if QuantityRejected(Prop(items[from], "quantity")) {
        assert RejectedIndices(prefix, from) == [from] + rest;
        FailuresCons(from, rest);
        AppendAssoc([Fail(QuantityError(from))], Failures(rest), [Thrown]);
      } else {
        assert RejectedIndices(prefix, from) == rest;
      }
    }
  }

  lemma FailuresCons(index: nat, rest: seq<nat>)
    ensures Failures([index] + rest) == [Fail(QuantityError(index))] + Failures(rest)
  {
    var lhs := Failures([index] + rest);
    var rhs := [Fail(QuantityError(index))] + Failures(rest);
    assert |lhs| == |rhs|;
    forall k | 0 <= k < |lhs|
      ensures lhs[k] == rhs[k]
    {
      if k > 0 {
        assert ([index] + rest)[k] == rest[k - 1];
      }
    }
  }

  /** No line item at or after `from` is null or undefined. */
  predicate AllPresent(items: seq<JsValue>, from: nat) {
    forall i :: from <= i < |items| ==> !Nullish(items[i])
  }

  /** `validateOrder`: every signal it emits, in order. Every signal but the
      last is a 400; a last signal that is a 400 is the only one (a missing
      field or no dishes); a null or undefined `data` throws at once. */
  function OrderValidation(data: JsValue): (s: seq<Signal>)
    ensures |s| >= 1
    ensures Nullish(data) ==> s == [Thrown]
    ensures forall p :: 0 <= p < |s| - 1 ==> s[p].Fail? && s[p].error.status == 400
    ensures s[|s| - 1].Fail? ==> |s| == 1 && s[0].error.status == 400
  {
    if Nullish(data) then [Thrown]
    else match FirstFalsy(data, OrderFields, 0)
      case Some(k) => [Fail(MissingFieldError(OrderFields[k]))]
      case None =>
        var dishes := Prop(data, "dishes");
        if !dishes.Arr? || |dishes.elems| == 0 then [Fail(NoDishesError)]
        else QuantitySignals(dishes.elems, 0)
  }

  /** `validateOrder` as the middleware runs it: the required-field loop with
      early exit, the array check, then the `forEach` over the line items. */
  method ValidateOrder(data: JsValue) returns (signals: seq<Signal>)
    ensures signals == OrderValidation(data)
  {
    if Nullish(data) {
      return [Thrown];
    }
    var missing := FindMissingField(data, OrderFields);
    if missing.Some? {
      return [Fail(MissingFieldError(OrderFields[missing.value]))];
    }
    var dishes := Prop(data, "dishes");
    if !dishes.Arr? || |dishes.elems| == 0 {
      return [Fail(NoDishesError)];
    }
    signals := CheckQuantities(dishes.elems);
  }

  /** One unfolding of `QuantitySignals` at a present line item. */
  lemma QuantitySignalsStep(items: seq<JsValue>, index: nat)
    requires index < |items| && !Nullish(items[index])
    ensures QuantitySignals(items, index)
      == (if QuantityRejected(Prop(items[index], "quantity")) then [Fail(QuantityError(index))] else [])
         + QuantitySignals(items, index + 1)
  {
  }

  /** A null or undefined line item throws. */
  lemma QuantitySignalsThrow(items: seq<JsValue>, index: nat)
    requires index < |items| && Nullish(items[index])
    ensures QuantitySignals(items, index) == [Thrown]
  {
  }

  /** Past the last line item, `next()` is called. */
  lemma QuantitySignalsDone(items: seq<JsValue>)
    ensures QuantitySignals(items, |items|) == [Next]
  {
  }

  lemma AppendAssoc<T>(a: seq<T>, b: seq<T>, c: seq<T>)
    ensures a + (b + c) == (a + b) + c
  {
  }

  /** The `dishes.forEach(...)` over the line items followed by `next()`. */
  method CheckQuantities(items: seq<JsValue>) returns (signals: seq<Signal>)
    ensures signals == QuantitySignals(items, 0)
  {
    signals := [];
    var index := 0;
    while index < |items|
      invariant index <= |items|
      invariant signals + QuantitySignals(items, index) == QuantitySignals(items, 0)
    {
      var dish := items[index];
      if Nullish(dish) {
        QuantitySignalsThrow(items, index);
        return signals + [Thrown];
      }
      var emitted: seq<Signal> := [];
      if QuantityRejected(Prop(dish, "quantity")) {
        emitted := [Fail(QuantityError(index))];
      }
      QuantitySignalsStep(items, index);
      AppendAssoc(signals, emitted, QuantitySignals(items, index + 1));
      signals := signals + emitted;
      index := index + 1;
    }
    QuantitySignalsDone(items);
    signals := signals + [Next];
  }

  /** The required fields are checked in the order deliverTo, mobileNumber,
      dishes; the first falsy one is the only thing reported. */
  lemma MissingFieldReported(data: JsValue, k: nat)
    requires !Nullish(data) && k < |OrderFields|
    requires forall j :: 0 <= j < k ==> Truthy(Prop(data, OrderFields[j]))
    requires !Truthy(Prop(data, OrderFields[k]))
    ensures OrderValidation(data) == [Fail(MissingFieldError(OrderFields[k]))]
  {
    var r := FirstFalsy(data, OrderFields, 0);
    assert r.Some? && r.value == k;
  }

  /** With the fields present, a `dishes` that is not an array, or is empty,
      gets the one "at least one dish" 400 and no quantity is looked at. */
  lemma NoDishesReported(data: JsValue)
    requires !Nullish(data)
    requires forall j :: 0 <= j < |OrderFields| ==> Truthy(Prop(data, OrderFields[j]))
    requires !Prop(data, "dishes").Arr? || Prop(data, "dishes").elems == []
    ensures OrderValidation(data) == [Fail(NoDishesError)]
  {
    assert FirstFalsy(data, OrderFields, 0).None?;
  }

  /** A well-formed order body gets one 400 per rejected line item, in
      ascending position order, followed by `next()` in every case. */
  lemma QuantitiesReported(data: JsValue)
    requires !Nullish(data)
    requires forall j :: 0 <= j < |OrderFields| ==> Truthy(Prop(data, OrderFields[j]))
    requires Prop(data, "dishes").Arr? && Prop(data, "dishes").elems != []
    requires AllPresent(Prop(data, "dishes").elems, 0)
    ensures OrderValidation(data) == Failures(RejectedIndices(Prop(data, "dishes").elems, 0)) + [Next]
  {
    assert FirstFalsy(data, OrderFields, 0).None?;
    QuantitySignalsExact(Prop(data, "dishes").elems, 0);
  }

  /** `validateOrder` calls `next()` exactly when the fields are present, the
      dishes are a non-empty array and no line item is null or undefined,
      whatever the quantities are; when it does, `next()` is its last signal. */
  lemma PassesIffWellFormed(data: JsValue)
    ensures var s := OrderValidation(data);
      && (Next in s <==>
        && !Nullish(data)
        && (forall j :: 0 <= j < |OrderFields| ==> Truthy(Prop(data, OrderFields[j])))
        && Prop(data, "dishes").Arr? && Prop(data, "dishes").elems != []
        && AllPresent(Prop(data, "dishes").elems, 0))
      && (Next in s ==> s[|s| - 1] == Next)
  {
    if Nullish(data) {
      assert OrderValidation(data) == [Thrown];
    } else if FirstFalsy(data, OrderFields, 0).Some? {
      var k := FirstFalsy(data, OrderFields, 0).value;
      assert OrderValidation(data) == [Fail(MissingFieldError(OrderFields[k]))];
    } else {
      var dishes := Prop(data, "dishes");
      if !dishes.Arr? || dishes.elems == [] {
        assert OrderValidation(data) == [Fail(NoDishesError)];
      } else {
        var s := QuantitySignals(dishes.elems, 0);
        assert OrderValidation(data) == s;
        if Next in s {
          var p :| 0 <= p < |s| && s[p] == Next;
          assert p == |s| - 1;
        }
      }
    }
  }

  /** A single line item of quantity 0 draws the 400 naming item 0 and the
      request still goes on to the next handler. */
  lemma ZeroQuantityStillPasses()
    ensures OrderValidation(Obj(map[
        "deliverTo" := Str("A"),
        "mobileNumber" := Str("555"),
        "dishes" := Arr([Obj(map["quantity" := Num(0.0)])])]))
      == [Fail(QuantityError(0)), Next]
  {
    var data := Obj(map[
        "deliverTo" := Str("A"),
        "mobileNumber" := Str("555"),
        "dishes" := Arr([Obj(map["quantity" := Num(0.0)])])]);
    assert FirstFalsy(data, OrderFields, 0).None?;
    var items := [Obj(map["quantity" := Num(0.0)])];
    assert Prop(data, "dishes") == Arr(items);
    assert QuantitySignals(items, 1) == [Next];
    assert QuantityRejected(Prop(items[0], "quantity"));
    assert QuantitySignals(items, 0) == [Fail(QuantityError(0))] + [Next];
  }

  /* ---------- validateStatus ---------- */

  /** `validateStatus`: it judges the status the request submits, never the
      status the order already has. */
  function ValidateStatus(data: JsValue): (signal: Signal)
    ensures data.Null? ==> signal == Thrown
    ensures !data.Null? ==>
      (signal == Next <==>
        BodyField(data, "status") in {Str("pending"), Str("preparing"), Str("out-for-delivery")})
    ensures !data.Null? ==>
      (signal == Fail(DeliveredError) <==> BodyField(data, "status") == Str("delivered"))
    ensures !data.Null? ==>
      (signal == Fail(StatusError) <==>
        BodyField(data, "status") !in {Str("pending"), Str("preparing"), Str("out-for-delivery"), Str("delivered")})
  {
    if data.Null? then Thrown
    else
      var status := BodyField(data, "status");
      if !Truthy(status) || !(status.Str? && status.s in ValidStatuses) then Fail(StatusError)
      else if status == Str("delivered") then Fail(DeliveredError)
      else Next
  }

  /* ---------- the orders store and its handlers ---------- */

  /** The module-level `orders` array. A record is identified by its position:
      `res.locals.order` is the element `orderExists` found. */
  class OrderStore {
    var orders: seq<Order>

    /** The array as loaded from the seed data, whatever it holds. */
    constructor (seed: seq<Order>)
      ensures orders == seed
    {
      orders := seed;
    }

    /** `create`: appends one order with the supplied id and the body's four
        fields; earlier orders keep their values and positions. */
    method Create(data: JsValue, newId: string) returns (created: Order)
      requires !data.Null?
      requires newId !in Ids(orders)
      modifies this
      ensures created == Order(newId, BodyField(data, "deliverTo"), BodyField(data, "mobileNumber"),
                               BodyField(data, "status"), BodyField(data, "dishes"))
      ensures orders == old(orders) + [created]
      ensures OrderExists(orders, newId) == Bound(|old(orders)|)
      ensures UniqueIds(Ids(old(orders))) ==> UniqueIds(Ids(orders))
    {
      created := Order(newId, BodyField(data, "deliverTo"), BodyField(data, "mobileNumber"),
                       BodyField(data, "status"), BodyField(data, "dishes"));
      orders := orders + [created];
      assert Ids(orders) == Ids(old(orders)) + [newId];
      assert orders[|old(orders)|].id == newId;
      forall j | 0 <= j < |old(orders)|
        ensures orders[j].id != newId
      {
        assert Ids(old(orders))[j] == orders[j].id;
      }
    }

    /** `update`: a truthy body id other than the bound order's is a 400 and
        changes nothing; otherwise the four fields of the bound order are
        overwritten and nothing else changes. */
    method Update(orderId: string, data: JsValue) returns (result: Result<Order>)
      requires OrderExists(orders, orderId).Bound?
      requires !data.Null?
      modifies this
      ensures var i := OrderExists(old(orders), orderId).index;
        var bodyId := BodyField(data, "id");
        if Truthy(bodyId) && bodyId != Str(old(orders)[i].id) then
          result == Err(IdMismatchError(bodyId, old(orders)[i].id)) && orders == old(orders)
        else
          && result == Ok(Order(orderId, BodyField(data, "deliverTo"), BodyField(data, "mobileNumber"),
                                BodyField(data, "status"), BodyField(data, "dishes")))
          && orders == old(orders)[i := result.value]
      ensures Ids(orders) == Ids(old(orders))
      ensures OrderExists(orders, orderId) == OrderExists(old(orders), orderId)
    {
      var i := OrderExists(orders, orderId).index;
      var order := orders[i];
      var id := BodyField(data, "id");
      if Truthy(id) && id != Str(order.id) {
        return Err(IdMismatchError(id, order.id));
      }
      order := order.(
        deliverTo := BodyField(data, "deliverTo"),
        mobileNumber := BodyField(data, "mobileNumber"),
        status := BodyField(data, "status"),
        dishes := BodyField(data, "dishes"));
      orders := orders[i := order];
      result := Ok(order);
      assert Ids(orders) == Ids(old(orders));
    }

    /** `destroy`: only a pending order is removed, by splicing out the
        position `findIndex` gives for its id; any other status is a 400 that
        leaves the array as it was. */
    method Destroy(orderId: string) returns (outcome: Outcome)
      requires OrderExists(orders, orderId).Bound?
      modifies this
      ensures var i := OrderExists(old(orders), orderId).index;
        if old(orders)[i].status != Str("pending") then
          outcome == Rejected(NotPendingError) && orders == old(orders)
        else
          outcome == Done && orders == old(orders)[..i] + old(orders)[i + 1..]
      ensures UniqueIds(Ids(old(orders))) ==> UniqueIds(Ids(orders))
      ensures UniqueIds(Ids(old(orders))) && outcome == Done ==> OrderExists(orders, orderId).NotFound?
    {
      var order := orders[OrderExists(orders, orderId).index];
      if order.status != Str("pending") {
        return Rejected(NotPendingError);
      }
      var index := FirstIndexOf(Ids(orders), order.id, 0);
      orders := orders[..index] + orders[index + 1..];
      outcome := Done;
      var ids := Ids(old(orders));
      assert Ids(orders) == ids[..index] + ids[index + 1..];
      if UniqueIds(ids) {
        RemoveUnique(ids, index);
      }
    }
  }
}
