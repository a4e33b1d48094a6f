/** What the two controllers share: the error objects they pass to Express's
    `next`, the signals a middleware emits, the required-field loop, and the
    id lookup over a store. */
module Middleware {
  import opened Js

  datatype Option<T> = None | Some(value: T)

  /** The `{ status, message }` object passed to `next(...)`. */
  datatype HttpError = HttpError(status: int, message: string)

  /** One thing a middleware does to the request pipeline: call `next()`,
      call `next(error)`, or throw (Express answers a thrown TypeError with 500). */
  datatype Signal = Next | Fail(error: HttpError) | Thrown

  /** A handler's answer: the record it responds with, or the error it passes on. */
  datatype Result<T> = Ok(value: T) | Err(error: HttpError)

  /** The outcome of a handler that responds without a body. */
  datatype Outcome = Done | Rejected(error: HttpError)

  /** What an existence middleware binds into `res.locals`: the position of the
      found record in its store, or the 404 it signals. */
  datatype Lookup = Bound(index: nat) | NotFound(error: HttpError)

  /** Index of the first of `fields[from..]` that `data` lacks (holds a falsy
      value), as the `for (const field of requiredFields)` loop finds it. */
  function FirstFalsy(data: JsValue, fields: seq<string>, from: nat): (r: Option<nat>)
    requires !Nullish(data) && from <= |fields|
    decreases |fields| - from
    ensures r.Some? ==> from <= r.value < |fields| && !Truthy(Prop(data, fields[r.value]))
    ensures r.Some? ==> forall j :: from <= j < r.value ==> Truthy(Prop(data, fields[j]))
    ensures r.None? <==> forall j :: from <= j < |fields| ==> Truthy(Prop(data, fields[j]))
  {
    if from == |fields| then None
    else if !Truthy(Prop(data, fields[from])) then Some(from)
    else FirstFalsy(data, fields, from + 1)
  }

  /** The required-field loop: stop at the first field whose value is falsy. */
  method FindMissingField(data: JsValue, fields: seq<string>) returns (missing: Option<nat>)
    requires !Nullish(data)
    ensures missing == FirstFalsy(data, fields, 0)
  {
    var i := 0;
    while i < |fields|
      invariant 0 <= i <= |fields|
      invariant FirstFalsy(data, fields, i) == FirstFalsy(data, fields, 0)
    {
      if !Truthy(Prop(data, fields[i])) {
        return Some(i);
      }
      i := i + 1;
    }
    return None;
  }

  /** `Array.prototype.findIndex` by id: the first position holding `id`, or -1. */
  function FirstIndexOf(ids: seq<string>, id: string, from: nat): (r: int)
    requires from <= |ids|
    decreases |ids| - from
    ensures r == -1 <==> forall j :: from <= j < |ids| ==> ids[j] != id
    ensures r != -1 ==> from <= r < |ids| && ids[r] == id
    ensures r != -1 ==> forall j :: from <= j < r ==> ids[j] != id
  {
    if from == |ids| then -1
    else if ids[from] == id then from
    else FirstIndexOf(ids, id, from + 1)
  }

  /** No two records of a store share an id. */
  predicate UniqueIds(ids: seq<string>) {
    forall i, j :: 0 <= i < j < |ids| ==> ids[i] != ids[j]
  }

  /** Removing one position of a store without duplicate ids removes its id
      altogether and leaves the ids unique. */
  lemma {:induction false} RemoveUnique(ids: seq<string>, i: nat)
    requires i < |ids| && UniqueIds(ids)
    ensures var rest := ids[..i] + ids[i + 1..];
      UniqueIds(rest) && FirstIndexOf(rest, ids[i], 0) == -1
  {
    var rest := ids[..i] + ids[i + 1..];
    forall j | 0 <= j < |rest|
      ensures rest[j] == ids[if j < i then j else j + 1]
    {
    }
    forall p, q | 0 <= p < q < |rest|
      ensures rest[p] != rest[q]
    {
      assert rest[p] == ids[if p < i then p else p + 1];
      assert rest[q] == ids[if q < i then q else q + 1];
    }
    forall j | 0 <= j < |rest|
      ensures rest[j] != ids[i]
    {
      assert rest[j] == ids[if j < i then j else j + 1];
    }
  }
}
