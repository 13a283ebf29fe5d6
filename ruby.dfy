/** The few notions of Ruby's object model that the adapter relies on. */
module Ruby {

  /** The identity of an opaque Ruby object: a lambda, a class, a catalog
      entry, a request. The adapter never looks inside such objects. */
  type ObjectId = nat

  /** A Ruby value, told apart only as far as the adapter tells values apart:
      `nil`, `false`, an Array literal, or any other object by identity. */
  datatype RubyObject =
    | Nil
    | False
    | Array(elements: seq<ObjectId>)
    | Ref(id: ObjectId)

  /** Ruby truthiness: every value except `nil` and `false`. */
  predicate Truthy(o: RubyObject)
  {
    !o.Nil? && !o.False?
  }

  /** Ruby's `x || y`: the left operand when it is truthy, the right one otherwise. */
  function Or(x: RubyObject, y: RubyObject): (r: RubyObject)
    ensures Truthy(x) ==> r == x
    ensures !Truthy(x) ==> r == y
    ensures Truthy(r) <==> Truthy(x) || Truthy(y)
  {
    if Truthy(x) then x else y
  }

  datatype Option<+T> = None | Some(value: T)

  /** The exceptions that can leave `RackApp.call`: `NoMethodError`, or any
      other exception, by identity. */
  datatype RubyError =
    | NoMethodError
    | OtherException(exception: ObjectId)
}
