/** Shared vocabulary of the marketplace model: record ids, optional values,
    HTTP status codes, and documents (objects with string-valued keys). */
module Common {

  /** Database ids (MongoDB ObjectIds) are modelled as naturals compared by value. */
  type Id = nat

  datatype Option<+T> = None | Some(value: T)

  // HTTP status codes the handlers answer with.
  const OK := 200
  const CREATED := 201
  const BAD_REQUEST := 400
  const FORBIDDEN := 403
  const NOT_FOUND := 404
  /** An exception that reaches the error middleware (a null dereference,
      a failed schema validation, a thrown ReferenceError). */
  const SERVER_ERROR := 500

  /** A free-form JSON object whose values are strings (an address, a
      withdraw method). */
  type Document = map<string, string>

  /** `doc[key]` as JavaScript reads it: `undefined` when the key is absent. */
  function Get(doc: Document, key: string): (r: Option<string>)
    ensures r.Some? <==> key in doc
    ensures r.Some? ==> r.value == doc[key]
  {
    if key in doc then Some(doc[key]) else None
  }

  /** An upper bound of a finite set of ids. */
  ghost function Bound(s: set<Id>): (b: Id)
    ensures forall x :: x in s ==> x < b
    decreases s
  {
    if s == {} then 0
    else
      var y :| y in s;
      var rest := Bound(s - {y});
      assert forall x :: x in s ==> x == y || x in s - {y};
      if y + 1 > rest then y + 1 else rest
  }

  /** The database can always hand out an id that is not yet taken. */
  lemma FreshIdExists(taken: set<Id>)
    ensures exists id: Id :: id !in taken
  {
    var b := Bound(taken);
    assert b !in taken;
  }
}
