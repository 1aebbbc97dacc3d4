// The conventional optional value.
module Wrappers {
  datatype Option<+T> = None | Some(value: T)
}

// A predicate whose body stands under `forall key :: Turns(key) ==> ...` is passed on
// as a whole; a lemma that needs what is inside asserts Turns(TheKey).
module Sealing {
  datatype Key = TheKey

  predicate Turns(key: Key) { key.TheKey? }

  // A second lock, for what is to stay closed when the first is opened.
  predicate Opens(key: Key) { key.TheKey? }
}
