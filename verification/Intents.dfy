/** What a strategy asks of its context for the instrument it trades. */
module Intents {

  datatype Side = Long | Short

  datatype Intent = Target(quantity: real) | Close

  /** Entries and closes alternate, starting with an entry of the given size, long or short. */
  ghost predicate Alternating(quantity: real, intents: seq<Intent>) {
    forall i :: 0 <= i < |intents| ==>
      if i % 2 == 0 then intents[i] == Target(quantity) || intents[i] == Target(-quantity) else intents[i] == Close
  }
}
