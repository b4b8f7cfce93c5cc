// How an external call ends, as its caller sees it.
module Replies {

  // It took effect and said so, it had no effect, or it took effect but its caller
  // saw an error.
  datatype Reply = Landed | Refused | Lost {
    predicate Applied() { this != Refused }
  }
}
