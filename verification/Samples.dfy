/** One actor, one request of its own and a policy that requires approval for it, from which the
    concrete runs start. */
module Samples {
  import opened Records

  const ACTOR := ActorContext("t", "alice", 0, 1000000, "")
  const REQUEST := Request("t", "alice", "r", "run", OfActor(ACTOR), "tool", "1", "write",
                           Idempotency("t", "key", "tool"), 0)
  const POLICY := Policy("t", "d", "r", OfRequest(REQUEST), RequireApproval, [], "", 0)
}
