/**
 What a claim asks for: the activation policies and the ledger's choice of a
 dispatch action from policy, capabilities and availability
 (internal/store/delivery.go, internal/sqlite/delivery.go claimAction).
 */
module Activation {

  const NEXT_STEP := "deliver_next_step"

  /** The policy under its current name, or nothing for one that is not known. */
  function Normalize(policy: string): string {
    if policy in {"", "next_turn", "wake_when_idle"} then "next_turn"
    else if policy == "next_step" then "next_step"
    else if policy in {"no_wake", "never_wake"} then "no_wake"
    else ""
  }

  /** The dispatch action of a claim, or nothing when the head is not eligible. */
  function ClaimAction(policy: string, caps: set<string>, availability: string): string {
    var p := Normalize(policy);
    if p == "no_wake" then
      if availability == "busy" && NEXT_STEP in caps then NEXT_STEP else ""
    else if availability == "busy" then
      if p == "next_step" && NEXT_STEP in caps then NEXT_STEP
      else if "durable_next_turn" in caps then "register_next_turn"
      else ""
    else if availability == "idle" then
      if "deliver_when_idle" in caps then "deliver_at_idle" else ""
    else if availability == "inactive" then
      if "wake_inactive" in caps then "wake_then_deliver" else ""
    else ""
  }

  /**
   Which action a claim gets: told of the policy's names, the capabilities and
   whether the session is busy, idle or gone; any other claim gets none.
   */
  lemma ClaimsExactly(policy: string, caps: set<string>, availability: string)
    ensures var action, quiet := ClaimAction(policy, caps, availability), policy == "no_wake" || policy == "never_wake";
      && (action == "deliver_next_step" <==>
            availability == "busy" && "deliver_next_step" in caps && (quiet || policy == "next_step"))
      && (action == "register_next_turn" <==>
            availability == "busy" && "durable_next_turn" in caps && !quiet
            && !(policy == "next_step" && "deliver_next_step" in caps))
      && (action == "deliver_at_idle" <==> availability == "idle" && "deliver_when_idle" in caps && !quiet)
      && (action == "wake_then_deliver" <==> availability == "inactive" && "wake_inactive" in caps && !quiet)
      && action in {"deliver_next_step", "register_next_turn", "deliver_at_idle", "wake_then_deliver", ""}
  {
  }
}
