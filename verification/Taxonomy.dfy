/** The registered actions and the capability tables. */
module Taxonomy {
  predicate IsRegisteredAction(action: string) {
    action in {
      "wallet.send_ton", "wallet.send_jetton", "wallet.send_nft",
      "agent.register", "agent.migrate", "agent.freeze", "agent.unfreeze",
      "capability.update", "capability.temporal_boost_request", "capability.temporal_boost_release",
      "treasury.transfer", "treasury.distribute_rewards", "treasury.buyback_burn",
      "governance.propose_amendment", "governance.vote", "governance.vote_as_agent", "governance.finalize_amendment",
      "oracles.submit_feed", "oracles.slash", "oracles.force_update",
      "ptra.stake", "ptra.unstake", "ptra.claim_rewards",
      "failure_mode.emergency_withdraw", "failure_mode.enter_bounded", "failure_mode.exit_bounded",
      "cal.cancel"
    }
  }

  predicate IsOwnerRequired(action: string) {
    action in {
      "capability.update", "agent.migrate", "treasury.transfer", "governance.vote_as_agent",
      "governance.propose_amendment", "ptra.stake", "ptra.unstake", "failure_mode.emergency_withdraw"
    }
  }

  predicate IsBoundedAllowed(action: string) {
    action in {
      "failure_mode.emergency_withdraw", "failure_mode.exit_bounded", "oracles.force_update",
      "oracles.submit_feed", "agent.freeze", "cal.cancel"
    }
  }

  /** The scope an action needs, if any; the table never asks for more than one. */
  function RequiredScopes(action: string): set<string> {
    if action == "wallet.send_ton" then {"ton_transfer"}
    else if action == "wallet.send_jetton" then {"jetton_access"}
    else if action == "wallet.send_nft" then {"nft_access"}
    else if action in {"treasury.transfer", "treasury.distribute_rewards", "treasury.buyback_burn"}
      then {"treasury_access:transfer"}
    else if action == "governance.propose_amendment" then {"governance_scope:propose"}
    else if action in {"governance.vote", "governance.finalize_amendment"} then {"governance_scope:vote"}
    else if action == "governance.vote_as_agent" then {"ptra_governance_vote"}
    else if action in {"ptra.stake", "ptra.unstake", "ptra.claim_rewards"} then {"ptra_stake"}
    else {}
  }

  predicate RequiresScope(action: string, scope: string) {
    scope in RequiredScopes(action)
  }

  /** Scopes that a granted scope brings with it. */
  function ImpliedScopes(granted: string): set<string> {
    if granted == "treasury_access:transfer" then {"treasury_access:view"}
    else if granted == "governance_scope:vote" then {"governance_scope:propose"}
    else {}
  }
}
