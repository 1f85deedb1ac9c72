// A second threshold policy, written on its own by a participating group.
module GroupTest {
  import opened Policies

  /** The group's rule, stated in each seat separately as the group wrote it. */
  function TestPolicy(threshold: int := DefaultThreshold): (p: Policy)
    ensures forall obs: Obs :: p.actPlayer(obs) == Hit <==> obs.total < threshold
  {
    Policy((obs: Obs) => if obs.total < threshold then Hit else Stand,
           (obs: Obs) => if obs.total < threshold then Hit else Stand)
  }

  /** Both seats decide alike, and the rule is the basic policy's rule. */
  lemma TestPolicySeatsAgree(threshold: int, obs: Obs)
    ensures TestPolicy(threshold).actPlayer(obs) == TestPolicy(threshold).actDealer(obs)
    ensures TestPolicy(threshold).actDealer(obs) == SimplePolicy(threshold).actDealer(obs)
    ensures TestPolicy(threshold).actPlayer(obs) == SimplePolicy(threshold).actPlayer(obs)
  {
  }

  /** Once the policy stands at some total it stands at every higher total,
      whatever else the observation says. */
  lemma TestPolicyMonotone(threshold: int, obs: Obs, later: Obs)
    requires TestPolicy(threshold).actPlayer(obs) == Stand
    requires obs.total <= later.total
    ensures TestPolicy(threshold).actPlayer(later) == Stand
    ensures TestPolicy(threshold).actDealer(later) == Stand
  {
  }
}
