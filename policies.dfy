// The decision interface the environment and the harness consume, and the
// environment's own threshold policy.
module Policies {
  import opened Hand

  /** A decision: 0 stands, 1 draws a card. */
  type Action = a: int | 0 <= a <= 1

  const Stand: Action := 0
  const Hit: Action := 1

  /** What one side sees: the total of its own hand (a usable ace counted as
      11), the first card of the opponent's hand, and whether it holds a
      usable ace. */
  datatype Obs = Obs(total: int, shown: Card, usableAce: bool)

  /** A competitor: a rule for the player's seat and one for the dealer's. */
  datatype Policy = Policy(actPlayer: Obs -> Action, actDealer: Obs -> Action)

  /** The threshold a policy built without one uses. */
  const DefaultThreshold := 17

  /** The environment's basic rule: draw while the total is below the threshold. */
  function SimpleAct(threshold: int, obs: Obs): Action
  {
    if obs.total < threshold then Hit else Stand
  }

  /** The basic policy plays the same rule in both seats, drawing exactly
      when the total is below the threshold. */
  function SimplePolicy(threshold: int := DefaultThreshold): (p: Policy)
    ensures forall obs: Obs :: p.actPlayer(obs) == p.actDealer(obs)
    ensures forall obs: Obs :: p.actDealer(obs) == Hit <==> obs.total < threshold
  {
    Policy(obs => SimpleAct(threshold, obs), obs => SimpleAct(threshold, obs))
  }

  /** With the default threshold a dealer stands on a hard 17 and draws on 16. */
  lemma DefaultDealerStandsOnSeventeen(shown: Card)
    ensures SimplePolicy().actDealer(Obs(17, shown, false)) == Stand
    ensures SimplePolicy().actDealer(Obs(16, shown, false)) == Hit
  {
  }
}
