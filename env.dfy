// The Blackjack round: the shared card generator, the observations each side
// gets, the draw-while-hitting loop both sides run, and the environment
// object whose `Reset` deals and whose `Step` plays the player's decision.
module Env {
  import opened Options
  import opened Hand
  import opened Policies

  /** The card values the shared generator hands out, in order. */
  type Stream = nat -> Card

  /** Where the generator's current stream comes from: the state it was in
      before any reseed, or a reseed with a given seed. */
  datatype Origin = Unseeded | SeededWith(seed: int)

  /** What the generator produces: `initial` is its stream before any
      reseed, `streamOf(n)` its stream once reseeded with n. */
  datatype Source = Source(initial: Stream, streamOf: int -> Stream)

  function Cards(src: Source, origin: Origin): Stream
  {
    match origin
    case Unseeded => src.initial
    case SeededWith(n) => src.streamOf(n)
  }

  /** A state of the shared generator: where its stream comes from and how
      many of its cards are already handed out. */
  datatype Gen = Gen(origin: Origin, pos: nat)

  /** A round reseeds the generator only for a given, non-zero seed. */
  predicate Reseeds(seed: Option<int>)
  {
    seed.Some? && seed.value != 0
  }

  /** The generator after an optional reseed. */
  function Reseed(g: Gen, seed: Option<int>): Gen
  {
    if Reseeds(seed) then Gen(SeededWith(seed.value), 0) else g
  }

  /** A reseeded generator forgets its earlier state, so the same seed gives
      the same cards; a missing or zero seed leaves the generator alone. */
  lemma ReseedForgets(g1: Gen, g2: Gen, seed: Option<int>)
    ensures Reseeds(seed) ==> Reseed(g1, seed) == Reseed(g2, seed) == Gen(SeededWith(seed.value), 0)
    ensures !Reseeds(seed) ==> Reseed(g1, seed) == g1
    ensures Reseed(g1, Some(0)) == Reseed(g1, None) == g1
  {
  }

  /** The two opening hands dealt from generator state g, player's first. */
  function Deal(src: Source, g: Gen): (hands: (seq<Card>, seq<Card>))
    ensures |hands.0| == 2 && |hands.1| == 2
    ensures !IsBust(hands.0) && !IsBust(hands.1)
  {
    var s := Cards(src, g.origin);
    ([s(g.pos), s(g.pos + 1)], [s(g.pos + 2), s(g.pos + 3)])
  }

  /** What the holder of `own` sees when the opponent holds `other`: the
      opponent's first card, whether the holder has a usable ace, and the
      raw total plus 10 for that ace, which is over 21 exactly when the hand
      is bust. */
  function ObsOf(own: seq<Card>, other: seq<Card>): (obs: Obs)
    requires other != []
    ensures obs.shown == other[0] && obs.usableAce == UsableAce(own)
    ensures obs.usableAce ==> obs.total == Sum(own) + 10 <= 21
    ensures !obs.usableAce ==> obs.total == Sum(own)
    ensures obs.total > 21 <==> IsBust(own)
  {
    Obs(SumHand(own), other[0], UsableAce(own))
  }

  /** The three-way comparison the environment defines: 1, 0 or -1 as a is
      greater than, equal to or less than b. */
  function Cmp(a: int, b: int): (r: int)
    ensures r == 1 <==> a > b
    ensures r == 0 <==> a == b
    ensures r == -1 <==> a < b
  {
    (if a > b then 1 else 0) - (if a < b then 1 else 0)
  }

  /** The player's reward once the dealer stands: the sign of the difference
      of the two scores. */
  function Settle(player: seq<Card>, dealer: seq<Card>): (reward: int)
    ensures reward == Cmp(Score(player), Score(dealer))
  {
    if Score(player) > Score(dealer) then 1
    else if Score(player) == Score(dealer) then 0
    else -1
  }

  /** How a draw-while-the-policy-hits loop ends: the final hand, the
      generator position after it, and whether it stopped on a bust. */
  datatype Run = Run(hand: seq<Card>, pos: nat, busted: bool)

  /** `hand` is `own` followed by the cards of s from position pos on. */
  ghost predicate Extends(hand: seq<Card>, own: seq<Card>, s: Stream, pos: nat)
  {
    |own| <= |hand| && hand[..|own|] == own &&
    forall i :: |own| <= i < |hand| ==> hand[i] == s(pos + i - |own|)
  }

  /** The loop both sides run: ask `act` about the current hand, draw while it
      says hit, and stop at the first bust. `other` is the opponent's hand,
      whose first card every observation shows. */
  function HitRun(act: Obs -> Action, own: seq<Card>, other: seq<Card>, s: Stream, pos: nat): (r: Run)
    requires other != []
    ensures |own| <= |r.hand|
    ensures r.busted ==> IsBust(r.hand)
    ensures !r.busted && r.hand != own ==> !IsBust(r.hand)
    decreases 22 - |own|
  {
    if act(ObsOf(own, other)) == Stand then
      Run(own, pos, false)
    else
      var h := own + [s(pos)];
      if IsBust(h) then
        Run(h, pos + 1, true)
      else
        HitRun(act, h, other, s, pos + 1)
  }

  /** The loop draws the next cards of the stream, one for each time the
      policy said hit, and never more cards than the raw total leaves room
      for, so it ends for every policy. */
  lemma {:induction false} HitRunDraws(act: Obs -> Action, own: seq<Card>, other: seq<Card>, s: Stream, pos: nat)
    requires other != []
    ensures var r := HitRun(act, own, other, s, pos);
      Extends(r.hand, own, s, pos) && r.pos == pos + |r.hand| - |own| &&
      |r.hand| - |own| <= if Sum(own) <= 21 then 22 - Sum(own) else 1
    decreases 22 - |own|
  {
    if act(ObsOf(own, other)) == Hit {
      var h := own + [s(pos)];
      DrawRaisesSum(own, s(pos));
      if IsBust(h) {
        assert h[..|own|] == own;
      } else {
        HitRunDraws(act, h, other, s, pos + 1);
        ExtendsStep(HitRun(act, h, other, s, pos + 1).hand, own, s, pos);
      }
    }
  }

  /** A hand that extends `own` and the next card from pos + 1 on extends
      `own` from pos on. */
  lemma ExtendsStep(hand: seq<Card>, own: seq<Card>, s: Stream, pos: nat)
    requires Extends(hand, own + [s(pos)], s, pos + 1)
    ensures Extends(hand, own, s, pos)
  {
    var h := own + [s(pos)];
    assert hand[..|own|] == hand[..|h|][..|own|] == h[..|own|] == own;
    assert hand[|own|] == hand[..|h|][|own|] == s(pos);
  }

  /** The loop asks the policy about every hand it draws to, and it said hit
      each time; a run that did not bust ends on a hand the policy stands on. */
  lemma {:induction false} HitRunAsks(act: Obs -> Action, own: seq<Card>, other: seq<Card>, s: Stream, pos: nat)
    requires other != []
    ensures var r := HitRun(act, own, other, s, pos);
      (forall k :: |own| <= k < |r.hand| ==> act(ObsOf(r.hand[..k], other)) == Hit) &&
      (!r.busted ==> act(ObsOf(r.hand, other)) == Stand)
    decreases 22 - |own|
  {
    if act(ObsOf(own, other)) == Hit {
      var h := own + [s(pos)];
      if IsBust(h) {
        assert h[..|own|] == own;
      } else {
        HitRunAsks(act, h, other, s, pos + 1);
        HitRunDraws(act, h, other, s, pos + 1);
        AskedBefore(act, HitRun(act, h, other, s, pos + 1).hand, own, h, other);
      }
    }
  }

  /** A hand that starts with h, own and one more card, was asked about
      from own on when the policy hit on own and on every hand from h on. */
  lemma AskedBefore(act: Obs -> Action, hand: seq<Card>, own: seq<Card>, h: seq<Card>, other: seq<Card>)
    requires other != []
    requires |h| == |own| + 1 && |h| <= |hand| && hand[..|h|] == h && h[..|own|] == own
    requires act(ObsOf(own, other)) == Hit
    requires forall k :: |h| <= k < |hand| ==> act(ObsOf(hand[..k], other)) == Hit
    ensures forall k :: |own| <= k < |hand| ==> act(ObsOf(hand[..k], other)) == Hit
  {
    assert hand[..|own|] == own by {
      assert hand[..|own|] == hand[..|h|][..|own|];
    }
  }

  /** The loop stops at the first bust: no hand before the last one is bust,
      and the run is marked busted exactly when it drew and the last hand
      is bust. */
  lemma {:induction false} HitRunBusts(act: Obs -> Action, own: seq<Card>, other: seq<Card>, s: Stream, pos: nat)
    requires other != []
    ensures var r := HitRun(act, own, other, s, pos);
      (r.busted <==> |r.hand| > |own| && IsBust(r.hand)) &&
      (forall k :: |own| < k < |r.hand| ==> !IsBust(r.hand[..k]))
    decreases 22 - |own|
  {
    if act(ObsOf(own, other)) == Hit {
      var h := own + [s(pos)];
      if !IsBust(h) {
        HitRunBusts(act, h, other, s, pos + 1);
        HitRunDraws(act, h, other, s, pos + 1);
        NoEarlierBust(HitRun(act, h, other, s, pos + 1).hand, own, h);
      }
    }
  }

  /** A hand that starts with h, one card longer than own and not bust, and
      has no bust hand between h and itself, has none between own and
      itself either. */
  lemma NoEarlierBust(hand: seq<Card>, own: seq<Card>, h: seq<Card>)
    requires |h| == |own| + 1 && |h| <= |hand| && hand[..|h|] == h && !IsBust(h)
    requires forall k :: |h| < k < |hand| ==> !IsBust(hand[..k])
    ensures forall k :: |own| < k < |hand| ==> !IsBust(hand[..k])
  {
    forall k | |own| < k < |hand| ensures !IsBust(hand[..k]) {
      if k == |h| {
        assert hand[..k] == h;
      }
    }
  }

  /** Which side an observation is taken for. */
  datatype Role = PlayerRole | DealerRole

  /** The shared generator: Python's process-wide random state. */
  class Rng {
    const src: Source
    var origin: Origin
    var pos: nat

    function Current(): Gen
      reads this
    {
      Gen(origin, pos)
    }

    constructor (src: Source, g: Gen)
      ensures this.src == src && Current() == g
    {
      this.src := src;
      origin, pos := g.origin, g.pos;
    }

    /** Reseeding starts the stream that seed n determines. */
    method Seed(n: int)
      modifies this
      ensures Current() == Gen(SeededWith(n), 0)
    {
      origin, pos := SeededWith(n), 0;
    }

    /** Hands out the next card of the current stream. */
    method Choice() returns (c: Card)
      modifies this
      ensures c == Cards(src, old(origin))(old(pos))
      ensures Current() == Gen(old(origin), old(pos) + 1)
    {
      c := Cards(src, origin)(pos);
      pos := pos + 1;
    }
  }

  /** One table: a player against a dealer whose decisions the dealer
      policy's `actDealer` makes. `state` counts the phases passed: 0 while
      the player acts, 1 once the player stands, 2 once the dealer stands. */
  class BlackJack {
    var state: nat
    var player: seq<Card>
    var dealer: seq<Card>
    const dealerPolicy: Policy
    const rng: Rng

    constructor (dealerPolicy: Policy, rng: Rng)
      ensures this.dealerPolicy == dealerPolicy && this.rng == rng
      ensures state == 0 && player == [] && dealer == []
    {
      this.dealerPolicy := dealerPolicy;
      this.rng := rng;
      state := 0;
      player, dealer := [], [];
    }

    /** Both sides hold cards, as they do from the first `Reset` on. */
    predicate Dealt()
      reads this
    {
      player != [] && dealer != []
    }

    /** The observation of the given side: its own total and ace, and the
        other side's first card. The player's is the one returned to the
        caller; the dealer policy decides on the dealer's. */
    function GetObs(role: Role): (obs: Obs)
      reads this
      requires Dealt()
      ensures role == PlayerRole ==>
        obs.shown == dealer[0] && obs.usableAce == UsableAce(player) && (obs.total > 21 <==> IsBust(player))
      ensures role == DealerRole ==>
        obs.shown == player[0] && obs.usableAce == UsableAce(dealer) && (obs.total > 21 <==> IsBust(dealer))
    {
      if role == PlayerRole then ObsOf(player, dealer) else ObsOf(dealer, player)
    }

    /** Draws the next card from the shared generator. */
    method GetCard() returns (c: Card)
      modifies rng
      ensures c == Cards(rng.src, old(rng.origin))(old(rng.pos))
      ensures rng.Current() == Gen(old(rng.origin), old(rng.pos) + 1)
    {
      c := rng.Choice();
    }

    /** Starts a round: reseeds for a non-zero seed, deals two cards to each
        side and returns the player's observation. */
    method Reset(seed: Option<int> := None) returns (obs: Obs)
      modifies this, rng
      ensures var g := Reseed(old(rng.Current()), seed);
        (player, dealer) == Deal(rng.src, g) && rng.Current() == Gen(g.origin, g.pos + 4)
      ensures state == 0 && Dealt() && obs == ObsOf(player, dealer)
    {
      if Reseeds(seed) {
        rng.Seed(seed.value);
      }
      var p1 := GetCard();
      var p2 := GetCard();
      player := [p1, p2];
      var d1 := GetCard();
      var d2 := GetCard();
      dealer := [d1, d2];
      state := 0;
      obs := GetObs(PlayerRole);
    }

    /** Plays the player's decision. A hit draws one card for the player and
        ends the round on a bust; a stand lets the dealer draw while its
        policy says hit and settles the round. */
    method Step(action: Action) returns (obs: Obs, reward: int, done: bool)
      requires Dealt()
      modifies this, rng
      ensures Dealt() && rng.origin == old(rng.origin)
      ensures obs == ObsOf(player, dealer)
      ensures action == Hit ==>
        player == old(player) + [Cards(rng.src, rng.origin)(old(rng.pos))] &&
        dealer == old(dealer) && state == old(state) &&
        rng.pos == old(rng.pos) + 1 &&
        done == IsBust(player) && reward == (if done then -1 else 0)
      ensures action == Stand ==>
        var r := HitRun(dealerPolicy.actDealer, old(dealer), old(player), Cards(rng.src, rng.origin), old(rng.pos));
        player == old(player) && dealer == r.hand && rng.pos == r.pos && done &&
        state == old(state) + (if r.busted then 1 else 2) &&
        reward == (if r.busted then 1 else Settle(player, dealer))
    {
      if action == Hit {
        obs, reward, done := PlayerHits();
      } else {
        obs, reward, done := PlayerStands();
      }
    }

    /** The hit branch of `Step`: one card for the player, -1 and the end of
        the round on a bust. */
    method PlayerHits() returns (obs: Obs, reward: int, done: bool)
      requires Dealt()
      modifies this, rng
      ensures Dealt() && rng.origin == old(rng.origin)
      ensures obs == ObsOf(player, dealer)
      ensures player == old(player) + [Cards(rng.src, rng.origin)(old(rng.pos))]
      ensures dealer == old(dealer) && state == old(state) && rng.pos == old(rng.pos) + 1
      ensures done == IsBust(player) && reward == (if done then -1 else 0)
    {
      var c := GetCard();
      player := player + [c];
      if IsBust(player) {
        return GetObs(PlayerRole), -1, true;
      }
      return GetObs(PlayerRole), 0, false;
    }

    /** The stand branch of `Step`: the dealer draws while its policy says
        hit; its first bust ends the round with +1, and otherwise the round
        is settled on the two scores. */
    method PlayerStands() returns (obs: Obs, reward: int, done: bool)
      requires Dealt()
      modifies this, rng
      ensures Dealt() && rng.origin == old(rng.origin)
      ensures obs == ObsOf(player, dealer)
      ensures var r := HitRun(dealerPolicy.actDealer, old(dealer), old(player), Cards(rng.src, rng.origin), old(rng.pos));
        player == old(player) && dealer == r.hand && rng.pos == r.pos && done &&
        state == old(state) + (if r.busted then 1 else 2) &&
        reward == (if r.busted then 1 else Settle(player, dealer))
    {
      state := state + 1;
      var busted := DealerDraws();
      if busted {
        return GetObs(PlayerRole), 1, true;
      }
      state := state + 1;
      var playerPoint := Score(player);
      var dealerPoint := Score(dealer);
      if playerPoint > dealerPoint {
        reward := 1;
      } else if playerPoint == dealerPoint {
        reward := 0;
      } else {
        reward := -1;
      }
      return GetObs(PlayerRole), reward, true;
    }

    /** The dealer's loop inside the stand branch: ask the dealer policy,
        draw while it says hit, and stop at the first bust. */
    method DealerDraws() returns (busted: bool)
      requires Dealt()
      modifies this`dealer, rng
      ensures Dealt() && rng.origin == old(rng.origin)
      ensures var r := HitRun(dealerPolicy.actDealer, old(dealer), player, Cards(rng.src, rng.origin), old(rng.pos));
        dealer == r.hand && rng.pos == r.pos && busted == r.busted
    {
      ghost var act, cards := dealerPolicy.actDealer, Cards(rng.src, rng.origin);
      ghost var run := HitRun(act, dealer, player, cards, rng.pos);
      var dealerAction := dealerPolicy.actDealer(GetObs(DealerRole));
      while dealerAction == Hit
        invariant Dealt() && rng.origin == old(rng.origin)
        invariant dealerAction == act(ObsOf(dealer, player))
        invariant HitRun(act, dealer, player, cards, rng.pos) == run
        decreases if Sum(dealer) <= 21 then 22 - Sum(dealer) else 0
      {
        var bust := DealerHits();
        if bust {
          return true;
        }
        dealerAction := dealerPolicy.actDealer(GetObs(DealerRole));
      }
      return false;
    }

    /** One draw of the dealer's loop: the next card goes to the dealer. */
    method DealerHits() returns (bust: bool)
      requires Dealt()
      modifies this`dealer, rng
      ensures Dealt() && rng.origin == old(rng.origin) && rng.pos == old(rng.pos) + 1
      ensures dealer == old(dealer) + [Cards(rng.src, rng.origin)(old(rng.pos))]
      ensures Sum(dealer) > Sum(old(dealer)) && bust == IsBust(dealer)
    {
      var c := GetCard();
      DrawRaisesSum(dealer, c);
      dealer := dealer + [c];
      bust := IsBust(dealer);
    }
  }
}
