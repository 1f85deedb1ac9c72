// The battle harness: two agents play a fixed number of rounds, the first
// agent dealing the first half and the second agent dealing the rest, and the
// first agent's wins and draws are tallied by seat.
module Battle {
  import opened Options
  import opened Hand
  import opened Policies
  import opened Env

  /** The first agent's results: wins and draws while it deals (home) and
      while it plays (away). */
  datatype Tally = Tally(winHc: nat, drawHc: nat, winVc: nat, drawVc: nat)

  const NoGames := Tally(0, 0, 0, 0)

  function Wins(t: Tally): nat { t.winHc + t.winVc }
  function Draws(t: Tally): nat { t.drawHc + t.drawVc }
  function Counted(t: Tally): nat { Wins(t) + Draws(t) }

  /** The seat the first agent holds in a round. */
  datatype Seat = Home | Away

  /** How a round ends for the harness: whether the player went bust while
      hitting, and the reward of the last step. */
  datatype RoundEnd = RoundEnd(bust: bool, reward: int)

  /** One round from generator state g: deal, let the player hit while its
      policy says so, then, unless it went bust, stand and let the dealer
      play. Returns how the round ended and the generator after it. */
  function Round(dealerAct: Obs -> Action, playerAct: Obs -> Action, src: Source, g: Gen): (RoundEnd, Gen)
  {
    var (p, d) := Deal(src, g);
    var s := Cards(src, g.origin);
    var pr := HitRun(playerAct, p, d, s, g.pos + 4);
    HitRunDraws(playerAct, p, d, s, g.pos + 4);
    if pr.busted then
      (RoundEnd(true, -1), Gen(g.origin, pr.pos))
    else
      var dr := HitRun(dealerAct, d, pr.hand, s, pr.pos);
      (RoundEnd(false, if dr.busted then 1 else Settle(pr.hand, dr.hand)), Gen(g.origin, dr.pos))
  }

  /** A round never reseeds and moves the generator on by at least the four
      cards of the deal; a player that went bust got -1, and every reward is
      -1, 0 or 1. */
  lemma RoundEnds(dealerAct: Obs -> Action, playerAct: Obs -> Action, src: Source, g: Gen)
    ensures var (e, after) := Round(dealerAct, playerAct, src, g);
      after.origin == g.origin && after.pos >= g.pos + 4 &&
      (e.bust ==> e.reward == -1) && -1 <= e.reward <= 1
  {
    var (p, d) := Deal(src, g);
    var s := Cards(src, g.origin);
    HitRunDraws(playerAct, p, d, s, g.pos + 4);
    var pr := HitRun(playerAct, p, d, s, g.pos + 4);
    if !pr.busted {
      HitRunDraws(dealerAct, d, pr.hand, s, pr.pos);
    }
  }

  /** The same non-zero seed plays the same round, whatever the generator
      did before. */
  lemma SameSeedSameRound(dealerAct: Obs -> Action, playerAct: Obs -> Action, src: Source,
                          g1: Gen, g2: Gen, seed: int)
    requires seed != 0
    ensures Round(dealerAct, playerAct, src, Reseed(g1, Some(seed)))
         == Round(dealerAct, playerAct, src, Reseed(g2, Some(seed)))
  {
    ReseedForgets(g1, g2, Some(seed));
  }

  /** The tally after one round. Dealing, the first agent wins when the
      other busts or loses the showdown and draws on a tie; playing, it wins
      on reward +1 and draws on 0. */
  function Record(seat: Seat, t: Tally, e: RoundEnd): Tally
  {
    match seat
    case Home =>
      if e.bust then t.(winHc := t.winHc + 1)
      else if e.reward == -1 then t.(winHc := t.winHc + 1)
      else if e.reward == 0 then t.(drawHc := t.drawHc + 1)
      else t
    case Away =>
      if e.bust then t
      else if e.reward == 1 then t.(winVc := t.winVc + 1)
      else if e.reward == 0 then t.(drawVc := t.drawVc + 1)
      else t
  }

  /** A round counts at most one result, and only in the first agent's
      seat at that table; a player who went bust is a win for the first
      agent when it deals, and counts for nothing when it plays. */
  lemma RecordAddsAtMostOne(seat: Seat, t: Tally, e: RoundEnd)
    ensures var u := Record(seat, t, e);
      Counted(t) <= Counted(u) <= Counted(t) + 1 &&
      u.winHc >= t.winHc && u.drawHc >= t.drawHc && u.winVc >= t.winVc && u.drawVc >= t.drawVc &&
      (seat == Home ==> u.winVc == t.winVc && u.drawVc == t.drawVc) &&
      (seat == Away ==> u.winHc == t.winHc && u.drawHc == t.drawHc) &&
      (seat == Home && e.bust ==> u == t.(winHc := t.winHc + 1)) &&
      (seat == Away && e.bust ==> u == t)
  {
  }

  /** The rounds one table plays: the dealer policy's dealer rule against
      the player policy's player rule, on the shared generator. */
  function Table(dealer: Policy, player: Policy, src: Source): Gen -> (RoundEnd, Gen)
  {
    g => Round(dealer.actDealer, player.actPlayer, src, g)
  }


  /** The tally and generator after the first n rounds at one table, the
      k-th of them (counting from 0) reset with seed + k, starting from no
      games and generator g; `seat` is the first agent's seat there. */
  function Rounds(seat: Seat, table: Gen -> (RoundEnd, Gen), seed: int, n: nat, g: Gen): (Tally, Gen)
  {
    if n == 0 then (NoGames, g)
    else
      var before := Rounds(seat, table, seed, n - 1, g);
      var (e, after) := table(Reseed(before.1, Some(seed + n - 1)));
      (Record(seat, before.0, e), after)
  }

  /** `Rounds` unfolded once at the table of two policies: the step
      `NextRound` takes from n rounds to n + 1. */
  lemma RoundsNext(seat: Seat, dealer: Policy, player: Policy, src: Source, seed: int,
                   n: nat, g: Gen, e: RoundEnd, after: Gen)
    requires var before := Rounds(seat, Table(dealer, player, src), seed, n, g).1;
      (e, after) == Round(dealer.actDealer, player.actPlayer, src, Reseed(before, Some(seed + n)))
    ensures Rounds(seat, Table(dealer, player, src), seed, n + 1, g) ==
      (Record(seat, Rounds(seat, Table(dealer, player, src), seed, n, g).0, e), after)
  {
  }

  /** n rounds with the first agent dealing count at most one win or draw
      each, all of them in the dealing seat. */
  lemma {:induction false} HomeRoundsBounds(table: Gen -> (RoundEnd, Gen), seed: int, n: nat, g: Gen)
    ensures var u := Rounds(Home, table, seed, n, g).0;
      u.winVc == 0 && u.drawVc == 0 && u.winHc + u.drawHc <= n
  {
    if n > 0 {
      HomeRoundsBounds(table, seed, n - 1, g);
      var before := Rounds(Home, table, seed, n - 1, g);
      RecordAddsAtMostOne(Home, before.0, table(Reseed(before.1, Some(seed + n - 1))).0);
    }
  }

  /** n rounds with the first agent playing count at most one win or draw
      each, all of them in the playing seat. */
  lemma {:induction false} AwayRoundsBounds(table: Gen -> (RoundEnd, Gen), seed: int, n: nat, g: Gen)
    ensures var u := Rounds(Away, table, seed, n, g).0;
      u.winHc == 0 && u.drawHc == 0 && u.winVc + u.drawVc <= n
  {
    if n > 0 {
      AwayRoundsBounds(table, seed, n - 1, g);
      var before := Rounds(Away, table, seed, n - 1, g);
      RecordAddsAtMostOne(Away, before.0, table(Reseed(before.1, Some(seed + n - 1))).0);
    }
  }

  /** A share of a whole, kept as the exact fraction part / whole; the
      harness computes it in floating point. */
  datatype Share = Share(part: nat, whole: nat)

  /** The value of a share of a non-empty whole. */
  function Value(q: Share): real
    requires q.whole > 0
  {
    q.part as real / q.whole as real
  }

  /** What `battle` returns: the first agent's win rate and its tally. */
  datatype Report = Report(winRate: Share, tally: Tally)

  /** The share of all rounds the first agent won, in either seat. */
  function WinRate(t: Tally, numRound: nat): Share
    requires numRound > 0
  {
    Share(Wins(t), numRound)
  }

  /** The win rate times the number of rounds is the number of wins, so it
      lies in [0, 1] when the wins do not outnumber the rounds. */
  lemma WinRateMeaning(t: Tally, numRound: nat)
    requires numRound > 0
    ensures Value(WinRate(t, numRound)) * numRound as real == Wins(t) as real
    ensures Wins(t) <= numRound ==> 0.0 <= Value(WinRate(t, numRound)) <= 1.0
  {
  }

  /** How the battle splits its rounds: the first agent deals numRound / 2
      of them and plays the rest, which is the larger half. */
  function Split(numRound: nat): (r: (nat, nat))
    ensures r.0 + r.1 == numRound && r.0 <= r.1 <= r.0 + 1
  {
    (numRound / 2, numRound - numRound / 2)
  }

  /** The battle over two tables: the dealing half of the rounds at `home`
      from generator state g, then the playing half at `away` from where the
      first left the generator, its seeds following on. The home table
      counts the first agent's results as dealer, the away table its results
      as player. With no rounds the win rate divides by zero, and there is
      no report. */
  function Schedule(home: Gen -> (RoundEnd, Gen), away: Gen -> (RoundEnd, Gen),
                    numRound: nat, seed: int, g: Gen): Option<Report>
  {
    var (half, rest) := Split(numRound);
    var h := Rounds(Home, home, seed, half, g);
    var a := Rounds(Away, away, seed + half, rest, h.1);
    var t := Tally(h.0.winHc, h.0.drawHc, a.0.winVc, a.0.drawVc);
    if numRound == 0 then None
    else Some(Report(WinRate(t, numRound), t))
  }

  /** The whole battle: agent1 deals at the first table and agent2 at the
      second. */
  function BattleSpec(agent1: Policy, agent2: Policy, numRound: nat, seed: int,
                      src: Source, g: Gen): Option<Report>
  {
    Schedule(Table(agent1, agent2, src), Table(agent2, agent1, src), numRound, seed, g)
  }

  /** Whatever the tables, there is a report exactly when there are rounds,
      and each seat's wins and draws are bounded by the rounds that seat
      plays. */
  lemma ScheduleBounds(home: Gen -> (RoundEnd, Gen), away: Gen -> (RoundEnd, Gen),
                       numRound: nat, seed: int, g: Gen)
    ensures var r := Schedule(home, away, numRound, seed, g);
      r.Some? <==> numRound > 0
    ensures var r := Schedule(home, away, numRound, seed, g);
      r.Some? ==>
        r.value.tally.winHc + r.value.tally.drawHc <= Split(numRound).0 &&
        r.value.tally.winVc + r.value.tally.drawVc <= Split(numRound).1
  {
    var (half, rest) := Split(numRound);
    var h := Rounds(Home, home, seed, half, g);
    var a := Rounds(Away, away, seed + half, rest, h.1);
    HomeRoundsBounds(home, seed, half, g);
    AwayRoundsBounds(away, seed + half, rest, h.1);
  }

  /** The win rate of every battle is a share of all its rounds, and lies in
      [0, 1]. */
  lemma ScheduleWinRate(home: Gen -> (RoundEnd, Gen), away: Gen -> (RoundEnd, Gen),
                        numRound: nat, seed: int, g: Gen)
    ensures var r := Schedule(home, away, numRound, seed, g);
      r.Some? ==> r.value.winRate.whole == numRound > 0 && 0.0 <= Value(r.value.winRate) <= 1.0
  {
    ScheduleBounds(home, away, numRound, seed, g);
    var r := Schedule(home, away, numRound, seed, g);
    if r.Some? {
      WinRateMeaning(r.value.tally, numRound);
    }
  }

  /** The player's part of a round: ask the policy about the observation,
      and step with hit while it says so and the round goes on. It ends
      either on a bust, which ends the round with reward -1, or on the
      policy's stand, which is still to be played. */
  method PlayerTurn(env: BlackJack, playerAct: Obs -> Action, obs0: Obs) returns (reward: int, done: bool)
    requires env.Dealt() && obs0 == ObsOf(env.player, env.dealer) && !IsBust(env.player)
    modifies env, env.rng
    ensures env.Dealt() && env.dealer == old(env.dealer) && env.state == old(env.state)
    ensures env.rng.origin == old(env.rng.origin)
    ensures var r := HitRun(playerAct, old(env.player), env.dealer, Cards(env.rng.src, env.rng.origin), old(env.rng.pos));
      env.player == r.hand && env.rng.pos == r.pos && done == r.busted && (done ==> reward == -1)
  {
    ghost var cards := Cards(env.rng.src, env.rng.origin);
    ghost var run := HitRun(playerAct, env.player, env.dealer, cards, env.rng.pos);
    var obs := obs0;
    reward, done := 0, false;
    var action := playerAct(obs);
    while action == Hit
      invariant env.Dealt() && env.dealer == old(env.dealer) && env.state == old(env.state)
      invariant env.rng.origin == old(env.rng.origin)
      invariant obs == ObsOf(env.player, env.dealer) && action == playerAct(obs) && !done
      invariant !IsBust(env.player)
      invariant HitRun(playerAct, env.player, env.dealer, cards, env.rng.pos) == run
      decreases 22 - |env.player|
    {
      obs, reward, done := env.Step(action);
      if done {
        return;
      }
      action := playerAct(obs);
    }
  }

  /** One round at the table: reset with the round's seed, let the player
      take its turn, and stand unless the player went bust. The table is
      left dealt: still in phase 0 with the player's hand bust after a
      bust, past the player's phase with a hand that is not bust otherwise. */
  method PlayRound(env: BlackJack, playerAct: Obs -> Action, roundSeed: int) returns (e: RoundEnd)
    modifies env, env.rng
    ensures (e, env.rng.Current()) ==
      Round(env.dealerPolicy.actDealer, playerAct, env.rng.src, Reseed(old(env.rng.Current()), Some(roundSeed)))
    ensures env.Dealt() && env.state <= 2
    ensures e.bust <==> env.state == 0
    ensures e.bust <==> IsBust(env.player)
  {
    ghost var g := Reseed(env.rng.Current(), Some(roundSeed));
    ghost var round := Round(env.dealerPolicy.actDealer, playerAct, env.rng.src, g);
    var obs := env.Reset(Some(roundSeed));
    ghost var s, d := Cards(env.rng.src, g.origin), env.dealer;
    ghost var pr := HitRun(playerAct, env.player, d, s, g.pos + 4);
    var reward, done := PlayerTurn(env, playerAct, obs);
    if done {
      assert round == (RoundEnd(true, -1), Gen(g.origin, pr.pos));
      return RoundEnd(true, reward);
    }
    ghost var dr := HitRun(env.dealerPolicy.actDealer, d, pr.hand, s, pr.pos);
    assert round == (RoundEnd(false, if dr.busted then 1 else Settle(pr.hand, dr.hand)), Gen(g.origin, dr.pos));
    obs, reward, done := env.Step(Stand);
    return RoundEnd(false, reward);
  }

  /** Runs the battle: a table with agent1 dealing for rounds 0 ..
      numRound / 2 - 1, then a table with agent2 dealing for the rest, both
      drawing from one shared generator that starts in state g. */
  method Battle(agent1: Policy, agent2: Policy, numRound: nat := 1000, seed: int := 0,
                src: Source, g: Gen) returns (r: Option<Report>)
    ensures r == BattleSpec(agent1, agent2, numRound, seed, src, g)
  {
    var (half, rest) := Split(numRound);
    var rng := new Rng(src, g);
    var env := new BlackJack(agent1, rng);
    var home := TableRounds(env, Home, agent2, seed, half);
    env := new BlackJack(agent2, rng);
    var away := TableRounds(env, Away, agent1, seed + half, rest);
    if numRound == 0 {
      return None;
    }
    var tally := Tally(home.winHc, home.drawHc, away.winVc, away.drawVc);
    return Some(Report(WinRate(tally, numRound), tally));
  }

  /** Round n at a table: play it with seed + n from where the first n
      rounds left the generator, and record it on top of their tally. */
  method NextRound(env: BlackJack, seat: Seat, player: Policy, seed: int, n: nat,
                   ghost g: Gen, t: Tally) returns (u: Tally)
    requires (t, env.rng.Current()) == Rounds(seat, Table(env.dealerPolicy, player, env.rng.src), seed, n, g)
    modifies env, env.rng
    ensures (u, env.rng.Current()) == Rounds(seat, Table(env.dealerPolicy, player, env.rng.src), seed, n + 1, g)
  {
    var e := PlayRound(env, player.actPlayer, seed + n);
    RoundsNext(seat, env.dealerPolicy, player, env.rng.src, seed, n, g, e, env.rng.Current());
    u := Record(seat, t, e);
  }

  /** One of the battle's two loops: n rounds at the table of `env`, round
      c reset with seed + c, the first agent sitting in `seat` there. The
      tally holds its wins and draws in that seat. */
  method TableRounds(env: BlackJack, seat: Seat, player: Policy, seed: int, n: nat) returns (t: Tally)
    modifies env, env.rng
    ensures (t, env.rng.Current()) ==
      Rounds(seat, Table(env.dealerPolicy, player, env.rng.src), seed, n, old(env.rng.Current()))
  {
    ghost var g := env.rng.Current();
    t := NoGames;
    for c := 0 to n
      invariant (t, env.rng.Current()) == Rounds(seat, Table(env.dealerPolicy, player, env.rng.src), seed, c, g)
    {
      t := NextRound(env, seat, player, seed, c, g, t);
    }
  }

  /** The battle score: two points a win, one a draw, less one per round. */
  function BattleScore(t: Tally, numRound: int): int
  {
    (2 * t.winHc + t.drawHc) + (2 * t.winVc + t.drawVc) - numRound
  }

  /** Rounds the first agent lost while dealing. */
  function HomeLosses(t: Tally, numRound: nat): int
  {
    numRound / 2 - t.winHc - t.drawHc
  }

  /** Rounds the first agent lost while playing, as the score log computes
      them: from half the rounds, although the playing seat gets the odd one. */
  function AwayLossesAsLogged(t: Tally, numRound: nat): int
  {
    numRound / 2 - t.winVc - t.drawVc
  }

  /** Rounds the first agent lost while playing, out of the rounds that seat
      actually plays. */
  function AwayLosses(t: Tally, numRound: nat): int
  {
    (numRound - numRound / 2) - t.winVc - t.drawVc
  }

  /** For every battle the loss counts are never negative, they account for
      every round, and the score is wins less losses, between -numRound and
      numRound; BattleSpec is the case of the two agents' tables. */
  lemma ScoreIsWinsLessLosses(home: Gen -> (RoundEnd, Gen), away: Gen -> (RoundEnd, Gen),
                              numRound: nat, seed: int, g: Gen)
    requires numRound > 0
    ensures var t := Schedule(home, away, numRound, seed, g).value.tally;
      HomeLosses(t, numRound) >= 0 && AwayLosses(t, numRound) >= 0 &&
      Wins(t) + Draws(t) + HomeLosses(t, numRound) + AwayLosses(t, numRound) == numRound &&
      BattleScore(t, numRound) == Wins(t) - (HomeLosses(t, numRound) + AwayLosses(t, numRound)) &&
      -(numRound as int) <= BattleScore(t, numRound) <= numRound
  {
    ScheduleBounds(home, away, numRound, seed, g);
  }

  /** A generator that, reseeded with 1, deals only tens. */
  ghost predicate TensFromSeedOne(src: Source)
  {
    forall i :: Cards(src, SeededWith(1))(i) == 10
  }

  /** The round of the example below: both hands are two tens, both sides
      stand on 20, and the round is a draw that used four cards. */
  lemma TensRoundIsDraw(src: Source)
    requires TensFromSeedOne(src)
    ensures Round(SimplePolicy().actDealer, SimplePolicy().actPlayer, src, Gen(SeededWith(1), 0))
         == (RoundEnd(false, 0), Gen(SeededWith(1), 4))
  {
    var tens := Cards(src, SeededWith(1));
    var hand: seq<Card> := [10, 10];
    assert hand[..1] == [10] && hand[..1][..0] == [];
    assert Sum(hand) == 20;
    assert ObsOf(hand, hand) == Obs(20, 10, false);
    assert tens(0) == tens(1) == tens(2) == tens(3) == 10;
    assert Deal(src, Gen(SeededWith(1), 0)) == (hand, hand);
    assert HitRun(SimplePolicy().actPlayer, hand, hand, tens, 4) == Run(hand, 4, false);
    assert HitRun(SimplePolicy().actDealer, hand, hand, tens, 4) == Run(hand, 4, false);
  }

  /** A one-round battle is that round alone, played at the away table with
      the battle's seed. */
  lemma OneRoundSchedule(home: Gen -> (RoundEnd, Gen), away: Gen -> (RoundEnd, Gen),
                         seed: int, g: Gen, e: RoundEnd, after: Gen)
    requires away(Reseed(g, Some(seed))) == (e, after)
    ensures var t := Record(Away, NoGames, e);
      Schedule(home, away, 1, seed, g) == Some(Report(WinRate(t, 1), t))
  {
    assert Split(1) == (0, 1);
    assert Rounds(Home, home, seed, 0, g) == (NoGames, g);
    assert Rounds(Away, away, seed, 0, g) == (NoGames, g);
    assert Rounds(Away, away, seed + 0, 1, g) == (Record(Away, NoGames, e), after);
    var t := Record(Away, NoGames, e);
    assert t == Tally(0, 0, t.winVc, t.drawVc);
    assert Schedule(home, away, 1, seed, g).value.tally == t;
  }

  /** A one-round battle between two default basic policies, on a generator
      that deals only tens once reseeded with 1, is a draw with the first
      agent playing, whatever state the generator started in. */
  lemma TensBattleIsDraw(src: Source, g: Gen)
    requires TensFromSeedOne(src)
    ensures BattleSpec(SimplePolicy(), SimplePolicy(), 1, 1, src, g)
         == Some(Report(Share(0, 1), Tally(0, 0, 0, 1)))
  {
    var table := Table(SimplePolicy(), SimplePolicy(), src);
    TensRoundIsDraw(src);
    assert Reseed(g, Some(1)) == Gen(SeededWith(1), 0);
    OneRoundSchedule(table, table, 1, g, RoundEnd(false, 0), Gen(SeededWith(1), 4));
    assert Record(Away, NoGames, RoundEnd(false, 0)) == Tally(0, 0, 0, 1);
  }

  /** The score log's away-loss count as written goes negative: in every
      one-round battle whose single round the first agent wins or draws as
      the player, it logs -1 losses, where the first agent lost none. */
  lemma AwayLossesAsLoggedGoesNegative(home: Gen -> (RoundEnd, Gen), away: Gen -> (RoundEnd, Gen),
                                       seed: int, g: Gen, e: RoundEnd, after: Gen)
    requires away(Reseed(g, Some(seed))) == (e, after)
    requires !e.bust && 0 <= e.reward <= 1
    ensures var t := Schedule(home, away, 1, seed, g).value.tally;
      AwayLossesAsLogged(t, 1) == -1 && AwayLosses(t, 1) == 0
  {
    OneRoundSchedule(home, away, seed, g, e, after);
    var t := Record(Away, NoGames, e);
    assert t.winVc + t.drawVc == 1;
    assert AwayLossesAsLogged(t, 1) == -1 && AwayLosses(t, 1) == 0;
  }

  /** One such battle: the tens battle above logs -1 away losses. */
  lemma TensBattleLogsNegativeLoss(src: Source, g: Gen)
    requires TensFromSeedOne(src)
    ensures var t := BattleSpec(SimplePolicy(), SimplePolicy(), 1, 1, src, g).value.tally;
      AwayLossesAsLogged(t, 1) == -1 && AwayLosses(t, 1) == 0
  {
    var table := Table(SimplePolicy(), SimplePolicy(), src);
    TensRoundIsDraw(src);
    assert Reseed(g, Some(1)) == Gen(SeededWith(1), 0);
    AwayLossesAsLoggedGoesNegative(table, table, 1, g, RoundEnd(false, 0), Gen(SeededWith(1), 4));
  }
}
