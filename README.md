# Blackjack battle environment, modelled in Dafny

This project models the core of a course Blackjack arena in Dafny and proves
properties about the model. The arena has three parts:

- **A hand evaluator.** It computes the raw and soft totals, bust, score and the
  two-card natural.
- **A round environment.** `BlackJack` deals two cards each on `reset`. Then
  `step(1)` draws a player card, and `step(0)` runs the dealer's
  draw-while-hitting loop and settles the round.
- **A harness.** `battle` plays `num_round` rounds between two agents. The
  first agent deals the first `num_round // 2` rounds and plays the rest. The
  harness tallies the first agent's wins and draws in each seat and returns
  its win rate.

Two threshold policies are modelled as instances of the policy interface: the
environment's `SimplePolicy` and a group's `TestPolicy`.

The modules follow the program:

- `Hand` holds the evaluator (`hand.dfy`).
- `Policies` and `GroupTest` hold the decision interface and the two threshold
  policies (`policies.dfy`, `group_test.dfy`).
- `Env` holds the environment (`env.dfy`):
  - a class `Rng` stands for Python's process-wide `random` state, shared by
    every table;
  - a class `BlackJack` has the fields `state`, `player` and `dealer`, which
    its methods update in place.
- `Battle` holds the harness (`battle.dfy`):
  - the methods `Battle`, `TableRounds`, `NextRound`, `PlayRound` and
    `PlayerTurn` mirror its loops;
  - pure functions `Round`, `Rounds`, `Schedule` and `BattleSpec` specify what
    those loops compute, and lemmas state the properties.

The generator's output is a parameter, a `Source`. `initial` is the stream of
card values before any reseed, and `streamOf(n)` is the stream after
`random.seed(n)`. A generator state `Gen` is where the current stream came
from and how many cards it has handed out. As in the code, `reset(seed)`
reseeds only when the seed is truthy: `reset(0)` and `reset(None)` continue
the current stream.

Two details where the model follows the code's behaviour rather than its
comments or a natural reading:

- **The odd round.** The docstring of `battle` (`test_agent.py:24-25`) says
  the first agent deals half of the rounds, and the comment on the second
  loop (`test_agent.py:84`) says that loop repeats `num_round // 2` rounds.
  The loop itself runs `range(num_round // 2, num_round)`, so for an odd
  `num_round` it plays `num_round - num_round // 2` rounds, one more than
  the comment says. The model follows the code: the first agent deals
  `num_round // 2` rounds and plays the rest (`Split`, `BattleSpec`).
- **Reseeding.** Every round calls `reset(seed + c)`, but `reset` reseeds
  only under `if seed:` (`StudentCode/BlackJackBattleEnv.py:129`). So a
  round whose `seed + c` is 0 does not reseed. With `battle`'s default seed 0
  that is the first round, which continues the generator's current stream.
  The model does the same (`Reseeds`, `Reseed`).

## Model

| member | source | states |
|---|---|---|
| Hand.DeckHoldsCards | StudentCode/BlackJackBattleEnv.py:107-108 | Every card value 1..10 is in the deck, so a stream of card values is a stream of draws from it. |
| Hand.Sum | StudentCode/BlackJackBattleEnv.py:66-71 | The raw total of a hand lies between its number of cards and ten times that number. |
| Hand.DrawRaisesSum | StudentCode/BlackJackBattleEnv.py:146-150 | Appending a card raises the raw total by the card's value, so by at least one, and a bust hand stays bust. |
| Hand.SoftAceNeverBusts | StudentCode/BlackJackBattleEnv.py:66-71 | There is a usable ace exactly when the hand holds an ace and its raw total is at most 11. Then the soft total is the raw total plus 10, at most 21, and not bust; otherwise it is the raw total. |
| Hand.UsableAce | StudentCode/BlackJackBattleEnv.py:66-67 | No contract of its own. It holds when the hand has an ace and counting it as 11 keeps the total at most 21; `SoftAceNeverBusts` states its properties. |
| Hand.SumHand | StudentCode/BlackJackBattleEnv.py:70-71 | The soft total is the raw total plus at most 10, and it is over 21 exactly when the raw total is. |
| Hand.IsBust | StudentCode/BlackJackBattleEnv.py:74-75 | A hand is bust exactly when its raw total is over 21. |
| Hand.Score | StudentCode/BlackJackBattleEnv.py:77-86 | A score lies in [0, 21], and a non-empty hand scores 0 exactly when it is bust. |
| Hand.SortedSortsHand | StudentCode/BlackJackBattleEnv.py:90 | `Sorted` returns the hand in ascending order, each card as often as the hand holds it. |
| Hand.IsNatural | StudentCode/BlackJackBattleEnv.py:89-90 | A natural holds one ace and one ten-valued card and nothing else. |
| Hand.NaturalIsAceAndTen | StudentCode/BlackJackBattleEnv.py:89-90 | A hand is a natural exactly when it is [1, 10] or [10, 1]. |
| Hand.NaturalIsTwentyOne | StudentCode/BlackJackBattleEnv.py:89-90 | A natural has a usable ace, totals 21, is not bust and scores 21. |
| Policies.SimplePolicy | StudentCode/BlackJackBattleEnv.py:44-59 | Both seats decide alike, and each hits exactly when the observed total is below the threshold. |
| Policies.DefaultDealerStandsOnSeventeen | StudentCode/BlackJackBattleEnv.py:45 | With the default threshold 17 the dealer stands on a hard 17 and hits on 16. |
| GroupTest.TestPolicy | StudentCode/group_test/group_test.py:5-6 | The player rule hits exactly when the observed total is below the threshold. |
| GroupTest.TestPolicySeatsAgree | StudentCode/group_test/group_test.py:1-9 | Both seats decide alike on every observation, and the same as the environment's basic policy with the same threshold. |
| GroupTest.TestPolicyMonotone | StudentCode/group_test/group_test.py:6 | Once the policy stands at a total, it stands at every higher total in both seats. |
| Env.ReseedForgets | StudentCode/BlackJackBattleEnv.py:129-130 | Only a non-zero seed reseeds. After a reseed the generator state is the same whatever came before; a missing or zero seed leaves it alone. |
| Env.Deal | StudentCode/BlackJackBattleEnv.py:133-134 | The deal gives each side two cards, and neither opening hand is bust. |
| Env.ObsOf | StudentCode/BlackJackBattleEnv.py:199-209 | An observation shows the opponent's first card and the holder's usable-ace flag. Its total is the raw total, plus 10 with a usable ace (then at most 21), and it is over 21 exactly when the hand is bust. |
| Env.Cmp | StudentCode/BlackJackBattleEnv.py:62-63 | The comparison is 1, 0 or -1 exactly as a is greater than, equal to or less than b. |
| Env.Settle | StudentCode/BlackJackBattleEnv.py:181-194 | The settlement reward is the comparison of the player's score with the dealer's. |
| Env.HitRun | StudentCode/BlackJackBattleEnv.py:164-176 | The draw loop only adds cards. A run marked busted ends on a bust hand, and a run that drew and is not marked busted ends on a hand that is not bust. |
| Env.HitRunDraws | StudentCode/BlackJackBattleEnv.py:164-176 | The draw loop appends exactly the next cards of the stream and advances the generator by that many. From a hand that is not bust it draws at most 22 minus the raw total, so it ends for every policy. |
| Env.HitRunAsks | StudentCode/BlackJackBattleEnv.py:164-176 | The loop drew each card after the policy said hit on the hand before it. A run that did not bust ends on a hand the policy stands on. |
| Env.HitRunBusts | StudentCode/BlackJackBattleEnv.py:171-174 | The loop stops at the first bust: it is marked busted exactly when it drew and its last hand is bust, and no earlier hand is bust. |
| Env.Rng.Seed | StudentCode/BlackJackBattleEnv.py:129-130 | Reseeding with n starts stream n from its first card. |
| Env.Rng.Choice | StudentCode/BlackJackBattleEnv.py:196-197 | A draw returns the current stream's next card and advances the position by one. |
| Env.BlackJack.constructor | StudentCode/BlackJackBattleEnv.py:93-118 | A new table holds its dealer policy and the shared generator, in phase 0 with empty hands. |
| Env.BlackJack.GetObs | StudentCode/BlackJackBattleEnv.py:199-209 | The player's observation shows the dealer's first card, the player's ace flag and a total over 21 exactly when the player is bust. The dealer's observation is the same with the sides swapped. |
| Env.BlackJack.GetCard | StudentCode/BlackJackBattleEnv.py:196-197 | Takes the next card of the shared generator. |
| Env.BlackJack.Reset | StudentCode/BlackJackBattleEnv.py:120-140 | Reseeds only for a non-zero seed, deals the next four cards two by two, and sets phase 0. It returns the player's observation. |
| Env.BlackJack.Step | StudentCode/BlackJackBattleEnv.py:142-194 | A hit appends one card to the player and ends with -1 exactly on a bust. A stand runs the dealer's loop with the player's hand unchanged: +1 on a dealer bust (phase advanced once), otherwise the settlement (phase advanced twice). |
| Env.BlackJack.PlayerHits | StudentCode/BlackJackBattleEnv.py:144-154 | One card for the player, dealer and phase unchanged; done with -1 exactly when bust, else 0. |
| Env.BlackJack.PlayerStands | StudentCode/BlackJackBattleEnv.py:156-194 | The dealer's hand becomes the draw loop's result. The reward is +1 on its bust, else the settlement, and the round is done. |
| Env.BlackJack.DealerDraws | StudentCode/BlackJackBattleEnv.py:162-176 | The dealer's while loop computes exactly the draw loop's hand, position and bust flag. |
| Env.BlackJack.DealerHits | StudentCode/BlackJackBattleEnv.py:166-174 | One card for the dealer raises its raw total and reports whether it is now bust. |
| Battle.Round | test_agent.py:56-79 | No contract of its own; the specification of one round. The round deals, runs the player's draw loop, and runs the dealer's unless the player busted; -1 on a bust, else the dealer's bust (+1) or the settlement. `RoundEnds` and `PlayRound` state its properties. |
| Battle.RoundEnds | test_agent.py:56-79 | A round keeps the stream it was reset to and uses at least the four dealt cards. A bust player gets -1, and every reward is -1, 0 or 1. |
| Battle.SameSeedSameRound | test_agent.py:57 | A round reset with a non-zero seed is the same whatever the generator did before. |
| Battle.Record | test_agent.py:65-110 | No contract of its own; the counter updates of both loops. `RecordAddsAtMostOne` states its properties. |
| Battle.RecordAddsAtMostOne | test_agent.py:53-110 | Each round raises at most one counter by one, and only in the first agent's seat at that table. A bust player is a win for the dealing first agent and counts for nothing when the first agent plays. |
| Battle.Rounds | test_agent.py:53-110 | No contract of its own; the specification of one loop of rounds. Round k is reset with seed + k from where the earlier rounds left the generator, and recorded on their tally. `HomeRoundsBounds`, `AwayRoundsBounds` and `TableRounds` state its properties. |
| Battle.HomeRoundsBounds | test_agent.py:53-79 | n rounds with the first agent dealing count at most n wins and draws, and none as player. |
| Battle.AwayRoundsBounds | test_agent.py:84-110 | n rounds with the first agent playing count at most n wins and draws, and none as dealer. |
| Battle.WinRate | test_agent.py:115 | No contract of its own; the first agent's wins over all rounds, as an exact fraction. `WinRateMeaning` and `ScheduleWinRate` state its properties. |
| Battle.WinRateMeaning | test_agent.py:115 | The win rate times the rounds is the number of wins, so it lies in [0, 1] when wins do not exceed rounds. |
| Battle.Split | test_agent.py:45 | The dealing and playing halves add up to all rounds, and the playing half is equal or one larger. |
| Battle.Schedule | test_agent.py:44-116 | No contract of its own; the whole battle over two tables. `ScheduleBounds`, `ScheduleWinRate` and `ScoreIsWinsLessLosses` state its properties. |
| Battle.BattleSpec | test_agent.py:11-116 | No contract of its own; `Schedule` at the two agents' tables, the specification the `Battle` method meets. |
| Battle.ScheduleBounds | test_agent.py:44-116 | There is a result exactly when there is at least one round. Wins and draws as dealer are at most `num_round // 2`, and as player at most `num_round - num_round // 2`. |
| Battle.ScheduleWinRate | test_agent.py:115 | The win rate is a share of all the rounds and lies in [0, 1]. |
| Battle.PlayerTurn | test_agent.py:61-72 | The player's hit loop computes the draw loop's hand and position, and leaves the dealer's hand and the phase alone. It reports done exactly when the draw loop busts, and then with reward -1. |
| Battle.PlayRound | test_agent.py:56-79 | A round played on the table is the specified `Round`: reset with its seed, the player's loop, and one stand only if the player did not bust. The table is left dealt: in phase 0 with a bust player after a bust, past phase 0 with a player that is not bust otherwise. |
| Battle.NextRound | test_agent.py:53-79 | Playing and recording one more round extends the first n rounds' result to n + 1. |
| Battle.TableRounds | test_agent.py:53-110 | Each loop of rounds leaves exactly the tally and generator state of `Rounds`. |
| Battle.Battle | test_agent.py:11-116 | The harness returns `BattleSpec`. The first agent deals `num_round // 2` rounds seeded from `seed`, then plays the rest seeded from `seed + num_round // 2`, on one shared generator; there is no result for zero rounds. |
| Battle.BattleScore | test_agent.py:155 | No contract of its own; the score `2*wins + draws - num_round`. `ScoreIsWinsLessLosses` states its properties. |
| Battle.HomeLosses | test_agent.py:166 | No contract of its own; the logged count of rounds lost while dealing. |
| Battle.AwayLossesAsLogged | test_agent.py:167 | No contract of its own; the logged count of rounds lost while playing, as written. |
| Battle.AwayLosses | test_agent.py:84 | No contract of its own; the count of rounds lost while playing, out of the rounds that loop plays. |
| Battle.ScoreIsWinsLessLosses | test_agent.py:155 | The loss counts are never negative, and wins, draws and losses account for every round. The score `2*wins + draws - num_round` is wins less losses, within ±`num_round`. |
| Battle.TensRoundIsDraw | test_agent.py:84-110 | On a stream of tens, two basic policies stand on 20 and 20 and draw, using four cards. |
| Battle.OneRoundSchedule | test_agent.py:84-115 | A one-round battle is that single round played at the second table. |
| Battle.TensBattleIsDraw | test_agent.py:84-115 | A one-round battle of two basic policies on such a stream is a draw with the first agent playing, so its tally is (0, 0, 0, 1). |
| Battle.AwayLossesAsLoggedGoesNegative | test_agent.py:167 | In every one-round battle whose single round the first agent wins or draws as the player, the logged away-loss count is -1, while the true count is 0. |
| Battle.TensBattleLogsNegativeLoss | test_agent.py:167 | The tens battle above is such a battle: its logged away-loss count is -1 and its true count 0. |

## Left out

- Logging: every `logger.write` and `print`, the score log's text, and the interactive `__main__` of the environment are output only.
- The harness's `__main__`: the numpy score matrix, the spreadsheet export, the log files and the time-based seed.
- The random generator's internals: `random.seed` and `random.choice` are a `Source` parameter. `Card` restricts its values to the deck's values 1..10, but the model does not capture the deck's weighting of 10 (four entries of thirteen).
- `BasePolicy`: its `save` and `load` do pickle file I/O, and its `act_*` methods only raise.
- The Monte Carlo trainer and `Group_Policy_4` (floating-point tables, torch, pickle), and the agent registry in `StudentCode/__init__.py`.
- Agent names and the `logger` parameter of `battle` feed only the log.
- Policies are total, pure functions from an observation to an action. A policy that raises, which would abort `battle`, or that draws from the shared `random` generator, which would shift every later card, is not modelled. No policy in the modelled files does either.
- Battle.WinRateMeaning: the win rate is the exact fraction wins / num_round (`Share`), not Python's floating-point quotient. With zero rounds the division fails; the model returns no result.
- Env.Cmp: the code's `cmp` returns a float (1.0, 0.0 or -1.0); the model returns the integer. `step` does not call it.
- Battle.Battle: `num_round` is a natural number. A negative count plays no rounds and divides by it; that is not modelled.
- Env.BlackJack.Step: the environment's `assert action in self.action_space` is enforced by the `Action` type (0 or 1), not checked at run time. Calling `step` before any `reset` fails on an empty hand, so `Step` requires both hands dealt.
- The `info` dictionary that `step` returns is always empty and is not modelled.

## Findings

| source | as written | input that shows it | evidently intended | confidence | as-written member | corrected member |
|---|---|---|---|---|---|---|
| test_agent.py:167 | The away-loss count is `num_round//2 - win_vc - draw_vc`. | `num_round = 1`, `seed = 1`, both agents the basic policy, and a generator that deals only tens after seeding with 1. The single round is played with the first agent as player and is a draw, and the logged loss count is -1. Any one-round battle the first agent wins or draws as player does the same. | The count out of the rounds the first agent actually plays as player: `num_round - num_round//2 - win_vc - draw_vc`, which is never negative. | not executed | Battle.TensBattleLogsNegativeLoss | Battle.ScoreIsWinsLessLosses |
