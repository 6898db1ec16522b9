# Pillar game: a Dafny model of `game_model.py`

This project models the core of the pillar game. Two teams, RED and BLUE,
each field `n` gamer agents on a `width x height` grid of pillars. Every
pillar starts at height 0 except the centre pillar, which starts at
`max_pillar_height`. A team wins when one of its agents stands on the
centre pillar.

Each team shares a deck, a hand and a discard pile of MOVE and BUILD_PILLAR
cards. In its turn an agent works through these steps:

1. It refreshes its cached height and initiative.
2. It draws a new hand when the shared hand is empty.
3. Its team's policy plays a card:
   - RED uses the random policy.
   - BLUE uses the reactive policy.
4. The card goes to the discard pile.
5. The agent checks for a win.

A card is spent in one of two ways. It can be used for a move to a free
neighbour within one level. It can be used for a build on a free neighbour
below `max_pillar_height - 1`. When it cannot be used, the agent "passes"
instead: it moves to the front of its team's initiative queue. Every round,
`update_initiatives` rebuilds the acting order by interleaving the two
teams' queues.

The model is split into modules:

- `Util` (`util.dfy`): the numeric helpers `clamp` and `diff`, plus the
  list operations the game performs:
  - `remove`;
  - `index`;
  - `remove` followed by `insert(0, _)`;
  - repeated `pop()`.
- `Cards` (`cards.dfy`): the card and message types, and the `Team` class.
  Deck, hand, discard pile, message pile and initiative queue are fields
  that the team's methods update in place.
- `Board` (`board.dfy`): cells, the column-major board of pillar heights,
  raising one pillar, and the 4-neighbourhood that Mesa's `get_neighborhood`
  returns.
- `Initiative` (`initiative.dfy`): agent identities, the teams' membership,
  and the interleaved acting order of a round.
- `Policy` (`policy.dfy`): the decision cascade of the reactive policy, as a
  pure function of what the agent sees.
- `Game` (`game.dfy`): the `GameModel` class. It holds the board, the
  agents' cells and cached attributes, the schedule and `running`.
  - It has methods for `move_action`, `build_pillar_action`, both policies,
    an agent's `step`, `update_initiatives` and the model's `step`.
  - Its constructor performs the initialisation methods.

Agents are numbers `0 .. 2n-1`; agent `i` plays for team `i % 2`, as
`init_gamerAgents` assigns them. The attributes the source keeps on each
`GamerAgent` object are kept in one sequence per attribute, indexed by
agent: its cell, its cached height and its cached initiative.

Randomness is modelled as nondeterministic choice. Wherever the source picks
with `random.choice` or `random.shuffle`, the model allows every possible
outcome, and its contracts hold for all of them.

## Model

| member | source | states |
|---|---|---|
| Util.Clamp | game_model.py:10-11 | the result never exceeds `maximum`; it is at least `minimum` when the bounds are ordered; a value inside the bounds is returned unchanged, one above them gives `maximum`, one below them gives `minimum`, and crossed bounds always give `maximum` |
| Util.ClampIdempotent | game_model.py:10-11 | clamping an already clamped value changes nothing |
| Util.Diff | game_model.py:13-14 | the result is a natural number equal to `a - b` or `b - a`: the absolute difference |
| Util.IndexOf | game_model.py:180-182 | `list.index`: a position holding the element, with no earlier occurrence of it |
| Util.RemoveFirst | game_model.py:76-78 | `list.remove`: the list is one shorter and has lost exactly one copy of the element; the elements before the first occurrence stay in place and those after it shift left by one |
| Util.MoveToFront | game_model.py:88-90 | `remove` then `insert(0, x)`: `x` comes first, the list is a permutation of the old one, the elements before `x`'s old place shift right by one, and those after it stay put |
| Util.MoveToFrontIdempotent | game_model.py:88-90 | passing twice in a row leaves the queue as a single pass did |
| Util.ReverseInvolutive | game_model.py:59-71 | reversing the pop order twice gives back the original order |
| Cards.SeedDeck | game_model.py:414-417 | the seeded deck has `2n` cards, of which `n` are MOVE and `n` are BUILD_PILLAR |
| Cards.WithoutSender | game_model.py:80-86 | a message is kept exactly when it was on the pile and was not sent by the agent; the pile never grows |
| Cards.Team.constructor | game_model.py:49-57 | a new team has the given colour, hand size and policy, and all its piles and its queue are empty |
| Cards.Team.ShuffleDeckFromDiscard | game_model.py:59-63 | the discard pile is emptied into the deck; the deck ends as a permutation of the old deck plus the old discard pile; hand, messages and queue are unchanged |
| Cards.Team.DrawNewHand | game_model.py:65-71 | the team still owns the same cards, and the hand is filled up to `hand_size`, keeping its old cards in front. If the deck was long enough, the new cards are the deck's tail in pop order and the discard pile is untouched. Otherwise the whole deck was drawn first, in pop order, and the discard pile was reshuffled into the deck |
| Cards.Team.DrawStep | game_model.py:67-71 | one iteration of the draw loop keeps the partial-draw invariant, keeps the cards owned, and decreases the loop measure |
| Cards.Team.DrawCard | game_model.py:71 | `hand.append(deck.pop())`: the deck's last card moves to the end of the hand; the team still owns the same cards |
| Cards.Team.PopKeepsDrawOrder | game_model.py:71 | after a pop, the cards drawn so far are still the reversed tail of the deck the draw started from |
| Cards.Team.AddNewCardToDeck | game_model.py:73-74 | the card is appended to the deck and nothing else changes |
| Cards.Team.DiscardCard | game_model.py:76-78 | the card is always appended to the discard pile. The first copy leaves the hand when the hand held one, and the team then owns the same cards. Otherwise the hand is unchanged and `ok` is false, the case in which `remove` raises |
| Cards.Team.ClearAgentMessagesFromPile | game_model.py:80-86 | the pile loses exactly the agent's messages and keeps the others in order; the cards and the queue are unchanged |
| Cards.Team.MoveAgentToFirstInitiative | game_model.py:88-90 | a queued agent moves to the front with the others' order kept; an absent agent is reported by `ok` being false, the case in which `remove` raises, and the queue is left alone |
| Board.Raise | game_model.py:217 | building raises exactly the chosen pillar by one; every other pillar and the board's shape are unchanged |
| Board.Neighbours | game_model.py:248 | a cell is listed exactly when it is on the board and shares an edge with the agent's cell; there are no repeats and at most four cells |
| Board.NeighbourhoodSymmetric | game_model.py:248 | an agent's own cell is never its neighbour, and neighbourhood is symmetric |
| Board.NoRepeatsPairwise | game_model.py:456-463 | the agents' cells have no repeats exactly when any two different agents stand on different cells, which is what placing each agent on an empty cell guarantees |
| Board.NoRepeatsMove | game_model.py:195-197 | moving one agent to a cell no agent occupies keeps every agent on a cell of its own |
| Initiative.TeamMembership | game_model.py:448-454 | agent `a` is queued in team `a % 2` and not in the other team |
| Initiative.TeamsPartitionAgents | game_model.py:448-455 | together the two teams' queues hold each scheduled agent exactly once |
| Initiative.AllAgentsOnce | game_model.py:448-455 | the initial schedule holds each agent of the game exactly once and no other agent |
| Initiative.ActsOnce | game_model.py:484 | in a round's order each slot holds an agent of the game that no earlier slot holds, so no agent acts twice in one round |
| Initiative.Interleave | game_model.py:475-478 | the round's order has one slot for each entry of the two queues: twice the length of one queue |
| Initiative.InterleaveAt | game_model.py:475-478 | slot `2i` of the round holds position `i` of RED's queue, and slot `2i+1` holds position `i` of BLUE's queue |
| Initiative.InterleaveMultiset | game_model.py:475-478 | the round's order is a permutation of the two queues together |
| Initiative.InterleaveSchedulesEveryAgentOnce | game_model.py:465-478 | when the queues hold their teams' agents, they are equally long and the round holds every agent exactly once |
| Policy.ChooseTier | game_model.py:323-347 | the chosen tier applies to the situation, and no applicable tier ranks before it (the first matching branch wins); no card is chosen exactly when the hand has neither MOVE nor BUILD_PILLAR |
| Policy.ChosenCardInHand | game_model.py:293-349 | the reactive policy returns a card exactly when the hand is non-empty, and that card is in the hand |
| Game.OthersStayCached | game_model.py:176-178 | a move by one agent, or a build on a cell nobody stands on, leaves every other agent's cached height current |
| Game.RaiseKeepsCached | game_model.py:215-218 | raising a pillar nobody stands on leaves every cached height current |
| Game.OnlyMoverReaches | game_model.py:235-238 | when nobody stood on a cell before an agent's turn, the cell is occupied after it exactly when that agent now stands on it |
| Game.InitTeams | game_model.py:409-422 | two distinct new teams: RED with the random policy and BLUE with the reactive policy. Each holds `n` cards in its hand and `n` in its deck, which together are the seeded deck, with nothing discarded, posted or queued |
| Game.DealInitialHand | game_model.py:413-421 | after seeding, shuffling and dealing, the hand and the deck each hold `hand_size` cards, and the team owns exactly the seeded deck |
| Game.PopIntoHand | game_model.py:420-421 | `hand_size` pops move the deck's last `hand_size` cards to the hand in pop order, leaving the rest of the deck, and the team owns the same cards |
| Game.RefillTeam | game_model.py:355 | an empty hand is drawn full, from the deck's end in pop order and, when the deck runs short, from the reshuffled discard pile; a non-empty hand leaves every pile alone; the team owns the same cards, and its messages and queue are unchanged |
| Game.SeedTeamDeck | game_model.py:414-417 | the deck becomes `hand_size` pairs of MOVE, BUILD_PILLAR |
| Game.QueueAgents | game_model.py:448-455 | each team's queue holds its agents in creation order, and the schedule holds all agents in creation order |
| Game.SetQueues | game_model.py:454 | each team receives its initiative queue; the teams' cards and message piles are unchanged |
| Game.InitPillars | game_model.py:424-443 | every pillar has height 0 except the centre one, which has `max_pillar_height` |
| Game.Reschedule | game_model.py:465-478 | removing both queues empties a schedule of all agents, and the new order is the two queues interleaved, holding every agent once |
| Game.Unschedule | game_model.py:472-474 | the schedule loses exactly the queued agents |
| Game.ScheduleRound | game_model.py:475-478 | the schedule gains the interleaved queues at its end |
| Game.GameModel.constructor | game_model.py:393-407 | the initial game satisfies the invariant and is running. Agents stand on the given start cells, none on the centre, and every cached height is current; every cached initiative starts at 0, as the agents are created. RED plays the random policy and BLUE the reactive one; each holds `n` cards in hand, `n` in the deck, none discarded and no message posted. Queues and schedule are in creation order, and the board is flat apart from the centre pillar |
| Game.GameModel.MoveAction | game_model.py:184-201 | the move is legal exactly when the cell is free and within one level of the agent's cached height; an occupied cell is reported first; a committed legal move changes only the agent's cell |
| Game.GameModel.BuildPillarAction | game_model.py:203-221 | the build is legal exactly when the cell is free and its pillar is below `max_pillar_height - 1`; a committed legal build raises only that pillar; the invariant and current cached heights are kept |
| Game.GameModel.RaisePillar | game_model.py:217 | the committed build raises the pillar at the cell by one, keeps the invariant and current cached heights, and changes nothing else |
| Game.GameModel.CandidatesMembership | game_model.py:248-252 | a cell is collected exactly when it is a neighbour that passes the test |
| Game.GameModel.CollectCells | game_model.py:248-252 | the collecting loop returns, in neighbourhood order, exactly the neighbours that pass the test-mode action (and, for the reactive lists, the height condition) |
| Game.GameModel.UseCardAsInitiativeSetter | game_model.py:223-224 | the agent moves to the front of its own team's queue, and nothing else changes |
| Game.GameModel.MoveToCandidate | game_model.py:324-327 | moving to a cell the test accepted always succeeds, so `raise_errors` never raises |
| Game.GameModel.BuildOnCandidate | game_model.py:328-331 | building on a cell the test accepted always succeeds |
| Game.GameModel.RandomMove | game_model.py:240-258 | with no movable neighbour the agent passes; otherwise it moves to one of them; nothing else changes |
| Game.GameModel.RandomBuildPillar | game_model.py:260-278 | with no buildable neighbour the agent passes; otherwise it raises one of them; nothing else changes |
| Game.GameModel.RandomAI | game_model.py:280-291 | the card is from the hand, and MOVE or BUILD_PILLAR is played as `random_move` or `random_build_pillar` |
| Game.GameModel.ReactiveAI | game_model.py:293-349 | the tier played is the one the cascade chooses on the situation before the turn, the returned card is that tier's card, and the effect carries the tier out |
| Game.GameModel.Survey | game_model.py:301-321 | the four lists are the advantageous, upgradable, lower and same-level neighbours |
| Game.GameModel.Cascade | game_model.py:323-347 | the if/elif branch taken is the tier the cascade chooses, and its effect carries that tier out |
| Game.GameModel.UpdateHeight | game_model.py:176-178 | the agent's cached height becomes the height of its pillar, and nothing else changes |
| Game.GameModel.UpdateInitiative | game_model.py:180-182 | the agent's cached initiative becomes the position of its first occurrence in its team's queue |
| Game.GameModel.CheckWinCondition | game_model.py:235-238 | the agent's height is refreshed and the invariant kept; the game is still running afterwards exactly when it was running before and the agent is not at `max_pillar_height`, which is the same as not standing on the centre pillar; the board, the cards and the queues are unchanged |
| Game.GameModel.CandidatesAreLawful | game_model.py:184-221 | with a current cached height, every move or build the random policies make, and every tier of the reactive policy, obeys the rules on the real pillar heights |
| Game.GameModel.CandidateIsLawful | game_model.py:184-221 | acting on one candidate list obeys the rules |
| Game.GameModel.QueuedInOwnTeam | game_model.py:451-454 | every agent is in its own team's queue, so `index` and `remove` on it never raise |
| Game.GameModel.AgentStep | game_model.py:351-364 | an agent's turn keeps the invariant. An empty hand is first refilled to `n` cards. The policy decides on the real height of the agent's pillar and on that refilled hand, and obeys the rules on the board as it was. A move is played with a MOVE card and a build with a BUILD_PILLAR card, and the played card leaves the refilled hand for the discard pile. The game is still running afterwards exactly when it was running and the agent is not on the centre pillar. The agent's initiative is refreshed to its place in its team's queue as it stood before the turn, and the other agents' initiatives are unchanged. Current cached heights stay current |
| Game.GameModel.RefreshCaches | game_model.py:352-353 | both caches of the agent are refreshed, and nothing else changes |
| Game.GameModel.RefillAndPlay | game_model.py:355-364 | with a current cached height: the hand is refilled when empty, then the policy plays on the refilled hand, the played card goes to the discard pile, and the game keeps running exactly when the agent is not on the centre pillar. The agent's cached height becomes the height of the pillar it now stands on; the other cached heights, every initiative and the schedule are unchanged |
| Game.GameModel.PlayTurn | game_model.py:357-364 | with a non-empty hand: the policy plays, the played card moves from the hand to the discard pile, the deck is unchanged, and the game keeps running exactly when the agent is not on the centre pillar. The agent's cached height becomes the height of the pillar it now stands on; the other cached heights, every initiative and the schedule are unchanged |
| Game.GameModel.RefillHand | game_model.py:355 | after this step the hand is never empty. An empty hand is refilled to `n` cards: from the deck's end in pop order while the deck lasts, and from the reshuffled discard pile only once it runs out; a non-empty hand leaves every pile alone. The team owns the same cards |
| Game.GameModel.PlayAndDiscard | game_model.py:359-363 | the policy plays a card from the hand by its rule, with the matching move, build or pass; the card's first copy leaves the hand for the discard pile; the deck is unchanged and every other agent's cached height stays current |
| Game.GameModel.PlayPolicy | game_model.py:359-361 | the team's policy plays a card from the hand by its own rule: RED's random policy moves to a movable neighbour or builds on a buildable one (passing when there is none), BLUE's reactive policy plays the first tier of its cascade that applies; either obeys the rules |
| Game.GameModel.PlayRandom | game_model.py:360 | the random policy plays a card from the hand: MOVE moves to one movable neighbour and BUILD_PILLAR builds on one buildable neighbour, passing when there is none |
| Game.GameModel.PlayReactive | game_model.py:361 | with a non-empty hand the reactive policy always chooses a card from it: the card of the first tier of the cascade that applies, with that tier's effect |
| Game.GameModel.ReactiveChoosesFromHand | game_model.py:293-349 | the cascade returns a card, and one the hand holds, whenever the hand is non-empty |
| Game.GameModel.UpdateInitiatives | game_model.py:465-478 | the schedule becomes RED's and BLUE's queues interleaved position by position, still holding every agent once; the board and agents are unchanged |
| Game.GameModel.Step | game_model.py:480-484 | the schedule becomes the interleaving of the queues as they stood at the start of the round, and the invariant and current cached heights are kept. A stopped game never restarts, and when the round stops the game some agent stands on the centre pillar. When the round starts running with the centre free, the game is still running at its end exactly when the centre is still free; so "running implies nobody on the centre", which the constructor establishes, holds after every round |
| Game.GameModel.PlayRound | game_model.py:484 | the loop over the schedule keeps the invariant and leaves the schedule untouched, current cached heights stay current, and a stopped game never restarts, and the game stops only with an agent on the centre pillar. When the round began running with the centre free, the game is still running at its end exactly when the centre is still free |
| Game.GameModel.Turn | game_model.py:484 | the turn of slot `i` of the round is `AgentStep`'s turn of agent `order[i]`: its hand is refilled when empty, its policy plays on the board as it was, the played card leaves the refilled hand for the discard pile, and the board and queues change as the played effect says. The agent's initiative is refreshed to its place in its team's queue as it stood before the turn, and no other initiative changes. The acting team's messages and the other team are left alone. The turn also keeps the round's invariant: the agent that stopped the game has acted and still stands on the centre pillar |

## Left out

- Only two policies are modelled: the random policy and the reactive policy. `game_model.py` offers no others.
- `main.py` (the server and visualisation set-up) is not part of this model.
- These display helpers are not modelled:
  - `rgb_to_hex`, `PillarAgent.height_to_hex` and the `portrayal_method`s;
  - `print_current_status` and every `print`;
  - the `DataCollector`.
- Mesa's `MultiGrid` and `BaseScheduler` are modelled only by what the game uses from them:
  - the board as a sequence of columns;
  - the schedule as an ordered sequence of agents that a round walks in order.
- The step and time counters of `BaseScheduler` are not modelled.
- `PillarAgent` objects are not modelled as agents; only their heights are kept, as the board.
- `PillarAgent.step` (a print) and `GamerAgent.__lt__`, which nothing calls, are not modelled.
- Game.GameModel.constructor: the random placement loop of `init_gamerAgents` is not modelled. The constructor takes its outcome, `starts`, as a parameter: distinct on-board cells other than the centre.
- The random number generator is not modelled. `random.choice` and `random.shuffle` are modelled as arbitrary choices, so every contract holds for every outcome.
- Game.GameModel.ReactiveAI: the `except Exception` around the cascade is not modelled as a path. The model proves that it never fires, since every cell the cascade commits to has passed the same test just before.
- The content of messages is not modelled beyond clearing the pile; no policy reads or posts messages.
- Cards.Team.DrawNewHand: requires that the team owns at least `hand_size` cards; with fewer cards the source loops forever. In the game every team owns `2n` cards.
- Game.GameModel.Step: the round keeps going after a win, as the source's `step` does. The contract does not record which agents acted or what each one did; it states what every turn keeps and how `running` ends up. Each individual turn is specified by `Game.GameModel.AgentStep`.
- Game.GameModel.PlayRound: the contract does not record which agents acted or what each turn did. It states what the loop keeps and how `running` ends up; each turn of the loop is specified by `Game.GameModel.Turn`.
- Game.GameModel.AgentStep: `discard_card(None)` is unreachable, since the hand is refilled first. The model proves that the policy always returns a card from a non-empty hand instead of modelling that call.
- Agents are identified by their index rather than by Mesa's `unique_id`, which is offset by the number of grid cells.
