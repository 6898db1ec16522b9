/** The game itself (`GameModel` and `GamerAgent` in game_model.py): a grid
    of pillar heights, the gamer agents standing on it, the two teams, the
    acting order, and the rules and policies that change them. Agents are
    numbered 0 .. 2n-1 (n agents per team, agent i on team i % 2); what the
    source keeps in each `GamerAgent` object (its cell, cached height and
    initiative) is kept here in one sequence per attribute, indexed by agent. */
module Game {
  import opened Util
  import opened Cards
  import opened Board
  import opened Initiative
  import opened Policy

  /** The outcome of `move_action` / `build_pillar_action`: `Legal` is the
      source's `True`; the other three are its `False`, or the exception it
      raises instead when `raise_errors` is set. */
  datatype Verdict = Legal | CellOccupied | PillarTooFar | PillarTooTall

  /** The neighbour classes the policies collect (the source's lists
      `available_moves`, `available_cells`, `advantageous_cells`,
      `upgradable_cells`, `lower_cells` and `same_level_cells`). */
  datatype Aim = Movable | Buildable | Advantageous | Upgradable | Lower | SameLevel

  /** What a policy did to the board in one turn. */
  datatype Effect = Moved(cell: Pos) | Built(cell: Pos) | Passed | Idle

  /** A random MOVE (or BUILD) with candidate list `cands`: with no candidate
      the agent passes, otherwise it acts on exactly one of the candidates. */
  ghost predicate ActedOn(e: Effect, cands: seq<Pos>, build: bool)
  {
    if cands == [] then e == Passed
    else if build then e.Built? && e.cell in cands
    else e.Moved? && e.cell in cands
  }

  /** The lists whose cells are built on rather than moved to. */
  predicate IsBuildAim(aim: Aim)
  {
    aim == Buildable || aim == Upgradable || aim == Lower
  }

  /** The candidate list each tier of the reactive cascade draws its cell from. */
  function TierAim(t: Tier): Aim
  {
    match t
    case ClimbUp => Advantageous
    case UpgradeLevel => Upgradable
    case BuildBelow => Lower
    case MoveLateral => SameLevel
    case FallbackMove | NoCard => Movable
    case FallbackBuild => Buildable
  }

  /** A team's queue `queue` after a turn that began with `before`: the
      agent moved to the front when it passed, untouched otherwise. */
  predicate QueueAfter(queue: seq<nat>, before: seq<nat>, agent: nat, passed: bool)
  {
    if passed then agent in before && queue == MoveToFront(before, agent)
    else queue == before
  }

  /** `if len(team.hand) == 0: team.draw_new_hand()` took the team's piles
      from `before` to `after`. A non-empty hand leaves everything alone. An
      empty one is filled to `size` cards and the team keeps its cards: with
      at least `size` cards in the deck they are popped from its end and the
      discard pile is untouched; otherwise the whole deck is drawn, in pop
      order, and only then is the discard pile reshuffled into the deck. */
  predicate Refilled(before: Piles, size: nat, after: Piles)
  {
    if before.hand != [] then after == before
    else
      && |after.hand| == size
      && multiset(after.deck) + multiset(after.hand) + multiset(after.discard)
         == multiset(before.deck) + multiset(before.discard)
      && (|before.deck| >= size ==> after.discard == before.discard && after.deck + Reverse(after.hand) == before.deck)
      && (|before.deck| < size ==> after.discard == [] && after.hand[..|before.deck|] == Reverse(before.deck))
  }

  /** Every agent except `skip` stands on a cell of `board` and has cached
      the height of the pillar there. */
  ghost predicate CachedBut(board: seq<seq<int>>, at: seq<Pos>, cached: seq<int>, skip: int)
  {
    && |cached| == |at|
    && forall i :: 0 <= i < |at| && i != skip ==>
         0 <= at[i].x < |board| && 0 <= at[i].y < |board[at[i].x]| && cached[i] == board[at[i].x][at[i].y]
  }

  /** When every cached height was current, a move of agent `agent`, or a
      build on a cell nobody stands on, leaves every other agent's cached
      height current on the new board `board'` with the new cells `at'`. */
  lemma OthersStayCached(board: seq<seq<int>>, at: seq<Pos>, cached: seq<int>, agent: nat, e: Effect,
                         board': seq<seq<int>>, at': seq<Pos>)
    requires CachedBut(board, at, cached, -1) && agent < |at|
    requires e.Built? ==> e.cell !in at && 0 <= e.cell.x < |board| && 0 <= e.cell.y < |board[e.cell.x]|
    requires e.Built? ==> board' == Raise(board, e.cell)
    requires !e.Built? ==> board' == board
    requires e.Moved? ==> at' == at[agent := e.cell]
    requires !e.Moved? ==> at' == at
    ensures CachedBut(board', at', cached, agent)
  {
    if e.Built? {
      forall i | 0 <= i < |at| && i != agent
        ensures at[i] != e.cell
      {
        assert at[i] in at;
      }
    }
  }

  /** Raising a pillar nobody stands on leaves every cached height current. */
  lemma RaiseKeepsCached(board: seq<seq<int>>, at: seq<Pos>, cached: seq<int>, c: Pos)
    requires CachedBut(board, at, cached, -1)
    requires c !in at && 0 <= c.x < |board| && 0 <= c.y < |board[c.x]|
    ensures CachedBut(Raise(board, c), at, cached, -1)
  {
    forall i | 0 <= i < |at|
      ensures at[i] != c
    {
      assert at[i] in at;
    }
  }

  /** The team's half of the refill in `GamerAgent.step`: draw a new hand
      when the hand is empty. */
  method RefillTeam(team: Team)
    requires |team.Cards()| >= team.handSize
    modifies team
    ensures Refilled(old(team.Holding()), team.handSize, team.Holding())
    ensures team.Cards() == old(team.Cards())
    ensures old(team.hand) == [] ==> |team.hand| == team.handSize
    ensures team.messagePile == old(team.messagePile) && team.initiativeQueue == old(team.initiativeQueue)
  {
    if |team.hand| == 0 {
      team.DrawNewHand();
      assert team.hand[0..] == team.hand;
    }
  }

  /** When effect `e` of agent `agent` took the cells `at` to `at'` and
      nobody stood on `c`, `c` is occupied exactly when that agent now
      stands on it. */
  lemma OnlyMoverReaches(at: seq<Pos>, at': seq<Pos>, agent: nat, e: Effect, c: Pos)
    requires agent < |at| && c !in at
    requires e.Moved? ==> at' == at[agent := e.cell]
    requires !e.Moved? ==> at' == at
    ensures c !in at' <==> at'[agent] != c
  {
    if at'[agent] != c {
      forall j | 0 <= j < |at'|
        ensures at'[j] != c
      {
        if j != agent {
          assert at[j] in at;
        }
      }
    }
  }

  /** `init_teams`: a RED team playing the random policy and a BLUE team
      playing the reactive one, each with `n` MOVE and `n` BUILD_PILLAR cards,
      of which `n` are dealt into the hand. */
  method InitTeams(n: nat) returns (red: Team, blue: Team)
    ensures fresh(red) && fresh(blue) && red != blue
    ensures red.color == Red && red.ai == Random
    ensures blue.color == Blue && blue.ai == Reactive
    ensures Dealt(red, n) && Dealt(blue, n)
  {
    red := new Team(Red, n, Random);
    blue := new Team(Blue, n, Reactive);
    DealInitialHand(red);
    DealInitialHand(blue);
  }

  /** A team just after `init_teams`: `n` cards in the hand, `n` left in the
      deck, together the seeded deck; nothing discarded, posted or queued. */
  ghost predicate Dealt(team: Team, n: nat)
    reads team
  {
    && team.handSize == n && |team.hand| == n && |team.deck| == n
    && team.discard == [] && team.Cards() == multiset(SeedDeck(n))
    && team.messagePile == [] && team.initiativeQueue == []
  }

  /** The per-team body of `init_teams`: seed the deck, shuffle it (any
      permutation), then pop `handSize` cards into the hand. */
  method DealInitialHand(team: Team)
    requires team.deck == [] && team.hand == [] && team.discard == []
    modifies team
    ensures |team.hand| == team.handSize && |team.deck| == team.handSize && team.discard == []
    ensures team.Cards() == multiset(SeedDeck(team.handSize))
    ensures team.messagePile == old(team.messagePile) && team.initiativeQueue == old(team.initiativeQueue)
  {
    SeedTeamDeck(team);
    var shuffled :| multiset(shuffled) == multiset(team.deck);
    team.deck := shuffled;
    PopIntoHand(team);
  }

  /** `for _ in range(hand_size): hand.append(deck.pop())`. */
  method PopIntoHand(team: Team)
    requires team.hand == [] && |team.deck| == 2 * team.handSize
    modifies team
    ensures |team.hand| == team.handSize && |team.deck| == team.handSize
    ensures old(team.deck) == team.deck + Reverse(team.hand)
    ensures team.Cards() == old(team.Cards()) && team.discard == old(team.discard)
    ensures team.messagePile == old(team.messagePile) && team.initiativeQueue == old(team.initiativeQueue)
  {
    for k := 0 to team.handSize
      invariant |team.hand| == k && |team.deck| == 2 * team.handSize - k
      invariant old(team.deck) == team.deck + Reverse(team.hand)
      invariant team.Cards() == old(team.Cards()) && team.discard == old(team.discard)
      invariant team.messagePile == old(team.messagePile) && team.initiativeQueue == old(team.initiativeQueue)
    {
      Team.PopKeepsDrawOrder(team.deck, team.hand, old(team.deck));
      var top := team.DrawCard();
    }
  }

  /** Appends MOVE then BUILD_PILLAR to the deck, `handSize` times. */
  method SeedTeamDeck(team: Team)
    requires team.deck == [] && team.hand == [] && team.discard == []
    modifies team
    ensures team.deck == SeedDeck(team.handSize) && team.hand == [] && team.discard == []
    ensures team.messagePile == old(team.messagePile) && team.initiativeQueue == old(team.initiativeQueue)
  {
    for k := 0 to team.handSize
      invariant team.deck == SeedDeck(k) && team.hand == [] && team.discard == []
      invariant team.messagePile == old(team.messagePile) && team.initiativeQueue == old(team.initiativeQueue)
    {
      team.deck := team.deck + [Move];
      team.deck := team.deck + [BuildPillar];
    }
  }

  /** The queueing half of `init_gamerAgents`: agent `i` is appended to the
      queue of team `i % 2` and added to the schedule. */
  method QueueAgents(n: nat) returns (red: seq<nat>, blue: seq<nat>, order: seq<nat>)
    ensures red == TeamAgents(0, n) && blue == TeamAgents(1, n) && order == AllAgents(n)
  {
    red, blue, order := [], [], [];
    for i := 0 to 2 * n
      invariant red == TeamAgents(0, (i + 1) / 2) && blue == TeamAgents(1, i / 2)
      invariant order == seq(i, k => k)
    {
      if i % 2 == 0 {
        red := red + [i];
      } else {
        blue := blue + [i];
      }
      order := order + [i];
    }
  }

  /** The `initiative_queue.append` half of `init_gamerAgents`: each team
      receives its queue; its cards are left alone. */
  method SetQueues(red: Team, blue: Team, redQueue: seq<nat>, blueQueue: seq<nat>)
    requires red != blue
    modifies red, blue
    ensures red.initiativeQueue == redQueue && blue.initiativeQueue == blueQueue
    ensures red.deck == old(red.deck) && red.hand == old(red.hand) && red.discard == old(red.discard)
    ensures blue.deck == old(blue.deck) && blue.hand == old(blue.hand) && blue.discard == old(blue.discard)
    ensures red.messagePile == old(red.messagePile) && blue.messagePile == old(blue.messagePile)
  {
    red.initiativeQueue := redQueue;
    blue.initiativeQueue := blueQueue;
  }

  /** The body of `update_initiatives` on a schedule holding every agent
      once and two queues holding the two teams' agents: RED's queue, then
      BLUE's, is removed from the schedule, which empties it, and the round's
      order is added back. */
  method Reschedule(schedule: seq<nat>, redQueue: seq<nat>, blueQueue: seq<nat>, n: nat) returns (order: seq<nat>)
    requires multiset(schedule) == multiset(AllAgents(n))
    requires multiset(redQueue) == multiset(TeamAgents(0, n))
    requires multiset(blueQueue) == multiset(TeamAgents(1, n))
    ensures |redQueue| == |blueQueue| == n
    ensures order == Interleave(redQueue, blueQueue)
    ensures multiset(order) == multiset(AllAgents(n))
  {
    InterleaveSchedulesEveryAgentOnce(redQueue, blueQueue, n);
    TeamsPartitionAgents(n);
    var rest := Unschedule(schedule, redQueue);
    assert multiset(rest) == multiset(blueQueue);
    rest := Unschedule(rest, blueQueue);
    assert |rest| == |multiset(rest)| == 0;
    order := ScheduleRound(rest, redQueue, blueQueue);
  }

  /** `schedule.remove(agent)` for each agent of `queue` in turn: the
      schedule loses exactly the queued agents. */
  method Unschedule(schedule: seq<nat>, queue: seq<nat>) returns (rest: seq<nat>)
    requires multiset(queue) <= multiset(schedule)
    ensures multiset(rest) == multiset(schedule) - multiset(queue)
  {
    rest := schedule;
    for i := 0 to |queue|
      invariant multiset(queue[i..]) <= multiset(rest)
      invariant multiset(rest) == multiset(schedule) - multiset(queue[..i])
    {
      assert queue[i..] == [queue[i]] + queue[i + 1..];
      assert queue[..i + 1] == queue[..i] + [queue[i]];
      assert queue[i] in multiset(rest);
      rest := RemoveFirst(rest, queue[i]);
    }
    assert queue[..|queue|] == queue;
  }

  /** The adding half of `update_initiatives`: for each position `i`, the
      agent at `first[i]`, then the one at `second[i]`, joins the end of the
      schedule. */
  method ScheduleRound(schedule: seq<nat>, first: seq<nat>, second: seq<nat>) returns (order: seq<nat>)
    requires |first| == |second|
    ensures order == schedule + Interleave(first, second)
  {
    order := schedule;
    for i := 0 to |first|
      invariant order == schedule + Interleave(first[..i], second[..i])
    {
      assert first[..i + 1][..i] == first[..i] && second[..i + 1][..i] == second[..i];
      order := order + [first[i]];
      order := order + [second[i]];
    }
    assert first[..|first|] == first && second[..|second|] == second;
  }

  /** `init_pillars`: every pillar at height 0 except the centre one, at
      `max_pillar_height`. */
  method InitPillars(width: nat, height: nat, maxPillarHeight: int) returns (board: seq<seq<int>>)
    requires 0 < width && 0 < height
    ensures Shaped(board, width, height)
    ensures forall x, y {:trigger board[x][y]} :: 0 <= x < width && 0 <= y < height ==>
              board[x][y] == if Pos(x, y) == Centre(width, height) then maxPillarHeight else 0
  {
    var column := seq(height, _ => 0);
    board := seq(width, _ => column);
    board := board[width / 2 := board[width / 2][height / 2 := maxPillarHeight]];
  }

  class GameModel {
    const numGamersPerTeam: nat
    const width: nat
    const height: nat
    const maxPillarHeight: int
    const red: Team               // teams[0] of the source
    const blue: Team              // teams[1] of the source
    var pillars: seq<seq<int>>    // pillars[x][y]: height of the pillar at cell (x, y)
    var positions: seq<Pos>       // the cell each agent occupies
    var heights: seq<int>         // each agent's cached height
    var initiatives: seq<int>     // each agent's cached place in its team's queue
    var schedule: seq<nat>        // the scheduler's acting order
    var running: bool

    /** The board: its shape, one in-bounds cell per agent with no two agents
        sharing a cell, and the pillar heights: the centre at the maximum,
        every other pillar between 0 and one below it. */
    ghost predicate BoardValid()
      reads this
    {
      SoundBoard(pillars, positions, |heights|, |initiatives|)
    }

    /** `BoardValid` on the values of the fields it constrains; of the two
        caches only their lengths matter. */
    ghost predicate SoundBoard(board: seq<seq<int>>, at: seq<Pos>, cachedCount: int, orderCount: int)
    {
      && 0 < width && 0 < height && 1 <= maxPillarHeight
      && Shaped(board, width, height)
      && |at| == 2 * numGamersPerTeam
      && cachedCount == |at| && orderCount == |at|
      && (forall i :: 0 <= i < |at| ==> InBounds(at[i], width, height))
      && NoRepeats(at)
      && (forall x, y {:trigger board[x][y]} :: 0 <= x < width && 0 <= y < height ==>
            if Pos(x, y) == Centre(width, height) then board[x][y] == maxPillarHeight
            else 0 <= board[x][y] <= maxPillarHeight - 1)
    }

    /** Team `t`: the right hand size, the `2 * n` cards it was seeded with
        spread over deck, hand and discard, a hand no larger than `n`, and an
        initiative queue that is a permutation of its own agents. */
    ghost predicate TeamValid(team: Team, t: nat)
      reads team
    {
      SoundTeam(team.handSize, team.Cards(), |team.hand|, team.initiativeQueue, t)
    }

    /** `TeamValid` on the values it constrains: the hand size, the cards the
        team owns, the number of cards in its hand and its queue. */
    ghost predicate SoundTeam(handSize: nat, cards: multiset<Card>, handCount: int, queue: seq<nat>, t: nat)
    {
      && handSize == numGamersPerTeam
      && cards == multiset(SeedDeck(numGamersPerTeam))
      && handCount <= handSize
      && |queue| == numGamersPerTeam
      && multiset(queue) == multiset(TeamAgents(t, numGamersPerTeam))
    }

    ghost predicate TeamsValid()
      reads this, red, blue
    {
      && red != blue && red.color == Red && blue.color == Blue
      && TeamValid(red, 0) && TeamValid(blue, 1)
    }

    /** The team agent `agent` plays for: `teams[i % 2]`. */
    function TeamOf(agent: nat): Team
    {
      if agent % 2 == 0 then red else blue
    }

    ghost predicate Valid()
      reads this, red, blue
    {
      && BoardValid() && TeamsValid()
      && multiset(schedule) == multiset(AllAgents(numGamersPerTeam))
    }

    /** Every agent's cached height is the height of the pillar it stands on. */
    ghost predicate HeightsCurrent()
      reads this
    {
      CachedBut(pillars, positions, heights, -1)
    }

    function PillarAt(c: Pos): int
      reads this
      requires BoardValid() && InBounds(c, width, height)
    {
      pillars[c.x][c.y]
    }

    /** `move_action(cell, test=True)` for an agent whose height is `h`: the
        cell is on the board, holds no gamer agent, and its pillar is within
        one level of `h`. */
    predicate CanMove(board: seq<seq<int>>, at: seq<Pos>, h: int, c: Pos)
    {
      && 0 <= c.x < |board| && 0 <= c.y < |board[c.x]|
      && c !in at && Diff(h, board[c.x][c.y]) <= 1
    }

    /** `build_pillar_action(cell, test=True)`: the cell is on the board,
        holds no gamer agent, and its pillar is below `max_pillar_height - 1`. */
    predicate CanBuild(board: seq<seq<int>>, at: seq<Pos>, c: Pos)
    {
      && 0 <= c.x < |board| && 0 <= c.y < |board[c.x]|
      && c !in at && board[c.x][c.y] < maxPillarHeight - 1
    }

    /** `GameModel.__init__` followed by `init_teams`, `init_pillars` and
        `init_gamerAgents`. The random placement loop of `init_gamerAgents` is
        replaced by its outcome `starts`: distinct on-board cells whose
        pillars have height 0, i.e. never the centre. */
    constructor (numGamersPerTeam: nat, width: nat, height: nat, maxPillarHeight: int, starts: seq<Pos>)
      requires 0 < width && 0 < height && 1 <= maxPillarHeight
      requires |starts| == 2 * numGamersPerTeam
      requires forall i :: 0 <= i < |starts| ==> InBounds(starts[i], width, height) && starts[i] != Centre(width, height)
      requires forall i, j :: 0 <= i < j < |starts| ==> starts[i] != starts[j]
      ensures Valid() && HeightsCurrent() && running
      ensures positions == starts && schedule == AllAgents(numGamersPerTeam)
      ensures Centre(width, height) !in positions
      ensures red.ai == Random && blue.ai == Reactive
      ensures |red.hand| == numGamersPerTeam && |red.deck| == numGamersPerTeam && red.discard == []
      ensures |blue.hand| == numGamersPerTeam && |blue.deck| == numGamersPerTeam && blue.discard == []
      ensures red.initiativeQueue == TeamAgents(0, numGamersPerTeam)
      ensures blue.initiativeQueue == TeamAgents(1, numGamersPerTeam)
      ensures red.messagePile == [] && blue.messagePile == []
      ensures initiatives == seq(2 * numGamersPerTeam, _ => 0)
      ensures Shaped(pillars, width, height)
      ensures forall x, y {:trigger pillars[x][y]} :: 0 <= x < width && 0 <= y < height ==>
                pillars[x][y] == if Pos(x, y) == Centre(width, height) then maxPillarHeight else 0
      ensures fresh(red) && fresh(blue)
    {
      this.numGamersPerTeam := numGamersPerTeam;
      this.width := width;
      this.height := height;
      this.maxPillarHeight := maxPillarHeight;
      running := true;
      var r, b := InitTeams(numGamersPerTeam);
      red, blue := r, b;
      var board := InitPillars(width, height, maxPillarHeight);
      pillars := board;
      NoRepeatsPairwise(starts);
      var redQueue, blueQueue, order := QueueAgents(numGamersPerTeam);
      SetQueues(r, b, redQueue, blueQueue);
      positions := starts;
      heights := seq(2 * numGamersPerTeam, _ => 0);
      initiatives := seq(2 * numGamersPerTeam, _ => 0);
      schedule := order;
    }

    /** `move_action(cell, test)`: legal iff `CanMove` at the agent's cached
        height; a committed legal move relocates the agent and nothing else. */
    method MoveAction(agent: nat, cell: Pos, test: bool) returns (v: Verdict)
      requires Valid() && agent < |positions| && InBounds(cell, width, height)
      modifies this
      ensures Valid()
      ensures v == Legal <==> old(CanMove(pillars, positions, heights[agent], cell))
      ensures v == CellOccupied <==> cell in old(positions)
      ensures v != PillarTooTall
      ensures Applied(agent, if v == Legal && !test then Moved(cell) else Idle)
    {
      if cell !in positions {
        if Diff(heights[agent], pillars[cell.x][cell.y]) <= 1 {
          if !test {
            NoRepeatsMove(positions, agent, cell);
            positions := positions[agent := cell];
          }
          return Legal;
        }
        return PillarTooFar;
      }
      return CellOccupied;
    }

    /** `build_pillar_action(cell, test)`: legal iff `CanBuild`; a committed
        legal build raises that one pillar by 1 and leaves every other cell
        as it was. */
    method BuildPillarAction(agent: nat, cell: Pos, test: bool) returns (v: Verdict)
      requires Valid() && agent < |positions| && InBounds(cell, width, height)
      modifies this
      ensures Valid()
      ensures v == Legal <==> old(CanBuild(pillars, positions, cell))
      ensures v == CellOccupied <==> cell in positions
      ensures v != PillarTooFar
      ensures Applied(agent, if v == Legal && !test then Built(cell) else Idle)
      ensures old(HeightsCurrent()) ==> HeightsCurrent()
    {
      if cell !in positions {
        if pillars[cell.x][cell.y] < maxPillarHeight - 1 {
          if !test {
            RaisePillar(agent, cell);
          }
          return Legal;
        }
        return PillarTooTall;
      }
      return CellOccupied;
    }

    /** The committed half of a legal `build_pillar_action`: the pillar at
        `cell` grows by one level and nothing else changes. */
    method RaisePillar(agent: nat, cell: Pos)
      requires Valid() && agent < |positions| && InBounds(cell, width, height)
      requires cell !in positions && pillars[cell.x][cell.y] < maxPillarHeight - 1
      modifies this
      ensures Valid() && Applied(agent, Built(cell))
      ensures old(HeightsCurrent()) ==> HeightsCurrent()
    {
      assert this as object != red as object && this as object != blue as object;
      if HeightsCurrent() {
        RaiseKeepsCached(pillars, positions, heights, cell);
      }
      pillars := Raise(pillars, cell);
    }

    /** Whether cell `c` goes into the candidate list for `aim` of an agent
        whose height is `h`: the test-mode action succeeds and, for the
        reactive lists, the difference `pillar - h` has the required value. */
    predicate Qualifies(board: seq<seq<int>>, at: seq<Pos>, h: int, c: Pos, aim: Aim)
    {
      match aim
      case Movable => CanMove(board, at, h, c)
      case Buildable => CanBuild(board, at, c)
      case Advantageous => CanMove(board, at, h, c) && board[c.x][c.y] - h == 1
      case Upgradable => CanBuild(board, at, c) && board[c.x][c.y] - h == 0
      case Lower => CanBuild(board, at, c) && board[c.x][c.y] - h < 0
      case SameLevel => CanMove(board, at, h, c) && board[c.x][c.y] - h == 0
    }

    /** The cells of `cells` that qualify for `aim`, in their order. */
    function Candidates(board: seq<seq<int>>, at: seq<Pos>, h: int, aim: Aim, cells: seq<Pos>): seq<Pos>
    {
      if cells == [] then []
      else
        var last := cells[|cells| - 1];
        Candidates(board, at, h, aim, cells[..|cells| - 1]) + (if Qualifies(board, at, h, last, aim) then [last] else [])
    }

    /** A cell is a candidate exactly when it is one of the cells and qualifies. */
    lemma {:induction false} CandidatesMembership(board: seq<seq<int>>, at: seq<Pos>, h: int, aim: Aim, cells: seq<Pos>)
      ensures forall c :: c in Candidates(board, at, h, aim, cells) <==> c in cells && Qualifies(board, at, h, c, aim)
    {
      if cells != [] {
        var init := cells[..|cells| - 1];
        CandidatesMembership(board, at, h, aim, init);
        assert cells == init + [cells[|cells| - 1]];
      }
    }

    /** Extending the scanned prefix by one cell appends that cell when it qualifies. */
    lemma CandidatesStep(board: seq<seq<int>>, at: seq<Pos>, h: int, aim: Aim, cells: seq<Pos>, i: nat)
      requires i < |cells|
      ensures Candidates(board, at, h, aim, cells[..i + 1])
           == Candidates(board, at, h, aim, cells[..i]) + (if Qualifies(board, at, h, cells[i], aim) then [cells[i]] else [])
    {
      assert cells[..i + 1][..i] == cells[..i];
    }

    /** The candidate list for `aim` around the agent's cell, for an agent
        whose height is `h`. */
    function NeighbourCandidates(board: seq<seq<int>>, at: seq<Pos>, agent: nat, h: int, aim: Aim): seq<Pos>
      requires agent < |at|
    {
      Candidates(board, at, h, aim, Neighbours(at[agent], width, height))
    }

    /** One of the policies' collecting loops: every neighbour for which the
        test-mode action (and the height condition) succeeds at the agent's
        cached height, in neighbourhood order. */
    method CollectCells(agent: nat, aim: Aim) returns (cells: seq<Pos>)
      requires BoardValid() && agent < |positions|
      ensures cells == NeighbourCandidates(pillars, positions, agent, heights[agent], aim)
      ensures forall c :: c in cells <==> c in Neighbours(positions[agent], width, height) && Qualifies(pillars, positions, heights[agent], c, aim)
    {
      var around := Neighbours(positions[agent], width, height);
      var h := heights[agent];
      cells := [];
      for i := 0 to |around|
        invariant cells == Candidates(pillars, positions, h, aim, around[..i])
      {
        var c := around[i];
        var fits := Qualifies(pillars, positions, h, c, aim);
        CandidatesStep(pillars, positions, h, aim, around, i);
        if fits {
          cells := cells + [c];
        }
      }
      assert around[..|around|] == around;
      CandidatesMembership(pillars, positions, h, aim, around);
    }

    /** What a policy's move, build or pass changes: the agent's cell, one
        pillar, or the agent's place in its team's queue; cards, cached
        attributes, the schedule and `running` are left alone. */
    twostate predicate Applied(agent: nat, e: Effect)
      reads this, red, blue
    {
      && Moves(agent, e)
      && heights == old(heights) && initiatives == old(initiatives)
      && schedule == old(schedule) && running == old(running)
      && CardsKept(red) && CardsKept(blue)
    }

    /** The board and queue part of `Applied`. */
    twostate predicate Moves(agent: nat, e: Effect)
      reads this`positions, this`pillars, red`initiativeQueue, blue`initiativeQueue
    {
      MovedFrom(agent, e, old(positions), old(pillars), old(red.initiativeQueue), old(blue.initiativeQueue),
                positions, pillars, red.initiativeQueue, blue.initiativeQueue)
    }

    /** The cells `at'`, the board `board'` and the queues `redQueue'` and
        `blueQueue'` are what the effect `e` of agent `agent` makes of the
        cells `at`, the board `board` and the queues `redQueue` and
        `blueQueue`. */
    ghost predicate MovedFrom(agent: nat, e: Effect, at: seq<Pos>, board: seq<seq<int>>, redQueue: seq<nat>, blueQueue: seq<nat>,
                              at': seq<Pos>, board': seq<seq<int>>, redQueue': seq<nat>, blueQueue': seq<nat>)
    {
      && agent < |at|
      && (e.Moved? ==> at' == at[agent := e.cell])
      && (!e.Moved? ==> at' == at)
      && (e.Built? ==> Shaped(board, width, height) && InBounds(e.cell, width, height) && board' == Raise(board, e.cell))
      && (!e.Built? ==> board' == board)
      && QueueAfter(redQueue', redQueue, agent, e.Passed? && agent % 2 == 0)
      && QueueAfter(blueQueue', blueQueue, agent, e.Passed? && agent % 2 == 1)
    }

    twostate predicate CardsKept(team: Team)
      reads team
    {
      && team.deck == old(team.deck) && team.hand == old(team.hand) && team.discard == old(team.discard)
      && team.messagePile == old(team.messagePile)
    }

    /** `use_card_as_initiative_setter`: the agent becomes first in its
        team's queue; it is always found there. */
    method UseCardAsInitiativeSetter(agent: nat)
      requires Valid() && agent < |positions| && agent in TeamOf(agent).initiativeQueue
      modifies TeamOf(agent)
      ensures Valid() && Applied(agent, Passed)
    {
      if agent % 2 == 0 {
        assert this as object != red as object;
        var ok := red.MoveAgentToFirstInitiative(agent);
      } else {
        assert this as object != blue as object;
        var ok := blue.MoveAgentToFirstInitiative(agent);
      }
    }

    /** Moves to a random cell of a non-empty candidate list. Every listed
        cell passed the move's test, so the committed move succeeds: with
        `raise_errors` set it never raises. */
    method MoveToCandidate(agent: nat, aim: Aim, cells: seq<Pos>) returns (ghost effect: Effect)
      requires Valid() && agent < |positions|
      requires cells == NeighbourCandidates(pillars, positions, agent, heights[agent], aim) && cells != [] && !IsBuildAim(aim)
      modifies this
      ensures Valid() && Applied(agent, effect)
      ensures ActedOn(effect, old(NeighbourCandidates(pillars, positions, agent, heights[agent], aim)), false)
    {
      CandidatesMembership(pillars, positions, heights[agent], aim, Neighbours(positions[agent], width, height));
      assert cells[0] in cells;
      var cell :| cell in cells;
      assert Qualifies(pillars, positions, heights[agent], cell, aim);
      var v := MoveAction(agent, cell, false);
      assert v == Legal;
      effect := Moved(cell);
    }

    /** Builds on a random cell of a non-empty candidate list; as for moves,
        the committed build always succeeds. */
    method BuildOnCandidate(agent: nat, aim: Aim, cells: seq<Pos>) returns (ghost effect: Effect)
      requires Valid() && agent < |positions|
      requires cells == NeighbourCandidates(pillars, positions, agent, heights[agent], aim) && cells != [] && IsBuildAim(aim)
      modifies this
      ensures Valid() && Applied(agent, effect)
      ensures ActedOn(effect, old(NeighbourCandidates(pillars, positions, agent, heights[agent], aim)), true)
    {
      CandidatesMembership(pillars, positions, heights[agent], aim, Neighbours(positions[agent], width, height));
      assert cells[0] in cells;
      var cell :| cell in cells;
      assert Qualifies(pillars, positions, heights[agent], cell, aim);
      var v := BuildPillarAction(agent, cell, false);
      assert v == Legal;
      effect := Built(cell);
    }

    /** `random_move`: move to a random movable neighbour, or pass when there
        is none. */
    method RandomMove(agent: nat) returns (ghost effect: Effect)
      requires Valid() && agent < |positions| && agent in TeamOf(agent).initiativeQueue
      modifies this, TeamOf(agent)
      ensures Valid() && Applied(agent, effect)
      ensures ActedOn(effect, old(NeighbourCandidates(pillars, positions, agent, heights[agent], Movable)), false)
    {
      ghost var cands := NeighbourCandidates(pillars, positions, agent, heights[agent], Movable);
      var cells := CollectCells(agent, Movable);
      assert cells == cands;
      if cells == [] {
        UseCardAsInitiativeSetter(agent);
        effect := Passed;
      } else {
        effect := MoveToCandidate(agent, Movable, cells);
      }
    }

    /** `random_build_pillar`: build on a random buildable neighbour, or pass
        when there is none. */
    method RandomBuildPillar(agent: nat) returns (ghost effect: Effect)
      requires Valid() && agent < |positions| && agent in TeamOf(agent).initiativeQueue
      modifies this, TeamOf(agent)
      ensures Valid() && Applied(agent, effect)
      ensures ActedOn(effect, old(NeighbourCandidates(pillars, positions, agent, heights[agent], Buildable)), true)
    {
      ghost var cands := NeighbourCandidates(pillars, positions, agent, heights[agent], Buildable);
      var cells := CollectCells(agent, Buildable);
      assert cells == cands;
      if cells == [] {
        UseCardAsInitiativeSetter(agent);
        effect := Passed;
      } else {
        effect := BuildOnCandidate(agent, Buildable, cells);
      }
    }

    /** `random_AI`: pick any card of the team's hand and play it at random. */
    method RandomAI(agent: nat) returns (card: Card, ghost effect: Effect)
      requires Valid() && agent < |positions| && agent in TeamOf(agent).initiativeQueue
      requires TeamOf(agent).hand != []
      modifies this, TeamOf(agent)
      ensures Valid() && Applied(agent, effect)
      ensures card in TeamOf(agent).hand
      ensures card == Move ==> ActedOn(effect, old(NeighbourCandidates(pillars, positions, agent, heights[agent], Movable)), false)
      ensures card == BuildPillar ==> ActedOn(effect, old(NeighbourCandidates(pillars, positions, agent, heights[agent], Buildable)), true)
    {
      assert TeamOf(agent).hand[0] in TeamOf(agent).hand;
      card :| card in TeamOf(agent).hand;
      if card == Move {
        effect := RandomMove(agent);
      } else {
        effect := RandomBuildPillar(agent);
      }
    }

    /** What `reactive_AI` looks at when the agent's height is `h` and its
        team's hand is `hand`: which of its four lists are non-empty, and
        which cards the hand holds. */
    ghost function Seen(board: seq<seq<int>>, at: seq<Pos>, agent: nat, h: int, hand: seq<Card>): Situation
      requires agent < |at|
    {
      SituationWith(
        NeighbourCandidates(board, at, agent, h, Advantageous) != [], NeighbourCandidates(board, at, agent, h, Upgradable) != [],
        NeighbourCandidates(board, at, agent, h, Lower) != [], NeighbourCandidates(board, at, agent, h, SameLevel) != [],
        hand)
    }

    /** Effect `e` carries out tier `t` for an agent whose height is `h`: a
        move to (or build on) a cell of the tier's list, a pass for a fallback
        whose list is empty, nothing when no card was chosen. */
    ghost predicate Realises(board: seq<seq<int>>, at: seq<Pos>, agent: nat, h: int, t: Tier, e: Effect)
      requires agent < |at|
    {
      if t == NoCard then e == Idle
      else ActedOn(e, NeighbourCandidates(board, at, agent, h, TierAim(t)), TierCard(t) == Some(BuildPillar))
    }

    /** The decision rule of the agent's team's policy, for an agent whose
        height is `h` and a team hand `hand`: `card` is a card of the hand and
        `e` is what the policy does with it. RANDOM plays any card, MOVE as a
        move to a movable neighbour and BUILD_PILLAR as a build on a buildable
        one, passing when there is none; REACTIVE plays the first tier of its
        cascade that applies. */
    ghost predicate PolicyPlayed(board: seq<seq<int>>, at: seq<Pos>, agent: nat, h: int, hand: seq<Card>, card: Card, e: Effect)
      requires agent < |at|
    {
      && card in hand
      && if TeamOf(agent).ai == Random then
           && (card == Move ==> ActedOn(e, NeighbourCandidates(board, at, agent, h, Movable), false))
           && (card == BuildPillar ==> ActedOn(e, NeighbourCandidates(board, at, agent, h, Buildable), true))
         else
           var tier := ChooseTier(Seen(board, at, agent, h, hand));
           TierCard(tier) == Some(card) && Realises(board, at, agent, h, tier, e)
    }

    /** `reactive_AI`: collect the four lists, then play the first tier of the
        cascade that applies. */
    method ReactiveAI(agent: nat) returns (chosen: Option<Card>, ghost tier: Tier, ghost effect: Effect)
      requires Valid() && agent < |positions| && agent in TeamOf(agent).initiativeQueue
      modifies this, TeamOf(agent)
      ensures Valid() && Applied(agent, effect)
      ensures tier == ChooseTier(old(Seen(pillars, positions, agent, heights[agent], TeamOf(agent).hand)))
      ensures chosen == TierCard(tier)
      ensures old(Realises(pillars, positions, agent, heights[agent], tier, effect))
    {
      var advantageous, upgradable, lower, sameLevel := Survey(agent);
      chosen, tier, effect := Cascade(agent, advantageous, upgradable, lower, sameLevel);
    }

    /** The four collecting loops of `reactive_AI`. */
    method Survey(agent: nat) returns (advantageous: seq<Pos>, upgradable: seq<Pos>, lower: seq<Pos>, sameLevel: seq<Pos>)
      requires BoardValid() && agent < |positions|
      ensures advantageous == NeighbourCandidates(pillars, positions, agent, heights[agent], Advantageous)
      ensures upgradable == NeighbourCandidates(pillars, positions, agent, heights[agent], Upgradable)
      ensures lower == NeighbourCandidates(pillars, positions, agent, heights[agent], Lower)
      ensures sameLevel == NeighbourCandidates(pillars, positions, agent, heights[agent], SameLevel)
    {
      advantageous := CollectCells(agent, Advantageous);
      upgradable := CollectCells(agent, Upgradable);
      lower := CollectCells(agent, Lower);
      sameLevel := CollectCells(agent, SameLevel);
    }

    /** The if/elif cascade of `reactive_AI`, given its four lists. */
    method Cascade(agent: nat, advantageous: seq<Pos>, upgradable: seq<Pos>, lower: seq<Pos>, sameLevel: seq<Pos>)
      returns (chosen: Option<Card>, ghost tier: Tier, ghost effect: Effect)
      requires Valid() && agent < |positions| && agent in TeamOf(agent).initiativeQueue
      requires advantageous == NeighbourCandidates(pillars, positions, agent, heights[agent], Advantageous)
      requires upgradable == NeighbourCandidates(pillars, positions, agent, heights[agent], Upgradable)
      requires lower == NeighbourCandidates(pillars, positions, agent, heights[agent], Lower)
      requires sameLevel == NeighbourCandidates(pillars, positions, agent, heights[agent], SameLevel)
      modifies this, TeamOf(agent)
      ensures Valid() && Applied(agent, effect)
      ensures tier == ChooseTier(old(Seen(pillars, positions, agent, heights[agent], TeamOf(agent).hand)))
      ensures chosen == TierCard(tier)
      ensures old(Realises(pillars, positions, agent, heights[agent], tier, effect))
    {
      var hand := TeamOf(agent).hand;
      tier := ChooseTier(Seen(pillars, positions, agent, heights[agent], hand));
      if advantageous != [] && Move in hand {
        chosen := Some(Move);
        effect := MoveToCandidate(agent, Advantageous, advantageous);
      } else if upgradable != [] && BuildPillar in hand {
        chosen := Some(BuildPillar);
        effect := BuildOnCandidate(agent, Upgradable, upgradable);
      } else if lower != [] && BuildPillar in hand {
        chosen := Some(BuildPillar);
        effect := BuildOnCandidate(agent, Lower, lower);
      } else if sameLevel != [] && Move in hand {
        chosen := Some(Move);
        effect := MoveToCandidate(agent, SameLevel, sameLevel);
      } else if Move in hand {
        chosen := Some(Move);
        effect := RandomMove(agent);
      } else if BuildPillar in hand {
        chosen := Some(BuildPillar);
        effect := RandomBuildPillar(agent);
      } else {
        chosen := None;
        effect := Idle;
      }
    }

    /** `update_height`: the agent's cached height becomes the height of the
        pillar it stands on. */
    method UpdateHeight(agent: nat)
      requires BoardValid() && agent < |positions|
      modifies this`heights
      ensures BoardValid()
      ensures heights == old(heights)[agent := PillarAt(positions[agent])]
      ensures positions == old(positions) && pillars == old(pillars) && initiatives == old(initiatives)
      ensures schedule == old(schedule) && running == old(running)
    {
      var cell := positions[agent];
      heights := heights[agent := pillars[cell.x][cell.y]];
    }

    /** `update_initiative`: the agent's cached initiative becomes its index in
        its team's queue, where it always is. */
    method UpdateInitiative(agent: nat)
      requires BoardValid() && agent < |positions| && agent in TeamOf(agent).initiativeQueue
      modifies this
      ensures BoardValid()
      ensures initiatives == old(initiatives)[agent := IndexOf(TeamOf(agent).initiativeQueue, agent)]
      ensures TeamOf(agent).initiativeQueue[initiatives[agent]] == agent
      ensures agent !in TeamOf(agent).initiativeQueue[..initiatives[agent]]
      ensures positions == old(positions) && pillars == old(pillars) && heights == old(heights)
      ensures schedule == old(schedule) && running == old(running)
    {
      var place := IndexOf(TeamOf(agent).initiativeQueue, agent);
      initiatives := initiatives[agent := place];
    }

    /** `check_win_condition`: refresh the agent's height; the game stops when
        it stands at `max_pillar_height`, which only the centre pillar has. */
    method CheckWinCondition(agent: nat)
      requires Valid() && agent < |positions|
      modifies this`heights, this`running
      ensures Valid()
      ensures heights == old(heights)[agent := PillarAt(positions[agent])]
      ensures running == (old(running) && PillarAt(positions[agent]) != maxPillarHeight)
      ensures running == (old(running) && positions[agent] != Centre(width, height))
      ensures positions == old(positions) && pillars == old(pillars) && initiatives == old(initiatives)
      ensures schedule == old(schedule)
      ensures old(HeightsCurrentBut(agent)) ==> HeightsCurrent()
      ensures red.initiativeQueue == old(red.initiativeQueue) && blue.initiativeQueue == old(blue.initiativeQueue)
      ensures TeamOf(agent).deck == old(TeamOf(agent).deck) && TeamOf(agent).hand == old(TeamOf(agent).hand)
      ensures TeamOf(agent).discard == old(TeamOf(agent).discard) && TeamOf(agent).messagePile == old(TeamOf(agent).messagePile)
    {
      assert this as object != red as object && this as object != blue as object;
      UpdateHeight(agent);
      if heights[agent] == maxPillarHeight {
        running := false;
      }
    }

    /** Every agent's cached height is current, except perhaps `agent`'s. */
    ghost predicate HeightsCurrentBut(agent: nat)
      reads this
    {
      CachedBut(pillars, positions, heights, agent)
    }

    /** The rules of the game on the real pillar heights: a move goes to a
        free neighbour whose pillar is within one level of the pillar the
        agent stands on; a build goes on a free neighbour whose pillar is
        below `max_pillar_height - 1`. Passing or doing nothing is always
        allowed. */
    ghost predicate Lawful(board: seq<seq<int>>, at: seq<Pos>, agent: nat, e: Effect)
      requires Shaped(board, width, height) && agent < |at| && InBounds(at[agent], width, height)
    {
      var from := at[agent];
      match e
      case Moved(c) =>
        c in Neighbours(from, width, height) && c !in at
        && Diff(board[from.x][from.y], board[c.x][c.y]) <= 1
      case Built(c) =>
        c in Neighbours(from, width, height) && c !in at
        && board[c.x][c.y] < maxPillarHeight - 1
      case Passed | Idle => true
    }

    /** Whatever either policy does, deciding with the height of the pillar
        the agent stands on, obeys the rules. */
    lemma CandidatesAreLawful(agent: nat)
      requires BoardValid() && agent < |positions|
      ensures forall hand, card, e :: PolicyPlayed(pillars, positions, agent, PillarAt(positions[agent]), hand, card, e) ==> Lawful(pillars, positions, agent, e)
    {
      var h := PillarAt(positions[agent]);
      CandidateIsLawful(agent, Movable);
      CandidateIsLawful(agent, Buildable);
      forall hand, card, e | PolicyPlayed(pillars, positions, agent, h, hand, card, e)
        ensures Lawful(pillars, positions, agent, e)
      {
        if TeamOf(agent).ai != Random {
          var t := ChooseTier(Seen(pillars, positions, agent, h, hand));
          if t != NoCard {
            var aim := TierAim(t);
            CandidateIsLawful(agent, aim);
            assert TierCard(t) == Some(BuildPillar) <==> IsBuildAim(aim);
            assert ActedOn(e, NeighbourCandidates(pillars, positions, agent, h, aim), IsBuildAim(aim));
          }
        }
      }
    }

    /** Acting on the candidate list for one aim, at the height of the
        agent's pillar, obeys the rules. */
    lemma CandidateIsLawful(agent: nat, aim: Aim)
      requires BoardValid() && agent < |positions|
      ensures forall e :: ActedOn(e, NeighbourCandidates(pillars, positions, agent, PillarAt(positions[agent]), aim), IsBuildAim(aim)) ==> Lawful(pillars, positions, agent, e)
    {
      CandidatesMembership(pillars, positions, PillarAt(positions[agent]), aim, Neighbours(positions[agent], width, height));
    }

    /** An agent is always in its own team's queue. */
    lemma QueuedInOwnTeam(agent: nat)
      requires Valid() && agent < |positions|
      ensures agent in TeamOf(agent).initiativeQueue
    {
      TeamMembership(agent, numGamersPerTeam);
      assert agent in multiset(TeamAgents(agent % 2, numGamersPerTeam));
    }

    /** `GamerAgent.step`: refresh the cached height and initiative, draw a
        new hand when the team's shared hand is empty, let the team's policy
        play a card from the hand, discard that card, and check for a win.
        The policy decides on the height of the agent's pillar and the
        refilled hand, and the turn obeys the rules on the board as it was
        when the turn began. */
    method AgentStep(agent: nat) returns (played: Card, ghost effect: Effect, ghost refilled: Piles)
      requires Valid() && agent < |positions|
      modifies this, TeamOf(agent)
      ensures Valid()
      ensures Refilled(old(TeamOf(agent).Holding()), numGamersPerTeam, refilled)
      ensures old(PolicyPlayed(pillars, positions, agent, PillarAt(positions[agent]), refilled.hand, played, effect))
      ensures TeamOf(agent).deck == refilled.deck && TeamOf(agent).discard == refilled.discard + [played]
      ensures TeamOf(agent).hand == RemoveFirst(refilled.hand, played)
      ensures TeamOf(agent).messagePile == old(TeamOf(agent).messagePile)
      ensures Moves(agent, effect) && old(Lawful(pillars, positions, agent, effect))
      ensures effect.Moved? ==> played == Move
      ensures effect.Built? ==> played == BuildPillar
      ensures schedule == old(schedule)
      ensures agent in old(TeamOf(agent).initiativeQueue)
      ensures initiatives == old(initiatives)[agent := IndexOf(old(TeamOf(agent).initiativeQueue), agent)]
      ensures running == (old(running) && PillarAt(positions[agent]) != maxPillarHeight)
      ensures running == (old(running) && positions[agent] != Centre(width, height))
      ensures old(HeightsCurrent()) ==> HeightsCurrent()
    {
      assert this as object != TeamOf(agent) as object;
      CandidatesAreLawful(agent);
      RefreshCaches(agent);
      played, effect, refilled := RefillAndPlay(agent);
    }

    /** `step` once the agent's cached height is current: refill an empty
        hand, then play by the policy, discard and check for a win. */
    method RefillAndPlay(agent: nat) returns (played: Card, ghost effect: Effect, ghost refilled: Piles)
      requires Valid() && agent < |positions| && agent in TeamOf(agent).initiativeQueue
      requires heights[agent] == PillarAt(positions[agent])
      modifies this, TeamOf(agent)
      ensures Valid()
      ensures Refilled(old(TeamOf(agent).Holding()), numGamersPerTeam, refilled)
      ensures old(PolicyPlayed(pillars, positions, agent, heights[agent], refilled.hand, played, effect))
      ensures TeamOf(agent).deck == refilled.deck && TeamOf(agent).discard == refilled.discard + [played]
      ensures TeamOf(agent).hand == RemoveFirst(refilled.hand, played)
      ensures TeamOf(agent).messagePile == old(TeamOf(agent).messagePile)
      ensures Moves(agent, effect)
      ensures effect.Moved? ==> played == Move
      ensures effect.Built? ==> played == BuildPillar
      ensures schedule == old(schedule) && initiatives == old(initiatives)
      ensures heights == old(heights)[agent := PillarAt(positions[agent])]
      ensures running == (old(running) && PillarAt(positions[agent]) != maxPillarHeight)
      ensures running == (old(running) && positions[agent] != Centre(width, height))
      ensures old(HeightsCurrent()) ==> HeightsCurrent()
    {
      assert this as object != TeamOf(agent) as object;
      RefillHand(agent);
      refilled := TeamOf(agent).Holding();
      played, effect := PlayTurn(agent);
    }

    /** The rest of `step` once the hand is non-empty and the agent's height
        is current: play by the policy, discard, check for a win. */
    method PlayTurn(agent: nat) returns (played: Card, ghost effect: Effect)
      requires Valid() && agent < |positions| && agent in TeamOf(agent).initiativeQueue
      requires TeamOf(agent).hand != [] && heights[agent] == PillarAt(positions[agent])
      modifies this, TeamOf(agent)
      ensures Valid()
      ensures old(PolicyPlayed(pillars, positions, agent, heights[agent], TeamOf(agent).hand, played, effect))
      ensures TeamOf(agent).deck == old(TeamOf(agent).deck) && TeamOf(agent).discard == old(TeamOf(agent).discard) + [played]
      ensures TeamOf(agent).hand == RemoveFirst(old(TeamOf(agent).hand), played)
      ensures TeamOf(agent).messagePile == old(TeamOf(agent).messagePile)
      ensures Moves(agent, effect)
      ensures effect.Moved? ==> played == Move
      ensures effect.Built? ==> played == BuildPillar
      ensures schedule == old(schedule) && initiatives == old(initiatives)
      ensures heights == old(heights)[agent := PillarAt(positions[agent])]
      ensures running == (old(running) && PillarAt(positions[agent]) != maxPillarHeight)
      ensures running == (old(running) && positions[agent] != Centre(width, height))
      ensures old(HeightsCurrent()) ==> HeightsCurrent()
    {
      assert this as object != red as object && this as object != blue as object;
      played, effect := PlayAndDiscard(agent);
      CheckWinCondition(agent);
    }

    /** `update_height` then `update_initiative`. */
    method RefreshCaches(agent: nat)
      requires Valid() && agent < |positions|
      modifies this
      ensures Valid() && agent in TeamOf(agent).initiativeQueue && agent in old(TeamOf(agent).initiativeQueue)
      ensures heights == old(heights)[agent := PillarAt(positions[agent])]
      ensures initiatives == old(initiatives)[agent := IndexOf(old(TeamOf(agent).initiativeQueue), agent)]
      ensures positions == old(positions) && pillars == old(pillars)
      ensures schedule == old(schedule) && running == old(running)
      ensures old(HeightsCurrent()) ==> HeightsCurrent()
      ensures TeamOf(agent).deck == old(TeamOf(agent).deck) && TeamOf(agent).hand == old(TeamOf(agent).hand)
      ensures TeamOf(agent).discard == old(TeamOf(agent).discard)
      ensures red.initiativeQueue == old(red.initiativeQueue) && blue.initiativeQueue == old(blue.initiativeQueue)
    {
      UpdateHeight(agent);
      QueuedInOwnTeam(agent);
      UpdateInitiative(agent);
    }

    /** `if len(self.team.hand) == 0: self.team.draw_new_hand()`: the team
        owns `2 * n` cards, so a full hand of `n >= 1` cards can always be
        drawn. */
    method RefillHand(agent: nat)
      requires Valid() && agent < |positions|
      modifies TeamOf(agent)
      ensures Valid() && TeamOf(agent).hand != []
      ensures Refilled(old(TeamOf(agent).Holding()), numGamersPerTeam, TeamOf(agent).Holding())
      ensures red.initiativeQueue == old(red.initiativeQueue) && blue.initiativeQueue == old(blue.initiativeQueue)
      ensures TeamOf(agent).messagePile == old(TeamOf(agent).messagePile)
    {
      if agent % 2 == 0 {
        assert this as object != red as object;
        RefillTeam(red);
      } else {
        assert this as object != blue as object;
        RefillTeam(blue);
      }
    }

    /** The policy plays a card, which then leaves the hand for the discard pile. */
    method PlayAndDiscard(agent: nat) returns (played: Card, ghost effect: Effect)
      requires Valid() && agent < |positions| && agent in TeamOf(agent).initiativeQueue
      requires TeamOf(agent).hand != [] && heights[agent] == PillarAt(positions[agent])
      modifies this, TeamOf(agent)
      ensures Valid()
      ensures old(PolicyPlayed(pillars, positions, agent, heights[agent], TeamOf(agent).hand, played, effect))
      ensures Moves(agent, effect)
      ensures effect.Moved? ==> played == Move
      ensures effect.Built? ==> played == BuildPillar
      ensures heights == old(heights) && initiatives == old(initiatives)
      ensures schedule == old(schedule) && running == old(running)
      ensures played in old(TeamOf(agent).hand)
      ensures TeamOf(agent).hand == RemoveFirst(old(TeamOf(agent).hand), played)
      ensures TeamOf(agent).discard == old(TeamOf(agent).discard) + [played]
      ensures TeamOf(agent).deck == old(TeamOf(agent).deck)
      ensures TeamOf(agent).messagePile == old(TeamOf(agent).messagePile)
      ensures old(HeightsCurrent()) ==> HeightsCurrentBut(agent)
    {
      ghost var board, at, cached := pillars, positions, heights;
      ghost var wasCurrent := HeightsCurrent();
      played, effect := PlayPolicy(agent);
      if wasCurrent {
        OthersStayCached(board, at, cached, agent, effect, pillars, positions);
      }
      if agent % 2 == 0 {
        assert this as object != red as object;
        var ok := red.DiscardCard(played);
        assert ok && TeamValid(red, 0);
      } else {
        assert this as object != blue as object;
        var ok := blue.DiscardCard(played);
        assert ok && TeamValid(blue, 1);
      }
    }

    /** The policy half of `step`: the team's policy picks a card from the
        non-empty hand and plays it by its rule, which obeys the rules of the
        game. */
    method PlayPolicy(agent: nat) returns (card: Card, ghost effect: Effect)
      requires Valid() && agent < |positions| && agent in TeamOf(agent).initiativeQueue
      requires TeamOf(agent).hand != [] && heights[agent] == PillarAt(positions[agent])
      modifies this, TeamOf(agent)
      ensures Valid() && Applied(agent, effect)
      ensures old(PolicyPlayed(pillars, positions, agent, heights[agent], TeamOf(agent).hand, card, effect))
      ensures old(Lawful(pillars, positions, agent, effect))
      ensures card in TeamOf(agent).hand
      ensures effect.Moved? ==> card == Move
      ensures effect.Built? ==> card == BuildPillar
    {
      CandidatesAreLawful(agent);
      if TeamOf(agent).ai == Random {
        card, effect := PlayRandom(agent);
      } else {
        card, effect := PlayReactive(agent);
      }
    }

    /** `random_AI` as `step` calls it. */
    method PlayRandom(agent: nat) returns (card: Card, ghost effect: Effect)
      requires Valid() && agent < |positions| && agent in TeamOf(agent).initiativeQueue
      requires TeamOf(agent).ai == Random && TeamOf(agent).hand != []
      modifies this, TeamOf(agent)
      ensures Valid() && Applied(agent, effect)
      ensures old(PolicyPlayed(pillars, positions, agent, heights[agent], TeamOf(agent).hand, card, effect))
      ensures card in TeamOf(agent).hand
      ensures effect.Moved? ==> card == Move
      ensures effect.Built? ==> card == BuildPillar
    {
      card, effect := RandomAI(agent);
    }

    /** `reactive_AI` as `step` calls it: with a non-empty hand it always
        chooses a card. */
    method PlayReactive(agent: nat) returns (card: Card, ghost effect: Effect)
      requires Valid() && agent < |positions| && agent in TeamOf(agent).initiativeQueue
      requires TeamOf(agent).ai == Reactive && TeamOf(agent).hand != []
      modifies this, TeamOf(agent)
      ensures Valid() && Applied(agent, effect)
      ensures old(PolicyPlayed(pillars, positions, agent, heights[agent], TeamOf(agent).hand, card, effect))
      ensures card in TeamOf(agent).hand
      ensures effect.Moved? ==> card == Move
      ensures effect.Built? ==> card == BuildPillar
    {
      ReactiveChoosesFromHand(agent, heights[agent], TeamOf(agent).hand);
      var chosen: Option<Card>;
      ghost var tier: Tier;
      chosen, tier, effect := ReactiveAI(agent);
      card := chosen.value;
    }

    /** With a non-empty hand the reactive policy always chooses a card, and
        one the hand holds. */
    lemma ReactiveChoosesFromHand(agent: nat, h: int, hand: seq<Card>)
      requires agent < |positions| && hand != []
      ensures TierCard(ChooseTier(Seen(pillars, positions, agent, h, hand))).Some?
      ensures TierCard(ChooseTier(Seen(pillars, positions, agent, h, hand))).value in hand
    {
      var seen := Seen(pillars, positions, agent, h, hand);
      ChosenCardInHand(seen.advantageous, seen.upgradable, seen.lower, seen.sameLevel, hand);
    }

    /** `GameModel.update_initiatives`: every queued agent leaves the
        schedule, which empties it, and the agents are added back taking
        position `i` of RED's queue, then position `i` of BLUE's, for each
        `i` in turn. */
    method UpdateInitiatives()
      requires Valid()
      modifies this
      ensures Valid()
      ensures schedule == Interleave(red.initiativeQueue, blue.initiativeQueue)
      ensures positions == old(positions) && pillars == old(pillars)
      ensures heights == old(heights) && initiatives == old(initiatives) && running == old(running)
    {
      schedule := Reschedule(schedule, red.initiativeQueue, blue.initiativeQueue, numGamersPerTeam);
    }

    /** `GameModel.step`: recompute the acting order from the initiative
        queues, then let every agent take its turn in that order. The round
        runs to its end even after a win; the game only ever stops with an
        agent on the centre pillar, and the cached heights stay current. */
    method Step()
      requires Valid()
      modifies this, red, blue
      ensures Valid()
      ensures schedule == Interleave(old(red.initiativeQueue), old(blue.initiativeQueue))
      ensures running ==> old(running)
      ensures old(running) && !running ==> exists a :: 0 <= a < |positions| && positions[a] == Centre(width, height)
      ensures old(running) && old(Centre(width, height) !in positions) ==> (running <==> Centre(width, height) !in positions)
      ensures old(running ==> Centre(width, height) !in positions) ==> (running ==> Centre(width, height) !in positions)
      ensures old(HeightsCurrent()) ==> HeightsCurrent()
    {
      UpdateInitiatives();
      PlayRound();
    }

    /** The loop of `step`: every agent of `schedule` takes its turn, in
        order; the schedule itself is not touched. */
    method PlayRound()
      requires Valid()
      modifies this, red, blue
      ensures Valid() && schedule == old(schedule)
      ensures running ==> old(running)
      ensures old(running) && !running ==> exists a :: 0 <= a < |positions| && positions[a] == Centre(width, height)
      ensures old(running) && old(Centre(width, height) !in positions) ==> (running <==> Centre(width, height) !in positions)
      ensures old(HeightsCurrent()) ==> HeightsCurrent()
    {
      ghost var calm := running && Centre(width, height) !in positions;
      var order := schedule;
      ghost var won: nat := 0;  // the slot of the agent that stopped the game
      for i := 0 to |order|
        invariant Valid() && schedule == order
        invariant RoundSoFar(order, i, old(running), calm, won)
        invariant old(HeightsCurrent()) ==> HeightsCurrent()
      {
        var played; ghost var effect, refilled;
        played, effect, refilled, won := Turn(order, i, old(running), calm, won);
      }
    }

    /** After the first `i` turns of a round that began with `running` equal
        to `began`: the game can only have stopped, never restarted, and if
        it stopped then the agent in slot `won`, which has already acted,
        stands on the centre pillar. When the round began `calm` (running,
        with nobody on the centre), the game is still running exactly while
        the centre is free. */
    ghost predicate RoundSoFar(order: seq<nat>, i: nat, began: bool, calm: bool, won: nat)
      reads this
    {
      && (running ==> began)
      && (began && !running ==>
            won < i && won < |order| && order[won] < |positions| && positions[order[won]] == Centre(width, height))
      && (began && calm ==> (running <==> Centre(width, height) !in positions))
    }

    /** The turn of the agent in slot `i` of the round's order: its `step`,
        which keeps `RoundSoFar`; no later turn moves an agent that already
        acted, since every agent appears once in the order. */
    method Turn(order: seq<nat>, i: nat, ghost began: bool, ghost calm: bool, ghost won: nat)
      returns (played: Card, ghost effect: Effect, ghost refilled: Piles, ghost won': nat)
      requires Valid() && schedule == order && i < |order|
      requires RoundSoFar(order, i, began, calm, won)
      modifies this, TeamOf(order[i])
      ensures Valid() && schedule == order
      ensures order[i] < |positions|
      ensures order[i] in old(TeamOf(order[i]).initiativeQueue)
      ensures initiatives == old(initiatives)[order[i] := IndexOf(old(TeamOf(order[i]).initiativeQueue), order[i])]
      ensures Refilled(old(TeamOf(order[i]).Holding()), numGamersPerTeam, refilled)
      ensures old(PolicyPlayed(pillars, positions, order[i], PillarAt(positions[order[i]]), refilled.hand, played, effect))
      ensures TeamOf(order[i]).deck == refilled.deck && TeamOf(order[i]).discard == refilled.discard + [played]
      ensures TeamOf(order[i]).hand == RemoveFirst(refilled.hand, played)
      ensures TeamOf(order[i]).messagePile == old(TeamOf(order[i]).messagePile)
      ensures Moves(order[i], effect)
      ensures RoundSoFar(order, i + 1, began, calm, won')
      ensures old(HeightsCurrent()) ==> HeightsCurrent()
    {
      ActsOnce(order, numGamersPerTeam, i);
      var agent := order[i];
      ghost var wasRunning, before := running, positions;
      played, effect, refilled := AgentStep(agent);
      if began && calm && wasRunning {
        OnlyMoverReaches(before, positions, agent, effect, Centre(width, height));
      }
      if began && !wasRunning {
        assert order[won] != agent;
        assert positions[order[won]] == before[order[won]];
        assert positions[order[won]] in positions;
      }
      won' := if wasRunning && !running then i else won;
    }
  }
}
