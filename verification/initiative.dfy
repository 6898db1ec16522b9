/** Agent identities, the teams' initiative queues and the per-round acting
    order built by `GameModel.update_initiatives`. Agent `i` (for `i` below
    twice the team size) joins team `i % 2`, as `init_gamerAgents` alternates. */
module Initiative {

  /** The agents of team `t` in the order `init_gamerAgents` queued them. */
  function TeamAgents(t: nat, n: nat): seq<nat>
  {
    seq(n, k => 2 * k + t)
  }

  /** Every agent of the game, in the order they were added to the schedule. */
  function AllAgents(n: nat): seq<nat>
  {
    seq(2 * n, i => i)
  }

  lemma TeamMembership(a: nat, n: nat)
    requires a < 2 * n
    ensures a in TeamAgents(a % 2, n)
    ensures a !in TeamAgents(1 - a % 2, n)
  {
    assert TeamAgents(a % 2, n)[a / 2] == a;
  }

  /** The two teams split the agents between them: each agent is on exactly one team. */
  lemma {:induction false} TeamsPartitionAgents(n: nat)
    ensures multiset(TeamAgents(0, n)) + multiset(TeamAgents(1, n)) == multiset(AllAgents(n))
  {
    if n > 0 {
      TeamsPartitionAgents(n - 1);
      assert TeamAgents(0, n) == TeamAgents(0, n - 1) + [2 * n - 2];
      assert TeamAgents(1, n) == TeamAgents(1, n - 1) + [2 * n - 1];
      assert AllAgents(n) == AllAgents(n - 1) + [2 * n - 2, 2 * n - 1];
    }
  }

  /** Every agent occurs once in the list of all agents. */
  lemma AllAgentsOnce(n: nat, a: nat)
    ensures multiset(AllAgents(n))[a] == if a < 2 * n then 1 else 0
  {
    if n > 0 {
      AllAgentsOnce(n - 1, a);
      assert AllAgents(n) == AllAgents(n - 1) + [2 * n - 2, 2 * n - 1];
    }
  }

  /** In an order holding every agent once, each slot holds an agent of the
      game that no earlier slot holds. */
  lemma ActsOnce(order: seq<nat>, n: nat, i: nat)
    requires multiset(order) == multiset(AllAgents(n)) && i < |order|
    ensures order[i] < 2 * n
    ensures forall j :: 0 <= j < i ==> order[j] != order[i]
  {
    AllAgentsOnce(n, order[i]);
    assert order[i] in multiset(order);
    forall j | 0 <= j < i
      ensures order[j] != order[i]
    {
      assert order == order[..j] + [order[j]] + order[j + 1..i] + [order[i]] + order[i + 1..];
      assert multiset(order)[order[i]] >= multiset([order[j]])[order[i]] + 1;
    }
  }

  /** The acting order of one round: position `i` of the first queue, then
      position `i` of the second queue, for each `i` in turn. */
  function Interleave(first: seq<nat>, second: seq<nat>): (order: seq<nat>)
    requires |first| == |second|
    ensures |order| == 2 * |first|
  {
    if first == [] then []
    else
      var k := |first| - 1;
      Interleave(first[..k], second[..k]) + [first[k], second[k]]
  }

  /** In the round's order, slot `2 * i` holds `first[i]` and slot
      `2 * i + 1` holds `second[i]`. */
  lemma {:induction false} InterleaveAt(first: seq<nat>, second: seq<nat>, i: nat)
    requires |first| == |second| && i < |first|
    ensures Interleave(first, second)[2 * i] == first[i]
    ensures Interleave(first, second)[2 * i + 1] == second[i]
  {
    var k := |first| - 1;
    if i < k {
      InterleaveAt(first[..k], second[..k], i);
    }
  }

  /** Interleaving loses and duplicates nothing. */
  lemma {:induction false} InterleaveMultiset(first: seq<nat>, second: seq<nat>)
    requires |first| == |second|
    ensures multiset(Interleave(first, second)) == multiset(first) + multiset(second)
  {
    if first != [] {
      var k := |first| - 1;
      InterleaveMultiset(first[..k], second[..k]);
      assert first == first[..k] + [first[k]];
      assert second == second[..k] + [second[k]];
      assert multiset(Interleave(first, second))
          == multiset(Interleave(first[..k], second[..k])) + multiset{first[k], second[k]};
    }
  }

  /** When the two queues hold the two teams' agents, the round's order
      holds every agent exactly once. */
  lemma InterleaveSchedulesEveryAgentOnce(first: seq<nat>, second: seq<nat>, n: nat)
    requires multiset(first) == multiset(TeamAgents(0, n))
    requires multiset(second) == multiset(TeamAgents(1, n))
    ensures |first| == |second| == n
    ensures multiset(Interleave(first, second)) == multiset(AllAgents(n))
  {
    assert |first| == |multiset(first)| == |multiset(TeamAgents(0, n))| == n;
    assert |second| == |multiset(second)| == |multiset(TeamAgents(1, n))| == n;
    InterleaveMultiset(first, second);
    TeamsPartitionAgents(n);
  }
}
