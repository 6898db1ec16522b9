/** The card economy of one team: a deck, a hand shared by all of the team's
    agents and a discard pile, plus the team's message pile and initiative
    queue (`Team` in game_model.py). */
module Cards {
  import opened Util

  datatype Card = Move | BuildPillar
  datatype Color = Red | Blue
  /** The policies the game offers: `AI.RANDOM` and `AI.REACTIVE`. */
  datatype AI = Random | Reactive

  /** A desire posted on a team's message pile; no policy reads these. */
  datatype Message = Message(senderId: nat, desireCard: Option<Card>, desireFirstInitiative: bool, importance: int)

  /** A team's deck, hand and discard pile at one moment. */
  datatype Piles = Piles(deck: seq<Card>, hand: seq<Card>, discard: seq<Card>)

  /** The deck `init_teams` builds before shuffling: `n` times MOVE then BUILD_PILLAR. */
  function SeedDeck(n: nat): (deck: seq<Card>)
    ensures |deck| == 2 * n
    ensures multiset(deck)[Move] == n && multiset(deck)[BuildPillar] == n
  {
    if n == 0 then [] else SeedDeck(n - 1) + [Move, BuildPillar]
  }

  /** The pile left after removing every message sent by `agentId`, in the original order. */
  function WithoutSender(pile: seq<Message>, agentId: nat): (r: seq<Message>)
    ensures forall m :: m in r <==> m in pile && m.senderId != agentId
    ensures |r| <= |pile|
  {
    if pile == [] then []
    else
      var last := pile[|pile| - 1];
      WithoutSender(pile[..|pile| - 1], agentId) + (if last.senderId != agentId then [last] else [])
  }

  class Team {
    const color: Color
    const handSize: nat
    const ai: AI
    var deck: seq<Card>          // draw order: cards are popped from the end
    var hand: seq<Card>
    var discard: seq<Card>
    var messagePile: seq<Message>
    var initiativeQueue: seq<nat> // agent identities, first acts first

    /** Every card the team owns, wherever it lies. */
    function Cards(): multiset<Card>
      reads this`deck, this`hand, this`discard
    {
      multiset(deck) + multiset(hand) + multiset(discard)
    }

    function Holding(): Piles
      reads this`deck, this`hand, this`discard
    {
      Piles(deck, hand, discard)
    }

    constructor (color: Color, handSize: nat, ai: AI)
      ensures this.color == color && this.handSize == handSize && this.ai == ai
      ensures deck == [] && hand == [] && discard == []
      ensures messagePile == [] && initiativeQueue == []
    {
      this.color := color;
      this.handSize := handSize;
      this.ai := ai;
      deck, hand, discard := [], [], [];
      messagePile, initiativeQueue := [], [];
    }

    /** Pops the whole discard pile onto the deck, then shuffles the deck
        (any permutation: the random generator is not modelled). */
    method ShuffleDeckFromDiscard()
      modifies this
      ensures discard == []
      ensures multiset(deck) == old(multiset(deck) + multiset(discard))
      ensures |deck| == old(|deck| + |discard|)
      ensures hand == old(hand)
      ensures messagePile == old(messagePile) && initiativeQueue == old(initiativeQueue)
    {
      while |discard| != 0
        invariant multiset(deck) + multiset(discard) == old(multiset(deck) + multiset(discard))
        invariant hand == old(hand)
        invariant messagePile == old(messagePile) && initiativeQueue == old(initiativeQueue)
      {
        var top := discard[|discard| - 1];
        assert discard == discard[..|discard| - 1] + [top];
        deck := deck + [top];
        discard := discard[..|discard| - 1];
      }
      var shuffled :| multiset(shuffled) == multiset(deck);
      deck := shuffled;
    }

    /** Pops cards from the deck into the hand until it holds `handSize`
        cards, reshuffling the discard pile into the deck whenever the deck
        runs dry. The source loops forever when the team owns fewer than
        `handSize` cards, hence the precondition. */
    method DrawNewHand()
      requires |deck| + |hand| + |discard| >= handSize
      modifies this
      ensures Cards() == old(Cards())
      ensures |hand| == if old(|hand|) < handSize then handSize else old(|hand|)
      ensures hand[..old(|hand|)] == old(hand)
      // enough cards in the deck: the new cards are its tail, in pop order, and the discard is untouched
      ensures old(|hand| + |deck|) >= handSize ==>
                discard == old(discard) && deck + Reverse(hand[old(|hand|)..]) == old(deck)
      // deck too short: all of it was drawn, then the discard pile was reshuffled into the deck
      ensures old(|hand| + |deck|) < handSize ==>
                discard == [] && hand[..old(|hand| + |deck|)] == old(hand) + Reverse(old(deck))
      ensures messagePile == old(messagePile) && initiativeQueue == old(initiativeQueue)
    {
      ghost var h0, d0 := hand, deck;
      ghost var drawn: seq<Card> := [];
      ghost var shuffled := false;
      while |hand| < handSize
        invariant Cards() == old(Cards())
        invariant |deck| + |hand| + |discard| >= handSize
        invariant Drawing(h0, d0, old(discard), drawn, shuffled)
        invariant drawn == [] || |hand| <= handSize
        invariant messagePile == old(messagePile) && initiativeQueue == old(initiativeQueue)
        decreases 2 * (handSize - |hand|) + (if |deck| == 0 then 1 else 0)
      {
        drawn, shuffled := DrawStep(h0, d0, old(discard), drawn, shuffled);
      }
      assert hand[..|h0|] == h0 && hand[|h0|..] == drawn;
      if shuffled {
        assert hand[..|h0| + |d0|] == h0 + drawn[..|d0|];
      }
    }

    /** The state of a partial draw that started from hand `h0`, deck `d0`
        and discard `x0`, having drawn `drawn` so far. */
    ghost predicate Drawing(h0: seq<Card>, d0: seq<Card>, x0: seq<Card>, drawn: seq<Card>, shuffled: bool)
      reads this
    {
      && hand == h0 + drawn
      && (!shuffled ==> discard == x0 && deck + Reverse(drawn) == d0)
      && (shuffled ==> discard == [] && |h0| + |d0| < handSize)
      && (shuffled ==> |d0| <= |drawn| && drawn[..|d0|] == Reverse(d0))
    }

    /** One iteration of the drawing loop: reshuffle if the deck is empty,
        otherwise move the deck's last card into the hand. */
    method DrawStep(ghost h0: seq<Card>, ghost d0: seq<Card>, ghost x0: seq<Card>, ghost drawn: seq<Card>, ghost shuffled: bool)
      returns (ghost drawn': seq<Card>, ghost shuffled': bool)
      requires |hand| < handSize && |deck| + |hand| + |discard| >= handSize
      requires Drawing(h0, d0, x0, drawn, shuffled)
      modifies this
      ensures Drawing(h0, d0, x0, drawn', shuffled')
      ensures Cards() == old(Cards())
      ensures |deck| + |hand| + |discard| >= handSize
      ensures |hand| <= handSize
      ensures 2 * (handSize - |hand|) + (if |deck| == 0 then 1 else 0)
            < old(2 * (handSize - |hand|) + (if |deck| == 0 then 1 else 0))
      ensures messagePile == old(messagePile) && initiativeQueue == old(initiativeQueue)
    {
      if |deck| == 0 {
        if !shuffled {
          assert Reverse(drawn) == d0;
          ReverseInvolutive(drawn);
        }
        ShuffleDeckFromDiscard();
        drawn', shuffled' := drawn, true;
      } else {
        ghost var before := deck;
        var top := DrawCard();
        if !shuffled {
          PopKeepsDrawOrder(before, drawn, d0);
        } else {
          assert (drawn + [top])[..|d0|] == drawn[..|d0|];
        }
        drawn', shuffled' := drawn + [top], shuffled;
      }
    }

    /** `hand.append(deck.pop())`: the deck's last card moves to the end of
        the hand, and the team still owns the same cards. */
    method DrawCard() returns (top: Card)
      requires deck != []
      modifies this
      ensures old(deck) == deck + [top] && hand == old(hand) + [top]
      ensures Cards() == old(Cards())
      ensures discard == old(discard)
      ensures messagePile == old(messagePile) && initiativeQueue == old(initiativeQueue)
    {
      top := deck[|deck| - 1];
      assert deck == deck[..|deck| - 1] + [top];
      deck := deck[..|deck| - 1];
      hand := hand + [top];
    }

    /** Moving the deck's last card to the end of the drawn cards keeps the
        drawn cards the reversed tail of the original deck. */
    static lemma PopKeepsDrawOrder(deck: seq<Card>, drawn: seq<Card>, d0: seq<Card>)
      requires deck != []
      requires deck + Reverse(drawn) == d0
      ensures deck[..|deck| - 1] + Reverse(drawn + [deck[|deck| - 1]]) == d0
    {
      var top := deck[|deck| - 1];
      var more := drawn + [top];
      assert more[..|more| - 1] == drawn;
      assert Reverse(more) == [top] + Reverse(drawn);
      assert deck == deck[..|deck| - 1] + [top];
    }

    method AddNewCardToDeck(card: Card)
      modifies this
      ensures deck == old(deck) + [card]
      ensures hand == old(hand) && discard == old(discard)
      ensures messagePile == old(messagePile) && initiativeQueue == old(initiativeQueue)
    {
      deck := deck + [card];
    }

    /** Appends `card` to the discard pile, then removes its first occurrence
        from the hand. When the hand lacks the card, Python's `remove` raises
        after the append already happened: `ok` is false and the discard pile
        keeps the extra card. */
    method DiscardCard(card: Card) returns (ok: bool)
      modifies this
      ensures ok == (card in old(hand))
      ensures discard == old(discard) + [card]
      ensures hand == if ok then RemoveFirst(old(hand), card) else old(hand)
      ensures ok ==> Cards() == old(Cards())
      ensures deck == old(deck)
      ensures messagePile == old(messagePile) && initiativeQueue == old(initiativeQueue)
    {
      discard := discard + [card];
      ok := card in hand;
      if ok {
        hand := RemoveFirst(hand, card);
      }
    }

    /** Drops every message the agent sent (one pass keeping the others). */
    method ClearAgentMessagesFromPile(agentId: nat)
      modifies this
      ensures messagePile == WithoutSender(old(messagePile), agentId)
      ensures deck == old(deck) && hand == old(hand) && discard == old(discard)
      ensures initiativeQueue == old(initiativeQueue)
    {
      var kept := [];
      for i := 0 to |messagePile|
        invariant kept == WithoutSender(messagePile[..i], agentId)
      {
        assert messagePile[..i + 1][..i] == messagePile[..i];
        if messagePile[i].senderId != agentId {
          kept := kept + [messagePile[i]];
        }
      }
      assert messagePile[..|messagePile|] == messagePile;
      messagePile := kept;
    }

    /** The "pass": the agent leaves its place in the queue and becomes
        first. Python's `remove` raises when the agent is absent (`ok` false,
        queue untouched). */
    method MoveAgentToFirstInitiative(agent: nat) returns (ok: bool)
      modifies this
      ensures ok == (agent in old(initiativeQueue))
      ensures initiativeQueue == if ok then MoveToFront(old(initiativeQueue), agent) else old(initiativeQueue)
      ensures deck == old(deck) && hand == old(hand) && discard == old(discard)
      ensures messagePile == old(messagePile)
    {
      ok := agent in initiativeQueue;
      if ok {
        initiativeQueue := RemoveFirst(initiativeQueue, agent);
        initiativeQueue := [agent] + initiativeQueue;
      }
    }
  }
}
