/**
 * The card bookkeeping of the battle board (`GameBoard`): the cards placed on
 * the board, the weighted list they are drawn from, and the two skill-card
 * lists (available and used) that pick-up and reset move blueprints between.
 *
 * Every random number the source asks Unity for is a parameter here: the
 * `Random.value` draws of the board fill and the `Random.Range` indices of
 * the skill-card pick-up and of the retry loop for a Normal card.
 */
module Board {
  import opened Wrappers
  import opened CardLists

  /** The detail type of a card; every type other than Normal is `Other`. */
  datatype CardDetailType = Normal | Other(code: nat)

  /** A card blueprint asset: its identity, detail type and draw weight. */
  datatype ItemBlueprintCard = ItemBlueprintCard(id: nat, detailType: CardDetailType, cardWeighted: real)

  /**
   * A card placed on the board, known by the blueprint it was set with;
   * None when the weighted draw fell through to `default`.
   */
  datatype GameBoardCard = GameBoardCard(blueprint: Option<ItemBlueprintCard>)

  /** The card was set with a blueprint of detail type `t`. */
  predicate HasType(card: GameBoardCard, t: CardDetailType) {
    card.blueprint.Some? && card.blueprint.value.detailType == t
  }

  predicate IsNormal(card: GameBoardCard) {
    HasType(card, Normal)
  }

  /** Number of cards of detail type `t`. */
  function CountOfType(cards: seq<GameBoardCard>, t: CardDetailType): nat {
    if cards == [] then 0
    else CountOfType(cards[..|cards| - 1], t) + (if HasType(cards[|cards| - 1], t) then 1 else 0)
  }

  /** The count never exceeds the number of cards. */
  lemma {:induction false} CountOfTypeBound(cards: seq<GameBoardCard>, t: CardDetailType)
    ensures CountOfType(cards, t) <= |cards|
  {
    if cards != [] {
      CountOfTypeBound(cards[..|cards| - 1], t);
    }
  }

  /** The count is zero exactly when no card has the type. */
  lemma {:induction false} CountOfTypeZeroIff(cards: seq<GameBoardCard>, t: CardDetailType)
    ensures CountOfType(cards, t) == 0 <==> forall i :: 0 <= i < |cards| ==> !HasType(cards[i], t)
  {
    if cards != [] {
      var init := cards[..|cards| - 1];
      CountOfTypeZeroIff(init, t);
      assert forall i :: 0 <= i < |init| ==> init[i] == cards[i];
    }
  }

  /** Counting distributes over concatenation. */
  lemma {:induction false} CountOfTypeAppend(a: seq<GameBoardCard>, b: seq<GameBoardCard>, t: CardDetailType)
    ensures CountOfType(a + b, t) == CountOfType(a, t) + CountOfType(b, t)
    decreases |b|
  {
    if b == [] {
      assert a + b == a;
    } else {
      var b' := b[..|b| - 1];
      CountOfTypeAppend(a, b', t);
      assert (a + b)[..|a + b| - 1] == a + b';
    }
  }

  /** Every type's count over `a + b` is its count over `a` plus its count over `b`. */
  lemma CountOfTypeAppendAll(a: seq<GameBoardCard>, b: seq<GameBoardCard>)
    ensures forall t :: CountOfType(a + b, t) == CountOfType(a, t) + CountOfType(b, t)
  {
    forall t {
      CountOfTypeAppend(a, b, t);
    }
  }

  /** Index of the first occurrence of `x` in `s`. */
  function IndexOf<T(==)>(s: seq<T>, x: T): (i: nat)
    requires x in s
    ensures i < |s| && s[i] == x && x !in s[..i]
  {
    if s[0] == x then 0
    else
      var j := IndexOf(s[1..], x);
      assert s[..j + 1] == [s[0]] + s[1..][..j];
      j + 1
  }

  /** `List.Remove`: drops the first occurrence of `x`, if there is one. */
  function RemoveFirst<T(==)>(s: seq<T>, x: T): (r: seq<T>)
    ensures x !in s ==> r == s
    ensures x in s ==> |r| == |s| - 1 && r == s[..IndexOf(s, x)] + s[IndexOf(s, x) + 1..]
    ensures multiset(r) == multiset(s) - multiset{x}
  {
    if x in s then
      var i := IndexOf(s, x);
      assert s == s[..i] + [x] + s[i + 1..];
      s[..i] + s[i + 1..]
    else
      s
  }

  /**
   * Picking up the skill card at `roll` and then resetting that card gives
   * both lists back their former contents (as multisets: the reset card goes
   * to the end of the skill cards, and the used card removed is the first
   * equal one).
   */
  lemma PickUpThenResetRestores(skill: seq<ItemBlueprintCard>, used: seq<ItemBlueprintCard>, roll: nat)
    requires roll < |skill|
    ensures var c := skill[roll];
            && multiset(RemoveFirst(skill, c) + [c]) == multiset(skill)
            && multiset(RemoveFirst(used + [c], c)) == multiset(used)
  {
    var c := skill[roll];
    assert c in skill;
    assert c in used + [c] by { assert (used + [c])[|used|] == c; }
  }

  /** The entries `ProbabilityList` adds: each blueprint with its own weight. */
  function WeightedEntries(blueprints: seq<ItemBlueprintCard>): (r: seq<CardList<ItemBlueprintCard>>)
    ensures |r| == |blueprints|
    ensures forall i :: 0 <= i < |r| ==> r[i] == CardList(blueprints[i], blueprints[i].cardWeighted)
  {
    if blueprints == [] then []
    else WeightedEntries(blueprints[..|blueprints| - 1])
         + [CardList(blueprints[|blueprints| - 1], blueprints[|blueprints| - 1].cardWeighted)]
  }

  /** The card placed for one uniform draw `value`: `card.Set(this, GameBoardCards.Get())`. */
  function DrawnCard(es: seq<CardList<ItemBlueprintCard>>, value: real): GameBoardCard {
    GameBoardCard(Draw(es, ScaledPick(es, value)))
  }

  /** The cards the board fill places for the uniform draws `values`, in order. */
  function DrawnCards(es: seq<CardList<ItemBlueprintCard>>, values: seq<real>): (r: seq<GameBoardCard>)
    ensures |r| == |values|
    ensures forall k :: 0 <= k < |r| ==> r[k] == DrawnCard(es, values[k])
  {
    if values == [] then []
    else DrawnCards(es, values[..|values| - 1]) + [DrawnCard(es, values[|values| - 1])]
  }

  /** `y` full rows of `r` cards followed by one more row still fit in `c` rows. */
  lemma RowStep(y: nat, r: nat, c: nat)
    requires y < c
    ensures (y + 1) * r == y * r + r
    ensures y * r + r <= c * r
  {
  }

  /**
   * A card drawn from the list `ProbabilityList` builds carries one of the
   * configured blueprints, or none at all.
   */
  lemma DrawnBlueprintIsConfigured(blueprints: seq<ItemBlueprintCard>, pick: real)
    ensures Draw(WeightedEntries(blueprints), pick).Some? ==> Draw(WeightedEntries(blueprints), pick).value in blueprints
  {
    var es := WeightedEntries(blueprints);
    var r := Draw(es, pick);
    if r.Some? {
      var i :| 0 <= i < |es| && es[i].target == r.value;
      assert blueprints[i] == r.value;
    }
  }

  /**
   * With non-negative weights and a positive total, every card the board
   * fill places for a draw value below 1.0 carries a blueprint of the list.
   */
  lemma DrawnCardsHaveBlueprints(es: seq<CardList<ItemBlueprintCard>>, values: seq<real>)
    requires NonNegative(es) && TotalWeight(es) > 0.0
    requires forall k :: 0 <= k < |values| ==> 0.0 <= values[k] < 1.0
    ensures forall k :: 0 <= k < |values| ==> DrawnCards(es, values)[k].blueprint.Some?
  {
    forall k | 0 <= k < |values| ensures DrawnCards(es, values)[k].blueprint.Some? {
      GetDefaultIff(es, values[k]);
    }
  }

  /** The outcome of `RandomCardFromNormal`. */
  datatype NormalPick =
    | Found(card: GameBoardCard)   // a Normal card of the board
    | NoNormalCard                 // the source returns null
    | RetriesExhausted             // the supplied indices ran out before one hit a Normal card

  class GameBoard {
    const rowCount: nat
    const columnCount: nat
    /** The configured blueprints of the board's cards. */
    const cards: seq<ItemBlueprintCard>
    const gameBoardCards: GameBoardCardList<ItemBlueprintCard>

    var skillCards: seq<ItemBlueprintCard>
    var usedSkillCards: seq<ItemBlueprintCard>
    var Cards: seq<GameBoardCard>

    /** Set-up as in `Awake`: the weighted list is built from `cards`. */
    constructor (rowCount: nat, columnCount: nat, cards: seq<ItemBlueprintCard>,
                 skillCards: seq<ItemBlueprintCard>, usedSkillCards: seq<ItemBlueprintCard>)
      ensures this.rowCount == rowCount && this.columnCount == columnCount && this.cards == cards
      ensures this.skillCards == skillCards && this.usedSkillCards == usedSkillCards
      ensures Cards == []
      ensures fresh(gameBoardCards)
      ensures gameBoardCards.elementList == WeightedEntries(cards)
    {
      this.rowCount := rowCount;
      this.columnCount := columnCount;
      this.cards := cards;
      this.skillCards := skillCards;
      this.usedSkillCards := usedSkillCards;
      this.Cards := [];
      this.gameBoardCards := new GameBoardCardList();
      new;
      ProbabilityList();
    }

    /** Adds every configured blueprint to the weighted list with its own weight. */
    method ProbabilityList()
      modifies gameBoardCards
      ensures gameBoardCards.elementList == old(gameBoardCards.elementList) + WeightedEntries(cards)
    {
      var i := 0;
      while i < |cards|
        invariant 0 <= i <= |cards|
        invariant gameBoardCards.elementList == old(gameBoardCards.elementList) + WeightedEntries(cards[..i])
      {
        var card := cards[i];
        gameBoardCards.Add(card, card.cardWeighted);
        assert cards[..i + 1][..i] == cards[..i];
        i := i + 1;
      }
      assert cards[..i] == cards;
    }

    /**
     * Fills the board. When a player exists (`deck` is Some) its deck is
     * appended to the skill cards first, in deck order. Then one card per
     * draw value is appended, column by column and row by row, with the
     * blueprint the weighted list draws for it: `rowCount * columnCount`
     * cards in all.
     */
    method SetBoard(deck: Option<seq<ItemBlueprintCard>>, values: seq<real>)
      requires |values| == rowCount * columnCount
      modifies this`skillCards, this`Cards
      ensures skillCards == old(skillCards) + (if deck.Some? then deck.value else [])
      ensures Cards == old(Cards) + DrawnCards(gameBoardCards.elementList, values)
      ensures |Cards| == |old(Cards)| + rowCount * columnCount
      ensures forall t :: CountOfType(Cards, t)
                          == CountOfType(old(Cards), t) + CountOfType(DrawnCards(gameBoardCards.elementList, values), t)
    {
      if deck.Some? {
        var i := 0;
        while i < |deck.value|
          invariant 0 <= i <= |deck.value|
          invariant skillCards == old(skillCards) + deck.value[..i]
          invariant Cards == old(Cards)
        {
          skillCards := skillCards + [deck.value[i]];
          assert deck.value[..i + 1] == deck.value[..i] + [deck.value[i]];
          i := i + 1;
        }
        assert deck.value[..i] == deck.value;
      }

      ghost var es := gameBoardCards.elementList;
      ghost var filled := skillCards;
      var draw := 0;
      var y := 0;
      while y < columnCount
        invariant 0 <= y <= columnCount
        invariant draw == y * rowCount <= |values|
        invariant skillCards == filled && gameBoardCards.elementList == es
        invariant Cards == old(Cards) + DrawnCards(es, values[..draw])
      {
        RowStep(y, rowCount, columnCount);
        var x := 0;
        while x < rowCount
          invariant 0 <= x <= rowCount
          invariant draw == y * rowCount + x
          invariant skillCards == filled && gameBoardCards.elementList == es
          invariant Cards == old(Cards) + DrawnCards(es, values[..draw])
        {
          var blueprint := gameBoardCards.Get(values[draw]);
          assert GameBoardCard(blueprint) == DrawnCard(es, values[draw]);
          Cards := Cards + [GameBoardCard(blueprint)];
          assert values[..draw + 1][..draw] == values[..draw];
          draw := draw + 1;
          x := x + 1;
        }
        y := y + 1;
      }
      assert draw == columnCount * rowCount == |values|;
      assert values[..draw] == values;
      CountOfTypeAppendAll(old(Cards), DrawnCards(es, values));
    }

    /**
     * Draws indices (`rolls`, each from `Random.Range(0, Cards.Count)`) until
     * one names a Normal card, and returns that card; null when the board
     * holds no Normal card at all.
     */
    method RandomCardFromNormal(rolls: seq<nat>) returns (r: NormalPick)
      requires forall k :: 0 <= k < |rolls| ==> rolls[k] < |Cards|
      ensures r == NoNormalCard <==> forall i :: 0 <= i < |Cards| ==> !IsNormal(Cards[i])
      ensures r.Found? ==> IsNormal(r.card) && r.card in Cards
      ensures r.Found? ==> exists k :: 0 <= k < |rolls| && r.card == Cards[rolls[k]]
                                      && forall j :: 0 <= j < k ==> !IsNormal(Cards[rolls[j]])
      ensures r == RetriesExhausted <==>
              (exists i :: 0 <= i < |Cards| && IsNormal(Cards[i]))
              && forall k :: 0 <= k < |rolls| ==> !IsNormal(Cards[rolls[k]])
    {
      var allNotNormal := AllCardsIsNotNormal();
      if allNotNormal {
        return NoNormalCard;
      }

      var k := 0;
      while k < |rolls|
        invariant 0 <= k <= |rolls|
        invariant forall j :: 0 <= j < k ==> !IsNormal(Cards[rolls[j]])
      {
        var randomCard := Cards[rolls[k]];
        if randomCard.blueprint.Some? && randomCard.blueprint.value.detailType == Normal {
          return Found(randomCard);
        }
        k := k + 1;
      }
      return RetriesExhausted;
    }

    /**
     * Takes the skill card at index `roll` (from `Random.Range(0, Count)`),
     * removes its first occurrence from the skill cards and appends it to the
     * used skill cards. Blueprints only move between the two lists.
     */
    method SkillCardRandomPickUp(roll: nat) returns (randomSkillCard: ItemBlueprintCard)
      requires roll < |skillCards|
      modifies this`skillCards, this`usedSkillCards
      ensures randomSkillCard == old(skillCards)[roll]
      ensures skillCards == RemoveFirst(old(skillCards), randomSkillCard)
      ensures usedSkillCards == old(usedSkillCards) + [randomSkillCard]
      ensures |skillCards| == |old(skillCards)| - 1
      ensures multiset(skillCards) + multiset(usedSkillCards)
              == old(multiset(skillCards) + multiset(usedSkillCards))
    {
      randomSkillCard := skillCards[roll];
      skillCards := RemoveFirst(skillCards, randomSkillCard);
      usedSkillCards := usedSkillCards + [randomSkillCard];
    }

    /**
     * Removes the first occurrence of `data` from the used skill cards (if
     * any) and appends `data` to the skill cards, whether or not it was used.
     */
    method SkillCardReset(data: ItemBlueprintCard)
      modifies this`skillCards, this`usedSkillCards
      ensures usedSkillCards == RemoveFirst(old(usedSkillCards), data)
      ensures skillCards == old(skillCards) + [data]
      ensures data in old(usedSkillCards) ==>
              multiset(skillCards) + multiset(usedSkillCards)
              == old(multiset(skillCards) + multiset(usedSkillCards))
      ensures data !in old(usedSkillCards) ==>
              multiset(skillCards) + multiset(usedSkillCards)
              == old(multiset(skillCards) + multiset(usedSkillCards)) + multiset{data}
    {
      usedSkillCards := RemoveFirst(usedSkillCards, data);
      skillCards := skillCards + [data];
    }

    /** Counts the cards of detail type `cardDetailType`. */
    method ObstacleCardsCount(cardDetailType: CardDetailType) returns (count: nat)
      ensures count == CountOfType(Cards, cardDetailType)
      ensures count <= |Cards|
    {
      count := 0;
      var i := 0;
      while i < |Cards|
        invariant 0 <= i <= |Cards|
        invariant count == CountOfType(Cards[..i], cardDetailType)
      {
        var card := Cards[i];
        if card.blueprint.Some? && card.blueprint.value.detailType == cardDetailType {
          count := count + 1;
        }
        assert Cards[..i + 1][..i] == Cards[..i];
        i := i + 1;
      }
      assert Cards[..i] == Cards;
      CountOfTypeBound(Cards, cardDetailType);
    }

    /** True iff no skill card is available. */
    function IsSkillCardEmpty(): (r: bool)
      reads this
      ensures r <==> skillCards == []
    {
      |skillCards| == 0
    }

    /** True iff no card on the board is a Normal card. */
    method AllCardsIsNotNormal() returns (r: bool)
      ensures r <==> forall i :: 0 <= i < |Cards| ==> !IsNormal(Cards[i])
      ensures r <==> CountOfType(Cards, Normal) == 0
    {
      var i := 0;
      while i < |Cards|
        invariant 0 <= i <= |Cards|
        invariant forall j :: 0 <= j < i ==> !IsNormal(Cards[j])
      {
        var card := Cards[i];
        if card.blueprint.Some? && card.blueprint.value.detailType == Normal {
          CountOfTypeZeroIff(Cards, Normal);
          return false;
        }
        i := i + 1;
      }
      CountOfTypeZeroIff(Cards, Normal);
      return true;
    }
  }
}
