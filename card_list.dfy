/**
 * The weighted draw list of the battle board (`GameBoardCardList<T>`): an
 * append-only list of (target, weight) entries from which `Get` picks one
 * entry by cumulative weight.
 *
 * Weights are exact reals (the source uses `float`); the uniform draw
 * `Random.value`, which Unity takes from [0, 1] with both ends included, is
 * a parameter of `Get`.
 */
module CardLists {
  import opened Wrappers

  /** One entry of the list: the target and its weight ("probability"). */
  datatype CardList<T> = CardList(target: T, probability: real)

  /** Sum of the weights of the first `n` entries. */
  function PrefixWeight<T>(es: seq<CardList<T>>, n: nat): real
    requires n <= |es|
  {
    if n == 0 then 0.0 else PrefixWeight(es, n - 1) + es[n - 1].probability
  }

  /** Sum of the weights of the entries up to and including entry `i`. */
  function Cumulative<T>(es: seq<CardList<T>>, i: nat): real
    requires i < |es|
  {
    PrefixWeight(es, i + 1)
  }

  /** Sum of all weights: the `totalProbability` of `Get`. */
  function TotalWeight<T>(es: seq<CardList<T>>): real {
    PrefixWeight(es, |es|)
  }

  /** The pick of `Get`: the uniform draw `value` scaled by the total weight. */
  function ScaledPick<T>(es: seq<CardList<T>>, value: real): real {
    value * TotalWeight(es)
  }

  ghost predicate NonNegative<T>(es: seq<CardList<T>>) {
    forall i :: 0 <= i < |es| ==> es[i].probability >= 0.0
  }

  /**
   * The index `Get` settles on when it starts at entry `k`: the first entry
   * from `k` on whose cumulative weight exceeds `pick`, if any.
   */
  function FirstCoverFrom<T>(es: seq<CardList<T>>, pick: real, k: nat): (r: Option<nat>)
    requires k <= |es|
    ensures r.Some? ==> k <= r.value < |es|
    decreases |es| - k
  {
    if k == |es| then None
    else if pick < Cumulative(es, k) then Some(k)
    else FirstCoverFrom(es, pick, k + 1)
  }

  /** The index of the entry chosen for `pick`, or None for `default`. */
  function Choose<T>(es: seq<CardList<T>>, pick: real): Option<nat> {
    FirstCoverFrom(es, pick, 0)
  }

  /** The target chosen for `pick`; None is the `default` of the source. */
  function Draw<T>(es: seq<CardList<T>>, pick: real): (r: Option<T>)
    ensures r.Some? ==> exists i :: 0 <= i < |es| && es[i].target == r.value
  {
    match Choose(es, pick)
    case Some(i) => Some(es[i].target)
    case None => None
  }

  /** Entry `i` is the first one whose cumulative weight exceeds `pick`. */
  ghost predicate IsFirstCover<T>(es: seq<CardList<T>>, pick: real, i: nat) {
    && i < |es|
    && pick < Cumulative(es, i)
    && forall j :: 0 <= j < i ==> Cumulative(es, j) <= pick
  }

  /** No entry's cumulative weight exceeds `pick`. */
  ghost predicate NoCover<T>(es: seq<CardList<T>>, pick: real) {
    forall j :: 0 <= j < |es| ==> Cumulative(es, j) <= pick
  }

  lemma {:induction false} FirstCoverFromSpec<T>(es: seq<CardList<T>>, pick: real, k: nat)
    requires k <= |es|
    requires forall j :: 0 <= j < k ==> Cumulative(es, j) <= pick
    ensures FirstCoverFrom(es, pick, k).Some? ==> IsFirstCover(es, pick, FirstCoverFrom(es, pick, k).value)
    ensures FirstCoverFrom(es, pick, k).None? ==> NoCover(es, pick)
    decreases |es| - k
  {
    if k < |es| && !(pick < Cumulative(es, k)) {
      FirstCoverFromSpec(es, pick, k + 1);
    }
  }

  /**
   * Whatever the weights, `Get` settles on exactly the first entry whose
   * cumulative weight exceeds the pick, and on `default` exactly when there
   * is none.
   */
  lemma ChooseIsFirstCover<T>(es: seq<CardList<T>>, pick: real, i: nat)
    ensures Choose(es, pick) == Some(i) <==> IsFirstCover(es, pick, i)
    ensures Choose(es, pick) == None <==> NoCover(es, pick)
  {
    FirstCoverFromSpec(es, pick, 0);
  }

  /** With non-negative weights the cumulative weights never decrease. */
  lemma {:induction false} CumulativeMonotone<T>(es: seq<CardList<T>>, i: nat, j: nat)
    requires NonNegative(es)
    requires i <= j < |es|
    ensures Cumulative(es, i) <= Cumulative(es, j)
    decreases j - i
  {
    if i < j {
      CumulativeMonotone(es, i, j - 1);
      assert Cumulative(es, j) == Cumulative(es, j - 1) + es[j].probability;
    }
  }

  /** With non-negative weights the total is non-negative. */
  lemma {:induction false} TotalNonNegative<T>(es: seq<CardList<T>>)
    requires NonNegative(es)
    ensures TotalWeight(es) >= 0.0
  {
    if |es| > 0 {
      CumulativeMonotone(es, 0, |es| - 1);
      assert Cumulative(es, 0) == PrefixWeight(es, 0) + es[0].probability;
      assert TotalWeight(es) == Cumulative(es, |es| - 1);
    }
  }

  /**
   * For non-negative weights and a non-negative pick, `Get` returns
   * `default` exactly when the pick reaches the total weight. This covers
   * the empty list and the all-zero list.
   */
  lemma DrawDefaultIff<T>(es: seq<CardList<T>>, pick: real)
    requires NonNegative(es)
    requires pick >= 0.0
    ensures Draw(es, pick).None? <==> pick >= TotalWeight(es)
  {
    ChooseIsFirstCover(es, pick, 0);
    if |es| > 0 {
      var last := |es| - 1;
      assert TotalWeight(es) == Cumulative(es, last);
      if pick >= TotalWeight(es) {
        forall j | 0 <= j < |es| ensures Cumulative(es, j) <= pick {
          CumulativeMonotone(es, j, last);
        }
      } else {
        assert !NoCover(es, pick) by { assert pick < Cumulative(es, last); }
      }
    }
  }

  /** An entry of weight zero is never returned for a non-negative pick. */
  lemma DrawSkipsZeroWeight<T>(es: seq<CardList<T>>, pick: real, i: nat)
    requires pick >= 0.0
    requires Choose(es, pick) == Some(i)
    ensures es[i].probability > 0.0
  {
    ChooseIsFirstCover(es, pick, i);
    assert Cumulative(es, i) == PrefixWeight(es, i) + es[i].probability;
    if i > 0 {
      assert Cumulative(es, i - 1) <= pick;
    }
  }

  /**
   * `Get` draws the pick as `Random.value * total` with `Random.value` in
   * [0, 1]. For non-negative weights the draw falls through to `default`
   * exactly when the total is zero or the value is exactly 1.0, the upper
   * end that Unity includes.
   */
  lemma GetDefaultIff<T>(es: seq<CardList<T>>, value: real)
    requires NonNegative(es)
    requires 0.0 <= value <= 1.0
    ensures Draw(es, ScaledPick(es, value)).None? <==> (value == 1.0 || TotalWeight(es) == 0.0)
  {
    var total := TotalWeight(es);
    TotalNonNegative(es);
    var pick := ScaledPick(es, value);
    assert pick == value * total;
    ScaleReachesTotal(value, total);
    DrawDefaultIff(es, pick);
  }

  /** A value in [0, 1] scales a non-negative total up to the total only at 1.0. */
  lemma ScaleReachesTotal(value: real, total: real)
    requires 0.0 <= value <= 1.0 && total >= 0.0
    ensures value * total >= 0.0
    ensures value * total >= total <==> (value == 1.0 || total == 0.0)
  {
    if value < 1.0 && total > 0.0 {
      assert (1.0 - value) * total > 0.0;
    }
  }

  /** The weighted draw list; `elementList` is its only state. */
  class GameBoardCardList<T> {
    var elementList: seq<CardList<T>>

    constructor ()
      ensures elementList == []
    {
      elementList := [];
    }

    /** True iff no entry has been added. */
    function IsEmpty(): (r: bool)
      reads this
      ensures r <==> elementList == []
    {
      |elementList| <= 0
    }

    /** Appends one entry; earlier entries are unchanged. */
    method Add(target: T, probability: real)
      modifies this
      ensures elementList == old(elementList) + [CardList(target, probability)]
    {
      elementList := elementList + [CardList(target, probability)];
    }

    /**
     * Sums the weights, scales the uniform `value` by the total, and walks
     * the entries subtracting each weight from the pick until one weight
     * exceeds what is left. The list is not modified.
     */
    method Get(value: real) returns (r: Option<T>)
      ensures r == Draw(elementList, ScaledPick(elementList, value))
    {
      var totalProbability := 0.0;
      var i := 0;
      while i < |elementList|
        invariant 0 <= i <= |elementList|
        invariant totalProbability == PrefixWeight(elementList, i)
      {
        totalProbability := totalProbability + elementList[i].probability;
        i := i + 1;
      }

      assert totalProbability == TotalWeight(elementList);
      var pick := value * totalProbability;
      ghost var pick0 := pick;
      assert pick0 == ScaledPick(elementList, value);
      i := 0;
      while i < |elementList|
        invariant 0 <= i <= |elementList|
        invariant pick == pick0 - PrefixWeight(elementList, i)
        invariant Choose(elementList, pick0) == FirstCoverFrom(elementList, pick0, i)
      {
        if pick < elementList[i].probability {
          assert Cumulative(elementList, i) == PrefixWeight(elementList, i) + elementList[i].probability;
          assert FirstCoverFrom(elementList, pick0, i) == Some(i);
          assert Draw(elementList, pick0) == Some(elementList[i].target);
          return Some(elementList[i].target);
        } else {
          pick := pick - elementList[i].probability;
        }
        i := i + 1;
      }

      return None;
    }
  }
}
