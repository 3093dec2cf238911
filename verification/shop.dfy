/**
 * The in-memory save record and the body-style shop. A click on a style
 * selects it when it is unlocked (or free); otherwise it buys it when the
 * banked coins cover the price, and does nothing when they do not.
 */
module Shop {

  datatype Style = Hatch | Coupe | Truck | Super

  function Price(s: Style): (p: nat)
    ensures p == 0 <==> s == Hatch
  {
    match s
    case Hatch => 0
    case Coupe => 120
    case Truck => 220
    case Super => 400
  }

  /** What a click on a style did; the game shows it as a toast. */
  datatype StyleClick = Selected | Unlocked | NotEnoughCoins

  /** The style a click buys or selects, and what it costs: the pure
      transaction behind `Save.ClickStyle`. */
  function Purchase(coinsTotal: int, unlocked: set<Style>, s: Style): (r: (StyleClick, int, set<Style>))
    ensures r.0 == Selected <==> s in unlocked || Price(s) == 0
    ensures r.0 == Unlocked <==> s !in unlocked && Price(s) != 0 && coinsTotal >= Price(s)
    ensures r.0 == Unlocked ==> r.1 == coinsTotal - Price(s) && 0 <= r.1 && r.2 == unlocked + {s}
    ensures r.0 != Unlocked ==> r.1 == coinsTotal && r.2 == unlocked
    ensures r.1 <= coinsTotal && unlocked <= r.2
    ensures 0 <= coinsTotal ==> 0 <= r.1
  {
    if s in unlocked || Price(s) == 0 then (Selected, coinsTotal, unlocked)
    else if coinsTotal >= Price(s) then (Unlocked, coinsTotal - Price(s), unlocked + {s})
    else (NotEnoughCoins, coinsTotal, unlocked)
  }

  /** The persisted profile, kept in memory: banked coins, the selected
      body style and the set of unlocked styles. Colour and wheel choices
      are not part of this model. */
  class Save {
    var coinsTotal: int
    var selectedStyle: Style
    var unlockedStyles: set<Style>

    ghost predicate Valid()
      reads this
    {
      0 <= coinsTotal && Hatch in unlockedStyles
    }

    /** The defaults used when nothing was stored. */
    constructor ()
      ensures Valid()
      ensures coinsTotal == 0 && selectedStyle == Hatch && unlockedStyles == {Hatch}
    {
      coinsTotal := 0;
      selectedStyle := Hatch;
      unlockedStyles := {Hatch};
    }

    /** `save.coinsTotal += game.runCoins`. */
    method Bank(n: nat)
      requires Valid()
      modifies this
      ensures Valid()
      ensures coinsTotal == old(coinsTotal) + n
      ensures selectedStyle == old(selectedStyle) && unlockedStyles == old(unlockedStyles)
    {
      coinsTotal := coinsTotal + n;
    }

    /** Marks every free style unlocked, as the shop does each time it is
        rebuilt and as start-up does. */
    method UnlockFreeStyles()
      modifies this
      ensures unlockedStyles == old(unlockedStyles) + {Hatch}
      ensures Hatch in unlockedStyles
      ensures coinsTotal == old(coinsTotal) && selectedStyle == old(selectedStyle)
    {
      unlockedStyles := unlockedStyles + {Hatch};
    }

    /** The click handler of one style's shop entry. */
    method ClickStyle(s: Style) returns (outcome: StyleClick)
      requires Valid()
      modifies this
      ensures Valid()
      ensures (outcome, coinsTotal, unlockedStyles) == Purchase(old(coinsTotal), old(unlockedStyles), s)
      ensures outcome != NotEnoughCoins ==> selectedStyle == s
      ensures outcome == NotEnoughCoins ==> selectedStyle == old(selectedStyle)
    {
      var unlocked := s in unlockedStyles || Price(s) == 0;
      if unlocked {
        selectedStyle := s;
        return Selected;
      }
      if coinsTotal >= Price(s) {
        coinsTotal := coinsTotal - Price(s);
        unlockedStyles := unlockedStyles + {s};
        selectedStyle := s;
        outcome := Unlocked;
      } else {
        outcome := NotEnoughCoins;
      }
    }
  }
}
