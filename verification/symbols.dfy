/**
 The fixed symbol catalogue of the machine: six symbols, each with a sampling
 weight and the multipliers paid for three and for two of a kind, plus the
 jackpot seed and the three-reel draw.
 */
module Symbols {

  /** One entry of the catalogue; the constructor stands for the icon. */
  datatype Symbol = Cherry | Lemon | Bell | Clover | Diamond | Seven {

    /** Relative sampling frequency of the symbol. */
    function Weight(): nat {
      match this
      case Cherry => 120
      case Lemon => 120
      case Bell => 90
      case Clover => 60
      case Diamond => 30
      case Seven => 9
    }

    /** Multiplier of the bet paid for three of this symbol. */
    function Payout3(): nat {
      match this
      case Cherry => 5
      case Lemon => 5
      case Bell => 8
      case Clover => 12
      case Diamond => 20
      case Seven => 2000
    }

    /** Multiplier of the bet paid for two of this symbol; 0 means no pair payout. */
    function Payout2(): nat {
      match this
      case Cherry => 0
      case Lemon => 0
      case Bell => 1
      case Clover => 2
      case Diamond => 8
      case Seven => 80
    }
  }

  /** The catalogue in table order. */
  const SYMBOLS: seq<Symbol> := [Cherry, Lemon, Bell, Clover, Diamond, Seven]

  /** The symbol whose triple wins the progressive jackpot. */
  const JACKPOT_SYMBOL: Symbol := Seven

  /** The value the progressive jackpot starts from and is reset to. */
  const JACKPOT_SEED: real := 1262132.28

  /** What the three reels show: the outcome of a spin, or one animation frame. */
  datatype Draw = Draw(a: Symbol, b: Symbol, c: Symbol) {

    /** How many of the three reels show `s`. */
    function Count(s: Symbol): nat {
      (if a == s then 1 else 0) + (if b == s then 1 else 0) + (if c == s then 1 else 0)
    }

    /** All three reels show the jackpot symbol. */
    predicate IsJackpot() {
      a == JACKPOT_SYMBOL && b == JACKPOT_SYMBOL && c == JACKPOT_SYMBOL
    }
  }

  /** The catalogue lists every symbol exactly once, with a positive weight
      and a positive three-of-a-kind multiplier. */
  lemma CatalogueWellFormed(s: Symbol)
    ensures multiset(SYMBOLS)[s] == 1
    ensures s.Weight() > 0 && s.Payout3() > 0
  {
  }
}
