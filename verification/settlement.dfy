/**
 Settlement of one draw against a bet and the current jackpot. The rules are
 tried in priority order: three jackpot symbols win the whole jackpot, any
 other triple pays `payout3`, a pair pays `payout2`, anything else loses the bet.
 */
module Settlement {
  import opened Wrappers
  import opened Symbols

  /** The result text, as a tag carrying what the formatted message shows. */
  datatype Label =
    | YouLost
    | JackpotWon(amount: real)
    | Triple(symbol: Symbol, mult: nat)
    | Two(symbol: Symbol, mult: nat)

  /** `mult` is `None` where the component returns `null`. */
  datatype Outcome = Outcome(delta: real, text: Label, mult: Option<nat>, jackpotHit: bool)

  /** Some two reels agree. */
  predicate HasMatch(d: Draw) {
    d.a == d.b || d.b == d.c || d.a == d.c
  }

  /** The symbol a two-of-a-kind pays on, chosen as the component does: pair
      (a, b) first, then (b, c), then (a, c). The fourth arm of the source's
      conditional cannot be reached once some pair matches. */
  function MatchedSymbol(d: Draw): (s: Symbol)
    requires HasMatch(d)
    ensures d.Count(s) >= 2
    ensures forall t: Symbol :: d.Count(t) >= 2 ==> t == s
  {
    if d.a == d.b then d.a
    else if d.b == d.c then d.b
    else if d.a == d.c then d.a
    else assert false; d.b
  }

  /** Settles `d` for a stake of `bet` while the jackpot stands at `currentJackpot`. */
  function Settle(d: Draw, bet: real, currentJackpot: real): (r: Outcome)
    // The jackpot rule comes first and ignores the bet.
    ensures r.jackpotHit <==> d.IsJackpot()
    ensures d.IsJackpot() ==>
              r == Outcome(currentJackpot, JackpotWon(currentJackpot), None, true)
    // A triple of any other symbol pays its three-of-a-kind multiplier.
    ensures forall s: Symbol :: s != JACKPOT_SYMBOL && d.Count(s) == 3 ==>
              r == Outcome(bet * s.Payout3() as real, Triple(s, s.Payout3()), Some(s.Payout3()), false)
    // A pair pays its two-of-a-kind multiplier; a multiplier of 0 loses the bet.
    ensures forall s: Symbol :: d.Count(s) == 2 ==>
              && r.mult == Some(s.Payout2())
              && r.text == Two(s, s.Payout2())
              && r.delta == (if s.Payout2() > 0 then bet * s.Payout2() as real else -bet)
              && !r.jackpotHit
    // Three different symbols lose the bet.
    ensures (forall s: Symbol :: d.Count(s) <= 1) ==> r == Outcome(-bet, YouLost, Some(0), false)
  {
    if d.IsJackpot() then
      assert d.Count(JACKPOT_SYMBOL) == 3;
      Outcome(currentJackpot, JackpotWon(currentJackpot), None, true)
    else
      var (mult, text) :=
        if d.a == d.b && d.b == d.c then (d.a.Payout3(), Triple(d.a, d.a.Payout3()))
        else if HasMatch(d) then
          var m := MatchedSymbol(d); (m.Payout2(), Two(m, m.Payout2()))
        else (0, YouLost);
      Outcome(if mult > 0 then bet * mult as real else -bet, text, Some(mult), false)
  }

  /** For a positive bet and a positive jackpot, a spin either loses exactly
      the bet or gains a strictly positive amount, and it loses exactly when
      it neither hits the jackpot nor pays a positive multiplier. */
  lemma DeltaSign(d: Draw, bet: real, currentJackpot: real)
    requires bet > 0.0 && currentJackpot > 0.0
    ensures Settle(d, bet, currentJackpot).delta == -bet || Settle(d, bet, currentJackpot).delta > 0.0
    ensures Settle(d, bet, currentJackpot).delta < 0.0 <==>
              !d.IsJackpot() && Settle(d, bet, currentJackpot).mult.value == 0
  {
    var r := Settle(d, bet, currentJackpot);
    if !d.IsJackpot() {
      var m := r.mult.value;
      assert m > 0 ==> bet * m as real > 0.0;
    }
  }

  /** Worked examples of the paytable: a Diamond triple pays 20 times the bet,
      a Clover pair twice the bet, a Cherry pair nothing, three different
      symbols lose the bet, and the jackpot pays the same for any bet. */
  lemma PaytableExamples(j: real)
    ensures Settle(Draw(Diamond, Diamond, Diamond), 10.0, j).delta == 200.0
    ensures Settle(Draw(Clover, Clover, Lemon), 10.0, j).delta == 20.0
    ensures Settle(Draw(Cherry, Bell, Cherry), 10.0, j) == Outcome(-10.0, Two(Cherry, 0), Some(0), false)
    ensures Settle(Draw(Cherry, Bell, Clover), 10.0, j).delta == -10.0
    ensures Settle(Draw(Seven, Seven, Seven), 1.0, j) == Settle(Draw(Seven, Seven, Seven), 1000.0, j)
    ensures Settle(Draw(Seven, Seven, Diamond), 10.0, j).delta == 800.0
  {
  }
}
