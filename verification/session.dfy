/**
 The session state of the machine and the user's intents on it: a spin, a
 bet entry and a reset. A spin runs as one step: its guard, the frames it
 shows, its settlement and the updates of balance, jackpot and result.
 */
module Session {
  import opened Wrappers
  import opened Symbols
  import opened Bag
  import opened Settlement
  import opened Animation

  const START_BALANCE: real := 100.0
  const START_BET: real := 5.0

  datatype Kind = Win | Lose | Warn

  /** Text of the result line: a settlement label, or the bet warning. */
  datatype Message = Settled(settled: Label) | BetExceedsBalance

  /** The result line shown under the reels. */
  datatype Report = Report(kind: Kind, amount: real, message: Message, mult: Option<nat>)

  /** The report of a spin refused because the bet is above the balance. */
  const WARN_REPORT: Report := Report(Warn, 0.0, BetExceedsBalance, None)

  datatype Machine = Machine(
    balance: real,
    bet: real,
    reels: Draw,
    busy: bool,
    lastResult: Option<Report>,
    jackpot: real)

  /** The state when the machine is first shown. */
  const INITIAL: Machine :=
    Machine(START_BALANCE, START_BET, Draw(Cherry, Lemon, Bell), false, None, JACKPOT_SEED)

  /** What holds between user intents: no spin is in flight, the balance is
      not negative and the jackpot has not fallen below its seed. */
  predicate Valid(m: Machine) {
    !m.busy && m.balance >= 0.0 && m.jackpot >= JACKPOT_SEED
  }

  /** Every `Math.random()` result one spin consumes, in [0, 1): the outcome,
      one triple per frame of the wall-clock-bounded generic phase, the lock
      frame's and the tease steps' third reel, and the jackpot growth factor. */
  datatype Rolls = Rolls(final: Uniforms, generic: seq<Uniforms>, lock: real, tease: seq<real>, growth: real) {
    predicate Valid() {
      && final.Valid()
      && |generic| >= 1
      && (forall k :: 0 <= k < |generic| ==> generic[k].Valid())
      && 0.0 <= lock < 1.0
      && |tease| == TEASE_STEPS
      && (forall i :: 0 <= i < |tease| ==> 0.0 <= tease[i] < 1.0)
      && 0.0 <= growth < 1.0
    }
  }

  /** A spin's effect: the new state, the frames shown, and the two sound cues. */
  datatype SpinResult = SpinResult(machine: Machine, steps: seq<Step>, spinCue: bool, celebrateCue: bool)

  function Max(x: real, y: real): real {
    if x >= y then x else y
  }

  function Abs(x: real): real {
    if x >= 0.0 then x else -x
  }

  /** The jackpot after a settled spin: back to the seed on a hit, otherwise
      grown by `bet * (0.1 + 0.4 u)`, a fraction in [0.1, 0.5) of the bet. */
  function NextJackpot(jackpot: real, bet: real, hit: bool, u: real): (j: real)
    requires 0.0 <= u < 1.0
    ensures hit ==> j == JACKPOT_SEED
    ensures !hit && bet >= 0.0 ==> jackpot + 0.1 * bet <= j <= jackpot + 0.5 * bet
    ensures !hit && bet > 0.0 ==> j < jackpot + 0.5 * bet
  {
    if hit then JACKPOT_SEED
    else
      var f := u * 0.4 + 0.1;
      assert bet >= 0.0 ==> bet * 0.1 <= bet * f <= bet * 0.5;
      assert bet > 0.0 ==> bet * f < bet * 0.5;
      jackpot + bet * f
  }

  /** The sound cue after a spin: a jackpot, or at least two diamonds whether
      or not they paid. */
  function Celebrate(final: Draw, hit: bool): (cue: bool)
    ensures cue <==> hit || final.Count(Diamond) >= 2
  {
    var icons := [final.a, final.b, final.c];
    hit || multiset(icons)[Diamond] >= 2
  }

  /** A spin request. */
  function Spin(m: Machine, rolls: Rolls): (r: SpinResult)
    requires rolls.Valid()
    // Guard: while busy or with a bet that is not positive nothing happens.
    ensures m.busy || m.bet <= 0.0 ==> r == SpinResult(m, [], false, false)
    // A bet above the balance only posts the warning.
    ensures !m.busy && 0.0 < m.bet && m.balance < m.bet ==>
              r == SpinResult(m.(lastResult := Some(WARN_REPORT)), [], false, false)
    // Otherwise the spin runs to completion.
    ensures !m.busy && 0.0 < m.bet <= m.balance ==> r == Play(m, rolls)
  {
    if m.busy || m.bet <= 0.0 then
      SpinResult(m, [], false, false)
    else if m.bet > m.balance then
      SpinResult(m.(lastResult := Some(WARN_REPORT)), [], false, false)
    else
      Play(m, rolls)
  }

  /** A spin that passed the guard: the outcome is drawn first, the frames
      are shown, and the state is settled from the outcome alone. */
  function Play(m: Machine, rolls: Rolls): (r: SpinResult)
    requires rolls.Valid()
    requires !m.busy && 0.0 < m.bet <= m.balance
    ensures r.machine.reels == SpinOnce(BAG, rolls.final)
    ensures r.steps != [] && r.steps[|r.steps| - 1] == Step(r.machine.reels, 0)
    ensures r.spinCue
    ensures r.machine.balance >= 0.0
    ensures r.machine.bet == m.bet && !r.machine.busy
    ensures r.machine.reels.IsJackpot() ==> r.machine.jackpot == JACKPOT_SEED
    ensures !r.machine.reels.IsJackpot() ==>
              m.jackpot + 0.1 * m.bet <= r.machine.jackpot < m.jackpot + 0.5 * m.bet
    ensures r.machine.lastResult.Some?
    ensures r.machine.lastResult.value.kind == Win <==> r.machine.balance >= m.balance
    ensures r.celebrateCue <==> r.machine.reels.IsJackpot() || r.machine.reels.Count(Diamond) >= 2
  {
    CatalogueBag();
    var final := SpinOnce(BAG, rolls.final);
    var generic := seq(|rolls.generic|, k requires 0 <= k < |rolls.generic| => SpinOnce(BAG, rolls.generic[k]));
    var tease := seq(|rolls.tease|, i requires 0 <= i < |rolls.tease| => Pick(BAG, rolls.tease[i]));
    var steps := Frames(final, generic, Pick(BAG, rolls.lock), tease);
    var outcome := Settle(final, m.bet, m.jackpot);
    var report := Report(if outcome.delta >= 0.0 then Win else Lose, Abs(outcome.delta),
                         Settled(outcome.text), outcome.mult);
    var m' := Machine(
      Max(0.0, m.balance + outcome.delta),
      m.bet,
      final,
      false,
      Some(report),
      NextJackpot(m.jackpot, m.bet, outcome.jackpotHit, rolls.growth));
    SpinResult(m', steps, true, Celebrate(final, outcome.jackpotHit))
  }

  /** The reset button: starting balance and bet, no result; the jackpot,
      the reels and the busy flag are left as they are. */
  function Reset(m: Machine): (m': Machine)
    ensures m'.balance == START_BALANCE && m'.bet == START_BET && m'.lastResult == None
    ensures m'.jackpot == m.jackpot && m'.reels == m.reels && m'.busy == m.busy
    ensures Valid(m) ==> Valid(m')
  {
    m.(balance := START_BALANCE, bet := START_BET, lastResult := None)
  }

  /** The bet entry, with the typed number clamped to at least 1. */
  function SetBet(m: Machine, n: int): (m': Machine)
    ensures m'.bet >= 1.0
    ensures n >= 1 ==> m'.bet == n as real
    ensures n < 1 ==> m'.bet == 1.0
    ensures m' == m.(bet := m'.bet)
  {
    m.(bet := (if n >= 1 then n else 1) as real)
  }

  /** The report of a played spin carries the settlement of the outcome: its
      label and multiplier, the size of its delta, and a win exactly when the
      delta is not negative. */
  lemma PlayReport(m: Machine, rolls: Rolls)
    requires rolls.Valid()
    requires !m.busy && 0.0 < m.bet <= m.balance
    ensures var r := Play(m, rolls).machine;
            var outcome := Settle(r.reels, m.bet, m.jackpot);
            && r.lastResult.Some?
            && r.lastResult.value.message == Settled(outcome.text)
            && r.lastResult.value.mult == outcome.mult
            && r.lastResult.value.amount == Abs(outcome.delta)
            && (r.lastResult.value.kind == Win <==> outcome.delta >= 0.0)
  {
  }

  /** A spin from a valid state leaves a valid state. */
  lemma SpinPreservesValid(m: Machine, rolls: Rolls)
    requires rolls.Valid() && Valid(m)
    ensures Valid(Spin(m, rolls).machine)
  {
  }

  /** The decoys never affect the result: two spins with the same outcome
      draw and the same growth factor settle identically, whatever frames
      they showed. */
  lemma DecoysIrrelevant(m: Machine, r1: Rolls, r2: Rolls)
    requires r1.Valid() && r2.Valid()
    requires r1.final == r2.final && r1.growth == r2.growth
    ensures Spin(m, r1).machine == Spin(m, r2).machine
    ensures Spin(m, r1).celebrateCue == Spin(m, r2).celebrateCue
  {
  }

  /** From a valid state, the floor at 0 never binds: a settled spin moves
      the balance by exactly the settlement, the report's amount is the size
      of that move, and a loss takes exactly the bet. */
  lemma SpinBalance(m: Machine, rolls: Rolls)
    requires rolls.Valid() && Valid(m) && 0.0 < m.bet <= m.balance
    ensures var r := Spin(m, rolls).machine;
            var delta := Settle(r.reels, m.bet, m.jackpot).delta;
            && r.balance == m.balance + delta
            && r.lastResult.value.amount == Abs(r.balance - m.balance)
            && (r.lastResult.value.kind == Lose ==> r.balance == m.balance - m.bet)
            && (r.lastResult.value.kind == Win ==> r.balance > m.balance)
  {
    var r := Spin(m, rolls).machine;
    DeltaSign(r.reels, m.bet, m.jackpot);
  }

  /** A user intent. */
  datatype Intent = SpinRequest(rolls: Rolls) | BetEntry(n: int) | ResetRequest

  predicate WellFormed(i: Intent) {
    i.SpinRequest? ==> i.rolls.Valid()
  }

  function Apply(m: Machine, i: Intent): Machine
    requires WellFormed(i)
  {
    match i
    case SpinRequest(rolls) => Spin(m, rolls).machine
    case BetEntry(n) => SetBet(m, n)
    case ResetRequest => Reset(m)
  }

  /** The state after a sequence of intents. */
  function Run(m: Machine, intents: seq<Intent>): Machine
    requires forall k :: 0 <= k < |intents| ==> WellFormed(intents[k])
    decreases |intents|
  {
    if |intents| == 0 then m else Run(Apply(m, intents[0]), intents[1..])
  }

  /** Along a whole session the balance stays non-negative and the jackpot
      never falls below its seed. */
  lemma {:induction false} RunPreservesValid(m: Machine, intents: seq<Intent>)
    requires Valid(m)
    requires forall k :: 0 <= k < |intents| ==> WellFormed(intents[k])
    ensures Valid(Run(m, intents))
    decreases |intents|
  {
    if |intents| > 0 {
      var i := intents[0];
      if i.SpinRequest? {
        SpinPreservesValid(m, i.rolls);
      }
      RunPreservesValid(Apply(m, i), intents[1..]);
    }
  }

  /** The initial state is valid, so every reachable state is. */
  lemma ReachableValid(intents: seq<Intent>)
    requires forall k :: 0 <= k < |intents| ==> WellFormed(intents[k])
    ensures Valid(Run(INITIAL, intents))
  {
    RunPreservesValid(INITIAL, intents);
  }
}
