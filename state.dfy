/** The clicker's game record S (click-it/Clicker.js, line 4) as a value, the
    merge of a saved record over the defaults when the page loads (line 5), the
    record that is saved (line 34), and each handler's effect on the record
    (lines 28-29, 33, 36-38, 42) as a transition function. The class in
    module Clicker performs the same updates in place; this module is what its
    methods are proved against, and what the lemmas about several steps use. */
module GameState {
  import opened Pricing

  datatype Option<T> = None | Some(value: T)

  /** The record S. perClick is held in hundredths (100 is 1.00); the other
      numbers are exact reals or naturals. */
  datatype State = State(
    score: real,
    perClick: int,
    mult: nat,
    autos: nat,
    crit: real,
    best: real)

  /** The literal of lines 4 and 42. */
  const Defaults := State(0.0, 100, 0, 0, 0.03, 0.0)

  /** cps() of line 15, read off a record. */
  function Rate(s: State): real
  {
    Cps(s.autos, s.mult)
  }

  /** What every record reachable from the defaults satisfies: a non-negative
      score and best rate, a positive per-click value, a crit chance between its
      starting value 0.03 and its cap 0.5. */
  predicate Sane(s: State)
  {
    s.score >= 0.0 && s.perClick > 0 && 0.03 <= s.crit <= 0.5 && s.best >= 0.0
  }

  function Max(a: real, b: real): real { if a >= b then a else b }

  function Min(a: real, b: real): real { if a <= b then a else b }

  // ---------------------------------------------------------------------
  // Loading and saving (lines 5 and 34)
  // ---------------------------------------------------------------------

  /** A parsed save: each field may be missing. */
  datatype Saved = Saved(
    score: Option<real>,
    perClick: Option<int>,
    mult: Option<nat>,
    autos: Option<nat>,
    crit: Option<real>,
    best: Option<real>)

  /** What the save slot holds when the page loads: nothing, text that does not
      parse, or a parsed record. */
  datatype SaveSlot = Empty | Unparseable | Record(saved: Saved)

  const NoFields := Saved(None, None, None, None, None, None)

  function Pick<T>(o: Option<T>, default: T): T
  {
    match o
    case Some(v) => v
    case None => default
  }

  /** Object.assign(S, saved): every field present in the save overrides its
      default; a missing or unparseable save leaves the defaults. */
  function Load(slot: SaveSlot): (r: State)
    ensures !slot.Record? ==> r == Defaults
    ensures slot.Record? ==>
      var sv := slot.saved;
      (sv.score.Some? ==> r.score == sv.score.value) &&
      (sv.score.None? ==> r.score == Defaults.score) &&
      (sv.perClick.Some? ==> r.perClick == sv.perClick.value) &&
      (sv.perClick.None? ==> r.perClick == Defaults.perClick) &&
      (sv.mult.Some? ==> r.mult == sv.mult.value) &&
      (sv.mult.None? ==> r.mult == Defaults.mult) &&
      (sv.autos.Some? ==> r.autos == sv.autos.value) &&
      (sv.autos.None? ==> r.autos == Defaults.autos) &&
      (sv.crit.Some? ==> r.crit == sv.crit.value) &&
      (sv.crit.None? ==> r.crit == Defaults.crit) &&
      (sv.best.Some? ==> r.best == sv.best.value) &&
      (sv.best.None? ==> r.best == Defaults.best)
  {
    match slot
    case Record(sv) =>
      State(
        Pick(sv.score, Defaults.score),
        Pick(sv.perClick, Defaults.perClick),
        Pick(sv.mult, Defaults.mult),
        Pick(sv.autos, Defaults.autos),
        Pick(sv.crit, Defaults.crit),
        Pick(sv.best, Defaults.best))
    case _ => Defaults
  }

  /** JSON.stringify(S): every field is written. */
  function Serialize(s: State): (sv: Saved)
    ensures sv.score.Some? && sv.perClick.Some? && sv.mult.Some?
    ensures sv.autos.Some? && sv.crit.Some? && sv.best.Some?
  {
    Saved(Some(s.score), Some(s.perClick), Some(s.mult), Some(s.autos), Some(s.crit), Some(s.best))
  }

  /** Loading what was saved gives back the same record; every way of having
      nothing to load, including a save with no fields, gives the defaults. */
  lemma LoadSaveRoundTrip(s: State)
    ensures Load(Record(Serialize(s))) == s
    ensures Load(Empty) == Defaults && Load(Unparseable) == Defaults
    ensures Load(Record(NoFields)) == Defaults
  {
  }

  // ---------------------------------------------------------------------
  // The handlers' effect on the record
  // ---------------------------------------------------------------------

  /** The orb's click handler (lines 28-29) with the Math.random() value `roll`:
      a roll below the crit chance is a critical hit worth five clicks. */
  function Click(s: State, roll: real): (r: State)
    ensures roll < s.crit ==> r.score == s.score + 5.0 * (s.perClick as real / 100.0)
    ensures !(roll < s.crit) ==> r.score == s.score + s.perClick as real / 100.0
    ensures r == s.(score := r.score)
    ensures s.perClick >= 0 ==> r.score >= s.score
  {
    var critical := roll < s.crit;
    s.(score := s.score + s.perClick as real / 100.0 * (if critical then 5.0 else 1.0))
  }

  /** The body of the 50 ms timer (line 33): one twentieth of a second of
      passive income, and the best rate seen so far. */
  function Tick(s: State): (r: State)
    ensures r.score == s.score + Rate(s) / 20.0
    ensures r.best >= Rate(s) && r.best >= s.best
    ensures r.best == s.best || r.best == Rate(s)
    ensures r == s.(score := r.score, best := r.best)
    ensures Rate(r) == Rate(s) && r.score >= s.score
  {
    var rate := Rate(s);
    s.(score := s.score + rate / 20.0, best := Max(s.best, rate))
  }

  /** buyMult (line 36): pay priceMult(mult), gain a level, and scale the
      per-click value by 1.25 rounded to hundredths; a no-op when the score does
      not cover the price. */
  function BuyMult(s: State): (r: State)
    ensures s.score < PriceMult(s.mult) as real ==> r == s
    ensures s.score >= PriceMult(s.mult) as real ==>
      r.score == s.score - PriceMult(s.mult) as real &&
      r.mult == s.mult + 1 &&
      r.perClick == NextPerClick(s.perClick) &&
      r.autos == s.autos && r.crit == s.crit && r.best == s.best
    ensures s.score >= 0.0 ==> r.score >= 0.0
  {
    var cost := PriceMult(s.mult);
    if s.score >= cost as real then
      s.(score := s.score - cost as real, mult := s.mult + 1, perClick := NextPerClick(s.perClick))
    else s
  }

  /** buyAuto (line 37): pay priceAuto(autos) and own one more auto-clicker; a
      no-op when the score does not cover the price. */
  function BuyAuto(s: State): (r: State)
    ensures s.score < PriceAuto(s.autos) as real ==> r == s
    ensures s.score >= PriceAuto(s.autos) as real ==>
      r == s.(score := s.score - PriceAuto(s.autos) as real, autos := s.autos + 1)
    ensures s.score >= 0.0 ==> r.score >= 0.0
  {
    var cost := PriceAuto(s.autos);
    if s.score >= cost as real then
      s.(score := s.score - cost as real, autos := s.autos + 1)
    else s
  }

  /** buyCrit (line 38): pay priceCrit(crit) and raise the chance by 0.02, capped
      at 0.5; a no-op when the score does not cover the price or the chance has
      reached the cap. */
  function BuyCrit(s: State): (r: State)
    ensures !(s.score >= PriceCrit(s.crit) as real && s.crit < 0.5) ==> r == s
    ensures s.score >= PriceCrit(s.crit) as real && s.crit < 0.5 ==>
      r.score == s.score - PriceCrit(s.crit) as real &&
      (s.crit + 0.02 <= 0.5 ==> r.crit == s.crit + 0.02) &&
      (s.crit + 0.02 > 0.5 ==> r.crit == 0.5) && s.crit < r.crit <= 0.5 &&
      r == s.(score := r.score, crit := r.crit)
    ensures s.crit >= 0.5 ==> r == s
    ensures r.crit >= s.crit && (s.crit <= 0.5 ==> r.crit <= 0.5)
    ensures s.score >= 0.0 ==> r.score >= 0.0
  {
    var cost := PriceCrit(s.crit);
    if s.score >= cost as real && s.crit < 0.5 then
      s.(score := s.score - cost as real, crit := Min(0.5, s.crit + 0.02))
    else s
  }

  /** One handler invocation. */
  datatype Event =
    | ClickEvent(roll: real)
    | TickEvent
    | BuyMultEvent
    | BuyAutoEvent
    | BuyCritEvent
    | ResetEvent

  function Step(s: State, e: Event): State
  {
    match e
    case ClickEvent(roll) => Click(s, roll)
    case TickEvent => Tick(s)
    case BuyMultEvent => BuyMult(s)
    case BuyAutoEvent => BuyAuto(s)
    case BuyCritEvent => BuyCrit(s)
    case ResetEvent => Defaults
  }

  /** The record after a sequence of handler invocations. */
  function Run(s: State, es: seq<Event>): State
    decreases |es|
  {
    if es == [] then s else Run(Step(s, es[0]), es[1..])
  }

  // ---------------------------------------------------------------------
  // Properties of the economy
  // ---------------------------------------------------------------------

  /** Every handler keeps a sane record sane: the score never goes negative, the
      crit chance never leaves [0.03, 0.5]. */
  lemma StepPreservesSane(s: State, e: Event)
    requires Sane(s)
    ensures Sane(Step(s, e))
  {
  }

  lemma {:induction false} RunPreservesSane(s: State, es: seq<Event>)
    requires Sane(s)
    ensures Sane(Run(s, es))
    decreases |es|
  {
    if es != [] {
      StepPreservesSane(s, es[0]);
      RunPreservesSane(Step(s, es[0]), es[1..]);
    }
  }

  /** Whatever the player does from a fresh start, the score stays non-negative,
      the per-click value positive and the crit chance within [0.03, 0.5]. */
  lemma ReachableIsSane(es: seq<Event>)
    ensures Sane(Defaults)
    ensures Sane(Run(Defaults, es))
  {
    RunPreservesSane(Defaults, es);
  }

  /** Record `t` has at least the upgrades of `s`, with the per-click value and
      best rate no lower. */
  predicate NoLess(s: State, t: State)
  {
    t.mult >= s.mult && t.autos >= s.autos && t.crit >= s.crit &&
    t.best >= s.best && (s.perClick >= 0 ==> t.perClick >= s.perClick)
  }

  /** Without a reset, upgrades are never lost: levels, counts, the crit chance,
      the per-click value and the best rate only grow. */
  lemma {:induction false} RunMonotone(s: State, es: seq<Event>)
    requires forall i :: 0 <= i < |es| ==> !es[i].ResetEvent?
    ensures NoLess(s, Run(s, es))
    decreases |es|
  {
    if es != [] {
      var t := Step(s, es[0]);
      assert NoLess(s, t);
      RunMonotone(t, es[1..]);
    }
  }

  /** Once the chance has reached 0.5, crit purchases change nothing, however
      many are made. */
  lemma {:induction false} CritCapIsFinal(s: State, n: nat)
    requires s.crit >= 0.5
    ensures Run(s, seq(n, _ => BuyCritEvent)) == s
    decreases n
  {
    if n > 0 {
      assert seq(n, _ => BuyCritEvent)[1..] == seq(n - 1, _ => BuyCritEvent);
      CritCapIsFinal(s, n - 1);
    }
  }

  /** After a tick the best rate is at least the current rate, and since no tick
      changes the rate, further ticks keep it so. */
  lemma {:induction false} TicksKeepBest(s: State, n: nat)
    ensures Run(s, seq(n, _ => TickEvent)).best >= s.best
    ensures n > 0 ==> Run(s, seq(n, _ => TickEvent)).best >= Rate(s)
    ensures Rate(Run(s, seq(n, _ => TickEvent))) == Rate(s)
    decreases n
  {
    if n > 0 {
      assert seq(n, _ => TickEvent)[1..] == seq(n - 1, _ => TickEvent);
      TicksKeepBest(Tick(s), n - 1);
    }
  }

  /** The rate depends on the auto count and the level alone. */
  lemma RateDependsOnUpgrades(s: State, t: State)
    requires s.autos == t.autos && s.mult == t.mult
    ensures Rate(s) == Rate(t)
  {
  }

  /** A reset gives exactly the record a first visit starts with. */
  lemma ResetIsFirstVisit(s: State)
    ensures Step(s, ResetEvent) == Load(Empty)
  {
  }

  /** The buyMult scenario: no purchase at score 0; at score 25 the first level
      is bought, leaving score 0 and a per-click value of 1.25. */
  lemma FirstMultiplier()
    ensures BuyMult(Defaults) == Defaults
    ensures BuyMult(Defaults.(score := 25.0)) ==
      Defaults.(score := 0.0, mult := 1, perClick := 125)
  {
  }

  /** With two auto-clickers at level three, a tick adds 0.13. */
  lemma TickScenario(s: State)
    requires s.autos == 2 && s.mult == 3
    ensures Tick(s).score == s.score + 0.13
  {
  }
}
