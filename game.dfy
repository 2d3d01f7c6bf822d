/** The running game: the script's global record S as an object whose handlers
    update its fields in place (click-it/Clicker.js, lines 4-5, 28-29, 33,
    34, 36-38 and 42). Each method is proved against the transition of module
    GameState that describes its effect, and keeps the record sane. */
module Clicker {
  import opened Pricing
  import opened GameState

  class Game {
    var score: real
    var perClick: int  // hundredths
    var mult: nat
    var autos: nat
    var crit: real
    var best: real

    /** The record the fields make up. */
    function Snapshot(): State
      reads this
    {
      State(score, perClick, mult, autos, crit, best)
    }

    /** Page load: the defaults of line 4, then the saved fields assigned over
        them (line 5); a missing or unparseable save leaves the defaults. */
    constructor (slot: SaveSlot)
      ensures Snapshot() == Load(slot)
    {
      score, perClick, mult, autos, crit, best := 0.0, 100, 0, 0, 0.03, 0.0;
      if slot.Record? {
        var sv := slot.saved;
        if sv.score.Some? { score := sv.score.value; }
        if sv.perClick.Some? { perClick := sv.perClick.value; }
        if sv.mult.Some? { mult := sv.mult.value; }
        if sv.autos.Some? { autos := sv.autos.value; }
        if sv.crit.Some? { crit := sv.crit.value; }
        if sv.best.Some? { best := sv.best.value; }
      }
    }

    /** The orb's click handler; `roll` is the value Math.random() returned. */
    method Click(roll: real)
      modifies this
      ensures Snapshot() == GameState.Click(old(Snapshot()), roll)
      ensures old(Sane(Snapshot())) ==> Sane(Snapshot())
    {
      if Sane(Snapshot()) { StepPreservesSane(Snapshot(), ClickEvent(roll)); }
      var critical := roll < crit;
      score := score + perClick as real / 100.0 * (if critical then 5.0 else 1.0);
    }

    /** The body of the 50 ms timer. */
    method Tick()
      modifies this
      ensures Snapshot() == GameState.Tick(old(Snapshot()))
      ensures best >= Cps(autos, mult) && best >= old(best)
      ensures old(Sane(Snapshot())) ==> Sane(Snapshot())
    {
      if Sane(Snapshot()) { StepPreservesSane(Snapshot(), TickEvent); }
      score := score + Cps(autos, mult) / 20.0;
      best := Max(best, Cps(autos, mult));
    }

    method BuyMult()
      modifies this
      ensures Snapshot() == GameState.BuyMult(old(Snapshot()))
      ensures old(Sane(Snapshot())) ==> Sane(Snapshot())
    {
      if Sane(Snapshot()) { StepPreservesSane(Snapshot(), BuyMultEvent); }
      var cost := PriceMult(mult);
      if score >= cost as real {
        score := score - cost as real;
        mult := mult + 1;
        perClick := NextPerClick(perClick);
      }
    }

    method BuyAuto()
      modifies this
      ensures Snapshot() == GameState.BuyAuto(old(Snapshot()))
      ensures old(Sane(Snapshot())) ==> Sane(Snapshot())
    {
      if Sane(Snapshot()) { StepPreservesSane(Snapshot(), BuyAutoEvent); }
      var cost := PriceAuto(autos);
      if score >= cost as real {
        score := score - cost as real;
        autos := autos + 1;
      }
    }

    method BuyCrit()
      modifies this
      ensures Snapshot() == GameState.BuyCrit(old(Snapshot()))
      ensures old(crit) <= 0.5 ==> crit <= 0.5
      ensures old(Sane(Snapshot())) ==> Sane(Snapshot())
    {
      if Sane(Snapshot()) { StepPreservesSane(Snapshot(), BuyCritEvent); }
      var cost := PriceCrit(crit);
      if score >= cost as real && crit < 0.5 {
        score := score - cost as real;
        crit := Min(0.5, crit + 0.02);
      }
    }

    /** The reset button once confirmed: back to the literal of line 4. */
    method Reset()
      modifies this
      ensures Snapshot() == Defaults && Snapshot() == Load(Empty)
      ensures Sane(Snapshot())
    {
      score, perClick, mult, autos, crit, best := 0.0, 100, 0, 0, 0.03, 0.0;
    }

    /** What the 1500 ms timer and the reset write to storage: a record from
        which loading restores this very state. */
    method Save() returns (sv: Saved)
      ensures sv == Serialize(Snapshot())
      ensures Load(Record(sv)) == Snapshot()
    {
      sv := Serialize(Snapshot());
      LoadSaveRoundTrip(Snapshot());
    }
  }

  /** A session from a first visit: whatever handlers run, and in whatever
      order, the score never goes negative and the crit chance stays in
      [0.03, 0.5]. */
  method Session(es: seq<Event>) returns (g: Game)
    ensures fresh(g)
    ensures g.Snapshot() == Run(Defaults, es)
    ensures Sane(g.Snapshot())
  {
    g := new Game(Empty);
    ReachableIsSane(es);
    var i := 0;
    while i < |es|
      invariant 0 <= i <= |es|
      invariant Run(g.Snapshot(), es[i..]) == Run(Defaults, es)
      invariant Sane(g.Snapshot())
      decreases |es| - i
    {
      StepPreservesSane(g.Snapshot(), es[i]);
      assert es[i..][1..] == es[i + 1..];
      match es[i] {
        case ClickEvent(roll) => g.Click(roll);
        case TickEvent => g.Tick();
        case BuyMultEvent => g.BuyMult();
        case BuyAutoEvent => g.BuyAuto();
        case BuyCritEvent => g.BuyCrit();
        case ResetEvent => g.Reset();
      }
      i := i + 1;
    }
  }
}
