/** The global `game` record as a value, and the rules that step it:
    purchases, the production cascade, offline replay and the prestige reset.
    The mutable engine in module Engine is proved to follow these rules. */
module GameState {
  import opened Numeric
  import opened Generators

  /** `startTime` and `lastTick` are wall-clock milliseconds. */
  datatype State = State(
    particles: real,
    totalParticles: real,
    prestigeCount: nat,
    startTime: int,
    lastTick: int,
    generators: seq<Generator>)

  /** Particles held at the start of every run. */
  const StartingParticles: real := 10.0

  /** `getInitialState`, with `Date.now()` passed in as `now`. */
  function InitialState(now: int): (s: State)
    ensures s.particles == s.totalParticles == StartingParticles
    ensures s.prestigeCount == 0 && s.startTime == now && s.lastTick == now
    ensures s.generators == InitialGenerators() && |s.generators| == TierCount
  {
    State(StartingParticles, StartingParticles, 0, now, now, InitialGenerators())
  }

  /** `getGlobalMultiplier`: 2^prestigeCount. */
  function GlobalMultiplier(prestigeCount: nat): (m: real)
    ensures m >= 1.0
  {
    PowAtLeastOne(2.0, prestigeCount);
    Pow(2.0, prestigeCount)
  }

  /** Every prestige doubles the global multiplier. */
  lemma GlobalMultiplierDoubles(prestigeCount: nat)
    ensures GlobalMultiplier(prestigeCount + 1) == 2.0 * GlobalMultiplier(prestigeCount)
  {
  }

  // ---------------------------------------------------------------------------
  // Invariant

  predicate WellFormedGenerator(g: Generator) {
    g.baseCost > 0.0 && g.costMult > 1.0 && g.amount >= 0.0 && g.production >= 1.0
  }

  /** Non-negative balances, and every tier priced, owned and producing sensibly. */
  predicate WellFormed(s: State) {
    s.particles >= 0.0 && s.totalParticles >= 0.0 &&
    forall j :: 0 <= j < |s.generators| ==> WellFormedGenerator(s.generators[j])
  }

  lemma InitialStateWellFormed(now: int)
    ensures WellFormed(InitialState(now))
  {
  }

  // ---------------------------------------------------------------------------
  // Purchases

  predicate Affordable(s: State, i: nat)
    requires i < |s.generators|
  {
    s.particles >= Cost(s.generators[i])
  }

  /** Paying for one unit of tier `i`, without the affordability check. */
  function PurchaseStep(s: State, i: nat): (r: State)
    requires i < |s.generators|
  {
    s.(particles := s.particles - Cost(s.generators[i]),
       generators := s.generators[i := Purchased(s.generators[i])])
  }

  /** `buyGenerator(i)`: buy one unit when the balance covers its price, else do nothing. */
  function BuyOne(s: State, i: nat): State
    requires i < |s.generators|
  {
    if Affordable(s, i) then PurchaseStep(s, i) else s
  }

  /** A refused purchase changes nothing; an accepted one charges exactly the
      pre-purchase price and touches only tier `i`'s amount, bought and production. */
  lemma BuyOneEffect(s: State, i: nat)
    requires i < |s.generators|
    ensures !Affordable(s, i) ==> BuyOne(s, i) == s
    ensures Affordable(s, i) ==>
      var r, g := BuyOne(s, i), s.generators[i];
      r.particles == s.particles - Cost(g) &&
      r.totalParticles == s.totalParticles && r.prestigeCount == s.prestigeCount &&
      r.startTime == s.startTime && r.lastTick == s.lastTick &&
      |r.generators| == |s.generators| &&
      r.generators[i].amount == g.amount + 1.0 &&
      r.generators[i].bought == g.bought + 1 &&
      r.generators[i].production == g.production * (11.0 / 10.0) &&
      r.generators[i].baseCost == g.baseCost && r.generators[i].costMult == g.costMult &&
      r.generators[i].id == g.id && r.generators[i].name == g.name &&
      (forall j :: 0 <= j < |s.generators| && j != i ==> r.generators[j] == s.generators[j])
  {
  }

  lemma BuyOnePreservesWellFormed(s: State, i: nat)
    requires i < |s.generators| && WellFormed(s)
    ensures WellFormed(BuyOne(s, i))
  {
    if Affordable(s, i) {
      var g := s.generators[i];
      MulMonotone(1.0, PurchaseBonus, g.production);
      assert WellFormedGenerator(Purchased(g));
    }
  }

  /** `n` paid purchases of tier `i` in a row. */
  function PurchaseN(s: State, i: nat, n: nat): (r: State)
    requires i < |s.generators|
    ensures |r.generators| == |s.generators|
    decreases n
  {
    if n == 0 then s else PurchaseStep(PurchaseN(s, i, n - 1), i)
  }

  /** Each of the first `n` purchases was affordable when it was made. */
  predicate AffordableRun(s: State, i: nat, n: nat)
    requires i < |s.generators|
  {
    forall k :: 0 <= k < n ==> Affordable(PurchaseN(s, i, k), i)
  }

  /** "Buy max" stops after exactly `n` purchases: each was affordable and the next is not. */
  predicate BuysExactly(s: State, i: nat, n: nat)
    requires i < |s.generators|
  {
    AffordableRun(s, i, n) && !Affordable(PurchaseN(s, i, n), i)
  }

  /** After `n` purchases tier `i` has gained `n` units and `n` bought, its
      production is multiplied by 1.1^n, the balance has paid the `n`
      successive prices, and nothing else has changed. */
  lemma {:induction false} PurchaseNClosedForm(s: State, i: nat, n: nat)
    requires i < |s.generators|
    ensures var r := PurchaseN(s, i, n);
      r.generators[i] == PurchasedTimes(s.generators[i], n) &&
      r.particles == s.particles - Spent(s.generators[i], n) &&
      r.totalParticles == s.totalParticles && r.prestigeCount == s.prestigeCount &&
      r.startTime == s.startTime && r.lastTick == s.lastTick &&
      (forall j :: 0 <= j < |s.generators| && j != i ==> r.generators[j] == s.generators[j])
    decreases n
  {
    if n > 0 {
      PurchaseNClosedForm(s, i, n - 1);
      var g := s.generators[i];
      PurchasedTimesClosedForm(g, n - 1);
      assert Cost(PurchasedTimes(g, n - 1)) == Cost(g.(bought := g.bought + n - 1));
    }
  }

  /** The stopping point of "buy max" is unique. */
  lemma BuysExactlyUnique(s: State, i: nat, m: nat, n: nat)
    requires i < |s.generators|
    requires BuysExactly(s, i, m) && BuysExactly(s, i, n)
    ensures m == n
  {
  }

  /** Every affordable run from a priced tier pays at least one base price per unit,
      so it can be no longer than `particles / baseCost`; and it never drives the
      balance below zero. */
  lemma {:induction false} AffordableRunBounded(s: State, i: nat, n: nat)
    requires i < |s.generators| && Priced(s.generators[i])
    requires AffordableRun(s, i, n)
    ensures n as real * s.generators[i].baseCost <= s.particles - PurchaseN(s, i, n).particles
    ensures n > 0 || s.particles >= 0.0 ==> PurchaseN(s, i, n).particles >= 0.0
    ensures n > 0 ==> n as real * s.generators[i].baseCost <= s.particles
  {
    var g := s.generators[i];
    PurchaseNClosedForm(s, i, n);
    SpentAtLeast(g, n);
    if n > 0 {
      assert Affordable(PurchaseN(s, i, n - 1), i);
      assert PurchaseN(s, i, n) == PurchaseStep(PurchaseN(s, i, n - 1), i);
    }
  }

  lemma {:induction false} PurchaseNPreservesWellFormed(s: State, i: nat, n: nat)
    requires i < |s.generators| && WellFormed(s) && AffordableRun(s, i, n)
    ensures WellFormed(PurchaseN(s, i, n))
    decreases n
  {
    if n > 0 {
      assert AffordableRun(s, i, n - 1);
      PurchaseNPreservesWellFormed(s, i, n - 1);
      assert Affordable(PurchaseN(s, i, n - 1), i);
      BuyOnePreservesWellFormed(PurchaseN(s, i, n - 1), i);
    }
  }

  // ---------------------------------------------------------------------------
  // Production cascade

  /** What a tier makes in `dt` seconds under the global multiplier `mult`. */
  function Produced(g: Generator, mult: real, dt: real): real {
    g.amount * g.production * mult * dt
  }

  /** The cascade as a simultaneous update: every tier below the top gains what
      the tier above it produced, computed from pre-tick amounts. */
  function Cascade(gs: seq<Generator>, mult: real, dt: real): (r: seq<Generator>)
    ensures |r| == |gs|
  {
    seq(|gs|, j requires 0 <= j < |gs| => CascadeAt(gs, j, mult, dt))
  }

  /** Tier `j` after the cascade. */
  function CascadeAt(gs: seq<Generator>, j: nat, mult: real, dt: real): Generator
    requires j < |gs|
  {
    if j + 1 < |gs| then gs[j].(amount := gs[j].amount + Produced(gs[j + 1], mult, dt)) else gs[j]
  }

  /** One production tick of length `dt`: tier 0 pays into both particle
      counters, then the cascade. */
  function Tick(s: State, mult: real, dt: real): (r: State)
    requires |s.generators| > 0
    ensures |r.generators| == |s.generators|
  {
    var produced := Produced(s.generators[0], mult, dt);
    s.(particles := s.particles + produced,
       totalParticles := s.totalParticles + produced,
       generators := Cascade(s.generators, mult, dt))
  }

  /** One tick: tier 0's pre-tick output is added to both counters, each lower
      tier gains the pre-tick output of the tier above, the top tier keeps its
      amount, and no price, bought count or production changes. */
  lemma TickEffect(s: State, mult: real, dt: real)
    requires |s.generators| > 0
    ensures Tick(s, mult, dt).particles
         == s.particles + s.generators[0].amount * s.generators[0].production * mult * dt
    ensures Tick(s, mult, dt).totalParticles
         == s.totalParticles + s.generators[0].amount * s.generators[0].production * mult * dt
    ensures Tick(s, mult, dt).prestigeCount == s.prestigeCount
    ensures Tick(s, mult, dt).startTime == s.startTime && Tick(s, mult, dt).lastTick == s.lastTick
    ensures forall j :: 0 < j < |s.generators| ==>
      Tick(s, mult, dt).generators[j - 1].amount
        == s.generators[j - 1].amount + s.generators[j].amount * s.generators[j].production * mult * dt
    ensures Tick(s, mult, dt).generators[|s.generators| - 1] == s.generators[|s.generators| - 1]
    ensures forall j :: 0 <= j < |s.generators| ==>
      Tick(s, mult, dt).generators[j] == s.generators[j].(amount := Tick(s, mult, dt).generators[j].amount)
  {
    var gs := Tick(s, mult, dt).generators;
    assert gs == Cascade(s.generators, mult, dt);
    forall j | 0 < j < |s.generators|
      ensures gs[j - 1].amount == s.generators[j - 1].amount + Produced(s.generators[j], mult, dt)
    {
    }
  }

  /** `n` ticks of equal length under a fixed multiplier. */
  function TickN(s: State, mult: real, dt: real, n: nat): (r: State)
    requires |s.generators| > 0
    ensures |r.generators| == |s.generators|
    decreases n
  {
    if n == 0 then s else Tick(TickN(s, mult, dt, n - 1), mult, dt)
  }

  /** Over any number of ticks only amounts and the two counters move; the top
      tier's amount stays put, and both counters rise by the same total. */
  lemma {:induction false} TickNFrame(s: State, mult: real, dt: real, n: nat)
    requires |s.generators| > 0
    ensures var r := TickN(s, mult, dt, n);
      r.prestigeCount == s.prestigeCount && r.startTime == s.startTime && r.lastTick == s.lastTick &&
      r.totalParticles - r.particles == s.totalParticles - s.particles &&
      r.generators[|s.generators| - 1] == s.generators[|s.generators| - 1] &&
      (forall j :: 0 <= j < |s.generators| ==> r.generators[j] == s.generators[j].(amount := r.generators[j].amount))
    decreases n
  {
    if n > 0 {
      TickNFrame(s, mult, dt, n - 1);
    }
  }

  lemma TickPreservesWellFormed(s: State, mult: real, dt: real)
    requires |s.generators| > 0 && WellFormed(s) && mult >= 0.0 && dt >= 0.0
    ensures WellFormed(Tick(s, mult, dt))
    ensures Tick(s, mult, dt).particles >= s.particles
    ensures forall j :: 0 <= j < |s.generators| ==> Tick(s, mult, dt).generators[j].amount >= s.generators[j].amount
  {
    forall j | 0 <= j < |s.generators|
      ensures Produced(s.generators[j], mult, dt) >= 0.0
    {
      var g := s.generators[j];
      MulNonNegative(g.amount, g.production);
      MulNonNegative(g.amount * g.production, mult);
      MulNonNegative(g.amount * g.production * mult, dt);
    }
  }

  /** With non-negative time steps the invariant survives any number of ticks,
      and neither particles nor any tier's amount ever falls. */
  lemma {:induction false} TickNPreservesWellFormed(s: State, mult: real, dt: real, n: nat)
    requires |s.generators| > 0 && WellFormed(s) && mult >= 0.0 && dt >= 0.0
    ensures WellFormed(TickN(s, mult, dt, n))
    ensures TickN(s, mult, dt, n).particles >= s.particles
    ensures forall j :: 0 <= j < |s.generators| ==> TickN(s, mult, dt, n).generators[j].amount >= s.generators[j].amount
    decreases n
  {
    if n > 0 {
      TickNPreservesWellFormed(s, mult, dt, n - 1);
      TickPreservesWellFormed(TickN(s, mult, dt, n - 1), mult, dt);
    }
  }

  /** A lone tier 0 holding 100 units at production 1 and multiplier 1 yields
      exactly 100 particles in one second. */
  lemma TickExample()
    ensures var s := State(0.0, 0.0, 0, 0, 0, [Generator(0, "Accelerator Mk.1", 10.0, 15.0 / 10.0, 100.0, 0, 1.0)]);
      Tick(s, GlobalMultiplier(0), 1.0).particles == 100.0
  {
  }

  // ---------------------------------------------------------------------------
  // Time clamps

  /** Longest stretch the live loop will credit in one frame, in seconds. */
  const MaxLiveDt: real := 1.0

  /** Longest absence the offline replay will credit: seven days, in seconds. */
  const MaxOfflineSeconds: real := 604800.0

  /** Number of equal steps the offline replay takes. */
  const OfflineTicks: nat := 1000

  /** The live frame length in seconds between two millisecond timestamps, capped at one second. */
  function LiveDt(lastTick: int, now: int): (dt: real)
    ensures dt <= MaxLiveDt
    ensures (now - lastTick) as real / 1000.0 <= MaxLiveDt ==> dt == (now - lastTick) as real / 1000.0
    ensures (now - lastTick) as real / 1000.0 > MaxLiveDt ==> dt == MaxLiveDt
  {
    var dt := (now - lastTick) as real / 1000.0;
    if dt > MaxLiveDt then MaxLiveDt else dt
  }

  /** The live frame length has no lower clamp: when the clock steps back and
      tier 0 is producing, one frame lowers the particle balance. */
  lemma BackwardClockLowersParticles(s: State, now: int)
    requires |s.generators| > 0 && WellFormed(s)
    requires now < s.lastTick && s.generators[0].amount > 0.0
    ensures LiveDt(s.lastTick, now) < 0.0
    ensures Tick(s, GlobalMultiplier(s.prestigeCount), LiveDt(s.lastTick, now)).particles < s.particles
  {
    var g := s.generators[0];
    var mult := GlobalMultiplier(s.prestigeCount);
    var dt := LiveDt(s.lastTick, now);
    MulPositive(g.amount, g.production);
    MulPositive(g.amount * g.production, mult);
    MulStrict(dt, 0.0, g.amount * g.production * mult);
    assert Produced(g, mult, dt) == dt * (g.amount * g.production * mult);
  }

  /** The absence that offline replay credits, capped at seven days. */
  function OfflineSeconds(seconds: real): (r: real)
    ensures r <= MaxOfflineSeconds
    ensures r == seconds || r == MaxOfflineSeconds
    ensures seconds <= MaxOfflineSeconds ==> r == seconds
  {
    if seconds > MaxOfflineSeconds then MaxOfflineSeconds else seconds
  }

  /** `simulateOfflineProgress(seconds)`: 1000 equal ticks under the multiplier
      in force when the replay starts. */
  function OfflineReplay(s: State, seconds: real): (r: State)
    requires |s.generators| > 0
    ensures |r.generators| == |s.generators|
  {
    TickN(s, GlobalMultiplier(s.prestigeCount), OfflineSeconds(seconds) / (OfflineTicks as real), OfflineTicks)
  }

  /** Offline replay of a positive absence keeps the invariant, never loses
      particles, and each step lasts at most 604.8 seconds. */
  lemma OfflineReplayWellFormed(s: State, seconds: real)
    requires |s.generators| > 0 && WellFormed(s) && seconds >= 0.0
    ensures WellFormed(OfflineReplay(s, seconds))
    ensures OfflineReplay(s, seconds).particles >= s.particles
    ensures OfflineReplay(s, seconds).prestigeCount == s.prestigeCount
    ensures OfflineSeconds(seconds) / (OfflineTicks as real) <= 604.8
  {
    var dt := OfflineSeconds(seconds) / (OfflineTicks as real);
    TickNPreservesWellFormed(s, GlobalMultiplier(s.prestigeCount), dt, OfflineTicks);
    TickNFrame(s, GlobalMultiplier(s.prestigeCount), dt, OfflineTicks);
  }

  // ---------------------------------------------------------------------------
  // Prestige

  /** `doPrestige` after the player confirms. */
  function Prestige(s: State, now: int): State {
    State(StartingParticles, 0.0, s.prestigeCount + 1, now, now, InitialGenerators())
  }

  /** A prestige counts one more reset, restarts the balance at 10 with a zero
      lifetime total, restores the fresh generator list, and doubles the multiplier. */
  lemma PrestigeEffect(s: State, now: int)
    ensures var r := Prestige(s, now);
      r.prestigeCount == s.prestigeCount + 1 &&
      r.particles == 10.0 && r.totalParticles == 0.0 &&
      r.generators == InitialState(now).generators &&
      r.startTime == now && r.lastTick == now &&
      GlobalMultiplier(r.prestigeCount) == 2.0 * GlobalMultiplier(s.prestigeCount) &&
      WellFormed(r)
  {
  }
}
