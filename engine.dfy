/** The mutable global `game` object and the operations of the game loop that
    change it in place. Each method is proved to move the object from one
    value of `GameState.State` to the one the matching rule prescribes. */
module Engine {
  import opened Wrappers
  import opened Numeric
  import opened Generators
  import opened GameState
  import opened SaveMerge

  /** A fresh array holding `gs`. */
  method ArrayOf(gs: seq<Generator>) returns (a: array<Generator>)
    ensures fresh(a) && a[..] == gs
  {
    a := new Generator[|gs|](j requires 0 <= j < |gs| => gs[j]);
  }

  class Game {
    var particles: real
    var totalParticles: real
    var prestigeCount: nat
    var startTime: int
    var lastTick: int
    var generators: array<Generator>

    /** The record this object currently holds. */
    function Snapshot(): State
      reads this, generators
    {
      State(particles, totalParticles, prestigeCount, startTime, lastTick, generators[..])
    }

    /** `let game = getInitialState()`. */
    constructor (now: int)
      ensures Snapshot() == InitialState(now)
      ensures fresh(generators)
    {
      var initialState := InitialState(now);
      var gens := ArrayOf(initialState.generators);
      particles := initialState.particles;
      totalParticles := initialState.totalParticles;
      prestigeCount := initialState.prestigeCount;
      startTime := initialState.startTime;
      lastTick := initialState.lastTick;
      generators := gens;
    }

    /** Replaces the whole record, as `game = …` does. */
    method Install(s: State)
      modifies this
      ensures Snapshot() == s
      ensures fresh(generators)
    {
      particles := s.particles;
      totalParticles := s.totalParticles;
      prestigeCount := s.prestigeCount;
      startTime := s.startTime;
      lastTick := s.lastTick;
      generators := ArrayOf(s.generators);
    }

    /** Pays `cost` for one unit of tier `index`: the body shared by both purchase actions. */
    method Pay(index: nat, cost: real)
      requires index < generators.Length && cost == Cost(generators[index])
      modifies this`particles, generators
      ensures Snapshot() == PurchaseStep(old(Snapshot()), index)
    {
      var gen := generators[index];
      particles := particles - cost;
      generators[index] := gen.(amount := gen.amount + 1.0,
                                bought := gen.bought + 1,
                                production := gen.production * PurchaseBonus);
    }

    /** `buyGenerator(index)`. */
    method BuyGenerator(index: nat)
      requires index < generators.Length
      modifies this, generators
      ensures generators == old(generators)
      ensures Snapshot() == BuyOne(old(Snapshot()), index)
    {
      var gen := generators[index];
      var cost := Cost(gen);
      if particles >= cost {
        Pay(index, cost);
      }
    }

    /** `buyMaxGenerator(index)`: buys single units until the next one is
        unaffordable. Terminates because each unit costs at least `baseCost > 0`. */
    method BuyMaxGenerator(index: nat) returns (boughtCount: nat)
      requires index < generators.Length && Priced(generators[index])
      modifies this, generators
      ensures generators == old(generators)
      ensures Snapshot() == PurchaseN(old(Snapshot()), index, boughtCount)
      ensures BuysExactly(old(Snapshot()), index, boughtCount)
      ensures particles < Cost(generators[index])
      ensures old(particles) >= 0.0 ==> particles >= 0.0
      ensures generators[index].bought == old(generators[index].bought) + boughtCount
      ensures generators[index].amount == old(generators[index].amount) + boughtCount as real
    {
      ghost var s0 := Snapshot();
      ghost var bound := (s0.particles / s0.generators[index].baseCost).Floor;
      boughtCount := 0;
      while true
        invariant generators == old(generators)
        invariant Snapshot() == PurchaseN(s0, index, boughtCount)
        invariant AffordableRun(s0, index, boughtCount)
        decreases bound - boughtCount
      {
        var gen := generators[index];
        var cost := Cost(gen);
        if particles >= cost {
          assert AffordableRun(s0, index, boughtCount + 1);
          AffordableRunBounded(s0, index, boughtCount + 1);
          DivFloorBound(boughtCount + 1, s0.generators[index].baseCost, s0.particles);
          Pay(index, cost);
          boughtCount := boughtCount + 1;
        } else {
          break;
        }
      }
      AffordableRunBounded(s0, index, boughtCount);
      PurchaseNClosedForm(s0, index, boughtCount);
      PurchasedTimesClosedForm(s0.generators[index], boughtCount);
    }

    /** The cascade loop: each tier `i >= 1` adds its output to tier `i - 1`,
        ascending and in place. */
    method CascadeInPlace(mult: real, dt: real)
      modifies generators
      ensures generators[..] == Cascade(old(generators[..]), mult, dt)
    {
      ghost var before := generators[..];
      var n := generators.Length;
      if n == 0 {
        return;
      }
      for i := 1 to n
        invariant forall k :: 0 <= k < i - 1 ==> generators[k] == CascadeAt(before, k, mult, dt)
        invariant forall k :: i - 1 <= k < n ==> generators[k] == before[k]
      {
        var producer := generators[i];
        var target := generators[i - 1];
        generators[i - 1] := target.(amount := target.amount + producer.amount * producer.production * mult * dt);
      }
      assert forall k :: 0 <= k < n ==> generators[k] == CascadeAt(before, k, mult, dt);
    }

    /** One production step: tier 0 pays into both counters, then the cascade. */
    method ProduceStep(mult: real, dt: real)
      requires generators.Length > 0
      modifies this, generators
      ensures generators == old(generators)
      ensures Snapshot() == Tick(old(Snapshot()), mult, dt)
    {
      var pps := generators[0].amount * generators[0].production * mult;
      var produced := pps * dt;
      particles := particles + produced;
      totalParticles := totalParticles + produced;
      CascadeInPlace(mult, dt);
    }

    /** The state-changing part of one `gameLoop` frame at wall-clock time `now`. */
    method GameLoop(now: int)
      requires generators.Length > 0
      modifies this, generators
      ensures generators == old(generators)
      ensures Snapshot()
           == Tick(old(Snapshot()).(lastTick := now), GlobalMultiplier(old(prestigeCount)), LiveDt(old(lastTick), now))
    {
      var dt := (now - lastTick) as real / 1000.0;
      if dt > MaxLiveDt {
        dt := MaxLiveDt;
      }
      lastTick := now;
      var globalMult := GlobalMultiplier(prestigeCount);
      ProduceStep(globalMult, dt);
    }

    /** `simulateOfflineProgress(seconds)`; returns what `gained` reports. */
    method SimulateOfflineProgress(seconds: real) returns (gained: real)
      requires generators.Length > 0
      modifies this, generators
      ensures generators == old(generators)
      ensures Snapshot() == OfflineReplay(old(Snapshot()), seconds)
      ensures gained == particles - old(particles)
    {
      var secs := seconds;
      if secs > MaxOfflineSeconds {
        secs := MaxOfflineSeconds;
      }
      var initialParticles := particles;
      var totalTicks := OfflineTicks;
      var dt := secs / (totalTicks as real);
      var globalMult := GlobalMultiplier(prestigeCount);
      ghost var s0 := Snapshot();
      for t := 0 to totalTicks
        invariant generators == old(generators)
        invariant Snapshot() == TickN(s0, globalMult, dt, t)
      {
        ProduceStep(globalMult, dt);
      }
      gained := particles - initialParticles;
    }

    /** `saveGame`: stamps the record with `now` and returns what is written to storage. */
    method SaveGame(now: int) returns (blob: SavedState)
      modifies this`lastTick
      ensures Snapshot() == old(Snapshot()).(lastTick := now)
      ensures blob == ToSaved(Snapshot())
    {
      lastTick := now;
      blob := ToSaved(Snapshot());
    }

    /** `doPrestige`, with the player's answer to the confirmation as `confirmed`;
        returns the save it writes, if any. */
    method DoPrestige(confirmed: bool, now: int) returns (written: Option<SavedState>)
      modifies this
      ensures Snapshot() == if confirmed then Prestige(old(Snapshot()), now) else old(Snapshot())
      ensures written == if confirmed then Some(ToSaved(Snapshot())) else None
      ensures confirmed ==> fresh(generators)
    {
      if !confirmed {
        return None;
      }
      prestigeCount := prestigeCount + 1;
      var freshState := InitialState(now);
      particles := freshState.particles;
      totalParticles := 0.0;
      generators := ArrayOf(freshState.generators);
      startTime := now;
      lastTick := now;
      var blob := SaveGame(now);
      written := Some(blob);
    }

    /** `loadGame` with the stored blob already parsed, at wall-clock time `now`. */
    method LoadGame(data: Option<SavedState>, now: int)
      modifies this, generators
      ensures Snapshot() == Loaded(old(Snapshot()), data, now)
    {
      ghost var current := Snapshot();
      if data.None? {
        return;
      }
      var parsed := data.value;
      var freshState := InitialState(now);
      var savedLastTick := match parsed.lastTick
        case Some(t) => if t != 0 then t else now
        case None => now;
      var merged := Merge(freshState, parsed);
      if merged.None? {
        return;
      }
      Install(merged.value);
      var offlineSeconds := (now - savedLastTick) as real / 1000.0;
      assert offlineSeconds == OfflineGap(parsed, now);
      if offlineSeconds > 1.0 {
        if generators.Length == 0 {
          assert Loaded(current, data, now) == merged.value;
          return;
        }
        var gained := SimulateOfflineProgress(offlineSeconds);
        assert Loaded(current, data, now) == OfflineReplay(merged.value, offlineSeconds).(lastTick := now);
      } else {
        assert Loaded(current, data, now) == merged.value.(lastTick := now);
      }
      lastTick := now;
    }
  }
}
