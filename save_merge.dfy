/** Save records and the `loadGame` merge: a parsed save laid over a fresh
    state, field by field and generator by generator. A field the save does
    not carry is `None`. */
module SaveMerge {
  import opened Wrappers
  import opened Generators
  import opened GameState

  datatype SavedGenerator = SavedGenerator(
    id: Option<int>,
    name: Option<string>,
    baseCost: Option<real>,
    costMult: Option<real>,
    amount: Option<real>,
    bought: Option<nat>,
    production: Option<real>)

  datatype SavedState = SavedState(
    particles: Option<real>,
    totalParticles: Option<real>,
    prestigeCount: Option<nat>,
    startTime: Option<int>,
    lastTick: Option<int>,
    generators: Option<seq<SavedGenerator>>)

  /** `{ ...fresh, ...g }`: each field the save carries wins. */
  function MergeGenerator(initial: Generator, g: SavedGenerator): Generator {
    Generator(
      g.id.GetOr(initial.id),
      g.name.GetOr(initial.name),
      g.baseCost.GetOr(initial.baseCost),
      g.costMult.GetOr(initial.costMult),
      g.amount.GetOr(initial.amount),
      g.bought.GetOr(initial.bought),
      g.production.GetOr(initial.production))
  }

  predicate Complete(g: SavedGenerator) {
    g.id.Some? && g.name.Some? && g.baseCost.Some? && g.costMult.Some? &&
    g.amount.Some? && g.bought.Some? && g.production.Some?
  }

  /** A saved generator beyond the fresh list has nothing to fall back on; it is
      a whole generator only when the save carries every field. */
  function CompleteGenerator(g: SavedGenerator): (r: Option<Generator>)
    ensures r.Some? <==> Complete(g)
    ensures r.Some? ==> forall other: Generator :: MergeGenerator(other, g) == r.value
  {
    if Complete(g) then
      Some(Generator(g.id.value, g.name.value, g.baseCost.value, g.costMult.value,
                     g.amount.value, g.bought.value, g.production.value))
    else None
  }

  /** `parsed.generators.map((g, i) => ({ ...fresh.generators[i], ...g }))`. */
  function MergeGenerators(initial: seq<Generator>, saved: seq<SavedGenerator>): (r: Option<seq<Generator>>)
    ensures r.Some? <==> forall i :: |initial| <= i < |saved| ==> Complete(saved[i])
    ensures r.Some? ==> |r.value| == |saved|
    ensures r.Some? ==> forall i :: 0 <= i < |saved| && i < |initial| ==>
      r.value[i] == MergeGenerator(initial[i], saved[i])
    ensures r.Some? ==> forall i :: |initial| <= i < |saved| ==>
      r.value[i] == CompleteGenerator(saved[i]).value
  {
    if forall i :: |initial| <= i < |saved| ==> Complete(saved[i]) then
      Some(seq(|saved|, i requires 0 <= i < |saved| =>
        if i < |initial| then MergeGenerator(initial[i], saved[i]) else CompleteGenerator(saved[i]).value))
    else None
  }

  /** `{ ...fresh, ...parsed }`, then the per-generator merge when the save has a
      generator list, then the `prestigeCount` default. */
  function Merge(initial: State, saved: SavedState): (r: Option<State>)
    ensures saved.generators.None? ==> r.Some? && r.value.generators == initial.generators
    ensures saved.generators.Some? ==>
      (r.Some? <==> MergeGenerators(initial.generators, saved.generators.value).Some?)
    ensures r.Some? && saved.generators.Some? ==> |r.value.generators| == |saved.generators.value|
    ensures r.Some? && saved.generators.Some? ==>
      r.value.generators == MergeGenerators(initial.generators, saved.generators.value).value
  {
    var gens := match saved.generators
      case None => Some(initial.generators)
      case Some(gs) => MergeGenerators(initial.generators, gs);
    if gens.None? then None
    else Some(State(
      saved.particles.GetOr(initial.particles),
      saved.totalParticles.GetOr(initial.totalParticles),
      saved.prestigeCount.GetOr(initial.prestigeCount),
      saved.startTime.GetOr(initial.startTime),
      saved.lastTick.GetOr(initial.lastTick),
      gens.value))
  }

  /** Every top-level field comes from the save when present, from the fresh
      state otherwise; over `getInitialState`, a missing `prestigeCount` is 0. */
  lemma MergeTopLevel(initial: State, saved: SavedState)
    requires Merge(initial, saved).Some?
    ensures var r := Merge(initial, saved).value;
      r.particles == (if saved.particles.Some? then saved.particles.value else initial.particles) &&
      r.totalParticles == (if saved.totalParticles.Some? then saved.totalParticles.value else initial.totalParticles) &&
      r.prestigeCount == (if saved.prestigeCount.Some? then saved.prestigeCount.value else initial.prestigeCount) &&
      r.startTime == (if saved.startTime.Some? then saved.startTime.value else initial.startTime) &&
      r.lastTick == (if saved.lastTick.Some? then saved.lastTick.value else initial.lastTick)
    ensures forall now: int :: initial == InitialState(now) && saved.prestigeCount.None? ==>
      Merge(initial, saved).value.prestigeCount == 0
  {
  }

  /** Each merged generator `i` takes every field the save carries for it, and
      fresh generator `i`'s value for every field it lacks. */
  lemma MergeGeneratorFields(initial: Generator, g: SavedGenerator)
    ensures var r := MergeGenerator(initial, g);
      (g.baseCost.Some? ==> r.baseCost == g.baseCost.value) && (g.baseCost.None? ==> r.baseCost == initial.baseCost) &&
      (g.costMult.Some? ==> r.costMult == g.costMult.value) && (g.costMult.None? ==> r.costMult == initial.costMult) &&
      (g.amount.Some? ==> r.amount == g.amount.value) && (g.amount.None? ==> r.amount == initial.amount) &&
      (g.bought.Some? ==> r.bought == g.bought.value) && (g.bought.None? ==> r.bought == initial.bought) &&
      (g.production.Some? ==> r.production == g.production.value) && (g.production.None? ==> r.production == initial.production) &&
      (g.id.Some? ==> r.id == g.id.value) && (g.id.None? ==> r.id == initial.id) &&
      (g.name.Some? ==> r.name == g.name.value) && (g.name.None? ==> r.name == initial.name)
  {
  }

  // ---------------------------------------------------------------------------
  // Saving

  function ToSavedGenerator(g: Generator): SavedGenerator {
    SavedGenerator(Some(g.id), Some(g.name), Some(g.baseCost), Some(g.costMult),
                   Some(g.amount), Some(g.bought), Some(g.production))
  }

  /** The record `saveGame` writes: every field present. */
  function ToSaved(s: State): SavedState {
    SavedState(Some(s.particles), Some(s.totalParticles), Some(s.prestigeCount),
               Some(s.startTime), Some(s.lastTick),
               Some(seq(|s.generators|, i requires 0 <= i < |s.generators| => ToSavedGenerator(s.generators[i]))))
  }

  /** The record with no fields at all. */
  const EmptySave: SavedState := SavedState(None, None, None, None, None, None)

  /** A complete save merged over any fresh state gives back exactly the saved state. */
  lemma MergeSavedRoundTrip(initial: State, s: State)
    ensures Merge(initial, ToSaved(s)) == Some(s)
  {
    var saved := ToSaved(s).generators.value;
    forall i | |initial.generators| <= i < |saved|
      ensures Complete(saved[i])
    {
    }
    var merged := MergeGenerators(initial.generators, saved).value;
    forall i | 0 <= i < |saved|
      ensures merged[i] == s.generators[i]
    {
    }
    assert merged == s.generators;
  }

  /** An empty save merged over a fresh state gives back that state. */
  lemma MergeEmptySave(initial: State)
    ensures Merge(initial, EmptySave) == Some(initial)
  {
  }

  // ---------------------------------------------------------------------------
  // Loading

  /** `parsed.lastTick || Date.now()`: a missing or zero timestamp means "now". */
  function SavedLastTick(saved: SavedState, now: int): (t: int)
    ensures saved.lastTick.Some? && saved.lastTick.value != 0 ==> t == saved.lastTick.value
    ensures saved.lastTick.None? || saved.lastTick.value == 0 ==> t == now
  {
    match saved.lastTick
    case Some(t) => if t != 0 then t else now
    case None => now
  }

  /** The absence, in seconds, that `loadGame` hands to the offline replay. */
  function OfflineGap(saved: SavedState, now: int): real {
    (now - SavedLastTick(saved, now)) as real / 1000.0
  }

  /** `loadGame` with the stored blob already parsed (`None`: no blob, or one
      that does not parse). The merged state replaces the current one, is
      replayed over an absence of more than a second, and is stamped with `now`.
      With no generators the replay throws on its first read of tier 0; the
      catch keeps the merged state as it stands. */
  function Loaded(current: State, data: Option<SavedState>, now: int): State {
    match data
    case None => current
    case Some(parsed) =>
      match Merge(InitialState(now), parsed)
      case None => current
      case Some(merged) =>
        var gap := OfflineGap(parsed, now);
        if gap <= 1.0 then merged.(lastTick := now)
        else if |merged.generators| == 0 then merged
        else OfflineReplay(merged, gap).(lastTick := now)
  }

  /** Loading depends on the blob and the clock alone, never on the state held
      before, so loading the same blob twice gives the same state. */
  lemma LoadedIgnoresCurrent(c1: State, c2: State, parsed: SavedState, now: int)
    requires Merge(InitialState(now), parsed).Some?
    ensures Loaded(c1, Some(parsed), now) == Loaded(c2, Some(parsed), now)
    ensures Loaded(Loaded(c1, Some(parsed), now), Some(parsed), now) == Loaded(c1, Some(parsed), now)
  {
  }

  /** Saving and loading again within a second restores the state, except that
      its last tick becomes the load time. */
  lemma SaveLoadRoundTrip(current: State, s: State, now: int)
    requires s.lastTick == 0 || now - s.lastTick <= 1000
    ensures Loaded(current, Some(ToSaved(s)), now) == s.(lastTick := now)
  {
    MergeSavedRoundTrip(InitialState(now), s);
  }

  /** After a longer absence the restored state has been replayed over it. */
  lemma SaveLoadAfterAbsence(current: State, s: State, now: int)
    requires s.lastTick != 0 && now - s.lastTick > 1000 && |s.generators| > 0
    ensures Loaded(current, Some(ToSaved(s)), now)
         == OfflineReplay(s, (now - s.lastTick) as real / 1000.0).(lastTick := now)
  {
    MergeSavedRoundTrip(InitialState(now), s);
  }
}
