/**
 * Settings of the schedule-graph renderer: a theme, two optional
 * predicates that the (external) graph builder consults, and four toggles.
 * The builder methods are functional record updates that install one
 * predicate and leave everything else as it was.
 */
module ScheduleSettings {
  import opened Ecs
  import DotStyle

  /** Decides whether a system (and, by the builder's contract, its ancestor sets) is drawn. */
  type IncludeSystemFn = System -> bool

  /**
   * Decides whether a conflict between two systems over the given contended
   * components is reported; the world resolves component ids to types.
   */
  type IncludeAmbiguityFn = (System, System, seq<ComponentId>, World) -> bool

  // ----- The string and slice primitives the predicates are built from -----

  /** `str::starts_with`: a case-sensitive comparison of the leading characters. */
  function StartsWith(name: string, prefix: string): (r: bool)
    ensures r <==> prefix <= name
  {
    if |prefix| == 0 then true
    else if |name| == 0 then false
    else name[0] == prefix[0] && StartsWith(name[1..], prefix[1..])
  }

  /** `crates.iter().any(|c| name.starts_with(c))`, scanning from the front. */
  function AnyStartsWith(crates: seq<string>, name: string): (r: bool)
    ensures r <==> exists i :: 0 <= i < |crates| && crates[i] <= name
  {
    if |crates| == 0 then false
    else StartsWith(name, crates[0]) || AnyStartsWith(crates[1..], name)
  }

  /** `type_ids.contains(&t)`, scanning from the front. */
  function Contains(typeIds: seq<TypeId>, t: TypeId): (r: bool)
    ensures r <==> t in typeIds
  {
    if |typeIds| == 0 then false
    else typeIds[0] == t || Contains(typeIds[1..], t)
  }

  // ----- The predicates the builder methods install -----

  /** The closure of `filter_in_crate`. */
  function InCrate(crate: string): (f: IncludeSystemFn)
    ensures forall system :: f(system) <==> crate <= system.name
  {
    (system: System) => StartsWith(system.name, crate)
  }

  /** The closure of `filter_in_crates`. */
  function InCrates(crates: seq<string>): (f: IncludeSystemFn)
    ensures forall system :: f(system) <==> exists i :: 0 <= i < |crates| && crates[i] <= system.name
  {
    (system: System) => AnyStartsWith(crates, system.name)
  }

  /**
   * The closure of `without_single_ambiguities_on`: anything but exactly one
   * conflicting component is reported; so is a component whose type cannot
   * be resolved; a resolved type is reported unless it is listed.
   */
  function SingleAmbiguityFilter(typeIds: seq<TypeId>): (f: IncludeAmbiguityFn)
    ensures forall a, b, conflicts, world :: f(a, b, conflicts, world) <==> !Suppressed(typeIds, conflicts, world)
  {
    (_: System, _: System, conflicts: seq<ComponentId>, world: World) =>
      if |conflicts| != 1 then true
      else match ResolveType(world, conflicts[0])
        case None => true
        case Some(t) => !Contains(typeIds, t)
  }

  /** A conflict the ambiguity closure hides: one component, of a resolved and listed type. */
  predicate Suppressed(typeIds: seq<TypeId>, conflicts: seq<ComponentId>, world: World) {
    && |conflicts| == 1
    && conflicts[0] in world.components
    && world.components[conflicts[0]].typeId.Some?
    && world.components[conflicts[0]].typeId.value in typeIds
  }

  // ----- Settings -----

  datatype Settings = Settings(
    style: DotStyle.Style,
    includeSystem: Option<IncludeSystemFn>,
    collapseSingleSystemSets: bool,
    ambiguityEnable: bool,
    ambiguityEnableOnWorld: bool,
    includeAmbiguity: Option<IncludeAmbiguityFn>,
    prettifySystemNames: bool)
  {

    static function Default(): Settings {
      Settings(
        style := DotStyle.Style.Default(),
        includeSystem := None,
        collapseSingleSystemSets := false,
        ambiguityEnable := true,
        ambiguityEnableOnWorld := false,
        includeAmbiguity := None,
        prettifySystemNames := true)
    }

    /** Keep only systems whose name starts with `crate`. */
    function FilterInCrate(crate: string): (r: Settings)
      ensures r == this.(includeSystem := r.includeSystem)
      ensures r.includeSystem.Some?
      ensures forall system :: r.includeSystem.value(system) <==> crate <= system.name
    {
      this.(includeSystem := Some(InCrate(crate)))
    }

    /** Keep only systems whose name starts with one of `crates`. */
    function FilterInCrates(crates: seq<string>): (r: Settings)
      ensures r == this.(includeSystem := r.includeSystem)
      ensures r.includeSystem.Some?
      ensures forall system :: r.includeSystem.value(system) <==>
                exists i :: 0 <= i < |crates| && crates[i] <= system.name
    {
      this.(includeSystem := Some(InCrates(crates)))
    }

    /** Hide conflicts over exactly one component whose type is in `typeIds`. */
    function WithoutSingleAmbiguitiesOn(typeIds: seq<TypeId>): (r: Settings)
      ensures r == this.(includeAmbiguity := r.includeAmbiguity)
      ensures r.includeAmbiguity.Some?
      ensures forall a, b, conflicts, world :: r.includeAmbiguity.value(a, b, conflicts, world) <==>
                !Suppressed(typeIds, conflicts, world)
    {
      this.(includeAmbiguity := Some(SingleAmbiguityFilter(typeIds)))
    }
  }

  /** What the graph builder is told about a system: with no predicate, every system is kept. */
  predicate SystemIncluded(settings: Settings, system: System) {
    match settings.includeSystem
    case None => true
    case Some(f) => f(system)
  }

  /** What the graph builder is told about a conflict: with no predicate, every conflict is kept. */
  predicate AmbiguityIncluded(settings: Settings, a: System, b: System,
                              conflicts: seq<ComponentId>, world: World) {
    match settings.includeAmbiguity
    case None => true
    case Some(f) => f(a, b, conflicts, world)
  }

  // ----- Defaults -----

  /**
   * The default settings use the dark code-hosting theme, install no
   * predicate, keep trivial sets apart, detect ambiguities (but not those on
   * whole-world access) and prettify system names.
   */
  lemma DefaultSettingsFields()
    ensures Settings.Default().style == DotStyle.Style.DarkGithub()
    ensures Settings.Default().includeSystem.None?
    ensures Settings.Default().includeAmbiguity.None?
    ensures !Settings.Default().collapseSingleSystemSets
    ensures Settings.Default().ambiguityEnable
    ensures !Settings.Default().ambiguityEnableOnWorld
    ensures Settings.Default().prettifySystemNames
  {
  }

  /** With no predicate installed every system and every conflict is kept. */
  lemma UnsetPredicatesIncludeEverything(settings: Settings, system: System, a: System, b: System,
                                         conflicts: seq<ComponentId>, world: World)
    requires settings.includeSystem.None? && settings.includeAmbiguity.None?
    ensures SystemIncluded(settings, system)
    ensures AmbiguityIncluded(settings, a, b, conflicts, world)
  {
  }

  // ----- Inclusion predicates -----

  /** `filter_in_crate(crate)` keeps exactly the systems whose name has `crate` as a prefix. */
  lemma FilterInCrateIncludes(settings: Settings, crate: string, system: System)
    ensures SystemIncluded(settings.FilterInCrate(crate), system) <==> crate <= system.name
    ensures SystemIncluded(settings.FilterInCrate(""), system)
  {
  }

  /** `filter_in_crates` with no crate keeps nothing; with one crate it is `filter_in_crate`. */
  lemma FilterInCratesDegenerate(settings: Settings, crate: string, system: System)
    ensures !SystemIncluded(settings.FilterInCrates([]), system)
    ensures SystemIncluded(settings.FilterInCrates([crate]), system) <==>
            SystemIncluded(settings.FilterInCrate(crate), system)
    ensures settings.FilterInCrates([crate]).(includeSystem := None) ==
            settings.FilterInCrate(crate).(includeSystem := None)
  {
  }

  /** Splitting the crate list splits the predicate into a disjunction. */
  lemma {:induction false} FilterInCratesAppend(settings: Settings, crates: seq<string>,
                                                more: seq<string>, system: System)
    ensures SystemIncluded(settings.FilterInCrates(crates + more), system) <==>
            SystemIncluded(settings.FilterInCrates(crates), system) ||
            SystemIncluded(settings.FilterInCrates(more), system)
  {
    var all := crates + more;
    if SystemIncluded(settings.FilterInCrates(all), system) {
      var i :| 0 <= i < |all| && all[i] <= system.name;
      if i < |crates| {
        assert crates[i] <= system.name;
      } else {
        assert more[i - |crates|] <= system.name;
      }
    }
    if SystemIncluded(settings.FilterInCrates(crates), system) {
      var i :| 0 <= i < |crates| && crates[i] <= system.name;
      assert all[i] <= system.name;
    }
    if SystemIncluded(settings.FilterInCrates(more), system) {
      var i :| 0 <= i < |more| && more[i] <= system.name;
      assert all[|crates| + i] <= system.name;
    }
  }

  /** A name kept by one of the crates is kept by the list. */
  lemma FilterInCratesMember(settings: Settings, crates: seq<string>, system: System, i: nat)
    requires i < |crates|
    ensures SystemIncluded(settings.FilterInCrate(crates[i]), system) ==>
            SystemIncluded(settings.FilterInCrates(crates), system)
  {
  }

  // ----- Ambiguity predicate -----

  /**
   * The closure installed by `without_single_ambiguities_on` ignores the two
   * systems, keeps every conflict over zero or several components, keeps a
   * single component that is unregistered or has no type, and otherwise
   * hides the conflict exactly when the type is listed.
   */
  lemma SingleAmbiguityCases(settings: Settings, typeIds: seq<TypeId>, a: System, b: System,
                             a': System, b': System, conflicts: seq<ComponentId>, world: World)
    ensures var s := settings.WithoutSingleAmbiguitiesOn(typeIds);
      && (AmbiguityIncluded(s, a, b, conflicts, world) <==> AmbiguityIncluded(s, a', b', conflicts, world))
      && (|conflicts| != 1 ==> AmbiguityIncluded(s, a, b, conflicts, world))
      && (|conflicts| == 1 && conflicts[0] !in world.components ==> AmbiguityIncluded(s, a, b, conflicts, world))
      && (|conflicts| == 1 && conflicts[0] in world.components && world.components[conflicts[0]].typeId.None? ==>
            AmbiguityIncluded(s, a, b, conflicts, world))
      && (|conflicts| == 1 && conflicts[0] in world.components && world.components[conflicts[0]].typeId.Some? ==>
            (AmbiguityIncluded(s, a, b, conflicts, world) <==>
               world.components[conflicts[0]].typeId.value !in typeIds))
  {
  }

  /** Listing more types can only hide more conflicts. */
  lemma SingleAmbiguityMonotone(settings: Settings, typeIds: seq<TypeId>, more: seq<TypeId>,
                                a: System, b: System, conflicts: seq<ComponentId>, world: World)
    requires forall t :: t in typeIds ==> t in more
    ensures !AmbiguityIncluded(settings.WithoutSingleAmbiguitiesOn(typeIds), a, b, conflicts, world) ==>
            !AmbiguityIncluded(settings.WithoutSingleAmbiguitiesOn(more), a, b, conflicts, world)
  {
  }

  // ----- Builders touch one field -----

  /**
   * The two kinds of builder commute, a later inclusion filter replaces an
   * earlier one of either kind, and no builder changes the style.
   */
  lemma BuildersIndependent(settings: Settings, crate: string, other: string,
                            crates: seq<string>, others: seq<string>, typeIds: seq<TypeId>)
    ensures settings.FilterInCrate(crate).WithoutSingleAmbiguitiesOn(typeIds) ==
            settings.WithoutSingleAmbiguitiesOn(typeIds).FilterInCrate(crate)
    ensures settings.FilterInCrates(crates).WithoutSingleAmbiguitiesOn(typeIds) ==
            settings.WithoutSingleAmbiguitiesOn(typeIds).FilterInCrates(crates)
    ensures settings.FilterInCrates(crates).FilterInCrate(crate) == settings.FilterInCrate(crate)
    ensures settings.FilterInCrate(crate).FilterInCrates(crates) == settings.FilterInCrates(crates)
    ensures settings.FilterInCrate(other).FilterInCrate(crate) == settings.FilterInCrate(crate)
    ensures settings.FilterInCrates(others).FilterInCrates(crates) == settings.FilterInCrates(crates)
    ensures settings.FilterInCrate(crate).style == settings.style
    ensures settings.FilterInCrates(crates).style == settings.style
    ensures settings.WithoutSingleAmbiguitiesOn(typeIds).style == settings.style
  {
  }

  // ----- Scenarios -----

  /** A crate filter keeps every system named inside the crate. */
  lemma FilterInCrateKeeps(settings: Settings, crate: string, rest: string)
    ensures SystemIncluded(settings.FilterInCrate(crate), System(crate + rest))
  {
  }

  /** A crate filter drops a system whose name disagrees with the crate at some position. */
  lemma FilterInCrateDrops(settings: Settings, crate: string, name: string, k: nat)
    requires k < |crate| && k < |name| && name[k] != crate[k]
    ensures !SystemIncluded(settings.FilterInCrate(crate), System(name))
  {
  }

  /** Filtering on one crate keeps that crate's systems and drops others, case-sensitively. */
  lemma PhysicsCrateScenario(settings: Settings)
    ensures var s := settings.FilterInCrate("game::physics");
      && SystemIncluded(s, System("game::physics::integrate"))
      && !SystemIncluded(s, System("game::render::draw"))
      && !SystemIncluded(s, System("Game::physics::integrate"))
  {
    var crate := "game::physics";
    assert "game::physics::integrate" == crate + "::integrate";
    FilterInCrateKeeps(settings, crate, "::integrate");
    FilterInCrateDrops(settings, crate, "game::render::draw", 6);
    FilterInCrateDrops(settings, crate, "Game::physics::integrate", 0);
  }

  /** Hiding single conflicts on one type hides a conflict over that type alone, not over two. */
  lemma TransformScenario(a: System, b: System)
    ensures var transform, velocity := 7, 9;
      var world := World(map[1 := ComponentInfo(Some(transform)), 2 := ComponentInfo(Some(velocity))]);
      var s := Settings.Default().WithoutSingleAmbiguitiesOn([transform]);
      && !AmbiguityIncluded(s, a, b, [1], world)
      && AmbiguityIncluded(s, a, b, [1, 2], world)
      && AmbiguityIncluded(s, a, b, [2], world)
      && AmbiguityIncluded(s, a, b, [3], world)
  {
  }
}
