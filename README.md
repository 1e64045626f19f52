# Schedule-graph settings, modelled in Dafny

This project models the configuration layer of `bevy_mod_debugdump`'s
schedule-graph renderer (`src/schedule_graph/settings.rs`). It covers:

- the two closed enumerations `RankDir` and `EdgeStyle` and their fixed
  Graphviz DOT tokens;
- the `Style` theme and its three presets (`light`, `dark_discord`,
  `dark_github`), with `Style::default()` being `dark_github`;
- the `Settings` record with its defaults and its three builder methods.
  `filter_in_crate` and `filter_in_crates` install a system-inclusion
  predicate. `without_single_ambiguities_on` installs an
  ambiguity-inclusion predicate.

Files:

- `ecs.dfy` (module `Ecs`) is the part of the ECS runtime that the
  predicates observe. A system is reduced to its name. The world is reduced
  to a map from component id to `ComponentInfo`, whose type id may be absent.
- `style.dfy` (module `DotStyle`) holds the enumerations, the presets and
  their lemmas.
- `settings.dfy` (module `ScheduleSettings`) holds `Settings`, the closures
  and their lemmas.

The closures stay function values (`System -> bool` and
`(System, System, seq<ComponentId>, World) -> bool`). A user can still
store any predicate of their own in a `Settings` value. Each builder is a
functional record update of one field. Rust's `str::starts_with`,
`Iterator::any` and `slice::contains` are written as recursive scans.
Their contracts tie them to Dafny's own prefix, `exists` and `in`.

The conflict list is a slice in the source, so it is a sequence here, not
a set. A conflict that names the same component twice has length 2, so
the helper never suppresses it. The code is followed on this point.

## Model

| member | source | states |
|---|---|---|
| `DotStyle.RankDir.AsDot` | src/schedule_graph/settings.rs:11-17 | every layout token is two upper-case letters |
| `DotStyle.RankDir.Default` | src/schedule_graph/settings.rs:5-10 | no contract of its own; its value, `LeftRight`, is stated by `RankDirTokens` |
| `DotStyle.RankDirTokens` | src/schedule_graph/settings.rs:5-17 | `TopDown` gives "TD", `LeftRight` gives "LR", and the default is `LeftRight` |
| `DotStyle.RankDirAsDotInjective` | src/schedule_graph/settings.rs:11-17 | two directions have the same token iff they are the same direction |
| `DotStyle.EdgeStyle.AsDot` | src/schedule_graph/settings.rs:30-40 | every `splines` token is a non-empty lower-case word |
| `DotStyle.EdgeStyle.Default` | src/schedule_graph/settings.rs:20-29 | no contract of its own; its value, `Spline`, is stated by `EdgeStyleTokens` |
| `DotStyle.EdgeStyleTokens` | src/schedule_graph/settings.rs:20-40 | None, Line, Polyline, Curved, Ortho and Spline give "none", "line", "polyline", "curved", "ortho" and "spline"; the default is `Spline` |
| `DotStyle.EdgeStyleAsDotInjective` | src/schedule_graph/settings.rs:30-40 | two edge styles have the same token iff they are the same style |
| `DotStyle.PresetCommonFields` | src/schedule_graph/settings.rs:65-153 | every preset uses the default rankdir ("LR") and edge style ("spline"), Helvetica, black set borders, "blue" for multi-set edges and "#c93526" for ambiguities; its palette has 11 colours, none repeated, and is the same as `light`'s |
| `DotStyle.PresetsDifferOnlyInThemeColors` | src/schedule_graph/settings.rs:65-153 | the three presets share one palette; any two agree on every field except background, system, system-border, set and ambiguity-background colours; their backgrounds are pairwise distinct |
| `DotStyle.DefaultStyleIsDarkGithub` | src/schedule_graph/settings.rs:155-159 | `Style::default()` is the `dark_github` preset (background "#0d1117") |
| `DotStyle.Style.Light` | src/schedule_graph/settings.rs:65-93 | no contract of its own; its fields are stated by `PresetCommonFields` and `PresetsDifferOnlyInThemeColors` |
| `DotStyle.Style.DarkDiscord` | src/schedule_graph/settings.rs:95-123 | no contract of its own; its fields are stated by `PresetCommonFields` and `PresetsDifferOnlyInThemeColors` |
| `DotStyle.Style.DarkGithub` | src/schedule_graph/settings.rs:125-153 | no contract of its own; its fields are stated by `PresetCommonFields`, `PresetsDifferOnlyInThemeColors` and `DefaultStyleIsDarkGithub` |
| `DotStyle.Style.Default` | src/schedule_graph/settings.rs:155-159 | no contract of its own; `DefaultStyleIsDarkGithub` states that it is `dark_github` |
| `ScheduleSettings.StartsWith` | src/schedule_graph/settings.rs:187 | the character scan accepts iff the prefix is a prefix of the name (case-sensitive, no normalisation) |
| `ScheduleSettings.AnyStartsWith` | src/schedule_graph/settings.rs:195 | the scan over crates accepts iff some crate is a prefix of the name |
| `ScheduleSettings.Contains` | src/schedule_graph/settings.rs:205 | the scan over type ids accepts iff the type id is in the list |
| `ScheduleSettings.InCrate` | src/schedule_graph/settings.rs:185-188 | the closure holds for a system iff `crate` is a prefix of its name |
| `ScheduleSettings.InCrates` | src/schedule_graph/settings.rs:193-196 | the closure holds for a system iff some listed crate is a prefix of its name |
| `ScheduleSettings.SingleAmbiguityFilter` | src/schedule_graph/settings.rs:202-206 | the closure is false iff there is exactly one conflicting component, it is registered, it has a type id, and that type id is listed; the two systems play no part |
| `ScheduleSettings.Settings.FilterInCrate` | src/schedule_graph/settings.rs:183-190 | installs a predicate that holds for a system iff `crate` is a prefix of its name; every other field is unchanged |
| `ScheduleSettings.Settings.FilterInCrates` | src/schedule_graph/settings.rs:191-198 | installs a predicate that holds for a system iff some listed crate is a prefix of its name; every other field is unchanged |
| `ScheduleSettings.Settings.WithoutSingleAmbiguitiesOn` | src/schedule_graph/settings.rs:200-208 | installs a predicate that is false iff there is exactly one conflicting component and it resolves to a listed type; every other field is unchanged |
| `ScheduleSettings.Settings.Default` | src/schedule_graph/settings.rs:211-226 | no contract of its own; its fields are stated by `DefaultSettingsFields` |
| `ScheduleSettings.DefaultSettingsFields` | src/schedule_graph/settings.rs:211-226 | the default settings use `dark_github` and set no predicate; collapse is off, ambiguity detection on, world ambiguities off and name prettifying on |
| `ScheduleSettings.UnsetPredicatesIncludeEverything` | src/schedule_graph/settings.rs:171-177 | a settings value with no predicates keeps every system and every conflict |
| `ScheduleSettings.FilterInCrateIncludes` | src/schedule_graph/settings.rs:183-190 | after `filter_in_crate(p)` a system is kept iff `p` is a prefix of its name; with `p` empty every system is kept |
| `ScheduleSettings.FilterInCratesDegenerate` | src/schedule_graph/settings.rs:183-198 | `filter_in_crates([])` keeps no system; `filter_in_crates([p])` keeps the same systems as `filter_in_crate(p)` and sets every other field the same way |
| `ScheduleSettings.FilterInCratesAppend` | src/schedule_graph/settings.rs:191-198 | the predicate for a concatenated crate list is the disjunction of the predicates for its two parts |
| `ScheduleSettings.FilterInCratesMember` | src/schedule_graph/settings.rs:191-198 | a system kept by the filter for one listed crate is kept by the filter for the whole list |
| `ScheduleSettings.SingleAmbiguityCases` | src/schedule_graph/settings.rs:200-208 | the installed predicate ignores both systems. It keeps every conflict whose length is not 1. It keeps a single unregistered or untyped component. For a single typed component it keeps the conflict iff the type is not listed |
| `ScheduleSettings.SingleAmbiguityMonotone` | src/schedule_graph/settings.rs:200-208 | listing more type ids can only hide more conflicts |
| `ScheduleSettings.BuildersIndependent` | src/schedule_graph/settings.rs:182-209 | the inclusion and ambiguity builders commute. A later inclusion filter replaces an earlier one of either kind (`filter_in_crate` or `filter_in_crates`). None of the three builders changes the style |
| `ScheduleSettings.FilterInCrateKeeps` | src/schedule_graph/settings.rs:183-190 | after `filter_in_crate(p)` every system whose name is `p` followed by anything is kept |
| `ScheduleSettings.FilterInCrateDrops` | src/schedule_graph/settings.rs:183-190 | after `filter_in_crate(p)` a system whose name differs from `p` at some position within both is dropped |
| `ScheduleSettings.PhysicsCrateScenario` | src/schedule_graph/settings.rs:183-190 | a filter on "game::physics" keeps "game::physics::integrate" and drops "game::render::draw" and "Game::physics::integrate" |
| `ScheduleSettings.TransformScenario` | src/schedule_graph/settings.rs:200-208 | when only the `Transform` type is listed, a conflict over `Transform` alone is hidden. Conflicts over `{Transform, Velocity}`, over `Velocity` alone and over an unregistered component are kept |

## Left out

- `penwidth_edge`: this `f32` field is not modelled, because floating point is out of scope. Each preset sets it to 2.0.
- The graph builder that consumes `Settings` is not part of this model. So ancestor-set inclusion, edge-colour cycling, and the effect of `collapse_single_system_sets`, `ambiguity_enable`, `ambiguity_enable_on_world` and `prettify_system_names` are not modelled. Those toggles are only stored and defaulted. `SystemIncluded` and `AmbiguityIncluded` record only the documented "unset means keep everything" reading.
- The ECS runtime (`System`, `World::components().get_info`, `ComponentInfo::type_id`) is foreign code. It is abstracted to a name and a component registry map.
- GetInfo: defines the abstracted `get_info(..)` lookup over the registry map; its contract only describes that abstraction and is not a proved property of the source.
- ResolveType: defines the abstracted `get_info(..).and_then(type_id)` lookup; its contract only describes that abstraction. What the lookup means for the ambiguity predicate is stated over the raw map by `SingleAmbiguityCases` and `SingleAmbiguityFilter`.
- Boxing, ownership, `Clone`/`Copy` derivations and the conversion of `&str` to owned strings have no behavioural content and are not modelled.
- Strings are sequences of characters, while Rust compares UTF-8 bytes. For `starts_with` the two agree, because UTF-8 encoding is prefix-preserving on whole characters.
- Colour strings are plain literals. The source never checks their syntax, and neither does the model.
