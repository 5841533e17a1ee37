/** Which change of an authority receipt is recognized as an update, and what a
    recognized update can have changed.  A snapshot digest is a function of the
    receipt it is taken of. */
module AuthorityUpdate {
  import opened Wrappers
  import opened SemVer

  /** Marketplace, plugin and version of a cached package. */
  type Package = seq<string>

  const FOLDED: Package -> Package

  /** The path segments of a cache row key, folded; `None` when it names no path. */
  const ROW_PATH: string -> Option<seq<string>>

  const BUNDLED_MARKETPLACE := "openai-bundled"
  const PRIMARY_RUNTIME_MARKETPLACE := "openai-primary-runtime"
  const WORKER_BOM_KEY := "worker-runtime-bom"

  datatype App = App(version: string, runtime: nat, cli: nat, rest: nat)
  datatype Bundle = Bundle(packages: set<Package>, rest: nat)
  datatype Origin = Origin(version: string, packages: set<Package>, rest: nat)

  /** What a configuration leaf controls. */
  datatype Binding = Binding(
    availability: bool, kind: string, key: string,
    capabilities: set<string>, required: set<string>, enabled: Option<bool>)

  datatype Config = Config(projection: nat, leaves: map<string, nat>, bindings: map<string, Binding>)

  datatype Receipt = Receipt(
    config: Config, sources: map<string, nat>, app: App, bundle: Bundle, primary: Origin,
    catalog: nat, origins: nat,
    surfaces: map<Package, nat>, manifests: map<Package, nat>, rows: map<string, nat>,
    inventory: nat, snapshot: nat)

  const SNAPSHOT_OF: Receipt -> nat

  /** The part of a catalogue that carries authority. */
  const CATALOG_AUTHORITY: nat -> nat

  /** The shape checks on a receipt that no property here depends on. */
  const WELL_SHAPED: Receipt -> bool

  /** The cohort checks inside one package of each lane. */
  const APP_COHORT: (Receipt, Receipt) -> bool
  const PRIMARY_COHORT: (Receipt, Receipt) -> bool
  const PLUGIN_COHORT: (Receipt, Receipt) -> bool

  predicate FromMarketplace(packages: set<Package>, marketplace: string) {
    forall p :: p in packages ==> |p| == 3 && p[0] == marketplace && FOLDED(p) == p
  }

  predicate Valid(r: Receipt) {
    && WELL_SHAPED(r)
    && KeyOf(r.app.version).Some? && KeyOf(r.primary.version).Some?
    && FromMarketplace(r.bundle.packages, BUNDLED_MARKETPLACE)
    && FromMarketplace(r.primary.packages, PRIMARY_RUNTIME_MARKETPLACE)
  }

  function Digested(r: Receipt): Receipt {
    r.(snapshot := SNAPSHOT_OF(r.(snapshot := 0)))
  }

  function Changed<K, V(==)>(previous: map<K, V>, current: map<K, V>): set<K> {
    set key | key in previous.Keys + current.Keys && Get(previous, key) != Get(current, key)
  }

  // ---------------------------------------------------------------------
  // Scopes
  // ---------------------------------------------------------------------

  predicate Selected(package: Package, packages: set<Package>) {
    exists p :: p in packages && FOLDED(package) == FOLDED(p)
  }

  predicate Belongs(row: string, package: Package) {
    ROW_PATH(row).Some? && FOLDED(package) <= ROW_PATH(row).value
  }

  predicate RowSelected(row: string, packages: set<Package>) {
    exists p :: p in packages && Belongs(row, p)
  }

  function AppScope(previous: Receipt, current: Receipt): set<Package> {
    previous.bundle.packages + current.bundle.packages
  }

  function PrimaryScope(previous: Receipt, current: Receipt): set<Package> {
    previous.primary.packages + current.primary.packages
  }

  /** No package and no row can belong to both an app and a primary-runtime scope. */
  lemma ScopesAreDisjoint(previous: Receipt, current: Receipt, package: Package, row: string)
    requires Valid(previous) && Valid(current)
    ensures AppScope(previous, current) !! PrimaryScope(previous, current)
    ensures !(Selected(package, AppScope(previous, current)) && Selected(package, PrimaryScope(previous, current)))
    ensures !(RowSelected(row, AppScope(previous, current)) && RowSelected(row, PrimaryScope(previous, current)))
  {
    var app, primary := AppScope(previous, current), PrimaryScope(previous, current);
    assert BUNDLED_MARKETPLACE != PRIMARY_RUNTIME_MARKETPLACE by {
      assert |BUNDLED_MARKETPLACE| != |PRIMARY_RUNTIME_MARKETPLACE|;
    }
    forall p | p in app ensures |p| == 3 && p[0] == BUNDLED_MARKETPLACE && FOLDED(p) == p {}
    forall p | p in primary ensures |p| == 3 && p[0] == PRIMARY_RUNTIME_MARKETPLACE && FOLDED(p) == p {}
  }

  // ---------------------------------------------------------------------
  // Replacing the authority of some packages
  // ---------------------------------------------------------------------

  /** `target` with the selected keys as in `source`, the others untouched. */
  function Overlaid<K, V>(target: map<K, V>, source: map<K, V>, selected: K -> bool): map<K, V> {
    map key | key in target.Keys + source.Keys && (if selected(key) then key in source else key in target)
      :: if selected(key) then source[key] else target[key]
  }

  function Overlay(target: Receipt, source: Receipt, packages: set<Package>): Receipt {
    target.(
      surfaces := Overlaid(target.surfaces, source.surfaces, p => Selected(p, packages)),
      manifests := Overlaid(target.manifests, source.manifests, p => Selected(p, packages)),
      rows := Overlaid(target.rows, source.rows, row => RowSelected(row, packages)))
  }

  lemma OverlaidAt<K(!new), V>(target: map<K, V>, source: map<K, V>, selected: K -> bool, key: K)
    ensures Get(Overlaid(target, source, selected), key) == if selected(key) then Get(source, key) else Get(target, key)
  {
  }

  /** Drops the selected keys of one dictionary, then copies those of another. */
  method ReplaceSelected<K(==, !new), V(==)>(target: map<K, V>, source: map<K, V>, selected: K -> bool)
    returns (r: map<K, V>)
    ensures r == Overlaid(target, source, selected)
  {
    r := target;
    var todo := target.Keys;
    while todo != {}
      invariant todo <= target.Keys
      invariant forall key :: Get(r, key) == if key !in todo && selected(key) then None else Get(target, key)
      decreases todo
    {
      var key :| key in todo;
      if selected(key) { r := r - {key}; }
      todo := todo - {key};
    }
    todo := source.Keys;
    while todo != {}
      invariant todo <= source.Keys
      invariant forall key :: Get(r, key) == if !selected(key) then Get(target, key) else if key in todo then None
          else Get(source, key)
      decreases todo
    {
      var key :| key in todo;
      if selected(key) { r := r[key := source[key]]; }
      todo := todo - {key};
    }
    forall key ensures Get(r, key) == Get(Overlaid(target, source, selected), key) {
      OverlaidAt(target, source, selected, key);
    }
    SameLookups(r, Overlaid(target, source, selected));
  }

  /** A receipt being put together. */
  class Draft {
    var receipt: Receipt

    constructor (given: Receipt)
      ensures receipt == given
    {
      receipt := given;
    }

    method ReplaceAuthority(source: Receipt, packages: set<Package>)
      modifies this
      ensures receipt == Overlay(old(receipt), source, packages)
    {
      var surfaces := ReplaceSelected(receipt.surfaces, source.surfaces, p => Selected(p, packages));
      var manifests := ReplaceSelected(receipt.manifests, source.manifests, p => Selected(p, packages));
      var rows := ReplaceSelected(receipt.rows, source.rows, row => RowSelected(row, packages));
      receipt := receipt.(surfaces := surfaces, manifests := manifests, rows := rows);
    }
  }

  // ---------------------------------------------------------------------
  // Taking one observed change apart
  // ---------------------------------------------------------------------

  /** The app part of the change, applied to `target`. */
  function WithApp(target: Receipt, previous: Receipt, current: Receipt): Receipt {
    Overlay(target.(config := current.config, app := current.app, bundle := current.bundle, catalog := current.catalog),
      current, AppScope(previous, current)).(inventory := current.inventory)
  }

  /** The primary-runtime part of the change, applied to `target`. */
  function WithPrimary(target: Receipt, previous: Receipt, current: Receipt): Receipt {
    Overlay(target.(primary := current.primary, catalog := current.catalog),
      current, PrimaryScope(previous, current)).(inventory := current.inventory)
  }

  datatype Parts = Parts(appOnly: Receipt, primaryOnly: Receipt, composed: Receipt)

  function PartsOf(previous: Receipt, current: Receipt): Parts {
    Parts(
      Digested(WithApp(previous, previous, current)),
      Digested(WithPrimary(previous, previous, current)),
      Digested(WithPrimary(Digested(WithApp(previous, previous, current)), previous, current)))
  }

  /** The two partial receipts and their composition; nothing when scopes overlap. */
  method Decompose(previous: Receipt, current: Receipt) returns (r: Option<Parts>)
    ensures r == if AppScope(previous, current) !! PrimaryScope(previous, current)
                 then Some(PartsOf(previous, current)) else None
  {
    if !(AppScope(previous, current) !! PrimaryScope(previous, current)) { return None; }
    var app := new Draft(previous.(
      config := current.config, app := current.app, bundle := current.bundle, catalog := current.catalog));
    app.ReplaceAuthority(current, AppScope(previous, current));
    var appOnly := Digested(app.receipt.(inventory := current.inventory));
    var primary := new Draft(previous.(primary := current.primary, catalog := current.catalog));
    primary.ReplaceAuthority(current, PrimaryScope(previous, current));
    var primaryOnly := Digested(primary.receipt.(inventory := current.inventory));
    var both := new Draft(appOnly.(primary := current.primary, catalog := current.catalog));
    both.ReplaceAuthority(current, PrimaryScope(previous, current));
    var composed := Digested(both.receipt.(inventory := current.inventory));
    return Some(Parts(appOnly, primaryOnly, composed));
  }

  /** Nothing outside `packages` differs. */
  ghost predicate OnlyWithin(previous: Receipt, current: Receipt, packages: set<Package>) {
    && (forall p :: !Selected(p, packages) ==> Get(current.surfaces, p) == Get(previous.surfaces, p))
    && (forall p :: !Selected(p, packages) ==> Get(current.manifests, p) == Get(previous.manifests, p))
    && (forall row :: !RowSelected(row, packages) ==> Get(current.rows, row) == Get(previous.rows, row))
  }

  // ---------------------------------------------------------------------
  // The lanes
  // ---------------------------------------------------------------------

  predicate Newer(current: string, previous: string) {
    KeyOf(previous).Some? && KeyOf(current).Some? && Less(KeyOf(previous).value, KeyOf(current).value)
  }

  predicate AppUpdate(previous: Receipt, current: Receipt) {
    && Valid(previous) && Valid(current)
    && previous.sources == current.sources && previous.primary == current.primary
    && CATALOG_AUTHORITY(previous.catalog) == CATALOG_AUTHORITY(current.catalog)
    && Newer(current.app.version, previous.app.version)
    && previous.app.runtime != current.app.runtime && previous.app.cli != current.app.cli
    && previous.origins == current.origins
    && previous.inventory != current.inventory
    && APP_COHORT(previous, current)
  }

  predicate PrimaryUpdate(previous: Receipt, current: Receipt) {
    && Valid(previous) && Valid(current)
    && previous.config == current.config && previous.sources == current.sources
    && previous.app == current.app && previous.origins == current.origins && previous.bundle == current.bundle
    && CATALOG_AUTHORITY(previous.catalog) == CATALOG_AUTHORITY(current.catalog)
    && Newer(current.primary.version, previous.primary.version)
    && PRIMARY_COHORT(previous, current)
  }

  predicate WorkerUpdate(previous: Receipt, current: Receipt) {
    && Valid(previous) && Valid(current)
    && Changed(previous.sources, current.sources) == {WORKER_BOM_KEY}
    && CATALOG_AUTHORITY(previous.catalog) == CATALOG_AUTHORITY(current.catalog)
    && Digested(previous.(sources := current.sources, catalog := current.catalog)) == current
  }

  predicate CompoundUpdate(previous: Receipt, current: Receipt) {
    && Valid(previous) && Valid(current)
    && previous.sources == current.sources && previous.origins == current.origins
    && CATALOG_AUTHORITY(previous.catalog) == CATALOG_AUTHORITY(current.catalog)
    && AppScope(previous, current) !! PrimaryScope(previous, current)
    && PartsOf(previous, current).composed == current
    && AppUpdate(previous, PartsOf(previous, current).appOnly)
    && PrimaryUpdate(previous, PartsOf(previous, current).primaryOnly)
  }

  predicate PluginUpdate(previous: Receipt, current: Receipt) {
    && Valid(previous) && Valid(current)
    && previous.sources == current.sources && previous.primary == current.primary && previous.bundle == current.bundle
    && previous.config.projection == current.config.projection && previous.config.leaves == current.config.leaves
    && previous.app == current.app
    && PLUGIN_COHORT(previous, current)
  }

  /** Recognizes an app and a primary-runtime update seen in one snapshot. */
  method ClassifyCompound(previous: Receipt, current: Receipt) returns (accepted: bool)
    ensures accepted <==> CompoundUpdate(previous, current)
    ensures accepted ==> OnlyWithin(previous, current, AppScope(previous, current) + PrimaryScope(previous, current))
    ensures (accepted ==>
              && Newer(current.app.version, previous.app.version)
              && Newer(current.primary.version, previous.primary.version))
  {
    hide OnlyWithin, Newer;
    if !Valid(previous) || !Valid(current) { return false; }
    if previous.sources != current.sources || previous.origins != current.origins { return false; }
    if CATALOG_AUTHORITY(previous.catalog) != CATALOG_AUTHORITY(current.catalog) { return false; }
    var parts := Decompose(previous, current);
    if parts.None? || parts.value.composed != current { return false; }
    accepted := AppUpdate(previous, parts.value.appOnly) && PrimaryUpdate(previous, parts.value.primaryOnly);
    if accepted {
      CompoundChangesOnlyScopes(previous, current);
      CompoundVersions(previous, current);
    }
  }

  /** An accepted compound update changes only the two scopes, their digests, the
      configuration, and the app, bundle, runtime and catalogue records. */
  lemma CompoundChangesOnlyScopes(previous: Receipt, current: Receipt)
    requires CompoundUpdate(previous, current)
    ensures OnlyWithin(previous, current, AppScope(previous, current) + PrimaryScope(previous, current))
    ensures current.sources == previous.sources && current.origins == previous.origins
    ensures current == Digested(current)
  {
    hide Valid, AppUpdate, PrimaryUpdate;
    var app, primary := AppScope(previous, current), PrimaryScope(previous, current);
    forall p | !Selected(p, app + primary)
      ensures Get(current.surfaces, p) == Get(previous.surfaces, p)
      ensures Get(current.manifests, p) == Get(previous.manifests, p)
    {
      SelectedInMore(p, "", app, primary);
    }
    forall row | !RowSelected(row, app + primary) ensures Get(current.rows, row) == Get(previous.rows, row) {
      SelectedInMore([], row, app, primary);
    }
  }

  lemma SelectedInMore(package: Package, row: string, a: set<Package>, b: set<Package>)
    ensures Selected(package, a) || Selected(package, b) ==> Selected(package, a + b)
    ensures RowSelected(row, a) || RowSelected(row, b) ==> RowSelected(row, a + b)
  {
    if p :| p in a && FOLDED(package) == FOLDED(p) { assert p in a + b; }
    if p :| p in b && FOLDED(package) == FOLDED(p) { assert p in a + b; }
    if p :| p in a && Belongs(row, p) { assert p in a + b; }
    if p :| p in b && Belongs(row, p) { assert p in a + b; }
  }

  lemma OverlaysCommute<K(!new), V>(target: map<K, V>, source: map<K, V>, a: K -> bool, b: K -> bool)
    ensures Overlaid(Overlaid(target, source, a), source, b) == Overlaid(Overlaid(target, source, b), source, a)
  {
    forall key
      ensures Get(Overlaid(Overlaid(target, source, a), source, b), key) ==
          Get(Overlaid(Overlaid(target, source, b), source, a), key)
    {
      OverlaidAt(Overlaid(target, source, a), source, b, key);
      OverlaidAt(Overlaid(target, source, b), source, a, key);
      OverlaidAt(target, source, a, key);
      OverlaidAt(target, source, b, key);
    }
    SameLookups(Overlaid(Overlaid(target, source, a), source, b), Overlaid(Overlaid(target, source, b), source, a));
  }

  /** Composing the parts in the other order gives the same receipt. */
  lemma OrderOfPartsDoesNotMatter(previous: Receipt, current: Receipt)
    ensures Digested(WithPrimary(Digested(WithApp(previous, previous, current)), previous, current))
              == Digested(WithApp(Digested(WithPrimary(previous, previous, current)), previous, current))
  {
    var app, primary := AppScope(previous, current), PrimaryScope(previous, current);
    OverlaysCommute(previous.surfaces, current.surfaces, p => Selected(p, app), p => Selected(p, primary));
    OverlaysCommute(previous.manifests, current.manifests, p => Selected(p, app), p => Selected(p, primary));
    OverlaysCommute(previous.rows, current.rows, row => RowSelected(row, app), row => RowSelected(row, primary));
    var one := WithPrimary(Digested(WithApp(previous, previous, current)), previous, current);
    var other := WithApp(Digested(WithPrimary(previous, previous, current)), previous, current);
    assert one.(snapshot := 0) == other.(snapshot := 0);
  }

  // ---------------------------------------------------------------------
  // Scoped configuration updates
  // ---------------------------------------------------------------------

  datatype Plan = Plan(
    affected: set<string>, expectedEnabled: set<string>, expectedDisabled: set<string>,
    requiredEnabled: set<string>, requiredDisabled: set<string>)

  predicate OnlyConfigMayDiffer(previous: Receipt, current: Receipt) {
    && previous.inventory == current.inventory && previous.rows == current.rows
    && previous.surfaces == current.surfaces && previous.manifests == current.manifests
    && previous.origins == current.origins && previous.bundle == current.bundle && previous.primary == current.primary
    && previous.sources == current.sources && previous.app == current.app
    && CATALOG_AUTHORITY(previous.catalog) == CATALOG_AUTHORITY(current.catalog)
  }

  /** What an absent control counts as; `None` when absence has no meaning. */
  function DefaultEnabled(kind: string): Option<bool> {
    if kind == "app" || kind == "plugin_mcp" || kind == "skill" then Some(true)
    else if kind == "mcp" || kind == "plugin" then Some(false)
    else None
  }

  function EnabledOf(binding: Option<Binding>, kind: string): Option<bool> {
    match binding case Some(b) => b.enabled case None => DefaultEnabled(kind)
  }

  predicate SameControl(binding: Option<Binding>, reference: Binding) {
    binding.Some? ==>
      && binding.value.availability
      && binding.value.kind == reference.kind && binding.value.key == reference.key
      && binding.value.capabilities == reference.capabilities && binding.value.required == reference.required
  }

  /** The binding a changed leaf is judged by: the new one, else the old one. */
  function Reference(previous: Config, current: Config, pointer: string): Option<Binding> {
    if pointer in current.bindings then Some(current.bindings[pointer]) else Get(previous.bindings, pointer)
  }

  /** The leaf switches one known control off. */
  predicate SwitchesOff(previous: Config, current: Config, pointer: string) {
    var before, next, reference :=
        Get(previous.bindings, pointer), Get(current.bindings, pointer), Reference(previous, current, pointer);
    && reference.Some?
    && SameControl(before, reference.value) && SameControl(next, reference.value)
    && EnabledOf(before, reference.value.kind) == Some(true) && EnabledOf(next, reference.value.kind) == Some(false)
  }

  function RequiredOff(binding: Binding): set<string> {
    if binding.kind == "plugin" then binding.capabilities else binding.required
  }

  ghost predicate PlanFor(previous: Config, current: Config, pointers: set<string>, plan: Plan) {
    && plan.expectedEnabled == {} && plan.requiredEnabled == {}
    && plan.expectedDisabled == plan.affected
    && (forall pointer :: pointer in pointers ==> SwitchesOff(previous, current, pointer))
    && (forall c :: c in plan.affected <==>
          exists pointer :: pointer in pointers && c in Reference(previous, current, pointer).value.capabilities)
    && (forall c :: c in plan.requiredDisabled <==>
          exists pointer :: pointer in pointers && c in RequiredOff(Reference(previous, current, pointer).value))
  }

  ghost predicate ConfigPlan(previous: Receipt, current: Receipt, plan: Plan) {
    && Valid(previous) && Valid(current) && OnlyConfigMayDiffer(previous, current)
    && Changed(previous.config.leaves, current.config.leaves) != {}
    && PlanFor(previous.config, current.config, Changed(previous.config.leaves, current.config.leaves), plan)
    && plan.affected != {} && plan.requiredDisabled != {}
  }

  /** Collects what the changed leaves switch off; anything else they might do is
      refused. */
  method PlanConfigUpdate(previous: Receipt, current: Receipt) returns (r: Option<Plan>)
    ensures r.Some? ==> ConfigPlan(previous, current, r.value)
    ensures r.None? ==> forall plan :: !ConfigPlan(previous, current, plan)
  {
    hide Valid;
    if !Valid(previous) || !Valid(current) || !OnlyConfigMayDiffer(previous, current) { return None; }
    var changed := Changed(previous.config.leaves, current.config.leaves);
    if changed == {} { return None; }
    var todo, affected, disabled, required: set<string> := changed, {}, {}, {};
    ghost var done: set<string> := {};
    while todo != {}
      invariant todo !! done && todo + done == changed
      invariant PlanFor(previous.config, current.config, done, Plan(affected, {}, disabled, {}, required))
      decreases todo
    {
      var pointer :| pointer in todo;
      if !SwitchesOff(previous.config, current.config, pointer) {
        return None;
      }
      var reference := Reference(previous.config, current.config, pointer).value;
      OnePointerMore(previous.config, current.config, done, Plan(affected, {}, disabled, {}, required), pointer);
      affected, disabled, required :=
        affected + reference.capabilities, disabled + reference.capabilities, required + RequiredOff(reference);
      todo, done := todo - {pointer}, done + {pointer};
    }
    assert done == changed;
    var plan := Plan(affected, {}, disabled, {}, required);
    forall other | PlanFor(previous.config, current.config, changed, other) ensures other == plan {
      PlanIsUnique(previous.config, current.config, changed, plan, other);
    }
    return if affected == {} || required == {} then None else Some(plan);
  }

  lemma OnePointerMore(previous: Config, current: Config, pointers: set<string>, plan: Plan, pointer: string)
    requires PlanFor(previous, current, pointers, plan) && SwitchesOff(previous, current, pointer)
    ensures var reference := Reference(previous, current, pointer).value;
            PlanFor(previous, current, pointers + {pointer}, plan.(
              affected := plan.affected + reference.capabilities,
              expectedDisabled := plan.expectedDisabled + reference.capabilities,
              requiredDisabled := plan.requiredDisabled + RequiredOff(reference)))
  {
    hide SwitchesOff;
  }

  /** The binding of a leaf that is switched off, before the change or after it. */
  predicate BoundBy(previous: Config, current: Config, pointer: string, b: Binding) {
    Get(previous.bindings, pointer) == Some(b) || Get(current.bindings, pointer) == Some(b)
  }

  lemma SwitchSays(previous: Config, current: Config, pointer: string)
    requires SwitchesOff(previous, current, pointer)
    ensures BoundBy(previous, current, pointer, Reference(previous, current, pointer).value)
    ensures forall b :: BoundBy(previous, current, pointer, b) ==>
              b.availability && b == Reference(previous, current, pointer).value.(enabled := b.enabled)
    ensures (match Get(previous.bindings, pointer)
             case Some(b) => b.enabled == Some(true)
             case None => current.bindings[pointer].kind in {"app", "plugin_mcp", "skill"})
    ensures (match Get(current.bindings, pointer)
             case Some(b) => b.enabled == Some(false)
             case None => previous.bindings[pointer].kind in {"mcp", "plugin"})
  {
  }

  /** What a plan says of every changed leaf, in terms of its bindings: an availability
      toggle of one known control that was on and is off now.  A control that is gone
      was a server or a plugin; one that is new is an app, a plugin's server or a
      skill.  The plan affects the capabilities bound to these leaves and no others; a
      plugin takes all of its capabilities with it, another control the required ones. */
  lemma PlanSays(previous: Receipt, current: Receipt, plan: Plan, pointer: string)
    requires ConfigPlan(previous, current, plan)
    requires Get(previous.config.leaves, pointer) != Get(current.config.leaves, pointer)
    ensures exists b :: BoundBy(previous.config, current.config, pointer, b)
    ensures forall b :: BoundBy(previous.config, current.config, pointer, b) ==>
              && b.availability && b.capabilities <= plan.affected
              && (if b.kind == "plugin" then b.capabilities else b.required) <= plan.requiredDisabled
    ensures forall b, c :: (
              BoundBy(previous.config, current.config, pointer, b)
              && BoundBy(previous.config, current.config, pointer, c) ==>
                c == b.(enabled := c.enabled))
    ensures (match Get(previous.config.bindings, pointer)
             case Some(b) => b.enabled == Some(true)
             case None => current.config.bindings[pointer].kind in {"app", "plugin_mcp", "skill"})
    ensures (match Get(current.config.bindings, pointer)
             case Some(b) => b.enabled == Some(false)
             case None => previous.config.bindings[pointer].kind in {"mcp", "plugin"})
  {
    hide Valid, OnlyConfigMayDiffer;
    assert pointer in Changed(previous.config.leaves, current.config.leaves);
    SwitchSays(previous.config, current.config, pointer);
    hide SwitchesOff, Reference, BoundBy;
    var reference := Reference(previous.config, current.config, pointer).value;
    forall c | c in reference.capabilities ensures c in plan.affected {}
    forall c | c in RequiredOff(reference) ensures c in plan.requiredDisabled {}
  }

  /** Nothing is affected or required off but through a changed leaf. */
  lemma PlanSaysNoMore(previous: Receipt, current: Receipt, plan: Plan, capability: string)
    requires ConfigPlan(previous, current, plan)
    ensures capability in plan.affected ==> exists pointer, b ::
              && Get(previous.config.leaves, pointer) != Get(current.config.leaves, pointer)
              && BoundBy(previous.config, current.config, pointer, b) && capability in b.capabilities
    ensures capability in plan.requiredDisabled ==> exists pointer, b ::
              && Get(previous.config.leaves, pointer) != Get(current.config.leaves, pointer)
              && BoundBy(previous.config, current.config, pointer, b)
              && capability in if b.kind == "plugin" then b.capabilities else b.required
  {
    hide Valid;
    var changed := Changed(previous.config.leaves, current.config.leaves);
    if capability in plan.affected {
      var pointer :| pointer in changed
        && capability in Reference(previous.config, current.config, pointer).value.capabilities;
      assert BoundBy(
          previous.config, current.config, pointer, Reference(previous.config, current.config, pointer).value);
    }
    if capability in plan.requiredDisabled {
      var pointer :| pointer in changed
        && capability in RequiredOff(Reference(previous.config, current.config, pointer).value);
      assert BoundBy(
          previous.config, current.config, pointer, Reference(previous.config, current.config, pointer).value);
    }
  }

  lemma PlanIsUnique(previous: Config, current: Config, pointers: set<string>, a: Plan, b: Plan)
    requires PlanFor(previous, current, pointers, a) && PlanFor(previous, current, pointers, b)
    ensures a == b
  {
    hide SwitchesOff;
    assert a.affected == b.affected;
    assert a.requiredDisabled == b.requiredDisabled;
  }

  // ---------------------------------------------------------------------
  // The rebuilt manifest
  // ---------------------------------------------------------------------

  /** A manifest entry: `wellFormed` covers its identifier, kind and state. */
  datatype Entry = Entry(id: string, wellFormed: bool, active: bool, artifact: bool, body: nat)

  datatype Suppression = Suppression(id: string, wellFormed: bool, body: nat)

  datatype Manifest = Manifest(entries: seq<Entry>, suppressed: seq<Suppression>)

  /** What one pass over a list does with an item. */
  datatype Pick<T> = Malformed | Ignored | Named(id: string, item: T)

  function EntryId(e: Entry): Pick<Entry> {
    if !e.wellFormed then Malformed else if e.active && !e.artifact then Named(e.id, e) else Ignored
  }

  function ActiveEntry(e: Entry): Pick<Entry> {
    if !e.active then Ignored else if e.id == "" then Malformed else Named(e.id, e)
  }

  function Suppressed(s: Suppression): Pick<Suppression> {
    if s.wellFormed then Named(s.id, s) else Malformed
  }

  /** The named items by name; nothing when one is malformed or named twice. */
  function Unique<S, T>(items: seq<S>, pick: S -> Pick<T>): Option<map<string, T>> {
    if items == [] then Some(map[])
    else
      var init := Unique(items[..|items| - 1], pick);
      match (init, pick(items[|items| - 1])) {
        case (None, _) => None
        case (Some(_), Malformed) => None
        case (Some(named), Ignored) => Some(named)
        case (Some(named), Named(id, item)) => if id in named then None else Some(named[id := item])
      }
  }

  lemma {:induction false} RejectionStays<S, T>(items: seq<S>, pick: S -> Pick<T>, i: nat)
    requires i <= |items| && Unique(items[..i], pick).None?
    ensures Unique(items, pick).None?
    decreases |items|
  {
    if i < |items| {
      assert items[..|items| - 1][..i] == items[..i];
      RejectionStays(items[..|items| - 1], pick, i);
    } else {
      assert items[..i] == items;
    }
  }

  method CollectUnique<S, T>(items: seq<S>, pick: S -> Pick<T>) returns (r: Option<map<string, T>>)
    ensures r == Unique(items, pick)
  {
    var named: map<string, T> := map[];
    for i := 0 to |items|
      invariant Unique(items[..i], pick) == Some(named)
    {
      assert items[..i + 1][..i] == items[..i];
      match pick(items[i]) {
        case Malformed =>
          RejectionStays(items, pick, i + 1);
          return None;
        case Ignored =>
        case Named(id, item) =>
          if id in named {
            RejectionStays(items, pick, i + 1);
            return None;
          }
          named := named[id := item];
      }
    }
    assert items[..|items|] == items;
    return Some(named);
  }

  lemma {:induction false} EveryIdHasItsEntry(entries: seq<Entry>)
    requires Unique(entries, EntryId).Some? && Unique(entries, ActiveEntry).Some?
    ensures forall id :: id in Unique(entries, EntryId).value ==>
              Get(Unique(entries, ActiveEntry).value, id) == Some(Unique(entries, EntryId).value[id])
  {
    if entries != [] { EveryIdHasItsEntry(entries[..|entries| - 1]); }
  }

  /** The set comparisons between plan, baseline and candidate. */
  predicate SurfaceMatches(
    plan: Plan, baseline: map<string, Entry>, candidate: map<string, Entry>,
    wasSuppressed: map<string, Suppression>, isSuppressed: map<string, Suppression>)
  {
    var delta := (baseline.Keys - candidate.Keys) + (candidate.Keys - baseline.Keys);
    && candidate.Keys !! isSuppressed.Keys
    && plan.requiredEnabled == {} && plan.expectedEnabled == {}
    && (forall id :: id in baseline.Keys * candidate.Keys ==> baseline[id] == candidate[id])
    && delta != {} && delta <= plan.affected
    && plan.expectedEnabled <= candidate.Keys + isSuppressed.Keys
    && plan.expectedDisabled !! candidate.Keys
    && plan.requiredEnabled <= candidate.Keys
    && plan.requiredDisabled !! candidate.Keys
    && isSuppressed - plan.affected == wasSuppressed - plan.affected
    && isSuppressed.Keys * plan.affected <= plan.expectedEnabled - plan.requiredEnabled
  }

  predicate Matches(plan: Plan, baseline: Manifest, candidate: Manifest) {
    && Unique(baseline.entries, EntryId).Some? && Unique(candidate.entries, EntryId).Some?
    && Unique(baseline.entries, ActiveEntry).Some? && Unique(candidate.entries, ActiveEntry).Some?
    && Unique(baseline.suppressed, Suppressed).Some? && Unique(candidate.suppressed, Suppressed).Some?
    && SurfaceMatches(plan,
         Unique(baseline.entries, EntryId).value, Unique(candidate.entries, EntryId).value,
         Unique(baseline.suppressed, Suppressed).value, Unique(candidate.suppressed, Suppressed).value)
  }

  method MatchCandidate(plan: Plan, baseline: Manifest, candidate: Manifest) returns (accepted: bool)
    ensures accepted <==> Matches(plan, baseline, candidate)
  {
    hide SurfaceMatches, Unique;
    var was := CollectUnique(baseline.entries, EntryId);
    var now := CollectUnique(candidate.entries, EntryId);
    var wasEntries := CollectUnique(baseline.entries, ActiveEntry);
    var nowEntries := CollectUnique(candidate.entries, ActiveEntry);
    var wasOff := CollectUnique(baseline.suppressed, Suppressed);
    var nowOff := CollectUnique(candidate.suppressed, Suppressed);
    if was.None? || now.None? || wasEntries.None? || nowEntries.None? || wasOff.None? || nowOff.None? { return false; }
    return SurfaceMatches(plan, was.value, now.value, wasOff.value, nowOff.value);
  }

  /** An accepted plan and a matching candidate: the active surface loses exactly
      the affected capabilities and something at least, every survivor is the
      very same entry, and the suppressed ones are those of before not affected. */
  lemma AcceptedSurfaceShrinks(previous: Receipt, current: Receipt, plan: Plan, baseline: Manifest, candidate: Manifest)
    requires ConfigPlan(previous, current, plan) && Matches(plan, baseline, candidate)
    ensures Unique(candidate.entries, EntryId).value == Unique(baseline.entries, EntryId).value - plan.affected
    ensures Unique(candidate.entries, EntryId).value.Keys < Unique(baseline.entries, EntryId).value.Keys
    ensures Unique(candidate.suppressed, Suppressed).value ==
        Unique(baseline.suppressed, Suppressed).value - plan.affected
  {
    hide ConfigPlan, Unique, PlanFor, SurfaceMatches;
    PlanSwitchesOff(previous, current, plan);
    SurfaceOnMaps(plan,
      Unique(baseline.entries, EntryId).value, Unique(candidate.entries, EntryId).value,
      Unique(baseline.suppressed, Suppressed).value, Unique(candidate.suppressed, Suppressed).value);
  }

  // What acceptance means on the lists themselves.

  /** An entry in force: active, and no mere artifact of a state. */
  predicate OnSurface(m: Manifest, e: Entry) {
    e in m.entries && e.active && !e.artifact
  }

  /** Every entry and every suppression is well formed, and no two active entries and
      no two suppressions share a name. */
  predicate Listed(m: Manifest) {
    && (forall i :: 0 <= i < |m.entries| ==>
          m.entries[i].wellFormed && (m.entries[i].active ==> m.entries[i].id != ""))
    && (forall i, j :: 0 <= i < j < |m.entries| && m.entries[i].active && m.entries[j].active ==>
          m.entries[i].id != m.entries[j].id)
    && (forall i :: 0 <= i < |m.suppressed| ==> m.suppressed[i].wellFormed)
    && (forall i, j :: 0 <= i < j < |m.suppressed| ==> m.suppressed[i].id != m.suppressed[j].id)
  }

  ghost predicate Distinct<S(!new), T(!new)>(items: seq<S>, pick: S -> Pick<T>) {
    && (forall i :: 0 <= i < |items| ==> pick(items[i]) != Malformed)
    && (forall i, j :: 0 <= i < j < |items| && pick(items[i]).Named? && pick(items[j]).Named? ==>
          pick(items[i]).id != pick(items[j]).id)
  }

  /** A list is accepted when nothing in it is malformed or named twice, and then
      every name stands for the item that bears it. */
  lemma {:induction false} UniqueExactly<S(!new), T(!new)>(items: seq<S>, pick: S -> Pick<T>)
    ensures Unique(items, pick).Some? <==> Distinct(items, pick)
    ensures Unique(items, pick).Some? ==> forall id, item ::
              Get(Unique(items, pick).value, id) == Some(item) <==> exists s :: s in items && pick(s) == Named(id, item)
  {
    if items == [] {
    } else {
      var init, last := items[..|items| - 1], items[|items| - 1];
      UniqueExactly(init, pick);
      assert items == init + [last];
      if Unique(init, pick).Some? { OneMoreUnique(init, last, pick); }
      if Distinct(items, pick) { forall i | 0 <= i < |init| ensures init[i] == items[i] {} }
    }
  }

  lemma OneMoreUnique<S(!new), T(!new)>(init: seq<S>, last: S, pick: S -> Pick<T>)
    requires Unique(init, pick).Some? && Distinct(init, pick)
    requires forall id, item ::
              Get(Unique(init, pick).value, id) == Some(item) <==> exists s :: s in init && pick(s) == Named(id, item)
    ensures Unique(init + [last], pick).Some? <==> Distinct(init + [last], pick)
    ensures Unique(init + [last], pick).Some? ==> forall id, item ::
              Get(Unique(init + [last], pick).value, id) == Some(item) <==>
                exists s :: s in init + [last] && pick(s) == Named(id, item)
  {
    var items, named := init + [last], Unique(init, pick).value;
    assert items[..|items| - 1] == init && items[|items| - 1] == last;
    assert Distinct(items, pick) ==> (pick(last).Named? ==> pick(last).id !in named) by {
      if pick(last).Named? && pick(last).id in named {
        assert Get(named, pick(last).id) == Some(named[pick(last).id]);
        var s :| s in init && pick(s) == Named(pick(last).id, named[pick(last).id]);
        var i :| 0 <= i < |init| && init[i] == s;
        assert items[i] == s && items[|init|] == last;
      }
    }
    if pick(last) != Malformed && (pick(last).Named? ==> pick(last).id !in named) {
      forall i | 0 <= i < |init| && pick(init[i]).Named? && pick(last).Named?
        ensures pick(init[i]).id != pick(last).id
      {
        assert init[i] in init;
        assert Get(named, pick(init[i]).id) == Some(pick(init[i]).item);
      }
    }
  }

  /** A candidate is accepted for a plan exactly when both manifests are well listed,
      what is in force is what was in force without the affected capabilities, some of
      which were, the suppressed ones are those of before without the affected ones,
      and nothing required to be off is in force or suppressed and in force at once. */
  lemma AcceptedExactly(previous: Receipt, current: Receipt, plan: Plan, baseline: Manifest, candidate: Manifest)
    requires ConfigPlan(previous, current, plan)
    ensures Matches(plan, baseline, candidate) <==>
              && Listed(baseline) && Listed(candidate)
              && (forall e :: OnSurface(candidate, e) <==> OnSurface(baseline, e) && e.id !in plan.affected)
              && (exists e :: OnSurface(baseline, e) && e.id in plan.affected)
              && (forall s :: s in candidate.suppressed <==> s in baseline.suppressed && s.id !in plan.affected)
              && (forall e :: OnSurface(candidate, e) ==> e.id !in plan.requiredDisabled)
              && (forall e, s :: OnSurface(candidate, e) && s in candidate.suppressed ==> e.id != s.id)
  {
    hide ConfigPlan, Unique, SurfaceMatches, Listed;
    ListedIsUnique(baseline);
    ListedIsUnique(candidate);
    PlanSwitchesOff(previous, current, plan);
    if Listed(baseline) && Listed(candidate) {
      SurfaceOnEntries(plan, baseline, candidate);
    }
  }

  lemma ListedIsUnique(m: Manifest)
    ensures (Listed(m) <==>
              Unique(m.entries, EntryId).Some? && Unique(m.entries, ActiveEntry).Some?
                && Unique(m.suppressed, Suppressed).Some?)
    ensures Listed(m) ==> forall id, e ::
              Get(Unique(m.entries, EntryId).value, id) == Some(e) <==> OnSurface(m, e) && e.id == id
    ensures Listed(m) ==> forall id, s ::
              Get(Unique(m.suppressed, Suppressed).value, id) == Some(s) <==> s in m.suppressed && s.id == id
  {
    UniqueExactly(m.entries, EntryId);
    UniqueExactly(m.entries, ActiveEntry);
    UniqueExactly(m.suppressed, Suppressed);
    hide Unique;
  }

  lemma SurfaceOnEntries(plan: Plan, baseline: Manifest, candidate: Manifest)
    requires Listed(baseline) && Listed(candidate)
    requires plan.expectedDisabled == plan.affected && plan.expectedEnabled == {} && plan.requiredEnabled == {}
    ensures Matches(plan, baseline, candidate) <==>
              && (forall e :: OnSurface(candidate, e) <==> OnSurface(baseline, e) && e.id !in plan.affected)
              && (exists e :: OnSurface(baseline, e) && e.id in plan.affected)
              && (forall s :: s in candidate.suppressed <==> s in baseline.suppressed && s.id !in plan.affected)
              && (forall e :: OnSurface(candidate, e) ==> e.id !in plan.requiredDisabled)
              && (forall e, s :: OnSurface(candidate, e) && s in candidate.suppressed ==> e.id != s.id)
  {
    hide Unique, SurfaceMatches, Listed, OnSurface;
    ListedIsUnique(baseline);
    ListedIsUnique(candidate);
    var was, now := Unique(baseline.entries, EntryId).value, Unique(candidate.entries, EntryId).value;
    var wasOff, nowOff := Unique(baseline.suppressed, Suppressed).value, Unique(candidate.suppressed, Suppressed).value;
    SurfaceOnMaps(plan, was, now, wasOff, nowOff);
    var before, after := (e: Entry) => OnSurface(baseline, e), (e: Entry) => OnSurface(candidate, e);
    var listed, off := (s: Suppression) => s in baseline.suppressed, (s: Suppression) => s in candidate.suppressed;
    var name, nameOff := (e: Entry) => e.id, (s: Suppression) => s.id;
    assert forall e :: before(e) <==> OnSurface(baseline, e);
    assert forall e :: after(e) <==> OnSurface(candidate, e);
    assert forall s :: listed(s) <==> s in baseline.suppressed;
    assert forall s :: off(s) <==> s in candidate.suppressed;
    WithoutThose(was, now, plan.affected, name, before, after);
    WithoutThose(wasOff, nowOff, plan.affected, nameOff, listed, off);
    NamesIn(was, plan.affected, name, before);
    NamesIn(now, plan.requiredDisabled, name, after);
    NamesIn(now, nowOff.Keys, name, after);
    assert now.Keys * nowOff.Keys == {} <==>
        forall e, s :: OnSurface(candidate, e) && s in candidate.suppressed ==> e.id != s.id by {
      forall id | id in nowOff ensures nowOff[id] in candidate.suppressed && nowOff[id].id == id {
        assert Get(nowOff, id) == Some(nowOff[id]);
      }
      forall s | s in candidate.suppressed ensures s.id in nowOff { assert Get(nowOff, s.id) == Some(s); }
    }
  }

  /** The comparisons, for a plan that only switches off. */
  lemma SurfaceOnMaps(
    plan: Plan, was: map<string, Entry>, now: map<string, Entry>,
    wasOff: map<string, Suppression>, nowOff: map<string, Suppression>)
    requires plan.expectedDisabled == plan.affected && plan.expectedEnabled == {} && plan.requiredEnabled == {}
    ensures SurfaceMatches(plan, was, now, wasOff, nowOff) <==>
              && now == was - plan.affected && was.Keys * plan.affected != {} && nowOff == wasOff - plan.affected
              && now.Keys * plan.requiredDisabled == {} && now.Keys * nowOff.Keys == {}
  {
    var delta := (was.Keys - now.Keys) + (now.Keys - was.Keys);
    if SurfaceMatches(plan, was, now, wasOff, nowOff) {
      forall id ensures Get(now, id) == Get(was - plan.affected, id) {
        assert id in delta ==> id in plan.affected;
        assert id in was.Keys * now.Keys ==> was[id] == now[id];
      }
      SameLookups(now, was - plan.affected);
      forall id | id in nowOff ensures id !in plan.affected {
        assert id in nowOff.Keys * plan.affected ==> id in plan.expectedEnabled - plan.requiredEnabled;
      }
      assert nowOff == nowOff - plan.affected;
      var gone :| gone in delta;
      assert gone in was.Keys * plan.affected;
    }
    if
      && now == was - plan.affected && was.Keys * plan.affected != {} && nowOff == wasOff - plan.affected
      && now.Keys * plan.requiredDisabled == {} && now.Keys * nowOff.Keys == {}
    {
      forall id | id in now ensures id !in nowOff.Keys && id !in plan.requiredDisabled {
        assert id !in now.Keys * nowOff.Keys && id !in now.Keys * plan.requiredDisabled;
      }
      var gone :| gone in was.Keys * plan.affected;
      assert gone in delta;
      assert nowOff - plan.affected == wasOff - plan.affected;
      assert nowOff.Keys * plan.affected == {};
    }
  }

  /** Two maps of named items, compared name by name or item by item. */
  lemma WithoutThose<T(!new)>(
    was: map<string, T>, now: map<string, T>, affected: set<string>,
    name: T -> string, before: T -> bool, after: T -> bool)
    requires forall id, item :: Get(was, id) == Some(item) <==> before(item) && name(item) == id
    requires forall id, item :: Get(now, id) == Some(item) <==> after(item) && name(item) == id
    ensures now == was - affected <==> forall item :: after(item) <==> before(item) && name(item) !in affected
  {
    if now == was - affected {
      forall item ensures after(item) <==> before(item) && name(item) !in affected {
        assert Get(now, name(item)) == Some(item) <==> after(item);
        assert Get(was, name(item)) == Some(item) <==> before(item);
      }
    }
    if forall item :: after(item) <==> before(item) && name(item) !in affected {
      forall id ensures Get(now, id) == Get(was - affected, id) {
        if id in now {
          assert Get(now, id) == Some(now[id]);
          assert Get(was, id) == Some(now[id]);
        }
        if id in was && id !in affected {
          assert Get(was, id) == Some(was[id]);
          assert Get(now, id) == Some(was[id]);
        }
      }
      SameLookups(now, was - affected);
    }
  }

  lemma NamesIn<T(!new)>(m: map<string, T>, names: set<string>, name: T -> string, listed: T -> bool)
    requires forall id, item :: Get(m, id) == Some(item) <==> listed(item) && name(item) == id
    ensures m.Keys * names == {} <==> forall item :: listed(item) ==> name(item) !in names
  {
    if id :| id in m.Keys * names {
      assert Get(m, id) == Some(m[id]);
    } else {
      forall item | listed(item) ensures name(item) !in names {
        assert Get(m, name(item)) == Some(item);
        assert name(item) !in m.Keys * names;
      }
    }
  }

  lemma PlanSwitchesOff(previous: Receipt, current: Receipt, plan: Plan)
    requires ConfigPlan(previous, current, plan)
    ensures plan.expectedDisabled == plan.affected && plan.expectedEnabled == {} && plan.requiredEnabled == {}
  {
  }

  // ---------------------------------------------------------------------
  // Versions over any number of promotions
  // ---------------------------------------------------------------------

  datatype Lane = AppLane | PrimaryLane | WorkerLane | CompoundLane | PluginLane | ConfigLane

  ghost predicate Recognized(previous: Receipt, current: Receipt, lane: Lane) {
    match lane
    case AppLane => AppUpdate(previous, current)
    case PrimaryLane => PrimaryUpdate(previous, current)
    case WorkerLane => WorkerUpdate(previous, current)
    case CompoundLane => CompoundUpdate(previous, current)
    case PluginLane => PluginUpdate(previous, current)
    case ConfigLane => exists plan :: ConfigPlan(previous, current, plan)
  }

  ghost predicate Classified(previous: Receipt, current: Receipt) {
    exists lane :: Recognized(previous, current, lane)
  }

  predicate NotOlder(current: string, previous: string) {
    && KeyOf(previous).Some? && KeyOf(current).Some?
    && (KeyOf(current) == KeyOf(previous) || Newer(current, previous))
  }

  /** The lanes that change a version raise it; the others leave it alone. */
  lemma LaneVersions(previous: Receipt, current: Receipt, lane: Lane)
    requires Recognized(previous, current, lane)
    ensures if lane.AppLane? || lane.CompoundLane? then Newer(current.app.version, previous.app.version)
            else current.app.version == previous.app.version
    ensures if lane.PrimaryLane? || lane.CompoundLane? then Newer(current.primary.version, previous.primary.version)
            else current.primary.version == previous.primary.version
    ensures Valid(previous) && Valid(current)
  {
    hide Valid, Newer, ConfigPlan, CompoundUpdate, WorkerUpdate;
    match lane
    case ConfigLane =>
      var plan :| ConfigPlan(previous, current, plan);
      PlanIsConfigOnly(previous, current, plan);
    case CompoundLane => CompoundVersions(previous, current);
    case WorkerLane => WorkerVersions(previous, current);
    case _ =>
  }

  /** Outside the change it is recognized for, no lane lets anything else through:
      which records each of them leaves alone, and which it requires to change. */
  lemma LaneKeeps(previous: Receipt, current: Receipt, lane: Lane)
    requires Recognized(previous, current, lane)
    ensures if lane.WorkerLane? then Changed(previous.sources, current.sources) == {WORKER_BOM_KEY}
            else current.sources == previous.sources
    ensures lane.PluginLane? || current.origins == previous.origins
    ensures lane.PluginLane? || CATALOG_AUTHORITY(current.catalog) == CATALOG_AUTHORITY(previous.catalog)
    ensures if lane.AppLane? || lane.CompoundLane?
            then current.app.runtime != previous.app.runtime && current.app.cli != previous.app.cli
                 && current.inventory != previous.inventory
            else current.app == previous.app && current.bundle == previous.bundle
    ensures lane.PrimaryLane? || lane.CompoundLane? || current.primary == previous.primary
    ensures lane.PrimaryLane? || lane.WorkerLane? ==> current.config == previous.config
    ensures lane.ConfigLane? ==> current.config.leaves != previous.config.leaves
    ensures (lane.PluginLane? ==>
              current.config.projection == previous.config.projection
              && current.config.leaves == previous.config.leaves)
    ensures (lane.ConfigLane? || lane.WorkerLane? ==>
              && current.surfaces == previous.surfaces && current.manifests == previous.manifests
              && current.rows == previous.rows && current.inventory == previous.inventory)
  {
    hide Valid, Newer, Overlaid;
    match lane
    case ConfigLane =>
      var plan :| ConfigPlan(previous, current, plan);
      PlanChangesLeaves(previous, current, plan);
    case CompoundLane =>
      var parts := PartsOf(previous, current);
      assert parts.appOnly.app == current.app && parts.appOnly.inventory == current.inventory;
    case WorkerLane =>
    case _ =>
  }

  lemma PlanChangesLeaves(previous: Receipt, current: Receipt, plan: Plan)
    requires ConfigPlan(previous, current, plan)
    ensures OnlyConfigMayDiffer(previous, current) && current.config.leaves != previous.config.leaves
  {
    hide Valid;
  }

  lemma CompoundVersions(previous: Receipt, current: Receipt)
    requires CompoundUpdate(previous, current)
    ensures Newer(current.app.version, previous.app.version) && Newer(current.primary.version, previous.primary.version)
    ensures Valid(previous) && Valid(current)
  {
    hide Valid, Newer, Overlaid;
    var parts := PartsOf(previous, current);
    assert parts.appOnly.app == current.app && parts.primaryOnly.primary == current.primary;
  }

  lemma WorkerVersions(previous: Receipt, current: Receipt)
    requires WorkerUpdate(previous, current)
    ensures current.app == previous.app && current.primary == previous.primary && Valid(previous) && Valid(current)
  {
    hide Valid, Changed;
  }

  lemma PlanIsConfigOnly(previous: Receipt, current: Receipt, plan: Plan)
    requires ConfigPlan(previous, current, plan)
    ensures OnlyConfigMayDiffer(previous, current) && Valid(previous) && Valid(current)
  {
  }

  ghost predicate Promotions(receipts: seq<Receipt>) {
    && receipts != [] && Valid(receipts[0])
    && forall i :: 0 <= i < |receipts| - 1 ==> Classified(receipts[i], receipts[i + 1])
  }

  /** Along any sequence of automatic promotions neither version ever decreases. */
  lemma {:induction false} VersionsNeverDecrease(receipts: seq<Receipt>, a: nat, b: nat)
    requires Promotions(receipts) && a <= b < |receipts|
    ensures NotOlder(receipts[b].app.version, receipts[a].app.version)
    ensures NotOlder(receipts[b].primary.version, receipts[a].primary.version)
    decreases b
  {
    hide Recognized, Valid, KeyOf, Less;
    if a == b {
      ReceiptIsValid(receipts, a);
    } else {
      VersionsNeverDecrease(receipts, a, b - 1);
      assert Classified(receipts[b - 1], receipts[b]);
      var lane :| Recognized(receipts[b - 1], receipts[b], lane);
      LaneVersions(receipts[b - 1], receipts[b], lane);
      NewerGoesOn(receipts[a].app.version, receipts[b - 1].app.version, receipts[b].app.version);
      NewerGoesOn(receipts[a].primary.version, receipts[b - 1].primary.version, receipts[b].primary.version);
    }
  }

  /** The numbers of a version text, first the major one, do not fall; and a release
      is not followed by a prerelease of the same numbers. */
  predicate NumbersUpTo(v: Version, w: Version) {
    || v.major < w.major
    || (v.major == w.major && v.minor < w.minor)
    || (v.major == w.major && v.minor == w.minor && v.patch < w.patch)
    || (v.major == w.major && v.minor == w.minor && v.patch == w.patch && (v.prerelease.None? ==> w.prerelease.None?))
  }

  lemma NotOlderNumbers(
    a: string, v: Version, x: Option<seq<string>>, b: string, w: Version, y: Option<seq<string>>)
    requires Says(a, v, x) && Says(b, w, y) && NotOlder(b, a)
    ensures NumbersUpTo(v, w)
  {
    hide Says, Parsed, ItemsLess, Items, NumbersUpTo;
    ParsedExactly(a, v);
    ParsedExactly(b, w);
    assert KeyOf(a) == KeyOfVersion(v) && KeyOf(b) == KeyOfVersion(w);
    SaysSomething(b, w, y);
    NumbersFromKeys(v, w);
  }

  lemma SaysSomething(text: string, v: Version, build: Option<seq<string>>)
    requires Says(text, v, build)
    ensures v.prerelease.Some? ==> v.prerelease.value != []
  {
  }

  lemma NumbersFromKeys(v: Version, w: Version)
    requires KeyOfVersion(v).Some? && KeyOfVersion(w).Some?
    requires w.prerelease.Some? ==> w.prerelease.value != []
    requires KeyOfVersion(w) == KeyOfVersion(v) || Less(KeyOfVersion(v).value, KeyOfVersion(w).value)
    ensures NumbersUpTo(v, w)
  {
    hide ItemsLess;
    if v.prerelease.None? && w.prerelease.Some? {
      var items := KeyOfVersion(w).value.prerelease;
      assert items[0] == ItemOf(w.prerelease.value[0]);
      FieldsComeBeforeRelease(items);
    }
  }

  /** On version texts: along any sequence of automatic promotions the numbers of the
      app version and of the primary-runtime version do not fall. */
  lemma NumbersNeverDecrease(
    receipts: seq<Receipt>, a: nat, b: nat, v: Version, x: Option<seq<string>>, w: Version, y: Option<seq<string>>)
    requires Promotions(receipts) && a <= b < |receipts|
    ensures Says(receipts[a].app.version, v, x) && Says(receipts[b].app.version, w, y) ==> NumbersUpTo(v, w)
    ensures Says(receipts[a].primary.version, v, x) && Says(receipts[b].primary.version, w, y) ==> NumbersUpTo(v, w)
  {
    hide Says, Promotions, NotOlder, NumbersUpTo;
    VersionsNeverDecrease(receipts, a, b);
    if Says(receipts[a].app.version, v, x) && Says(receipts[b].app.version, w, y) {
      NotOlderNumbers(receipts[a].app.version, v, x, receipts[b].app.version, w, y);
    }
    if Says(receipts[a].primary.version, v, x) && Says(receipts[b].primary.version, w, y) {
      NotOlderNumbers(receipts[a].primary.version, v, x, receipts[b].primary.version, w, y);
    }
  }

  lemma NewerGoesOn(a: string, b: string, c: string)
    requires NotOlder(b, a) && (c == b || Newer(c, b))
    ensures NotOlder(c, a)
  {
    if KeyOf(c).Some? { KeysAreOrdered(KeyOf(a).value, KeyOf(b).value, KeyOf(c).value); }
  }

  lemma ReceiptIsValid(receipts: seq<Receipt>, i: nat)
    requires Promotions(receipts) && i < |receipts|
    ensures KeyOf(receipts[i].app.version).Some? && KeyOf(receipts[i].primary.version).Some?
  {
    if i > 0 {
      assert Classified(receipts[i - 1], receipts[i]);
      var lane :| Recognized(receipts[i - 1], receipts[i], lane);
      LaneVersions(receipts[i - 1], receipts[i], lane);
    }
  }
}
