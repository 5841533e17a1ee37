/** One descriptor for every leaf of the capability controls. */
module ConfigControls {
  import opened Wrappers
  import opened JsonPointer
  import opened ConfigFingerprint
  import opened ConfigProjection
  import Decimals

  datatype Descriptor =
    | Toggle(kind: string, key: string, enabled: bool)
    | RuntimeIdentity(kind: string, key: string)

  function Lookup(tree: Tree, path: Path): Option<Tree>
    decreases path
  {
    if path == [] then Some(tree)
    else if tree.Table? && path[0] in tree.entries then Lookup(tree.entries[path[0]], path[1..])
    else None
  }

  function ToggleAt(controls: Tree, path: Path, kind: string, key: string): Option<Descriptor> {
    match Lookup(controls, path)
    case Some(tree) => if Flag(tree) then Some(Toggle(kind, key, tree.scalar.flag)) else None
    case None => None
  }

  /** The control a leaf belongs to, from its path alone; `None` is an error. */
  function DescriptorFor(controls: Tree, parts: Path): Option<Descriptor> {
    var n := |parts|;
    if n == 3 && parts[0] == "apps" && parts[2] == "enabled" then
      ToggleAt(controls, parts, "app", parts[1])
    else if n == 3 && parts[0] == "apps" && parts[2] in APP_GATES then
      Some(RuntimeIdentity("app", parts[1]))
    else if n == 5 && parts[0] == "apps" && parts[2] == "tools" && parts[4] == "enabled" then
      Some(RuntimeIdentity("app_tool", parts[1] + "/" + parts[3]))
    else if parts == ["features", "js_repl"] then
      Some(RuntimeIdentity("app_runtime", "node_repl"))
    else if n == 2 && parts[0] == "features" then
      Some(RuntimeIdentity("global_runtime", parts[1]))
    else if n >= 1 && parts[0] == "hooks" then
      Some(RuntimeIdentity("global_runtime", "hooks"))
    else if n >= 3 && parts[0] == "mcp_servers" then
      if n == 3 && parts[2] == "enabled" then ToggleAt(controls, parts, "mcp", parts[1])
      else Some(RuntimeIdentity("mcp_runtime", parts[1]))
    else if n >= 3 && parts[0] == "plugins" then
      if n == 3 && parts[2] == "enabled" then ToggleAt(controls, parts, "plugin", parts[1])
      else if n == 5 && parts[2] == "mcp_servers" && parts[4] == "enabled" then
        ToggleAt(controls, parts, "plugin_mcp", parts[1] + "/" + parts[3])
      else None
    else if n == 3 && parts[0] == "shell_environment_policy" && parts[1] == "set" then
      Some(RuntimeIdentity("app_runtime", "node_repl"))
    else if n == 3 && parts[0] == "skills" && parts[2] == "enabled" then
      ToggleAt(controls, parts, "skill", parts[1])
    else None
  }

  /** `descriptors` describes exactly the leaves of `tree`, each by its own path. */
  ghost predicate Describes(descriptors: map<string, Descriptor>, tree: Tree) {
    && (forall path :: LeafAt(tree, path).Some? ==>
          DescriptorFor(tree, path).Some? && Get(descriptors, Pointer(path)) == DescriptorFor(tree, path))
    && (forall pointer :: pointer in descriptors ==>
        exists path :: LeafAt(tree, path).Some? && pointer == Pointer(path))
  }

  ghost predicate AllDescribed(tree: Tree) {
    forall path :: LeafAt(tree, path).Some? ==> DescriptorFor(tree, path).Some?
  }

  ghost predicate DescribedSoFar(tree: Tree, done: set<string>, descriptors: map<string, Descriptor>) {
    && descriptors.Keys == done
    && forall path :: LeafAt(tree, path).Some? && Pointer(path) in done ==>
         DescriptorFor(tree, path).Some? && Get(descriptors, Pointer(path)) == DescriptorFor(tree, path)
  }

  lemma LeafOfPointer(tree: Tree, leaves: map<string, Leaf>, pointer: string) returns (path: Path)
    requires tree.Table? && Flattens(leaves, tree) && pointer in leaves
    ensures LeafAt(tree, path).Some? && path != [] && pointer == Pointer(path) && Parts(pointer) == Some(path)
    ensures forall other :: LeafAt(tree, other).Some? && Pointer(other) == pointer ==> other == path
  {
    path :| LeafAt(tree, path).Some? && pointer == Pointer(path);
    PointerRoundTrip(path);
    forall other | LeafAt(tree, other).Some? && Pointer(other) == pointer ensures other == path {
      PointerIsInjective(other, path);
    }
  }

  lemma NothingDescribed(tree: Tree)
    ensures DescribedSoFar(tree, {}, map[])
  {
  }

  lemma NotAllDescribed(tree: Tree, path: Path)
    requires LeafAt(tree, path).Some? && DescriptorFor(tree, path).None?
    ensures !AllDescribed(tree)
  {
  }

  lemma DescribedOneMore(
    tree: Tree, done: set<string>, descriptors: map<string, Descriptor>, path: Path, descriptor: Descriptor)
    requires DescribedSoFar(tree, done, descriptors) && DescriptorFor(tree, path) == Some(descriptor)
    requires forall other :: LeafAt(tree, other).Some? && Pointer(other) == Pointer(path) ==> other == path
    ensures DescribedSoFar(tree, done + {Pointer(path)}, descriptors[Pointer(path) := descriptor])
  {
    hide DescriptorFor, LeafAt;
  }

  lemma AllReached(tree: Tree, leaves: map<string, Leaf>, descriptors: map<string, Descriptor>)
    requires Flattens(leaves, tree) && DescribedSoFar(tree, leaves.Keys, descriptors)
    ensures AllDescribed(tree) && Describes(descriptors, tree)
  {
    hide DescriptorFor, LeafAt;
    forall path | LeafAt(tree, path).Some?
      ensures DescriptorFor(tree, path).Some? && Get(descriptors, Pointer(path)) == DescriptorFor(tree, path)
    {
      assert Get(leaves, Pointer(path)) == LeafAt(tree, path);
    }
  }

  /** Decodes every pointer of the flat form and describes it. */
  method Descriptors(tree: Tree) returns (r: Option<map<string, Descriptor>>)
    ensures r.Some? <==> tree.Table? && AllDescribed(tree)
    ensures r.Some? ==> Describes(r.value, tree)
  {
    hide DescriptorFor, LeafAt, Flattens, DescribedSoFar, AllDescribed, Describes;
    if !tree.Table? { return None; }
    var leaves := LeafHashes(tree);
    var todo, descriptors := leaves.Keys, map[];
    ghost var done: set<string> := {};
    NothingDescribed(tree);
    while todo != {}
      invariant todo !! done && todo + done == leaves.Keys
      invariant DescribedSoFar(tree, done, descriptors)
      decreases todo
    {
      var pointer :| pointer in todo;
      ghost var path := LeafOfPointer(tree, leaves, pointer);
      var parts := Parts(pointer);
      if parts.None? { return None; }
      var descriptor := DescriptorFor(tree, parts.value);
      if descriptor.None? {
        NotAllDescribed(tree, path);
        return None;
      }
      DescribedOneMore(tree, done, descriptors, path, descriptor.value);
      descriptors := descriptors[pointer := descriptor.value];
      todo, done := todo - {pointer}, done + {pointer};
    }
    AllReached(tree, leaves, descriptors);
    return Some(descriptors);
  }

  // ---------------------------------------------------------------------
  // The shape of every accepted control tree
  // ---------------------------------------------------------------------

  /** A table with a flag named "enabled" and nothing else. */
  predicate OnlyEnabled(tree: Tree) {
    tree.Table? && tree.entries.Keys == {"enabled"} && Flag(tree.entries["enabled"])
  }

  predicate Each(tree: Tree, shape: Tree -> bool) {
    tree.Table? && forall key :: key in tree.entries ==> shape(tree.entries[key])
  }

  predicate AppShape(tree: Tree) {
    && tree.Table?
    && forall key :: key in tree.entries ==>
         if key == "tools" then Each(tree.entries[key], OnlyEnabled)
         else (key == "enabled" || key in APP_GATES) && Flag(tree.entries[key])
  }

  predicate ServerShape(tree: Tree) {
    tree.Table? && ("enabled" in tree.entries ==> Flag(tree.entries["enabled"]))
  }

  predicate PluginShape(tree: Tree) {
    && tree.Table?
    && forall key :: key in tree.entries ==>
         if key == "mcp_servers" then Each(tree.entries[key], OnlyEnabled)
         else key == "enabled" && Flag(tree.entries[key])
  }

  predicate ShellShape(tree: Tree) {
    && tree.Table? && tree.entries.Keys == {"set"}
    && Each(tree.entries["set"], (value: Tree) => value.Atom?)
  }

  predicate SectionShape(root: string, tree: Tree) {
    if root == "apps" then Each(tree, AppShape)
    else if root == "features" then Each(tree, Flag)
    else if root == "hooks" then tree.Table?
    else if root == "mcp_servers" then Each(tree, ServerShape)
    else if root == "plugins" then Each(tree, PluginShape)
    else if root == "shell_environment_policy" then ShellShape(tree)
    else root == "skills" && Each(tree, OnlyEnabled)
  }

  predicate ControlTree(tree: Tree) {
    tree.Table? && forall root :: root in tree.entries ==> SectionShape(root, tree.entries[root])
  }

  // ---------------------------------------------------------------------
  // Every leaf of such a tree has its descriptor
  // ---------------------------------------------------------------------

  /** What a reader wants of a leaf: a descriptor, and no wrong flag in it. */
  ghost predicate WellDescribed(tree: Tree, path: Path) {
    && DescriptorFor(tree, path).Some?
    && (DescriptorFor(tree, path).value.Toggle? ==>
          LeafAt(tree, path) == Some(ScalarLeaf(Boolean(DescriptorFor(tree, path).value.enabled))))
  }

  lemma Descend(tree: Tree, path: Path)
    requires tree.Table? && LeafAt(tree, path).Some?
    ensures path != [] && path[0] in tree.entries
    ensures LeafAt(tree.entries[path[0]], path[1..]) == LeafAt(tree, path)
    ensures Lookup(tree, path) == Lookup(tree.entries[path[0]], path[1..])
  {
  }

  lemma AtomIsLeaf(tree: Tree, path: Path)
    requires tree.Atom? && LeafAt(tree, path).Some?
    ensures path == [] && LeafAt(tree, path) == Some(ScalarLeaf(tree.scalar)) && Lookup(tree, path) == Some(tree)
  {
  }

  /** A flag leaf and the flag found by walking the tables are the same. */
  lemma FlagsAgree(tree: Tree, path: Path)
    requires LeafAt(tree, path).Some? && Lookup(tree, path).Some? && Flag(Lookup(tree, path).value)
    ensures LeafAt(tree, path) == Some(ScalarLeaf(Lookup(tree, path).value.scalar))
    decreases path
  {
    if path != [] { FlagsAgree(tree.entries[path[0]], path[1..]); }
  }

  lemma OnlyEnabledLeaf(tree: Tree, path: Path)
    requires OnlyEnabled(tree) && LeafAt(tree, path).Some?
    ensures path == ["enabled"] && Lookup(tree, path).Some? && Flag(Lookup(tree, path).value)
  {
    Descend(tree, path);
    AtomIsLeaf(tree.entries[path[0]], path[1..]);
  }

  lemma EachEnabledLeaf(tree: Tree, path: Path)
    requires Each(tree, OnlyEnabled) && LeafAt(tree, path).Some?
    ensures |path| == 2 && path[1] == "enabled" && Lookup(tree, path).Some? && Flag(Lookup(tree, path).value)
  {
    Descend(tree, path);
    OnlyEnabledLeaf(tree.entries[path[0]], path[1..]);
  }

  lemma AppLeaf(tree: Tree, path: Path)
    requires AppShape(tree) && LeafAt(tree, path).Some?
    ensures || (|path| == 1 && path[0] == "enabled" && Lookup(tree, path).Some? && Flag(Lookup(tree, path).value))
            || (|path| == 1 && path[0] in APP_GATES)
            || (|path| == 3 && path[0] == "tools" && path[2] == "enabled")
  {
    Descend(tree, path);
    if path[0] == "tools" {
      EachEnabledLeaf(tree.entries[path[0]], path[1..]);
    } else {
      AtomIsLeaf(tree.entries[path[0]], path[1..]);
    }
  }

  lemma PluginLeaf(tree: Tree, path: Path)
    requires PluginShape(tree) && LeafAt(tree, path).Some?
    ensures Lookup(tree, path).Some? && Flag(Lookup(tree, path).value)
    ensures path == ["enabled"] || (|path| == 3 && path[0] == "mcp_servers" && path[2] == "enabled")
  {
    Descend(tree, path);
    if path[0] == "mcp_servers" {
      EachEnabledLeaf(tree.entries[path[0]], path[1..]);
    } else {
      AtomIsLeaf(tree.entries[path[0]], path[1..]);
    }
  }

  lemma ServerLeaf(tree: Tree, path: Path)
    requires ServerShape(tree) && LeafAt(tree, path).Some?
    ensures path != []
    ensures path == ["enabled"] ==> Lookup(tree, path).Some? && Flag(Lookup(tree, path).value)
  {
    Descend(tree, path);
  }

  /** The "no exact control descriptor" error is never reached on a control
      tree, and a toggle reports the flag that is in the tree. */
  lemma EveryLeafDescribed(tree: Tree, path: Path)
    requires ControlTree(tree) && LeafAt(tree, path).Some?
    ensures WellDescribed(tree, path)
  {
    hide LeafAt, Lookup;
    Descend(tree, path);
    var root, section, rest := path[0], tree.entries[path[0]], path[1..];
    assert SectionShape(root, section);
    Descend(section, rest);
    var inner, last := section.entries[rest[0]], rest[1..];
    if root == "apps" { AppLeaf(inner, last); }
    else if root == "features" { AtomIsLeaf(inner, last); }
    else if root == "mcp_servers" { ServerLeaf(inner, last); }
    else if root == "plugins" { PluginLeaf(inner, last); }
    else if root == "shell_environment_policy" { Descend(inner, last); AtomIsLeaf(inner.entries[last[0]], last[1..]); }
    else if root == "skills" { OnlyEnabledLeaf(inner, last); }
    if Lookup(tree, path).Some? && Flag(Lookup(tree, path).value) { FlagsAgree(tree, path); }
  }

  // ---------------------------------------------------------------------
  // Accepted configurations project to such trees
  // ---------------------------------------------------------------------

  lemma NormalizedParts(tree: Tree, path: Path)
    requires Normalized(tree, path).Some?
    ensures tree.Table? ==>
              && Normalized(tree, path).value.Table?
              && Normalized(tree, path).value.entries.Keys == tree.entries.Keys
              && forall key :: key in tree.entries ==>
                   && Normalized(tree.entries[key], path + [key]).Some?
                   && Normalized(tree, path).value.entries[key] == Normalized(tree.entries[key], path + [key]).value
    ensures tree.Atom? ==> Normalized(tree, path).value.Atom?
    ensures Flag(tree) ==> Normalized(tree, path).value == tree
  {
  }

  lemma OnlyEnabledNormalized(tree: Tree, path: Path)
    requires OnlyEnabled(tree) && Normalized(tree, path).Some?
    ensures OnlyEnabled(Normalized(tree, path).value)
  {
    NormalizedParts(tree, path);
    NormalizedParts(tree.entries["enabled"], path + ["enabled"]);
  }

  lemma EachEnabledNormalized(tree: Tree, path: Path)
    requires Each(tree, OnlyEnabled) && Normalized(tree, path).Some?
    ensures Each(Normalized(tree, path).value, OnlyEnabled)
  {
    NormalizedParts(tree, path);
    forall key | key in tree.entries ensures OnlyEnabled(Normalized(tree, path).value.entries[key]) {
      OnlyEnabledNormalized(tree.entries[key], path + [key]);
    }
  }

  lemma ShapesNormalized(tree: Tree, path: Path)
    requires Normalized(tree, path).Some?
    ensures AppShape(tree) ==> AppShape(Normalized(tree, path).value)
    ensures ServerShape(tree) ==> ServerShape(Normalized(tree, path).value)
    ensures PluginShape(tree) ==> PluginShape(Normalized(tree, path).value)
    ensures OnlyEnabled(tree) ==> OnlyEnabled(Normalized(tree, path).value)
    ensures Flag(tree) ==> Flag(Normalized(tree, path).value)
  {
    hide Normalized;
    NormalizedParts(tree, path);
    if tree.Table? {
      forall key | key in tree.entries
        ensures Flag(tree.entries[key]) ==> Normalized(tree, path).value.entries[key] == tree.entries[key]
        ensures Each(tree.entries[key], OnlyEnabled) ==> Each(Normalized(tree, path).value.entries[key], OnlyEnabled)
      {
        NormalizedParts(tree.entries[key], path + [key]);
        if Each(tree.entries[key], OnlyEnabled) { EachEnabledNormalized(tree.entries[key], path + [key]); }
      }
    }
  }

  lemma SectionNormalized(root: string, tree: Tree, path: Path)
    requires SectionShape(root, tree) && Normalized(tree, path).Some?
    ensures SectionShape(root, Normalized(tree, path).value)
  {
    hide Normalized, AppShape, ServerShape, PluginShape, OnlyEnabled, Flag;
    NormalizedParts(tree, path);
    forall key | key in tree.entries
      ensures AppShape(tree.entries[key]) ==> AppShape(Normalized(tree, path).value.entries[key])
      ensures ServerShape(tree.entries[key]) ==> ServerShape(Normalized(tree, path).value.entries[key])
      ensures PluginShape(tree.entries[key]) ==> PluginShape(Normalized(tree, path).value.entries[key])
      ensures OnlyEnabled(tree.entries[key]) ==> OnlyEnabled(Normalized(tree, path).value.entries[key])
      ensures Flag(tree.entries[key]) ==> Flag(Normalized(tree, path).value.entries[key])
    {
      ShapesNormalized(tree.entries[key], path + [key]);
    }
    if root == "shell_environment_policy" {
      var chosen := tree.entries["set"];
      NormalizedParts(chosen, path + ["set"]);
      forall key | key in chosen.entries ensures Normalized(chosen, path + ["set"]).value.entries[key].Atom? {
        NormalizedParts(chosen.entries[key], path + ["set"] + [key]);
      }
    }
  }

  lemma ProjectedEach(value: Option<Tree>, row: Config -> Row, shape: Tree -> bool)
    requires forall config :: row(config).Kept? ==> shape(row(config).tree)
    ensures Projected(value, row).Some? ==> Each(Table(Projected(value, row).value), shape)
  {
  }

  lemma AppRowShape(config: Config)
    ensures AppRow(config).Kept? ==> AppShape(AppRow(config).tree)
  {
    hide Projected;
    ProjectedEach(Get(config, "tools"), ToolRow, OnlyEnabled);
  }

  lemma PluginRowShape(config: Config)
    ensures PluginRow(config).Kept? ==> PluginShape(PluginRow(config).tree)
  {
    hide Projected;
    ProjectedEach(Get(config, "mcp_servers"), NestedRow, OnlyEnabled);
  }

  lemma ServerRowShape(config: Config)
    ensures ServerRow(config).Kept? ==> ServerShape(ServerRow(config).tree)
  {
    hide Projected;
  }

  lemma ProjectedShape(value: Option<Tree>)
    ensures Projected(value, AppRow).Some? ==> Each(Table(Projected(value, AppRow).value), AppShape)
    ensures Projected(value, ServerRow).Some? ==> Each(Table(Projected(value, ServerRow).value), ServerShape)
    ensures Projected(value, PluginRow).Some? ==> Each(Table(Projected(value, PluginRow).value), PluginShape)
  {
    hide AppRow, ServerRow, PluginRow, AppShape, ServerShape, PluginShape, Projected;
    forall config: Config
      ensures AppRow(config).Kept? ==> AppShape(AppRow(config).tree)
      ensures ServerRow(config).Kept? ==> ServerShape(ServerRow(config).tree)
      ensures PluginRow(config).Kept? ==> PluginShape(PluginRow(config).tree)
    {
      AppRowShape(config);
      ServerRowShape(config);
      PluginRowShape(config);
    }
    ProjectedEach(value, AppRow, AppShape);
    ProjectedEach(value, ServerRow, ServerShape);
    ProjectedEach(value, PluginRow, PluginShape);
  }

  lemma {:induction false} SkillsShape(items: seq<Tree>)
    ensures SkillItems(items).Some? ==> Each(Table(SkillItems(items).value), OnlyEnabled)
  {
    if items != [] { SkillsShape(items[..|items| - 1]); }
  }

  lemma SectionsShape(data: Config, root: string)
    requires root in ROOTS && Section(data, root).Some?
    ensures SectionShape(root, Table(Section(data, root).value))
  {
    hide Projected, AppRow, ServerRow, PluginRow, SkillItems, OnlyEnabled;
    ProjectedShape(Get(data, root));
    if root == "skills" && "skills" in data && data["skills"].Table? && "config" in data["skills"].entries
       && data["skills"].entries["config"].Array? {
      SkillsShape(data["skills"].entries["config"].items);
    }
  }

  /** Every accepted configuration has controls of the expected shape. */
  lemma AcceptedIsControlTree(data: Config)
    requires Controls(data).Some?
    ensures ControlTree(Controls(data).value)
  {
    hide Normalized, Section, SectionShape;
    var sections := Table(map root | root in ROOTS :: Table(Section(data, root).value));
    NormalizedParts(sections, ["controls"]);
    forall root | root in ROOTS ensures SectionShape(root, Controls(data).value.entries[root]) {
      SectionsShape(data, root);
      SectionNormalized(root, sections.entries[root], ["controls"] + [root]);
    }
  }

  /** Every leaf of every accepted configuration has one descriptor, and every
      toggle reports the flag of its leaf. */
  lemma AcceptedIsDescribed(data: Config)
    requires Controls(data).Some?
    ensures AllDescribed(Controls(data).value)
    ensures forall path :: LeafAt(Controls(data).value, path).Some? ==> WellDescribed(Controls(data).value, path)
  {
    hide Controls, LeafAt, DescriptorFor;
    AcceptedIsControlTree(data);
    forall path | LeafAt(Controls(data).value, path).Some? ensures WellDescribed(Controls(data).value, path) {
      EveryLeafDescribed(Controls(data).value, path);
    }
  }

  function KindOf(root: string): string {
    if root == "apps" then "app" else if root == "mcp_servers" then "mcp" else "plugin"
  }

  lemma RowEnabled(config: Config)
    ensures (AppRow(config).Kept? ==>
              Lookup(AppRow(config).tree, ["enabled"]) == Some(FlagTree(FlagOf(config, "enabled", true).value)))
    ensures (ServerRow(config).Kept? ==>
              Lookup(ServerRow(config).tree, ["enabled"]) == Some(FlagTree(FlagOf(config, "enabled", true).value)))
    ensures (PluginRow(config).Kept? ==>
              Lookup(PluginRow(config).tree, ["enabled"]) == Some(FlagTree(FlagOf(config, "enabled", true).value)))
  {
  }

  lemma LookupNormalized(tree: Tree, path: Path, rest: Path)
    requires Normalized(tree, path).Some? && Lookup(tree, rest).Some? && Flag(Lookup(tree, rest).value)
    ensures Lookup(Normalized(tree, path).value, rest) == Lookup(tree, rest)
    decreases rest
  {
    hide Normalized;
    NormalizedParts(tree, path);
    if rest != [] { LookupNormalized(tree.entries[rest[0]], path + [rest[0]], rest[1..]); }
  }

  lemma FlagIsLeaf(tree: Tree, path: Path)
    requires Lookup(tree, path).Some? && Flag(Lookup(tree, path).value)
    ensures LeafAt(tree, path) == Some(ScalarLeaf(Lookup(tree, path).value.scalar))
    decreases path
  {
    if path != [] { FlagIsLeaf(tree.entries[path[0]], path[1..]); }
  }

  /** One row of a projected table, under its folded name. */
  lemma RowReports(rows: Config, row: Config -> Row, raw: string, flag: Option<bool>)
    requires Projected(Some(Table(rows)), row).Some? && raw in rows && rows[raw].Table?
    requires row(rows[raw].entries).Kept? ==>
               flag.Some? && Lookup(row(rows[raw].entries).tree, ["enabled"]) == Some(FlagTree(flag.value))
    requires row(rows[raw].entries) != Skipped
    ensures flag.Some?
    ensures Lookup(Table(Projected(Some(Table(rows)), row).value), [FOLDED(raw), "enabled"]) ==
        Some(FlagTree(flag.value))
  {
    assert [FOLDED(raw), "enabled"][1..] == ["enabled"];
  }

  lemma SectionReports(data: Config, root: string, raw: string)
    requires (root == "apps" || root == "mcp_servers" || root == "plugins") && Section(data, root).Some?
    requires root in data && data[root].Table? && raw in data[root].entries && data[root].entries[raw].Table?
    ensures FlagOf(data[root].entries[raw].entries, "enabled", true).Some?
    ensures Lookup(Table(Section(data, root).value), [FOLDED(raw), "enabled"])
              == Some(FlagTree(FlagOf(data[root].entries[raw].entries, "enabled", true).value))
  {
    hide Projected, AppRow, ServerRow, PluginRow, Lookup, FlagOf;
    var config := data[root].entries[raw].entries;
    RowEnabled(config);
    RowsKept(config);
    var flag := FlagOf(config, "enabled", true);
    assert data[root] == Table(data[root].entries);
    if root == "apps" { RowReports(data[root].entries, AppRow, raw, flag); }
    else if root == "mcp_servers" { RowReports(data[root].entries, ServerRow, raw, flag); }
    else { RowReports(data[root].entries, PluginRow, raw, flag); }
  }

  lemma RowsKept(config: Config)
    ensures AppRow(config).Kept? ==> FlagOf(config, "enabled", true).Some?
    ensures ServerRow(config).Kept? ==> FlagOf(config, "enabled", true).Some?
    ensures PluginRow(config).Kept? ==> FlagOf(config, "enabled", true).Some?
    ensures AppRow(config) != Skipped && ServerRow(config) != Skipped && PluginRow(config) != Skipped
  {
  }

  /** What the configuration says of an app, a server or a plugin, or leaves to
      the default, is what the descriptor of its folded name reports. */
  lemma ConfiguredIsReported(data: Config, root: string, raw: string)
    requires Controls(data).Some? && (root == "apps" || root == "mcp_servers" || root == "plugins")
    requires root in data && data[root].Table? && raw in data[root].entries && data[root].entries[raw].Table?
    ensures FlagOf(data[root].entries[raw].entries, "enabled", true).Some?
    ensures DescriptorFor(Controls(data).value, [root, FOLDED(raw), "enabled"])
              == Some(Toggle(KindOf(root), FOLDED(raw), FlagOf(data[root].entries[raw].entries, "enabled", true).value))
    ensures LeafAt(Controls(data).value, [root, FOLDED(raw), "enabled"]).Some?
  {
    hide Section, Normalized, LeafAt, FlagOf;
    var sections := Table(map name | name in ROOTS :: Table(Section(data, name).value));
    var path := [root, FOLDED(raw), "enabled"];
    assert root in ROOTS && Section(data, root).Some?;
    SectionReports(data, root, raw);
    assert path[1..] == [FOLDED(raw), "enabled"];
    assert Lookup(sections, path) == Lookup(sections.entries[root], path[1..]);
    LookupNormalized(sections, ["controls"], path);
    FlagIsLeaf(Controls(data).value, path);
  }

  /** The descriptors of a configuration file, from its text to the last flag. */
  method Describe(data: Config) returns (r: Option<map<string, Descriptor>>)
    ensures r.Some? <==> Controls(data).Some?
    ensures r.Some? ==> Describes(r.value, Controls(data).value)
  {
    hide Controls, AllDescribed, Describes;
    var controls := Project(data);
    if controls.None? { return None; }
    AcceptedIsDescribed(data);
    AcceptedIsControlTree(data);
    r := Descriptors(controls.value);
  }
}
