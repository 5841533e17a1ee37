/** From a configuration to its capability controls, and from every leaf of the
    controls to the one control it belongs to. */
module ConfigProjection {
  import opened Wrappers
  import opened JsonPointer
  import opened ConfigFingerprint
  import Decimals

  /** A name stripped of surrounding blanks and case-folded. */
  const FOLDED: string -> string

  /** The canonical form of an absolute skill path; `None` for anything else. */
  const CANONICAL_SKILL: string -> Option<string>

  /** The form of a session pipe name. */
  const PIPE_NAME: string -> bool

  const ROOTS := {"apps", "features", "hooks", "mcp_servers", "plugins", "shell_environment_policy", "skills"}
  const OTHER_ROOTS := {
    "approval_policy", "approvals_reviewer", "desktop", "marketplaces", "model", "model_reasoning_effort",
    "notify", "personality", "projects", "sandbox_mode", "sandbox_workspace_write", "windows"}
  const FEATURES := {
    "apps", "browser_use", "computer_use", "connectors", "hooks", "in_app_browser", "js_repl", "memories",
    "plugins", "remote_plugin", "tool_search"}
  const APP_GATES := {"default_tools_enabled", "destructive_enabled", "open_world_enabled"}
  const APP_KEYS := {"enabled", "tools", "approvals_reviewer", "default_tools_approval_mode"} + APP_GATES
  const SERVER_RUNTIME := {"args", "command", "cwd", "env", "url"}
  const SERVER_KEYS :=
    {"startup_timeout_sec", "tool_timeout_sec", "enabled", "gateway_managed", "tools"} + SERVER_RUNTIME
  const SHELL_KEYS := {
    "BROWSER_USE_AVAILABLE_BACKENDS", "NODE_REPL_TRUSTED_BROWSER_CLIENT_SHA256S", "NODE_REPL_TRUSTED_CODE_PATHS"}
  const PIPE_PATH := ["controls", "mcp_servers", "node_repl", "runtime", "env", "SKY_CUA_NATIVE_PIPE_DIRECTORY"]

  type Config = map<string, Tree>

  predicate Flag(tree: Tree) {
    tree.Atom? && tree.scalar.Boolean?
  }

  function FlagOf(config: Config, key: string, default: bool): Option<bool> {
    if key !in config then Some(default)
    else if Flag(config[key]) then Some(config[key].scalar.flag)
    else None
  }

  function FlagTree(flag: bool): Tree {
    Atom(Boolean(flag))
  }

  // ---------------------------------------------------------------------
  // Keyed tables
  // ---------------------------------------------------------------------

  predicate KeyAccepted(raw: string) {
    FOLDED(raw) != "" && FOLDED(raw) != "." && FOLDED(raw) != ".."
  }

  /** What becomes of one row: an error, nothing, or a projected table. */
  datatype Row = Rejected | Skipped | Kept(tree: Tree)

  /** Every key has a name of its own and every row is acceptable. */
  predicate RowsAccepted(rows: Config, row: Config -> Row) {
    && (forall raw :: raw in rows ==> KeyAccepted(raw) && rows[raw].Table? && row(rows[raw].entries) != Rejected)
    && (forall a, b :: a in rows && b in rows && FOLDED(a) == FOLDED(b) ==> a == b)
  }

  /** The projection of a table whose rows are keyed by folded names. */
  function Projected(value: Option<Tree>, row: Config -> Row): Option<Config> {
    if value.None? then Some(map[])
    else if !value.value.Table? || !RowsAccepted(value.value.entries, row) then None
    else
      var rows := value.value.entries;
      Some(map raw | raw in rows && row(rows[raw].entries).Kept? :: FOLDED(raw) := row(rows[raw].entries).tree)
  }

  ghost predicate RowsReached(rows: Config, row: Config -> Row, done: set<string>, result: Config)
    requires forall raw :: raw in done ==> raw in rows && rows[raw].Table?
  {
    && (forall raw :: raw in done && row(rows[raw].entries).Kept? ==>
          Get(result, FOLDED(raw)) == Some(row(rows[raw].entries).tree))
    && (forall key :: key in result ==> exists raw :: raw in done && FOLDED(raw) == key && row(rows[raw].entries).Kept?)
  }

  method ProjectTable(value: Option<Tree>, row: Config -> Row) returns (r: Option<Config>)
    ensures r == Projected(value, row)
  {
    if value.None? { return Some(map[]); }
    if !value.value.Table? { return None; }
    var rows := value.value.entries;
    var todo, seen, result: Config := rows.Keys, {}, map[];
    ghost var done: set<string> := {};
    while todo != {}
      invariant todo !! done && todo + done == rows.Keys
      invariant forall raw :: raw in done ==> FOLDED(raw) in seen
      invariant forall key :: key in seen ==> exists raw :: raw in done && FOLDED(raw) == key
      invariant forall raw :: raw in done ==> KeyAccepted(raw) && rows[raw].Table? && row(rows[raw].entries) != Rejected
      invariant forall a, b :: a in done && b in done && FOLDED(a) == FOLDED(b) ==> a == b
      invariant RowsReached(rows, row, done, result)
      decreases todo
    {
      var raw :| raw in todo;
      var key := FOLDED(raw);
      if !KeyAccepted(raw) || key in seen || !rows[raw].Table? { return None; }
      var projected := row(rows[raw].entries);
      if projected == Rejected { return None; }
      seen := seen + {key};
      if projected.Kept? { result := result[key := projected.tree]; }
      todo, done := todo - {raw}, done + {raw};
    }
    assert RowsAccepted(rows, row);
    forall key ensures Get(result, key) == Get(Projected(value, row).value, key) {
      if key in result {
        var raw :| raw in done && FOLDED(raw) == key && row(rows[raw].entries).Kept?;
      }
    }
    SameLookups(result, Projected(value, row).value);
    return Some(result);
  }

  // ---------------------------------------------------------------------
  // The rows of each section
  // ---------------------------------------------------------------------

  function ToolRow(config: Config): Row {
    if !(config.Keys <= {"approval_mode", "enabled"}) then Rejected
    else if "enabled" !in config then Skipped
    else if !Flag(config["enabled"]) then Rejected
    else Kept(Table(map["enabled" := config["enabled"]]))
  }

  function AppRow(config: Config): Row {
    var enabled := FlagOf(config, "enabled", true);
    var tools := Projected(Get(config, "tools"), ToolRow);
    if !(config.Keys <= APP_KEYS) || enabled.None? || tools.None? then Rejected
    else if exists gate :: gate in APP_GATES && gate in config && !Flag(config[gate]) then Rejected
    else Kept(Table((map gate | gate in APP_GATES && gate in config :: config[gate])
      + map["enabled" := FlagTree(enabled.value), "tools" := Table(tools.value)]))
  }

  function ServerRow(config: Config): Row {
    var enabled := FlagOf(config, "enabled", true);
    var managed := FlagOf(config, "gateway_managed", false);
    var tools := Projected(Get(config, "tools"), ToolRow);
    if !(config.Keys <= SERVER_KEYS) || enabled.None? || managed.None? || tools.None? then Rejected
    else if managed.value && enabled.value then Rejected
    else Kept(Table(map[
      "enabled" := FlagTree(enabled.value),
      "gateway_managed" := FlagTree(managed.value),
      "runtime" := Table(map key | key in SERVER_RUNTIME && key in config :: config[key]),
      "tools" := Table(tools.value)]))
  }

  function NestedRow(config: Config): Row {
    if config.Keys == {"enabled"} && Flag(config["enabled"]) then Kept(Table(map["enabled" := config["enabled"]]))
    else Rejected
  }

  function PluginRow(config: Config): Row {
    var enabled := FlagOf(config, "enabled", true);
    var nested := Projected(Get(config, "mcp_servers"), NestedRow);
    if !(config.Keys <= {"enabled", "mcp_servers"}) || enabled.None? || nested.None? then Rejected
    else Kept(Table(map["enabled" := FlagTree(enabled.value), "mcp_servers" := Table(nested.value)]))
  }

  function Features(value: Option<Tree>): Option<Config> {
    if value.None? then Some(map[])
    else if !value.value.Table? || !(value.value.entries.Keys <= FEATURES) then None
    else if exists key :: key in value.value.entries && !Flag(value.value.entries[key]) then None
    else Some(value.value.entries)
  }

  function Hooks(value: Option<Tree>): Option<Config> {
    if value.None? then Some(map[])
    else if !value.value.Table? then None
    else Some(value.value.entries - {"state"})
  }

  predicate IsText(tree: Tree) {
    tree.Atom? && tree.scalar.Text?
  }

  function ShellEnvironment(value: Option<Tree>): Option<Config> {
    if value.None? then Some(map["set" := Table(map[])])
    else if !value.value.Table? then None
    else
      var chosen := if "set" in value.value.entries then value.value.entries["set"] else Table(map[]);
      if !chosen.Table? then None
      else if exists key :: key in SHELL_KEYS && key in chosen.entries && !IsText(chosen.entries[key]) then None
      else Some(map["set" := Table(map key | key in SHELL_KEYS && key in chosen.entries :: chosen.entries[key])])
  }

  /** The canonical path of a skills item and its row; `None` is an error. */
  function SkillItem(item: Tree): Option<(string, Tree)> {
    if !item.Table? || item.entries.Keys != {"path", "enabled"} then None
    else if !IsText(item.entries["path"]) || !Flag(item.entries["enabled"]) then None
    else
      match CANONICAL_SKILL(item.entries["path"].scalar.text)
      case None => None
      case Some(path) => Some((path, Table(map["enabled" := item.entries["enabled"]])))
  }

  function SkillItems(items: seq<Tree>): Option<Config> {
    if items == [] then Some(map[])
    else
      var init, item := SkillItems(items[..|items| - 1]), SkillItem(items[|items| - 1]);
      if init.None? || item.None? || item.value.0 in init.value then None
      else Some(init.value[item.value.0 := item.value.1])
  }

  lemma {:induction false} FailureStays(items: seq<Tree>, i: nat)
    requires i <= |items| && SkillItems(items[..i]).None?
    ensures SkillItems(items).None?
    decreases |items|
  {
    if i < |items| {
      assert items[..|items| - 1][..i] == items[..i];
      FailureStays(items[..|items| - 1], i);
    } else {
      assert items[..i] == items;
    }
  }

  /** Skills are an array; two items may not name one path. */
  method ProjectSkills(items: seq<Tree>) returns (r: Option<Config>)
    ensures r == SkillItems(items)
  {
    var result: Config := map[];
    for i := 0 to |items|
      invariant SkillItems(items[..i]) == Some(result)
    {
      assert items[..i + 1][..i] == items[..i];
      var item := SkillItem(items[i]);
      if item.None? || item.value.0 in result {
        FailureStays(items, i + 1);
        return None;
      }
      result := result[item.value.0 := item.value.1];
    }
    assert items[..|items|] == items;
    return Some(result);
  }

  function Skills(value: Option<Tree>): Option<Config> {
    if value.None? then Some(map[])
    else if !value.value.Table? || !(value.value.entries.Keys <= {"config"}) then None
    else if "config" !in value.value.entries then Some(map[])
    else if !value.value.entries["config"].Array? then None
    else SkillItems(value.value.entries["config"].items)
  }

  method ProjectSkillsTable(value: Option<Tree>) returns (r: Option<Config>)
    ensures r == Skills(value)
  {
    if value.None? { return Some(map[]); }
    if !value.value.Table? || !(value.value.entries.Keys <= {"config"}) { return None; }
    if "config" !in value.value.entries { return Some(map[]); }
    if !value.value.entries["config"].Array? { return None; }
    r := ProjectSkills(value.value.entries["config"].items);
  }

  // ---------------------------------------------------------------------
  // Normalization and the whole projection
  // ---------------------------------------------------------------------

  /** Typed nodes; the session pipe becomes one fixed value. */
  function Normalized(tree: Tree, path: Path): Option<Tree>
    decreases tree
  {
    if path == PIPE_PATH then
      if IsText(tree) && PIPE_NAME(tree.scalar.text) then Some(Atom(SessionPipe)) else None
    else
      match tree
      case Atom(scalar) => if scalar.NotFinite? || scalar.SessionPipe? then None else Some(tree)
      case Array(items) =>
        if exists i :: 0 <= i < |items| && Normalized(items[i], path + [Decimals.Decimal(i)]).None? then None
        else Some(Array(seq(|items|,
            i requires 0 <= i < |items| => Normalized(items[i], path + [Decimals.Decimal(i)]).value)))
      case Table(entries) =>
        if "" in entries || exists key :: key in entries && Normalized(entries[key], path + [key]).None? then None
        else Some(Table(map key | key in entries :: Normalized(entries[key], path + [key]).value))
  }

  /** The section of the controls a root projects to. */
  function Section(data: Config, root: string): Option<Config> {
    var value := Get(data, root);
    if root == "apps" then Projected(value, AppRow)
    else if root == "features" then Features(value)
    else if root == "hooks" then Hooks(value)
    else if root == "mcp_servers" then Projected(value, ServerRow)
    else if root == "plugins" then Projected(value, PluginRow)
    else if root == "shell_environment_policy" then ShellEnvironment(value)
    else Skills(value)
  }

  function Controls(data: Config): Option<Tree> {
    if !(data.Keys <= ROOTS + OTHER_ROOTS) then None
    else if exists root :: root in ROOTS && Section(data, root).None? then None
    else Normalized(Table(map root | root in ROOTS :: Table(Section(data, root).value)), ["controls"])
  }

  lemma BySection(data: Config, controls: Config)
    requires data.Keys <= ROOTS + OTHER_ROOTS && controls.Keys == ROOTS
    requires forall root ::
              root in ROOTS ==> Section(data, root).Some? && controls[root] == Table(Section(data, root).value)
    ensures Controls(data) == Normalized(Table(controls), ["controls"])
  {
    hide Section, Normalized;
    assert controls == map root | root in ROOTS :: Table(Section(data, root).value);
  }

  lemma Refused(data: Config)
    ensures !(data.Keys <= ROOTS + OTHER_ROOTS) ==> Controls(data).None?
    ensures forall root :: root in ROOTS && Section(data, root).None? ==> Controls(data).None?
  {
    hide Section, Normalized;
  }

  lemma SectionsStay(controls: Config)
    ensures var r := Normalized(Table(controls), ["controls"]); r.Some? ==>
        r.value.Table? && r.value.entries.Keys == controls.Keys
  {
  }

  /** The control tree of a configuration, section by section; `None` is a refusal. */
  method Project(data: Config) returns (r: Option<Tree>)
    ensures r == Controls(data)
    ensures r.Some? ==> data.Keys <= ROOTS + OTHER_ROOTS && r.value.Table? && r.value.entries.Keys == ROOTS
  {
    hide Projected, AppRow, ServerRow, PluginRow, Features, Hooks, ShellEnvironment, Skills, Normalized, Controls;
    Refused(data);
    if !(data.Keys <= ROOTS + OTHER_ROOTS) { return None; }
    var apps := ProjectTable(Get(data, "apps"), AppRow);
    var servers := ProjectTable(Get(data, "mcp_servers"), ServerRow);
    var plugins := ProjectTable(Get(data, "plugins"), PluginRow);
    var features, hooks := Features(Get(data, "features")), Hooks(Get(data, "hooks"));
    var shell := ShellEnvironment(Get(data, "shell_environment_policy"));
    var skills := ProjectSkillsTable(Get(data, "skills"));
    assert Section(data, "apps") == apps && Section(data, "mcp_servers") == servers && Section(data, "plugins") ==
        plugins;
    assert Section(data, "features") == features && Section(data, "hooks") == hooks;
    assert Section(data, "shell_environment_policy") == shell && Section(data, "skills") == skills;
    if apps.None? || servers.None? || plugins.None? || features.None? || hooks.None? || shell.None? || skills.None? {
      return None;
    }
    var controls := map[
      "apps" := Table(apps.value), "features" := Table(features.value), "hooks" := Table(hooks.value),
      "mcp_servers" := Table(servers.value), "plugins" := Table(plugins.value),
      "shell_environment_policy" := Table(shell.value), "skills" := Table(skills.value)];
    BySection(data, controls);
    SectionsStay(controls);
    r := Normalized(Table(controls), ["controls"]);
  }
}
