/** What the leaves of the capability controls say of the configuration they were
    projected from, section by section. */
module ConfigReports {
  import opened Wrappers
  import opened JsonPointer
  import opened ConfigFingerprint
  import opened ConfigProjection
  import opened ConfigControls
  import opened Decimals

  lemma NoLeafHere(tree: Tree)
    ensures !tree.Atom? ==> LeafAt(tree, []).None?
    ensures tree.Array? ==> LeafAt(tree, [ARRAY_MARK]) == Some(ArrayLeaf(|tree.items|))
  {
  }

  lemma NormalizedAtPipe(tree: Tree, rest: Path)
    requires Normalized(tree, PIPE_PATH).Some?
    ensures LeafAt(Normalized(tree, PIPE_PATH).value, rest) ==
              if rest == [] then Some(ScalarLeaf(SessionPipe)) else LeafAt(tree, rest)
    ensures LeafAt(tree, rest).Some? <==> rest == []
  {
  }

  lemma NormalizedItems(tree: Tree, path: Path)
    requires Normalized(tree, path).Some? && tree.Array? && path != PIPE_PATH
    ensures Normalized(tree, path).value.Array? && |Normalized(tree, path).value.items| == |tree.items|
    ensures forall i :: 0 <= i < |tree.items| ==>
              && Normalized(tree.items[i], path + [Decimal(i)]).Some?
              && Normalized(tree, path).value.items[i] == Normalized(tree.items[i], path + [Decimal(i)]).value
  {
  }

  lemma NoIndexNoLeaf(tree: Tree, rest: Path)
    requires tree.Array? && rest != [ARRAY_MARK] && (rest == [] || !IsIndex(rest[0], |tree.items|))
    ensures LeafAt(tree, rest).None?
  {
  }

  /** What normalization makes of a leaf: the session pipe becomes the same leaf in
      every session, and every other one stays as it is. */
  function Reported(leaf: Option<Leaf>, path: Path): Option<Leaf> {
    if path == PIPE_PATH && leaf.Some? then Some(ScalarLeaf(SessionPipe)) else leaf
  }

  /** Normalization changes no leaf but the session pipe. */
  lemma {:induction false} NormalizedLeaf(tree: Tree, path: Path, rest: Path)
    requires Normalized(tree, path).Some?
    ensures LeafAt(Normalized(tree, path).value, rest) == Reported(LeafAt(tree, rest), path + rest)
    decreases tree
  {
    hide Normalized, LeafAt;
    NormalizedParts(tree, path);
    NoLeafHere(tree);
    NoLeafHere(Normalized(tree, path).value);
    assert rest == [] ==> path + rest == path;
    if path == PIPE_PATH {
      NormalizedAtPipe(tree, rest);
      assert path + rest == PIPE_PATH ==> |rest| == 0;
    } else if tree.Atom? {
      NormalizedAtom(tree, path, rest);
    } else if rest == [] {
      if tree.Array? { NormalizedItems(tree, path); }
    } else {
      assert rest == [rest[0]] + rest[1..] && path + [rest[0]] + rest[1..] == path + rest;
      if tree.Table? {
        EntryLeaf(tree.entries, rest[0], rest[1..]);
        EntryLeaf(Normalized(tree, path).value.entries, rest[0], rest[1..]);
        if rest[0] in tree.entries { NormalizedLeaf(tree.entries[rest[0]], path + [rest[0]], rest[1..]); }
      } else {
        NormalizedArrayLeaf(tree, path, rest);
      }
    }
  }

  lemma NormalizedAtom(tree: Tree, path: Path, rest: Path)
    requires Normalized(tree, path).Some? && tree.Atom? && path != PIPE_PATH
    ensures LeafAt(Normalized(tree, path).value, rest) == Reported(LeafAt(tree, rest), path + rest)
  {
    assert rest == [] ==> path + rest == path;
  }

  lemma {:induction false} NormalizedArrayLeaf(tree: Tree, path: Path, rest: Path)
    requires Normalized(tree, path).Some? && tree.Array? && path != PIPE_PATH && rest != []
    ensures LeafAt(Normalized(tree, path).value, rest) == Reported(LeafAt(tree, rest), path + rest)
    decreases tree, 0
  {
    hide Normalized, LeafAt;
    NormalizedItems(tree, path);
    var items, after := tree.items, Normalized(tree, path).value.items;
    if rest == [ARRAY_MARK] {
      NoLeafHere(tree);
      NoLeafHere(Normalized(tree, path).value);
      assert (path + rest)[|path|] == ARRAY_MARK;
    } else if IsIndex(rest[0], |items|) {
      var i: nat :| i < |items| && rest[0] == Decimal(i);
      assert rest == [Decimal(i)] + rest[1..] && path + [Decimal(i)] + rest[1..] == path + rest;
      ItemLeaf(items, i, rest[1..]);
      ItemLeaf(after, i, rest[1..]);
      NormalizedLeaf(items[i], path + [Decimal(i)], rest[1..]);
    } else {
      NoIndexNoLeaf(tree, rest);
      NoIndexNoLeaf(Normalized(tree, path).value, rest);
    }
  }

  /** A section of the controls holds the leaves its projection holds. */
  lemma SectionLeaf(data: Config, root: string, rest: Path)
    requires Controls(data).Some? && root in ROOTS
    ensures Section(data, root).Some?
    ensures LeafAt(Controls(data).value, [root] + rest)
              == Reported(LeafAt(Table(Section(data, root).value), rest), ["controls", root] + rest)
  {
    hide Section, Normalized, LeafAt;
    var sections := map name | name in ROOTS :: Table(Section(data, name).value);
    NormalizedLeaf(Table(sections), ["controls"], [root] + rest);
    EntryLeaf(sections, root, rest);
    assert ["controls"] + ([root] + rest) == ["controls", root] + rest;
  }

  lemma NotThePipe(root: string, rest: Path)
    ensures root != "mcp_servers" ==> ["controls", root] + rest != PIPE_PATH
    ensures |rest| != 4 ==> ["controls", root] + rest != PIPE_PATH
    ensures |rest| >= 2 && rest[1] != "runtime" ==> ["controls", root] + rest != PIPE_PATH
  {
    assert (["controls", root] + rest)[1] == root;
    assert |rest| >= 2 ==> (["controls", root] + rest)[3] == rest[1];
  }

  // ---------------------------------------------------------------------
  // What is never let through
  // ---------------------------------------------------------------------

  /** No number that is not finite is in the controls, and no session pipe but at its
      place. */
  lemma {:induction false} NothingOdd(tree: Tree, path: Path, rest: Path)
    requires Normalized(tree, path).Some?
    ensures LeafAt(Normalized(tree, path).value, rest) != Some(ScalarLeaf(NotFinite))
    ensures LeafAt(Normalized(tree, path).value, rest) == Some(ScalarLeaf(SessionPipe)) ==> path + rest == PIPE_PATH
    decreases tree
  {
    hide Normalized, LeafAt;
    var after := Normalized(tree, path).value;
    NormalizedLeaf(tree, path, rest);
    NoLeafHere(tree);
    assert rest == [] ==> path + rest == path;
    if path == PIPE_PATH {
      NormalizedAtPipe(tree, rest);
    } else if tree.Atom? {
      FiniteAtom(tree, path, rest);
    } else if rest != [] {
      assert rest == [rest[0]] + rest[1..] && path + [rest[0]] + rest[1..] == path + rest;
      if tree.Table? {
        NormalizedParts(tree, path);
        EntryLeaf(after.entries, rest[0], rest[1..]);
        if rest[0] in tree.entries { NothingOdd(tree.entries[rest[0]], path + [rest[0]], rest[1..]); }
      } else if rest != [ARRAY_MARK] {
        NormalizedItems(tree, path);
        if IsIndex(rest[0], |tree.items|) {
          var i: nat :| i < |tree.items| && rest[0] == Decimal(i);
          ItemLeaf(after.items, i, rest[1..]);
          NothingOdd(tree.items[i], path + [Decimal(i)], rest[1..]);
        } else {
          NoIndexNoLeaf(after, rest);
        }
      }
    }
  }

  lemma FiniteAtom(tree: Tree, path: Path, rest: Path)
    requires Normalized(tree, path).Some? && tree.Atom? && path != PIPE_PATH
    ensures LeafAt(Normalized(tree, path).value, rest) != Some(ScalarLeaf(NotFinite))
    ensures LeafAt(Normalized(tree, path).value, rest) != Some(ScalarLeaf(SessionPipe))
  {
  }

  /** The keys of a row are the classified ones, its switches are flags, and its parts
      hold nothing else either. */
  predicate ClassifiedRow(root: string, config: Config) {
    && config.Keys <= (if root == "apps" then APP_KEYS else if root == "mcp_servers" then SERVER_KEYS
                       else {"enabled", "mcp_servers"})
    && (forall flag :: flag in {"enabled", "gateway_managed"} + APP_GATES && flag in config ==> Flag(config[flag]))
    && (PartsOf(root) in config ==> ClassifiedParts(root, config[PartsOf(root)]))
  }

  predicate ClassifiedParts(root: string, parts: Tree) {
    && parts.Table?
    && forall part :: part in parts.entries ==>
         && parts.entries[part].Table?
         && if root == "plugins" then parts.entries[part].entries.Keys == {"enabled"}
            else parts.entries[part].entries.Keys <= {"approval_mode", "enabled"}
  }

  /** No key is let through that is not one of the classified ones, and no two rows
      share a folded name. */
  lemma OnlyClassified(data: Config, root: string, raw: string)
    requires Controls(data).Some? && Keyed(root) && root in data
    requires data[root].Table? && raw in data[root].entries
    ensures data.Keys <= ROOTS + OTHER_ROOTS
    ensures FOLDED(raw) != "" && FOLDED(raw) != "." && FOLDED(raw) != ".."
    ensures forall other :: other in data[root].entries && FOLDED(other) == FOLDED(raw) ==> other == raw
    ensures data[root].entries[raw].Table? && ClassifiedRow(root, data[root].entries[raw].entries)
  {
    hide Controls, Section, Projected, AppRow, ServerRow, PluginRow, ClassifiedRow;
    ConfigProjection.Refused(data);
    SectionLeaf(data, root, []);
    SectionOfRows(data, root);
    RowsProjected(data[root].entries, RowOf(root), raw);
    RowsKept(data[root].entries[raw].entries);
    RowClassified(root, data[root].entries[raw].entries);
  }

  lemma SectionOfRows(data: Config, root: string)
    requires Keyed(root) && root in data && data[root].Table?
    ensures Section(data, root) == Projected(Some(Table(data[root].entries)), RowOf(root))
  {
  }

  lemma RowsProjected(rows: Config, row: Config -> Row, raw: string)
    requires Projected(Some(Table(rows)), row).Some? && raw in rows
    ensures FOLDED(raw) != "" && FOLDED(raw) != "." && FOLDED(raw) != ".."
    ensures forall other :: other in rows && FOLDED(other) == FOLDED(raw) ==> other == raw
    ensures rows[raw].Table? && row(rows[raw].entries) != Rejected
  {
  }

  lemma RowClassified(root: string, config: Config)
    requires Keyed(root) && RowOf(root)(config).Kept?
    ensures ClassifiedRow(root, config)
  {
    hide Projected;
    if PartsOf(root) in config {
      PartsClassified(config[PartsOf(root)], if root == "plugins" then NestedRow else ToolRow);
    }
    FlagsClassified(root, config);
  }

  lemma FlagsClassified(root: string, config: Config)
    requires Keyed(root) && RowOf(root)(config).Kept?
    ensures config.Keys <= if root == "apps" then APP_KEYS else if root == "mcp_servers" then SERVER_KEYS
                           else {"enabled", "mcp_servers"}
    ensures forall flag :: flag in {"enabled", "gateway_managed"} + APP_GATES && flag in config ==> Flag(config[flag])
  {
    hide Projected;
    forall flag | flag in {"enabled", "gateway_managed"} + APP_GATES && flag in config ensures Flag(config[flag]) {
      if flag == "enabled" {
        assert FlagOf(config, "enabled", true).Some?;
      } else if flag == "gateway_managed" {
        assert root == "mcp_servers" && FlagOf(config, "gateway_managed", false).Some?;
      } else {
        assert root == "apps";
      }
    }
  }

  lemma PartsClassified(parts: Tree, row: Config -> Row)
    requires row == NestedRow || row == ToolRow
    requires Projected(Some(parts), row).Some?
    ensures ClassifiedParts(if row == NestedRow then "plugins" else "tools", parts)
    ensures row == ToolRow ==> ClassifiedParts("apps", parts) && ClassifiedParts("mcp_servers", parts)
  {
  }

  // ---------------------------------------------------------------------
  // Features, hooks and the shell environment
  // ---------------------------------------------------------------------

  /** A feature is reported with the flag it is configured with, and no other one. */
  lemma FeaturesReported(data: Config, key: string)
    requires Controls(data).Some?
    ensures "features" in data ==> data["features"].Table?
    ensures LeafAt(Controls(data).value, ["features", key]) ==
              if "features" in data && key in data["features"].entries
              then LeafAt(data["features"].entries[key], []) else None
    ensures ("features" in data && key in data["features"].entries ==>
              key in FEATURES && exists flag :: data["features"].entries[key] == FlagTree(flag))
    ensures DescriptorFor(Controls(data).value, ["features", key]) == Some(
              if key == "js_repl" then RuntimeIdentity("app_runtime", "node_repl")
              else RuntimeIdentity("global_runtime", key))
  {
    hide Controls;
    NotThePipe("features", [key]);
    SectionLeaf(data, "features", [key]);
    assert ["features"] + [key] == ["features", key];
    if "features" in data && key in data["features"].entries {
      assert data["features"].entries[key] == FlagTree(data["features"].entries[key].scalar.flag);
    }
  }

  /** Hooks are reported as they are configured, without their state. */
  lemma HooksReported(data: Config, key: string, rest: Path)
    requires Controls(data).Some?
    ensures LeafAt(Controls(data).value, ["hooks", key] + rest) ==
              if "hooks" in data && key != "state" then LeafAt(data["hooks"], [key] + rest) else None
    ensures (DescriptorFor(Controls(data).value, ["hooks", key] + rest)
              == Some(RuntimeIdentity("global_runtime", "hooks")))
  {
    hide Controls, LeafAt;
    NotThePipe("hooks", [key] + rest);
    SectionLeaf(data, "hooks", [key] + rest);
    assert ["hooks"] + ([key] + rest) == ["hooks", key] + rest;
    EntryLeaf(Section(data, "hooks").value, key, rest);
    if "hooks" in data { EntryLeaf(data["hooks"].entries, key, rest); }
  }

  /** The routing variables of the shell environment are reported as configured, the
      others not at all. */
  lemma ShellReported(data: Config, key: string)
    requires Controls(data).Some?
    ensures LeafAt(Controls(data).value, ["shell_environment_policy", "set", key]) ==
              if "shell_environment_policy" in data && key in SHELL_KEYS
              then LeafAt(data["shell_environment_policy"], ["set", key]) else None
    ensures DescriptorFor(Controls(data).value, ["shell_environment_policy", "set", key])
              == Some(RuntimeIdentity("app_runtime", "node_repl"))
  {
    hide Controls, LeafAt;
    NotThePipe("shell_environment_policy", ["set", key]);
    SectionLeaf(data, "shell_environment_policy", ["set", key]);
    assert ["shell_environment_policy"] + ["set", key] == ["shell_environment_policy", "set", key];
    var section := Section(data, "shell_environment_policy").value;
    assert ["set", key] == ["set"] + [key] && [key] == [key] + [];
    EntryLeaf(section, "set", [key]);
    EntryLeaf(section["set"].entries, key, []);
    if "shell_environment_policy" in data {
      EntryLeaf(data["shell_environment_policy"].entries, "set", [key]);
      if "set" in data["shell_environment_policy"].entries {
        EntryLeaf(data["shell_environment_policy"].entries["set"].entries, key, []);
      }
    }
  }

  // ---------------------------------------------------------------------
  // Skills
  // ---------------------------------------------------------------------

  /** A row of the skills array: a path with a canonical form, a flag, and no more. */
  predicate SkillRow(item: Tree, canonical: string, flag: bool) {
    && item.Table? && item.entries.Keys == {"path", "enabled"} && item.entries["enabled"] == FlagTree(flag)
    && IsText(item.entries["path"]) && CANONICAL_SKILL(item.entries["path"].scalar.text) == Some(canonical)
  }

  predicate NamedBy(items: seq<Tree>, names: seq<string>, flags: seq<bool>) {
    && |names| == |items| == |flags|
    && (forall i :: 0 <= i < |items| ==> SkillRow(items[i], names[i], flags[i]))
    && forall i, j :: 0 <= i < j < |items| ==> names[i] != names[j]
  }

  /** The skills accepted: rows only, each with a canonical path of its own; and
      then every path is kept with the flag of its row. */
  lemma {:induction false} SkillsExactly(items: seq<Tree>)
    ensures SkillItems(items).Some? <==> exists names, flags :: NamedBy(items, names, flags)
    ensures forall names, flags :: NamedBy(items, names, flags) ==>
              && SkillItems(items).Some?
              && (forall i :: 0 <= i < |items| ==>
                    Get(SkillItems(items).value, names[i]) == Some(Table(map["enabled" := FlagTree(flags[i])])))
              && forall key :: key in SkillItems(items).value ==> key in names
  {
    forall names, flags | NamedBy(items, names, flags)
      ensures SkillItems(items).Some?
      ensures (forall i :: 0 <= i < |items| ==>
                Get(SkillItems(items).value, names[i]) == Some(Table(map["enabled" := FlagTree(flags[i])])))
      ensures forall key :: key in SkillItems(items).value ==> key in names
    {
      NamedAreKept(items, names, flags);
    }
    if SkillItems(items).Some? {
      var names, flags := SkillNames(items);
    }
  }

  lemma {:induction false} NamedAreKept(items: seq<Tree>, names: seq<string>, flags: seq<bool>)
    requires NamedBy(items, names, flags)
    ensures SkillItems(items).Some?
    ensures forall i :: 0 <= i < |items| ==>
              Get(SkillItems(items).value, names[i]) == Some(Table(map["enabled" := FlagTree(flags[i])]))
    ensures forall key :: key in SkillItems(items).value ==> key in names
  {
    hide NamedBy, SkillItems, SkillItem;
    NamedParts(items, names, flags);
    if items == [] {
      NoSkills();
    } else {
      var n := |items| - 1;
      NamedAreKept(items[..n], names[..n], flags[..n]);
      OneMoreSkill(items, names[n], Table(map["enabled" := FlagTree(flags[n])]));
      forall i | 0 <= i < |items|
        ensures Get(SkillItems(items).value, names[i]) == Some(Table(map["enabled" := FlagTree(flags[i])]))
      {
        if i < n { assert names[..n][i] == names[i] && flags[..n][i] == flags[i]; }
      }
      forall key | key in SkillItems(items).value ensures key in names {
        if key != names[n] { assert key in names[..n]; }
      }
    }
  }

  lemma NamedParts(items: seq<Tree>, names: seq<string>, flags: seq<bool>)
    requires NamedBy(items, names, flags)
    ensures |items| == |names| == |flags|
    ensures items != [] ==>
              var n := |items| - 1;
              && NamedBy(items[..n], names[..n], flags[..n]) && names[n] !in names[..n]
              && (forall i :: 0 <= i < n ==> names[i] != names[n])
              && SkillItem(items[n]) == Some((names[n], Table(map["enabled" := FlagTree(flags[n])])))
  {
    if items != [] {
      var n := |items| - 1;
      RowIsItem(items[n], names[n], flags[n]);
      forall i | 0 <= i < n
        ensures items[..n][i] == items[i] && names[..n][i] == names[i] && flags[..n][i] == flags[i]
      {}
    }
  }

  lemma OneMoreSkill(items: seq<Tree>, name: string, row: Tree)
    requires items != [] && SkillItem(items[|items| - 1]) == Some((name, row))
    requires SkillItems(items[..|items| - 1]).Some? && name !in SkillItems(items[..|items| - 1]).value
    ensures SkillItems(items) == Some(SkillItems(items[..|items| - 1]).value[name := row])
  {
  }

  lemma RowIsItem(item: Tree, name: string, flag: bool)
    requires SkillRow(item, name, flag)
    ensures SkillItem(item) == Some((name, Table(map["enabled" := FlagTree(flag)])))
  {
  }

  lemma {:induction false} SkillNames(items: seq<Tree>) returns (names: seq<string>, flags: seq<bool>)
    requires SkillItems(items).Some?
    ensures NamedBy(items, names, flags)
  {
    if items == [] {
      names, flags := [], [];
    } else {
      var n := |items| - 1;
      names, flags := SkillNames(items[..n]);
      NamedAreKept(items[..n], names, flags);
      var item := SkillItem(items[n]).value;
      forall i | 0 <= i < n ensures names[i] != item.0 && items[..n][i] == items[i] {
        assert Get(SkillItems(items[..n]).value, names[i]).Some?;
      }
      names, flags := names + [item.0], flags + [items[n].entries["enabled"].scalar.flag];
      assert items[n].entries["enabled"] == FlagTree(flags[n]);
    }
  }

  lemma NoSkills()
    ensures SkillItems([]) == Some(map[])
  {
  }

  /** The rows of the skills array of a configuration. */
  function SkillRows(data: Config): seq<Tree> {
    if "skills" in data && data["skills"].Table? && "config" in data["skills"].entries
       && data["skills"].entries["config"].Array?
    then data["skills"].entries["config"].items else []
  }

  /** Every skill row is reported under its canonical path, with its flag, and no
      other path is reported. */
  lemma SkillsReported(data: Config) returns (names: seq<string>, flags: seq<bool>)
    requires Controls(data).Some?
    ensures NamedBy(SkillRows(data), names, flags)
    ensures forall i :: 0 <= i < |names| ==>
              && LeafAt(Controls(data).value, ["skills", names[i], "enabled"]) == Some(ScalarLeaf(Boolean(flags[i])))
              && DescriptorFor(Controls(data).value, ["skills", names[i], "enabled"])
                 == Some(Toggle("skill", names[i], flags[i]))
    ensures forall name, rest :: LeafAt(Controls(data).value, ["skills", name] + rest).Some? ==> name in names
  {
    hide Controls, LeafAt, SkillItems, DescriptorFor;
    SectionLeaf(data, "skills", []);
    var section := Section(data, "skills").value;
    NoSkills();
    assert section == SkillItems(SkillRows(data)).value;
    names, flags := SkillNames(SkillRows(data));
    NamedAreKept(SkillRows(data), names, flags);
    forall i | 0 <= i < |names|
      ensures LeafAt(Controls(data).value, ["skills", names[i], "enabled"]) == Some(ScalarLeaf(Boolean(flags[i])))
      ensures DescriptorFor(Controls(data).value, ["skills", names[i], "enabled"])
                == Some(Toggle("skill", names[i], flags[i]))
    {
      assert Get(section, names[i]) == Some(Table(map["enabled" := FlagTree(flags[i])]));
      SkillReported(data, names[i], flags[i]);
    }
    forall name, rest | LeafAt(Controls(data).value, ["skills", name] + rest).Some? ensures name in names {
      NotThePipe("skills", [name] + rest);
      SectionLeaf(data, "skills", [name] + rest);
      assert ["skills"] + ([name] + rest) == ["skills", name] + rest;
      EntryLeaf(section, name, rest);
    }
  }

  lemma SkillReported(data: Config, name: string, flag: bool)
    requires Controls(data).Some? && Section(data, "skills").Some?
    requires Get(Section(data, "skills").value, name) == Some(Table(map["enabled" := FlagTree(flag)]))
    ensures LeafAt(Controls(data).value, ["skills", name, "enabled"]) == Some(ScalarLeaf(Boolean(flag)))
    ensures DescriptorFor(Controls(data).value, ["skills", name, "enabled"]) == Some(Toggle("skill", name, flag))
  {
    hide Controls, Section;
    var row := Table(map["enabled" := FlagTree(flag)]);
    NotThePipe("skills", [name, "enabled"]);
    SectionLeaf(data, "skills", [name, "enabled"]);
    assert ["skills"] + [name, "enabled"] == ["skills", name, "enabled"];
    assert [name, "enabled"] == [name] + ["enabled"] && ["enabled"] == ["enabled"] + [];
    EntryLeaf(Section(data, "skills").value, name, ["enabled"]);
    EntryLeaf(row.entries, "enabled", []);
    AcceptedIsDescribed(data);
    assert WellDescribed(Controls(data).value, ["skills", name, "enabled"]);
  }

  // ---------------------------------------------------------------------
  // Apps, servers and plugins
  // ---------------------------------------------------------------------

  function RowOf(root: string): Config -> Row {
    if root == "apps" then AppRow else if root == "mcp_servers" then ServerRow else PluginRow
  }

  predicate Keyed(root: string) {
    root == "apps" || root == "mcp_servers" || root == "plugins"
  }

  /** Under the folded name of a row the controls hold the leaves of its projection. */
  lemma RowLeaf(data: Config, root: string, raw: string, rest: Path)
    requires Controls(data).Some? && Keyed(root) && root in data && data[root].Table? && raw in data[root].entries
    ensures data[root].entries[raw].Table? && RowOf(root)(data[root].entries[raw].entries).Kept?
    ensures LeafAt(Controls(data).value, [root, FOLDED(raw)] + rest)
              == Reported(LeafAt(RowOf(root)(data[root].entries[raw].entries).tree, rest),
                          ["controls", root, FOLDED(raw)] + rest)
  {
    hide Controls, LeafAt, AppRow, ServerRow, PluginRow;
    var row, rows := RowOf(root), data[root].entries;
    SectionLeaf(data, root, [FOLDED(raw)] + rest);
    assert Section(data, root) == Projected(Some(data[root]), row);
    RowsKept(rows[raw].entries);
    assert row(rows[raw].entries).Kept?;
    assert Get(Section(data, root).value, FOLDED(raw)) == Some(row(rows[raw].entries).tree);
    EntryLeaf(Section(data, root).value, FOLDED(raw), rest);
    assert [root] + ([FOLDED(raw)] + rest) == [root, FOLDED(raw)] + rest;
    assert ["controls", root] + ([FOLDED(raw)] + rest) == ["controls", root, FOLDED(raw)] + rest;
  }

  /** The gates of an app are reported as configured, and when configured. */
  lemma GatesReported(data: Config, raw: string, gate: string)
    requires Controls(data).Some? && "apps" in data && data["apps"].Table? && raw in data["apps"].entries
    requires gate in APP_GATES
    ensures LeafAt(Controls(data).value, ["apps", FOLDED(raw), gate]) == LeafAt(data["apps"], [raw, gate])
    ensures DescriptorFor(Controls(data).value, ["apps", FOLDED(raw), gate])
              == Some(RuntimeIdentity("app", FOLDED(raw)))
  {
    hide Controls, LeafAt, Projected;
    NotThePipe("apps", [FOLDED(raw), gate]);
    RowLeaf(data, "apps", raw, [gate]);
    assert ["controls", "apps"] + [FOLDED(raw), gate] == ["controls", "apps", FOLDED(raw)] + [gate];
    assert ["apps", FOLDED(raw)] + [gate] == ["apps", FOLDED(raw), gate] && [raw, gate] == [raw] + [gate];
    var config := data["apps"].entries[raw].entries;
    assert [gate] == [gate] + [];
    EntryLeaf(data["apps"].entries, raw, [gate]);
    EntryLeaf(config, gate, []);
    EntryLeaf(AppRow(config).tree.entries, gate, []);
  }

  /** What a server runs is reported as configured; only the session pipe is reported
      as one fixed value. */
  lemma RuntimeReported(data: Config, raw: string, key: string, rest: Path)
    requires Controls(data).Some? && "mcp_servers" in data && data["mcp_servers"].Table?
    requires raw in data["mcp_servers"].entries && key in SERVER_RUNTIME
    ensures LeafAt(Controls(data).value, ["mcp_servers", FOLDED(raw), "runtime", key] + rest) ==
              Reported(LeafAt(data["mcp_servers"], [raw, key] + rest),
                       ["controls", "mcp_servers", FOLDED(raw), "runtime", key] + rest)
    ensures DescriptorFor(Controls(data).value, ["mcp_servers", FOLDED(raw), "runtime", key] + rest)
              == Some(RuntimeIdentity("mcp_runtime", FOLDED(raw)))
  {
    hide Controls, LeafAt, Projected;
    var below := ["runtime", key] + rest;
    RowLeaf(data, "mcp_servers", raw, below);
    assert ["controls", "mcp_servers", FOLDED(raw)] + below
        == ["controls", "mcp_servers", FOLDED(raw), "runtime", key] + rest;
    assert ["mcp_servers", FOLDED(raw)] + below == ["mcp_servers", FOLDED(raw), "runtime", key] + rest;
    assert below == ["runtime"] + ([key] + rest) && [raw, key] + rest == [raw] + ([key] + rest);
    var config := data["mcp_servers"].entries[raw].entries;
    var tree := ServerRow(config).tree;
    EntryLeaf(data["mcp_servers"].entries, raw, [key] + rest);
    EntryLeaf(config, key, rest);
    EntryLeaf(tree.entries, "runtime", [key] + rest);
    EntryLeaf(tree.entries["runtime"].entries, key, rest);
  }
  /** The tools of an app or of a server, and the servers of a plugin, are reported
      under their folded names with the flags they have, those without one not at
      all. */
  lemma PartsReported(data: Config, root: string, raw: string, part: string)
    requires Controls(data).Some? && Keyed(root) && root in data && data[root].Table? && raw in data[root].entries
    requires data[root].entries[raw].Table? && PartsOf(root) in data[root].entries[raw].entries
    ensures var parts := data[root].entries[raw].entries[PartsOf(root)];
            parts.Table? && (part in parts.entries ==>
              && parts.entries[part].Table?
              && LeafAt(Controls(data).value, [root, FOLDED(raw), PartsOf(root), FOLDED(part), "enabled"])
                 == LeafAt(parts, [part, "enabled"])
              && (LeafAt(parts, [part, "enabled"]).Some? ==>
                   DescriptorFor(Controls(data).value, [root, FOLDED(raw), PartsOf(root), FOLDED(part), "enabled"])
                   == Some(PartDescriptor(root, FOLDED(raw), FOLDED(part), LeafAt(parts, [part, "enabled"]).value))))
  {
    hide Controls, LeafAt, AppRow, ServerRow, PluginRow, ToolRow, NestedRow, Projected, FlagOf;
    var config, name := data[root].entries[raw].entries, PartsOf(root);
    var below := [name, FOLDED(part), "enabled"];
    RowLeaf(data, root, raw, below);
    PartRows(root, config);
    if part in config[name].entries {
      assert ["controls", root] + ([FOLDED(raw)] + below) == ["controls", root, FOLDED(raw)] + below;
      NotThePipe(root, [FOLDED(raw)] + below);
      assert [root, FOLDED(raw)] + below == [root, FOLDED(raw), name, FOLDED(part), "enabled"];
      assert below == [name] + [FOLDED(part), "enabled"];
      EntryLeaf(RowOf(root)(config).tree.entries, name, [FOLDED(part), "enabled"]);
      PartLeaf(config[name], if root == "plugins" then NestedRow else ToolRow, part);
      if LeafAt(config[name], [part, "enabled"]).Some? {
        AcceptedIsDescribed(data);
        assert WellDescribed(Controls(data).value, [root, FOLDED(raw), name, FOLDED(part), "enabled"]);
      }
    }
  }

  /** A plugin's server is a toggle, a tool belongs to what runs it. */
  function PartDescriptor(root: string, row: string, part: string, leaf: Leaf): Descriptor {
    if root == "apps" then RuntimeIdentity("app_tool", row + "/" + part)
    else if root == "mcp_servers" then RuntimeIdentity("mcp_runtime", row)
    else Toggle("plugin_mcp", row + "/" + part, leaf == ScalarLeaf(Boolean(true)))
  }

  /** The key of a row below which its parts stand. */
  function PartsOf(root: string): string {
    if root == "plugins" then "mcp_servers" else "tools"
  }

  lemma PartRows(root: string, config: Config)
    requires Keyed(root) && RowOf(root)(config).Kept? && PartsOf(root) in config
    ensures var parts := Projected(Some(config[PartsOf(root)]), if root == "plugins" then NestedRow else ToolRow);
            && parts.Some? && RowOf(root)(config).tree.Table?
            && Get(RowOf(root)(config).tree.entries, PartsOf(root)) == Some(Table(parts.value))
    ensures config[PartsOf(root)].Table?
    ensures forall part :: part in config[PartsOf(root)].entries ==> config[PartsOf(root)].entries[part].Table?
  {
  }

  lemma PartLeaf(parts: Tree, row: Config -> Row, part: string)
    requires row == NestedRow || row == ToolRow
    requires Projected(Some(parts), row).Some? && part in parts.entries && parts.entries[part].Table?
    ensures LeafAt(Table(Projected(Some(parts), row).value), [FOLDED(part), "enabled"])
              == LeafAt(parts, [part, "enabled"])
  {
    hide LeafAt;
    var config, result := parts.entries[part].entries, Projected(Some(parts), row).value;
    assert [part, "enabled"] == [part] + ["enabled"] && ["enabled"] == ["enabled"] + [];
    assert [FOLDED(part), "enabled"] == [FOLDED(part)] + ["enabled"];
    EntryLeaf(result, FOLDED(part), ["enabled"]);
    EntryLeaf(parts.entries, part, ["enabled"]);
    EntryLeaf(config, "enabled", []);
    if row(config).Kept? {
      assert result[FOLDED(part)] == Table(map["enabled" := config["enabled"]]);
      EntryLeaf(result[FOLDED(part)].entries, "enabled", []);
    } else {
      assert FOLDED(part) !in result;
    }
  }

  /** A server is reported as managed by the gateway when it says so, and then it is
      switched off. */
  lemma ManagedReported(data: Config, raw: string)
    requires Controls(data).Some? && "mcp_servers" in data && data["mcp_servers"].Table?
    requires raw in data["mcp_servers"].entries && data["mcp_servers"].entries[raw].Table?
    ensures var config := data["mcp_servers"].entries[raw].entries;
            && LeafAt(Controls(data).value, ["mcp_servers", FOLDED(raw), "gateway_managed"])
               == Some(ScalarLeaf(Boolean(Get(config, "gateway_managed") == Some(FlagTree(true)))))
            && (Get(config, "gateway_managed") == Some(FlagTree(true)) ==>
                 Get(config, "enabled") == Some(FlagTree(false)))
  {
    hide Controls, LeafAt, Projected;
    var config := data["mcp_servers"].entries[raw].entries;
    RowLeaf(data, "mcp_servers", raw, ["gateway_managed"]);
    assert ["controls", "mcp_servers", FOLDED(raw)] + ["gateway_managed"]
        == ["controls", "mcp_servers"] + [FOLDED(raw), "gateway_managed"];
    NotThePipe("mcp_servers", [FOLDED(raw), "gateway_managed"]);
    assert ["mcp_servers", FOLDED(raw)] + ["gateway_managed"] == ["mcp_servers", FOLDED(raw), "gateway_managed"];
    assert ["gateway_managed"] == ["gateway_managed"] + [];
    var managed := FlagOf(config, "gateway_managed", false).value;
    EntryLeaf(ServerRow(config).tree.entries, "gateway_managed", []);
    AtomLeaf(Boolean(managed));
    assert managed ==> FlagOf(config, "enabled", true) == Some(false);
  }

  lemma AtomLeaf(scalar: Scalar)
    ensures LeafAt(Atom(scalar), []) == Some(ScalarLeaf(scalar))
  {
  }
}
