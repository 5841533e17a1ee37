/** Merging one owned hook group into a user's hooks.json and taking it out again.
    Digests are collision-free, so a group stands for its own digest. */
module HooksConfiguration {
  import opened Wrappers

  const OWNED_EVENT := "PreToolUse"

  /** A hook command and what its text points to. */
  datatype Command = Command(text: string, campaign: bool, legacy: bool)

  /** A hook group; `rest` is everything beside its matcher and its commands. */
  datatype Group = Group(matcher: string, rest: string, commands: seq<Command>)

  /** The hooks of each event; JSON objects carry no order of their own. */
  type Hooks = map<string, seq<Group>>

  datatype Document = Document(hooks: Hooks, rest: map<string, string>)

  /** One command with the group attributes it runs under. */
  datatype Entry = Entry(matcher: string, rest: string, command: Command)

  /** What the install manifest remembers. */
  datatype Record = Record(owned: Group, preinstallAbsent: bool)

  // ---------------------------------------------------------------------
  // What a user sees: the commands of each event, in order
  // ---------------------------------------------------------------------

  function GroupEntries(group: Group): (r: seq<Entry>)
    ensures |r| == |group.commands|
  {
    seq(|group.commands|, i requires 0 <= i < |group.commands| => Entry(group.matcher, group.rest, group.commands[i]))
  }

  function Entries(groups: seq<Group>): seq<Entry> {
    if groups == [] then [] else Entries(groups[..|groups| - 1]) + GroupEntries(groups[|groups| - 1])
  }

  function EventGroups(hooks: Hooks, event: string): seq<Group> {
    if event in hooks then hooks[event] else []
  }

  function Surviving(entries: seq<Entry>): seq<Entry> {
    if entries == [] then []
    else
      var last := entries[|entries| - 1];
      Surviving(entries[..|entries| - 1]) + if last.command.legacy then [] else [last]
  }

  lemma {:induction false} EntriesAppend(a: seq<Group>, b: seq<Group>)
    ensures Entries(a + b) == Entries(a) + Entries(b)
  {
    if b == [] {
      assert a + b == a;
    } else {
      EntriesAppend(a, b[..|b| - 1]);
      assert (a + b)[..|a + b| - 1] == a + b[..|b| - 1];
    }
  }

  lemma {:induction false} SurvivingAppend(a: seq<Entry>, b: seq<Entry>)
    ensures Surviving(a + b) == Surviving(a) + Surviving(b)
  {
    if b == [] {
      assert a + b == a;
    } else {
      SurvivingAppend(a, b[..|b| - 1]);
      assert (a + b)[..|a + b| - 1] == a + b[..|b| - 1];
    }
  }

  // ---------------------------------------------------------------------
  // Stripping the retired lifecycle commands
  // ---------------------------------------------------------------------

  function KeptCommands(commands: seq<Command>): seq<Command> {
    if commands == [] then []
    else
      var last := commands[|commands| - 1];
      KeptCommands(commands[..|commands| - 1]) + if last.legacy then [] else [last]
  }

  /** A group without its legacy commands, or nothing when none is left. */
  function KeptGroup(group: Group): seq<Group> {
    if KeptCommands(group.commands) == [] then [] else [group.(commands := KeptCommands(group.commands))]
  }

  function KeptGroups(groups: seq<Group>): seq<Group> {
    if groups == [] then [] else KeptGroups(groups[..|groups| - 1]) + KeptGroup(groups[|groups| - 1])
  }

  predicate HasLegacy(groups: seq<Group>) {
    exists i, j :: 0 <= i < |groups| && 0 <= j < |groups[i].commands| && groups[i].commands[j].legacy
  }

  function Stripped(hooks: Hooks): Hooks {
    map event | event in hooks && (KeptGroups(hooks[event]) != [] || !HasLegacy(hooks[event])) ::
        KeptGroups(hooks[event])
  }

  lemma {:induction false} KeptCommandsSurvive(matcher: string, rest: string, commands: seq<Command>)
    ensures GroupEntries(Group(matcher, rest, KeptCommands(commands))) ==
        Surviving(GroupEntries(Group(matcher, rest, commands)))
  {
    if commands != [] {
      KeptCommandsSurvive(matcher, rest, commands[..|commands| - 1]);
      var entries := GroupEntries(Group(matcher, rest, commands));
      assert entries[..|entries| - 1] == GroupEntries(Group(matcher, rest, commands[..|commands| - 1]));
    }
  }

  /** Exactly the legacy commands go; all others stay, in order. */
  lemma {:induction false} StrippingKeepsOthers(groups: seq<Group>)
    ensures Entries(KeptGroups(groups)) == Surviving(Entries(groups))
  {
    if groups != [] {
      var init, last := groups[..|groups| - 1], groups[|groups| - 1];
      StrippingKeepsOthers(init);
      KeptCommandsSurvive(last.matcher, last.rest, last.commands);
      EntriesAppend(KeptGroups(init), KeptGroup(last));
      SurvivingAppend(Entries(init), GroupEntries(last));
      assert Entries([last.(commands := KeptCommands(last.commands))]) ==
          GroupEntries(last.(commands := KeptCommands(last.commands)));
    }
  }

  lemma StrippedEntries(hooks: Hooks, event: string)
    ensures Entries(EventGroups(Stripped(hooks), event)) == Surviving(Entries(EventGroups(hooks, event)))
  {
    StrippingKeepsOthers(EventGroups(hooks, event));
  }

  /** An event goes with its last retired command: it stays when any other command is
      left in it, and also when there was nothing to retire. */
  lemma {:induction false} StrippedEvents(hooks: Hooks, event: string)
    ensures (event in Stripped(hooks) <==>
              && event in hooks
              && ((exists i, j :: 0 <= i < |hooks[event]| && 0 <= j < |hooks[event][i].commands|
                                  && !hooks[event][i].commands[j].legacy)
                  || (forall i, j :: 0 <= i < |hooks[event]| && 0 <= j < |hooks[event][i].commands| ==>
                        !hooks[event][i].commands[j].legacy)))
  {
    if event in hooks { SomethingKept(hooks[event]); }
  }

  lemma {:induction false} SomethingKept(groups: seq<Group>)
    ensures KeptGroups(groups) != [] <==>
              exists i, j :: 0 <= i < |groups| && 0 <= j < |groups[i].commands| && !groups[i].commands[j].legacy
  {
    if groups != [] {
      var n := |groups| - 1;
      SomethingKept(groups[..n]);
      SomeCommandKept(groups[n].commands);
      forall i | 0 <= i < n ensures groups[..n][i] == groups[i] {}
      if j :| 0 <= j < |groups[n].commands| && !groups[n].commands[j].legacy {
        assert !groups[n].commands[j].legacy;
      }
    }
  }

  lemma {:induction false} SomeCommandKept(commands: seq<Command>)
    ensures KeptCommands(commands) != [] <==> exists j :: 0 <= j < |commands| && !commands[j].legacy
  {
    if commands != [] {
      SomeCommandKept(commands[..|commands| - 1]);
      assert commands[|commands| - 1] in commands;
    }
  }

  // ---------------------------------------------------------------------
  // The owned group
  // ---------------------------------------------------------------------

  predicate Campaign(group: Group) {
    exists i :: 0 <= i < |group.commands| && group.commands[i].campaign
  }

  /** No group of any event points to the campaign hook. */
  predicate NoCampaign(hooks: Hooks) {
    forall event, i :: event in hooks && 0 <= i < |hooks[event]| ==> !Campaign(hooks[event][i])
  }

  predicate FoundOnce(hooks: Hooks, owned: Group) {
    multiset(EventGroups(hooks, OWNED_EVENT))[owned] == 1
  }

  function Without(groups: seq<Group>, owned: Group): seq<Group> {
    if groups == [] then []
    else if groups[|groups| - 1] == owned then groups[..|groups| - 1]
    else Without(groups[..|groups| - 1], owned) + [groups[|groups| - 1]]
  }

  function WithGroups(hooks: Hooks, groups: seq<Group>): Hooks {
    if groups == [] then hooks - {OWNED_EVENT} else hooks[OWNED_EVENT := groups]
  }

  /** The hooks without the owned group, or all of them when there is none. */
  function Unowned(hooks: Hooks, owned: Option<Group>): Hooks {
    if owned.None? then hooks else WithGroups(hooks, Without(EventGroups(hooks, OWNED_EVENT), owned.value))
  }

  /** Every command of an event that is the user's own, in order. */
  function Mine(hooks: Hooks, owned: Option<Group>, event: string): seq<Entry> {
    Entries(EventGroups(Unowned(hooks, owned), event))
  }

  lemma {:induction false} WithoutAt(groups: seq<Group>, owned: Group, i: nat)
    requires i < |groups| && groups[i] == owned
    requires forall j :: 0 <= j < |groups| && groups[j] == owned ==> j == i
    ensures Without(groups, owned) == groups[..i] + groups[i + 1..]
  {
    var init := groups[..|groups| - 1];
    if i < |groups| - 1 {
      assert groups[|groups| - 1] != owned;
      WithoutAt(init, owned, i);
      assert groups[i + 1..] == init[i + 1..] + [groups[|groups| - 1]];
    } else {
      assert groups[i + 1..] == [];
    }
  }

  function Appended(hooks: Hooks, owned: Group): Hooks {
    hooks[OWNED_EVENT := EventGroups(hooks, OWNED_EVENT) + [owned]]
  }

  lemma NotAmong(hooks: Hooks, owned: Group)
    requires Campaign(owned) && NoCampaign(hooks)
    ensures owned !in EventGroups(hooks, OWNED_EVENT)
  {
    var groups := EventGroups(hooks, OWNED_EVENT);
    forall i | 0 <= i < |groups| ensures groups[i] != owned {
      assert !Campaign(groups[i]);
    }
  }

  /** Only the list of the owned event matters to what is the user's own. */
  lemma UnownedIs(hooks: Hooks, placed: Hooks, owned: Group)
    requires placed == hooks[OWNED_EVENT := EventGroups(placed, OWNED_EVENT)]
    requires Without(EventGroups(placed, OWNED_EVENT), owned) == EventGroups(hooks, OWNED_EVENT)
    ensures forall event :: EventGroups(Unowned(placed, Some(owned)), event) == EventGroups(hooks, event)
    ensures NoCampaign(hooks) ==> NoCampaign(Unowned(placed, Some(owned)))
  {
    hide Campaign;
    forall event ensures EventGroups(Unowned(placed, Some(owned)), event) == EventGroups(hooks, event) {
    }
  }

  lemma AppendedThenRemoved(hooks: Hooks, owned: Group)
    requires Campaign(owned) && NoCampaign(hooks)
    ensures FoundOnce(Appended(hooks, owned), owned)
    ensures Without(EventGroups(Appended(hooks, owned), OWNED_EVENT), owned) == EventGroups(hooks, OWNED_EVENT)
    ensures forall event :: Mine(Appended(hooks, owned), Some(owned), event) == Entries(EventGroups(hooks, event))
  {
    hide Campaign, NoCampaign, Entries;
    var groups := EventGroups(hooks, OWNED_EVENT);
    NotAmong(hooks, owned);
    assert (groups + [owned])[..|groups|] == groups;
    UnownedIs(hooks, Appended(hooks, owned), owned);
  }

  // ---------------------------------------------------------------------
  // What installation and removal make of a document
  // ---------------------------------------------------------------------

  predicate InstallAccepts(document: Option<Document>, owned: Option<Group>) {
    var hooks := if document.Some? then document.value.hooks else map[];
    && (owned.Some? ==> document.Some? && FoundOnce(hooks, owned.value))
    && (owned.None? ==> NoCampaign(hooks))
    && NoCampaign(Stripped(Unowned(hooks, owned)))
  }

  predicate UninstallAccepts(document: Option<Document>, owned: Group) {
    && document.Some? && FoundOnce(document.value.hooks, owned)
    && NoCampaign(Stripped(Unowned(document.value.hooks, Some(owned))))
  }

  function HooksOf(document: Option<Document>): Hooks {
    if document.Some? then document.value.hooks else map[]
  }

  function RestOf(document: Option<Document>): map<string, string> {
    if document.Some? then document.value.rest else map[]
  }

  function OwnedBy(record: Option<Record>): Option<Group> {
    if record.Some? then Some(record.value.owned) else None
  }

  /** The groups of one event while they are edited. */
  class Editor {
    var hooks: Hooks

    constructor (given: Hooks)
      ensures hooks == given
    {
      hooks := given;
    }

    /** Deletes the one group that is exactly `owned`; refuses any other count. */
    method RemoveOwned(owned: Group) returns (ok: bool)
      modifies this
      ensures ok <==> FoundOnce(old(hooks), owned)
      ensures hooks == if ok then Unowned(old(hooks), Some(owned)) else old(hooks)
    {
      var groups := EventGroups(hooks, OWNED_EVENT);
      var matching: seq<nat> := [];
      for i := 0 to |groups|
        invariant |matching| == multiset(groups[..i])[owned]
        invariant forall m :: m in matching <==> 0 <= m < i && groups[m] == owned
      {
        assert groups[..i + 1] == groups[..i] + [groups[i]];
        if groups[i] == owned { matching := matching + [i]; }
      }
      assert groups[..|groups|] == groups;
      if |matching| != 1 { return false; }
      var at := matching[0];
      assert at in matching && matching == [at];
      assert forall m :: m in matching ==> m == at;
      WithoutAt(groups, owned, at);
      groups := groups[..at] + groups[at + 1..];
      hooks := if groups == [] then hooks - {OWNED_EVENT} else hooks[OWNED_EVENT := groups];
      return true;
    }

    /** Strips the legacy commands of every event. */
    method StripLegacy()
      modifies this
      ensures hooks == Stripped(old(hooks))
    {
      var todo := hooks.Keys;
      ghost var done: set<string> := {};
      while todo != {}
        invariant todo !! done && todo + done == old(hooks).Keys
        invariant forall event :: Get(hooks, event) == if event in done then Get(Stripped(old(hooks)), event)
            else Get(old(hooks), event)
        decreases todo
      {
        var event :| event in todo;
        assert Get(hooks, event) == Get(old(hooks), event);
        var kept, removed := StripGroups(hooks[event]);
        hooks := if kept != [] || !removed then hooks[event := kept] else hooks - {event};
        todo, done := todo - {event}, done + {event};
      }
      SameLookups(hooks, Stripped(old(hooks)));
    }

    /** The groups that keep a command, and whether any command was removed. */
    method StripGroups(groups: seq<Group>) returns (kept: seq<Group>, removed: bool)
      ensures kept == KeptGroups(groups) && removed == HasLegacy(groups)
    {
      kept, removed := [], false;
      for i := 0 to |groups|
        invariant kept == KeptGroups(groups[..i]) && removed == HasLegacy(groups[..i])
      {
        var commands: seq<Command> := [];
        ghost var before := removed;
        for j := 0 to |groups[i].commands|
          invariant commands == KeptCommands(groups[i].commands[..j])
          invariant removed <==> before || exists m :: 0 <= m < j && groups[i].commands[m].legacy
        {
          assert groups[i].commands[..j + 1][..j] == groups[i].commands[..j];
          if groups[i].commands[j].legacy { removed := true; } else { commands := commands + [groups[i].commands[j]]; }
        }
        assert groups[i].commands[..|groups[i].commands|] == groups[i].commands;
        assert groups[..i + 1][..i] == groups[..i];
        LegacyOneMore(groups, i);
        if commands != [] { kept := kept + [groups[i].(commands := commands)]; }
      }
      assert groups[..|groups|] == groups;
    }

    /** Does any group point to the campaign hook? */
    predicate Located()
      reads this
    {
      !NoCampaign(hooks)
    }
  }

  lemma LegacyOneMore(groups: seq<Group>, i: nat)
    requires i < |groups|
    ensures HasLegacy(groups[..i + 1]) <==>
              HasLegacy(groups[..i]) || exists m :: 0 <= m < |groups[i].commands| && groups[i].commands[m].legacy
  {
    if HasLegacy(groups[..i]) {
      var a, b :| 0 <= a < i && 0 <= b < |groups[..i][a].commands| && groups[..i][a].commands[b].legacy;
      assert groups[..i + 1][a].commands[b].legacy;
    }
    if m :| 0 <= m < |groups[i].commands| && groups[i].commands[m].legacy {
      assert groups[..i + 1][i].commands[m].legacy;
    }
  }

  /** The live hooks.json together with the ownership record of the install
      manifest. */
  class HooksFile {
    var document: Option<Document>
    var record: Option<Record>

    constructor (given: Option<Document>)
      ensures document == given && record == None
    {
      document, record := given, None;
    }

    /** The user's own commands of one event. */
    ghost function Own(event: string): seq<Entry>
      reads this
    {
      Mine(HooksOf(document), OwnedBy(record), event)
    }

    /** Installs or reinstalls: out with the group of last time and the retired
        commands, in with the group of this time. */
    method Install(owned: Group) returns (ok: bool)
      requires Campaign(owned)
      modifies this
      ensures ok <==> InstallAccepts(old(document), OwnedBy(old(record)))
      ensures !ok ==> document == old(document) && record == old(record)
      ensures ok ==> OwnedBy(record) == Some(owned) && document.Some? && RestOf(document) == RestOf(old(document))
      ensures ok ==> record.value.preinstallAbsent == if old(record).Some? then old(record).value.preinstallAbsent
          else old(document).None?
      ensures ok ==> FoundOnce(document.value.hooks, owned)
      ensures (ok ==>
                HooksOf(document) == Appended(Stripped(Unowned(HooksOf(old(document)), OwnedBy(old(record)))), owned))
      ensures ok ==> forall event :: Own(event) == Surviving(old(Own(event)))
    {
      hide HasLegacy, Campaign, NoCampaign;
      var editor := new Editor(HooksOf(document));
      if record.Some? {
        if document.None? { return false; }
        var removed := editor.RemoveOwned(record.value.owned);
        if !removed { return false; }
      } else if editor.Located() {
        return false;
      }
      ghost var unowned := editor.hooks;
      editor.StripLegacy();
      if editor.Located() { return false; }
      AppendedThenRemoved(editor.hooks, owned);
      forall event
        ensures Entries(EventGroups(editor.hooks, event)) == Surviving(Entries(EventGroups(unowned, event)))
      {
        StrippedEntries(unowned, event);
      }
      record := Some(Record(owned, if record.Some? then record.value.preinstallAbsent else document.None?));
      document := Some(Document(Appended(editor.hooks, owned), RestOf(document)));
      return true;
    }

    /** Takes the owned group and the retired commands out, and deletes the file
        when it holds nothing and did not exist before. */
    method Uninstall() returns (ok: bool)
      modifies this
      ensures ok <==> old(record).None? || UninstallAccepts(old(document), old(record).value.owned)
      ensures !ok || old(record).None? ==> document == old(document) && record == old(record)
      ensures ok && old(record).Some? ==> record.None? && RestOf(document) == RestOf(old(document))
      ensures (ok && old(record).Some? ==>
                HooksOf(document) == Stripped(Unowned(HooksOf(old(document)), OwnedBy(old(record)))))
      ensures ok && old(record).Some? ==> forall event :: Own(event) == Surviving(old(Own(event)))
      ensures (ok && old(record).Some? ==>
                (document.None? <==>
                    old(record).value.preinstallAbsent && HooksOf(document) == map[] && RestOf(old(document)) == map[]))
    {
      if record.None? { return true; }
      if document.None? { return false; }
      var editor := new Editor(document.value.hooks);
      var removed := editor.RemoveOwned(record.value.owned);
      if !removed { return false; }
      ghost var unowned := editor.hooks;
      editor.StripLegacy();
      if editor.Located() { return false; }
      forall event
        ensures Entries(EventGroups(editor.hooks, event)) == Surviving(Entries(EventGroups(unowned, event)))
      {
        StrippedEntries(unowned, event);
      }
      var left := Document(editor.hooks, document.value.rest);
      document := if record.value.preinstallAbsent && left == Document(map[], map[]) then None else Some(left);
      record := None;
      return true;
    }

    /** The owned group is in place and nothing else points to the campaign hook. */
    ghost predicate Installed()
      reads this
    {
      && record.Some? && document.Some? && Campaign(record.value.owned)
      && FoundOnce(document.value.hooks, record.value.owned)
      && NoCampaign(Unowned(document.value.hooks, Some(record.value.owned)))
    }

    /** The user rewrites everything around the owned group. */
    method Edit(user: Document, position: nat)
      requires Installed() && NoCampaign(user.hooks)
      modifies this
      ensures Installed() && record == old(record)
      ensures forall event :: Own(event) == Entries(EventGroups(user.hooks, event))
    {
      var groups, owned := EventGroups(user.hooks, OWNED_EVENT), record.value.owned;
      var at := if position <= |groups| then position else |groups|;
      var edited := groups[..at] + [owned] + groups[at..];
      PlacedThenRemoved(user.hooks, owned, at);
      document := Some(Document(user.hooks[OWNED_EVENT := edited], user.rest));
    }

    /** Any interleaving of reinstallations and edits of unrelated groups. */
    method Live(given: Hooks, actions: seq<Action>)
      requires Installed() && forall i :: 0 <= i < |actions| ==> Unrelated(actions[i])
      requires forall event :: Surviving(Own(event)) == Surviving(Entries(EventGroups(given, event)))
      modifies this
      ensures Installed()
      ensures forall event ::
                Surviving(Own(event)) == Surviving(Entries(EventGroups(LastVersion(given, actions), event)))
    {
      hide Surviving, NoCampaign, FoundOnce, Unowned, Stripped, Entries, Campaign;
      assert actions[..0] == [];
      for i := 0 to |actions|
        invariant Installed()
        invariant forall event ::
                  Surviving(Own(event)) == Surviving(Entries(EventGroups(LastVersion(given, actions[..i]), event)))
      {
        assert actions[..i + 1][..i] == actions[..i];
        assert Unrelated(actions[i]);
        match actions[i]
        case Reinstall(owned) => ReinstallOver(owned);
        case Edit(user, position) => Edit(user, position);
      }
      assert actions[..|actions|] == actions;
    }

    method ReinstallOver(owned: Group)
      requires Installed() && Campaign(owned)
      modifies this
      ensures Installed()
      ensures forall event :: Surviving(Own(event)) == Surviving(old(Own(event)))
    {
      var unowned := Unowned(document.value.hooks, Some(record.value.owned));
      StrippedNoCampaign(unowned);
      var ok := Install(owned);
      AppendedNoCampaign(Stripped(unowned), owned);
      forall event ensures Surviving(Own(event)) == Surviving(old(Own(event))) {
        SurvivingTwice(old(Own(event)));
      }
    }
  }

  /** What may happen between the first installation and the removal. */
  datatype Action = Reinstall(owned: Group) | Edit(user: Document, position: nat)

  predicate Unrelated(action: Action) {
    match action
    case Reinstall(owned) => Campaign(owned)
    case Edit(user, _) => NoCampaign(user.hooks)
  }

  /** The hooks as the user last wrote them. */
  function LastVersion(given: Hooks, actions: seq<Action>): Hooks {
    if actions == [] then given
    else
      match actions[|actions| - 1]
      case Edit(user, _) => user.hooks
      case Reinstall(_) => LastVersion(given, actions[..|actions| - 1])
  }

  lemma {:induction false} SurvivingTwice(entries: seq<Entry>)
    ensures Surviving(Surviving(entries)) == Surviving(entries)
  {
    if entries != [] {
      var init, last := entries[..|entries| - 1], entries[|entries| - 1];
      SurvivingTwice(init);
      if !last.command.legacy {
        SurvivingAppend(Surviving(init), [last]);
        assert Surviving(entries) == Surviving(init) + [last];
        assert Surviving([last]) == Surviving([]) + [last] by { assert [last][..0] == []; }
      } else {
        assert Surviving(entries) == Surviving(init);
      }
    }
  }

  lemma PlacedOnce(groups: seq<Group>, owned: Group, at: nat)
    requires owned !in groups && at <= |groups|
    ensures multiset(groups[..at] + [owned] + groups[at..])[owned] == 1
    ensures Without(groups[..at] + [owned] + groups[at..], owned) == groups
  {
    var before, after := groups[..at], groups[at..];
    var placed := before + [owned] + after;
    assert owned !in before && owned !in after && groups == before + after;
    assert multiset(placed) == multiset(before) + multiset{owned} + multiset(after);
    forall j | 0 <= j < |placed| && j != at ensures placed[j] != owned {
      if j < at { assert placed[j] == before[j]; } else { assert placed[j] == after[j - at - 1]; }
    }
    WithoutAt(placed, owned, at);
    assert placed[..at] == before && placed[at + 1..] == after;
  }

  lemma PlacedThenRemoved(hooks: Hooks, owned: Group, at: nat)
    requires Campaign(owned) && NoCampaign(hooks) && at <= |EventGroups(hooks, OWNED_EVENT)|
    ensures var groups := EventGroups(hooks, OWNED_EVENT);
            var placed := hooks[OWNED_EVENT := groups[..at] + [owned] + groups[at..]];
            && FoundOnce(placed, owned)
            && NoCampaign(Unowned(placed, Some(owned)))
            && forall event :: Mine(placed, Some(owned), event) == Entries(EventGroups(hooks, event))
  {
    hide Campaign, NoCampaign, Entries, Unowned;
    var groups := EventGroups(hooks, OWNED_EVENT);
    NotAmong(hooks, owned);
    var placed := groups[..at] + [owned] + groups[at..];
    PlacedOnce(groups, owned, at);
    UnownedIs(hooks, hooks[OWNED_EVENT := placed], owned);
  }

  lemma AppendedNoCampaign(hooks: Hooks, owned: Group)
    requires Campaign(owned) && NoCampaign(hooks)
    ensures NoCampaign(Unowned(Appended(hooks, owned), Some(owned)))
  {
    AppendedThenRemoved(hooks, owned);
  }

  lemma {:induction false} KeptIsPart(commands: seq<Command>)
    ensures forall i :: 0 <= i < |KeptCommands(commands)| ==> KeptCommands(commands)[i] in commands
  {
    if commands != [] { KeptIsPart(commands[..|commands| - 1]); }
  }

  lemma {:induction false} KeptNoCampaign(groups: seq<Group>)
    requires forall i :: 0 <= i < |groups| ==> !Campaign(groups[i])
    ensures forall i :: 0 <= i < |KeptGroups(groups)| ==> !Campaign(KeptGroups(groups)[i])
  {
    if groups != [] {
      var last := groups[|groups| - 1];
      KeptNoCampaign(groups[..|groups| - 1]);
      KeptIsPart(last.commands);
      assert !Campaign(last);
      assert !Campaign(last.(commands := KeptCommands(last.commands)));
    }
  }

  lemma StrippedNoCampaign(hooks: Hooks)
    requires NoCampaign(hooks)
    ensures NoCampaign(Stripped(hooks))
  {
    forall event | event in hooks
      ensures forall i :: 0 <= i < |KeptGroups(hooks[event])| ==> !Campaign(KeptGroups(hooks[event])[i])
    {
      KeptNoCampaign(hooks[event]);
    }
  }

  /** From a user's file to installation, through any reinstallations and edits
      of unrelated groups, to removal: what is left is what the user last wrote,
      command by command and in order, minus the retired lifecycle commands. */
  method Lifecycle(given: Option<Document>, owned: Group, actions: seq<Action>) returns (left: Option<Document>)
    requires Campaign(owned) && NoCampaign(HooksOf(given))
    requires forall i :: 0 <= i < |actions| ==> Unrelated(actions[i])
    ensures forall event :: Entries(EventGroups(HooksOf(left), event))
                == Surviving(Entries(EventGroups(LastVersion(HooksOf(given), actions), event)))
  {
    hide Surviving, Entries, NoCampaign, FoundOnce, Stripped, Campaign, LastVersion;
    var file := new HooksFile(given);
    StrippedNoCampaign(HooksOf(given));
    var installed := file.Install(owned);
    AppendedNoCampaign(Stripped(HooksOf(given)), owned);
    forall event ensures Surviving(file.Own(event)) == Surviving(Entries(EventGroups(HooksOf(given), event))) {
      SurvivingTwice(Entries(EventGroups(HooksOf(given), event)));
    }
    file.Live(HooksOf(given), actions);
    StrippedNoCampaign(Unowned(HooksOf(file.document), OwnedBy(file.record)));
    var removed := file.Uninstall();
    left := file.document;
  }

  // ---------------------------------------------------------------------
  // When removal gives back the very same document
  // ---------------------------------------------------------------------

  /** What installing and removing leaves of a document nobody else touches. */
  function RoundTrip(hooks: Hooks, owned: Group): Hooks {
    Stripped(Unowned(Appended(Stripped(hooks), owned), Some(owned)))
  }

  /** Nothing to strip, no empty group, and no empty list under the owned event. */
  predicate Plain(hooks: Hooks) {
    && (forall event, i :: event in hooks && 0 <= i < |hooks[event]| ==> hooks[event][i].commands != [])
    && (forall event :: event in hooks ==> !HasLegacy(hooks[event]))
    && (OWNED_EVENT in hooks ==> hooks[OWNED_EVENT] != [])
  }

  lemma {:induction false} KeptAllCommands(commands: seq<Command>)
    ensures |KeptCommands(commands)| <= |commands|
    ensures KeptCommands(commands) == commands <==> forall i :: 0 <= i < |commands| ==> !commands[i].legacy
  {
    if commands != [] {
      var init, last := commands[..|commands| - 1], commands[|commands| - 1];
      KeptAllCommands(init);
      if last.legacy {
        assert commands[|commands| - 1].legacy && |KeptCommands(commands)| < |commands|;
      } else {
        assert KeptCommands(commands) == KeptCommands(init) + [last] && commands == init + [last];
        assert KeptCommands(commands) == commands ==> KeptCommands(init) == init;
        assert KeptCommands(init) == init ==> forall i :: 0 <= i < |init| ==> !init[i].legacy && commands[i] == init[i];
      }
    }
  }

  lemma {:induction false} KeptIsPlain(groups: seq<Group>)
    ensures PlainGroups(KeptGroups(groups))
  {
    if groups != [] {
      var last := groups[|groups| - 1];
      KeptIsPlain(groups[..|groups| - 1]);
      NoLegacyKept(last.commands);
    }
  }

  lemma {:induction false} NoLegacyKept(commands: seq<Command>)
    ensures forall i :: 0 <= i < |KeptCommands(commands)| ==> !KeptCommands(commands)[i].legacy
  {
    if commands != [] { NoLegacyKept(commands[..|commands| - 1]); }
  }

  predicate PlainGroups(groups: seq<Group>) {
    && !HasLegacy(groups)
    && forall i :: 0 <= i < |groups| ==> groups[i].commands != []
  }

  lemma PlainOneMore(init: seq<Group>, last: Group)
    ensures PlainGroups(init + [last]) <==>
              PlainGroups(init) && last.commands != [] && forall m :: 0 <= m < |last.commands| ==>
                  !last.commands[m].legacy
  {
    hide HasLegacy;
    var groups := init + [last];
    LegacyOneMore(groups, |init|);
    assert groups[..|init|] == init && groups[..|init| + 1] == groups && groups[|init|] == last;
    assert forall i :: 0 <= i < |init| ==> groups[i] == init[i];
  }

  lemma {:induction false} KeptAllGroups(groups: seq<Group>)
    ensures |KeptGroups(groups)| <= |groups|
    ensures KeptGroups(groups) == groups <==> PlainGroups(groups)
  {
    if groups != [] {
      hide HasLegacy, KeptCommands, PlainGroups;
      var init, last := groups[..|groups| - 1], groups[|groups| - 1];
      KeptAllGroups(init);
      KeptAllCommands(last.commands);
      PlainOneMore(init, last);
      assert groups == init + [last];
    }
  }

  /** The hooks without an empty list under the owned event. */
  function Bare(hooks: Hooks): Hooks {
    if EventGroups(hooks, OWNED_EVENT) == [] then hooks - {OWNED_EVENT} else hooks
  }

  lemma RoundTripIsStripped(hooks: Hooks, owned: Group)
    requires Campaign(owned) && NoCampaign(hooks)
    ensures RoundTrip(hooks, owned) == Stripped(Bare(Stripped(hooks)))
  {
    hide Campaign, NoCampaign, Stripped;
    StrippedNoCampaign(hooks);
    AppendedThenRemoved(Stripped(hooks), owned);
    assert Unowned(Appended(Stripped(hooks), owned), Some(owned)) == Bare(Stripped(hooks));
  }

  lemma PlainIsKept(hooks: Hooks)
    requires Plain(hooks)
    ensures Stripped(hooks) == hooks == Bare(hooks)
  {
    hide KeptGroups, HasLegacy;
    forall event | event in hooks ensures KeptGroups(hooks[event]) == hooks[event] {
      assert PlainGroups(hooks[event]);
      KeptAllGroups(hooks[event]);
    }
  }

  lemma KeptTwiceIsPlain(hooks: Hooks)
    requires Stripped(Bare(Stripped(hooks))) == hooks
    ensures Plain(hooks)
  {
    hide KeptGroups, HasLegacy, PlainGroups;
    var once := Stripped(hooks);
    forall event | event in hooks
      ensures PlainGroups(hooks[event]) && once[event] == hooks[event]
    {
      assert event in Bare(once) && Bare(once)[event] == KeptGroups(hooks[event]);
      KeptShrinks(hooks[event]);
      KeptAllGroups(hooks[event]);
    }
    PlainByEvent(hooks);
  }

  lemma PlainByEvent(hooks: Hooks)
    requires forall event :: event in hooks ==> PlainGroups(hooks[event])
    requires OWNED_EVENT in hooks ==> hooks[OWNED_EVENT] != []
    ensures Plain(hooks)
  {
    hide HasLegacy;
    forall event, i | event in hooks && 0 <= i < |hooks[event]| ensures hooks[event][i].commands != [] {
      assert PlainGroups(hooks[event]);
    }
  }

  /** The round trip restores the document exactly when it is plain. */
  lemma RoundTripIsExact(hooks: Hooks, owned: Group)
    requires Campaign(owned) && NoCampaign(hooks)
    ensures RoundTrip(hooks, owned) == hooks <==> Plain(hooks)
  {
    hide Campaign, NoCampaign, RoundTrip, Stripped, Plain, Bare;
    RoundTripIsStripped(hooks, owned);
    if Plain(hooks) { PlainIsKept(hooks); }
    if Stripped(Bare(Stripped(hooks))) == hooks { KeptTwiceIsPlain(hooks); }
  }

  /** Hooks with an empty group, and with an empty list under the owned event, do not
      survive the round trip. */
  lemma EmptyGroupsAreLost(owned: Group)
    requires Campaign(owned)
    ensures var empty := Group("*", "", []); RoundTrip(map["Stop" := [empty]], owned) != map["Stop" := [empty]]
    ensures RoundTrip(map[OWNED_EVENT := []], owned) != map[OWNED_EVENT := []]
  {
    var empty := Group("*", "", []);
    var hooks: Hooks := map["Stop" := [empty]];
    assert hooks["Stop"][0].commands == [];
    RoundTripIsExact(hooks, owned);
    RoundTripIsExact(map[OWNED_EVENT := []], owned);
  }

  lemma KeptShrinks(groups: seq<Group>)
    requires KeptGroups(KeptGroups(groups)) == groups
    ensures KeptGroups(groups) == groups
  {
    KeptIsPlain(groups);
    KeptAllGroups(KeptGroups(groups));
  }
}
