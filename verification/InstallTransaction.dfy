/** The journaled install and uninstall transaction.  One object is one
    installation on disk together with the process currently working on it; a
    crash keeps `disk` and loses `journal`, which each run loads or creates
    before reading it. */
module InstallTransaction {
  import opened Wrappers
  import opened InstallModel

  /** What a run intends for one managed path; `None` means "remove it". */
  datatype Planned = Planned(id: string, role: Role, staged: Option<Content>)

  /** One attempt to run the program, with everything that may interrupt it.
      `idempotent` is the verdict that the requested bundle is already installed,
      `owned` that an install manifest is available. */
  datatype Command = Command(
    operation: Operation, plan: seq<Planned>, idempotent: bool, owned: bool, script: seq<Event>)

  predicate DistinctPlan(plan: seq<Planned>) {
    forall i, j :: 0 <= i < j < |plan| ==> plan[i].id != plan[j].id
  }

  /** The targets of a plan, with the content found live as the prior content. */
  function Targets(live: map<string, Content>, plan: seq<Planned>): (targets: seq<Target>)
    ensures |targets| == |plan|
  {
    seq(|plan|, i requires 0 <= i < |plan| =>
      Target(plan[i].id, plan[i].role, Get(live, plan[i].id), plan[i].staged))
  }

  function Stage(k: nat, plan: seq<Planned>): map<Slot, Content> {
    map i | 0 <= i < |plan| && plan[i].staged.Some? :: Slot(k, i) := plan[i].staged.value
  }

  function NewPointer(operation: Operation, k: nat): Pointer {
    Pointer(if operation == Installation then Installed else Uninstalled, k)
  }

  predicate SaysUninstalled(pointer: Option<Pointer>) {
    pointer.Some? && pointer.value.status == Uninstalled
  }

  /** How the journal of a command that succeeds is closed. */
  function FinalStatus(command: Command): Status {
    if command.operation == Installation && command.idempotent then Noop else Committed
  }

  /** Whether a command goes on to a transaction of its own after recovery: a removal
      does not when nothing is installed any more, or nothing installed is owned. */
  predicate HasWork(command: Command, before: State) {
    command.operation == Installation || (command.owned && !SaysUninstalled(PointerAfterRecovery(before)))
  }

  /** Recovery can finish what was interrupted, if anything was. */
  predicate Recoverable(s: State) {
    !NeedsHuman(s.journals) && (AllClosed(s.journals) || !Last(s.journals).recoveryAttempted)
  }

  /** Once a journal names a new pointer it names it for exactly this plan. */
  predicate BoundTo(j: Journal, live: map<string, Content>, plan: seq<Planned>, pointer: Pointer) {
    j.newPointer.Some? ==> j.newPointer.value == pointer && j.targets == Targets(live, plan)
  }

  ghost predicate PlanStaged(staged: map<Slot, Content>, plan: seq<Planned>, k: nat) {
    forall i :: 0 <= i < |plan| ==> Get(staged, Slot(k, i)) == plan[i].staged
  }

  /** A plan bound to what was found live is a sound journal. */
  lemma PlanIsSound(live: map<string, Content>, plan: seq<Planned>, s: State, j: Journal, k: nat)
    requires DistinctPlan(plan) && Prepared(s, k) && j.previousPointer == Base(s).current
    requires j.targets == Targets(s.live, plan) && |j.steps| == |j.targets| && j.status == InProgress
    requires j.newPointer.Some? ==> j.newPointer.value.transaction == k
    ensures JournalSound(j, k, Base(s))
    ensures PlanStaged(s.staged, plan, k) ==> StagedFrom(s, j.targets, k, 0)
  {
    forall i, m | 0 <= i < m < |j.targets| ensures j.targets[i].id != j.targets[m].id {
      assert plan[i].id != plan[m].id;
    }
  }

  /** What a committed plan means to a user: every planned path holds exactly its
      staged content or nothing, every other path is as before. */
  lemma CommittedPlan(s: State, plan: seq<Planned>, pointer: Pointer)
    requires Sound(s) && s.journals != [] && Last(s.journals).status == Committed
    requires BoundTo(Last(s.journals), Base(s).live, plan, pointer)
    ensures s.current == Some(pointer)
    ensures forall i :: 0 <= i < |plan| ==> Get(s.live, plan[i].id) == plan[i].staged
    ensures forall id :: (forall i :: 0 <= i < |plan| ==> plan[i].id != id) ==> Get(s.live, id) == Get(Base(s).live, id)
  {
    LastIsSound(s);
    ClosedTells(s);
    var targets := Last(s.journals).targets;
    ReplacedLookups(Base(s).live, targets);
    forall i | 0 <= i < |plan| ensures Get(s.live, plan[i].id) == plan[i].staged {
      assert Get(s.live, targets[i].id) == targets[i].next;
    }
    forall id | forall i :: 0 <= i < |plan| ==> plan[i].id != id ensures Get(s.live, id) == Get(Base(s).live, id) {
      assert id !in Ids(targets);
    }
  }

  class Installation {
    // Survives a crash.
    var disk: State

    // The running process's copy of the last journal.
    var journal: Journal

    // What the surroundings will do at the coming durable steps.
    var script: seq<Event>

    /** A machine no transaction has run on yet. */
    constructor ()
      ensures Sound(disk) && disk.journals == [] && disk.live == ORIGIN && disk.current == None
    {
      disk := State(ORIGIN, None, [], map[], map[], map[]);
      journal := NewJournal(Installation, None);
      script := [];
    }

    /** A process is working on the last transaction. */
    ghost predicate InProcess()
      reads this
    {
      && disk.journals != []
      && journal.SameFacts(Last(disk.journals))
      && (Last(disk.journals).recoveryAttempted ==> journal.recoveryAttempted)
      && |journal.steps| == |journal.targets|
    }

    function Index(): nat
      reads this
      requires disk.journals != []
    {
      |disk.journals| - 1
    }

    /** One durable step is about to happen; it may raise or never happen. */
    method Tick() returns (r: Outcome)
      modifies `script
      ensures old(script) == [] ==> r == Done && script == []
      ensures old(script) != [] ==> r == OutcomeOf(old(script)[0]) && script == old(script)[1..]
    {
      if script == [] { return Done; }
      var event := script[0];
      script := script[1..];
      match event
      case Proceed => return Done;
      case Raise => return Failed(StepRaised);
      case PowerCut => return Failed(Crashed);
    }

    /** Atomically replaces the journal file by the copy in memory. */
    method Save() returns (r: Outcome)
      requires disk.journals != []
      modifies `script, `disk
      ensures disk == if r == Done then old(disk).(journals := old(disk).journals[|old(disk).journals| - 1 := journal])
          else old(disk)
      ensures old(script) == [] ==> r == Done && script == []
    {
      r := Tick();
      if r == Done { disk := disk.(journals := disk.journals[|disk.journals| - 1 := journal]); }
    }

    /** Saves that target `i` has reached `step`. */
    method RecordStep(i: nat, step: Step) returns (r: Outcome)
      requires InProcess() && i < |journal.steps|
      modifies `script, `disk, `journal
      ensures InProcess() && journal == old(journal).(steps := journal.steps) && Index() == old(Index())
      ensures Working(old(disk), disk, journal.targets[i], Slot(Index(), i))
      ensures At(disk, journal.targets[i], Slot(Index(), i)) == At(old(disk), journal.targets[i], Slot(Index(), i))
      ensures journal.steps == old(journal).steps[i := step]
      ensures r == Done ==> Last(disk.journals) == journal
      ensures Last(disk.journals).status in {Last(old(disk).journals).status, journal.status}
      ensures old(script) == [] ==> r == Done && script == []
    {
      journal := journal.(steps := journal.steps[i := step]);
      r := Save();
    }

    /** Sets the prior content of one target aside: a rename, or a copy when the
        new content will be exchanged in place. */
    method SetAside(t: Target, slot: Slot, exact: bool) returns (r: Outcome)
      requires disk.journals != []
      requires At(disk, t, slot).aside == None
      requires exact ==> t.prior.Some?
      modifies `disk, `script
      ensures disk.journals == old(disk).journals
      ensures Working(old(disk), disk, t, slot)
      ensures r == Done ==> At(old(disk), t, slot).live == t.prior
      ensures At(disk, t, slot) ==
                if r == Done then At(old(disk), t, slot).(aside := t.prior, live := if exact then t.prior else None)
                                   else At(old(disk), t, slot)
      ensures old(script) == [] && At(old(disk), t, slot).live == t.prior ==> r == Done
      ensures old(script) == [] ==> script == []
    {
      if t.prior.Some? {
        if Get(disk.live, t.id) != t.prior { return Failed(Refused("live target drifted before promotion")); }
        :- Tick();
        disk := disk.(
          rollback := disk.rollback[slot := disk.live[t.id]],
          live := if exact then disk.live else disk.live - {t.id});
      } else if t.id in disk.live {
        return Failed(Refused("an unowned target appeared during promotion"));
      }
      return Done;
    }

    /** Puts the staged content of one target in place: a rename, or a
        compare-and-replace of one file followed by dropping the staged copy. */
    method BringIn(t: Target, slot: Slot, exact: bool) returns (r: Outcome)
      requires disk.journals != []
      requires t.next.Some?
      modifies `disk, `script
      ensures disk.journals == old(disk).journals
      ensures Working(old(disk), disk, t, slot)
      ensures At(disk, t, slot).aside == At(old(disk), t, slot).aside
      ensures At(disk, t, slot).live in {At(old(disk), t, slot).live, t.next}
      ensures r == Done ==> At(disk, t, slot).live == t.next
      ensures (old(script) == [] && At(old(disk), t, slot).staged == t.next
               && (exact ==> At(old(disk), t, slot).live == t.prior) ==>
                r == Done)
      ensures old(script) == [] ==> script == []
    {
      if Get(disk.staged, slot) != t.next { return Failed(Refused("staged target drifted before promotion")); }
      if exact && Get(disk.live, t.id) != t.prior { return Failed(Refused("exact-file effect did not confirm")); }
      r := Tick();
      if r == Done {
        var content := disk.staged[slot];
        disk := disk.(live := disk.live[t.id := content]);
        if exact { r := Tick(); }
        if r == Done { disk := disk.(staged := disk.staged - {slot}); }
      }
    }

    /** The exact-file path is taken for one file replaced by one file. */
    function Exact(exactFiles: bool, t: Target, slot: Slot): bool
      reads this
    {
      && exactFiles
      && t.prior.Some? && t.id in disk.live && disk.live[t.id].File?
      && t.next.Some? && slot in disk.staged && disk.staged[slot].File?
    }

    /** Brings in the new content of target `i`, saves, verifies, saves again. */
    method MoveIn(i: nat, exact: bool) returns (r: Outcome)
      requires InProcess() && i < |journal.targets|
      requires At(disk, journal.targets[i], Slot(Index(), i)).live == if exact then journal.targets[i].prior else None
      requires exact ==> journal.targets[i].next.Some?
      modifies `disk, `journal, `script
      ensures InProcess() && journal == old(journal).(steps := journal.steps) && Index() == old(Index())
      ensures Last(disk.journals).status in {Last(old(disk).journals).status, journal.status}
      ensures Working(old(disk), disk, journal.targets[i], Slot(Index(), i))
      ensures At(disk, journal.targets[i], Slot(Index(), i)).aside ==
          At(old(disk), journal.targets[i], Slot(Index(), i)).aside
      ensures At(disk, journal.targets[i], Slot(Index(), i)).live in
                {At(old(disk), journal.targets[i], Slot(Index(), i)).live, journal.targets[i].next}
      ensures r == Done ==> At(disk, journal.targets[i], Slot(Index(), i)).live == journal.targets[i].next
      ensures forall m :: 0 <= m < |journal.steps| && m != i ==> journal.steps[m] == old(journal).steps[m]
      ensures r == Done ==> journal.steps[i] == Verified && Last(disk.journals) == journal
      ensures (old(script) == []
               && At(old(disk), journal.targets[i], Slot(Index(), i)).staged == journal.targets[i].next ==>
                r == Done)
      ensures old(script) == [] ==> script == []
    {
      hide At, Working;
      var t, slot := journal.targets[i], Slot(Index(), i);
      ghost var s0 := disk;
      r := Done;
      if t.next.Some? { r := BringIn(t, slot, exact); }
      ghost var s1 := disk;
      NoWork(s0, t, slot);
      if r == Done {
        r := RecordStep(i, NewMoved);
        WorkGoesOn(s0, s1, disk, t, slot);
      }
      if r == Done && At(disk, t, slot).live != t.next {
        r := Failed(Refused("promoted target failed exact hash verification"));
      }
      ghost var s2 := disk;
      if r == Done {
        r := RecordStep(i, Verified);
        WorkGoesOn(s0, s2, disk, t, slot);
      }
    }

    /** Moves one target to its new content, saving the journal between moves. */
    method PromoteOne(i: nat, exactFiles: bool) returns (r: Outcome)
      requires InProcess() && i < |journal.targets|
      requires At(disk, journal.targets[i], Slot(Index(), i)).live == journal.targets[i].prior
      requires At(disk, journal.targets[i], Slot(Index(), i)).aside == None
      modifies `disk, `journal, `script
      ensures InProcess() && journal == old(journal).(steps := journal.steps) && Index() == old(Index())
      ensures Last(disk.journals).status in {Last(old(disk).journals).status, journal.status}
      ensures Working(old(disk), disk, journal.targets[i], Slot(Index(), i))
      ensures SlotSound(journal.targets[i], At(disk, journal.targets[i], Slot(Index(), i)).live,
          At(disk, journal.targets[i], Slot(Index(), i)).aside)
      ensures r == Done ==> At(disk, journal.targets[i], Slot(Index(), i)).live == journal.targets[i].next
      ensures r == Done ==> At(disk, journal.targets[i], Slot(Index(), i)).aside == journal.targets[i].prior
      ensures forall m :: 0 <= m < |journal.steps| && m != i ==> journal.steps[m] == old(journal).steps[m]
      ensures r == Done ==> journal.steps[i] == Verified && Last(disk.journals) == journal
      ensures (old(script) == []
               && At(old(disk), journal.targets[i], Slot(Index(), i)).staged == journal.targets[i].next ==>
                r == Done)
      ensures old(script) == [] ==> script == []
    {
      hide At, Working;
      var t, slot := journal.targets[i], Slot(Index(), i);
      var exact := Exact(exactFiles, t, slot);
      ghost var s0 := disk;
      r := SetAside(t, slot, exact);
      ghost var s1 := disk;
      if r == Done {
        r := RecordStep(i, OldMoved);
        WorkGoesOn(s0, s1, disk, t, slot);
      }
      ghost var s2 := disk;
      if r == Done {
        r := MoveIn(i, exact);
        WorkGoesOn(s0, s2, disk, t, slot);
      }
    }

    /** Promotes every target in order. */
    method PromoteTargets(exactFiles: bool, ghost base: View) returns (r: Outcome)
      requires InProcess() && DistinctIds(journal.targets)
      requires BeforeCommit(disk, journal, Index(), base) && Halfway(disk, journal.targets, Index(), 0)
      modifies `disk, `journal, `script
      ensures InProcess() && journal == old(journal).(steps := journal.steps)
      ensures SameRun(old(disk).journals, disk.journals)
      ensures Last(disk.journals).status in {Last(old(disk).journals).status, journal.status}
      ensures AsideOnlyFor(old(disk), disk, Index())
      ensures BeforeCommit(disk, journal, Index(), base)
      ensures r == Done ==> Halfway(disk, journal.targets, Index(), |journal.targets|)
      ensures r == Done ==> forall m :: 0 <= m < |journal.steps| ==> journal.steps[m] == Verified
      ensures old(script) == [] ==> script == []
      ensures old(script) == [] && StagedFrom(old(disk), journal.targets, Index(), 0) ==> r == Done
    {
      hide At, Working, BeforeCommit, Halfway, StagedFrom, AsideOnlyFor;
      ghost var first := disk;
      NothingSetAside(disk, Index());
      ghost var k := Index();
      ghost var targets := journal.targets;
      ghost var wasStaged := StagedFrom(disk, targets, k, 0);
      for i := 0 to |journal.targets|
        invariant InProcess() && journal == old(journal).(steps := journal.steps) && Index() == k
        invariant SameRun(old(disk).journals, disk.journals)
        invariant old(script) == [] ==> script == []
        invariant BeforeCommit(disk, journal, k, base)
        invariant Halfway(disk, targets, k, i)
        invariant forall m :: 0 <= m < i ==> journal.steps[m] == Verified
        invariant Last(disk.journals).status in {Last(first.journals).status, journal.status}
        invariant AsideOnlyFor(first, disk, k)
        invariant wasStaged ==> StagedFrom(disk, targets, k, i)
      {
        ghost var before, j := disk, journal;
        NextIsAsFound(disk, targets, k, i);
        r := PromoteOne(i, exactFiles);
        WorkKeepsBeforeCommit(before, disk, j, k, i, base);
        FactsDecide(disk, j, journal, k, base);
        WorkSetsAsideOnlyFor(first, before, disk, targets[i], k, i);
        if r != Done { return; }
        PromotedOneMore(before, disk, targets, k, i);
      }
      return Done;
    }

    /** Puts one target back, deciding from content alone. */
    method RestoreOne(t: Target, slot: Slot) returns (r: Outcome)
      requires disk.journals != []
      modifies `disk, `script
      ensures disk.journals == old(disk).journals
      ensures Working(old(disk), disk, t, slot)
      ensures SlotSound(t, At(old(disk), t, slot).live, At(old(disk), t, slot).aside) ==>
                SlotSound(t, At(disk, t, slot).live, At(disk, t, slot).aside)
      ensures AsideOnlyDropped(old(disk), disk)
      ensures (Foreign(t, At(old(disk), t, slot).live) ==>
                At(disk, t, slot).live == At(old(disk), t, slot).live && r != Done)
      ensures r == Done ==> At(disk, t, slot).live == t.prior && At(disk, t, slot).aside == None
      ensures old(script) == [] && SlotSound(t, At(old(disk), t, slot).live, At(old(disk), t, slot).aside) ==> r == Done
      ensures old(script) == [] ==> script == []
    {
      r := Done;
      if slot in disk.rollback {
        if t.prior.None? { return Failed(Refused("rollback slot exists for originally absent target")); }
        if Get(disk.rollback, slot) != t.prior { return Failed(Refused("rollback hash mismatch")); }
        r := PutBack(t, slot);
      } else if t.prior.Some? {
        if Get(disk.live, t.id) != t.prior { return Failed(Refused("prior target is unavailable for rollback")); }
      } else if t.id in disk.live {
        r := RemoveLive(t, slot);
      }
      if r == Done && Get(disk.live, t.id) != t.prior { r := Failed(Refused("restored target hash mismatch")); }
    }

    /** Renames what is set aside back into place, over content of its own. */
    method PutBack(t: Target, slot: Slot) returns (r: Outcome)
      requires disk.journals != [] && slot in disk.rollback && Get(disk.rollback, slot) == t.prior
      modifies `disk, `script
      ensures disk.journals == old(disk).journals
      ensures Working(old(disk), disk, t, slot) && AsideOnlyDropped(old(disk), disk)
      ensures r == Done ==> At(disk, t, slot) == At(old(disk), t, slot).(live := t.prior, aside := None)
      ensures r != Done ==> At(disk, t, slot) in {At(old(disk), t, slot), At(old(disk), t, slot).(live := None)}
      ensures Foreign(t, At(old(disk), t, slot).live) ==> At(disk, t, slot) == At(old(disk), t, slot) && r != Done
      ensures old(script) == [] && !Foreign(t, At(old(disk), t, slot).live) ==> r == Done
      ensures old(script) == [] ==> script == []
    {
      r := Done;
      if t.id in disk.live { r := RemoveLive(t, slot); }
      if r == Done { r := Tick(); }
      if r == Done {
        disk := disk.(live := disk.live[t.id := disk.rollback[slot]], rollback := disk.rollback - {slot});
      }
    }

    /** Removes live content this transaction may remove, and no other. */
    method RemoveLive(t: Target, ghost slot: Slot) returns (r: Outcome)
      requires disk.journals != [] && t.id in disk.live
      modifies `disk, `script
      ensures disk.journals == old(disk).journals
      ensures Working(old(disk), disk, t, slot)
      ensures disk.rollback == old(disk).rollback
      ensures At(disk, t, slot) == if r == Done then At(old(disk), t, slot).(live := None) else At(old(disk), t, slot)
      ensures r == Done ==> !Foreign(t, At(old(disk), t, slot).live)
      ensures old(script) == [] && !Foreign(t, At(old(disk), t, slot).live) ==> r == Done
      ensures old(script) == [] ==> script == []
    {
      if Get(disk.live, t.id) !in {t.next, t.prior} { return Failed(Refused("unexpected live bytes during rollback")); }
      :- Tick();
      disk := disk.(live := disk.live - {t.id});
      return Done;
    }

    /** Puts the previous commit pointer back. */
    method RestorePreviousPointer() returns (r: Outcome)
      modifies `disk, `script
      ensures disk == old(disk).(current := disk.current)
      ensures disk.current in {old(disk).current, journal.previousPointer}
      ensures r == Done ==> disk.current == journal.previousPointer
      ensures r == Done ==> old(disk).current in {None, journal.previousPointer, journal.newPointer}
      ensures old(script) == [] && old(disk).current == journal.previousPointer ==> r == Done
      ensures old(script) == [] ==> script == []
    {
      if disk.current.Some? && disk.current != journal.previousPointer && disk.current != journal.newPointer {
        return Failed(Refused("current pointer changed outside the transaction; refusing to overwrite it"));
      }
      r := Done;
      if disk.current.Some? || journal.previousPointer.Some? {
        r := Tick();
        if r == Done { disk := disk.(current := journal.previousPointer); }
      }
    }

    /** Puts every target back, last one first. */
    method RestoreTargets(ghost base: View) returns (r: Outcome)
      requires InProcess() && DistinctIds(journal.targets)
      modifies `disk, `script
      ensures disk.journals == old(disk).journals && disk.current == old(disk).current
      ensures disk.retained == old(disk).retained
      ensures BeforeCommit(old(disk), journal, Index(), base) ==> BeforeCommit(disk, journal, Index(), base)
      ensures ForeignKept(old(disk), disk, journal.targets) && AsideOnlyDropped(old(disk), disk)
      ensures r == Done ==> RestoredFrom(disk, journal.targets, Index(), 0)
      ensures old(script) == [] && BeforeCommit(old(disk), journal, Index(), base) ==> r == Done
      ensures old(script) == [] ==> script == []
    {
      hide At, Working, BeforeCommit, RestoredFrom, ForeignKept, SlotSound, Foreign, AsideOnlyDropped;
      ghost var k, targets, first := Index(), journal.targets, disk;
      ghost var sound := BeforeCommit(disk, journal, k, base);
      AtTheStart(disk, targets, k);
      for i := |journal.targets| downto 0
        invariant InProcess() && Index() == k && disk.journals == first.journals
        invariant disk.current == first.current && disk.retained == first.retained
        invariant old(script) == [] ==> script == []
        invariant sound ==> BeforeCommit(disk, journal, k, base)
        invariant ForeignKept(first, disk, targets) && AsideOnlyDropped(first, disk)
        invariant RestoredFrom(disk, targets, k, i)
      {
        ghost var before := disk;
        if sound { SlotIsSound(disk, journal, k, i, base); }
        r := RestoreOne(journal.targets[i], Slot(Index(), i));
        if sound { WorkKeepsBeforeCommit(before, disk, journal, k, i, base); }
        ForeignStillKept(first, before, disk, targets, k, i);
        DroppedOnAndOn(first, before, disk);
        WorkKeepsRest(before, disk, targets[i], Slot(k, i));
        if r != Done { return; }
        RestoredOneMore(before, disk, targets, k, i);
      }
      return Done;
    }

    /** Puts targets and pointer back and saves that the transaction is undone. */
    method Undo(ghost base: View) returns (r: Outcome)
      requires InProcess() && DistinctIds(journal.targets)
      requires base.current == journal.previousPointer
      modifies `disk, `journal, `script
      ensures InProcess() && journal in {old(journal), old(journal).(status := RolledBack)}
      ensures SameRun(old(disk).journals, disk.journals) && disk.retained == old(disk).retained
      ensures BeforeCommit(old(disk), old(journal), Index(), base) ==> BeforeCommit(disk, old(journal), Index(), base)
      ensures ForeignKept(old(disk), disk, old(journal).targets) && AsideOnlyDropped(old(disk), disk)
      ensures r == Done ==> RestoredFrom(disk, old(journal).targets, Index(), 0)
      ensures if r == Done then journal.status == Last(disk.journals).status == RolledBack
              else disk.journals == old(disk).journals
      ensures old(script) == [] && BeforeCommit(old(disk), old(journal), Index(), base) ==> r == Done
      ensures old(script) == [] ==> script == []
    {
      hide At, BeforeCommit, RestoredFrom, ForeignKept, SlotSound, Foreign, DistinctIds;
      ghost var k, j, targets, first := Index(), journal, journal.targets, disk;
      r := RestoreTargets(base);
      ghost var restored := disk;
      PointerUntouched(disk, journal, k, base);
      if r == Done { r := RestorePreviousPointer(); }
      PointerRestored(restored, disk, journal, k, base);
      ghost var s := disk;
      if r == Done {
        journal := journal.(status := RolledBack);
        r := Save();
      }
      RecordsDoNotMatter(s, disk, j, k, base);
    }

    /** Undoes an uncommitted transaction and closes its journal; any exception
        marks the journal as needing a human instead. */
    method RollbackTargets(ghost base: View) returns (r: Outcome)
      requires InProcess() && DistinctIds(journal.targets)
      requires base.current == journal.previousPointer
      modifies `disk, `journal, `script
      ensures InProcess() && journal.SameFacts(old(journal))
      ensures SameRun(old(disk).journals, disk.journals) && disk.retained == old(disk).retained
      ensures BeforeCommit(old(disk), old(journal), Index(), base) ==> BeforeCommit(disk, old(journal), Index(), base)
      ensures ForeignKept(old(disk), disk, old(journal).targets) && AsideOnlyDropped(old(disk), disk)
      ensures r == Done ==> RestoredFrom(disk, old(journal).targets, Index(), 0)
      ensures r == Done ==> journal.status == Last(disk.journals).status == RolledBack
      ensures r != Done ==> Last(disk.journals).status in {Last(old(disk).journals).status, RecoveryFailed}
      ensures old(script) == [] && BeforeCommit(old(disk), old(journal), Index(), base) ==> r == Done
      ensures old(script) == [] ==> script == []
    {
      hide At, BeforeCommit, RestoredFrom, ForeignKept, SlotSound, Foreign;
      ghost var k, j := Index(), journal;
      r := Undo(base);
      ghost var s := disk;
      if r.Raised() {
        journal := journal.(status := RecoveryFailed);
        r := Save();
        if r == Done { r := Failed(Refused("rollback failed")); }
      }
      RecordsDoNotMatter(s, disk, j, k, base);
    }

    /** Copies what is set aside in `slot`, or verifies the copy already there. */
    method KeepCopy(t: Target, slot: Slot) returns (r: Outcome)
      requires disk.journals != [] && slot in disk.rollback
      modifies `disk, `script
      ensures disk.journals == old(disk).journals
      ensures RetainedOneMore(old(disk), disk, slot)
      ensures r == Done ==> Get(disk.retained, slot) == t.prior
      ensures (old(script) == [] && Get(disk.rollback, slot) == t.prior
               && Get(old(disk).retained, slot) in {None, t.prior} ==>
                r == Done)
      ensures old(script) == [] ==> script == []
    {
      r := Done;
      if slot !in disk.retained {
        r := Tick();
        if r == Done { disk := disk.(retained := disk.retained[slot := disk.rollback[slot]]); }
      }
      if r == Done && Get(disk.retained, slot) != t.prior {
        r := Failed(Refused("retained backup verification failed"));
      }
    }

    /** Keeps and records a verified copy of what target `i` set aside. */
    method RetainOne(i: nat) returns (r: Outcome)
      requires InProcess() && i < |journal.targets|
      modifies `disk, `journal, `script
      ensures InProcess() && journal == old(journal).(retainedPaths := journal.retainedPaths)
      ensures RetainedOneMore(old(disk), disk, Slot(Index(), i))
      ensures Last(disk.journals).status in {Last(old(disk).journals).status, journal.status}
      ensures r == Done && Slot(Index(), i) in disk.rollback ==>
                Get(disk.retained, Slot(Index(), i)) == journal.targets[i].prior && i in journal.retainedPaths
      ensures old(journal).retainedPaths <= journal.retainedPaths <= old(journal).retainedPaths + {i}
      ensures (old(script) == [] && Get(disk.rollback, Slot(Index(), i)) in {None, journal.targets[i].prior}
               && Get(old(disk).retained, Slot(Index(), i)) in {None, journal.targets[i].prior}) ==> r == Done
      ensures old(script) == [] ==> script == []
    {
      var slot := Slot(Index(), i);
      r := Done;
      if slot in disk.rollback {
        r := KeepCopy(journal.targets[i], slot);
        if r == Done {
          journal := journal.(retainedPaths := journal.retainedPaths + {i});
          r := Save();
        }
      }
    }

    /** Keeps a verified copy of everything set aside. */
    method RetainBackups(ghost base: View) returns (r: Outcome)
      requires InProcess()
      requires AfterCommit(disk, journal, Index(), base)
      modifies `disk, `journal, `script
      ensures InProcess() && journal == old(journal).(retainedPaths := journal.retainedPaths)
      ensures SameRun(old(disk).journals, disk.journals)
      ensures Last(disk.journals).status in {Last(old(disk).journals).status, journal.status}
      ensures disk == old(disk).(journals := disk.journals, retained := disk.retained)
      ensures CopiesKept(old(disk), disk, Index())
      ensures AfterCommit(disk, journal, Index(), base)
      ensures r == Done ==> AllHeld(disk.retained, journal.targets, Index())
      ensures old(script) == [] ==> r == Done && script == []
    {
      hide AfterCommit, AllHeld, HeldUpTo, CopiesKept;
      ghost var k, targets, first := Index(), journal.targets, disk;
      NothingHeldYet(disk, targets, k);
      for i := 0 to |journal.targets|
        invariant InProcess() && journal == old(journal).(retainedPaths := journal.retainedPaths) && Index() == k
        invariant SameRun(first.journals, disk.journals)
        invariant Last(disk.journals).status in {Last(first.journals).status, journal.status}
        invariant disk == first.(journals := disk.journals, retained := disk.retained)
        invariant CopiesKept(first, disk, k)
        invariant old(script) == [] ==> script == []
        invariant AfterCommit(disk, journal, k, base)
        invariant HeldUpTo(disk, targets, k, i)
      {
        ghost var before, j := disk, journal;
        CommittedCopies(disk, journal, k, i, base);
        r := RetainOne(i);
        RetainingKeepsCommit(before, disk, j, k, i, base);
        RetainingKeepsCopies(first, before, disk, k, i);
        FactsDecide(disk, j, journal, k, base);
        if r != Done { return; }
      }
      AllRetained(disk, journal, k, base);
      return Done;
    }

    /** Removes the directory holding the staged or set-aside copies of a role. */
    method RemoveCopies(role: Role, alsoStaged: bool, alsoAside: bool) returns (r: Outcome)
      requires disk.journals != []
      modifies `disk, `script
      ensures disk.journals == old(disk).journals
      ensures OnlyCopiesDropped(old(disk), disk)
      ensures r != Done ==> disk == old(disk)
      ensures r == Done ==> disk == old(disk).(
        staged := if alsoStaged then WithoutRole(old(disk).staged, Index(), journal.targets, role)
            else old(disk).staged,
        rollback := if alsoAside then WithoutRole(old(disk).rollback, Index(), journal.targets, role)
            else old(disk).rollback)
      ensures old(script) == [] ==> r == Done && script == []
    {
      var k := Index();
      :- Tick();
      disk := disk.(
        staged := if alsoStaged then WithoutRole(disk.staged, k, journal.targets, role) else disk.staged,
        rollback := if alsoAside then WithoutRole(disk.rollback, k, journal.targets, role) else disk.rollback);
      return Done;
    }

    /** Removes stage roots, then rollback roots, then the two workspaces. */
    method RemoveWorkspaces() returns (r: Outcome)
      requires disk.journals != []
      modifies `disk, `script
      ensures disk.journals == old(disk).journals
      ensures OnlyCopiesDropped(old(disk), disk)
      ensures r == Done ==> WorkspaceGone(disk, journal.targets, Index())
      ensures old(script) == [] ==> r == Done && script == []
    {
      hide OnlyCopiesDropped, WorkspaceGone, WithoutRole;
      ghost var s0 := disk;
      NothingDropped(disk);
      r := RemoveCopies(Skills, true, false);
      ghost var s1 := disk;
      if r == Done { r := RemoveCopies(CodexHome, true, false); DroppingGoesOn(s0, s1, disk); }
      ghost var s2 := disk;
      if r == Done { r := RemoveCopies(Skills, false, true); DroppingGoesOn(s0, s2, disk); }
      ghost var s3 := disk;
      if r == Done { r := RemoveCopies(CodexHome, false, true); DroppingGoesOn(s0, s3, disk); }
      ghost var s4 := disk;
      if r == Done { r := RemoveCopies(Skills, true, true); DroppingGoesOn(s0, s4, disk); }
      ghost var s5 := disk;
      if r == Done {
        r := RemoveCopies(CodexHome, true, true);
        DroppingGoesOn(s0, s5, disk);
        if r == Done { BothRolesAreAll(s4, s5, disk, journal.targets, Index()); }
      }
    }

    /** Gives the workspaces back and closes the journal with `status`. */
    method GiveBack(status: Status) returns (r: Outcome)
      requires InProcess()
      modifies `disk, `journal, `script
      ensures InProcess() && journal in {old(journal), old(journal).(status := status, phase := CleanupComplete)}
      ensures OnlyCopiesDropped(old(disk), disk)
      ensures Last(disk.journals).status == if r == Done then status else Last(old(disk).journals).status
      ensures r == Done ==> WorkspaceGone(disk, journal.targets, Index())
      ensures old(script) == [] ==> r == Done && script == []
    {
      r := RemoveWorkspaces();
      if r == Done {
        journal := journal.(status := status, phase := CleanupComplete);
        r := Save();
      }
    }

    /** After a commit: keep every backup, then give the workspaces back.  After
        anything else: only give the workspaces back. */
    method RetainAndCleanup(committed: bool, ghost base: View) returns (r: Outcome)
      requires InProcess()
      requires committed ==> AfterCommit(disk, journal, Index(), base) && CommitRecorded(disk, journal, Index())
      modifies `disk, `journal, `script
      ensures InProcess() && journal.SameFacts(old(journal))
      ensures SameRun(old(disk).journals, disk.journals)
      ensures disk.live == old(disk).live && disk.current == old(disk).current
      ensures CopiesKept(old(disk), disk, Index()) && AsideOnlyDropped(old(disk), disk)
      ensures !committed ==> disk.retained == old(disk).retained
      ensures committed ==> AfterCommit(disk, journal, Index(), base) && CommitRecorded(disk, journal, Index())
      ensures r == Done ==> Last(disk.journals).status == if committed then Committed else old(journal).status
      ensures r == Done ==> WorkspaceGone(disk, journal.targets, Index())
      ensures r != Done ==> Last(disk.journals).status in {Last(old(disk).journals).status, old(journal).status}
      ensures journal.status in {old(journal).status, if committed then Committed else old(journal).status}
      ensures old(script) == [] ==> r == Done && script == []
    {
      hide AfterCommit, AllHeld, NoCopyLost, AsideOnlyDropped;
      ghost var k, first := Index(), disk;
      NothingHeldYet(disk, journal.targets, k);
      r := Done;
      if committed {
        r := RetainBackups(base);
        HeldStaysHeld(first, disk, journal.targets, k);
      }
      ghost var retained, j := disk, journal;
      NothingDropped(disk);
      if r == Done {
        r := GiveBack(if committed then Committed else journal.status);
        if committed { DroppingKeepsCommit(retained, disk, j, k, base); }
      }
      DroppingKeepsAll(first, retained, disk, j, k);
      FactsDecide(disk, j, journal, k, base);
    }

    /** Is the new pointer the one on disk? */
    predicate PointerMatchesNew()
      reads this
    {
      journal.newPointer.Some? && disk.current == journal.newPointer
    }

    /** Every target must hold its new content; a mismatch needs a human. */
    method ConfirmTargets() returns (r: Outcome)
      requires InProcess()
      modifies `disk, `journal, `script
      ensures AllNew(old(disk).live, old(journal).targets) ==>
                r == Done && disk == old(disk) && journal == old(journal) && script == old(script)
      ensures InProcess() && journal.SameFacts(old(journal))
      ensures disk == old(disk).(journals := disk.journals) && SameRun(old(disk).journals, disk.journals)
      ensures r == Done ==> AllNew(disk.live, journal.targets) && disk == old(disk) && journal == old(journal)
      ensures Last(disk.journals).status in {Last(old(disk).journals).status, RecoveryFailed}
    {
      for i := 0 to |journal.targets|
        invariant disk == old(disk) && journal == old(journal) && script == old(script)
        invariant forall m :: 0 <= m < i ==> Get(disk.live, journal.targets[m].id) == journal.targets[m].next
      {
        if Get(disk.live, journal.targets[i].id) != journal.targets[i].next {
          journal := journal.(status := RecoveryFailed);
          r := Save();
          return if r == Done then Failed(Refused("committed target mismatch")) else r;
        }
      }
      return Done;
    }

    /** Records the installed runtime once per installation. */
    method FinalizeRuntime() returns (r: Outcome)
      requires InProcess()
      modifies `disk, `journal, `script
      ensures InProcess() && journal == old(journal).(runtimeFinalized := journal.runtimeFinalized)
      ensures disk == old(disk).(journals := disk.journals) && SameRun(old(disk).journals, disk.journals)
      ensures Last(disk.journals).status in {Last(old(disk).journals).status, journal.status}
      ensures r == Done && journal.operation == Installation ==> journal.runtimeFinalized
      ensures old(script) == [] ==> r == Done && script == []
    {
      r := Done;
      if journal.operation == Installation && !journal.runtimeFinalized {
        r := Tick();
        if r == Done {
          journal := journal.(runtimeFinalized := true);
          r := Save();
        }
      }
    }

    /** The transaction in process is sound and not yet closed by a commit. */
    ghost predicate Resolvable()
      reads this
    {
      && InProcess()
      && Framed(disk)
      && OpenSound(disk, journal, Index(), Base(disk))
      && CommitRecorded(disk, journal, Index())
      && Last(disk.journals).status in {InProgress, Noop}
      && (journal.status in {InProgress, Committed} || (journal.status == Noop && journal.newPointer.None?))
    }

    /** Completes a committed transaction: runtime record, backups, cleanup. */
    method CompleteCommit(ghost base: View) returns (r: Outcome)
      requires Resolvable() && base == Base(disk)
      requires AfterCommit(disk, journal, Index(), base)
      requires journal.status in {InProgress, Committed} && Last(disk.journals).status == InProgress
      modifies `disk, `journal, `script
      ensures SameRun(old(disk).journals, disk.journals) && Sound(disk)
      ensures r == Done ==> Last(disk.journals).status == Committed
      ensures r != Done ==> Last(disk.journals).status in {InProgress, Committed}
      ensures r != Done && old(journal).status == InProgress ==> Resolvable()
      ensures old(script) == [] ==> r == Done && script == []
    {
      hide AfterCommit, BeforeCommit, Framed, Sound, NoCopyLost, AsideOnlyDropped, AllHeld;
      ghost var first, k, j0 := disk, Index(), journal;
      CommitMeans(disk, journal, k, base);
      r := FinalizeRuntime();
      RecordsDoNotMatter(first, disk, j0, k, base);
      FactsDecide(disk, j0, journal, k, base);
      NothingHeldYet(disk, journal.targets, k);
      ghost var s1 := disk;
      if r == Done { r := RetainAndCleanup(true, base); }
      CleanedUp(first, s1, disk, k);
      FactsDecide(disk, journal, Last(disk.journals), k, base);
      FramedStays(first, disk);
      RolledForwardIsSound(disk);
    }

    /** Rolls a committed transaction forward. */
    method RollForward(ghost base: View) returns (r: Outcome)
      requires Resolvable() && base == Base(disk)
      requires AfterCommit(disk, journal, Index(), base)
      requires journal.status in {InProgress, Committed}
      modifies `disk, `journal, `script
      ensures SameRun(old(disk).journals, disk.journals) && Sound(disk)
      ensures r == Done ==> Last(disk.journals).status == Committed
      ensures r != Done ==> Last(disk.journals).status in {InProgress, Committed}
      ensures old(script) == [] ==> r == Done && script == []
    {
      hide AfterCommit, BeforeCommit, Framed, Sound, AllHeld;
      CommitMeans(disk, journal, Index(), base);
      LastIsSound(disk);
      r := ConfirmTargets();
      r := CompleteCommit(base);
    }

    /** Rolls an uncommitted transaction back. */
    method RollBack(ghost base: View) returns (r: Outcome)
      requires Resolvable() && base == Base(disk)
      requires BeforeCommit(disk, journal, Index(), base)
      modifies `disk, `journal, `script
      ensures SameRun(old(disk).journals, disk.journals) && Sound(disk)
      ensures r == Done ==> Last(disk.journals).status == RolledBack
      ensures r != Done ==> Last(disk.journals).status in {Last(old(disk).journals).status, RecoveryFailed, RolledBack}
      ensures Last(disk.journals).status == RolledBack ==> View(disk.live, disk.current) == base
      ensures old(script) == [] ==> r == Done && script == []
    {
      hide AfterCommit, BeforeCommit, Framed, Sound, NoCopyLost, AsideOnlyDropped, AllHeld, RestoredFrom, At;
      hide AllPrior, Untouched;
      ghost var first, k, j0 := disk, Index(), journal;
      LastIsSound(disk);
      r := RollbackTargets(base);
      ghost var s1, undone := disk, r == Done;
      if r == Done {
        RestoredIsBase(disk, j0, k, base);
        r := RetainAndCleanup(false, base);
        DroppedOnAndOn(first, s1, disk);
      }
      NothingLost(first, disk, k);
      FactsDecide(disk, j0, Last(disk.journals), k, base);
      FramedStays(first, disk);
      if undone { UndoneIsSound(disk); } else { StillOpenIsSound(disk); }
    }

    /** Goes forward exactly when the new pointer is on disk, back otherwise. */
    method Resolve() returns (r: Outcome)
      requires Resolvable()
      modifies `disk, `journal, `script
      ensures SameRun(old(disk).journals, disk.journals) && Sound(disk)
      ensures r == Done ==> Last(disk.journals).status == if old(PointerMatchesNew()) then Committed else RolledBack
      ensures r != Done ==> Last(disk.journals).status in {Last(old(disk).journals).status, InProgress, RecoveryFailed,
          RolledBack, Committed}
      ensures old(script) == [] ==> r == Done && script == []
    {
      hide AfterCommit, BeforeCommit, Framed, Sound, AllHeld;
      PointerDecides(disk);
      FactsDecide(disk, journal, Last(disk.journals), Index(), Base(disk));
      if BeforeCommit(disk, journal, Index(), Base(disk)) {
        PointerUntouched(disk, journal, Index(), Base(disk));
      } else {
        CommitMeans(disk, journal, Index(), Base(disk));
      }
      if PointerMatchesNew() {
        r := RollForward(Base(disk));
      } else {
        r := RollBack(Base(disk));
      }
    }

    /** The indices of the journals still in progress and of those that failed. */
    method ScanJournals() returns (pending: seq<nat>, failed: seq<nat>)
      ensures forall m :: m in pending <==> 0 <= m < |disk.journals| && disk.journals[m].status == InProgress
      ensures forall m :: m in failed <==> 0 <= m < |disk.journals| && disk.journals[m].status == RecoveryFailed
      ensures forall a, b :: 0 <= a < b < |pending| ==> pending[a] < pending[b]
    {
      pending, failed := [], [];
      for i := 0 to |disk.journals|
        invariant forall m :: m in pending <==> 0 <= m < i && disk.journals[m].status == InProgress
        invariant forall m :: m in failed <==> 0 <= m < i && disk.journals[m].status == RecoveryFailed
        invariant forall a, b :: 0 <= a < b < |pending| ==> pending[a] < pending[b]
      {
        assert forall a :: 0 <= a < |pending| ==> pending[a] in pending;
        if disk.journals[i].status == RecoveryFailed { failed := failed + [i]; }
        if disk.journals[i].status == InProgress { pending := pending + [i]; }
      }
    }

    /** Spends the single recovery attempt of the journal just loaded. */
    method RecoverLoaded() returns (r: Outcome)
      requires Sound(disk) && disk.journals != []
      requires journal == Last(disk.journals) && journal.status == InProgress
      modifies `disk, `journal, `script
      ensures Sound(disk) && SameRun(old(disk).journals, disk.journals)
      ensures r == Done ==> Last(disk.journals).Closed()
      ensures old(journal).recoveryAttempted ==>
                r != Done && disk == old(disk).(journals := disk.journals)
                    && Last(disk.journals).status in {InProgress, RecoveryFailed}
      ensures disk == old(disk) || Last(disk.journals).recoveryAttempted
      ensures old(script) == [] ==> script == [] && (old(journal).recoveryAttempted || r == Done)
      ensures (r == Done ==>
                && Last(disk.journals).status == (if CommitIsOnDisk(old(disk)) then Committed else RolledBack)
                && disk.current == if CommitIsOnDisk(old(disk)) then old(disk).current
                    else old(journal).previousPointer)
    {
      hide Framed, OpenSound, AllHeld, Settled;
      ghost var before := disk;
      LastIsSound(disk);
      if journal.recoveryAttempted {
        journal := journal.(status := RecoveryFailed);
        r := Save();
        if disk != before { OpenRecordIsSound(before, disk); }
        if r == Done { r := Failed(Refused("one recovery attempt was already consumed")); }
      } else {
        journal := journal.(recoveryAttempted := true);
        r := Save();
        OpenRecordIsSound(before, disk);
        if r == Done { r := Resolve(); }
        if r == Done { ClosedTells(disk); }
      }
    }

    /** Looks at every journal and finishes the one that was interrupted, at most
        once; refuses to run while any journal needs a human. */
    method RecoverPending() returns (r: Outcome)
      requires Sound(disk)
      modifies `disk, `journal, `script
      ensures Sound(disk) && |disk.journals| == |old(disk).journals| && History(old(disk).journals, disk.journals)
      ensures r == Done ==> AllClosed(disk.journals)
      ensures disk == old(disk) || (disk.journals != [] && Last(disk.journals).recoveryAttempted)
      ensures AllClosed(old(disk).journals) ==> r == Done && disk == old(disk)
      ensures NeedsHuman(old(disk).journals) ==> r != Done && disk == old(disk)
      ensures !AllClosed(old(disk).journals) && Last(old(disk).journals).recoveryAttempted ==>
                r != Done && disk == old(disk).(journals := disk.journals) && !Last(disk.journals).Closed()
      ensures old(script) == [] ==> script == []
      ensures (old(script) == [] && !NeedsHuman(old(disk).journals)
               && (AllClosed(old(disk).journals) || !Last(old(disk).journals).recoveryAttempted)) ==> r == Done
      ensures r == Done ==> disk.current == PointerAfterRecovery(old(disk))
    {
      hide Framed, OpenSound, Settled, History;
      ghost var before := disk;
      HistoryStarts(disk.journals);
      var pending, failed := ScanJournals();
      assert forall i :: 0 <= i < |pending| ==> pending[i] in pending;
      AtMostOnePending(disk, pending);
      if failed != [] {
        assert failed[0] in failed;
        assert disk.journals[failed[0]].status == RecoveryFailed;
        OnlyLastIsOpen(disk, failed[0]);
        r := Failed(Refused("a prior transaction requires human inspection"));
      } else if |pending| > 1 {
        r := Failed(Refused("multiple incomplete transactions exist"));
      } else if pending == [] {
        NothingOpen(disk);
        r := Done;
      } else {
        assert pending[0] in pending;
        OnlyLastIsOpen(disk, pending[0]);
        journal := disk.journals[pending[0]];
        r := RecoverLoaded();
        SameRunIsHistory(before.journals, disk.journals);
        OnlyLastMayBeOpen(before);
        OnlyLastMayBeOpen(disk);
      }
    }

    /** A transaction that has not moved anything yet. */
    ghost predicate Preparing()
      reads this
    {
      && InProcess()
      && Framed(disk) && Prepared(disk, Index())
      && BeforeCommit(disk, journal, Index(), Base(disk))
      && journal.status == InProgress && Last(disk.journals).status == InProgress
    }

    /** Creates the journal of a new transaction. */
    method Begin(operation: Operation) returns (r: Outcome)
      requires Sound(disk) && AllClosed(disk.journals)
      modifies `disk, `journal, `script
      ensures r == Done ==> Preparing() && disk == old(disk).(journals := old(disk).journals + [journal])
      ensures r == Done ==> journal == NewJournal(operation, old(disk).current)
      ensures r != Done ==> disk == old(disk)
      ensures old(script) == [] ==> r == Done && script == []
    {
      hide Framed, BeforeCommit, Prepared, Sound, AllClosed;
      :- Tick();
      ghost var before := disk;
      journal := NewJournal(operation, disk.current);
      disk := disk.(journals := disk.journals + [journal]);
      BeginningIsSound(before, disk, operation);
      assert disk.journals == before.journals + [journal];
      return Done;
    }

    /** Saves the facts of a prepared transaction: its targets, its new pointer. */
    method Bind(j: Journal) returns (r: Outcome)
      requires Preparing()
      requires JournalSound(j, Index(), Base(disk)) && j.status == InProgress
      requires j.recoveryAttempted == journal.recoveryAttempted
      modifies `disk, `journal, `script
      ensures Preparing()
      ensures disk == old(disk).(journals := disk.journals)
      ensures Index() == old(Index()) && Earlier(disk) == old(Earlier(disk))
      ensures r == Done ==> journal == j == Last(disk.journals) && Halfway(disk, j.targets, Index(), 0)
      ensures r != Done ==> disk == old(disk) && journal == old(journal)
      ensures old(script) == [] ==> r == Done && script == []
    {
      hide Framed, BeforeCommit, Prepared, Halfway;
      :- Tick();
      ghost var before := disk;
      journal := j;
      disk := disk.(journals := disk.journals[Index() := journal]);
      BindingIsSound(before, disk, j);
      return Done;
    }

    /** Saves a phase while nothing has moved. */
    method EnterPhase(phase: Phase) returns (r: Outcome)
      requires Preparing()
      modifies `disk, `journal, `script
      ensures Preparing() && journal == old(journal).(phase := if r == Done then phase else old(journal).phase)
      ensures disk == old(disk).(journals := disk.journals)
      ensures Index() == old(Index()) && Earlier(disk) == old(Earlier(disk))
      ensures r == Done ==> Halfway(disk, journal.targets, Index(), 0) && Last(disk.journals) == journal
      ensures old(script) == [] ==> r == Done && script == []
    {
      hide BeforeCommit, Prepared, Halfway, Framed;
      LastIsSound(disk);
      r := Bind(journal.(phase := phase));
    }

    /** Saves a phase or an outcome at any later point of a running transaction. */
    method Note(phase: Phase) returns (r: Outcome)
      requires Resolvable() && journal.status == InProgress && Last(disk.journals).status == InProgress
      modifies `disk, `journal, `script
      ensures Resolvable() && journal == old(journal).(phase := phase) && Last(disk.journals).status == InProgress
      ensures r == Done ==> Last(disk.journals) == journal
      ensures disk == old(disk).(journals := disk.journals)
      ensures Index() == old(Index()) && Earlier(disk) == old(Earlier(disk))
      ensures (BeforeCommit(old(disk), old(journal), Index(), Base(disk)) ==>
                BeforeCommit(disk, journal, Index(), Base(disk)))
      ensures (AfterCommit(old(disk), old(journal), Index(), Base(disk)) ==>
                AfterCommit(disk, journal, Index(), Base(disk)))
      ensures old(script) == [] ==> r == Done && script == []
    {
      hide AfterCommit, BeforeCommit, Framed, NoCopyLost, AsideOnlyDropped, AllHeld, Settled;
      ghost var before, j0, k, base := disk, journal, Index(), Base(disk);
      journal := journal.(phase := phase);
      r := Save();
      NothingHeldYet(before, [], k);
      CopiesUnmoved(before, disk, k);
      FramedStays(before, disk);
      RecordsDoNotMatter(before, disk, j0, k, base);
      FactsDecide(disk, j0, journal, k, base);
    }

    /** Sets up fresh workspaces and stages the plan in them. */
    method StageBundle(plan: seq<Planned>) returns (r: Outcome)
      requires Preparing()
      modifies `disk, `script
      ensures Preparing() && disk == old(disk).(staged := disk.staged)
      ensures forall slot: Slot :: slot.transaction != Index() ==> Get(disk.staged, slot) == Get(old(disk).staged, slot)
      ensures r == Done ==> PlanStaged(disk.staged, plan, Index())
      ensures old(script) == [] ==> r == Done && script == []
    {
      hide BeforeCommit, Framed, Prepared, Settled;
      ghost var before := disk;
      :- Tick();
      var k := Index();
      var others := map slot | slot in disk.staged && slot.transaction != k :: disk.staged[slot];
      disk := disk.(staged := others + Stage(k, plan));
      StagingMovesNothing(before, disk, journal, k);
      return Done;
    }

    /** The single write that commits: the new pointer replaces the old one. */
    method WritePointer() returns (r: Outcome)
      requires Resolvable() && journal.status == InProgress && Last(disk.journals).status == InProgress
      requires journal.newPointer.Some? && BeforeCommit(disk, journal, Index(), Base(disk))
      requires Halfway(disk, journal.targets, Index(), |journal.targets|)
      modifies `disk, `script
      ensures Resolvable() && disk == old(disk).(current := disk.current)
      ensures if r == Done then AfterCommit(disk, journal, Index(), Base(disk)) else disk == old(disk)
      ensures old(script) == [] ==> r == Done && script == []
    {
      hide AfterCommit, BeforeCommit, Halfway, JournalsSound, AllHeld, Settled;
      r := Tick();
      if r == Done {
        ghost var before := disk;
        disk := disk.(current := journal.newPointer);
        CommitPoint(before, disk, journal, Index(), Base(disk));
      }
    }

    /** Promotes every target, verifies all of them and commits. */
    method PromoteAndCommit(exactFiles: bool) returns (r: Outcome)
      requires Preparing() && journal.newPointer.Some?
      requires Halfway(disk, journal.targets, Index(), 0)
      modifies `disk, `journal, `script
      ensures Resolvable() && journal.status == InProgress && Last(disk.journals).status == InProgress
      ensures journal.SameFacts(old(journal)) && Index() == old(Index()) && Earlier(disk) == old(Earlier(disk))
      ensures r == Done ==> AfterCommit(disk, journal, Index(), Base(disk))
      ensures old(script) == [] ==> script == []
      ensures old(script) == [] && StagedFrom(old(disk), journal.targets, Index(), 0) ==> r == Done
    {
      hide AfterCommit, BeforeCommit, Halfway, StagedFrom, Framed, Prepared, AllHeld, Settled, AsideOnlyFor;
      hide CopiesKept, AllNew;
      ghost var first := disk;
      LastIsSound(disk);
      r := PromoteTargets(exactFiles, Base(disk));
      OnlyAsideIsFramed(first, disk);
      if r == Done {
        PromotedIsNew(disk, journal.targets, Index());
        if !AllNew(disk.live, journal.targets) { r := Failed(Refused("live target verification failed")); }
      }
      if r == Done {
        ghost var s := disk;
        r := Note(LiveTargetsVerified);
        RecordsKeepHalfway(s, disk, journal.targets, Index(), |journal.targets|);
      }
      if r == Done { r := WritePointer(); }
    }

    /** The phases before anything is bound: checks, fresh workspaces, staging. */
    method Prepare(plan: seq<Planned>) returns (r: Outcome)
      requires Preparing()
      modifies `disk, `journal, `script
      ensures Preparing() && journal == old(journal).(phase := journal.phase)
      ensures disk == old(disk).(journals := disk.journals, staged := disk.staged)
      ensures Index() == old(Index()) && Earlier(disk) == old(Earlier(disk))
      ensures r == Done ==> DistinctPlan(plan) && PlanStaged(disk.staged, plan, Index())
      ensures old(script) == [] ==> script == [] && (r == Done || r.Raised()) && (DistinctPlan(plan) ==> r == Done)
    {
      hide BeforeCommit, Prepared, Halfway, Framed, DistinctPlan;
      r := EnterPhase(LockAcquired);
      if r == Done && !DistinctPlan(plan) { r := Failed(Refused("previous install duplicates managed skill name")); }
      if r == Done { r := EnterPhase(PreflightVerified); }
      if r == Done { r := EnterPhase(SourceVerified); }
      if r == Done { r := StageBundle(plan); }
    }

    /** From the bound facts to the end of a commit. */
    method Carry(exactFiles: bool) returns (r: Outcome)
      requires Preparing() && journal.newPointer.Some?
      modifies `disk, `journal, `script
      ensures disk.journals != [] && Index() == old(Index()) && Earlier(disk) == old(Earlier(disk))
      ensures Last(disk.journals).targets == old(journal).targets
      ensures Last(disk.journals).newPointer == old(journal).newPointer
      ensures if r == Done then Sound(disk) && Last(disk.journals).status == Committed else Resolvable() || Sound(disk)
      ensures r.Raised() ==> Resolvable()
      ensures old(script) == [] ==> script == []
      ensures old(script) == [] && StagedFrom(old(disk), old(journal).targets, Index(), 0) ==> r == Done
    {
      hide AfterCommit, BeforeCommit, Halfway, StagedFrom, Framed, Prepared, Sound, AllHeld, Settled;
      ghost var before := disk;
      r := EnterPhase(PromotionPrepared);
      if r == Done { r := EnterPhase(Promoting); }
      RecordsKeepHalfway(before, disk, journal.targets, Index(), 0);
      if r == Done { r := PromoteAndCommit(exactFiles); }
      if r == Done { r := Note(CurrentPointerCommitted); }
      if r == Done { r := CompleteCommit(Base(disk)); }
    }

    /** What an installation or removal plans, bound to the new pointer. */
    function Bound(plan: seq<Planned>, status: PointerStatus): Journal
      reads this
      requires disk.journals != []
    {
      journal.(
        targets := Targets(disk.live, plan),
        steps := seq(|plan|, i => NotStarted),
        newPointer := Some(Pointer(status, Index())))
    }

    /** Saves the planned targets and, for the last fact, the new pointer. */
    method BindPlan(plan: seq<Planned>, status: PointerStatus) returns (r: Outcome)
      requires Preparing() && DistinctPlan(plan)
      modifies `disk, `journal, `script
      ensures Preparing()
      ensures disk == old(disk).(journals := disk.journals)
      ensures Index() == old(Index()) && Earlier(disk) == old(Earlier(disk))
      ensures r != Done ==> journal == old(journal)
      ensures r == Done ==> journal == old(Bound(plan, status)) && Halfway(disk, journal.targets, Index(), 0)
      ensures r == Done && PlanStaged(disk.staged, plan, Index()) ==> StagedFrom(disk, journal.targets, Index(), 0)
      ensures old(script) == [] ==> r == Done && script == []
    {
      hide BeforeCommit, Halfway, StagedFrom, Framed, DistinctPlan, PlanStaged, Prepared;
      LastIsSound(disk);
      ghost var before := disk;
      PlanIsSound(disk.live, plan, disk, Bound(plan, status), Index());
      r := Bind(Bound(plan, status));
      RecordsKeepHalfway(before, disk, journal.targets, Index(), 0);
    }

    /** Saves the planned targets alone. */
    method BindTargets(plan: seq<Planned>) returns (r: Outcome)
      requires Preparing() && DistinctPlan(plan) && journal.newPointer.None?
      modifies `disk, `journal, `script
      ensures Preparing()
      ensures disk == old(disk).(journals := disk.journals)
      ensures Index() == old(Index()) && Earlier(disk) == old(Earlier(disk))
      ensures journal == if r == Done then old(Bound(plan, Uninstalled)).(newPointer := None) else old(journal)
      ensures old(script) == [] ==> r == Done && script == []
    {
      hide BeforeCommit, Halfway, StagedFrom, Framed, DistinctPlan, PlanStaged, Prepared;
      LastIsSound(disk);
      var j := Bound(plan, Uninstalled).(newPointer := None);
      PlanIsSound(disk.live, plan, disk, j, Index());
      r := Bind(j);
    }

    /** Finalizes the runtime again and records that nothing else is to be done. */
    method NoteUnchanged() returns (r: Outcome)
      requires InProcess() && journal.status == InProgress && Last(disk.journals).status == InProgress
      modifies `disk, `journal, `script
      ensures InProcess() && journal.SameFacts(old(journal))
      ensures disk == old(disk).(journals := disk.journals) && SameRun(old(disk).journals, disk.journals)
      ensures journal.status.InProgress? || journal.status.Noop?
      ensures Last(disk.journals).status.InProgress? || Last(disk.journals).status.Noop?
      ensures r == Done ==> journal.status == Last(disk.journals).status == Noop
      ensures old(script) == [] ==> r == Done && script == []
    {
      r := Tick();
      if r == Done {
        journal := journal.(status := Noop, runtimeFinalized := true);
        r := Save();
      }
    }

    /** A verified reinstallation of what is already installed. */
    method CloseUnchanged() returns (r: Outcome)
      requires Preparing() && journal.targets == [] && journal.newPointer.None?
      modifies `disk, `journal, `script
      ensures disk.journals != [] && Index() == old(Index()) && Earlier(disk) == old(Earlier(disk))
      ensures if r == Done then Sound(disk) && Last(disk.journals).status == Noop else Resolvable()
      ensures Last(disk.journals).newPointer.None?
      ensures old(script) == [] ==> r == Done && script == []
    {
      hide BeforeCommit, AfterCommit, Framed, Prepared, Sound, CopiesKept, AsideOnlyDropped, AllHeld;
      hide RestoredFrom, ForeignKept, Settled;
      ghost var first, k := disk, Index();
      AtTheStart(first, [], k);
      r := NoteUnchanged();
      ghost var s := disk;
      NothingHeldYet(s, [], k);
      if r == Done { r := RetainAndCleanup(false, Base(disk)); }
      CleanedUp(first, s, disk, k);
      FramedStays(first, disk);
      UnchangedIsOpen(first, disk, journal, k);
      if r == Done { StillOpenIsSound(disk); }
    }

    /** The body of an installation, from the fresh journal to its end. */
    method InstallBody(plan: seq<Planned>, idempotent: bool) returns (r: Outcome)
      requires Preparing() && journal.targets == [] && journal.newPointer.None?
      modifies `disk, `journal, `script
      ensures disk.journals != [] && Index() == old(Index()) && Earlier(disk) == old(Earlier(disk))
      ensures r == Done ==> Sound(disk) && Last(disk.journals).status == if idempotent then Noop else Committed
      ensures BoundTo(Last(disk.journals), old(disk).live, plan, Pointer(Installed, Index()))
      ensures r != Done ==> Resolvable() || Sound(disk)
      ensures r.Raised() ==> Resolvable()
      ensures old(script) == [] ==> script == [] && (r == Done || r.Raised()) && (DistinctPlan(plan) ==> r == Done)
      ensures idempotent ==> Last(disk.journals).newPointer.None?
    {
      hide AfterCommit, BeforeCommit, Halfway, StagedFrom, Framed, Prepared, Sound, AllHeld, Settled;
      hide DistinctPlan, PlanStaged;
      r := Prepare(plan);
      if r == Done { r := EnterPhase(StageVerified); }
      if r == Done {
        if idempotent {
          r := CloseUnchanged();
        } else {
          r := BindPlan(plan, Installed);
          if r == Done { r := Carry(true); }
        }
      }
    }

    /** The body of a removal: like an installation, but its targets are saved
        before its pointer is known. */
    method UninstallBody(plan: seq<Planned>) returns (r: Outcome)
      requires Preparing() && journal.targets == [] && journal.newPointer.None?
      modifies `disk, `journal, `script
      ensures disk.journals != [] && Index() == old(Index()) && Earlier(disk) == old(Earlier(disk))
      ensures r == Done ==> Sound(disk) && Last(disk.journals).status == Committed
      ensures BoundTo(Last(disk.journals), old(disk).live, plan, Pointer(Uninstalled, Index()))
      ensures r != Done ==> Resolvable() || Sound(disk)
      ensures r.Raised() ==> Resolvable()
      ensures old(script) == [] ==> script == [] && (r == Done || r.Raised()) && (DistinctPlan(plan) ==> r == Done)
    {
      hide AfterCommit, BeforeCommit, Halfway, StagedFrom, Framed, Prepared, Sound, AllHeld, Settled;
      hide DistinctPlan, PlanStaged;
      r := Prepare(plan);
      if r == Done { r := BindTargets(plan); }
      if r == Done { r := EnterPhase(StageVerified); }
      if r == Done { r := BindPlan(plan, Uninstalled); }
      if r == Done { r := Carry(false); }
    }

    /** What follows an exception: finish a commit that is on disk, undo anything
        else and raise again. */
    method Finish(failure: Outcome) returns (r: Outcome)
      requires Resolvable() && failure.Raised()
      modifies `disk, `journal, `script
      ensures SameRun(old(disk).journals, disk.journals) && Sound(disk)
      ensures r == Done ==> Last(disk.journals).status == Committed
      ensures old(script) == [] ==> Last(disk.journals).Closed() && script == []
      ensures old(script) == [] && old(PointerMatchesNew()) ==> r == Done
      ensures r == Done ==> old(PointerMatchesNew())
    {
      hide Framed, OpenSound, Sound, AllHeld;
      var forward := PointerMatchesNew();
      r := Resolve();
      if r == Done && !forward { r := failure; }
    }

    /** One transaction from its fresh journal to its end, whatever happens. */
    method Transact(command: Command) returns (r: Outcome)
      requires Sound(disk) && AllClosed(disk.journals)
      modifies `disk, `journal, `script
      ensures Sound(disk)
      ensures disk == old(disk) || (disk.journals != [] && Earlier(disk) == old(disk).journals)
      ensures disk == old(disk) ==> r != Done
      ensures r == Done ==> Last(disk.journals).status == FinalStatus(command)
      ensures disk != old(disk) ==> Last(disk.journals).previousPointer == old(disk).current
      ensures disk != old(disk) ==> BoundTo(Last(disk.journals), old(disk).live, command.plan,
          NewPointer(command.operation, |old(disk).journals|))
      ensures (old(script) == [] ==>
                && script == [] && disk.journals != [] && Last(disk.journals).Closed()
                && (DistinctPlan(command.plan) ==> r == Done))
    {
      hide Framed, OpenSound, AllHeld, DistinctPlan;
      ghost var before := disk;
      r := Begin(command.operation);
      if r == Done {
        if command.operation == Installation {
          r := InstallBody(command.plan, command.idempotent);
        } else {
          r := UninstallBody(command.plan);
        }
        if r.Raised() {
          r := Finish(r);
        } else if r != Done {
          if Resolvable() { RunningIsSound(disk, journal); }
        }
      }
      if disk != before { PointerIsRecorded(before, disk); }
    }

    /** One command: recover first, then transact.  It succeeds without a transaction
        of its own only as a removal of what is already removed. */
    method Execute(command: Command) returns (r: Outcome)
      requires Sound(disk)
      modifies `disk, `journal, `script
      ensures Ran(old(disk), disk)
      ensures r == Done ==> AllClosed(disk.journals)
      ensures (|disk.journals| > |old(disk).journals| ==>
                BoundTo(Last(disk.journals), Base(disk).live, command.plan,
                    NewPointer(command.operation, |old(disk).journals|)))
      ensures (r == Done ==>
                |disk.journals| == |old(disk).journals| + if HasWork(command, old(disk)) then 1 else 0)
      ensures (r == Done && HasWork(command, old(disk)) ==>
                && Last(disk.journals).status == FinalStatus(command)
                && Last(disk.journals).previousPointer == PointerAfterRecovery(old(disk)))
      ensures (r == Done && !HasWork(command, old(disk)) ==>
                SaysUninstalled(disk.current) && disk.current == PointerAfterRecovery(old(disk)))
      ensures (command.script == [] && Recoverable(old(disk)) && DistinctPlan(command.plan)
               && HasWork(command, old(disk)) ==>
                r == Done)
      ensures (command.script == [] && Recoverable(old(disk)) && command.operation == Uninstallation
               && SaysUninstalled(PointerAfterRecovery(old(disk))) ==>
                r == Done)
      ensures (AllClosed(old(disk).journals) && !HasWork(command, old(disk)) ==> disk == old(disk))
      ensures command.script == [] && Recoverable(old(disk)) ==> AllClosed(disk.journals)
    {
      hide Framed, OpenSound, Settled, History, DistinctPlan, PointerAfterRecovery;
      ghost var before := disk;
      script := command.script;
      r := RecoverPending();
      ghost var recovered := disk;
      if r == Done {
        if command.operation == Uninstallation && SaysUninstalled(disk.current) {
          r := Done;
        } else if command.operation == Uninstallation && !command.owned {
          r := Failed(Refused("no owned install manifest is available for uninstall"));
        } else {
          r := Transact(command);
          AfterRecovery(before, recovered, disk);
        }
      }
    }

    /** Any sequence of commands, each interrupted anywhere or not at all. */
    method Run(commands: seq<Command>) returns (ghost states: seq<State>)
      requires Sound(disk)
      modifies `disk, `journal, `script
      ensures Trace(states) && |states| == |commands| + 1
      ensures states[0] == old(disk) && states[|commands|] == disk
    {
      hide Ran, Sound;
      states := [disk];
      for i := 0 to |commands|
        invariant Sound(disk) && |states| == i + 1 && states[0] == old(disk) && states[i] == disk
        invariant Trace(states)
      {
        var _ := Execute(commands[i]);
        RanIsSound(states[i], disk);
        states := states + [disk];
      }
    }
  }
}
