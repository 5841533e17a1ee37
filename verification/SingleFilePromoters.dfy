/** Two transactions that replace one live file: the routing-policy materializer
    and the worker-runtime BOM promoter.  An outside writer may change the file
    between steps.  Digests are collision-free, so content stands for its own
    digest; `None` is a missing file. */
module SingleFilePromoters {
  import opened Surroundings
  import opened Wrappers

  type Content = nat

  /** Outside writers write the target before a step. */
  type Script = seq<Moment<Option<Content>>>

  /** A change of the target: by an outside writer, or by the transaction. */
  datatype Change = Outside(after: Option<Content>) | Promotion(after: Option<Content>)
      | Restoration(after: Option<Content>)

  function TargetAfter(base: Option<Content>, changes: seq<Change>): Option<Content> {
    if changes == [] then base else changes[|changes| - 1].after
  }

  lemma LastChange(
      changes: seq<Change>, base: Option<Content>, target: Option<Content>, expected: Option<Content>, next: Content)
    requires LogSound(changes, base, target, expected, next)
    ensures target == TargetAfter(base, changes)
    ensures changes != [] && changes[|changes| - 1].Restoration? ==> target == expected
  {
    if changes != [] {
      var last := |changes| - 1;
      assert ChangeSound(changes[last], changes[..last], base, expected, next);
    }
  }

  predicate NoPromotion(changes: seq<Change>) {
    forall i :: 0 <= i < |changes| ==> !changes[i].Promotion?
  }

  /** A change that follows the `earlier` ones: the transaction only ever makes the
      target the new content, and that once, or the expected baseline, and that
      from exactly the new content. */
  predicate ChangeSound(
    change: Change, earlier: seq<Change>, base: Option<Content>, expected: Option<Content>, next: Content)
  {
    match change
    case Outside(_) => true
    case Promotion(after) => after == Some(next) && NoPromotion(earlier)
    case Restoration(after) => TargetAfter(base, earlier) == Some(next) && after == expected
  }

  /** The log accounts for the target and every change in it is sound: third
      content is never rolled over. */
  ghost predicate LogSound(
    changes: seq<Change>, base: Option<Content>, target: Option<Content>, expected: Option<Content>, next: Content)
  {
    && target == TargetAfter(base, changes)
    && forall k :: 0 <= k < |changes| ==> ChangeSound(changes[k], changes[..k], base, expected, next)
  }

  lemma LogGrows(
    changes: seq<Change>, change: Change, base: Option<Content>, target: Option<Content>, expected: Option<Content>,
        next: Content)
    requires LogSound(changes, base, target, expected, next)
    requires match change
             case Outside(_) => true
             case Promotion(after) => after == Some(next) && NoPromotion(changes)
             case Restoration(after) => target == Some(next) && after == expected
    ensures LogSound(changes + [change], base, change.after, expected, next)
    ensures NoPromotion(changes) && !change.Promotion? ==> NoPromotion(changes + [change])
  {
    var longer := changes + [change];
    forall k | 0 <= k < |longer| ensures ChangeSound(longer[k], longer[..k], base, expected, next) {
      if k < |changes| { assert longer[..k] == changes[..k]; } else { assert longer[..k] == changes; }
    }
  }

  /** The outside writes in the log. */
  function Outsides(changes: seq<Change>): seq<Option<Content>> {
    if changes == [] then []
    else
      var last := changes[|changes| - 1];
      Outsides(changes[..|changes| - 1]) + if last.Outside? then [last.after] else []
  }

  lemma OutsidesGrow(changes: seq<Change>, change: Change)
    ensures Outsides(changes + [change]) == Outsides(changes) + if change.Outside? then [change.after] else []
  {
    assert (changes + [change])[..|changes|] == changes;
  }

  function Written(target: Option<Content>, writes: seq<Option<Content>>): Option<Content> {
    if writes == [] then target else writes[|writes| - 1]
  }

  /** What outside writers make of the target in a number of steps. */
  function Left(target: Option<Content>, script: Script, steps: nat): Option<Content> {
    Written(target, Seen(script, steps))
  }

  lemma LeftSplit(target: Option<Content>, script: Script, first: nat, second: nat)
    requires Advance(script, first).0 == Done
    ensures Left(target, script, first + second) == Left(Left(target, script, first), Advance(script, first).1, second)
  {
    SeenSplit(script, first, second);
  }

  function OutsideChanges(writes: seq<Option<Content>>): (r: seq<Change>)
    ensures |r| == |writes| && forall i :: 0 <= i < |r| ==> r[i] == Outside(writes[i])
  {
    seq(|writes|, i requires 0 <= i < |writes| => Outside(writes[i]))
  }

  /** What outside writers do is logged as theirs. */
  lemma {:induction false} WritesLogged(
    changes: seq<Change>, writes: seq<Option<Content>>,
    base: Option<Content>, target: Option<Content>, expected: Option<Content>, next: Content)
    requires LogSound(changes, base, target, expected, next)
    ensures LogSound(changes + OutsideChanges(writes), base, Written(target, writes), expected, next)
    ensures NoPromotion(changes) ==> NoPromotion(changes + OutsideChanges(writes))
    ensures Outsides(changes + OutsideChanges(writes)) == Outsides(changes) + writes
    decreases |writes|
  {
    hide LogSound, NoPromotion;
    if writes == [] {
      assert changes + OutsideChanges(writes) == changes;
    } else {
      var init, last := writes[..|writes| - 1], writes[|writes| - 1];
      var shorter := changes + OutsideChanges(init);
      WritesLogged(changes, init, base, target, expected, next);
      LogGrows(shorter, Outside(last), base, Written(target, init), expected, next);
      OutsidesGrow(shorter, Outside(last));
      assert changes + OutsideChanges(writes) == shorter + [Outside(last)];
      assert writes == init + [last];
    }
  }

  /** Of `all` steps one after the first `ahead` raises, and so does the one that
      follows it, which is the rollback of the handler. */
  predicate RaisesTwice(script: Script, ahead: nat, all: nat) {
    && Advance(script, ahead).0 == Done
    && Advance(script, all).0.Raised()
    && RaisesNext(Advance(script, all).1)
  }

  // ---------------------------------------------------------------------
  // The routing-policy materializer
  // ---------------------------------------------------------------------

  datatype Phase =
    | LockAcquired | StageVerified | PromotionPrepared | Promoting | Promoted | LiveTargetVerified | Completed
    | PreconditionFailed | RollbackFailed | RolledBack

  predicate BeforePromotion(phase: Phase) {
    phase.LockAcquired? || phase.StageVerified? || phase.PromotionPrepared?
  }

  datatype Receipt = Applied | Undone | Recovered | NotApplicable | NotUndone

  datatype Disk = Disk(
    target: Option<Content>, phase: Option<Phase>, backup: Option<Content>, stage: Option<Content>,
        receipt: Option<Receipt>)

  /** What an undisturbed transaction started from its expected baseline shows. */
  ghost predicate PolicySound(d: Disk, phase: Phase, expected: Option<Content>, next: Content) {
    || d.target == expected
    || (d.target == Some(next) && !BeforePromotion(phase) && (expected.Some? ==> d.backup == expected))
  }

  ghost predicate PolicyReceiptSound(d: Disk, expected: Option<Content>, next: Content) {
    match d.receipt
    case Some(Applied) => d.target == Some(next)
    case Some(Undone) => d.target == expected
    case Some(Recovered) => d.target == expected
    case Some(NotApplicable) => d.target == expected
    case Some(NotUndone) => d.target == expected || d.target == Some(next)
    case None => true
  }

  /** What rolling back makes of the target. */
  function RolledBackTarget(d: Disk, expected: Option<Content>, next: Content): Option<Content> {
    if d.target == Some(next) && (expected.None? || d.backup == expected) then expected else d.target
  }

  /** What an undisturbed recovery makes of the target. */
  function RecoveredTarget(d: Disk, expected: Option<Content>, next: Content): Option<Content>
    requires d.phase.Some?
  {
    if BeforePromotion(d.phase.value) && d.target != expected then d.target else RolledBackTarget(d, expected, next)
  }

  /** How a call is to end: at the baseline, or applied. */
  predicate PolicySettled(d: Disk, expected: Option<Content>, next: Content) {
    d.target == expected || (d.target == Some(next) && d.receipt == Some(Applied))
  }

  /** The change of the target from `before` to `after` by a rollback, if any. */
  function Restored(before: Option<Content>, after: Option<Content>): seq<Change> {
    if before == after then [] else [Restoration(after)]
  }

  /** Whether the content at the target was there before the transaction or came
      from another writer. */
  predicate WrittenOutside(changes: seq<Change>, base: Option<Content>, content: Content) {
    if changes == [] then base == Some(content) else changes[|changes| - 1] == Outside(Some(content))
  }

  class PolicyFile {
    const expected: Option<Content>
    const next: Content

    // Survives a crash.
    var disk: Disk

    // The running process's copy of the journal's phase.
    var phase: Phase

    var script: Script

    // No outside writer has acted, and the target was the expected baseline.
    ghost var undisturbed: bool

    // The target before the transaction, and every change of it since.
    ghost const base: Option<Content>
    ghost var changes: seq<Change>

    constructor (expected: Option<Content>, next: Content, target: Option<Content>, script: Script)
      ensures Valid() && disk == Disk(target, None, None, None, None)
      ensures changes == [] && (undisturbed <==> target == expected)
      ensures this.expected == expected && this.next == next && base == target && this.script == script
    {
      this.expected, this.next, base := expected, next, target;
      disk, phase, this.script := Disk(target, None, None, None, None), LockAcquired, script;
      undisturbed, changes := target == expected, [];
    }

    /** Between calls, whatever interrupted the earlier ones. */
    ghost predicate Valid()
      reads this
    {
      && LogSound(changes, base, disk.target, expected, next)
      && (disk.phase.None? || BeforePromotion(disk.phase.value) ==> NoPromotion(changes))
      && (disk.receipt == Some(NotApplicable) ==> NoPromotion(changes))
      && FlagSound()
      && (undisturbed ==>
            if disk.receipt.Some? then PolicyReceiptSound(disk, expected, next)
            else if disk.phase.None? then disk.target == expected
            else PolicySound(disk, disk.phase.value, expected, next))
    }

    ghost predicate Running()
      reads this
    {
      && disk.phase.Some? && disk.receipt.None?
      && LogSound(changes, base, disk.target, expected, next)
      && (BeforePromotion(disk.phase.value) ==> NoPromotion(changes))
      && (BeforePromotion(phase) ==> NoPromotion(changes))
      && FlagSound()
      && (undisturbed ==>
          PolicySound(disk, disk.phase.value, expected, next) && PolicySound(disk, phase, expected, next))
    }

    /** The steps of an uninterrupted first call up to its replacement of the
        target: lock, backup if there is a target, stage, two phases, the last
        comparison, the promotion phase and the replacement itself. */
    function StepsToNew(): nat {
      if expected.Some? then 8 else 7
    }

    /** All of them: also a comparison, three phases and the receipt. */
    function AllSteps(): nat {
      StepsToNew() + 5
    }

    /** Of a first call of which `ahead` steps, the lock, are to come: the backup was
        taken of the expected target, and the last comparison finds another one. */
    predicate DriftIsSeen(target: Option<Content>, script: Script, ahead: nat) {
      && Advance(script, ahead + StepsToNew() - 3).0 == Done
      && (expected.Some? ==> Left(target, script, ahead + 1) == expected)
      && Left(target, script, ahead + StepsToNew() - 3) != expected
    }

    predicate ClosesQuietly(script: Script) {
      NoWrites(script) && Advance(script, 2).0 == Done
    }

    predicate NotStarted()
      reads this
    {
      disk.receipt.None? && disk.phase.None?
    }

    predicate Interrupted()
      reads this
    {
      disk.receipt.None? && disk.phase.Some?
    }

    /** The rollback of the coming call raises while the target is new. */
    predicate RollbackFails()
      reads this
    {
      && disk.receipt.None? && expected != Some(next)
      && if disk.phase.Some? then disk.target == Some(next) && RaisesNext(script)
          else RaisesTwice(script, StepsToNew(), AllSteps())
    }

    /** The interruption was past the pre-promotion phases, and the target happens
        to hold the new content, put there by another writer. */
    ghost predicate HoldsForeignCopy()
      reads this
    {
      && disk.phase.Some? && !BeforePromotion(disk.phase.value)
      && disk.target == Some(next) && expected != Some(next) && WrittenOutside(changes, base, next)
      && (expected.None? || disk.backup == expected)
    }

    /** The flag says what the log says. */
    ghost predicate FlagSound()
      reads this
    {
      undisturbed <==> base == expected && Outsides(changes) == []
    }

    /** Outside writes leave the script only for the log, in order, and nothing ever
        leaves the log: what else is logged is the transaction's own doing. */
    twostate predicate Accounted()
      reads this
    {
      && old(changes) <= changes
      && Outsides(changes) + Writes(script) == old(Outsides(changes) + Writes(script))
      && (undisturbed ==> old(undisturbed))
      && (NoWrites(old(script)) ==> NoWrites(script) && undisturbed == old(undisturbed))
    }

    method Tick() returns (r: Outcome)
      modifies `disk, `script, `undisturbed, `changes
      requires LogSound(changes, base, disk.target, expected, next) && FlagSound()
      ensures LogSound(changes, base, disk.target, expected, next) && FlagSound()
      ensures NoPromotion(old(changes)) ==> NoPromotion(changes)
      ensures disk == old(disk).(target := disk.target)
      ensures undisturbed ==> disk == old(disk)
      ensures (r, script) == Advance(old(script), 1)
      ensures Accounted()
      ensures NoWrites(old(script)) ==> disk == old(disk) && changes == old(changes)
      ensures disk.target == Left(old(disk).target, old(script), 1)
    {
      hide LogSound, NoPromotion, Outsides, Writes, NoWrites, Advance, Seen;
      FirstStep(script);
      SeenFirst(script);
      if script == [] { return Done; }
      var moment := script[0];
      script := script[1..];
      WritesLogged(changes, moment.writes, base, disk.target, expected, next);
      changes := changes + OutsideChanges(moment.writes);
      disk := disk.(target := Written(disk.target, moment.writes));
      undisturbed := undisturbed && moment.writes == [];
      match moment.event
      case Proceed => return Done;
      case Raise => return Failed(StepRaised);
      case PowerCut => return Failed(Crashed);
    }

    /** Saves the journal in a phase. */
    method Enter(coming: Phase) returns (r: Outcome)
      requires Running()
      requires BeforePromotion(coming) ==> BeforePromotion(phase)
      modifies `disk, `script, `undisturbed, `phase, `changes
      ensures Running() && phase == coming && (NoPromotion(old(changes)) ==> NoPromotion(changes))
      ensures disk == old(disk).(target := disk.target, phase := if r == Done then Some(coming) else old(disk).phase)
      ensures undisturbed ==> disk.target == old(disk).target
      ensures (r, script) == Advance(old(script), 1)
      ensures Accounted()
      ensures NoWrites(old(script)) ==> disk.target == old(disk).target && changes == old(changes)
      ensures disk.target == Left(old(disk).target, old(script), 1)
    {
      phase := coming;
      r := Tick();
      if r == Done { disk := disk.(phase := Some(phase)); }
    }

    method WriteReceipt(outcome: Receipt) returns (r: Outcome)
      requires Running()
      requires undisturbed ==> PolicyReceiptSound(disk.(receipt := Some(outcome)), expected, next)
      requires outcome == NotApplicable ==> NoPromotion(changes)
      modifies `disk, `script, `undisturbed, `changes
      ensures Valid() && (r == Done || Running())
      ensures disk == old(disk).(target := disk.target, receipt := if r == Done then Some(outcome) else None)
      ensures undisturbed ==> disk.target == old(disk).target
      ensures (r, script) == Advance(old(script), 1)
      ensures NoPromotion(old(changes)) ==> NoPromotion(changes)
      ensures Accounted()
      ensures NoWrites(old(script)) ==> disk.target == old(disk).target && changes == old(changes)
    {
      r := Tick();
      if r == Done { disk := disk.(receipt := Some(outcome)); }
    }

    /** Closes with a phase and the receipt that goes with it. */
    method Close(last: Phase, outcome: Receipt) returns (r: Outcome)
      requires Running() && !BeforePromotion(last)
      requires undisturbed ==> PolicyReceiptSound(disk.(receipt := Some(outcome)), expected, next)
      requires outcome == NotApplicable ==> NoPromotion(changes)
      modifies `disk, `script, `undisturbed, `phase, `changes
      ensures Valid() && (r == Done || Running()) && (undisturbed ==> disk.target == old(disk).target)
      ensures disk.receipt == if r == Done then Some(outcome) else None
      ensures disk.phase == if Advance(old(script), 1).0 == Done then Some(last) else old(disk).phase
      ensures disk.backup == old(disk).backup && disk.stage == old(disk).stage
      ensures (r, script) == Advance(old(script), 2)
      ensures NoPromotion(old(changes)) ==> NoPromotion(changes)
      ensures Accounted()
      ensures NoWrites(old(script)) ==> disk.target == old(disk).target && changes == old(changes)
    {
      hide LogSound, Advance, NoWrites, Outsides, Writes, NoPromotion;
      AdvanceSplit(script, 1, 1);
      r := Enter(last);
      if r == Done { r := WriteReceipt(outcome); }
    }

    /** Puts the baseline back over the new content, and over nothing else. */
    method Rollback() returns (r: Outcome)
      requires Running()
      modifies `disk, `script, `undisturbed, `changes
      ensures Running() && disk == old(disk).(target := disk.target)
      ensures undisturbed ==> disk.target == if r == Done then expected else old(disk).target
      ensures NoPromotion(old(changes)) ==> NoPromotion(changes)
      ensures script == Advance(old(script), 1).1
      ensures undisturbed || Advance(old(script), 1).0 != Done ==> r == Advance(old(script), 1).0
      ensures NoWrites(old(script)) && old(disk).target != Some(next) ==> disk.target == old(disk).target
      ensures Accounted()
      ensures (NoWrites(old(script)) && Advance(old(script), 1).0 == Done ==>
                disk.target == RolledBackTarget(old(disk), expected, next) && (r == Done <==> disk.target == expected)
                    && r != Failed(Crashed))
      ensures NoWrites(old(script)) && Advance(old(script), 1).0 != Done ==> disk.target == old(disk).target
      ensures NoWrites(old(script)) ==> changes == old(changes) + Restored(old(disk).target, disk.target)
    {
      hide LogSound, Advance, NoWrites, Outsides, Writes;
      r := Tick();
      if r != Done || disk.target == expected { return; }
      if disk.target != Some(next) { return Failed(Refused("rollback refused to overwrite external target drift")); }
      if expected.Some? && disk.backup != expected {
        return Failed(Refused("rollback backup is unavailable or changed"));
      }
      ghost var change := Restoration(expected);
      LogGrows(changes, change, base, disk.target, expected, next);
      OutsidesGrow(changes, change);
      changes := changes + [change];
      disk := disk.(target := if expected.None? then None else disk.backup);
    }

    /** Rolls back and closes with `outcome`, or records that it could not. */
    method UndoAll(outcome: Receipt) returns (r: Outcome)
      requires Running() && (outcome == Undone || outcome == Recovered)
      modifies `disk, `script, `undisturbed, `changes, `phase
      ensures Valid()
      ensures r == Done ==> disk.receipt == Some(outcome)
      ensures disk.receipt != Some(Applied)
      ensures (undisturbed && r != Failed(Crashed) ==>
                (disk.target == expected <==> !RaisesNext(old(script)) || old(disk).target == expected))
      ensures (RaisesNext(old(script)) ==>
                r.Failed? && disk.receipt == if Advance(old(script)[1..], 2).0 == Done then Some(NotUndone) else None)
      ensures r == Failed(Crashed) ==> disk.receipt.None?
      ensures NoWrites(old(script)) && old(disk).target != Some(next) ==> disk.target == old(disk).target
      ensures NoPromotion(old(changes)) ==> NoPromotion(changes)
      ensures Accounted()
      ensures NoWrites(old(script)) ==> changes == old(changes) + Restored(old(disk).target, disk.target)
      ensures old(script) == [] ==> disk.target == RolledBackTarget(old(disk), expected, next)
      ensures old(script) == [] && disk.target == expected ==> r == Done
      ensures (NoWrites(old(script)) ==>
                disk.target ==
                  if Advance(old(script), 1).0 == Done then RolledBackTarget(old(disk), expected, next)
                      else old(disk).target)
      ensures ((undisturbed || NoWrites(old(script))) && Advance(old(script), 3).0 == Done ==>
                && disk.receipt == Some(if disk.target == expected then outcome else NotUndone)
                && (r == Done <==> disk.target == expected))
    {
      hide LogSound, Outsides, Writes;
      AdvanceSplit(script, 1, 2);
      r := Rollback();
      if r == Done {
        r := Close(RolledBack, outcome);
      } else if r.Raised() {
        var closed := Close(RollbackFailed, NotUndone);
        if closed != Done { r := closed; }
      }
    }

    /** Backs up, stages, promotes, verifies and closes. */
    method Body() returns (r: Outcome)
      requires Running() && phase == LockAcquired && disk.phase == Some(LockAcquired) && disk.backup.None?
      modifies `disk, `script, `undisturbed, `changes, `phase
      ensures if r == Done then Valid() && disk.receipt == Some(Applied) else Running()
      ensures undisturbed ==> (r, script) == Advance(old(script), AllSteps() - 1)
      ensures (undisturbed ==>
                disk.target == if Advance(old(script), StepsToNew() - 1).0 == Done then Some(next) else expected)
      ensures Accounted()
      ensures Left(old(disk).target, old(script), StepsToNew() - 3) != expected ==> NoPromotion(changes)
      ensures (r == Done ==>
                && Left(Some(next), Advance(old(script), StepsToNew() - 1).1, 1) == Some(next)
                && (expected.Some? ==> disk.backup == expected))
      ensures (DriftIsSeen(old(disk).target, old(script), 0) ==>
                && r.Raised() && r.error.Refused? && BeforePromotion(phase)
                && script == Advance(old(script), StepsToNew() - 3).1
                && disk.target == Left(old(disk).target, old(script), StepsToNew() - 3))
    {
      hide LogSound, Advance, Outsides, Writes;
      AdvanceSplit(script, StepsToNew() - 4, 5);
      AdvanceSplit(script, StepsToNew() - 4, 3);
      AdvanceSplit(script, StepsToNew() + 1, 1);
      AdvanceSplit(script, StepsToNew() + 2, 2);
      AdvanceSplit(script, StepsToNew() - 4, 1);
      if Advance(script, StepsToNew() - 4).0 == Done { LeftSplit(disk.target, script, StepsToNew() - 4, 1); }
      r := Stage();
      if r == Done { r := PromoteStaged(); }
      if r == Done { r := Enter(LiveTargetVerified); }
      if r == Done { r := Close(Completed, Applied); }
    }

    method CaptureBackup() returns (r: Outcome)
      requires Running() && BeforePromotion(phase) && BeforePromotion(disk.phase.value)
      requires expected.Some? && (undisturbed ==> disk.target == expected)
      modifies `disk, `script, `undisturbed, `changes
      ensures Running() && NoPromotion(changes)
      ensures disk == old(disk).(target := disk.target, backup := disk.backup)
      ensures undisturbed ==> disk.target == expected && (r, script) == Advance(old(script), 1)
      ensures r == Done ==> disk.backup == expected && (r, script) == Advance(old(script), 1)
      ensures disk.target == Left(old(disk).target, old(script), 1)
      ensures Accounted()
      ensures Left(old(disk).target, old(script), 1) == expected ==> (r, script) == Advance(old(script), 1)
    {
      hide LogSound, Advance, NoWrites, Outsides, Writes, Seen, Written, Left, NoPromotion;
      r := Tick();
      if r == Done && disk.target.None? { r := Failed(StepRaised); }
      if r == Done {
        disk := disk.(backup := disk.target);
        if disk.backup != expected { r := Failed(Refused("routing policy changed during backup capture")); }
      }
    }

    /** Captures the backup, stages the new content and prepares the promotion. */
    method Stage() returns (r: Outcome)
      requires Running() && phase == LockAcquired && disk.phase == Some(LockAcquired)
      modifies `disk, `script, `undisturbed, `phase, `changes
      ensures Running() && (NoPromotion(old(changes)) ==> NoPromotion(changes))
      ensures undisturbed ==> disk.target == expected && (r, script) == Advance(old(script), StepsToNew() - 4)
      ensures (r == Done ==>
                phase == PromotionPrepared && disk.phase == Some(PromotionPrepared) && disk.stage == Some(next))
      ensures r == Done && expected.Some? ==> disk.backup == expected
      ensures Accounted()
      ensures (r == Done ==>
                (Done, script) == Advance(old(script), StepsToNew() - 4)
                && disk.target == Left(old(disk).target, old(script), StepsToNew() - 4))
      ensures ((expected.Some? ==> Left(old(disk).target, old(script), 1) == expected)
               && Advance(old(script), StepsToNew() - 4).0 == Done ==>
                r == Done)
    {
      hide LogSound, Advance, NoWrites, Outsides, Writes, Seen, Written, Left, NoPromotion;
      AdvanceSplit(script, 1, 1);
      AdvanceSplit(script, 2, 1);
      AdvanceSplit(script, 3, 1);
      if Advance(script, 1).0 == Done { LeftSplit(disk.target, script, 1, 1); }
      if Advance(script, 2).0 == Done { LeftSplit(disk.target, script, 2, 1); }
      if Advance(script, 3).0 == Done { LeftSplit(disk.target, script, 3, 1); }
      r := Done;
      if expected.Some? {
        r := CaptureBackup();
      }
      if r == Done { r := Tick(); }
      if r == Done {
        disk := disk.(stage := Some(next));
        r := Enter(StageVerified);
      }
      if r == Done { r := Enter(PromotionPrepared); }
    }

    /** The last comparison, the phase that says it may happen, the replacement. */
    method PromoteStaged() returns (r: Outcome)
      requires Running() && phase == PromotionPrepared
      requires disk.phase == Some(PromotionPrepared) && disk.stage == Some(next)
      requires (undisturbed ==> disk.target == expected) && (expected.Some? ==> disk.backup == expected)
      modifies `disk, `script, `undisturbed, `changes, `phase
      ensures Running() && (undisturbed ==> (r, script) == Advance(old(script), 5))
      ensures r == Done ==> phase == Promoted
      ensures undisturbed ==> disk.target == if Advance(old(script), 3).0 == Done then Some(next) else expected
      ensures undisturbed && r == Done ==> disk.target == Some(next)
      ensures Accounted()
      ensures Left(old(disk).target, old(script), 1) != expected ==> r != Done && NoPromotion(changes)
      ensures (r == Done ==>
                && (Done, script) == Advance(old(script), 5) && Advance(old(script), 3).0 == Done
                && Left(Some(next), Advance(old(script), 3).1, 1) == Some(next))
      ensures disk.backup == old(disk).backup
      ensures (Left(old(disk).target, old(script), 1) != expected && Advance(old(script), 1).0 == Done ==>
                && r.Raised() && r.error.Refused? && phase == old(phase)
                && script == Advance(old(script), 1).1 && disk.target == Left(old(disk).target, old(script), 1))
    {
      hide LogSound, Advance, NoWrites, Outsides, Writes;
      AdvanceSplit(script, 1, 1);
      AdvanceSplit(script, 2, 1);
      AdvanceSplit(script, 3, 1);
      AdvanceSplit(script, 4, 1);
      r := Tick();
      if r == Done && disk.target != expected { r := Failed(Refused("routing policy changed after staging")); }
      if r == Done { r := Enter(Promoting); }
      if r == Done { r := Replace(); }
      if r == Done { r := Tick(); }
      if r == Done && disk.target != Some(next) { r := Failed(Refused("promoted routing policy hash is invalid")); }
      if r == Done { r := Enter(Promoted); }
    }

    /** The replacement of the target by its staged content. */
    method Replace() returns (r: Outcome)
      requires Running() && phase == Promoting && disk.phase == Some(Promoting) && disk.stage == Some(next)
      requires NoPromotion(changes)
      requires undisturbed && expected.Some? ==> disk.backup == expected
      modifies `disk, `script, `undisturbed, `changes
      ensures Running() && disk == old(disk).(target := disk.target, stage := disk.stage)
      ensures (r, script) == Advance(old(script), 1)
      ensures r == Done ==> disk.target == Some(next) && !NoPromotion(changes)
      ensures undisturbed && r != Done ==> disk.target == old(disk).target
      ensures Accounted()
    {
      hide LogSound, Advance, NoWrites, Outsides, Writes;
      r := Tick();
      if r == Done {
        ghost var change := Promotion(Some(next));
        LogGrows(changes, change, base, disk.target, expected, next);
        OutsidesGrow(changes, change);
        changes := changes + [change];
        assert changes[|changes| - 1].Promotion?;
        disk := disk.(target := disk.stage, stage := None);
      }
    }

    /** One call: replay the receipt, recover an interruption, or run.  Without an
        outside writer, whichever steps raise in this call and whatever interrupted
        the earlier ones, it ends at the baseline or applied if and only if no
        rollback raises over the new content. */
    method Apply() returns (r: Outcome)
      requires Valid()
      modifies `disk, `script, `undisturbed, `changes, `phase
      ensures Valid()
      ensures (undisturbed && r != Failed(Crashed) && old(disk).receipt != Some(NotUndone) ==>
                (PolicySettled(disk, expected, next) <==> !old(RollbackFails())))
      ensures r == Failed(Crashed) ==> disk.receipt.None?
      ensures (undisturbed && old(NotStarted()) && Advance(old(script), AllSteps()).0 == Failed(Crashed) ==>
                && r == Failed(Crashed)
                && disk.target == if Advance(old(script), StepsToNew()).0 == Done then Some(next) else expected)
      ensures (RaisesNext(old(script)) && old(Interrupted()) && old(disk).target == Some(next)
               && !BeforePromotion(old(disk).phase.value) ==>
                r.Failed? && disk.receipt == if Advance(old(script)[1..], 2).0 == Done then Some(NotUndone) else None)
      ensures (old(script) == [] && old(Interrupted()) ==>
                && disk.target == RecoveredTarget(old(disk), expected, next) && (disk.target == expected ==> r == Done)
                && changes == old(changes) + Restored(old(disk).target, disk.target)
                && (NoPromotion(old(changes)) ==>
                     changes == old(changes) + if old(HoldsForeignCopy()) then [Restoration(expected)] else []))
      ensures (old(script) == [] && undisturbed && old(NotStarted()) ==>
                r == Done && disk.receipt == Some(Applied))
      ensures (NoWrites(old(script)) && old(NotStarted()) && old(disk).target != expected ==>
                && r == Advance(old(script), 3).0
                && disk == PreconditionDisk(old(disk), old(script)) && changes == old(changes))
      ensures Accounted()
      ensures (NoWrites(old(script)) && old(disk).target != expected && old(disk).target != Some(next) ==>
                disk.target == old(disk).target && changes == old(changes))
      ensures old(disk).receipt.Some? ==> disk == old(disk)
      ensures (NoWrites(old(script)) && old(Interrupted()) ==>
                disk.target ==
                  if Advance(old(script), 1).0 == Done then RecoveredTarget(old(disk), expected, next)
                      else old(disk).target)
      ensures ((undisturbed || NoWrites(old(script))) && old(Interrupted()) && Advance(old(script), 3).0 == Done ==>
                if BeforePromotion(old(disk).phase.value) && old(disk).target != expected
                then r == Done && disk.receipt == Some(NotApplicable)
                else
                  && disk.receipt == Some(if disk.target == expected then Recovered else NotUndone)
                  && (r == Done <==> disk.target == expected))
      ensures (undisturbed && old(NotStarted()) && Advance(old(script), 1).0 != Done ==>
                r == Advance(old(script), 1).0 && disk == old(disk))
      ensures (undisturbed && old(NotStarted()) && Advance(old(script), 1).0 == Done
               && Advance(old(script), AllSteps()).0.Raised()
               && Advance(Advance(old(script), AllSteps()).1, 3).0 == Done ==>
                r == Done && disk.receipt == Some(Undone) && disk.target == expected)
      ensures (old(disk).receipt.Some? ==>
                && r != Failed(Crashed)
                && (r == Done <==>
                     && (old(disk).receipt == Some(Applied) ==> old(disk).target == Some(next))
                     && (old(disk).receipt == Some(Undone) || old(disk).receipt == Some(Recovered) ==>
                           old(disk).target == expected)))
      ensures (old(NotStarted()) && Left(old(disk).target, old(script), StepsToNew() - 2) != expected ==>
                NoPromotion(changes))
      ensures (old(NotStarted()) && disk.receipt == Some(Applied) ==>
                && Left(Some(next), Advance(old(script), StepsToNew()).1, 1) == Some(next)
                && (expected.Some? ==> disk.backup == expected))
      ensures (old(NotStarted()) && old(disk).target == expected && DriftIsSeen(expected, old(script), 1)
               && ClosesQuietly(Advance(old(script), StepsToNew() - 2).1) ==>
                && r == Done && disk.receipt == Some(NotApplicable)
                && disk.target == Left(expected, old(script), StepsToNew() - 2))
    {
      hide LogSound, Advance, Outsides, Writes;
      if disk.receipt.Some? {
        r := if disk.receipt == Some(Applied) && disk.target != Some(next)
             then Failed(Refused("applied target has drifted"))
             else if (disk.receipt == Some(Undone) || disk.receipt == Some(Recovered)) && disk.target != expected
             then Failed(Refused("rolled-back target has drifted")) else Done;
      } else if disk.phase.Some? {
        r := Recover();
      } else {
        r := Fresh();
      }
    }

    /** An interrupted transaction: recorded as not applicable when it had not
        reached its promotion and the target is another one, undone otherwise. */
    method Recover() returns (r: Outcome)
      requires Valid() && disk.receipt.None? && disk.phase.Some?
      modifies `disk, `script, `undisturbed, `changes, `phase
      ensures Valid()
      ensures (undisturbed && r != Failed(Crashed) ==>
                (disk.target == expected <==> !RaisesNext(old(script)) || old(disk).target == expected))
      ensures (RaisesNext(old(script)) && !(BeforePromotion(old(disk).phase.value) && old(disk).target != expected) ==>
                r.Failed? && disk.receipt == if Advance(old(script)[1..], 2).0 == Done then Some(NotUndone) else None)
      ensures r == Failed(Crashed) ==> disk.receipt.None?
      ensures NoWrites(old(script)) && old(disk).target != Some(next) ==> disk.target == old(disk).target
      ensures NoPromotion(old(changes)) ==> NoPromotion(changes)
      ensures Accounted()
      ensures NoWrites(old(script)) ==> changes == old(changes) + Restored(old(disk).target, disk.target)
      ensures (old(script) == [] ==>
                disk.target == RecoveredTarget(old(disk), expected, next) && (disk.target == expected ==> r == Done))
      ensures (old(script) == [] && NoPromotion(old(changes)) ==>
                changes == old(changes) + if old(HoldsForeignCopy()) then [Restoration(expected)] else [])
      ensures (NoWrites(old(script)) ==>
                disk.target ==
                  if Advance(old(script), 1).0 == Done then RecoveredTarget(old(disk), expected, next)
                      else old(disk).target)
      ensures ((undisturbed || NoWrites(old(script))) && Advance(old(script), 3).0 == Done ==>
                if BeforePromotion(old(disk).phase.value) && old(disk).target != expected
                then r == Done && disk.receipt == Some(NotApplicable)
                else
                  && disk.receipt == Some(if disk.target == expected then Recovered else NotUndone)
                  && (r == Done <==> disk.target == expected))
    {
      hide LogSound, Outsides, Writes;
      LastChange(changes, base, disk.target, expected, next);
      AdvanceSplit(script, 2, 1);
      phase := disk.phase.value;
      if BeforePromotion(phase) && disk.target != expected {
        r := Close(PreconditionFailed, NotApplicable);
      } else {
        r := UndoAll(Recovered);
      }
    }

    /** The disk after a first call that found another target. */
    function PreconditionDisk(d: Disk, script: Script): Disk {
      if Advance(script, 1).0 != Done then d
      else if Advance(script, 2).0 != Done then Disk(d.target, Some(LockAcquired), None, None, None)
      else Disk(d.target, Some(PreconditionFailed), None, None, if Advance(script, 3).0 ==
          Done then Some(NotApplicable) else None)
    }

    /** A first call. */
    method Fresh() returns (r: Outcome)
      requires Valid() && disk.receipt.None? && disk.phase.None?
      modifies `disk, `script, `undisturbed, `changes, `phase
      ensures Valid()
      ensures (undisturbed && r != Failed(Crashed) ==>
                (PolicySettled(disk, expected, next) <==>
                    expected == Some(next) || !RaisesTwice(old(script), StepsToNew(), AllSteps())))
      ensures r == Failed(Crashed) ==> disk.receipt.None?
      ensures (undisturbed && Advance(old(script), AllSteps()).0 == Failed(Crashed) ==>
                r == Failed(Crashed) && disk.target == if Advance(old(script), StepsToNew()).0 == Done then Some(next)
                    else expected)
      ensures old(script) == [] && undisturbed ==> r == Done && disk.receipt == Some(Applied)
      ensures (NoWrites(old(script)) && old(disk).target != expected ==>
                && r == Advance(old(script), 3).0
                && disk == PreconditionDisk(old(disk), old(script)) && changes == old(changes))
      ensures Accounted()
      ensures (undisturbed && Advance(old(script), AllSteps()).0.Raised() && Advance(old(script), 1).0 == Done
               && Advance(Advance(old(script), AllSteps()).1, 3).0 == Done && old(disk).target == expected ==>
                r == Done && disk.receipt == Some(Undone) && disk.target == expected)
      ensures (undisturbed && Advance(old(script), 1).0 != Done ==>
                r == Advance(old(script), 1).0 && disk == old(disk))
      ensures Left(old(disk).target, old(script), StepsToNew() - 2) != expected ==> NoPromotion(changes)
      ensures (disk.receipt == Some(Applied) ==>
                && Left(Some(next), Advance(old(script), StepsToNew()).1, 1) == Some(next)
                && (expected.Some? ==> disk.backup == expected))
      ensures (old(disk).target == expected && DriftIsSeen(expected, old(script), 1)
               && ClosesQuietly(Advance(old(script), StepsToNew() - 2).1) ==>
                && r == Done && disk.receipt == Some(NotApplicable)
                && disk.target == Left(expected, old(script), StepsToNew() - 2))
    {
      hide LogSound, Outsides, Writes, Seen, Written, Left, NoPromotion;
      AdvanceSplit(script, 1, AllSteps() - 1);
      OnlyEvents(script, AllSteps());
      AdvanceSplit(script, 1, StepsToNew() - 3);
      if Advance(script, 1).0 == Done {
        LeftSplit(disk.target, script, 1, 1);
        LeftSplit(disk.target, script, 1, StepsToNew() - 3);
      }
      AdvanceSplit(script, 1, StepsToNew() - 1);
      AdvanceSplit(script, 1, 1);
      AdvanceSplit(script, 1, 2);
      var prior := disk.target;
      phase := LockAcquired;
      r := Tick();
      if r == Done {
        disk := disk.(phase := Some(phase), backup := None, stage := None);
        if prior != expected {
          r := Close(PreconditionFailed, NotApplicable);
        } else {
          r := Attempt();
        }
      }
    }

    /** The body, and what follows its exceptions. */
    method Attempt() returns (r: Outcome)
      requires Running() && phase == LockAcquired && disk.phase == Some(LockAcquired) && disk.backup.None?
      requires undisturbed ==> disk.target == expected
      modifies `disk, `script, `undisturbed, `changes, `phase
      ensures Valid()
      ensures (undisturbed && r != Failed(Crashed) ==>
                (PolicySettled(disk, expected, next) <==>
                    expected == Some(next) || !RaisesTwice(old(script), StepsToNew() - 1, AllSteps() - 1)))
      ensures r == Failed(Crashed) ==> disk.receipt.None?
      ensures (undisturbed && Advance(old(script), AllSteps() - 1).0 == Failed(Crashed) ==>
                r == Failed(Crashed) && disk.target == if Advance(old(script), StepsToNew() - 1).0 ==
                    Done then Some(next)
                    else expected)
      ensures old(script) == [] && undisturbed ==> r == Done && disk.receipt == Some(Applied)
      ensures Accounted()
      ensures (undisturbed && Advance(old(script), AllSteps() - 1).0.Raised()
               && Advance(Advance(old(script), AllSteps() - 1).1, 3).0 == Done ==>
                r == Done && disk.receipt == Some(Undone) && disk.target == expected)
      ensures Left(old(disk).target, old(script), StepsToNew() - 3) != expected ==> NoPromotion(changes)
      ensures (disk.receipt == Some(Applied) ==>
                && Left(Some(next), Advance(old(script), StepsToNew() - 1).1, 1) == Some(next)
                && (expected.Some? ==> disk.backup == expected))
      ensures (DriftIsSeen(old(disk).target, old(script), 0)
               && ClosesQuietly(Advance(old(script), StepsToNew() - 3).1) ==>
                && r == Done && disk.receipt == Some(NotApplicable)
                && disk.target == Left(old(disk).target, old(script), StepsToNew() - 3))
    {
      hide LogSound, Outsides, Writes, Seen, Written, Left, NoPromotion, NoWrites;
      OnlyEvents(script, AllSteps() - 1);
      r := Body();
      if r.Raised() { r := Handle(r); }
    }

    /** What follows an exception of the body. */
    method Handle(failure: Outcome) returns (r: Outcome)
      requires Running() && failure.Raised()
      modifies `disk, `script, `undisturbed, `changes, `phase
      ensures Valid()
      ensures (undisturbed && r != Failed(Crashed) ==>
                (disk.target == expected <==> !RaisesNext(old(script)) || old(disk).target == expected))
      ensures r == Failed(Crashed) ==> disk.receipt.None?
      ensures disk.receipt != Some(Applied)
      ensures NoPromotion(old(changes)) ==> NoPromotion(changes)
      ensures Accounted()
      ensures (var drifted := failure.error.Refused? && BeforePromotion(old(phase)) && old(disk).target != expected;
               (undisturbed || NoWrites(old(script))) && Advance(old(script), if drifted then 2 else 3).0 == Done ==>
                if drifted then r == Done && disk.receipt == Some(NotApplicable) && disk.target == old(disk).target
                else
                  && disk.receipt == Some(if disk.target == expected then Undone else NotUndone)
                  && (r == Done <==> disk.target == expected))
    {
      if failure.error.Refused? && BeforePromotion(phase) && disk.target != expected {
        r := Close(PreconditionFailed, NotApplicable);
      } else {
        r := UndoAll(Undone);
      }
    }
  }

  /** Under at most one failing step a call fails to settle only as a recovery
      whose rollback is that step. */
  lemma OneRaiseSettles(file: PolicyFile)
    requires OneRaise(file.script) && (file.disk.phase.None? || !RaisesNext(file.script))
    ensures !file.RollbackFails()
  {
    if RaisesTwice(file.script, file.StepsToNew(), file.AllSteps()) {
      OneRaiseOnly(file.script, file.AllSteps(), 0);
    }
  }

  /** A run without an outside writer that does not settle: power is cut after the
      replacement, and the one rollback of the retry raises.  The new content stays
      under a receipt that no later call goes beyond. */
  method PolicyRollbackRaises(next: Content) returns (file: PolicyFile, r: Outcome)
    ensures fresh(file) && file.Valid() && file.undisturbed && file.expected.None? && file.next == next
    ensures r.Raised() && file.disk.target == Some(next) && file.disk.receipt == Some(NotUndone)
  {
    CutAfter<Option<Content>>(7, 4);
    file := new PolicyFile(None, next, None, CutAt(7));
    r := file.Apply();
    file.script := [Moment([], Raise)];
    r := file.Apply();
  }

  /** A run that takes foreign content: power is cut between PRECONDITION_FAILED and
      its receipt over a file that held the new content all along, and the retry
      deletes it. */
  method ForeignContentTaken(next: Content) returns (file: PolicyFile, r: Outcome)
    ensures fresh(file) && file.Valid() && file.base == Some(next) && file.expected.None? && file.next == next
    ensures r == Done && file.disk.target.None? && file.changes == [Restoration(None)]
  {
    CutAfter<Option<Content>>(2, 0);
    AdvanceSplit<Option<Content>>(CutAt(2), 1, 1);
    file := new PolicyFile(None, next, Some(next), CutAt(2));
    r := file.Apply();
    file.script := [];
    r := file.Apply();
  }

  // ---------------------------------------------------------------------
  // The worker-runtime BOM promoter
  // ---------------------------------------------------------------------

  datatype BomPhase = Prepared | BomPromoted | BomCompleted | BomRolledBack

  datatype BomReceipt = Success | TakenBack

  datatype BomDisk = BomDisk(
    target: Option<Content>, started: bool, backup: Option<Content>, stage: Option<Content>,
    phase: Option<BomPhase>, receipt: Option<BomReceipt>)

  /** How a call is to end: at the baseline, or completed. */
  predicate BomSettled(d: BomDisk, base: Option<Content>, next: Content) {
    d.target == base || (d.target == Some(next) && d.receipt == Some(Success))
  }

  /** What rolling back makes of the target. */
  function BomRolledBackTarget(d: BomDisk, expected: Option<Content>, next: Content): Option<Content> {
    if d.target == Some(next) && (expected.None? || d.backup == expected) then expected else d.target
  }

  class BomFile {
    const expected: Option<Content>
    const next: Content

    // Survives a crash.
    var disk: BomDisk

    var script: Script

    // No outside writer has acted.
    ghost var undisturbed: bool

    // The target before the transaction.
    ghost const base: Option<Content>

    ghost var changes: seq<Change>

    constructor (expected: Option<Content>, next: Content, target: Option<Content>, script: Script)
      ensures Valid() && undisturbed && base == target && changes == []
      ensures disk == BomDisk(target, false, None, None, None, None)
      ensures this.expected == expected && this.next == next && this.script == script
    {
      this.expected, this.next, base := expected, next, target;
      disk, this.script := BomDisk(target, false, None, None, None, None), script;
      undisturbed, changes := true, [];
    }

    /** Between calls, whatever interrupted the earlier ones. */
    ghost predicate Valid()
      reads this
    {
      && LogSound(changes, base, disk.target, expected, next)
      && (disk.phase.Some? || disk.receipt.Some? || disk.backup.Some? || disk.stage.Some? ==> disk.started)
      && (disk.receipt.Some? ==> disk.phase.Some?)
      && (disk.phase.None? ==> NoPromotion(changes))
      && FlagSound()
      && (undisturbed ==> Sound())
    }

    ghost predicate Sound()
      reads this
    {
      && (disk.started ==> base == expected)
      && (disk.phase.None? ==> disk.target == base)
      && (disk.phase.Some? && disk.target != base ==>
            disk.target == Some(next) && (expected.Some? ==> disk.backup == expected))
      && (disk.receipt.Some? ==> disk.target == if disk.receipt.value.Success? then Some(next) else base)
    }

    /** The steps of an uninterrupted first call up to its journal: workspace,
        backup if there is a target, stage and the journal itself. */
    function StepsToJournal(): nat {
      if expected.Some? then 4 else 3
    }

    predicate CanStart()
      reads this
    {
      !disk.started && disk.target == expected
    }

    /** The rollback of the coming call raises while the target is new. */
    predicate RollbackFails()
      reads this
    {
      && disk.receipt.None? && expected != Some(next)
      && if disk.phase.Some? then disk.target == Some(next) && RaisesNext(script)
         else CanStart() && RaisesTwice(script, StepsToJournal() + 1, StepsToJournal() + 5)
    }

    /** The flag says what the log says. */
    ghost predicate FlagSound()
      reads this
    {
      undisturbed <==> Outsides(changes) == []
    }

    /** Outside writes leave the script only for the log, in order, and nothing ever
        leaves the log: what else is logged is the transaction's own doing. */
    twostate predicate Accounted()
      reads this
    {
      && old(changes) <= changes
      && Outsides(changes) + Writes(script) == old(Outsides(changes) + Writes(script))
      && (undisturbed ==> old(undisturbed))
      && (NoWrites(old(script)) ==> NoWrites(script) && undisturbed == old(undisturbed))
    }

    method Tick() returns (r: Outcome)
      modifies `disk, `script, `undisturbed, `changes
      requires LogSound(changes, base, disk.target, expected, next) && FlagSound()
      ensures LogSound(changes, base, disk.target, expected, next) && FlagSound()
      ensures NoPromotion(old(changes)) ==> NoPromotion(changes)
      ensures disk == old(disk).(target := disk.target)
      ensures undisturbed ==> disk == old(disk)
      ensures (r, script) == Advance(old(script), 1)
      ensures Accounted()
      ensures NoWrites(old(script)) ==> disk == old(disk)
      ensures disk.target == Left(old(disk).target, old(script), 1)
    {
      hide LogSound, NoPromotion, Outsides, Writes, NoWrites, Advance, Seen;
      FirstStep(script);
      SeenFirst(script);
      if script == [] { return Done; }
      var moment := script[0];
      script := script[1..];
      WritesLogged(changes, moment.writes, base, disk.target, expected, next);
      changes := changes + OutsideChanges(moment.writes);
      disk := disk.(target := Written(disk.target, moment.writes));
      undisturbed := undisturbed && moment.writes == [];
      match moment.event
      case Proceed => return Done;
      case Raise => return Failed(StepRaised);
      case PowerCut => return Failed(Crashed);
    }

    method Enter(phase: BomPhase) returns (r: Outcome)
      requires Valid() && disk.started && disk.receipt.None?
      modifies `disk, `script, `undisturbed, `changes
      ensures Valid()
      ensures disk == old(disk).(target := disk.target, phase := if r == Done then Some(phase) else old(disk).phase)
      ensures undisturbed ==> disk.target == old(disk).target
      ensures (r, script) == Advance(old(script), 1)
      ensures NoWrites(old(script)) ==> disk.target == old(disk).target
      ensures NoPromotion(old(changes)) ==> NoPromotion(changes)
      ensures Accounted()
      ensures disk.target == Left(old(disk).target, old(script), 1)
    {
      r := Tick();
      if r == Done { disk := disk.(phase := Some(phase)); }
    }

    method WriteReceipt(outcome: BomReceipt) returns (r: Outcome)
      requires Valid() && disk.phase.Some? && disk.receipt.None?
      requires undisturbed ==> disk.target == if outcome == Success then Some(next) else base
      modifies `disk, `script, `undisturbed, `changes
      ensures Valid()
      ensures disk == old(disk).(target := disk.target, receipt := if r == Done then Some(outcome) else None)
      ensures undisturbed ==> disk.target == old(disk).target
      ensures (r, script) == Advance(old(script), 1)
      ensures NoWrites(old(script)) ==> disk.target == old(disk).target
      ensures NoPromotion(old(changes)) ==> NoPromotion(changes)
      ensures Accounted()
    {
      r := Tick();
      if r == Done { disk := disk.(receipt := Some(outcome)); }
    }

    /** Puts the baseline back over the new content, and over nothing else. */
    method Rollback() returns (r: Outcome)
      requires Valid() && disk.phase.Some? && disk.receipt.None?
      modifies `disk, `script, `undisturbed, `changes
      ensures Valid() && disk == old(disk).(target := disk.target)
      ensures undisturbed ==> disk.target == if r == Done then base else old(disk).target
      ensures script == Advance(old(script), 1).1
      ensures undisturbed || Advance(old(script), 1).0 != Done ==> r == Advance(old(script), 1).0
      ensures NoWrites(old(script)) && old(disk).target != Some(next) ==> disk.target == old(disk).target
      ensures NoPromotion(old(changes)) ==> NoPromotion(changes)
      ensures Accounted()
      ensures (NoWrites(old(script)) && Advance(old(script), 1).0 == Done ==>
                && disk.target == BomRolledBackTarget(old(disk), expected, next)
                && r != Failed(Crashed) && (r == Done <==> disk.target == expected))
      ensures NoWrites(old(script)) && Advance(old(script), 1).0 != Done ==> disk.target == old(disk).target
    {
      hide LogSound, Advance, NoWrites, Outsides, Writes;
      r := Tick();
      if r != Done || disk.target == expected { return; }
      if disk.target != Some(next) { return Failed(Refused("rollback refused to overwrite external target drift")); }
      if expected.Some? && disk.backup != expected { return Failed(Refused("rollback backup is unavailable")); }
      ghost var change := Restoration(expected);
      LogGrows(changes, change, base, disk.target, expected, next);
      OutsidesGrow(changes, change);
      changes := changes + [change];
      disk := disk.(target := if expected.None? then None else disk.backup);
    }

    /** One call.  A recovered interruption still ends in an error.  Without an
        outside writer, whichever steps raise in this call and whatever interrupted
        the earlier ones, it ends at the baseline or completed if and only if no
        rollback raises over the new content. */
    method Apply() returns (r: Outcome)
      requires Valid()
      modifies `disk, `script, `undisturbed, `changes
      ensures Valid()
      ensures undisturbed && r != Failed(Crashed) ==> (BomSettled(disk, base, next) <==> !old(RollbackFails()))
      ensures r == Done ==> disk.receipt == Some(Success)
      ensures (undisturbed && !old(disk).started && old(disk).target == expected
               && Advance(old(script), StepsToJournal() + 5).0 == Failed(Crashed) ==>
                && r == Failed(Crashed) && disk.receipt.None?
                && disk.target == if Advance(old(script), StepsToJournal() + 1).0 == Done then Some(next) else expected)
      ensures (old(disk).phase.Some? && old(disk).receipt.None? && RaisesNext(old(script)) ==>
                r.Raised() && disk == old(disk).(target := disk.target))
      ensures old(script) == [] && undisturbed && base == expected && !old(disk).started ==> r == Done
      ensures Accounted()
      ensures !old(disk).started && old(disk).target != expected ==> r.Raised() && disk == old(disk)
      ensures (NoWrites(old(script)) && old(disk).target != expected && old(disk).target != Some(next) ==>
                disk.target == old(disk).target)
      ensures old(disk).receipt.Some? ==> disk == old(disk)
      ensures (old(disk).receipt.Some? ==>
                && r != Failed(Crashed)
                && (r == Done <==> old(disk).receipt == Some(Success) && old(disk).target == Some(next)))
      ensures old(disk).started && old(disk).phase.None? ==> r.Raised() && disk == old(disk)
      ensures (NoWrites(old(script)) && old(disk).phase.Some? && old(disk).receipt.None? ==>
                disk.target == if Advance(old(script), 1).0 == Done
                               then BomRolledBackTarget(old(disk), expected, next) else old(disk).target)
      ensures (NoWrites(old(script)) && old(disk).phase.Some? && old(disk).receipt.None?
               && Advance(old(script), 3).0 == Done ==>
                r.Raised() && disk.receipt == if disk.target == expected then Some(TakenBack) else None)
      ensures (undisturbed && old(CanStart()) && Advance(old(script), StepsToJournal()).0 != Done ==>
                r == Advance(old(script), StepsToJournal()).0 && disk.phase.None? && disk.target == base)
      ensures (undisturbed && old(CanStart()) && Advance(old(script), StepsToJournal() + 5).0.Raised()
               && Advance(old(script), StepsToJournal()).0 == Done ==>
                var ended := Advance(old(script), StepsToJournal() + 5);
                if Advance(old(script), StepsToJournal() + 1).0 == Done
                then Advance(ended.1, 3).0 == Done ==>
                    r == ended.0 && disk.receipt == Some(TakenBack) && disk.target == base
                else Advance(ended.1, 2).0 == Done ==>
                    r == ended.0 && disk.receipt == Some(TakenBack) && disk.target == base)
      ensures (r == Done && old(disk).receipt.None? ==>
                Left(Some(next), Advance(old(script), StepsToJournal() + 1).1, 2) == Some(next))
    {
      hide LogSound, Outsides, Writes;
      AdvanceSplit(script, StepsToJournal(), 1);
      AdvanceSplit(script, StepsToJournal(), 5);
      if disk.receipt.Some? {
        r := if disk.receipt != Some(Success) then Failed(Refused("transaction did not complete"))
             else if disk.target != Some(next) then Failed(Refused("completed transaction target changed")) else Done;
      } else if disk.phase.Some? {
        r := TakeBack(Failed(Refused("interrupted transaction rolled back")), true);
      } else if disk.started {
        r := Failed(Refused("interrupted transaction has no journal"));
      } else if disk.target != expected {
        r := Failed(Refused("live precondition changed"));
      } else {
        r := Prepare();
        if r == Done { r := Body(); }
      }
    }

    /** Opens the workspace, backs up and stages; only then a journal exists. */
    method Prepare() returns (r: Outcome)
      requires Valid() && !disk.started && disk.target == expected
      modifies `disk, `script, `undisturbed, `changes
      ensures Valid() && disk.receipt.None?
      ensures undisturbed ==> disk.target == old(disk).target && (r, script) == Advance(old(script), StepsToJournal())
      ensures if r == Done then disk.phase == Some(Prepared) && disk.stage == Some(next) else disk.phase.None?
      ensures r == Done && undisturbed && expected.Some? ==> disk.backup == expected
      ensures NoPromotion(old(changes)) ==> NoPromotion(changes)
      ensures Accounted()
      ensures r == Done ==> (Done, script) == Advance(old(script), StepsToJournal())
    {
      hide LogSound, Advance, NoWrites, Outsides, Writes;
      AdvanceSplit(script, 1, 1);
      AdvanceSplit(script, 2, 1);
      AdvanceSplit(script, 3, 1);
      r := Tick();
      if r == Done {
        disk := disk.(started := true);
        if expected.Some? {
          r := Tick();
          if r == Done && disk.target.None? { r := Failed(StepRaised); }
          if r == Done { disk := disk.(backup := disk.target); }
        }
      }
      if r == Done { r := Tick(); }
      if r == Done {
        disk := disk.(stage := Some(next));
        r := Enter(Prepared);
      }
    }

    /** Promotes, verifies and closes; an exception takes the promotion back. */
    method Body() returns (r: Outcome)
      requires Valid() && disk.phase == Some(Prepared) && disk.stage == Some(next) && disk.receipt.None?
      requires NoPromotion(changes)
      requires undisturbed && expected.Some? ==> disk.backup == expected
      requires undisturbed ==> disk.target == base
      modifies `disk, `script, `undisturbed, `changes
      ensures Valid()
      ensures (undisturbed && r != Failed(Crashed) ==>
                (BomSettled(disk, base, next) <==> base == Some(next) || !RaisesTwice(old(script), 1, 5)))
      ensures r == Done ==> disk.receipt == Some(Success)
      ensures (undisturbed && Advance(old(script), 5).0 == Failed(Crashed) ==>
                && r == Failed(Crashed) && disk.receipt.None?
                && disk.target == if Advance(old(script), 1).0 == Done then Some(next) else base)
      ensures old(script) == [] && undisturbed ==> r == Done
      ensures Accounted()
      ensures (undisturbed && Advance(old(script), 5).0.Raised() ==>
                var ended := Advance(old(script), 5);
                if Advance(old(script), 1).0 == Done
                then Advance(ended.1, 3).0 == Done ==>
                    r == ended.0 && disk.receipt == Some(TakenBack) && disk.target == base
                else Advance(ended.1, 2).0 == Done ==>
                    r == ended.0 && disk.receipt == Some(TakenBack) && disk.target == base)
      ensures r == Done ==> Left(Some(next), Advance(old(script), 1).1, 2) == Some(next)
    {
      hide LogSound, NoWrites, Outsides, Writes;
      AdvanceSplit(script, 1, 4);
      r := Replace();
      var promoted := r == Done;
      if promoted { r := Complete(); }
      if r.Raised() { r := TakeBack(r, promoted); }
    }

    /** The replacement of the target by its staged content. */
    method Replace() returns (r: Outcome)
      requires Valid() && disk.phase == Some(Prepared) && disk.stage == Some(next) && disk.receipt.None?
      requires NoPromotion(changes)
      requires undisturbed && expected.Some? ==> disk.backup == expected
      modifies `disk, `script, `undisturbed, `changes
      ensures Valid() && disk == old(disk).(target := disk.target, stage := disk.stage)
      ensures (r, script) == Advance(old(script), 1)
      ensures r == Done ==> disk.target == Some(next)
      ensures undisturbed && r != Done ==> disk.target == old(disk).target
      ensures Accounted()
    {
      hide LogSound, Advance, NoWrites, Outsides, Writes;
      r := Tick();
      if r == Done {
        ghost var change := Promotion(Some(next));
        LogGrows(changes, change, base, disk.target, expected, next);
        OutsidesGrow(changes, change);
        changes := changes + [change];
        disk := disk.(target := disk.stage, stage := None);
      }
    }

    /** Records, verifies and receipts the replacement. */
    method Complete() returns (r: Outcome)
      requires Valid() && disk.phase == Some(Prepared) && disk.receipt.None? && disk.target == Some(next)
      modifies `disk, `script, `undisturbed, `changes
      ensures Valid() && disk.phase.Some? && disk.receipt == if r == Done then Some(Success) else None
      ensures undisturbed ==> (r, script) == Advance(old(script), 4) && disk.target == Some(next)
      ensures Accounted()
      ensures r == Done ==> Left(Some(next), old(script), 2) == Some(next)
    {
      hide LogSound, Advance, NoWrites, Outsides, Writes;
      AdvanceSplit(script, 1, 1);
      AdvanceSplit(script, 2, 1);
      AdvanceSplit(script, 3, 1);
      if Advance(script, 1).0 == Done { LeftSplit(disk.target, script, 1, 1); }
      r := Enter(BomPromoted);
      if r == Done { r := Tick(); }
      if r == Done && disk.target != Some(next) { r := Failed(Refused("promoted bytes changed")); }
      if r == Done { r := Enter(BomCompleted); }
      if r == Done { r := WriteReceipt(Success); }
    }

    /** What follows an exception of the body, or an interruption: the target is
        rolled back if it may be new, and the failure is raised. */
    method TakeBack(failure: Outcome, promoted: bool) returns (r: Outcome)
      requires Valid() && disk.phase.Some? && disk.receipt.None? && failure.Raised()
      requires undisturbed && !promoted ==> disk.target == base
      modifies `disk, `script, `undisturbed, `changes
      ensures Valid() && r != Done && disk.receipt != Some(Success)
      ensures (undisturbed && r != Failed(Crashed) ==>
                (disk.target == base <==> !RaisesNext(old(script)) || old(disk).target == base))
      ensures promoted && RaisesNext(old(script)) ==> r.Raised() && disk == old(disk).(target := disk.target)
      ensures NoWrites(old(script)) && old(disk).target != Some(next) ==> disk.target == old(disk).target
      ensures NoPromotion(old(changes)) ==> NoPromotion(changes)
      ensures Accounted()
      ensures (NoWrites(old(script)) && promoted ==>
                disk.target == if Advance(old(script), 1).0 == Done
                               then BomRolledBackTarget(old(disk), expected, next) else old(disk).target)
      ensures ((undisturbed || NoWrites(old(script))) && promoted && Advance(old(script), 3).0 == Done ==>
                if disk.target == expected then r == failure && disk.receipt == Some(TakenBack)
                else r.Raised() && disk.receipt.None?)
      ensures (undisturbed && !promoted && Advance(old(script), 2).0 == Done ==>
                r == failure && disk.receipt == Some(TakenBack))
    {
      hide LogSound, NoWrites, Outsides, Writes;
      AdvanceSplit(script, 1, 1);
      AdvanceSplit(script, 1, 2);
      if Advance(script, 1).0 == Done { AdvanceSplit(Advance(script, 1).1, 1, 1); }
      r := Done;
      if promoted { r := Rollback(); }
      if r == Done { r := Enter(BomRolledBack); }
      if r == Done { r := WriteReceipt(TakenBack); }
      if r == Done { r := failure; }
    }
  }

  /** Under at most one failing step a call fails to settle only as a recovery
      whose rollback is that step. */
  lemma OneRaiseSettlesBom(file: BomFile)
    requires OneRaise(file.script) && (file.disk.phase.None? || !RaisesNext(file.script))
    ensures !file.RollbackFails()
  {
    if RaisesTwice(file.script, file.StepsToJournal() + 1, file.StepsToJournal() + 5) {
      OneRaiseOnly(file.script, file.StepsToJournal() + 5, 0);
    }
  }

  /** A run without an outside writer whose retry ends in an error with the new
      content live and no receipt: power is cut after the replacement, and the
      rollback of the retry raises. */
  method BomRollbackRaises(next: Content) returns (file: BomFile, r: Outcome)
    ensures fresh(file) && file.Valid() && file.undisturbed && file.base.None? && file.next == next
    ensures r.Raised() && file.disk.target == Some(next) && file.disk.receipt.None?
  {
    CutAfter<Option<Content>>(4, 3);
    file := new BomFile(None, next, None, CutAt(4));
    r := file.Apply();
    file.script := [Moment([], Raise)];
    r := file.Apply();
  }
}
