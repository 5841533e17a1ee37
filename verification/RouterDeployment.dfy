/** Deploying the router authority files under a write-ahead journal while an
    outside writer may change live files at any step.  Digests are
    collision-free, so content stands for its own digest. */
module RouterDeployment {
  import opened Surroundings
  import opened Wrappers

  type Path = seq<string>
  type Content = nat

  /** One deployed file: where it goes and what it becomes. */
  datatype Entry = Entry(target: Path, next: Content)

  datatype Record = Record(prior: Option<Content>, started: bool, promoted: bool)
  {
    /** The journal says that promotion of this file may have happened. */
    predicate Flagged() {
      started || promoted
    }
  }

  datatype Phase =
    | LockAcquired | PreflightVerified | StageVerified | PromotionPrepared | Promoting | LiveTargetsVerified
    | Completed | FailedBeforeBundle | RollbackFailed | RolledBack

  datatype Journal = Journal(phase: Phase, bundleBound: bool, records: seq<Record>, created: set<Path>)

  datatype Receipt = Deployed | RolledBackReceipt | Recovered | PreconditionFailed | RollbackFailedReceipt

  /** What survives a crash. */
  datatype Disk = Disk(
    live: map<Path, Content>, dirs: set<Path>,
    journal: Option<Journal>, backups: map<nat, Content>, stage: map<nat, Content>, receipt: Option<Receipt>)

  /** Live files and directories before the transaction. */
  datatype Baseline = Baseline(live: map<Path, Content>, dirs: set<Path>)

  /** A change of a live file: by an outside writer, or by the transaction. */
  datatype Change =
    | Outside(path: Path, after: Option<Content>)
    | Promotion(index: nat, after: Option<Content>)
    | Restoration(index: nat, after: Option<Content>)

  /** Outside writers write or remove live files before a step. */
  type Edit = (Path, Option<Content>)
  type Script = seq<Moment<Edit>>

  const PRECONDITION := "live precondition no longer holds"

  predicate DistinctTargets(entries: seq<Entry>) {
    forall i, j :: 0 <= i < j < |entries| ==> entries[i].target != entries[j].target
  }

  /** Shared files that must hold certain content are not deployed ones. */
  predicate Apart(entries: seq<Entry>, preconditions: seq<(Path, Content)>) {
    forall i, j :: 0 <= i < |entries| && 0 <= j < |preconditions| ==> entries[i].target != preconditions[j].0
  }

  predicate Held(live: map<Path, Content>, preconditions: seq<(Path, Content)>) {
    forall j :: 0 <= j < |preconditions| ==> Get(live, preconditions[j].0) == Some(preconditions[j].1)
  }

  predicate Below(path: Path, dir: Path) {
    |dir| < |path| && dir <= path
  }

  /** Every directory above a file or a directory exists. */
  ghost predicate WellFormed(base: Baseline) {
    && (forall path, dir :: path in base.live && dir != [] && Below(path, dir) ==> dir in base.dirs)
    && (forall path, dir :: path in base.dirs && dir != [] && Below(path, dir) ==> dir in base.dirs)
  }

  function Edited(live: map<Path, Content>, edits: seq<Edit>): map<Path, Content> {
    if edits == [] then live
    else Put(Edited(live, edits[..|edits| - 1]), edits[|edits| - 1].0, edits[|edits| - 1].1)
  }

  // ---------------------------------------------------------------------
  // What the transaction may have done to the live files
  // ---------------------------------------------------------------------

  function Priors(records: seq<Record>): (r: seq<Option<Content>>)
    ensures |r| == |records| && forall i :: 0 <= i < |r| ==> r[i] == records[i].prior
  {
    seq(|records|, i requires 0 <= i < |records| => records[i].prior)
  }

  /** The path a change is about. */
  function Changed(change: Change, entries: seq<Entry>): Option<Path> {
    if change.Outside? then Some(change.path)
    else if change.index < |entries| then Some(entries[change.index].target)
    else None
  }

  function Stepped(live: map<Path, Content>, change: Change, entries: seq<Entry>): map<Path, Content> {
    if Changed(change, entries).None? then live else Put(live, Changed(change, entries).value, change.after)
  }

  /** The live files after all these changes. */
  function Replayed(live: map<Path, Content>, changes: seq<Change>, entries: seq<Entry>): map<Path, Content> {
    if changes == [] then live
    else Stepped(Replayed(live, changes[..|changes| - 1], entries), changes[|changes| - 1], entries)
  }

  /** The transaction only ever takes a live file from its recorded prior content
      to the bundle's, and from exactly the bundle's content back to its prior. */
  predicate ChangeSound(change: Change, live: map<Path, Content>, entries: seq<Entry>, priors: seq<Option<Content>>) {
    match change
    case Outside(_, _) => true
    case Promotion(i, after) =>
      i < |entries| == |priors| && Get(live, entries[i].target) == priors[i] && after == Some(entries[i].next)
    case Restoration(i, after) =>
      i < |entries| == |priors| && Get(live, entries[i].target) == Some(entries[i].next) && after == priors[i]
  }

  ghost predicate ChangesSound(
    live: map<Path, Content>, changes: seq<Change>, entries: seq<Entry>, priors: seq<Option<Content>>)
  {
    forall k :: 0 <= k < |changes| ==> ChangeSound(changes[k], Replayed(live, changes[..k], entries), entries, priors)
  }

  /** The outside edits in the log. */
  function Outsides(changes: seq<Change>): seq<Edit> {
    if changes == [] then []
    else
      var last := changes[|changes| - 1];
      Outsides(changes[..|changes| - 1]) + if last.Outside? then [(last.path, last.after)] else []
  }

  lemma OutsidesGrow(changes: seq<Change>, change: Change)
    ensures Outsides(changes + [change]) == Outsides(changes) + if change.Outside? then [(change.path, change.after)]
        else []
  {
    assert (changes + [change])[..|changes|] == changes;
  }

  lemma {:induction false} OutsidesOfMore(before: seq<Change>, after: seq<Change>)
    requires before <= after
    ensures Outsides(before) <= Outsides(after)
    decreases |after|
  {
    if before != after { OutsidesOfMore(before, after[..|after| - 1]); }
  }

  lemma WhenFirstCallFails(base: Baseline, live: map<Path, Content>, entries: seq<Entry>, script: Script)
    requires PromotedAsFar(base, live, entries, script, StepsToPromote(base.live, base.dirs, entries))
    requires FirstCallFails(base.live, base.dirs, entries, script)
    ensures Advance(script, AllSteps(base.live, base.dirs, entries)).0.Raised() && live != base.live
  {
    hide Advance, StepsToPromote;
    var i :| 0 <= i < |entries| && Get(base.live, entries[i].target) != Some(entries[i].next)
      && Advance(script, StepsToNew(base.live, base.dirs, entries, i)).0 == Done
      && Advance(Advance(script, AllSteps(base.live, base.dirs, entries)).1, |entries| - i).0.Raised();
    assert Get(live, entries[i].target) == Some(entries[i].next);
  }

  lemma FirstCallExactly(base: Baseline, d: Disk, entries: seq<Entry>, j: Journal, script: Script)
    requires JournalSound(base, d, entries, j) && (j.records != [] ==> |j.records| == |entries|)
    requires PromotedAsFar(base, d.live, entries, script, StepsToPromote(base.live, base.dirs, entries))
    requires Advance(script, AllSteps(base.live, base.dirs, entries)).0.Raised()
    ensures var rest := Advance(script, AllSteps(base.live, base.dirs, entries)).1;
            UndoFails(d.live, entries, j.records, rest) <==> FirstCallFails(base.live, base.dirs, entries, script)
  {
    hide Advance, StepsToPromote;
    var rest := Advance(script, AllSteps(base.live, base.dirs, entries)).1;
    if UndoFails(d.live, entries, j.records, rest) {
      var i :| 0 <= i < |entries| && i < |j.records| &&
        Get(d.live, entries[i].target) != j.records[i].prior && Advance(rest, |entries| - i).0.Raised();
      SlotOf(base, d, entries, j, i);
      assert Advance(script, StepsToNew(base.live, base.dirs, entries, i)).0 == Done;
    }
    if FirstCallFails(base.live, base.dirs, entries, script) {
      var i :| 0 <= i < |entries| && Get(base.live, entries[i].target) != Some(entries[i].next)
        && Advance(script, StepsToNew(base.live, base.dirs, entries, i)).0 == Done
            && Advance(rest, |entries| - i).0.Raised();
      assert Get(d.live, entries[i].target) == Some(entries[i].next);
      assert j.records != [];
      SlotOf(base, d, entries, j, i);
    }
  }

  /** Putting this file back is safe and needed: the journal flags it, it still is
      exactly the bundle's content, and its prior is backed up if there was one. */
  predicate Restorable(d: Disk, entries: seq<Entry>, records: seq<Record>, i: nat)
    requires i < |entries| && i < |records|
  {
    && records[i].Flagged() && Get(d.live, entries[i].target) == Some(entries[i].next)
    && (records[i].prior.Some? ==> Get(d.backups, i) == records[i].prior)
  }

  /** The journal flags it, and it can neither be left nor be put back. */
  predicate Drifted(d: Disk, entries: seq<Entry>, records: seq<Record>, i: nat)
    requires i < |entries| && i < |records|
  {
    && records[i].Flagged() && Get(d.live, entries[i].target) != records[i].prior
    && !Restorable(d, entries, records, i)
  }

  predicate AnyDrifted(d: Disk, entries: seq<Entry>, records: seq<Record>, from: nat) {
    exists i :: from <= i < |entries| && i < |records| && Drifted(d, entries, records, i)
  }

  /** A rollback that nobody else interferes with, whatever outside writers did
      before: exactly the restorable files it reached are back at their recorded
      prior content, however many others have drifted. */
  ghost predicate PutBackAsFar(
    before: Disk, live: map<Path, Content>, entries: seq<Entry>, records: seq<Record>, script: Script)
  {
    && (forall i: nat :: i < |entries| && i < |records| ==>
          Get(live, entries[i].target) ==
            if Advance(script, |entries| - i).0 == Done && Restorable(before, entries, records, i)
            then records[i].prior else Get(before.live, entries[i].target))
    && (forall path :: (forall i: nat :: i < |entries| && i < |records| ==> entries[i].target != path) ==>
          Get(live, path) == Get(before.live, path))
  }

  /** The same in the middle of a rollback: it has gone through the files from `from`. */
  ghost predicate PutBackDownTo(
    before: Disk, live: map<Path, Content>, entries: seq<Entry>, records: seq<Record>, from: nat)
  {
    && (forall i: nat :: i < |entries| && i < |records| ==>
          Get(live, entries[i].target) ==
            if from <= i && Restorable(before, entries, records, i)
            then records[i].prior else Get(before.live, entries[i].target))
    && (forall path :: (forall i: nat :: i < |entries| && i < |records| ==> entries[i].target != path) ==>
          Get(live, path) == Get(before.live, path))
  }

  lemma DriftedOneMore(d: Disk, entries: seq<Entry>, records: seq<Record>, i: nat)
    requires i < |entries| == |records|
    ensures AnyDrifted(d, entries, records, i) <==>
              Drifted(d, entries, records, i) || AnyDrifted(d, entries, records, i + 1)
  {
    hide Drifted;
  }

  lemma OneMorePutBack(
    start: Disk, before: map<Path, Content>, live: map<Path, Content>,
    entries: seq<Entry>, records: seq<Record>, i: nat, reached: bool)
    requires DistinctTargets(entries) && i < |entries| == |records|
    requires PutBackDownTo(start, before, entries, records, i + 1)
    requires forall path :: path != entries[i].target ==> Get(live, path) == Get(before, path)
    requires Get(live, entries[i].target) ==
               if reached && Restorable(start, entries, records, i) then records[i].prior
                   else Get(before, entries[i].target)
    ensures PutBackDownTo(start, live, entries, records, if reached then i else i + 1)
  {
    hide Restorable;
    forall m: nat | m < |entries| && m != i ensures entries[m].target != entries[i].target {
      if m < i {
        assert entries[m].target != entries[i].target;
      } else {
        assert entries[i].target != entries[m].target;
      }
    }
  }

  lemma PutBackWhenStopped(
    before: Disk, live: map<Path, Content>, entries: seq<Entry>, records: seq<Record>, script: Script, from: nat)
    requires |records| == |entries| && from <= |entries| && PutBackDownTo(before, live, entries, records, from)
    requires Advance(script, |entries| - from).0 == Done
    requires from > 0 ==> Advance(script, |entries| - from + 1).0 != Done
    ensures PutBackAsFar(before, live, entries, records, script)
  {
    hide Advance, Restorable;
    StepsAround(script, |entries| - from);
    if from > 0 { StepsAround(script, |entries| - from + 1); }
    forall i: nat | i < |entries|
      ensures Get(live, entries[i].target) ==
        if Advance(script, |entries| - i).0 == Done && Restorable(before, entries, records, i)
        then records[i].prior else Get(before.live, entries[i].target)
    {
      var steps := |entries| - i;
      assert steps <= |entries| - from || steps >= |entries| - from + 1;
    }
  }

  lemma NothingToPutBack(d: Disk, entries: seq<Entry>, records: seq<Record>, script: Script)
    requires records == []
    ensures PutBackAsFar(d, d.live, entries, records, script) && !AnyDrifted(d, entries, records, 0)
  {
  }

  /** What a failed rollback is receipted with, as far as its two last steps go. */
  function UndoReceipt(script: Script): Option<Receipt> {
    if Advance(script, 2).0 == Done then Some(RollbackFailedReceipt) else None
  }

  /** Exactly what a rollback that gets to its end, raised or not, achieves. */
  lemma UndoExactly(base: Baseline, before: Disk, after: Disk, entries: seq<Entry>, j: Journal, script: Script)
    requires JournalSound(base, before, entries, j) && |j.records| == |entries|
    requires OthersAsBefore(base, after.live, entries)
    requires RestoredAsFar(base, before.live, after.live, entries, script)
    requires Advance(script, |entries|).0 != Failed(Crashed)
    ensures after.live == base.live <==> !UndoFails(before.live, entries, j.records, script)
  {
    hide Advance, OthersAsBefore;
    if entries == [] {
      AllPriorIsUndone(base, after.live, entries);
    } else if !UndoFails(before.live, entries, j.records, script) {
      forall i: nat | i < |entries| ensures Get(after.live, entries[i].target) == Get(base.live, entries[i].target) {
        SlotOf(base, before, entries, j, i);
        StepsAround(script, |entries| - i);
        assert Get(before.live, entries[i].target) == j.records[i].prior || !Advance(script, |entries| - i).0.Raised();
      }
      AllPriorIsUndone(base, after.live, entries);
    } else {
      var i :| 0 <= i < |entries| && i < |j.records| &&
        Get(before.live, entries[i].target) != j.records[i].prior && Advance(script, |entries| - i).0.Raised();
      SlotOf(base, before, entries, j, i);
      assert Get(after.live, entries[i].target) == Get(before.live, entries[i].target);
    }
  }

  /** Whatever was logged since is an outside edit. */
  predicate OnlyOutside(before: seq<Change>, after: seq<Change>) {
    forall k :: |before| <= k < |after| ==> after[k].Outside?
  }

  /** Whatever was logged since is an outside edit or a promotion. */
  predicate OnlyPromotions(before: seq<Change>, after: seq<Change>) {
    forall k :: |before| <= k < |after| ==> after[k].Outside? || after[k].Promotion?
  }

  /** Whatever was logged since is an outside edit or puts back a flagged file. */
  predicate OnlyRestorations(before: seq<Change>, after: seq<Change>, records: seq<Record>) {
    forall k :: |before| <= k < |after| ==>
      after[k].Outside? || (after[k].Restoration? && after[k].index < |records| && records[after[k].index].Flagged())
  }

  /** No flag rises. */
  predicate FlagsFall(before: seq<Record>, after: seq<Record>) {
    |after| == |before| && forall i :: 0 <= i < |after| && after[i].Flagged() ==> before[i].Flagged()
  }

  // ---------------------------------------------------------------------
  // Counting steps
  // ---------------------------------------------------------------------

  /** How many of the targets exist. */
  function Present(live: map<Path, Content>, entries: seq<Entry>): nat {
    if entries == [] then 0
    else Present(live, entries[..|entries| - 1]) + if entries[|entries| - 1].target in live then 1 else 0
  }

  lemma {:induction false} PresentUpTo(live: map<Path, Content>, entries: seq<Entry>, i: nat)
    requires i < |entries|
    ensures Present(live, entries[..i + 1]) == Present(live, entries[..i]) + if entries[i].target in live then 1 else 0
    ensures i + 1 + Present(live, entries[..i + 1]) <= |entries| + Present(live, entries)
    decreases |entries| - i
  {
    assert entries[..i + 1][..i] == entries[..i];
    if i + 1 < |entries| { PresentUpTo(live, entries, i + 1); } else { assert entries[..i + 1] == entries; }
  }

  lemma NonePresent(live: map<Path, Content>)
    ensures Present(live, []) == 0
  {
  }

  /** The steps of an uninterrupted first call from the baseline: the journal, the
      bundle manifest, the capture and backup of every file, its stage, three
      phases and the missing directories; then four for each file, of which the
      third is its replacement; then two phases and the receipt. */
  function StepsToPromote(live: map<Path, Content>, dirs: set<Path>, entries: seq<Entry>): (r: nat)
    ensures r >= 5
  {
    5 + 2 * |entries| + Present(live, entries) + |MissingDirs(dirs, entries)|
  }

  function StepsToNew(live: map<Path, Content>, dirs: set<Path>, entries: seq<Entry>, i: nat): nat {
    StepsToPromote(live, dirs, entries) + 4 * i + 3
  }

  function AllSteps(live: map<Path, Content>, dirs: set<Path>, entries: seq<Entry>): nat {
    StepsToPromote(live, dirs, entries) + 4 * |entries| + 3
  }

  /** A rollback from these live files raises before it reaches one that has to be
      put back: it goes through the files last one first, a step each. */
  predicate UndoFails(live: map<Path, Content>, entries: seq<Entry>, records: seq<Record>, script: Script) {
    exists i :: 0 <= i < |entries| && i < |records| &&
      Get(live, entries[i].target) != records[i].prior && Advance(script, |entries| - i).0.Raised()
  }

  /** Going through the files last one first put back those it reached. */
  ghost predicate RestoredAsFar(
    base: Baseline, before: map<Path, Content>, live: map<Path, Content>, entries: seq<Entry>, script: Script)
  {
    forall i: nat :: i < |entries| ==>
      var source := if Advance(script, |entries| - i).0 == Done then base.live else before;
      Get(live, entries[i].target) == Get(source, entries[i].target)
  }

  /** Promoting the files in order, four steps each, after those `ahead`: a file is
      new exactly when its replacement was reached. */
  ghost predicate PromotedAsFar(
      base: Baseline, live: map<Path, Content>, entries: seq<Entry>, script: Script, ahead: nat) {
    forall i: nat :: i < |entries| ==>
      Get(live, entries[i].target) ==
        if Advance(script, ahead + 4 * i + 3).0 == Done then Some(entries[i].next)
            else Get(base.live, entries[i].target)
  }

  lemma PromotedLater(
    base: Baseline, live: map<Path, Content>, entries: seq<Entry>, script: Script, first: nat, ahead: nat)
    requires Advance(script, first).0 == Done ==> PromotedAsFar(base, live, entries, Advance(script, first).1, ahead)
    requires Advance(script, first).0 != Done ==> live == base.live
    ensures PromotedAsFar(base, live, entries, script, first + ahead)
  {
    hide Advance;
    forall i: nat | i < |entries|
      ensures Get(live, entries[i].target) == if Advance(script, first + ahead + 4 * i + 3).0 == Done
                                              then Some(entries[i].next) else Get(base.live, entries[i].target)
    {
      PromotedLaterAt(base, live, entries, script, first, ahead, i);
    }
  }

  lemma PromotedLaterAt(
    base: Baseline, live: map<Path, Content>, entries: seq<Entry>, script: Script, first: nat, ahead: nat, i: nat)
    requires Advance(script, first).0 == Done ==> PromotedAsFar(base, live, entries, Advance(script, first).1, ahead)
    requires Advance(script, first).0 != Done ==> live == base.live
    requires i < |entries|
    ensures Get(live, entries[i].target) == if Advance(script, first + ahead + 4 * i + 3).0 == Done
                                            then Some(entries[i].next) else Get(base.live, entries[i].target)
  {
    hide Advance;
    var at := ahead + 4 * i + 3;
    AdvanceSplit(script, first, at);
    assert first + at == first + ahead + 4 * i + 3;
  }

  /** A first call from these files and directories raises at some step after a file
      became new, and its rollback raises before it reaches that file. */
  predicate FirstCallFails(live: map<Path, Content>, dirs: set<Path>, entries: seq<Entry>, script: Script) {
    var (outcome, rest) := Advance(script, AllSteps(live, dirs, entries));
    outcome.Raised() &&
    exists i :: 0 <= i < |entries| && Get(live, entries[i].target) != Some(entries[i].next)
             && Advance(script, StepsToNew(live, dirs, entries, i)).0 == Done
             && Advance(rest, |entries| - i).0.Raised()
  }

  // ---------------------------------------------------------------------
  // Undisturbed transactions
  // ---------------------------------------------------------------------

  ghost predicate SlotSound(entries: seq<Entry>, records: seq<Record>, live: map<Path, Content>, i: nat)
    requires i < |entries| == |records|
  {
    var now := Get(live, entries[i].target);
    now == records[i].prior || (now == Some(entries[i].next) && records[i].Flagged())
  }

  ghost predicate OthersAsBefore(base: Baseline, live: map<Path, Content>, entries: seq<Entry>) {
    forall path :: (forall i :: 0 <= i < |entries| ==> entries[i].target != path) ==>
        Get(live, path) == Get(base.live, path)
  }

  ghost predicate Captured(base: Baseline, entries: seq<Entry>, records: seq<Record>) {
    && |records| == |entries|
    && forall i :: 0 <= i < |entries| ==> records[i].prior == Get(base.live, entries[i].target)
  }

  ghost predicate BackedUp(backups: map<nat, Content>, records: seq<Record>) {
    forall i: nat :: i < |records| && records[i].prior.Some? ==> Get(backups, i) == records[i].prior
  }

  /** Everything can still be put back from what the records say. */
  ghost predicate InFlight(base: Baseline, d: Disk, entries: seq<Entry>, records: seq<Record>, created: set<Path>) {
    && Captured(base, entries, records)
    && BackedUp(d.backups, records)
    && OthersAsBefore(base, d.live, entries)
    && (forall i: nat :: i < |entries| ==> SlotSound(entries, records, d.live, i))
    && base.dirs <= d.dirs <= base.dirs + created
    && created !! base.dirs
  }

  ghost predicate Undone(base: Baseline, d: Disk) {
    d.live == base.live && d.dirs == base.dirs
  }

  /** What a journal says of an undisturbed transaction is enough to undo it. */
  ghost predicate JournalSound(base: Baseline, d: Disk, entries: seq<Entry>, j: Journal) {
    if j.records == [] then Undone(base, d) else InFlight(base, d, entries, j.records, j.created) && [] !in j.created
  }

  /** Every reachable state of a transaction nobody disturbed. */
  ghost predicate DiskSound(base: Baseline, d: Disk, entries: seq<Entry>) {
    if d.journal.None? then Undone(base, d) else JournalSound(base, d, entries, d.journal.value)
  }

  /** A terminal receipt of an undisturbed transaction tells the truth. */
  ghost predicate ReceiptSound(base: Baseline, d: Disk, entries: seq<Entry>) {
    match d.receipt
    case Some(Deployed) => AllNew(d.live, entries)
    case Some(RolledBackReceipt) => d.live == base.live
    case Some(Recovered) => d.live == base.live
    case _ => true
  }

  function DiskPriors(d: Disk): seq<Option<Content>> {
    if d.journal.None? then [] else Priors(d.journal.value.records)
  }

  /** The log accounts for every live file, and every change fits the journal. */
  ghost predicate LogSound(base: Baseline, changes: seq<Change>, d: Disk, entries: seq<Entry>) {
    && d.live == Replayed(base.live, changes, entries)
    && ChangesSound(base.live, changes, entries, DiskPriors(d))
  }

  ghost predicate AllPrior(base: Baseline, live: map<Path, Content>, entries: seq<Entry>, from: nat) {
    forall i: nat :: from <= i < |entries| ==> Get(live, entries[i].target) == Get(base.live, entries[i].target)
  }

  predicate AllNew(live: map<Path, Content>, entries: seq<Entry>) {
    forall i :: 0 <= i < |entries| ==> Get(live, entries[i].target) == Some(entries[i].next)
  }

  /** At some moment since, every deployed file was new and every shared one as required. */
  ghost predicate Verified(
    live: map<Path, Content>, changes: seq<Change>, entries: seq<Entry>, preconditions: seq<(Path, Content)>, from: nat)
  {
    exists k: nat :: from <= k <= |changes| && AllNew(Replayed(live, changes[..k], entries), entries)
                     && Held(Replayed(live, changes[..k], entries), preconditions)
  }

  /** At some moment since, every file to be deployed was as recorded and every shared
      one as required. */
  ghost predicate Ready(
    live: map<Path, Content>, changes: seq<Change>, entries: seq<Entry>, preconditions: seq<(Path, Content)>,
    priors: seq<Option<Content>>, from: nat)
  {
    exists k: nat :: from <= k <= |changes| && Recorded(Replayed(live, changes[..k], entries), entries, priors)
                     && Held(Replayed(live, changes[..k], entries), preconditions)
  }

  predicate Recorded(live: map<Path, Content>, entries: seq<Entry>, priors: seq<Option<Content>>) {
    |priors| == |entries| && forall i :: 0 <= i < |entries| ==> Get(live, entries[i].target) == priors[i]
  }

  lemma VerifiedNow(
    live: map<Path, Content>, changes: seq<Change>, entries: seq<Entry>, preconditions: seq<(Path, Content)>, from: nat)
    requires from <= |changes| && AllNew(Replayed(live, changes, entries), entries)
    requires Held(Replayed(live, changes, entries), preconditions)
    ensures Verified(live, changes, entries, preconditions, from)
  {
    assert changes[..|changes|] == changes;
  }

  lemma ReadyNow(
    live: map<Path, Content>, changes: seq<Change>, entries: seq<Entry>, preconditions: seq<(Path, Content)>,
    priors: seq<Option<Content>>, from: nat)
    requires from <= |changes| && Recorded(Replayed(live, changes, entries), entries, priors)
    requires Held(Replayed(live, changes, entries), preconditions)
    ensures Ready(live, changes, entries, preconditions, priors, from)
  {
    assert changes[..|changes|] == changes;
  }

  lemma VerifiedLater(
    live: map<Path, Content>, changes: seq<Change>, longer: seq<Change>, entries: seq<Entry>,
    preconditions: seq<(Path, Content)>, from: nat, earlier: nat)
    requires changes <= longer && earlier <= from && Verified(live, changes, entries, preconditions, from)
    ensures Verified(live, longer, entries, preconditions, earlier)
  {
    hide AllNew, Held, Replayed;
    var k: nat :| from <= k <= |changes| && AllNew(Replayed(live, changes[..k], entries), entries)
                  && Held(Replayed(live, changes[..k], entries), preconditions);
    assert longer[..k] == changes[..k];
  }

  lemma ReadyLater(
    live: map<Path, Content>, changes: seq<Change>, longer: seq<Change>, entries: seq<Entry>,
    preconditions: seq<(Path, Content)>, priors: seq<Option<Content>>, from: nat, earlier: nat)
    requires changes <= longer && earlier <= from && Ready(live, changes, entries, preconditions, priors, from)
    ensures Ready(live, longer, entries, preconditions, priors, earlier)
  {
    hide Recorded, Held, Replayed;
    var k: nat :| from <= k <= |changes| && Recorded(Replayed(live, changes[..k], entries), entries, priors)
                  && Held(Replayed(live, changes[..k], entries), preconditions);
    assert longer[..k] == changes[..k];
  }

  lemma AllPriorIsUndone(base: Baseline, live: map<Path, Content>, entries: seq<Entry>)
    requires OthersAsBefore(base, live, entries) && AllPrior(base, live, entries, 0)
    ensures live == base.live
  {
    forall path ensures Get(live, path) == Get(base.live, path) {
      if i :| 0 <= i < |entries| && entries[i].target == path {
        assert Get(live, entries[i].target) == Get(base.live, path);
      }
    }
    SameLookups(live, base.live);
  }

  /** Changing target `i`, and only its file, to a recoverable content. */
  lemma SlotChanged(
      base: Baseline, before: Disk, after: Disk, entries: seq<Entry>, records: seq<Record>, created: set<Path>, i: nat)
    requires DistinctTargets(entries) && i < |entries| && InFlight(base, before, entries, records, created)
    requires after == before.(live := after.live)
    requires forall path :: path != entries[i].target ==> Get(after.live, path) == Get(before.live, path)
    requires SlotSound(entries, records, after.live, i)
    ensures InFlight(base, after, entries, records, created)
  {
    forall m: nat | m < |entries| ensures SlotSound(entries, records, after.live, m) {
      assert SlotSound(entries, records, before.live, m);
      if m < i { assert entries[m].target != entries[i].target; }
      if i < m { assert entries[i].target != entries[m].target; }
    }
  }

  /** The flags of the records may rise at any time, and fall where nothing is new. */
  lemma FlagsChanged(
      base: Baseline, d: Disk, entries: seq<Entry>, before: seq<Record>, after: seq<Record>, created: set<Path>)
    requires InFlight(base, d, entries, before, created) && Priors(after) == Priors(before)
    requires forall i: nat :: i < |before| && i < |after| && before[i].Flagged() && !after[i].Flagged() ==>
               Get(d.live, entries[i].target) == before[i].prior
    ensures InFlight(base, d, entries, after, created)
  {
    assert |after| == |Priors(after)| == |before|;
    forall i: nat | i < |entries| ensures SlotSound(entries, after, d.live, i) {
      assert SlotSound(entries, before, d.live, i) && Priors(after)[i] == Priors(before)[i];
    }
    forall i: nat | i < |after| ensures after[i].prior == before[i].prior {
      assert Priors(after)[i] == Priors(before)[i];
    }
  }

  // ---------------------------------------------------------------------
  // Directories
  // ---------------------------------------------------------------------

  /** The directories above targets that do not exist yet. */
  function MissingDirs(dirs: set<Path>, entries: seq<Entry>): set<Path> {
    set i, n | 0 <= i < |entries| && 1 <= n < |entries[i].target| && entries[i].target[..n] !in dirs ::
        entries[i].target[..n]
  }

  predicate Empty(live: map<Path, Content>, dirs: set<Path>, dir: Path) {
    && (forall path :: path in live ==> !Below(path, dir))
    && (forall other :: other in dirs ==> !Below(other, dir))
  }

  lemma DeepestExists(todo: set<Path>) returns (dir: Path)
    requires todo != {}
    ensures dir in todo && forall other :: other in todo ==> |other| <= |dir|
    decreases |todo|
  {
    dir :| dir in todo;
    var rest := todo - {dir};
    if rest != {} {
      var deepest := DeepestExists(rest);
      if |deepest| > |dir| { dir := deepest; }
    }
  }

  /** With all files back, a created directory whose deeper ones are gone is empty. */
  lemma DeepestIsEmpty(base: Baseline, d: Disk, created: set<Path>, todo: set<Path>, dir: Path)
    requires WellFormed(base) && d.live == base.live
    requires d.dirs <= base.dirs + todo && todo <= created && created !! base.dirs
    requires dir in todo && dir != [] && forall other :: other in todo ==> |other| <= |dir|
    ensures Empty(d.live, d.dirs, dir)
  {
  }

  lemma SavingIsSound(base: Baseline, before: Disk, after: Disk, entries: seq<Entry>, j: Journal)
    requires JournalSound(base, before, entries, j) && after == before.(journal := Some(j))
    ensures DiskSound(base, after, entries) && JournalSound(base, after, entries, j)
  {
  }

  lemma LogGrows(base: Baseline, changes: seq<Change>, change: Change, before: Disk, after: Disk, entries: seq<Entry>)
    requires LogSound(base, changes, before, entries)
    requires ChangeSound(change, before.live, entries, DiskPriors(before))
    requires DiskPriors(after) == DiskPriors(before) && after.live == Replayed(base.live, changes + [change], entries)
    ensures LogSound(base, changes + [change], after, entries)
  {
    var longer := changes + [change];
    forall k | 0 <= k < |longer|
      ensures ChangeSound(longer[k], Replayed(base.live, longer[..k], entries), entries, DiskPriors(after))
    {
      if k < |changes| {
        assert longer[..k] == changes[..k] && longer[k] == changes[k];
      } else {
        assert longer[..k] == changes;
      }
    }
  }

  lemma OneChange(base: Baseline, changes: seq<Change>, change: Change, entries: seq<Entry>)
    ensures Replayed(base.live, changes + [change], entries) ==
        Stepped(Replayed(base.live, changes, entries), change, entries)
  {
    assert (changes + [change])[..|changes|] == changes;
  }

  function OutsideChanges(edits: seq<Edit>): (r: seq<Change>)
    ensures |r| == |edits| && forall i :: 0 <= i < |r| ==> r[i] == Outside(edits[i].0, edits[i].1)
  {
    seq(|edits|, i requires 0 <= i < |edits| => Outside(edits[i].0, edits[i].1))
  }

  /** What an outside writer does is accounted for as its own. */
  lemma {:induction false} EditsLogged(
      base: Baseline, changes: seq<Change>, before: Disk, edits: seq<Edit>, entries: seq<Entry>)
    requires LogSound(base, changes, before, entries)
    ensures LogSound(base, changes + OutsideChanges(edits), before.(live := Edited(before.live, edits)), entries)
    ensures Outsides(changes + OutsideChanges(edits)) == Outsides(changes) + edits
    decreases |edits|
  {
    hide ChangesSound, Replayed, Outsides;
    if edits == [] {
      assert changes + OutsideChanges(edits) == changes;
    } else {
      var init, last := edits[..|edits| - 1], edits[|edits| - 1];
      EditsLogged(base, changes, before, init, entries);
      var half := before.(live := Edited(before.live, init));
      OneChange(base, changes + OutsideChanges(init), Outside(last.0, last.1), entries);
      LogGrows(base, changes + OutsideChanges(init), Outside(last.0, last.1), half,
          before.(live := Edited(before.live, edits)), entries);
      assert changes + OutsideChanges(edits) == changes + OutsideChanges(init) + [Outside(last.0, last.1)];
      OutsidesGrow(changes + OutsideChanges(init), Outside(last.0, last.1));
      assert edits == init + [last];
    }
  }

  lemma DirRemoved(
      base: Baseline, before: Disk, after: Disk, entries: seq<Entry>, j: Journal, created: set<Path>, dir: Path)
    requires JournalSound(base, before, entries, j) && after == before.(dirs := before.dirs - {dir})
    requires dir in created && created !! base.dirs
    requires j.records == [] ==> dir !in before.dirs
    ensures JournalSound(base, after, entries, j)
  {
    hide SlotSound;
    if j.records == [] { assert after.dirs == before.dirs; }
    else {
      forall i: nat | i < |entries| ensures SlotSound(entries, j.records, after.live, i) {
        assert SlotSound(entries, j.records, before.live, i);
      }
    }
  }

  lemma DirCreated(base: Baseline, before: Disk, after: Disk, entries: seq<Entry>, j: Journal, dir: Path)
    requires JournalSound(base, before, entries, j) && after == before.(dirs := before.dirs + {dir})
    requires j.records != [] && dir in j.created
    ensures JournalSound(base, after, entries, j)
  {
    hide SlotSound;
    forall i: nat | i < |entries| ensures SlotSound(entries, j.records, after.live, i) {
      assert SlotSound(entries, j.records, before.live, i);
    }
  }

  lemma FileChanged(base: Baseline, before: Disk, after: Disk, entries: seq<Entry>, j: Journal, i: nat)
    requires DistinctTargets(entries) && i < |entries| && JournalSound(base, before, entries, j)
    requires j.records != [] && |j.records| == |entries|
    requires after == before.(live := after.live)
    requires forall path :: path != entries[i].target ==> Get(after.live, path) == Get(before.live, path)
    requires SlotSound(entries, j.records, after.live, i)
    ensures JournalSound(base, after, entries, j)
  {
    SlotChanged(base, before, after, entries, j.records, j.created, i);
  }

  /** Saving never forgets the prior contents a logged change refers to. */
  lemma LogKept(base: Baseline, changes: seq<Change>, before: Disk, after: Disk, entries: seq<Entry>)
    requires LogSound(base, changes, before, entries) && after.live == before.live
    requires DiskPriors(before) != [] ==> DiskPriors(after) == DiskPriors(before)
    requires entries != []
    ensures LogSound(base, changes, after, entries)
  {
    forall k | 0 <= k < |changes|
      ensures ChangeSound(changes[k], Replayed(base.live, changes[..k], entries), entries, DiskPriors(after))
    {
      assert ChangeSound(changes[k], Replayed(base.live, changes[..k], entries), entries, DiskPriors(before));
    }
  }

  function FlaggedAs(record: Record, promoted: bool): Record {
    if promoted then record.(promoted := true) else record.(started := true)
  }

  predicate NoneFlagged(records: seq<Record>) {
    forall i :: 0 <= i < |records| ==> !records[i].Flagged()
  }

  /** Only records and created directories matter to what can be undone. */
  lemma PhaseDoesNotMatter(base: Baseline, d: Disk, entries: seq<Entry>, a: Journal, b: Journal)
    requires a.records == b.records && a.created == b.created
    ensures JournalSound(base, d, entries, a) == JournalSound(base, d, entries, b)
  {
  }

  /** What only the transaction's own workspace holds does not matter either. */
  lemma WorkspaceDoesNotMatter(base: Baseline, before: Disk, after: Disk, entries: seq<Entry>, j: Journal)
    requires after == before.(stage := after.stage, backups := after.backups, journal := after.journal)
    requires after.backups == before.backups || j.records == []
    ensures JournalSound(base, before, entries, j) == JournalSound(base, after, entries, j)
  {
  }

  lemma CreatedAreNew(base: Baseline, d: Disk, entries: seq<Entry>, j: Journal)
    requires JournalSound(base, d, entries, j)
    ensures (j.records != [] ==>
              j.created !! base.dirs && d.dirs <= base.dirs + j.created && base.dirs <= d.dirs && [] !in j.created)
    ensures j.records == [] ==> Undone(base, d)
    ensures j.records != [] && AllPrior(base, d.live, entries, 0) ==> d.live == base.live
  {
    if j.records != [] && AllPrior(base, d.live, entries, 0) { AllPriorIsUndone(base, d.live, entries); }
  }

  class Deployment {
    const entries: seq<Entry>
    const preconditions: seq<(Path, Content)>

    // Survives a crash.
    var disk: Disk

    // The running process's copy of the journal.
    var journal: Journal

    var script: Script

    // Live files and directories when the transaction was first started.
    ghost const base: Baseline

    // No outside writer has acted yet.
    ghost var undisturbed: bool

    // Every change the transaction made to a live file.
    ghost var changes: seq<Change>

    constructor (entries: seq<Entry>, preconditions: seq<(Path, Content)>, live: map<Path, Content>, dirs: set<Path>)
      requires DistinctTargets(entries) && entries != [] && WellFormed(Baseline(live, dirs))
      requires Apart(entries, preconditions)
      ensures Valid() && undisturbed && changes == [] && disk.journal.None? && disk.receipt.None?
      ensures this.entries == entries && this.preconditions == preconditions && base == Baseline(live, dirs)
    {
      this.entries, this.preconditions := entries, preconditions;
      disk := Disk(live, dirs, None, map[], map[], None);
      journal, script := Journal(LockAcquired, false, [], {}), [];
      base, undisturbed, changes := Baseline(live, dirs), true, [];
    }

    ghost predicate Bundle() {
      DistinctTargets(entries) && entries != [] && WellFormed(base) && Apart(entries, preconditions)
    }

    /** Between calls, whatever interrupted the earlier ones. */
    ghost predicate Valid()
      reads this
    {
      && Bundle()
      && (disk.journal.Some? && disk.journal.value.records != [] ==> |disk.journal.value.records| == |entries|)
      && (disk.journal.Some? && !disk.journal.value.bundleBound ==> disk.journal.value.records == [])
      && LogSound(base, changes, disk, entries) && FlagSound()
      && (undisturbed ==> if disk.receipt.None? then DiskSound(base, disk, entries)
          else ReceiptSound(base, disk, entries))
    }

    /** While a process works on the transaction. */
    ghost predicate Running()
      reads this
    {
      && Bundle() && disk.journal.Some? && disk.receipt.None?
      && (journal.records != [] ==> |journal.records| == |entries|)
      && (disk.journal.value.records != [] ==> |disk.journal.value.records| == |entries|)
      && LogSound(base, changes, disk, entries) && FlagSound()
      && (disk.journal.value.records != [] ==> Priors(disk.journal.value.records) == Priors(journal.records))
      && (disk.journal.value.records == [] ==> NoneFlagged(journal.records) && journal.created == {})
      && (!journal.bundleBound ==> journal.records == [])
      && (!disk.journal.value.bundleBound ==> disk.journal.value.records == [])
      && (undisturbed ==> DiskSound(base, disk, entries) && JournalSound(base, disk, entries, journal))
    }

    /** The flag says what the log says. */
    ghost predicate FlagSound()
      reads this
    {
      undisturbed <==> Outsides(changes) == []
    }

    /** Outside edits leave the script only for the log, in order, and nothing ever
        leaves the log: what else is logged is the transaction's own doing. */
    twostate predicate Accounted()
      reads this
    {
      && old(changes) <= changes
      && Outsides(changes) + Writes(script) == old(Outsides(changes) + Writes(script))
      && (undisturbed ==> old(undisturbed))
      && (NoWrites(old(script)) ==> NoWrites(script) && undisturbed == old(undisturbed))
    }

    /** The transaction itself changed no live file. */
    twostate predicate Watched()
      reads this
    {
      Accounted() && OnlyOutside(old(changes), changes)
    }

    /** One step is about to happen: the outside writer may act before it, and it
        may raise or never happen. */
    method Tick() returns (r: Outcome)
      modifies `disk, `script, `undisturbed, `changes
      requires LogSound(base, changes, disk, entries) && FlagSound()
      ensures LogSound(base, changes, disk, entries) && FlagSound()
      ensures disk == old(disk).(live := disk.live)
      ensures undisturbed ==> disk == old(disk)
      ensures Watched()
      ensures old(script) == [] ==> r == Done && script == [] && disk == old(disk) && undisturbed == old(undisturbed)
      ensures old(script) != [] ==> r == OutcomeOf(old(script)[0].event) && script == old(script)[1..]
      ensures old(script) != [] ==> disk.live == Edited(old(disk).live, old(script)[0].writes)
      ensures (r, script) == Advance(old(script), 1)
      ensures NoWrites(old(script)) ==> disk == old(disk)
    {
      hide ChangesSound, Replayed, Outsides, Writes, NoWrites, Advance, Outsides, Writes, NoWrites, Advance;
      FirstStep(script);
      if script == [] { return Done; }
      var moment := script[0];
      script := script[1..];
      EditsLogged(base, changes, disk, moment.writes, entries);
      changes := changes + OutsideChanges(moment.writes);
      disk := disk.(live := Edited(disk.live, moment.writes));
      undisturbed := undisturbed && moment.writes == [];
      match moment.event
      case Proceed => return Done;
      case Raise => return Failed(StepRaised);
      case PowerCut => return Failed(Crashed);
    }

    method Save() returns (r: Outcome)
      requires Running()
      modifies `disk, `script, `undisturbed, `changes
      ensures Watched()
      ensures Running()
      ensures disk == old(disk).(live := disk.live, journal := if r == Done then Some(journal) else old(disk).journal)
      ensures undisturbed ==> disk.live == old(disk).live
      ensures (old(script) == [] ==>
                r == Done && script == [] && disk.live == old(disk).live && undisturbed == old(undisturbed))
      ensures (r, script) == Advance(old(script), 1)
      ensures NoWrites(old(script)) ==> disk.live == old(disk).live
    {
      hide JournalSound, ChangesSound, Replayed, WellFormed, DistinctTargets, Apart, Outsides, Writes;
      hide NoWrites, Advance;
      r := Tick();
      if r == Done {
        ghost var before := disk;
        disk := disk.(journal := Some(journal));
        if undisturbed { SavingIsSound(base, before, disk, entries, journal); }
        LogKept(base, changes, before, disk, entries);
      }
    }

    /** Replaces the bundle's content of one file by its recorded prior. */
    method PutBack(i: nat)
      requires Running() && i < |journal.records| == |entries| && disk.journal.value.records != []
      requires journal.records[i].Flagged() && Get(disk.live, entries[i].target) == Some(entries[i].next)
      requires journal.records[i].prior.Some? ==> Get(disk.backups, i) == journal.records[i].prior
      modifies `disk, `changes
      ensures Accounted() && changes == old(changes) + [Restoration(i, journal.records[i].prior)]
      ensures Running() && disk == old(disk).(live := disk.live)
      ensures Get(disk.live, entries[i].target) == journal.records[i].prior
      ensures forall path :: path != entries[i].target ==> Get(disk.live, path) == Get(old(disk).live, path)
    {
      hide JournalSound, ChangesSound, Replayed, WellFormed, DistinctTargets, Apart, Outsides, Writes;
      hide NoWrites, Advance;
      var target, record := entries[i].target, journal.records[i];
      ghost var before := disk;
      PriorsAgree(disk.journal.value.records, journal.records, i);
      disk := disk.(live := if record.prior.None? then disk.live - {target} else disk.live[target := disk.backups[i]]);
      ghost var change := Restoration(i, record.prior);
      OneChange(base, changes, change, entries);
      LogGrows(base, changes, change, before, disk, entries);
      OutsidesGrow(changes, change);
      changes := changes + [change];
      if undisturbed {
        FileRestored(base, before, disk, entries, disk.journal.value, i);
        FileRestored(base, before, disk, entries, journal, i);
      }
    }

    /** Notes that one file is back at its prior content. */
    method Unflag(i: nat)
      requires Running() && i < |journal.records| == |entries|
      requires Get(disk.live, entries[i].target) == journal.records[i].prior
      modifies `journal
      ensures Running() && journal == old(journal).(records := journal.records)
      ensures FlagsFall(old(journal).records, journal.records)
      ensures forall m: nat :: m < |journal.records| && m != i ==> journal.records[m] == old(journal).records[m]
    {
      hide JournalSound, ChangesSound, Replayed, WellFormed, DistinctTargets, Apart;
      if undisturbed { Unflagged(base, disk, entries, journal, i); }
      PriorsKept(journal.records, i);
      journal := journal.(records := journal.records[i := journal.records[i].(started := false, promoted := false)]);
    }

    /** Puts one file back when this transaction replaced it and nobody has
        touched it since; `kept` says that it had to be left alone. */
    method RestoreRecord(i: nat) returns (r: Outcome, kept: bool)
      requires Running() && i < |journal.records| == |entries|
      modifies `disk, `script, `undisturbed, `journal, `changes
      ensures Accounted() && OnlyRestorations(old(changes), changes, old(journal).records)
      ensures Running() && journal == old(journal).(records := journal.records)
      ensures FlagsFall(old(journal).records, journal.records)
      ensures disk == old(disk).(live := disk.live)
      ensures (r == Done && undisturbed ==>
                !kept && Get(disk.live, entries[i].target) == Get(base.live, entries[i].target))
      ensures (undisturbed ==>
                forall path :: path != entries[i].target ==> Get(disk.live, path) == Get(old(disk).live, path))
      ensures (r, script) == Advance(old(script), 1)
      ensures undisturbed && r != Done ==> Get(disk.live, entries[i].target) == Get(old(disk).live, entries[i].target)
      ensures forall m: nat :: m < |journal.records| && m != i ==> journal.records[m] == old(journal).records[m]
      ensures (NoWrites(old(script)) ==>
                && (forall path :: path != entries[i].target ==> Get(disk.live, path) == Get(old(disk).live, path))
                && Get(disk.live, entries[i].target) ==
                     (if r == Done && Restorable(old(disk), entries, old(journal).records, i)
                      then old(journal).records[i].prior else Get(old(disk).live, entries[i].target))
                && (r == Done ==> (kept <==> Drifted(old(disk), entries, old(journal).records, i))))
    {
      hide JournalSound, ChangesSound, Replayed, WellFormed, DistinctTargets, Apart, Outsides, Writes;
      hide NoWrites, Advance;
      kept := false;
      r := Tick();
      if r == Done {
        var now, record := Get(disk.live, entries[i].target), journal.records[i];
        if undisturbed { SlotOf(base, disk, entries, journal, i); }
        if now == record.prior {
          Unflag(i);
        } else if record.Flagged() {
          kept := now != Some(entries[i].next) || (record.prior.Some? && Get(disk.backups, i) != record.prior);
          if !kept {
            PutBack(i);
            Unflag(i);
          }
        }
      }
    }

    /** Goes through the files, last one first. */
    method RestoreTargets() returns (r: Outcome, kept: bool)
      requires Running() && |journal.records| == |entries|
      modifies `disk, `script, `undisturbed, `journal, `changes
      ensures Accounted() && OnlyRestorations(old(changes), changes, old(journal).records)
      ensures Running() && journal == old(journal).(records := journal.records)
      ensures FlagsFall(old(journal).records, journal.records)
      ensures disk == old(disk).(live := disk.live)
      ensures r == Done && undisturbed ==> !kept && AllPrior(base, disk.live, entries, 0)
      ensures (r, script) == Advance(old(script), |entries|)
      ensures undisturbed ==> RestoredAsFar(base, old(disk).live, disk.live, entries, old(script))
      ensures NoWrites(old(script)) ==> PutBackAsFar(old(disk), disk.live, entries, old(journal).records, old(script))
      ensures NoWrites(old(script)) && r == Done ==> (kept <==> AnyDrifted(old(disk), entries, old(journal).records, 0))
    {
      hide JournalSound, ChangesSound, Replayed, WellFormed, Outsides, Writes, NoWrites, Advance;
      hide PutBackAsFar;
      r, kept := Done, false;
      NoSteps(script);
      for i := |entries| downto 0
        invariant Accounted() && OnlyRestorations(old(changes), changes, old(journal).records)
        invariant Running() && journal == old(journal).(records := journal.records)
        invariant FlagsFall(old(journal).records, journal.records)
        invariant disk == old(disk).(live := disk.live)
        invariant undisturbed ==> !kept && AllPrior(base, disk.live, entries, i)
        invariant (undisturbed ==>
                  forall m: nat ::
                    m < i ==> Get(disk.live, entries[m].target) == Get(old(disk).live, entries[m].target))
        invariant Advance(old(script), |entries| - i) == (Done, script)
        invariant r == Done
        invariant forall m: nat :: m < i ==> journal.records[m] == old(journal).records[m]
        invariant NoWrites(old(script)) ==> PutBackDownTo(old(disk), disk.live, entries, old(journal).records, i)
        invariant NoWrites(old(script)) ==> (kept <==> AnyDrifted(old(disk), entries, old(journal).records, i))
      {
        ghost var before := disk.live;
        AdvanceSplit(old(script), |entries| - i - 1, 1);
        var left;
        r, left := RestoreRecord(i);
        if NoWrites(old(script)) {
          DriftedOneMore(old(disk), entries, old(journal).records, i);
          OneMorePutBack(old(disk), before, disk.live, entries, old(journal).records, i, r == Done);
        }
        if undisturbed { OthersStay(entries, before, disk.live, i); }
        if r != Done {
          StepsAround(old(script), |entries| - i - 1);
          StepsAround(old(script), |entries| - i);
          if NoWrites(old(script)) {
            PutBackWhenStopped(old(disk), disk.live, entries, old(journal).records, old(script), i + 1);
          }
          return;
        }
        kept := kept || left;
      }
      StepsAround(old(script), |entries|);
      if NoWrites(old(script)) {
        PutBackWhenStopped(old(disk), disk.live, entries, old(journal).records, old(script), 0);
      }
    }

    /** Removes the directories it created, deepest first, where they are empty;
        a failure to remove one is ignored. */
    method RemoveCreated() returns (r: Outcome)
      requires Running() && (journal.created != {} ==> journal.records != [])
      modifies `disk, `script, `undisturbed, `changes
      ensures Watched()
      ensures Running() && disk == old(disk).(live := disk.live, dirs := disk.dirs)
      ensures old(disk).dirs - journal.created <= disk.dirs <= old(disk).dirs
      ensures r == Done || r == Failed(Crashed)
      ensures undisturbed ==> disk.live == old(disk).live
      ensures old(script) == [] && undisturbed && old(disk).live == base.live ==> disk.dirs == base.dirs
      ensures old(script) == [] ==> r == Done && script == [] && undisturbed == old(undisturbed)
      ensures NoWrites(old(script)) ==> disk.live == old(disk).live
    {
      hide JournalSound, ChangesSound, Replayed, WellFormed, DistinctTargets, Empty, NoneFlagged, Outsides, Undone;
      hide Writes, NoWrites, Advance;
      r := Done;
      var todo := journal.created;
      if undisturbed { CreatedAreNew(base, disk, entries, journal); }
      while todo != {}
        invariant Watched()
        invariant Running() && disk == old(disk).(live := disk.live, dirs := disk.dirs) && todo <= journal.created
        invariant old(disk).dirs - journal.created <= disk.dirs <= old(disk).dirs
        invariant undisturbed ==> disk.live == old(disk).live
        invariant undisturbed ==>
            journal.records == [] || (journal.created !! base.dirs && [] !in journal.created && base.dirs <= disk.dirs)
        invariant journal.records == [] && undisturbed ==> Undone(base, disk)
        invariant r == Done
        invariant NoWrites(old(script)) ==> disk.live == old(disk).live
        invariant old(script) == [] ==> script == [] && undisturbed == old(undisturbed)
        invariant (old(script) == [] && undisturbed && disk.live == base.live && journal.records != [] ==>
                  disk.dirs <= base.dirs + todo)
        decreases todo
      {
        ghost var deepest := DeepestExists(todo);
        var dir :| dir in todo && forall other :: other in todo ==> |other| <= |dir|;
        var step := Tick();
        if step == Failed(Crashed) { return step; }
        if undisturbed && disk.live == base.live && disk.dirs <= base.dirs + todo {
          DeepestIsEmpty(base, disk, journal.created, todo, dir);
        }
        if step == Done && dir in disk.dirs && Empty(disk.live, disk.dirs, dir) {
          ghost var before := disk;
          disk := disk.(dirs := disk.dirs - {dir});
          if undisturbed {
            DirRemoved(base, before, disk, entries, disk.journal.value, journal.created, dir);
            DirRemoved(base, before, disk, entries, journal, journal.created, dir);
          }
        }
        todo := todo - {dir};
      }
    }

    /** Puts every file back that is still the transaction's own and removes its
        directories; fails when it had to leave a file alone. */
    method Rollback() returns (r: Outcome)
      requires Running()
      modifies `disk, `script, `undisturbed, `journal, `changes
      ensures Accounted() && OnlyRestorations(old(changes), changes, old(journal).records)
      ensures Running() && journal == old(journal).(records := journal.records)
      ensures disk == old(disk).(live := disk.live, dirs := disk.dirs)
      ensures r == Done && undisturbed ==> disk.live == base.live
      ensures old(script) == [] && undisturbed ==> disk.dirs == base.dirs
      ensures (old(script) == [] ==>
                && script == [] && undisturbed == old(undisturbed) && (undisturbed ==> r == Done)
                && (r == Done || r.Raised()))
      ensures (undisturbed && r != Failed(Crashed) ==>
                (disk.live == base.live <==> !UndoFails(old(disk).live, entries, old(journal).records, old(script))))
      ensures (old(journal).records != [] && Advance(old(script), |entries|).0.Raised() ==>
                (r, script) == Advance(old(script), |entries|))
      ensures NoWrites(old(script)) ==> PutBackAsFar(old(disk), disk.live, entries, old(journal).records, old(script))
      ensures NoWrites(old(script)) && r == Done ==> !AnyDrifted(old(disk), entries, old(journal).records, 0)
      ensures (NoWrites(old(script)) && old(journal).records != [] && Advance(old(script), |entries|).0 == Done ==>
                (r == Done || r == Failed(Crashed) || AnyDrifted(old(disk), entries, old(journal).records, 0)))
      ensures old(script) == [] ==> (r == Done <==> !AnyDrifted(old(disk), entries, old(journal).records, 0))
    {
      hide JournalSound, ChangesSound, Replayed, WellFormed, DistinctTargets, NoneFlagged, AllPrior, Outsides;
      hide Writes, NoWrites, Advance;
      r := Done;
      NothingToCome<Edit>(|entries|);
      var kept := false;
      if undisturbed { CreatedAreNew(base, disk, entries, journal); }
      if journal.records != [] { r, kept := RestoreTargets(); }
      if undisturbed && old(journal).records != [] && r != Failed(Crashed) {
        OthersOf(base, disk, entries, journal);
        UndoExactly(base, old(disk), disk, entries, old(journal), old(script));
      }
      if undisturbed { CreatedAreNew(base, disk, entries, journal); }
      if NoWrites(script) && journal.records == [] {
        NothingToPutBack(disk, entries, journal.records, old(script));
      }
      if r == Done { r := RemoveCreated(); }
      if r == Done && kept { r := Failed(Refused("rollback refused to overwrite drifted targets")); }
    }

    /** Writes the terminal receipt, once. */
    method WriteReceipt(outcome: Receipt) returns (r: Outcome)
      requires Running()
      requires undisturbed ==> ReceiptSound(base, disk.(receipt := Some(outcome)), entries)
      modifies `disk, `script, `undisturbed, `changes
      ensures Watched()
      ensures Valid() && disk == old(disk).(live := disk.live, receipt := if r == Done then Some(outcome) else None)
      ensures undisturbed ==> disk.live == old(disk).live
      ensures r == Done || Running()
      ensures (old(script) == [] ==>
                r == Done && script == [] && disk.live == old(disk).live && undisturbed == old(undisturbed))
      ensures (r, script) == Advance(old(script), 1)
      ensures NoWrites(old(script)) ==> disk.live == old(disk).live
    {
      hide JournalSound, ChangesSound, Replayed, WellFormed, DistinctTargets, NoneFlagged, Apart, Outsides;
      hide Writes, NoWrites, Advance;
      r := Tick();
      if r == Done { disk := disk.(receipt := Some(outcome)); }
    }

    /** Saves a phase. */
    method Enter(phase: Phase) returns (r: Outcome)
      requires Running()
      modifies `disk, `script, `undisturbed, `journal, `changes
      ensures Watched()
      ensures Running() && journal == old(journal).(phase := phase)
      ensures disk == old(disk).(live := disk.live, journal := if r == Done then Some(journal) else old(disk).journal)
      ensures undisturbed ==> disk.live == old(disk).live
      ensures (old(script) == [] ==>
                r == Done && script == [] && disk.live == old(disk).live && undisturbed == old(undisturbed))
      ensures (r, script) == Advance(old(script), 1)
      ensures NoWrites(old(script)) ==> disk.live == old(disk).live
    {
      hide JournalSound, ChangesSound, Replayed, WellFormed, DistinctTargets, NoneFlagged, Apart, Outsides;
      hide Writes, NoWrites, Advance;
      if undisturbed { PhaseDoesNotMatter(base, disk, entries, journal, journal.(phase := phase)); }
      journal := journal.(phase := phase);
      r := Save();
    }

    /** Closes with a phase and the receipt that goes with it. */
    method Close(last: Phase, outcome: Receipt) returns (r: Outcome)
      requires Running()
      requires undisturbed ==> ReceiptSound(base, disk.(receipt := Some(outcome)), entries)
      modifies `disk, `script, `undisturbed, `journal, `changes
      ensures Watched()
      ensures Valid() && (r == Done || Running()) && disk.journal.Some? && journal == old(journal).(phase := last)
      ensures disk.dirs == old(disk).dirs && disk.receipt == if r == Done then Some(outcome) else None
      ensures undisturbed ==> disk.live == old(disk).live
      ensures (r, script) == Advance(old(script), 2)
      ensures NoWrites(old(script)) ==> disk.live == old(disk).live
    {
      hide JournalSound, ChangesSound, Replayed, WellFormed, DistinctTargets, NoneFlagged, Apart, Outsides;
      hide Writes, NoWrites, Advance;
      hide AllNew;
      AdvanceSplit(script, 1, 1);
      r := Enter(last);
      if r == Done { r := WriteReceipt(outcome); }
    }

    /** Undoes the transaction and closes it with `outcome`; an exception on the
        way is recorded, receipted and raised. */
    method Undo(outcome: Receipt) returns (r: Outcome)
      requires Running() && outcome != Deployed
      modifies `disk, `script, `undisturbed, `journal, `changes
      ensures Accounted() && OnlyRestorations(old(changes), changes, old(journal).records)
      ensures Valid()
      ensures if r == Done then disk.receipt == Some(outcome)
          else disk.receipt == None || disk.receipt == Some(RollbackFailedReceipt)
      ensures (undisturbed && r != Failed(Crashed) ==>
                (disk.live == base.live <==> !UndoFails(old(disk).live, entries, old(journal).records, old(script))))
      ensures (old(journal).records != [] && Advance(old(script), |entries|).0.Raised() ==>
                r.Failed? && disk.receipt == UndoReceipt(Advance(old(script), |entries|).1))
      ensures old(script) == [] && undisturbed ==> r == Done && disk.live == base.live && disk.dirs == base.dirs
      ensures old(script) == [] ==> script == [] && undisturbed == old(undisturbed)
      ensures r == Failed(Crashed) ==> disk.receipt.None?
      ensures disk.journal.Some?
      ensures NoWrites(old(script)) ==> PutBackAsFar(old(disk), disk.live, entries, old(journal).records, old(script))
      ensures NoWrites(old(script)) && r == Done ==> !AnyDrifted(old(disk), entries, old(journal).records, 0)
      ensures (old(script) == [] ==>
                && (r == Done <==> !AnyDrifted(old(disk), entries, old(journal).records, 0))
                && disk.receipt == Some(if r == Done then outcome else RollbackFailedReceipt))
    {
      hide JournalSound, ChangesSound, Replayed, WellFormed, DistinctTargets, NoneFlagged, AllNew, Outsides;
      hide Writes, NoWrites, Advance;
      NothingToCome<Edit>(2);
      r := Rollback();
      if r == Done {
        r := Close(Phase.RolledBack, outcome);
      } else if r.Raised() {
        var closed := Close(RollbackFailed, RollbackFailedReceipt);
        if closed != Done { r := closed; }
      }
    }

    /** Records the baseline of one file and backs it up when it is there. */
    method CaptureOne(i: nat) returns (r: Outcome, prior: Option<Content>)
      requires Running() && i < |entries| && journal.records == [] && disk.journal.value.records == []
      modifies `disk, `script, `undisturbed, `changes
      ensures Watched()
      ensures Running() && disk == old(disk).(live := disk.live, backups := disk.backups)
      ensures r == Done && prior.Some? ==> disk.backups == old(disk).backups[i := prior.value]
      ensures r == Done && prior.None? ==> disk.backups == old(disk).backups
      ensures undisturbed ==> disk.live == old(disk).live && (r == Done ==> prior == Get(disk.live, entries[i].target))
      ensures undisturbed ==> (r, script) == Advance(old(script), if entries[i].target in old(disk).live then 2 else 1)
    {
      hide JournalSound, ChangesSound, Replayed, WellFormed, DistinctTargets, Apart, Outsides, Writes;
      hide NoWrites, Advance;
      prior := None;
      AdvanceSplit(script, 1, 1);
      r := Tick();
      if r == Done {
        prior := Get(disk.live, entries[i].target);
        if prior.Some? {
          r := Tick();
          if r == Done && Get(disk.live, entries[i].target) != prior { r := Failed(Refused(PRECONDITION)); }
        }
      }
      if r == Done && prior.Some? {
        ghost var before := disk;
        disk := disk.(backups := disk.backups[i := prior.value]);
        if undisturbed {
          WorkspaceDoesNotMatter(base, before, disk, entries, disk.journal.value);
          WorkspaceDoesNotMatter(base, before, disk, entries, journal);
        }
      }
    }

    /** Records the baseline of every file and backs up those present. */
    method CaptureBaseline() returns (r: Outcome, records: seq<Record>)
      requires Running() && journal.records == [] && disk.journal.value.records == []
      modifies `disk, `script, `undisturbed, `changes
      ensures Watched()
      ensures Running() && disk == old(disk).(live := disk.live, backups := disk.backups)
      ensures undisturbed ==> disk.live == old(disk).live
      ensures r == Done ==> |records| == |entries| && NoneFlagged(records)
      ensures r == Done && undisturbed ==> Captured(base, entries, records) && BackedUp(disk.backups, records)
      ensures undisturbed ==> (r, script) == Advance(old(script), |entries| + Present(base.live, entries))
    {
      hide JournalSound, ChangesSound, Replayed, WellFormed, DistinctTargets, Apart, Outsides, Writes;
      hide NoWrites, Advance, Present;
      records, r := [], Done;
      if undisturbed { CreatedAreNew(base, disk, entries, journal); }
      NoSteps(script);
      NonePresent(base.live);
      assert entries[..0] == [];
      ghost var steps := 0;
      for i := 0 to |entries|
        invariant Watched()
        invariant Running() && disk == old(disk).(live := disk.live, backups := disk.backups)
        invariant undisturbed ==> disk.live == old(disk).live == base.live
        invariant |records| == i && NoneFlagged(records) && r == Done
        invariant undisturbed ==> forall m :: 0 <= m < i ==> records[m].prior == Get(base.live, entries[m].target)
        invariant undisturbed ==> BackedUp(disk.backups, records)
        invariant (undisturbed ==>
                  steps == i + Present(base.live, entries[..i]) && Advance(old(script), steps) == (Done, script))
      {
        PresentUpTo(base.live, entries, i);
        ghost var taken := if entries[i].target in base.live then 2 else 1;
        AdvanceSplit(old(script), steps, taken);
        var prior;
        r, prior := CaptureOne(i);
        steps := steps + taken;
        if r != Done {
          StepsAround(old(script), steps);
          return;
        }
        records := records + [Record(prior, false, false)];
      }
      assert entries[..|entries|] == entries;
    }

    /** Stages the verified source of every file. */
    method StageSources() returns (r: Outcome)
      requires Running()
      modifies `disk, `script, `undisturbed, `changes
      ensures Watched()
      ensures Running() && disk == old(disk).(live := disk.live, stage := disk.stage)
      ensures undisturbed ==> disk.live == old(disk).live
      ensures r == Done ==> forall i: nat :: i < |entries| ==> Get(disk.stage, i) == Some(entries[i].next)
      ensures (r, script) == Advance(old(script), |entries|)
    {
      hide JournalSound, ChangesSound, Replayed, WellFormed, DistinctTargets, NoneFlagged, Apart, Outsides;
      hide Writes, NoWrites, Advance;
      r := Done;
      NoSteps(script);
      for i := 0 to |entries|
        invariant Watched() && Advance(old(script), i) == (Done, script)
        invariant Running() && disk == old(disk).(live := disk.live, stage := disk.stage) && r == Done
        invariant undisturbed ==> disk.live == old(disk).live
        invariant forall m: nat :: m < i ==> Get(disk.stage, m) == Some(entries[m].next)
      {
        AdvanceSplit(old(script), i, 1);
        r := Tick();
        if r != Done {
          StepsAround(old(script), i + 1);
          return;
        }
        ghost var before := disk;
        disk := disk.(stage := disk.stage[i := entries[i].next]);
        if undisturbed {
          WorkspaceDoesNotMatter(base, before, disk, entries, disk.journal.value);
          WorkspaceDoesNotMatter(base, before, disk, entries, journal);
        }
      }
    }

    predicate BaselineHolds()
      reads this
    {
      |journal.records| == |entries|
      && forall i :: 0 <= i < |entries| ==> Get(disk.live, entries[i].target) == journal.records[i].prior
    }

    method CreateDir(dir: Path) returns (r: Outcome)
      requires Running() && journal.records != [] && disk.journal == Some(journal) && dir in journal.created
      modifies `disk, `script, `undisturbed, `changes
      ensures Watched()
      ensures Running() && disk == old(disk).(live := disk.live, dirs := disk.dirs)
      ensures disk.dirs == if r == Done then old(disk).dirs + {dir} else old(disk).dirs
      ensures undisturbed ==> disk.live == old(disk).live
      ensures (r, script) == Advance(old(script), 1)
    {
      hide JournalSound, ChangesSound, Replayed, WellFormed, DistinctTargets, NoneFlagged, Apart, Outsides;
      hide Writes, NoWrites, Advance;
      r := Tick();
      if r == Done {
        ghost var before := disk;
        disk := disk.(dirs := disk.dirs + {dir});
        if undisturbed { DirCreated(base, before, disk, entries, journal, dir); }
      }
    }

    /** Creates the recorded directories, parents first. */
    method CreateDirs() returns (r: Outcome)
      requires Running() && journal.records != [] && disk.journal == Some(journal)
      modifies `disk, `script, `undisturbed, `changes
      ensures Watched()
      ensures Running() && disk == old(disk).(live := disk.live, dirs := disk.dirs)
      ensures r == Done ==> disk.dirs == old(disk).dirs + journal.created
      ensures undisturbed ==> disk.live == old(disk).live
      ensures (r, script) == Advance(old(script), |journal.created|)
    {
      hide JournalSound, ChangesSound, Replayed, WellFormed, DistinctTargets, NoneFlagged, Apart, Outsides;
      hide Writes, NoWrites, Advance, LogSound, Bundle, DiskSound;
      r := Done;
      NoSteps(script);
      var order := ShallowestFirst(journal.created);
      for i := 0 to |order|
        invariant Watched() && Advance(old(script), i) == (Done, script)
        invariant Running() && disk == old(disk).(live := disk.live, dirs := disk.dirs) && r == Done
        invariant forall dir :: dir in disk.dirs <==> dir in old(disk).dirs || dir in order[..i]
        invariant undisturbed ==> disk.live == old(disk).live
      {
        AdvanceSplit(old(script), i, 1);
        r := CreateDir(order[i]);
        if r != Done {
          StepsAround(old(script), i + 1);
          return;
        }
      }
      assert order[..|order|] == order;
    }

    /** Flags one record: its promotion starts, or has happened. */
    method Flag(i: nat, promoted: bool) returns (r: Outcome)
      requires Running() && i < |journal.records| == |entries| && disk.journal.value.records != []
      modifies `disk, `script, `undisturbed, `journal, `changes
      ensures Watched()
      ensures Running() && |journal.records| == |entries| && journal.created == old(journal).created
      ensures Priors(journal.records) == Priors(old(journal).records)
      ensures disk == old(disk).(live := disk.live, journal := if r == Done then Some(journal) else old(disk).journal)
      ensures journal.records == old(journal).records[i := FlaggedAs(old(journal).records[i], promoted)]
      ensures journal.phase == Promoting
      ensures undisturbed ==> disk.live == old(disk).live
      ensures (r, script) == Advance(old(script), 1)
    {
      hide JournalSound, ChangesSound, Replayed, WellFormed, DistinctTargets, Apart, Outsides, Writes;
      hide NoWrites, Advance;
      var record := journal.records[i];
      var flagged := journal.(records := journal.records[i := FlaggedAs(record, promoted)], phase := Promoting);
      assert Priors(flagged.records) == Priors(journal.records);
      if undisturbed { Flagging(base, disk, entries, journal, flagged); }
      journal := flagged;
      r := Save();
    }

    /** The file must still be what it was and its replacement staged. */
    method CheckUnchanged(i: nat) returns (r: Outcome)
      requires Running() && i < |journal.records| == |entries|
      modifies `disk, `script, `undisturbed, `changes
      ensures Watched()
      ensures Running() && disk == old(disk).(live := disk.live)
      ensures undisturbed ==> disk.live == old(disk).live
      ensures r == Done ==> Get(disk.stage, i) == Some(entries[i].next)
      ensures (undisturbed && Get(old(disk).stage, i) == Some(entries[i].next)
               && Get(old(disk).live, entries[i].target) == journal.records[i].prior ==>
                (r, script) == Advance(old(script), 1))
    {
      hide JournalSound, ChangesSound, Replayed, WellFormed, DistinctTargets, NoneFlagged, Apart, Outsides;
      hide Writes, NoWrites, Advance;
      r := Tick();
      if r == Done && Get(disk.live, entries[i].target) != journal.records[i].prior {
        r := Failed(Refused(PRECONDITION));
      }
      if r == Done && Get(disk.stage, i) != Some(entries[i].next) {
        r := Failed(Refused("staged target is unavailable or changed"));
      }
    }

    /** Replaces one live file by its staged content, if it still is what it was. */
    method PromoteOne(i: nat) returns (r: Outcome)
      requires Running() && i < |journal.records| == |entries| && disk.journal.value.records != []
      modifies `disk, `script, `undisturbed, `journal, `changes
      ensures Accounted() && OnlyPromotions(old(changes), changes)
      ensures Running() && |journal.records| == |entries| && disk.journal.value.records != []
      ensures Priors(journal.records) == Priors(old(journal).records) && journal.created == old(journal).created
      ensures disk == old(disk).(live := disk.live, journal := disk.journal, stage := disk.stage)
      ensures forall m :: m != i ==> Get(disk.stage, m) == Get(old(disk).stage, m)
      ensures undisturbed && r == Done ==> Get(disk.live, entries[i].target) == Some(entries[i].next)
      ensures (undisturbed ==>
                forall path :: path != entries[i].target ==> Get(disk.live, path) == Get(old(disk).live, path))
      ensures (undisturbed && Get(old(disk).stage, i) == Some(entries[i].next)
               && Get(old(disk).live, entries[i].target) == old(journal).records[i].prior ==>
                && (r, script) == Advance(old(script), 4)
                && Get(disk.live, entries[i].target) ==
                     if Advance(old(script), 3).0 == Done then Some(entries[i].next)
                         else Get(old(disk).live, entries[i].target))
    {
      hide JournalSound, ChangesSound, Replayed, WellFormed, DistinctTargets, NoneFlagged, Apart, Outsides;
      hide Writes, NoWrites, Advance;
      ghost var priors := journal.records;
      AdvanceSplit(script, 1, 1);
      AdvanceSplit(script, 2, 1);
      AdvanceSplit(script, 3, 1);
      r := CheckUnchanged(i);
      if r == Done { r := Flag(i, false); }
      PriorsAgree(priors, journal.records, i);
      if r == Done { r := ReplaceLive(i); }
      if r == Done { r := Flag(i, true); }
    }

    /** The replacement itself: the last comparison and the move are one step. */
    method ReplaceLive(i: nat) returns (r: Outcome)
      requires Running() && i < |journal.records| == |entries| && disk.journal == Some(journal)
      requires journal.records[i].Flagged() && Get(disk.stage, i) == Some(entries[i].next)
      modifies `disk, `script, `undisturbed, `changes
      ensures Accounted() && OnlyPromotions(old(changes), changes)
      ensures Running() && disk == old(disk).(live := disk.live, stage := disk.stage)
      ensures forall m :: m != i ==> Get(disk.stage, m) == Get(old(disk).stage, m)
      ensures undisturbed && r == Done ==> Get(disk.live, entries[i].target) == Some(entries[i].next)
      ensures (undisturbed ==>
                forall path :: path != entries[i].target ==> Get(disk.live, path) == Get(old(disk).live, path))
      ensures (undisturbed && Get(old(disk).live, entries[i].target) == journal.records[i].prior ==>
                (r, script) == Advance(old(script), 1))
      ensures undisturbed && r != Done ==> Get(disk.live, entries[i].target) == Get(old(disk).live, entries[i].target)
    {
      hide JournalSound, ChangesSound, Replayed, WellFormed, DistinctTargets, NoneFlagged, Apart, Outsides;
      hide Writes, NoWrites, Advance;
      r := Tick();
      if r == Done && Get(disk.live, entries[i].target) != journal.records[i].prior {
        r := Failed(Refused(PRECONDITION));
      }
      if r == Done {
        ghost var before := disk;
        disk := disk.(live := disk.live[entries[i].target := disk.stage[i]], stage := disk.stage - {i});
        ghost var change := Promotion(i, Some(entries[i].next));
        OneChange(base, changes, change, entries);
        LogGrows(base, changes, change, before, disk, entries);
        OutsidesGrow(changes, change);
        changes := changes + [change];
        if undisturbed { FilePromoted(base, before, disk, entries, journal, i); }
      }
    }

    /** Captures, stages and prepares; no live file changes. */
    method Prepare() returns (r: Outcome)
      requires Running() && journal.records == [] && journal.created == {} && disk.journal.value.records == []
      modifies `disk, `script, `undisturbed, `journal, `changes
      ensures Watched()
      ensures Running() && disk.receipt.None?
      ensures undisturbed ==> disk.live == old(disk).live
      ensures !journal.bundleBound ==> r != Done
      ensures r == Done ==> journal.records != [] && disk.journal == Some(journal)
      ensures r == Done ==> forall i: nat :: i < |entries| ==> Get(disk.stage, i) == Some(entries[i].next)
      ensures (undisturbed && Held(old(disk).live, preconditions) ==>
                (r, script) == Advance(old(script), StepsToPromote(base.live, base.dirs, entries) - 1))
      ensures r == Done ==> Ready(base.live, changes, entries, preconditions, Priors(journal.records), |old(changes)|)
    {
      hide Verified, Ready;
      hide JournalSound, ChangesSound, Replayed, WellFormed, DistinctTargets, Apart, Captured, BackedUp;
      hide Outsides, Writes, NoWrites, Advance, StepsToPromote;
      if undisturbed { CreatedAreNew(base, disk, entries, journal); }
      AdvanceSplit(script, 1, StepsToPromote(base.live, base.dirs, entries) - 2);
      r := Tick();
      if r == Done {
        if undisturbed { PhaseDoesNotMatter(base, disk, entries, journal, journal.(bundleBound := true)); }
        journal := journal.(bundleBound := true);
        ghost var from := |changes|;
        r := PrepareBound();
        if r == Done {
          ReadyLater(base.live, changes, changes, entries, preconditions, Priors(journal.records), from,
              |old(changes)|);
        }
      }
    }

    /** Captures and prepares once the bundle manifest is written. */
    method PrepareBound() returns (r: Outcome)
      requires Running() && journal.records == [] && journal.created == {}
      requires disk.journal.value.records == [] && journal.bundleBound
      modifies `disk, `script, `undisturbed, `journal, `changes
      ensures Watched()
      ensures Running() && journal.bundleBound
      ensures undisturbed ==> disk.live == old(disk).live
      ensures r == Done ==> journal.records != [] && disk.journal == Some(journal)
      ensures r == Done ==> forall i: nat :: i < |entries| ==> Get(disk.stage, i) == Some(entries[i].next)
      ensures (undisturbed && Held(old(disk).live, preconditions) ==>
                (r, script) == Advance(old(script), StepsToPromote(base.live, base.dirs, entries) - 2))
      ensures r == Done ==> Ready(base.live, changes, entries, preconditions, Priors(journal.records), |old(changes)|)
    {
      hide Verified, Ready;
      hide JournalSound, ChangesSound, Replayed, WellFormed, DistinctTargets, Apart, Captured, BackedUp;
      hide Outsides, Writes, NoWrites, Advance;
      hide MissingDirs, Present;
      if undisturbed { CreatedAreNew(base, disk, entries, journal); }
      ghost var n, p, m := |entries|, Present(base.live, entries), |MissingDirs(base.dirs, entries)|;
      AdvanceSplit(script, n + p, 3 + n + m);
      var records;
      r, records := CaptureBaseline();
      if r == Done {
        if undisturbed { CapturedIsSound(base, disk, entries, journal, records); }
        journal := journal.(records := records);
        ghost var from := |changes|;
        r := PrepareCaptured();
        if r == Done {
          ReadyLater(base.live, changes, changes, entries, preconditions, Priors(journal.records), from,
              |old(changes)|);
        }
      }
    }

    method PrepareCaptured() returns (r: Outcome)
      requires Running() && |journal.records| == |entries| && journal.created == {}
      requires disk.journal.value.records == [] && journal.bundleBound
      modifies `disk, `script, `undisturbed, `journal, `changes
      ensures Watched()
      ensures Running() && journal.bundleBound && journal.records == old(journal).records
      ensures undisturbed ==> disk.live == old(disk).live
      ensures r == Done ==> disk.journal == Some(journal)
      ensures r == Done ==> forall i: nat :: i < |entries| ==> Get(disk.stage, i) == Some(entries[i].next)
      ensures (undisturbed && Held(old(disk).live, preconditions) && old(disk).live == base.live ==>
                (r, script) == Advance(old(script), 3 + |entries| + |MissingDirs(old(disk).dirs, entries)|))
      ensures r == Done ==> Ready(base.live, changes, entries, preconditions, Priors(journal.records), |old(changes)|)
    {
      hide Verified, Ready;
      hide JournalSound, ChangesSound, Replayed, WellFormed, DistinctTargets, Apart, NoneFlagged, Held;
      hide Outsides, Writes, NoWrites, Advance, MissingDirs;
      AdvanceSplit(script, 1, |entries|);
      AdvanceSplit(script, 1 + |entries|, 1);
      AdvanceSplit(script, 2 + |entries|, 1 + |MissingDirs(disk.dirs, entries)|);
      r := Enter(PreflightVerified);
      if r == Done { r := StageSources(); }
      if r == Done { r := Enter(StageVerified); }
      ghost var from := |changes|;
      if r == Done { r := PrepareDirs(); }
      if r == Done {
        ReadyLater(base.live, changes, changes, entries, preconditions, Priors(journal.records), from, |old(changes)|);
      }
    }

    /** Nothing may have moved since the baseline; then the directories. */
    method PrepareDirs() returns (r: Outcome)
      requires Running() && |journal.records| == |entries| && journal.created == {}
      requires disk.journal.value.records != [] && journal.bundleBound
      modifies `disk, `script, `undisturbed, `journal, `changes
      ensures Watched()
      ensures Running() && journal.bundleBound && journal.records == old(journal).records
      ensures undisturbed ==> disk.live == old(disk).live
      ensures disk.stage == old(disk).stage
      ensures r == Done ==> disk.journal == Some(journal) && disk.dirs == old(disk).dirs + journal.created
      ensures r == Done ==> journal.created == MissingDirs(old(disk).dirs, entries)
      ensures (undisturbed && Held(old(disk).live, preconditions) && old(disk).live == base.live ==>
                (r, script) == Advance(old(script), 1 + |MissingDirs(old(disk).dirs, entries)|))
      ensures r == Done ==> Ready(base.live, changes, entries, preconditions, Priors(journal.records), |old(changes)|)
    {
      hide Verified, Ready;
      hide JournalSound, ChangesSound, Replayed, WellFormed, DistinctTargets, Apart, NoneFlagged, Held;
      hide Outsides, Writes, NoWrites, Advance, MissingDirs;
      r := Done;
      AdvanceSplit(script, 1, |MissingDirs(disk.dirs, entries)|);
      if undisturbed && disk.live == base.live { BaselineIsHeld(base, disk, entries, journal); }
      assert BaselineHolds() ==> Recorded(disk.live, entries, Priors(journal.records));
      if !BaselineHolds() || !Held(disk.live, preconditions) { r := Failed(Refused(PRECONDITION)); }
      ghost var ready := changes;
      if r == Done {
        ReadyNow(base.live, changes, entries, preconditions, Priors(journal.records), |old(changes)|);
        if undisturbed { MissingIsSound(base, disk, entries, journal); }
        journal := journal.(created := MissingDirs(disk.dirs, entries));
        r := Enter(PromotionPrepared);
      }
      if r == Done { r := CreateDirs(); }
      if r == Done {
        ReadyLater(base.live, ready, changes, entries, preconditions, Priors(journal.records), |old(changes)|,
            |old(changes)|);
      }
    }

    /** Promotes every file in order. */
    method PromoteTargets() returns (r: Outcome)
      requires Running() && |journal.records| == |entries| && disk.journal.value.records != []
      requires forall i: nat :: i < |entries| ==> Get(disk.stage, i) == Some(entries[i].next)
      modifies `disk, `script, `undisturbed, `journal, `changes
      ensures Accounted() && OnlyPromotions(old(changes), changes)
      ensures Running() && |journal.records| == |entries| && disk.journal.value.records != []
      ensures undisturbed && r == Done ==> AllNew(disk.live, entries)
      ensures (undisturbed && old(disk).live == base.live ==>
                (r, script) == Advance(old(script), 4 * |entries|)
                    && PromotedAsFar(base, disk.live, entries, old(script), 0))
      ensures Priors(journal.records) == Priors(old(journal).records)
    {
      hide Verified, Ready, Priors;
      hide JournalSound, ChangesSound, Replayed, WellFormed, NoneFlagged, Apart, Outsides, Writes, NoWrites, Advance;
      r := Done;
      ghost var calm := disk.live == base.live;
      NoSteps(script);
      for i := 0 to |entries|
        invariant Accounted() && OnlyPromotions(old(changes), changes)
        invariant Running() && |journal.records| == |entries| && disk.journal.value.records != [] && r == Done
        invariant Priors(journal.records) == Priors(old(journal).records)
        invariant forall m: nat :: i <= m < |entries| ==> Get(disk.stage, m) == Some(entries[m].next)
        invariant undisturbed ==> forall m: nat :: m < i ==> Get(disk.live, entries[m].target) == Some(entries[m].next)
        invariant (undisturbed && calm ==>
                  AllPrior(base, disk.live, entries, i) && Advance(old(script), 4 * i) == (Done, script))
      {
        if undisturbed { SlotOf(base, disk, entries, journal, i); }
        ghost var before := disk.live;
        AdvanceSplit(old(script), 4 * i, 4);
        AdvanceSplit(old(script), 4 * i, 3);
        r := PromoteOne(i);
        if undisturbed { OthersStay(entries, before, disk.live, i); }
        if r != Done {
          StepsAround(old(script), 4 * i);
          StepsAround(old(script), 4 * i + 4);
          return;
        }
      }
      StepsAround(old(script), 4 * |entries|);
    }

    /** Captures and prepares, then promotes. */
    method PrepareAndPromote() returns (r: Outcome)
      requires Running() && journal.records == [] && journal.created == {} && disk.journal.value.records == []
      modifies `disk, `script, `undisturbed, `journal, `changes
      ensures Accounted() && OnlyPromotions(old(changes), changes)
      ensures Running() && (r == Done ==> disk.journal.value.records != [])
      ensures (undisturbed && Held(base.live, preconditions) ==>
                && (r, script) == Advance(old(script), AllSteps(base.live, base.dirs, entries) - 4)
                && PromotedAsFar(base, disk.live, entries, old(script),
                    StepsToPromote(base.live, base.dirs, entries) - 1))
      ensures undisturbed && r == Done ==> AllNew(disk.live, entries)
      ensures (OnlyOutside(old(changes), changes)
               || Ready(base.live, changes, entries, preconditions, Priors(journal.records), |old(changes)|))
    {
      hide Ready, AllNew, JournalSound, ChangesSound, Replayed, WellFormed, DistinctTargets, NoneFlagged, Apart, Held;
      hide Outsides, Writes, NoWrites, Advance, StepsToPromote, PromotedAsFar;
      if undisturbed { CreatedAreNew(base, disk, entries, journal); }
      ghost var ahead := StepsToPromote(base.live, base.dirs, entries) - 1;
      AdvanceSplit(script, ahead, 4 * |entries|);
      r := Prepare();
      if r != Done {
        if undisturbed && Held(base.live, preconditions) {
          PromotedLater(base, disk.live, entries, old(script), ahead, 0);
          StepsAround(old(script), ahead);
        }
        return;
      }
      ghost var ready := changes;
      r := PromoteTargets();
      if undisturbed && Held(base.live, preconditions) {
        PromotedLater(base, disk.live, entries, old(script), ahead, 0);
      }
      ReadyLater(
        base.live, ready, changes, entries, preconditions, Priors(journal.records), |old(changes)|, |old(changes)|);
    }

    /** The transaction proper, from a fresh journal to its success receipt. */
    method Body() returns (r: Outcome)
      requires Running() && journal.records == [] && journal.created == {} && disk.journal.value.records == []
      modifies `disk, `script, `undisturbed, `journal, `changes
      ensures Accounted() && OnlyPromotions(old(changes), changes)
      ensures if r == Done then Valid() && disk.receipt == Some(Deployed) else Running()
      ensures (undisturbed && Held(base.live, preconditions) ==>
                && (r, script) == Advance(old(script), AllSteps(base.live, base.dirs, entries) - 1)
                && PromotedAsFar(base, disk.live, entries, old(script),
                    StepsToPromote(base.live, base.dirs, entries) - 1))
      ensures undisturbed && r == Done ==> AllNew(disk.live, entries)
      ensures disk.journal.Some?
      ensures r == Done ==> Verified(base.live, changes, entries, preconditions, |old(changes)|)
      ensures (OnlyOutside(old(changes), changes)
               || Ready(base.live, changes, entries, preconditions, Priors(journal.records), |old(changes)|))
    {
      hide Verified, Ready, AllNew, JournalSound, ChangesSound, Replayed, WellFormed, DistinctTargets, NoneFlagged;
      hide Apart, Held, Outsides, Writes, NoWrites, Advance, StepsToPromote, PromotedAsFar;
      AdvanceSplit(script, AllSteps(base.live, base.dirs, entries) - 4, 3);
      r := PrepareAndPromote();
      if undisturbed { SharedAreKept(base, disk, entries, preconditions, journal); }
      ghost var promoted := changes;
      if r == Done {
        r := VerifyAndClose();
        if r == Done {
          VerifiedLater(base.live, changes, changes, entries, preconditions, |promoted|, |old(changes)|);
        }
        if !OnlyOutside(old(changes), promoted) {
          ReadyLater(base.live, promoted, changes, entries, preconditions, Priors(journal.records),
            |old(changes)|, |old(changes)|);
        }
      }
    }

    /** Success is receipted only once everything has been seen in place. */
    method VerifyAndClose() returns (r: Outcome)
      requires Running() && disk.journal.value.records != []
      modifies `disk, `script, `undisturbed, `journal, `changes
      ensures Watched() && Priors(journal.records) == Priors(old(journal).records)
      ensures if r == Done then Valid() && disk.receipt == Some(Deployed) else Running()
      ensures undisturbed ==> disk.live == old(disk).live
      ensures undisturbed && AllNew(disk.live, entries) && Held(disk.live, preconditions) ==>
                (r, script) == Advance(old(script), 3)
      ensures undisturbed && r == Done ==> AllNew(disk.live, entries)
      ensures disk.journal.Some?
      ensures r == Done ==> Verified(base.live, changes, entries, preconditions, |old(changes)|)
    {
      hide JournalSound, ChangesSound, Replayed, WellFormed, DistinctTargets, NoneFlagged, Apart, Held, Verified;
      hide Outsides, Writes, NoWrites, Advance;
      AdvanceSplit(script, 1, 2);
      if !AllNew(disk.live, entries) { return Failed(Refused("live target verification failed")); }
      if !Held(disk.live, preconditions) { return Failed(Refused(PRECONDITION)); }
      VerifiedNow(base.live, changes, entries, preconditions, |changes|);
      ghost var verified := changes;
      r := Enter(LiveTargetsVerified);
      if r == Done { r := Close(Completed, Deployed); }
      VerifiedLater(base.live, verified, changes, entries, preconditions, |verified|, |old(changes)|);
    }

    /** What a terminal receipt says of the live files is still so. */
    predicate ReceiptHolds()
      reads this
    {
      match disk.receipt
      case Some(Deployed) => AllNew(disk.live, entries)
      case Some(RolledBackReceipt) => RecordedPriorsHold()
      case Some(Recovered) => RecordedPriorsHold()
      case _ => true
    }

    predicate RecordedPriorsHold()
      reads this
    {
      disk.journal.Some? && |disk.journal.value.records| <= |entries| ==>
        forall i :: 0 <= i < |disk.journal.value.records| ==>
            Get(disk.live, entries[i].target) == disk.journal.value.records[i].prior
    }

    /** How a call is to end: with everything as before, or deployed. */
    ghost predicate Settled()
      reads this
    {
      disk.live == base.live || (disk.receipt == Some(Deployed) && AllNew(disk.live, entries))
    }

    /** No receipt yet, and what must be held is. */
    predicate Pending()
      reads this
    {
      Held(disk.live, preconditions) && disk.receipt.None?
    }

    /** The rollback of the coming call raises over new content. */
    predicate RollbackFails()
      reads this
    {
      && disk.receipt.None?
      && if disk.journal.Some? then UndoFails(disk.live, entries, disk.journal.value.records, script)
         else FirstCallFails(disk.live, disk.dirs, entries, script)
    }

    /** One call for this transaction: replay its receipt, recover it when it was
        interrupted, or run it.  Without an outside writer, whichever steps raise
        in this call and whatever interrupted the earlier ones, it ends with
        everything as before or deployed if and only if no rollback raises over
        new content. */
    method Deploy() returns (r: Outcome)
      requires Valid()
      modifies `disk, `script, `undisturbed, `journal, `changes
      ensures Valid() && Accounted()
      ensures (old(disk).receipt.None? && old(disk).journal.Some? ==>
                OnlyRestorations(old(changes), changes, old(disk).journal.value.records))
      ensures !Held(old(disk).live, preconditions) ==> r.Raised() && disk == old(disk) && changes == old(changes)
      ensures old(disk).receipt.Some? ==> disk == old(disk) && changes == old(changes) && r != Failed(Crashed)
      ensures (old(disk).receipt.Some? && Held(old(disk).live, preconditions) ==>
                (r == Done <==>
                     && (disk.receipt == Some(Deployed) ==>
                           forall i :: 0 <= i < |entries| ==>
                               Get(disk.live, entries[i].target) == Some(entries[i].next))
                     && (disk.receipt == Some(RolledBackReceipt) || disk.receipt == Some(Recovered) ==>
                           RecordedPriorsHold())))
      ensures undisturbed && r != Failed(Crashed) && old(Pending()) ==> (Settled() <==> !old(RollbackFails()))
      ensures old(disk).journal.Some? ==> disk.journal.Some?
      ensures old(Pending()) && Advance(old(script), 1).0 == Done ==> disk.journal.Some?
      ensures old(disk).receipt.None? && r == Failed(Crashed) ==> disk.receipt.None?
      ensures (undisturbed && old(Pending()) && old(disk).journal.None?
               && Advance(old(script), AllSteps(base.live, base.dirs, entries)).0 == Failed(Crashed) ==>
                && r == Failed(Crashed)
                && PromotedAsFar(base, disk.live, entries, old(script), StepsToPromote(base.live, base.dirs, entries)))
      ensures (old(Pending()) && old(disk).journal.Some?
               && old(disk).journal.value.records != [] && Advance(old(script), |entries|).0.Raised() ==>
                r.Failed? && disk.receipt == UndoReceipt(Advance(old(script), |entries|).1))
      ensures (NoWrites(old(script)) && old(Pending()) && old(disk).journal.Some? ==>
                PutBackAsFar(old(disk), disk.live, entries, old(disk).journal.value.records, old(script)))
      ensures (old(script) == [] && old(Pending()) && old(disk).journal.Some? ==>
                && (r == Done <==> !AnyDrifted(old(disk), entries, old(disk).journal.value.records, 0))
                && disk.receipt == Some(if r == Done then Recovered else RollbackFailedReceipt))
      ensures (old(script) == [] && undisturbed && old(Pending()) && old(disk).journal.Some? ==>
                r == Done && disk.receipt == Some(Recovered) && disk.live == base.live && disk.dirs == base.dirs)
      ensures (old(script) == [] && undisturbed && old(Pending()) && old(disk).journal.None? ==>
                r == Done && disk.receipt == Some(Deployed) && AllNew(disk.live, entries))
      ensures (old(disk).receipt.None? && disk.receipt == Some(Deployed) ==>
                Verified(base.live, changes, entries, preconditions, |old(changes)|))
    {
      hide Verified, Ready;
      hide JournalSound, ChangesSound, Replayed, WellFormed, DistinctTargets, NoneFlagged, Apart, Held;
      hide Outsides, Writes, NoWrites;
      hide Advance, StepsToPromote, PromotedAsFar, UndoFails, FirstCallFails, PutBackAsFar, AnyDrifted;
      if !Held(disk.live, preconditions) {
        r := Failed(Refused(PRECONDITION));
      } else if disk.receipt.Some? {
        r := if ReceiptHolds() then Done else Failed(Refused("the target no longer is what the receipt says"));
      } else if disk.journal.Some? {
        r := Recover();
      } else {
        r := First();
      }
    }

    /** A first call. */
    method First() returns (r: Outcome)
      requires Valid() && disk.receipt.None? && disk.journal.None?
      modifies `disk, `script, `undisturbed, `journal, `changes
      ensures Valid() && Accounted()
      ensures (undisturbed && r != Failed(Crashed) && Held(old(disk).live, preconditions) ==>
                (Settled() <==> !FirstCallFails(base.live, base.dirs, entries, old(script))))
      ensures r == Failed(Crashed) ==> disk.receipt.None?
      ensures (undisturbed && Held(old(disk).live, preconditions)
               && Advance(old(script), AllSteps(base.live, base.dirs, entries)).0 == Failed(Crashed) ==>
                && r == Failed(Crashed)
                && PromotedAsFar(base, disk.live, entries, old(script), StepsToPromote(base.live, base.dirs, entries)))
      ensures (old(script) == [] && undisturbed && Held(old(disk).live, preconditions) ==>
                r == Done && disk.receipt == Some(Deployed) && AllNew(disk.live, entries))
      ensures Advance(old(script), 1).0 == Done ==> disk.journal.Some?
      ensures (disk.receipt == Some(Deployed) ==>
                Verified(base.live, changes, entries, preconditions, |old(changes)|))
    {
      hide Verified, Ready;
      hide JournalSound, ChangesSound, Replayed, WellFormed, DistinctTargets, NoneFlagged, Apart, Held;
      hide Outsides, Writes, NoWrites;
      hide Advance, StepsToPromote, PromotedAsFar, UndoFails, FirstCallFails;
      ghost var ahead, all := StepsToPromote(base.live, base.dirs, entries), AllSteps(base.live, base.dirs, entries);
      AdvanceSplit(script, 1, all - 1);
      NothingToCome<Edit>(all);
      r := Start();
      ghost var started := changes;
      if r != Done && undisturbed {
        StepsAround(old(script), 1);
        PromotedLater(base, disk.live, entries, old(script), 1, ahead - 1);
        if FirstCallFails(base.live, base.dirs, entries, old(script)) {
          WhenFirstCallFails(base, disk.live, entries, old(script));
        }
      }
      if r == Done {
        r := Body();
        if undisturbed && Held(base.live, preconditions) {
          PromotedLater(base, disk.live, entries, old(script), 1, ahead - 1);
          if FirstCallFails(base.live, base.dirs, entries, old(script)) {
            WhenFirstCallFails(base, disk.live, entries, old(script));
          }
          if r.Raised() { FirstCallExactly(base, disk, entries, journal, old(script)); }
        }
        if r == Done {
          VerifiedLater(base.live, changes, changes, entries, preconditions, |started|, |old(changes)|);
        }
        if r.Raised() { r := Handle(r); }
      }
    }

    method Start() returns (r: Outcome)
      requires Valid() && disk.receipt.None? && disk.journal.None?
      modifies `disk, `script, `undisturbed, `journal, `changes
      ensures Watched()
      ensures Valid() && disk.receipt.None? && (undisturbed ==> disk.live == old(disk).live)
      ensures r == Done ==> Running() && journal.records == [] && journal.created == {} && disk.journal == Some(journal)
      ensures (r, script) == Advance(old(script), 1)
    {
      hide ChangesSound, Replayed, WellFormed, DistinctTargets, Apart, Outsides, Writes, NoWrites, Advance;
      journal := Journal(LockAcquired, false, [], {});
      r := Tick();
      if r == Done { disk := disk.(journal := Some(journal)); }
    }

    /** Writes the bundle manifest of a transaction that was cut off before it did. */
    method BindBundle() returns (r: Outcome)
      requires Running() && journal.records == []
      modifies `disk, `script, `undisturbed, `journal, `changes
      ensures Watched()
      ensures Running() && (journal == old(journal) || journal == old(journal).(bundleBound := true))
      ensures disk.live == old(disk).live || (!undisturbed && !NoWrites(old(script)))
      ensures disk.dirs == old(disk).dirs && disk.receipt.None?
      ensures (r, script) == Advance(old(script), 2)
    {
      hide JournalSound, ChangesSound, Replayed, WellFormed, DistinctTargets, NoneFlagged, Apart, Outsides;
      hide Writes, NoWrites, Advance;
      AdvanceSplit(script, 1, 1);
      r := Tick();
      if r == Done {
        if undisturbed { PhaseDoesNotMatter(base, disk, entries, journal, journal.(bundleBound := true)); }
        journal := journal.(bundleBound := true);
        r := Save();
      }
    }

    /** An interrupted transaction is undone, never continued. */
    method Recover() returns (r: Outcome)
      requires Valid() && disk.receipt.None? && disk.journal.Some?
      modifies `disk, `script, `undisturbed, `journal, `changes
      ensures Accounted() && OnlyRestorations(old(changes), changes, old(disk).journal.value.records)
      ensures Valid()
      ensures (undisturbed && r != Failed(Crashed) ==>
                (disk.live == base.live <==>
                    !UndoFails(old(disk).live, entries, old(disk).journal.value.records, old(script))))
      ensures (old(disk).journal.value.records != [] && Advance(old(script), |entries|).0.Raised() ==>
                r.Failed? && disk.receipt == UndoReceipt(Advance(old(script), |entries|).1))
      ensures (old(script) == [] && undisturbed ==>
                r == Done && disk.receipt == Some(Recovered) && disk.live == base.live && disk.dirs == base.dirs)
      ensures disk.receipt != Some(Deployed)
      ensures r == Failed(Crashed) ==> disk.receipt.None?
      ensures disk.journal.Some?
      ensures (NoWrites(old(script)) ==>
                PutBackAsFar(old(disk), disk.live, entries, old(disk).journal.value.records, old(script)))
      ensures NoWrites(old(script)) && r == Done ==> !AnyDrifted(old(disk), entries, old(disk).journal.value.records, 0)
      ensures (old(script) == [] ==>
                && (r == Done <==> !AnyDrifted(old(disk), entries, old(disk).journal.value.records, 0))
                && disk.receipt == Some(if r == Done then Recovered else RollbackFailedReceipt))
    {
      hide ChangesSound, Replayed, WellFormed, DistinctTargets, Apart, InFlight, Outsides, Writes, NoWrites, Advance;
      journal := disk.journal.value;
      if disk.journal.value.records == [] { journal := journal.(created := {}); }
      FlagsNeedRecords(journal.records);
      NothingToCome<Edit>(2);
      r := Done;
      if journal.records == [] {
        NothingToPutBack(disk, entries, [], script);
        r := BindBundle();
      }
      if r == Done { r := Undo(Recovered); }
    }

    /** What follows an exception of the body. */
    method Handle(failure: Outcome) returns (r: Outcome)
      requires Running() && failure.Raised()
      modifies `disk, `script, `undisturbed, `journal, `changes
      ensures Accounted() && OnlyRestorations(old(changes), changes, old(journal).records)
      ensures Valid()
      ensures disk.receipt == Some(PreconditionFailed) ==> failure == Failed(Refused(PRECONDITION))
      ensures disk.receipt == Some(RolledBackReceipt) ==> failure != Failed(Refused(PRECONDITION))
      ensures disk.receipt != Some(Deployed)
      ensures (undisturbed && r != Failed(Crashed) ==>
                (disk.live == base.live <==> !UndoFails(old(disk).live, entries, old(journal).records, old(script))))
      ensures old(script) == [] && undisturbed ==> disk.live == base.live && disk.dirs == base.dirs
      ensures r == Failed(Crashed) ==> disk.receipt.None?
      ensures disk.journal.Some?
      ensures NoWrites(old(script)) ==> PutBackAsFar(old(disk), disk.live, entries, old(journal).records, old(script))
      ensures (NoWrites(old(script))
               && (disk.receipt == Some(RolledBackReceipt) || disk.receipt == Some(PreconditionFailed)) ==>
                !AnyDrifted(old(disk), entries, old(journal).records, 0))
      ensures !old(journal).bundleBound ==> r != Done && disk.receipt.None?
    {
      hide JournalSound, ChangesSound, Replayed, WellFormed, DistinctTargets, NoneFlagged, Apart, Outsides;
      hide Writes, NoWrites, Advance;
      if undisturbed { UnboundIsUndone(base, disk, entries, journal); }
      if !journal.bundleBound {
        r := Enter(FailedBeforeBundle);
        if r == Done { r := failure; }
      } else {
        r := Undo(if failure == Failed(Refused(PRECONDITION)) then PreconditionFailed else RolledBackReceipt);
      }
    }

    /** Any number of calls, each with its own interruptions and outside writes:
        the outside edits in the log are those the calls met, in order. */
    method Run(calls: seq<Script>)
      requires Valid()
      modifies `disk, `script, `undisturbed, `journal, `changes
      ensures Valid() && old(changes) <= changes
      ensures old(Outsides(changes)) <= Outsides(changes)
      ensures Met(Outsides(changes)[|old(Outsides(changes))|..], calls)
    {
      hide Outsides, Writes, Met, LogSound, NoWrites;
      ghost var start, met := Outsides(changes), [];
      NoneMet<Edit>();
      assert calls[..0] == [];
      for i := 0 to |calls|
        invariant Valid() && old(changes) <= changes
        invariant Outsides(changes) == start + met && Met(met, calls[..i])
      {
        script := calls[i];
        label Called:
        var _ := Deploy();
        OutsidesOfMore(old@Called(changes), changes);
        MetOneMore(start, met, Outsides(changes), script, calls, i);
        met := Outsides(changes)[|start|..];
      }
      assert calls[..|calls|] == calls && (start + met)[|start|..] == met;
    }
  }

  /** Nothing an undisturbed transaction does touches what must be held. */
  lemma StillHeld(d: Deployment)
    requires d.Valid() && d.undisturbed && d.disk.receipt.None?
    ensures Held(d.disk.live, d.preconditions) == Held(d.base.live, d.preconditions)
  {
    if d.disk.journal.Some? { SharedAreKept(d.base, d.disk, d.entries, d.preconditions, d.disk.journal.value); }
  }

  /** A call cut off at any step, after any other interruptions, and one more that
      nothing interrupts: if there was a journal, everything is as before. */
  method CutAndRetry(d: Deployment, cut: Script) returns (crashed: bool, started: bool, r: Outcome)
    requires d.Valid() && d.undisturbed && d.disk.receipt.None? && Held(d.disk.live, d.preconditions) && NoWrites(cut)
    modifies d
    ensures d.Valid() && d.undisturbed
    ensures (crashed && started ==>
              && r == Done && d.disk.receipt == Some(Recovered) && d.disk.live == d.base.live
              && d.disk.dirs == d.base.dirs)
    ensures crashed && !started ==> r == Done && d.disk.receipt == Some(Deployed) && AllNew(d.disk.live, d.entries)
    ensures old(d.disk).journal.Some? && crashed ==> started
  {
    hide Held, AllNew, NoWrites, FirstCallFails, UndoFails, PromotedAsFar;
    StillHeld(d);
    d.script := cut;
    r := d.Deploy();
    crashed := r == Failed(Crashed);
    started := d.disk.journal.Some?;
    if crashed {
      StillHeld(d);
      d.script := [];
      r := d.Deploy();
    }
  }

  /** Any number of calls cut off by power failures, then one that nothing
      interrupts: everything is as before, or deployed under its receipt. */
  method InterruptedRuns(d: Deployment, cuts: seq<Script>) returns (r: Outcome)
    requires d.Valid() && d.undisturbed && d.disk.receipt.None? && Held(d.disk.live, d.preconditions)
    requires forall k :: 0 <= k < |cuts| ==> NoWrites(cuts[k]) && NoRaises(cuts[k])
    modifies d
    ensures d.Valid() && d.undisturbed && d.disk.receipt.Some? && d.Settled()
  {
    hide Held, AllNew, NoWrites, FirstCallFails, UndoFails, PromotedAsFar;
    StillHeld(d);
    r := Done;
    for k := 0 to |cuts|
      invariant d.Valid() && d.undisturbed && Held(d.base.live, d.preconditions)
      invariant d.disk.receipt.Some? ==> d.Settled()
    {
      if d.disk.receipt.None? {
        StillHeld(d);
        d.script := cuts[k];
        QuietNeverFails(d);
        r := d.Deploy();
      }
    }
    if d.disk.receipt.None? {
      StillHeld(d);
      d.script := [];
      r := d.Deploy();
    }
  }

  lemma QuietNeverFails(d: Deployment)
    requires NoRaises(d.script)
    ensures !d.RollbackFails()
  {
    forall n: nat ensures !Advance(d.script, n).0.Raised() { NeverRaises(d.script, n); }
  }

  /** Cut off after COMPLETED was saved: every file is new when power fails, and the
      retry puts everything back. */
  method CutAfterCompleted(d: Deployment) returns (between: map<Path, Content>, r: Outcome)
    requires d.Valid() && d.undisturbed && d.disk.receipt.None?
    requires d.disk.journal.None? && Held(d.disk.live, d.preconditions)
    modifies d
    ensures d.Valid() && d.undisturbed && AllNew(between, d.entries)
    ensures r == Done && d.disk.live == d.base.live && d.disk.dirs == d.base.dirs
  {
    hide Held, NoWrites, FirstCallFails, UndoFails, Advance;
    var steps := AllSteps(d.disk.live, d.disk.dirs, d.entries) - 1;
    StillHeld(d);
    CutAfter<Edit>(steps, 0);
    StepsAround<Edit>(CutAt(steps), steps);
    d.script := CutAt(steps);
    r := d.Deploy();
    between := d.disk.live;
    StillHeld(d);
    d.script := [];
    r := d.Deploy();
  }

  /** Power is cut after the replacement of the only file. */
  method CutAfterReplacement(next: Content) returns (d: Deployment)
    ensures fresh(d) && d.Valid() && d.undisturbed && d.base.live == map[] && d.preconditions == []
    ensures d.disk.receipt.None? && |d.entries| == 1 && Get(d.disk.live, d.entries[0].target) == Some(next)
  {
    hide NoWrites, Advance, PromotedAsFar, StepsToPromote, AllSteps, FirstCallFails, UndoFails, LogSound;
    hide WellFormed, Apart;
    var entries := [Entry(["a"], next)];
    EmptyIsSound(entries);
    d := new Deployment(entries, [], map[], {});
    CutSteps(entries);
    d.script := CutAt(10);
    var _ := d.Deploy();
    OnlyFileNew(d.base, d.disk.live, d.entries);
  }

  /** A run without an outside writer that does not settle: power is cut after the
      replacement of a file, and the rollback of the retry raises. */
  method DeployRollbackRaises(next: Content) returns (d: Deployment, r: Outcome)
    ensures fresh(d) && d.Valid() && d.undisturbed && d.base.live == map[]
    ensures r.Failed? && d.disk.receipt == Some(RollbackFailedReceipt) && d.disk.live != d.base.live
  {
    hide NoWrites, Advance, PromotedAsFar, FirstCallFails, UndoFails, LogSound;
    d := CutAfterReplacement(next);
    d.script := [Moment([], Raise)];
    FirstStep(d.script);
    NoRest();
    OnlyFileFails(d);
    r := d.Deploy();
  }

  lemma NoRest()
    ensures Advance<Edit>([], 2).0 == Done
  {
  }

  lemma OnlyFileFails(d: Deployment)
    requires d.Valid() && d.undisturbed && d.base.live == map[] && d.disk.receipt.None? && |d.entries| == 1
    requires Get(d.disk.live, d.entries[0].target).Some? && Advance(d.script, 1).0.Raised()
    ensures d.RollbackFails() && d.disk.journal.Some? && d.disk.journal.value.records != []
  {
    hide Advance;
    SlotOf(d.base, d.disk, d.entries, d.disk.journal.value, 0);
    assert Get(d.disk.live, d.entries[0].target) != d.disk.journal.value.records[0].prior;
  }

  lemma EmptyIsSound(entries: seq<Entry>)
    ensures WellFormed(Baseline(map[], {})) && Apart(entries, [])
  {
  }

  lemma OnlyFileNew(base: Baseline, live: map<Path, Content>, entries: seq<Entry>)
    requires |entries| == 1 && PromotedAsFar(base, live, entries, CutAt(10), 7)
    ensures Get(live, entries[0].target) == Some(entries[0].next)
  {
    CutAfter<Edit>(10, 0);
  }

  lemma CutSteps(entries: seq<Entry>)
    requires |entries| == 1 && |entries[0].target| == 1
    ensures StepsToPromote(map[], {}, entries) == 7
    ensures Advance<Edit>(CutAt(10), AllSteps(map[], {}, entries)).0 == Failed(Crashed)
  {
    OneFileSteps(entries);
    CutAfter<Edit>(10, 3);
  }

  lemma OneFileSteps(entries: seq<Entry>)
    requires |entries| == 1 && |entries[0].target| == 1
    ensures StepsToPromote(map[], {}, entries) == 7
  {
    assert entries[..|entries| - 1] == [];
    assert Present(map[], entries) == 0;
    assert MissingDirs({}, entries) == {};
  }

  lemma UnboundIsUndone(base: Baseline, d: Disk, entries: seq<Entry>, j: Journal)
    requires JournalSound(base, d, entries, j)
    ensures j.records == [] ==> d.live == base.live && d.dirs == base.dirs
  {
  }

  lemma OthersOf(base: Baseline, d: Disk, entries: seq<Entry>, j: Journal)
    requires JournalSound(base, d, entries, j) && j.records != []
    ensures OthersAsBefore(base, d.live, entries)
  {
  }

  lemma PriorsAgree(a: seq<Record>, b: seq<Record>, i: nat)
    requires Priors(a) == Priors(b) && i < |a|
    ensures i < |b| && a[i].prior == b[i].prior
  {
    assert |Priors(a)| == |Priors(b)|;
    assert Priors(a)[i] == Priors(b)[i];
  }

  lemma PriorsKept(records: seq<Record>, i: nat)
    requires i < |records|
    ensures Priors(records[i := records[i].(started := false, promoted := false)]) == Priors(records)
  {
  }

  lemma SlotOf(base: Baseline, d: Disk, entries: seq<Entry>, j: Journal, i: nat)
    requires JournalSound(base, d, entries, j) && i < |entries| == |j.records|
    ensures SlotSound(entries, j.records, d.live, i) && j.records[i].prior == Get(base.live, entries[i].target)
    ensures j.records[i].prior.Some? ==> Get(d.backups, i) == j.records[i].prior
  {
  }

  lemma Unflagged(base: Baseline, d: Disk, entries: seq<Entry>, j: Journal, i: nat)
    requires JournalSound(base, d, entries, j) && i < |entries| == |j.records|
    requires Get(d.live, entries[i].target) == j.records[i].prior
    ensures JournalSound(base, d, entries,
        j.(records := j.records[i := j.records[i].(started := false, promoted := false)]))
  {
    PriorsKept(j.records, i);
    FlagsChanged(base, d, entries, j.records, j.records[i := j.records[i].(started := false, promoted := false)],
        j.created);
  }

  lemma FileRestored(base: Baseline, before: Disk, after: Disk, entries: seq<Entry>, j: Journal, i: nat)
    requires DistinctTargets(entries) && i < |entries| == |j.records| && JournalSound(base, before, entries, j)
    requires after == before.(live := after.live)
    requires forall path :: path != entries[i].target ==> Get(after.live, path) == Get(before.live, path)
    requires Get(after.live, entries[i].target) == j.records[i].prior
    ensures JournalSound(base, after, entries, j)
  {
    FileChanged(base, before, after, entries, j, i);
  }

  lemma ShallowestExists(todo: set<Path>) returns (dir: Path)
    requires todo != {}
    ensures dir in todo && forall other :: other in todo ==> |dir| <= |other|
    decreases |todo|
  {
    dir :| dir in todo;
    var rest := todo - {dir};
    if rest != {} {
      var shallowest := ShallowestExists(rest);
      if |shallowest| < |dir| { dir := shallowest; }
    }
  }

  /** Directories in the order they are created: parents first. */
  method ShallowestFirst(dirs: set<Path>) returns (order: seq<Path>)
    ensures |order| == |dirs| && forall dir :: dir in order <==> dir in dirs
    ensures forall i, j :: 0 <= i < j < |order| ==> |order[i]| <= |order[j]|
  {
    order := [];
    var todo := dirs;
    while todo != {}
      invariant todo <= dirs && |order| + |todo| == |dirs|
      invariant forall dir :: dir in order <==> dir in dirs && dir !in todo
      invariant forall i, j :: 0 <= i < j < |order| ==> |order[i]| <= |order[j]|
      invariant forall i, dir :: 0 <= i < |order| && dir in todo ==> |order[i]| <= |dir|
      decreases todo
    {
      ghost var shallowest := ShallowestExists(todo);
      var dir :| dir in todo && forall other :: other in todo ==> |dir| <= |other|;
      order := order + [dir];
      todo := todo - {dir};
    }
  }

  lemma Flagging(base: Baseline, d: Disk, entries: seq<Entry>, before: Journal, after: Journal)
    requires JournalSound(base, d, entries, before) && before.created == after.created
    requires Priors(after.records) == Priors(before.records)
    requires forall i ::
              0 <= i < |before.records| && i < |after.records| && before.records[i].Flagged() ==>
                after.records[i].Flagged()
    ensures JournalSound(base, d, entries, after)
  {
    assert |Priors(after.records)| == |Priors(before.records)|;
    if before.records != [] { FlagsChanged(base, d, entries, before.records, after.records, before.created); }
  }

  lemma FilePromoted(base: Baseline, before: Disk, after: Disk, entries: seq<Entry>, j: Journal, i: nat)
    requires DistinctTargets(entries) && i < |entries| == |j.records| && JournalSound(base, before, entries, j)
    requires after == before.(live := before.live[entries[i].target := entries[i].next], stage := after.stage)
    requires j.records[i].Flagged()
    ensures JournalSound(base, after, entries, j)
  {
    var moved := before.(live := after.live);
    FileChanged(base, before, moved, entries, j, i);
    WorkspaceDoesNotMatter(base, moved, after, entries, j);
  }

  lemma CapturedIsSound(base: Baseline, d: Disk, entries: seq<Entry>, j: Journal, records: seq<Record>)
    requires JournalSound(base, d, entries, j) && j.records == [] && j.created == {} && entries != []
    requires Captured(base, entries, records) && BackedUp(d.backups, records)
    ensures JournalSound(base, d, entries, j.(records := records))
  {
    forall i: nat | i < |entries| ensures SlotSound(entries, records, d.live, i) {
      assert records[i].prior == Get(base.live, entries[i].target);
    }
  }

  lemma BaselineIsHeld(base: Baseline, d: Disk, entries: seq<Entry>, j: Journal)
    requires JournalSound(base, d, entries, j) && |j.records| == |entries| && d.live == base.live
    ensures forall i :: 0 <= i < |entries| ==> Get(d.live, entries[i].target) == j.records[i].prior
  {
  }

  lemma MissingIsSound(base: Baseline, d: Disk, entries: seq<Entry>, j: Journal)
    requires JournalSound(base, d, entries, j) && j.records != [] && j.created == {}
    ensures JournalSound(base, d, entries, j.(created := MissingDirs(d.dirs, entries)))
  {
    forall i: nat | i < |entries| ensures SlotSound(entries, j.records, d.live, i) {}
  }

  lemma OthersStay(entries: seq<Entry>, before: map<Path, Content>, after: map<Path, Content>, i: nat)
    requires DistinctTargets(entries) && i < |entries|
    requires forall path :: path != entries[i].target ==> Get(after, path) == Get(before, path)
    ensures forall m: nat :: m < |entries| && m != i ==> Get(after, entries[m].target) == Get(before, entries[m].target)
  {
    forall m: nat | m < |entries| && m != i ensures entries[m].target != entries[i].target {
      if m < i {
        assert entries[m].target != entries[i].target;
      } else {
        assert entries[i].target != entries[m].target;
      }
    }
  }

  lemma SharedAreKept(base: Baseline, d: Disk, entries: seq<Entry>, preconditions: seq<(Path, Content)>, j: Journal)
    requires JournalSound(base, d, entries, j) && Apart(entries, preconditions)
    ensures Held(d.live, preconditions) == Held(base.live, preconditions)
  {
    if j.records != [] {
      forall k | 0 <= k < |preconditions|
        ensures Get(d.live, preconditions[k].0) == Get(base.live, preconditions[k].0)
      {
      }
    }
  }

  lemma FlagsNeedRecords(records: seq<Record>)
    ensures records == [] ==> NoneFlagged(records)
  {
  }
}
