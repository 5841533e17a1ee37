/** The durable state of the installer and what it means for it to be sound.
    Content hashes are collision-free, so content stands for its own hash. */
module InstallModel {
  import opened Wrappers

  type Digest = nat

  /** What a path holds: one regular file or one directory tree. */
  datatype Content = File(sha: Digest) | Directory(sha: Digest)

  /** The two places a transaction keeps its private workspace. */
  datatype Role = Skills | CodexHome

  datatype Operation = Installation | Uninstallation

  datatype Step = NotStarted | OldMoved | NewMoved | Verified

  datatype Phase =
    | NoPhase | LockAcquired | PreflightVerified | SourceVerified | StageVerified
    | PromotionPrepared | Promoting | LiveTargetsVerified | CurrentPointerCommitted
    | CleanupComplete

  datatype Status = InProgress | RolledBack | Committed | Noop | RecoveryFailed

  datatype PointerStatus = Installed | Uninstalled

  /** The content of current.json. */
  datatype Pointer = Pointer(status: PointerStatus, transaction: nat)

  /** One managed path of one transaction; `None` is "absent". */
  datatype Target = Target(id: string, role: Role, prior: Option<Content>, next: Option<Content>)

  /** The private slots of target `index` of transaction `transaction`. */
  datatype Slot = Slot(transaction: nat, index: nat)

  datatype Journal = Journal(
    operation: Operation,
    status: Status,
    phase: Phase,
    targets: seq<Target>,
    steps: seq<Step>,
    retainedPaths: set<nat>,
    previousPointer: Option<Pointer>,
    newPointer: Option<Pointer>,
    runtimeFinalized: bool,
    recoveryAttempted: bool)
  {
    /** No later run will act on this journal. */
    predicate Closed() {
      status.RolledBack? || status.Committed? || status.Noop?
    }

    /** What recovery decides from; the rest of a journal is a record for people. */
    predicate SameFacts(other: Journal) {
      && targets == other.targets
      && |steps| == |other.steps|
      && previousPointer == other.previousPointer
      && newPointer == other.newPointer
    }
  }

  /** What survives a crash. */
  datatype State = State(
    live: map<string, Content>,
    current: Option<Pointer>,
    journals: seq<Journal>,
    staged: map<Slot, Content>,
    rollback: map<Slot, Content>,
    retained: map<Slot, Content>)

  /** Live paths and commit pointer: what a user of the installation sees. */
  datatype View = View(live: map<string, Content>, current: Option<Pointer>)

  ghost predicate DistinctIds(targets: seq<Target>) {
    forall i, j :: 0 <= i < j < |targets| ==> targets[i].id != targets[j].id
  }

  // ---------------------------------------------------------------------
  // Reference semantics: committed transactions replayed one after the other
  // ---------------------------------------------------------------------

  /** Every target replaced by its new content, all at once. */
  ghost function Replaced(live: map<string, Content>, targets: seq<Target>): map<string, Content> {
    if targets == [] then live
    else
      var last := targets[|targets| - 1];
      Put(Replaced(live, targets[..|targets| - 1]), last.id, last.next)
  }

  /** What the managed paths held before the first transaction: anything at all. */
  const ORIGIN: map<string, Content>

  /** The view reached by performing the committed transactions in order and
      skipping all others entirely. */
  ghost function Settled(journals: seq<Journal>): View {
    if journals == [] then View(ORIGIN, None)
    else
      var before := Settled(journals[..|journals| - 1]);
      var last := journals[|journals| - 1];
      if last.status == Committed then View(Replaced(before.live, last.targets), last.newPointer)
      else before
  }

  ghost function Ids(targets: seq<Target>): set<string> {
    set i | 0 <= i < |targets| :: targets[i].id
  }

  ghost predicate Untouched(live: map<string, Content>, base: map<string, Content>, targets: seq<Target>) {
    forall id :: id !in Ids(targets) ==> Get(live, id) == Get(base, id)
  }

  lemma {:induction false} ReplacedLookups(live: map<string, Content>, targets: seq<Target>)
    requires DistinctIds(targets)
    ensures forall i :: 0 <= i < |targets| ==> Get(Replaced(live, targets), targets[i].id) == targets[i].next
    ensures Untouched(Replaced(live, targets), live, targets)
  {
    if targets != [] {
      var init := targets[..|targets| - 1];
      ReplacedLookups(live, init);
      assert Ids(targets) == Ids(init) + {targets[|targets| - 1].id};
    }
  }

  // ---------------------------------------------------------------------
  // One open transaction
  // ---------------------------------------------------------------------

  /** Live and rollback slot of one target before the commit: untouched, moved
      away, copied away, or replaced with the prior content set aside. */
  predicate SlotSound(t: Target, live: Option<Content>, aside: Option<Content>) {
    || (live == t.prior && aside == None)
    || (aside == t.prior && (live == None || live == t.prior || live == t.next))
  }

  ghost predicate SlotsSound(s: State, j: Journal, k: nat) {
    forall i :: 0 <= i < |j.targets| ==>
      SlotSound(j.targets[i], Get(s.live, j.targets[i].id), Get(s.rollback, Slot(k, i)))
  }

  ghost predicate BeforeCommit(s: State, j: Journal, k: nat, base: View) {
    && s.current == base.current
    && Untouched(s.live, base.live, j.targets)
    && SlotsSound(s, j, k)
    && forall i :: 0 <= i < |j.targets| ==> Slot(k, i) !in s.retained
  }

  predicate AllNew(live: map<string, Content>, targets: seq<Target>) {
    forall i :: 0 <= i < |targets| ==> Get(live, targets[i].id) == targets[i].next
  }

  ghost predicate AllPrior(live: map<string, Content>, targets: seq<Target>) {
    forall i :: 0 <= i < |targets| ==> Get(live, targets[i].id) == targets[i].prior
  }

  /** Every originally present target has its prior content in `copies`. */
  ghost predicate AllHeld(copies: map<Slot, Content>, targets: seq<Target>, k: nat) {
    forall i :: 0 <= i < |targets| && targets[i].prior.Some? ==> Get(copies, Slot(k, i)) == targets[i].prior
  }

  /** A copy is either absent or exactly the prior content. */
  ghost predicate OnlyPrior(copies: map<Slot, Content>, targets: seq<Target>, k: nat) {
    forall i :: 0 <= i < |targets| ==> Get(copies, Slot(k, i)) in {None, targets[i].prior}
  }

  ghost predicate AfterCommit(s: State, j: Journal, k: nat, base: View) {
    && j.newPointer.Some?
    && s.current == j.newPointer
    && Untouched(s.live, base.live, j.targets)
    && AllNew(s.live, j.targets)
    && OnlyPrior(s.rollback, j.targets, k)
    && OnlyPrior(s.retained, j.targets, k)
    && (AllHeld(s.rollback, j.targets, k) || AllHeld(s.retained, j.targets, k))
  }

  ghost predicate OpenSound(s: State, j: Journal, k: nat, base: View) {
    BeforeCommit(s, j, k, base) || AfterCommit(s, j, k, base)
  }

  // ---------------------------------------------------------------------
  // The whole state
  // ---------------------------------------------------------------------

  /** A journal tells the truth about the view it started from. */
  ghost predicate JournalSound(j: Journal, k: nat, base: View) {
    && DistinctIds(j.targets)
    && |j.steps| == |j.targets|
    && AllPrior(base.live, j.targets)
    && j.previousPointer == base.current
    && (j.newPointer.Some? ==> j.newPointer.value.transaction == k)
    && (j.status == Committed ==> j.newPointer.Some?)
    && (j.status == Noop ==> j.targets == [] && j.newPointer.None?)
  }

  ghost predicate JournalsSound(journals: seq<Journal>) {
    && (forall k :: 0 <= k < |journals| ==> JournalSound(journals[k], k, Settled(journals[..k])))
    && (forall k :: 0 <= k < |journals| - 1 ==> journals[k].Closed())
  }

  /** Everything about a sound state except what the last transaction did. */
  ghost predicate Framed(s: State) {
    && JournalsSound(s.journals)
    && (forall k :: 0 <= k < |s.journals| && s.journals[k].status == Committed ==>
          AllHeld(s.retained, s.journals[k].targets, k))
    && (forall slot :: slot in s.retained || slot in s.rollback ==> slot.transaction < |s.journals|)
  }

  /** The journals of all transactions but the last. */
  function Earlier(s: State): seq<Journal>
    requires s.journals != []
  {
    s.journals[..|s.journals| - 1]
  }

  /** The view before the last transaction began. */
  ghost function Base(s: State): View
    requires s.journals != []
  {
    Settled(Earlier(s))
  }

  function Last(journals: seq<Journal>): Journal
    requires journals != []
  {
    journals[|journals| - 1]
  }

  /** The invariant of every reachable durable state. */
  ghost predicate Sound(s: State) {
    && Framed(s)
    && if s.journals == [] || Last(s.journals).Closed()
       then View(s.live, s.current) == Settled(s.journals)
       else OpenSound(s, Last(s.journals), |s.journals| - 1, Base(s))
  }

  /** Only the record kept in the last journal differs, not its facts. */
  ghost predicate SameRun(before: seq<Journal>, after: seq<Journal>) {
    && |before| == |after| > 0
    && after == before[|before| - 1 := Last(after)]
    && Last(before).SameFacts(Last(after))
    && (Last(before).recoveryAttempted ==> Last(after).recoveryAttempted)
  }

  lemma JournalsStaySound(before: seq<Journal>, after: seq<Journal>)
    requires JournalsSound(before)
    requires SameRun(before, after)
    requires Last(after).status == Committed ==> Last(after).newPointer.Some?
    requires Last(after).status == Noop ==> Last(after).targets == [] && Last(after).newPointer.None?
    ensures JournalsSound(after)
  {
    forall k | 0 <= k < |after| ensures JournalSound(after[k], k, Settled(after[..k])) {
      assert after[..k] == before[..k];
      assert JournalSound(before[k], k, Settled(before[..k]));
    }
  }

  // ---------------------------------------------------------------------
  // Work on one target at a time
  // ---------------------------------------------------------------------

  /** The slots a transaction owns for one target. */
  datatype Slots = Slots(live: Option<Content>, staged: Option<Content>, aside: Option<Content>)

  function At(s: State, t: Target, slot: Slot): Slots {
    Slots(Get(s.live, t.id), Get(s.staged, slot), Get(s.rollback, slot))
  }

  /** `after` differs from `before` at most in the slots of one target and in
      the record kept in the last journal. */
  ghost predicate Working(before: State, after: State, t: Target, slot: Slot) {
    && SameRun(before.journals, after.journals)
    && after.current == before.current
    && after.retained == before.retained
    && (forall other :: other != t.id ==> Get(after.live, other) == Get(before.live, other))
    && (forall other :: other != slot ==> Get(after.staged, other) == Get(before.staged, other))
    && (forall other :: other != slot ==> Get(after.rollback, other) == Get(before.rollback, other))
  }

  lemma NoWork(s: State, t: Target, slot: Slot)
    requires s.journals != []
    ensures Working(s, s, t, slot)
  {
  }

  lemma WorkGoesOn(a: State, b: State, c: State, t: Target, slot: Slot)
    requires Working(a, b, t, slot) && Working(b, c, t, slot)
    ensures Working(a, c, t, slot)
  {
    forall other | other != t.id ensures Get(c.live, other) == Get(a.live, other) {
      assert Get(c.live, other) == Get(b.live, other);
    }
    forall other | other != slot
      ensures Get(c.staged, other) == Get(a.staged, other) && Get(c.rollback, other) == Get(a.rollback, other)
    {
      assert Get(c.staged, other) == Get(b.staged, other) && Get(c.rollback, other) == Get(b.rollback, other);
    }
  }

  /** The first `i` targets are promoted, the others still as found and staged. */
  ghost predicate Halfway(s: State, targets: seq<Target>, k: nat, i: nat) {
    && (forall m :: 0 <= m < i && m < |targets| ==>
          && At(s, targets[m], Slot(k, m)).live == targets[m].next
          && At(s, targets[m], Slot(k, m)).aside == targets[m].prior)
    && (forall m :: i <= m < |targets| ==>
          At(s, targets[m], Slot(k, m)).live == targets[m].prior && At(s, targets[m], Slot(k, m)).aside == None)
  }

  /** The staged copies of targets `i` and later are what the journal says. */
  ghost predicate StagedFrom(s: State, targets: seq<Target>, k: nat, i: nat) {
    forall m :: i <= m < |targets| ==> At(s, targets[m], Slot(k, m)).staged == targets[m].next
  }

  /** Work on target `i` leaves every other slot as it was. */
  lemma OthersKept(before: State, after: State, targets: seq<Target>, k: nat, i: nat)
    requires DistinctIds(targets) && i < |targets|
    requires Working(before, after, targets[i], Slot(k, i))
    ensures forall m :: 0 <= m < |targets| && m != i ==>
              At(after, targets[m], Slot(k, m)) == At(before, targets[m], Slot(k, m))
  {
    forall m | 0 <= m < |targets| && m != i
      ensures At(after, targets[m], Slot(k, m)) == At(before, targets[m], Slot(k, m))
    {
      assert targets[m].id != targets[i].id by {
        if m < i { assert targets[m].id != targets[i].id; } else { assert targets[i].id != targets[m].id; }
      }
      assert Slot(k, m) != Slot(k, i);
    }
  }

  /** Targets `i` and later are back at their prior content, slots given back. */
  ghost predicate RestoredFrom(s: State, targets: seq<Target>, k: nat, i: nat) {
    forall m :: i <= m < |targets| ==>
      At(s, targets[m], Slot(k, m)).live == targets[m].prior && At(s, targets[m], Slot(k, m)).aside == None
  }

  lemma RestoredOneMore(before: State, after: State, targets: seq<Target>, k: nat, i: nat)
    requires DistinctIds(targets) && i < |targets|
    requires Working(before, after, targets[i], Slot(k, i))
    requires RestoredFrom(before, targets, k, i + 1)
    requires At(after, targets[i], Slot(k, i)).live == targets[i].prior
    requires At(after, targets[i], Slot(k, i)).aside == None
    ensures RestoredFrom(after, targets, k, i)
  {
    OthersKept(before, after, targets, k, i);
  }

  lemma SlotIsSound(s: State, j: Journal, k: nat, i: nat, base: View)
    requires BeforeCommit(s, j, k, base) && i < |j.targets|
    ensures SlotSound(j.targets[i], At(s, j.targets[i], Slot(k, i)).live, At(s, j.targets[i], Slot(k, i)).aside)
  {
  }

  /** Content that is neither the prior nor the new content of its target. */
  predicate Foreign(t: Target, content: Option<Content>) {
    content.Some? && content != t.prior && content != t.next
  }

  /** Foreign content stays where it is. */
  ghost predicate ForeignKept(before: State, after: State, targets: seq<Target>) {
    forall m :: 0 <= m < |targets| && Foreign(targets[m], Get(before.live, targets[m].id)) ==>
      Get(after.live, targets[m].id) == Get(before.live, targets[m].id)
  }

  lemma ForeignStillKept(first: State, before: State, after: State, targets: seq<Target>, k: nat, i: nat)
    requires DistinctIds(targets) && i < |targets|
    requires Working(before, after, targets[i], Slot(k, i))
    requires ForeignKept(first, before, targets)
    requires Foreign(targets[i], At(before, targets[i], Slot(k, i)).live) ==>
               At(after, targets[i], Slot(k, i)).live == At(before, targets[i], Slot(k, i)).live
    ensures ForeignKept(first, after, targets)
  {
    OthersKept(before, after, targets, k, i);
    forall m | 0 <= m < |targets| && Foreign(targets[m], Get(first.live, targets[m].id))
      ensures Get(after.live, targets[m].id) == Get(first.live, targets[m].id)
    {
      assert At(after, targets[m], Slot(k, m)).live == At(before, targets[m], Slot(k, m)).live;
    }
  }

  lemma AtTheStart(s: State, targets: seq<Target>, k: nat)
    ensures ForeignKept(s, s, targets) && RestoredFrom(s, targets, k, |targets|) && AsideOnlyDropped(s, s)
  {
  }

  lemma WorkKeepsRest(before: State, after: State, t: Target, slot: Slot)
    requires Working(before, after, t, slot)
    ensures after.current == before.current && after.retained == before.retained
  {
  }

  // ---------------------------------------------------------------------
  // Retaining backups and giving the workspaces back
  // ---------------------------------------------------------------------

  /** Retained copies of the first `i` targets are in place. */
  ghost predicate HeldUpTo(s: State, targets: seq<Target>, k: nat, i: nat) {
    forall m :: 0 <= m < i && m < |targets| && Slot(k, m) in s.rollback ==>
        Get(s.retained, Slot(k, m)) == targets[m].prior
  }

  /** `after` has at most one more retained copy, of target `i`. */
  ghost predicate RetainedOneMore(before: State, after: State, slot: Slot) {
    && SameRun(before.journals, after.journals)
    && after == before.(journals := after.journals, retained := after.retained)
    && (after.retained == before.retained
        || (slot in before.rollback && slot !in before.retained
            && after.retained == before.retained[slot := before.rollback[slot]]))
  }

  lemma RetainingKeepsCommit(before: State, after: State, j: Journal, k: nat, i: nat, base: View)
    requires i < |j.targets|
    requires AfterCommit(before, j, k, base)
    requires RetainedOneMore(before, after, Slot(k, i))
    ensures AfterCommit(after, j, k, base)
    ensures HeldUpTo(before, j.targets, k, i)
            && (Slot(k, i) in before.rollback ==> Get(after.retained, Slot(k, i)) == j.targets[i].prior)
            ==> HeldUpTo(after, j.targets, k, i + 1)
  {
    var slot := Slot(k, i);
    forall m | 0 <= m < |j.targets| ensures Get(after.retained, Slot(k, m)) in {None, j.targets[m].prior} {
      assert Get(before.rollback, Slot(k, m)) in {None, j.targets[m].prior};
      assert Get(before.retained, Slot(k, m)) in {None, j.targets[m].prior};
    }
    if AllHeld(before.retained, j.targets, k) {
      forall m | 0 <= m < |j.targets| && j.targets[m].prior.Some?
        ensures Get(after.retained, Slot(k, m)) == j.targets[m].prior
      {
        assert Get(before.retained, Slot(k, m)) == j.targets[m].prior;
      }
    }
  }

  lemma AllRetained(s: State, j: Journal, k: nat, base: View)
    requires AfterCommit(s, j, k, base) && HeldUpTo(s, j.targets, k, |j.targets|)
    ensures AllHeld(s.retained, j.targets, k)
  {
  }

  lemma NothingHeldYet(s: State, targets: seq<Target>, k: nat)
    ensures HeldUpTo(s, targets, k, 0) && CopiesKept(s, s, k)
  {
  }

  lemma CopiesUnmoved(before: State, after: State, k: nat)
    requires after == before.(journals := after.journals)
    ensures CopiesKept(before, after, k)
    ensures forall slot :: slot in after.rollback && slot !in before.rollback ==> slot.transaction == k
  {
  }

  lemma CommittedCopies(s: State, j: Journal, k: nat, i: nat, base: View)
    requires i < |j.targets| && AfterCommit(s, j, k, base)
    ensures Get(s.rollback, Slot(k, i)) in {None, j.targets[i].prior}
    ensures Get(s.retained, Slot(k, i)) in {None, j.targets[i].prior}
  {
  }

  ghost predicate NoCopyLost(before: State, after: State) {
    forall slot :: slot in before.retained ==> slot in after.retained && after.retained[slot] == before.retained[slot]
  }

  /** No retained copy is lost; only transaction `k` may have gained some. */
  ghost predicate CopiesKept(before: State, after: State, k: nat) {
    && NoCopyLost(before, after)
    && (forall slot :: slot in after.retained && slot !in before.retained ==> slot.transaction == k)
  }

  lemma RetainingKeepsCopies(first: State, before: State, after: State, k: nat, i: nat)
    requires CopiesKept(first, before, k) && RetainedOneMore(before, after, Slot(k, i))
    ensures CopiesKept(first, after, k)
  {
  }

  /** Anything newly set aside belongs to transaction `k`. */
  ghost predicate AsideOnlyFor(before: State, after: State, k: nat) {
    && after.retained == before.retained
    && forall slot :: slot in after.rollback && slot !in before.rollback ==> slot.transaction == k
  }

  lemma NothingSetAside(s: State, k: nat)
    ensures AsideOnlyFor(s, s, k)
  {
  }

  lemma WorkSetsAsideOnlyFor(first: State, before: State, after: State, t: Target, k: nat, i: nat)
    requires AsideOnlyFor(first, before, k) && Working(before, after, t, Slot(k, i))
    ensures AsideOnlyFor(first, after, k)
  {
    forall slot | slot in after.rollback && slot !in first.rollback ensures slot.transaction == k {
      assert slot != Slot(k, i) ==> Get(after.rollback, slot) == Get(before.rollback, slot);
    }
  }

  /** No copy is set aside that was not set aside before. */
  ghost predicate AsideOnlyDropped(before: State, after: State) {
    forall slot :: slot in after.rollback ==> slot in before.rollback
  }

  /** A commit is recorded only once every backup is retained. */
  ghost predicate CommitRecorded(s: State, j: Journal, k: nat)
    requires s.journals != []
  {
    j.status == Committed || Last(s.journals).status == Committed ==> AllHeld(s.retained, j.targets, k)
  }

  lemma HeldStaysHeld(before: State, after: State, targets: seq<Target>, k: nat)
    requires NoCopyLost(before, after)
    ensures AllHeld(before.retained, targets, k) ==> AllHeld(after.retained, targets, k)
  {
    if AllHeld(before.retained, targets, k) {
      forall m | 0 <= m < |targets| && targets[m].prior.Some?
        ensures Get(after.retained, Slot(k, m)) == targets[m].prior
      {
        assert Get(before.retained, Slot(k, m)) == targets[m].prior;
      }
    }
  }

  lemma DroppingKeepsAll(first: State, before: State, after: State, j: Journal, k: nat)
    requires CopiesKept(first, before, k) && OnlyCopiesDropped(before, after)
    requires first.rollback == before.rollback
    ensures CopiesKept(first, after, k) && AsideOnlyDropped(first, after)
    ensures after.live == before.live && after.current == before.current && after.retained == before.retained
  {
  }

  /** `slots` after removing the directory that holds those of one role. */
  function WithoutRole(slots: map<Slot, Content>, k: nat, targets: seq<Target>, role: Role): map<Slot, Content> {
    map slot | slot in slots && !(slot.transaction == k && slot.index < |targets| && targets[slot.index].role == role)
      :: slots[slot]
  }

  /** `after` has lost at most staged and set-aside copies. */
  ghost predicate OnlyCopiesDropped(before: State, after: State) {
    && SameRun(before.journals, after.journals)
    && after == before.(journals := after.journals, staged := after.staged, rollback := after.rollback)
    && (forall slot :: slot in after.rollback ==>
        slot in before.rollback && after.rollback[slot] == before.rollback[slot])
  }

  /** Nothing staged or set aside is left of a transaction's targets. */
  ghost predicate WorkspaceGone(s: State, targets: seq<Target>, k: nat) {
    forall i: nat :: i < |targets| ==> Slot(k, i) !in s.staged && Slot(k, i) !in s.rollback
  }

  lemma BothRolesAreAll(before: State, half: State, after: State, targets: seq<Target>, k: nat)
    requires half.staged == WithoutRole(before.staged, k, targets, Skills)
    requires half.rollback == WithoutRole(before.rollback, k, targets, Skills)
    requires after.staged == WithoutRole(half.staged, k, targets, CodexHome)
    requires after.rollback == WithoutRole(half.rollback, k, targets, CodexHome)
    ensures WorkspaceGone(after, targets, k)
  {
    forall i: nat | i < |targets| ensures Slot(k, i) !in after.staged && Slot(k, i) !in after.rollback {
      assert targets[i].role == Skills || targets[i].role == CodexHome;
    }
  }

  lemma NothingDropped(s: State)
    requires s.journals != []
    ensures OnlyCopiesDropped(s, s)
  {
  }

  lemma DroppingGoesOn(a: State, b: State, c: State)
    requires OnlyCopiesDropped(a, b) && OnlyCopiesDropped(b, c)
    ensures OnlyCopiesDropped(a, c)
  {
  }

  lemma DroppingKeepsCommit(before: State, after: State, j: Journal, k: nat, base: View)
    requires AfterCommit(before, j, k, base) && AllHeld(before.retained, j.targets, k)
    requires OnlyCopiesDropped(before, after)
    ensures AfterCommit(after, j, k, base) && AllHeld(after.retained, j.targets, k)
  {
    forall m | 0 <= m < |j.targets| ensures Get(after.rollback, Slot(k, m)) in {None, j.targets[m].prior} {
      assert Get(before.rollback, Slot(k, m)) in {None, j.targets[m].prior};
    }
  }

  /** Saving a journal changes nothing recovery looks at. */
  lemma RecordsDoNotMatter(before: State, after: State, j: Journal, k: nat, base: View)
    requires after == before.(journals := after.journals)
    ensures BeforeCommit(before, j, k, base) == BeforeCommit(after, j, k, base)
    ensures AfterCommit(before, j, k, base) == AfterCommit(after, j, k, base)
    ensures RestoredFrom(before, j.targets, k, 0) == RestoredFrom(after, j.targets, k, 0)
    ensures forall first :: ForeignKept(first, before, j.targets) == ForeignKept(first, after, j.targets)
  {
  }

  lemma PointerUntouched(s: State, j: Journal, k: nat, base: View)
    ensures BeforeCommit(s, j, k, base) ==> s.current == base.current
  {
  }

  lemma PointerRestored(before: State, after: State, j: Journal, k: nat, base: View)
    requires after == before.(current := after.current)
    requires after.current in {before.current, j.previousPointer}
    ensures BeforeCommit(before, j, k, base) && base.current == j.previousPointer ==>
              BeforeCommit(after, j, k, base) && before.current == j.previousPointer
    ensures RestoredFrom(before, j.targets, k, 0) == RestoredFrom(after, j.targets, k, 0)
    ensures forall first :: ForeignKept(first, before, j.targets) == ForeignKept(first, after, j.targets)
  {
  }

  /** Only the facts of a journal matter to recoverability. */
  lemma FactsDecide(s: State, j: Journal, other: Journal, k: nat, base: View)
    requires j.SameFacts(other)
    ensures BeforeCommit(s, j, k, base) == BeforeCommit(s, other, k, base)
    ensures AfterCommit(s, j, k, base) == AfterCommit(s, other, k, base)
  {
  }

  lemma NextIsAsFound(s: State, targets: seq<Target>, k: nat, i: nat)
    requires i < |targets| && Halfway(s, targets, k, i)
    ensures At(s, targets[i], Slot(k, i)).live == targets[i].prior
    ensures At(s, targets[i], Slot(k, i)).aside == None
    ensures StagedFrom(s, targets, k, i) ==> At(s, targets[i], Slot(k, i)).staged == targets[i].next
  {
  }

  lemma PromotedOneMore(before: State, after: State, targets: seq<Target>, k: nat, i: nat)
    requires DistinctIds(targets) && i < |targets|
    requires Working(before, after, targets[i], Slot(k, i))
    requires Halfway(before, targets, k, i)
    requires At(after, targets[i], Slot(k, i)).live == targets[i].next
    requires At(after, targets[i], Slot(k, i)).aside == targets[i].prior
    ensures Halfway(after, targets, k, i + 1)
    ensures StagedFrom(before, targets, k, i) ==> StagedFrom(after, targets, k, i + 1)
  {
    OthersKept(before, after, targets, k, i);
  }

  /** Work that leaves target `i` in a recoverable position keeps the whole
      transaction recoverable. */
  lemma WorkKeepsBeforeCommit(before: State, after: State, j: Journal, k: nat, i: nat, base: View)
    requires DistinctIds(j.targets) && i < |j.targets|
    requires Working(before, after, j.targets[i], Slot(k, i))
    requires BeforeCommit(before, j, k, base)
    requires SlotSound(j.targets[i], At(after, j.targets[i], Slot(k, i)).live,
        At(after, j.targets[i], Slot(k, i)).aside)
    ensures BeforeCommit(after, j, k, base)
    ensures SameRun(before.journals, after.journals)
  {
    OthersKept(before, after, j.targets, k, i);
    forall m | 0 <= m < |j.targets|
      ensures SlotSound(j.targets[m], Get(after.live, j.targets[m].id), Get(after.rollback, Slot(k, m)))
    {
      assert m != i ==> At(after, j.targets[m], Slot(k, m)) == At(before, j.targets[m], Slot(k, m));
    }
    assert j.targets[i].id in Ids(j.targets);
  }

  lemma {:induction false} SettledPointerIsOld(journals: seq<Journal>)
    requires JournalsSound(journals)
    ensures Settled(journals).current.Some? ==> Settled(journals).current.value.transaction < |journals|
  {
    if journals != [] {
      var init := journals[..|journals| - 1];
      forall k | 0 <= k < |init| ensures JournalSound(init[k], k, Settled(init[..k])) {
        assert init[..k] == journals[..k];
        assert JournalSound(journals[k], k, Settled(journals[..k]));
      }
      SettledPointerIsOld(init);
      assert JournalSound(journals[|init|], |init|, Settled(journals[..|init|]));
    }
  }

  /** The two ways to be sound exclude each other: the pointer tells which. */
  lemma PointerDecides(s: State)
    requires Framed(s) && s.journals != []
    ensures BeforeCommit(s, Last(s.journals), |s.journals| - 1, Base(s)) ==>
              s.current != Last(s.journals).newPointer || Last(s.journals).newPointer.None?
  {
    var k := |s.journals| - 1;
    var init := s.journals[..k];
    forall m | 0 <= m < |init| ensures JournalSound(init[m], m, Settled(init[..m])) {
      assert init[..m] == s.journals[..m];
      assert JournalSound(s.journals[m], m, Settled(s.journals[..m]));
    }
    SettledPointerIsOld(init);
    assert JournalSound(s.journals[k], k, Settled(s.journals[..k]));
  }

  /** Back at the prior content everywhere is back at the starting view. */
  lemma PriorIsBase(s: State)
    requires Framed(s) && s.journals != []
    requires s.current == Base(s).current
    requires Untouched(s.live, Base(s).live, Last(s.journals).targets)
    requires AllPrior(s.live, Last(s.journals).targets)
    ensures View(s.live, s.current) == Base(s)
  {
    var k := |s.journals| - 1;
    var j := s.journals[k];
    assert JournalSound(j, k, Settled(s.journals[..k]));
    forall id ensures Get(s.live, id) == Get(Base(s).live, id) {
      if id in Ids(j.targets) {
        var i :| 0 <= i < |j.targets| && j.targets[i].id == id;
      }
    }
    SameLookups(s.live, Base(s).live);
  }

  /** New content everywhere and the new pointer is the view after the commit. */
  lemma NewIsReplaced(s: State)
    requires Framed(s) && s.journals != []
    requires AfterCommit(s, Last(s.journals), |s.journals| - 1, Base(s))
    ensures View(s.live, s.current) ==
        View(Replaced(Base(s).live, Last(s.journals).targets), Last(s.journals).newPointer)
  {
    var k := |s.journals| - 1;
    var j := s.journals[k];
    assert JournalSound(j, k, Settled(s.journals[..k]));
    var replaced := Replaced(Base(s).live, j.targets);
    ReplacedLookups(Base(s).live, j.targets);
    forall id ensures Get(s.live, id) == Get(replaced, id) {
      if id in Ids(j.targets) {
        var i :| 0 <= i < |j.targets| && j.targets[i].id == id;
      }
    }
    SameLookups(s.live, replaced);
  }

  // ---------------------------------------------------------------------
  // Putting the pieces together
  // ---------------------------------------------------------------------

  /** Commits stay backed up while the last transaction is worked on. */
  lemma BackupsStay(before: State, after: State)
    requires SameRun(before.journals, after.journals)
    requires NoCopyLost(before, after)
    requires forall k :: 0 <= k < |before.journals| && before.journals[k].status == Committed ==>
               AllHeld(before.retained, before.journals[k].targets, k)
    ensures forall k :: 0 <= k < |after.journals| - 1 && after.journals[k].status == Committed ==>
              AllHeld(after.retained, after.journals[k].targets, k)
  {
    hide NoCopyLost, AllHeld;
    forall k | 0 <= k < |after.journals| - 1 && after.journals[k].status == Committed
      ensures AllHeld(after.retained, after.journals[k].targets, k)
    {
      assert after.journals[k] == before.journals[k];
      HeldStaysHeld(before, after, after.journals[k].targets, k);
    }
  }

  /** The rest of the state stays framed while the last transaction is worked on. */
  lemma FramedStays(before: State, after: State)
    requires Framed(before) && before.journals != []
    requires SameRun(before.journals, after.journals)
    requires CopiesKept(before, after, |before.journals| - 1)
    requires forall slot ::
              slot in after.rollback && slot !in before.rollback ==> slot.transaction == |before.journals| - 1
    requires Last(after.journals).status == Committed ==>
               Last(after.journals).newPointer.Some?
                   && AllHeld(after.retained, Last(after.journals).targets, |after.journals| - 1)
    requires Last(after.journals).status == Noop ==>
               Last(after.journals).targets == [] && Last(after.journals).newPointer.None?
    ensures Framed(after) && Earlier(after) == Earlier(before)
  {
    hide JournalsSound, AllHeld, Settled;
    JournalsStaySound(before.journals, after.journals);
    assert after.journals[..|after.journals| - 1] == before.journals[..|before.journals| - 1];
    BackupsStay(before, after);
  }

  lemma CommitMeans(s: State, j: Journal, k: nat, base: View)
    requires AfterCommit(s, j, k, base)
    ensures j.newPointer.Some? && s.current == j.newPointer && AllNew(s.live, j.targets)
  {
  }

  lemma LastIsSound(s: State)
    requires Framed(s) && s.journals != []
    ensures JournalSound(Last(s.journals), |s.journals| - 1, Base(s))
  {
    assert JournalSound(s.journals[|s.journals| - 1], |s.journals| - 1, Settled(s.journals[..|s.journals| - 1]));
  }

  lemma CleanedUp(first: State, before: State, after: State, k: nat)
    requires before == first.(journals := before.journals)
    requires CopiesKept(before, after, k) && AsideOnlyDropped(before, after)
    ensures CopiesKept(first, after, k) && AsideOnlyDropped(first, after)
    ensures forall slot :: slot in after.rollback && slot !in first.rollback ==> slot.transaction == k
  {
  }

  predicate AllClosed(journals: seq<Journal>) {
    forall i :: 0 <= i < |journals| ==> journals[i].Closed()
  }

  /** The commit pointer once an interrupted transaction, if there is one, is
      finished: its own when that is already on disk, the one before otherwise. */
  function PointerAfterRecovery(s: State): Option<Pointer> {
    if AllClosed(s.journals) || CommitIsOnDisk(s) then s.current else Last(s.journals).previousPointer
  }

  predicate CommitIsOnDisk(s: State) {
    s.journals != [] && Last(s.journals).newPointer.Some? && s.current == Last(s.journals).newPointer
  }

  predicate NeedsHuman(journals: seq<Journal>) {
    exists i :: 0 <= i < |journals| && journals[i].status == RecoveryFailed
  }

  lemma OnlyLastIsOpen(s: State, k: nat)
    requires Sound(s) && k < |s.journals| && !s.journals[k].Closed()
    ensures k == |s.journals| - 1
    ensures forall m :: 0 <= m < k ==> s.journals[m].Closed()
  {
  }

  lemma AtMostOnePending(s: State, pending: seq<nat>)
    requires Sound(s)
    requires forall i :: 0 <= i < |pending| ==> pending[i] < |s.journals| && s.journals[pending[i]].status == InProgress
    requires forall a, b :: 0 <= a < b < |pending| ==> pending[a] < pending[b]
    ensures |pending| <= 1
  {
    if |pending| > 1 {
      var a, b := pending[0], pending[1];
      OnlyLastIsOpen(s, a);
      OnlyLastIsOpen(s, b);
    }
  }

  lemma NothingOpen(s: State)
    requires forall i :: 0 <= i < |s.journals| ==> s.journals[i].status !in {InProgress, RecoveryFailed}
    ensures AllClosed(s.journals)
  {
    forall i | 0 <= i < |s.journals| ensures s.journals[i].Closed() {
      assert !s.journals[i].status.InProgress? && !s.journals[i].status.RecoveryFailed?;
    }
  }

  lemma OnlyLastMayBeOpen(s: State)
    requires Sound(s) && s.journals != []
    ensures AllClosed(s.journals) <==> Last(s.journals).Closed()
  {
  }

  /** A record that leaves the journal open leaves the state sound. */
  lemma OpenRecordIsSound(before: State, after: State)
    requires Sound(before) && before.journals != [] && !Last(before.journals).Closed()
    requires after == before.(journals := after.journals)
    requires SameRun(before.journals, after.journals)
    requires Last(after.journals).status in {InProgress, RecoveryFailed}
    ensures Sound(after) && Framed(after) && Earlier(after) == Earlier(before)
    ensures OpenSound(after, Last(after.journals), |after.journals| - 1, Base(after))
  {
    var k := |before.journals| - 1;
    NothingHeldYet(before, [], k);
    FramedStays(before, after);
    FactsDecide(before, Last(before.journals), Last(after.journals), k, Base(before));
    RecordsDoNotMatter(before, after, Last(after.journals), k, Base(before));
  }

  lemma RolledForwardIsSound(s: State)
    requires Framed(s) && s.journals != []
    requires Last(s.journals).status in {InProgress, Committed}
    requires AfterCommit(s, Last(s.journals), |s.journals| - 1, Base(s))
    ensures Sound(s)
  {
    if Last(s.journals).status == Committed { NewIsReplaced(s); }
  }

  /** At the prior content everywhere, under an undone journal, all is settled. */
  lemma UndoneIsSound(s: State)
    requires Framed(s) && s.journals != []
    requires Last(s.journals).status in {RolledBack, Noop}
    requires s.current == Base(s).current && Untouched(s.live, Base(s).live, Last(s.journals).targets)
    requires AllPrior(s.live, Last(s.journals).targets)
    ensures Sound(s) && View(s.live, s.current) == Base(s)
  {
    PriorIsBase(s);
  }

  lemma StillOpenIsSound(s: State)
    requires Framed(s) && s.journals != []
    requires Last(s.journals).status in {InProgress, Noop, RecoveryFailed}
    requires BeforeCommit(s, Last(s.journals), |s.journals| - 1, Base(s))
    ensures Sound(s)
  {
    if Last(s.journals).status == Noop {
      LastIsSound(s);
      UndoneIsSound(s);
    }
  }

  lemma NothingLost(first: State, after: State, k: nat)
    requires first.retained == after.retained && AsideOnlyDropped(first, after)
    ensures CopiesKept(first, after, k)
    ensures forall slot :: slot in after.rollback && slot !in first.rollback ==> slot.transaction == k
  {
  }

  lemma DroppedOnAndOn(a: State, b: State, c: State)
    requires AsideOnlyDropped(a, b) && AsideOnlyDropped(b, c)
    ensures AsideOnlyDropped(a, c)
  {
  }

  lemma RestoredIsBase(s: State, j: Journal, k: nat, base: View)
    requires BeforeCommit(s, j, k, base) && RestoredFrom(s, j.targets, k, 0)
    ensures s.current == base.current && Untouched(s.live, base.live, j.targets) && AllPrior(s.live, j.targets)
  {
    RestoredIsPrior(s, j.targets, k);
  }

  lemma RestoredIsPrior(s: State, targets: seq<Target>, k: nat)
    ensures RestoredFrom(s, targets, k, 0) ==> AllPrior(s.live, targets)
  {
    if RestoredFrom(s, targets, k, 0) {
      forall i | 0 <= i < |targets| ensures Get(s.live, targets[i].id) == targets[i].prior {
        assert At(s, targets[i], Slot(k, i)).live == targets[i].prior;
      }
    }
  }

  // ---------------------------------------------------------------------
  // Beginning and committing
  // ---------------------------------------------------------------------

  /** A transaction that has only prepared: nothing of the view has moved. */
  ghost predicate Prepared(s: State, k: nat) {
    && s.journals != [] && k == |s.journals| - 1
    && View(s.live, s.current) == Base(s)
    && (forall slot :: slot in s.rollback || slot in s.retained ==> slot.transaction < k)
  }

  function NewJournal(operation: Operation, current: Option<Pointer>): Journal {
    Journal(operation, InProgress, NoPhase, [], [], {}, current, None, false, false)
  }

  lemma BeginningIsSound(before: State, after: State, operation: Operation)
    requires Sound(before) && AllClosed(before.journals)
    requires after == before.(journals := before.journals + [NewJournal(operation, before.current)])
    ensures Framed(after) && Prepared(after, |before.journals|)
    ensures BeforeCommit(after, Last(after.journals), |before.journals|, Base(after))
  {
    hide Settled, AllHeld;
    var n := |before.journals|;
    assert after.journals[..n] == before.journals;
    forall k | 0 <= k < |after.journals| ensures JournalSound(after.journals[k], k, Settled(after.journals[..k])) {
      if k < n {
        assert after.journals[..k] == before.journals[..k];
        assert JournalSound(before.journals[k], k, Settled(before.journals[..k]));
      }
    }
    forall k | 0 <= k < |after.journals| && after.journals[k].status == Committed
      ensures AllHeld(after.retained, after.journals[k].targets, k)
    {
      assert k < n && after.journals[k] == before.journals[k];
    }
  }

  lemma PreparedIsUntouched(s: State, j: Journal, k: nat)
    requires Prepared(s, k) && JournalSound(j, k, Base(s))
    ensures BeforeCommit(s, j, k, Base(s)) && Halfway(s, j.targets, k, 0)
  {
    forall i | 0 <= i < |j.targets|
      ensures At(s, j.targets[i], Slot(k, i)).live == j.targets[i].prior
      ensures At(s, j.targets[i], Slot(k, i)).aside == None && Slot(k, i) !in s.retained
    {
      assert Get(Base(s).live, j.targets[i].id) == j.targets[i].prior;
    }
  }

  /** The facts a prepared transaction may still settle on. */
  lemma BindingIsSound(before: State, after: State, j: Journal)
    requires Framed(before) && before.journals != [] && Prepared(before, |before.journals| - 1)
    requires after == before.(journals := before.journals[|before.journals| - 1 := j])
    requires JournalSound(j, |before.journals| - 1, Base(before))
    requires j.status == InProgress
    ensures Framed(after) && Prepared(after, |after.journals| - 1) && Earlier(after) == Earlier(before)
    ensures BeforeCommit(after, j, |after.journals| - 1, Base(after))
    ensures Halfway(after, j.targets, |after.journals| - 1, 0)
  {
    hide BeforeCommit, Halfway, AllHeld, Settled;
    var n := |before.journals|;
    assert after.journals[..n - 1] == before.journals[..n - 1];
    forall k | 0 <= k < n ensures JournalSound(after.journals[k], k, Settled(after.journals[..k])) {
      assert after.journals[..k] == before.journals[..k];
      assert k < n - 1 ==> JournalSound(before.journals[k], k, Settled(before.journals[..k]));
    }
    PreparedIsUntouched(after, j, n - 1);
  }

  /** The single pointer write takes the transaction from one side to the other. */
  lemma CommitPoint(before: State, after: State, j: Journal, k: nat, base: View)
    requires BeforeCommit(before, j, k, base) && Halfway(before, j.targets, k, |j.targets|)
    requires j.newPointer.Some? && after == before.(current := j.newPointer)
    ensures AfterCommit(after, j, k, base)
  {
    forall i | 0 <= i < |j.targets|
      ensures Get(after.live, j.targets[i].id) == j.targets[i].next
      ensures Get(after.rollback, Slot(k, i)) == j.targets[i].prior
    {
      assert At(before, j.targets[i], Slot(k, i)).live == j.targets[i].next;
    }
  }

  lemma RunningIsSound(s: State, j: Journal)
    requires Framed(s) && s.journals != [] && j.SameFacts(Last(s.journals))
    requires OpenSound(s, j, |s.journals| - 1, Base(s))
    requires Last(s.journals).status in {InProgress, Noop}
    ensures Sound(s)
  {
    FactsDecide(s, j, Last(s.journals), |s.journals| - 1, Base(s));
    if BeforeCommit(s, Last(s.journals), |s.journals| - 1, Base(s)) {
      StillOpenIsSound(s);
    } else {
      LastIsSound(s);
    }
  }

  lemma RecordsKeepHalfway(before: State, after: State, targets: seq<Target>, k: nat, i: nat)
    requires after == before.(journals := after.journals)
    ensures Halfway(before, targets, k, i) == Halfway(after, targets, k, i)
    ensures StagedFrom(before, targets, k, i) == StagedFrom(after, targets, k, i)
  {
  }

  lemma PromotedIsNew(s: State, targets: seq<Target>, k: nat)
    requires Halfway(s, targets, k, |targets|)
    ensures AllNew(s.live, targets)
  {
    forall i | 0 <= i < |targets| ensures Get(s.live, targets[i].id) == targets[i].next {
      assert At(s, targets[i], Slot(k, i)).live == targets[i].next;
    }
  }

  /** Setting content aside for the running transaction keeps the rest framed. */
  lemma OnlyAsideIsFramed(before: State, after: State)
    requires Framed(before) && before.journals != []
    requires SameRun(before.journals, after.journals) && AsideOnlyFor(before, after, |before.journals| - 1)
    requires Last(after.journals).status == InProgress
    ensures Framed(after) && Earlier(after) == Earlier(before)
  {
    hide JournalsSound, AllHeld, Settled;
    FramedStays(before, after);
  }

  lemma UnchangedIsOpen(first: State, s: State, j: Journal, k: nat)
    requires Prepared(first, k) && s.journals != [] && Base(s) == Base(first)
    requires s.live == first.live && s.current == first.current
    requires j.targets == Last(s.journals).targets == []
    ensures BeforeCommit(s, j, k, Base(s)) && BeforeCommit(s, Last(s.journals), k, Base(s))
  {
  }

  lemma StagingMovesNothing(before: State, after: State, j: Journal, k: nat)
    requires before.journals != [] && after == before.(staged := after.staged)
    ensures Framed(before) == Framed(after) && Prepared(before, k) == Prepared(after, k)
    ensures BeforeCommit(before, j, k, Base(before)) == BeforeCommit(after, j, k, Base(after))
  {
  }

  // ---------------------------------------------------------------------
  // Whole runs
  // ---------------------------------------------------------------------

  /** Journals are only added; a closed one is never touched again. */
  ghost predicate History(before: seq<Journal>, after: seq<Journal>) {
    && |before| <= |after|
    && forall k :: 0 <= k < |before| ==>
         && before[k].SameFacts(after[k])
         && (before[k].Closed() ==> after[k] == before[k])
         && (before[k].recoveryAttempted ==> after[k].recoveryAttempted)
  }

  /** What one command, interrupted or not, may do to the durable state. */
  ghost predicate Ran(before: State, after: State) {
    && Sound(after)
    && History(before.journals, after.journals)
    && |after.journals| <= |before.journals| + 1
    && (NeedsHuman(before.journals) ==> after == before)
    && (!AllClosed(before.journals) && Last(before.journals).recoveryAttempted ==>
          && after == before.(journals := after.journals)
          && |after.journals| == |before.journals|
          && !Last(after.journals).Closed())
    && (!AllClosed(before.journals) ==>
          after == before || after.journals[|before.journals| - 1].recoveryAttempted)
  }

  /** A run: every state is reached from the one before by one command. */
  ghost predicate Trace(states: seq<State>) {
    && states != [] && Sound(states[0])
    && forall i :: 0 <= i < |states| - 1 ==> Ran(states[i], states[i + 1])
  }

  lemma SameRunIsHistory(before: seq<Journal>, after: seq<Journal>)
    requires before != [] && SameRun(before, after) && !Last(before).Closed()
    ensures History(before, after)
  {
    forall k | 0 <= k < |before|
      ensures before[k].SameFacts(after[k]) && (before[k].Closed() ==> after[k] == before[k])
      ensures before[k].recoveryAttempted ==> after[k].recoveryAttempted
    {
    }
  }

  lemma AddingIsHistory(before: seq<Journal>, after: State)
    requires after.journals != [] && Earlier(after) == before
    ensures History(before, after.journals)
  {
    forall k | 0 <= k < |before| ensures after.journals[k] == before[k] {
      assert after.journals[k] == Earlier(after)[k];
    }
  }

  lemma HistoryGoesOn(a: seq<Journal>, b: seq<Journal>, c: seq<Journal>)
    requires History(a, b) && History(b, c)
    ensures History(a, c)
  {
  }

  lemma HistoryStarts(journals: seq<Journal>)
    ensures History(journals, journals)
  {
  }

  /** Recovery, then one new transaction at most. */
  lemma AfterRecovery(before: State, recovered: State, after: State)
    requires History(before.journals, recovered.journals) && |recovered.journals| == |before.journals|
    requires AllClosed(recovered.journals) && Sound(after)
    requires after == recovered || (after.journals != [] && Earlier(after) == recovered.journals)
    requires recovered == before || (recovered.journals != [] && Last(recovered.journals).recoveryAttempted)
    requires !NeedsHuman(before.journals)
    requires AllClosed(before.journals) || !Last(before.journals).recoveryAttempted
    ensures Ran(before, after)
  {
    hide Sound;
    if after != recovered {
      AddingIsHistory(recovered.journals, after);
      HistoryGoesOn(before.journals, recovered.journals, after.journals);
      if recovered.journals != [] {
        assert after.journals[|before.journals| - 1] == Earlier(after)[|before.journals| - 1];
      }
    }
  }

  /** A new journal records the pointer it found. */
  lemma PointerIsRecorded(before: State, after: State)
    requires Sound(before) && AllClosed(before.journals) && Sound(after)
    requires after.journals != [] && Earlier(after) == before.journals
    ensures Last(after.journals).previousPointer == before.current
  {
    LastIsSound(after);
    if before.journals != [] { assert Last(before.journals).Closed(); }
  }

  lemma RanIsSound(before: State, after: State)
    requires Ran(before, after)
    ensures Sound(after)
  {
  }

  lemma AttemptStaysSpent(before: State, after: State)
    requires Ran(before, after) && !AllClosed(before.journals) && Last(before.journals).recoveryAttempted
    ensures after == before.(journals := after.journals) && |after.journals| == |before.journals|
    ensures !AllClosed(after.journals) && Last(after.journals).recoveryAttempted
  {
  }

  /** In no run does a journal get a second recovery attempt: once the attempt
      is on record, no command can move a path, the pointer or a copy, nor begin
      anything new, while that journal is open. */
  lemma {:induction false} OneRecoveryAttempt(states: seq<State>, a: nat, b: nat)
    requires Trace(states) && a <= b < |states|
    requires !AllClosed(states[a].journals) && Last(states[a].journals).recoveryAttempted
    ensures states[b] == states[a].(journals := states[b].journals)
    ensures |states[b].journals| == |states[a].journals| && !AllClosed(states[b].journals)
    ensures Last(states[b].journals).recoveryAttempted
    decreases b - a
  {
    if a < b {
      assert Ran(states[a], states[a + 1]);
      AttemptStaysSpent(states[a], states[a + 1]);
      hide Ran, AllClosed;
      OneRecoveryAttempt(states, a + 1, b);
    }
  }

  /** Once a transaction needs a human, no later command changes anything. */
  lemma {:induction false} FailedForever(states: seq<State>, a: nat, b: nat)
    requires Trace(states) && a <= b < |states| && NeedsHuman(states[a].journals)
    ensures states[b] == states[a]
    decreases b - a
  {
    if a < b {
      assert Ran(states[a], states[a + 1]);
      FailedForever(states, a + 1, b);
    }
  }

  lemma {:induction false} HistoryOfRun(states: seq<State>, a: nat, b: nat)
    requires Trace(states) && a <= b < |states|
    ensures Sound(states[b]) && History(states[a].journals, states[b].journals)
    decreases b
  {
    hide Sound, History;
    HistoryStarts(states[a].journals);
    if a < b {
      HistoryOfRun(states, a, b - 1);
      assert Ran(states[b - 1], states[b]);
      HistoryGoesOn(states[a].journals, states[b - 1].journals, states[b].journals);
    } else if a > 0 {
      assert Ran(states[a - 1], states[a]);
    }
  }

  /** A commit is final: whatever runs later, the transaction stays committed and
      every path it replaced keeps its verified backup. */
  lemma CommitIsFinal(states: seq<State>, a: nat, b: nat, k: nat)
    requires Trace(states) && a <= b < |states|
    requires k < |states[a].journals| && states[a].journals[k].status == Committed
    ensures k < |states[b].journals| && states[b].journals[k] == states[a].journals[k]
    ensures AllHeld(states[b].retained, states[a].journals[k].targets, k)
  {
    HistoryOfRun(states, a, b);
  }

  // ---------------------------------------------------------------------
  // What soundness says
  // ---------------------------------------------------------------------

  /** Atomicity: with every journal closed the installation is exactly what the
      committed transactions, replayed in order, make of an empty one. */
  lemma AllOrNothing(s: State)
    requires Sound(s) && AllClosed(s.journals)
    ensures View(s.live, s.current) == Settled(s.journals)
  {
    if s.journals != [] { OnlyLastMayBeOpen(s); }
  }

  /** A closed last journal says where pointer and targets are. */
  lemma ClosedTells(s: State)
    requires Sound(s) && s.journals != [] && Last(s.journals).Closed()
    ensures Last(s.journals).status == Committed ==>
              s.current == Last(s.journals).newPointer && AllNew(s.live, Last(s.journals).targets)
    ensures Last(s.journals).status != Committed ==>
              s.current == Last(s.journals).previousPointer && AllPrior(s.live, Last(s.journals).targets)
  {
    LastIsSound(s);
    ReplacedLookups(Base(s).live, Last(s.journals).targets);
  }

  /** Mixed states occur only under an open journal, and then every target still
      holds its prior or its new content, or nothing. */
  lemma MixedOnlyWhileOpen(s: State, i: nat)
    requires Sound(s) && s.journals != [] && i < |Last(s.journals).targets|
    ensures Get(s.live, Last(s.journals).targets[i].id) in
              {None, Last(s.journals).targets[i].prior, Last(s.journals).targets[i].next}
    ensures (Last(s.journals).Closed() ==>
              AllNew(s.live, Last(s.journals).targets) || AllPrior(s.live, Last(s.journals).targets))
  {
    if Last(s.journals).Closed() { ClosedTells(s); }
  }

  /** Prior content is never lost: it is live, set aside or retained. */
  lemma PriorSurvives(s: State, k: nat, i: nat)
    requires Sound(s) && k < |s.journals| && i < |s.journals[k].targets|
    requires s.journals[k].targets[i].prior.Some?
    requires s.journals[k].Closed() ==> s.journals[k].status == Committed
    ensures || Get(s.live, s.journals[k].targets[i].id) == s.journals[k].targets[i].prior
            || Get(s.rollback, Slot(k, i)) == s.journals[k].targets[i].prior
            || Get(s.retained, Slot(k, i)) == s.journals[k].targets[i].prior
  {
    if s.journals[k].status != Committed { OnlyLastIsOpen(s, k); }
  }

  /** A rollback slot is given up only once its content is live again or all
      prior content is retained. */
  lemma AsideUntilSafe(s: State, i: nat)
    requires Sound(s) && s.journals != [] && !Last(s.journals).Closed()
    requires i < |Last(s.journals).targets| && Last(s.journals).targets[i].prior.Some?
    requires Slot(|s.journals| - 1, i) !in s.rollback
    ensures || Get(s.live, Last(s.journals).targets[i].id) == Last(s.journals).targets[i].prior
            || AllHeld(s.retained, Last(s.journals).targets, |s.journals| - 1)
  {
    if BeforeCommit(s, Last(s.journals), |s.journals| - 1, Base(s)) {
      assert SlotSound(Last(s.journals).targets[i], Get(s.live, Last(s.journals).targets[i].id), None);
    }
  }

  /** However often rollback was cut off and repeated, it ends in the same place. */
  lemma RollbackConverges(s: State, t: State, j: Journal, k: nat, base: View)
    requires BeforeCommit(s, j, k, base) && RestoredFrom(s, j.targets, k, 0)
    requires BeforeCommit(t, j, k, base) && RestoredFrom(t, j.targets, k, 0)
    ensures View(s.live, s.current) == View(t.live, t.current)
    ensures forall i :: 0 <= i < |j.targets| ==> Get(s.rollback, Slot(k, i)) == Get(t.rollback, Slot(k, i)) == None
  {
    RestoredIsBase(s, j, k, base);
    RestoredIsBase(t, j, k, base);
    forall id ensures Get(s.live, id) == Get(t.live, id) {
      if id in Ids(j.targets) {
        var i :| 0 <= i < |j.targets| && j.targets[i].id == id;
      }
    }
    SameLookups(s.live, t.live);
    forall i | 0 <= i < |j.targets| ensures Get(s.rollback, Slot(k, i)) == Get(t.rollback, Slot(k, i)) == None {
      assert At(s, j.targets[i], Slot(k, i)).aside == At(t, j.targets[i], Slot(k, i)).aside == None;
    }
  }

  // ---------------------------------------------------------------------
  // The same of every state of every run
  // ---------------------------------------------------------------------

  /** In every state of every run in which no transaction is unfinished, the
      installation is the replay of the committed transactions. */
  lemma RunIsAllOrNothing(states: seq<State>, b: nat)
    requires Trace(states) && b < |states| && AllClosed(states[b].journals)
    ensures View(states[b].live, states[b].current) == Settled(states[b].journals)
    ensures states[b].journals != [] && Last(states[b].journals).status == Committed ==>
              states[b].current == Last(states[b].journals).newPointer
                  && AllNew(states[b].live, Last(states[b].journals).targets)
    ensures states[b].journals != [] && Last(states[b].journals).status != Committed ==>
              states[b].current == Last(states[b].journals).previousPointer
                  && AllPrior(states[b].live, Last(states[b].journals).targets)
  {
    hide Ran, Settled, Framed, AllNew, AllPrior;
    HistoryOfRun(states, b, b);
    AllOrNothing(states[b]);
    if states[b].journals != [] {
      OnlyLastMayBeOpen(states[b]);
      ClosedTells(states[b]);
    }
  }

  /** In no state of any run is more than one transaction unfinished, and only
      under an unfinished one can old and new content be mixed. */
  lemma RunMixesOnlyWhileOpen(states: seq<State>, b: nat, i: nat, k: nat)
    requires Trace(states) && b < |states| && states[b].journals != []
    requires i < |Last(states[b].journals).targets|
    ensures Get(states[b].live, Last(states[b].journals).targets[i].id) in
              {None, Last(states[b].journals).targets[i].prior, Last(states[b].journals).targets[i].next}
    ensures Last(states[b].journals).Closed() ==>
              AllNew(states[b].live, Last(states[b].journals).targets)
                  || AllPrior(states[b].live, Last(states[b].journals).targets)
    ensures k < |states[b].journals| && !states[b].journals[k].Closed() ==> k == |states[b].journals| - 1
  {
    hide Ran, Settled, Framed, OpenSound, AllNew, AllPrior;
    HistoryOfRun(states, b, b);
    MixedOnlyWhileOpen(states[b], i);
    if k < |states[b].journals| && !states[b].journals[k].Closed() { OnlyLastIsOpen(states[b], k); }
  }

  /** In no state of any run is prior content lost: while its transaction is open
      it is live, set aside or retained, and ever after a commit it is retained,
      whatever ran later.  What was set aside goes only when it is live again or
      everything is retained. */
  lemma RunKeepsPriorContent(states: seq<State>, a: nat, b: nat, k: nat, i: nat)
    requires Trace(states) && a <= b < |states| && k < |states[a].journals| && i < |states[a].journals[k].targets|
    requires states[a].journals[k].targets[i].prior.Some?
    ensures states[a].journals[k].status == Committed ==>
              Get(states[b].retained, Slot(k, i)) == states[a].journals[k].targets[i].prior
    ensures !states[a].journals[k].Closed() ==>
              || Get(states[a].live, states[a].journals[k].targets[i].id) == states[a].journals[k].targets[i].prior
              || Get(states[a].rollback, Slot(k, i)) == states[a].journals[k].targets[i].prior
              || Get(states[a].retained, Slot(k, i)) == states[a].journals[k].targets[i].prior
    ensures !states[a].journals[k].Closed() && Slot(k, i) !in states[a].rollback ==>
              || Get(states[a].live, states[a].journals[k].targets[i].id) == states[a].journals[k].targets[i].prior
              || AllHeld(states[a].retained, states[a].journals[k].targets, k)
  {
    hide Ran, Settled, Framed, OpenSound;
    HistoryOfRun(states, a, a);
    if states[a].journals[k].status == Committed {
      CommitIsFinal(states, a, b, k);
    } else if !states[a].journals[k].Closed() {
      PriorSurvives(states[a], k, i);
      OnlyLastIsOpen(states[a], k);
      if Slot(k, i) !in states[a].rollback { AsideUntilSafe(states[a], i); }
    }
  }
}
