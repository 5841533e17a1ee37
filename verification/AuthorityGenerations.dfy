/** Immutable authority generations behind one compare-and-swap pointer, with a
    begin and a terminal record for every transaction.  Digests are
    collision-free, so a manifest stands for its own digest. */
module AuthorityGenerations {
  import opened Wrappers

  type Id = nat
  type Tx = nat

  datatype Generation = Generation(
    id: Id, sequence: int, previousId: Option<Id>, transactionId: Tx, operator: bool)

  /** A manifest: its generation, the snapshot it names, the authority snapshot of
      its receipt, and everything else. */
  datatype Manifest = Manifest(generation: Generation, snapshotId: Id, receiptSnapshot: nat, body: nat)

  /** The identifier computed from the other fields of a generation. */
  const IDENTITY: (int, Option<Id>, Tx, bool) -> Id

  /** Whether the update classifier accepts the step from one authority snapshot to
      another. */
  const RECOGNIZED: (nat, nat) -> bool

  predicate Genuine(g: Generation) {
    IDENTITY(g.sequence, g.previousId, g.transactionId, g.operator) == g.id
  }

  datatype Pointer = Pointer(id: Id, sequence: int, previousId: Option<Id>, sha: Manifest, transactionId: Tx)

  /** A file written once; a crash while writing leaves it partial for good. */
  datatype File<T> = Partial | Whole(content: T)

  datatype Lane = Operator | Automatic

  datatype Begin = Begin(
    lane: Lane, previousId: Option<Id>, snapshot: nat, candidate: Option<Manifest>, authorization: Option<nat>)

  datatype Reason =
    | Unstated | NotQuiet | SnapshotMismatch | CandidateInvalid | BeginFailed | AuthorityChanged | ApplyFailed
    | RebaselineCommitted | PostvalidationDegraded | TerminalRepairPending | TerminalFailed
    | BeginInvalid | TerminalInvalid | ReplayConflict | CommitUnproven | CommitReconciled | CommitRecovered
    | InterruptedBeforeCommit | NotRecognized | BuilderFailed | ReceiptMismatch | UpdateCommitted

  datatype Status = Committed | Denied | Error

  datatype Terminal = Terminal(
    lane: Lane, status: Status, reason: Reason, generationId: Option<Id>,
    snapshot: Option<nat>, candidate: Option<Manifest>,
    observedSnapshot: Option<nat>, observedCandidate: Option<Manifest>)

  datatype Store = Store(
    artifacts: map<Id, File<Manifest>>,
    pointer: Option<Pointer>,
    begins: map<Tx, File<Begin>>,
    terminals: map<Tx, File<Terminal>>,
    candidates: map<Tx, File<Manifest>>)

  // ---------------------------------------------------------------------
  // Reading the pointer
  // ---------------------------------------------------------------------

  /** The artifact a pointer names says the same as the pointer. */
  predicate Names(p: Pointer) {
    var g := p.sha.generation;
    && p.sequence >= 1
    && g.id == p.id && Genuine(g) && p.sha.snapshotId == p.id
    && g.sequence == p.sequence && g.previousId == p.previousId && g.transactionId == p.transactionId
  }

  datatype Reading = Absent | Invalid | Present(pointer: Pointer)

  function ReadPointer(s: Store): Reading {
    match s.pointer
    case None => Absent
    case Some(p) => if Get(s.artifacts, p.id) == Some(Whole(p.sha)) && Names(p) then Present(p) else Invalid
  }

  function CurrentId(s: Store): Option<Id> {
    match s.pointer case None => None case Some(p) => Some(p.id)
  }

  function NextSequence(s: Store): int {
    match s.pointer case None => 1 case Some(p) => p.sequence + 1
  }

  // ---------------------------------------------------------------------
  // The chain
  // ---------------------------------------------------------------------

  function IdBefore(h: seq<Pointer>, i: nat): Option<Id>
    requires i < |h|
  {
    if i == 0 then None else Some(h[i - 1].id)
  }

  /** The transaction began, and if on an automatic lane, then the step from the
      authority snapshot of `previous` to that of `next` was recognized. */
  predicate LaneAllows(begins: map<Tx, File<Begin>>, tx: Tx, previous: Option<Pointer>, next: Manifest) {
    && tx in begins && begins[tx].Whole?
    && (begins[tx].content.lane == Automatic && previous.Some? ==>
          RECOGNIZED(previous.value.sha.receiptSnapshot, next.receiptSnapshot))
  }

  /** What the store must show of the `i`-th pointer ever written. */
  ghost predicate PlaceSound(s: Store, h: seq<Pointer>, i: nat)
    requires i < |h|
  {
    && Names(h[i]) && h[i].sequence == i + 1
    && h[i].previousId == IdBefore(h, i)
    && Get(s.artifacts, h[i].id) == Some(Whole(h[i].sha))
    && LaneAllows(s.begins, h[i].transactionId, if i == 0 then None else Some(h[i - 1]), h[i].sha)
  }

  /** Every pointer ever written, oldest first, as the store must show it. */
  ghost predicate HistorySound(s: Store, h: seq<Pointer>) {
    && s.pointer == (if h == [] then None else Some(h[|h| - 1]))
    && forall i :: 0 <= i < |h| ==> PlaceSound(s, h, i)
  }

  /** No transaction has swapped the pointer twice. */
  ghost predicate EachOnce(h: seq<Pointer>) {
    forall i, j :: 0 <= i < j < |h| ==> h[i].transactionId != h[j].transactionId
  }

  /** `id` heads a chain of `length` artifacts still present, each linking to the
      one before it, with sequence numbers falling by one down to one. */
  ghost predicate HeadsChain(artifacts: map<Id, File<Manifest>>, id: Id, length: nat)
    decreases length
  {
    && id in artifacts && artifacts[id].Whole?
    && length >= 1
    && var g := artifacts[id].content.generation;
       && g.id == id && g.sequence == length
       && if length == 1 then g.previousId.None?
          else g.previousId.Some? && HeadsChain(artifacts, g.previousId.value, length - 1)
  }

  lemma HistoryAt(s: Store, h: seq<Pointer>, i: nat)
    requires HistorySound(s, h) && i < |h|
    ensures Names(h[i]) && h[i].sequence == i + 1 && h[i].previousId == IdBefore(h, i)
    ensures Get(s.artifacts, h[i].id) == Some(Whole(h[i].sha))
    ensures LaneAllows(s.begins, h[i].transactionId, if i == 0 then None else Some(h[i - 1]), h[i].sha)
  {
    assert PlaceSound(s, h, i);
  }

  lemma {:induction false} HistoryIsChain(s: Store, h: seq<Pointer>, i: nat)
    requires HistorySound(s, h) && i < |h|
    ensures HeadsChain(s.artifacts, h[i].id, i + 1)
  {
    hide HistorySound;
    HistoryAt(s, h, i);
    if i > 0 { HistoryIsChain(s, h, i - 1); }
  }

  /** The current pointer heads a chain as long as its sequence number. */
  lemma CurrentHeadsChain(s: Store, h: seq<Pointer>)
    requires HistorySound(s, h) && s.pointer.Some?
    ensures s.pointer.value.sequence == |h|
    ensures HeadsChain(s.artifacts, s.pointer.value.id, |h|)
    ensures ReadPointer(s) == Present(s.pointer.value)
  {
    hide HistorySound, HeadsChain;
    PointerIsReadable(s, h);
    HistoryIsChain(s, h, |h| - 1);
    HistoryAt(s, h, |h| - 1);
  }

  lemma PointerIsReadable(s: Store, h: seq<Pointer>)
    requires HistorySound(s, h)
    ensures ReadPointer(s) == if s.pointer.None? then Absent else Present(s.pointer.value)
    ensures NextSequence(s) == |h| + 1
    ensures s.pointer == if h == [] then None else Some(h[|h| - 1])
  {
    if h != [] { HistoryAt(s, h, |h| - 1); }
  }

  /** No two generations on the chain share an identifier. */
  lemma IdsAreDistinct(s: Store, h: seq<Pointer>, i: nat, j: nat)
    requires HistorySound(s, h) && i < j < |h|
    ensures h[i].id != h[j].id
  {
    HistoryAt(s, h, i);
    HistoryAt(s, h, j);
  }

  /** No file of `before` is rewritten or removed. */
  ghost predicate Kept(before: Store, after: Store) {
    && (forall id :: id in before.artifacts ==> Get(after.artifacts, id) == Some(before.artifacts[id]))
    && (forall tx :: tx in before.begins ==> Get(after.begins, tx) == Some(before.begins[tx]))
    && (forall tx :: tx in before.terminals ==> Get(after.terminals, tx) == Some(before.terminals[tx]))
    && (forall tx :: tx in before.candidates ==> Get(after.candidates, tx) == Some(before.candidates[tx]))
  }

  lemma KeptGoesOn(a: Store, b: Store, c: Store)
    requires Kept(a, b) && Kept(b, c)
    ensures Kept(a, c)
  {
  }

  lemma NothingChanged(s: Store)
    ensures Kept(s, s)
  {
  }

  lemma HistoryStaysSound(before: Store, after: Store, h: seq<Pointer>)
    requires HistorySound(before, h) && Kept(before, after) && after.pointer == before.pointer
    ensures HistorySound(after, h)
  {
    forall i | 0 <= i < |h| ensures PlaceSound(after, h, i) {
      HistoryAt(before, h, i);
    }
  }

  predicate Promoted(h: seq<Pointer>, tx: Tx) {
    exists i :: 0 <= i < |h| && h[i].transactionId == tx
  }

  lemma HistoryGrows(before: Store, after: Store, h: seq<Pointer>, p: Pointer)
    requires HistorySound(before, h) && after == before.(pointer := Some(p))
    requires Names(p) && p.sequence == NextSequence(before) && p.previousId == CurrentId(before)
    requires Get(before.artifacts, p.id) == Some(Whole(p.sha))
    requires LaneAllows(before.begins, p.transactionId, before.pointer, p.sha)
    ensures HistorySound(after, h + [p])
    ensures EachOnce(h) && !Promoted(h, p.transactionId) ==> EachOnce(h + [p])
  {
    hide Names;
    PointerIsReadable(before, h);
    var grown := h + [p];
    forall i | 0 <= i < |grown| ensures PlaceSound(after, grown, i) {
      if i < |h| {
        HistoryAt(before, h, i);
        assert grown[i] == h[i] && IdBefore(grown, i) == IdBefore(h, i);
      }
    }
  }

  lemma NotYetPromoted(s: Store, h: seq<Pointer>, tx: Tx)
    requires HistorySound(s, h) && tx !in s.begins
    ensures !Promoted(h, tx)
  {
    forall i | 0 <= i < |h| ensures h[i].transactionId != tx { HistoryAt(s, h, i); }
  }

  // ---------------------------------------------------------------------
  // Requests and answers
  // ---------------------------------------------------------------------

  /** An operator's reviewed request. */
  datatype Request = Request(tx: Tx, authorization: nat, snapshot: nat, candidate: Manifest)

  /** What the surroundings answer in the course of one call: quietness, three
      stable readings, the reviewed bytes and their verdict, freshness. */
  datatype Surroundings = Surroundings(
    quiet: bool, preliminary: Option<nat>, current: Option<nat>, final: Option<nat>,
    reviewed: Manifest, reviewBound: bool, candidateValid: bool, upToDate: bool)

  /** The same for an automatic recovery, with the candidate its builder makes. */
  datatype Observed = Observed(
    quiet: bool, preliminary: Option<nat>, current: Option<nat>, final: Option<nat>,
    candidate: Option<Manifest>, candidateValid: bool, upToDate: bool)

  datatype Verdict = Rebuilt | Declined | Erred

  datatype Answer = Answer(verdict: Verdict, reason: Reason, generationId: Option<Id>)

  /** The begin record an operator request leaves. */
  function BeginOf(request: Request, previousId: Option<Id>): Begin {
    Begin(Operator, previousId, request.snapshot, Some(request.candidate), Some(request.authorization))
  }

  predicate BeginMatches(begin: Begin, request: Request) {
    && begin.lane == Operator && begin.authorization == Some(request.authorization)
    && begin.snapshot == request.snapshot && begin.candidate == Some(request.candidate)
  }

  predicate TerminalMatches(terminal: Terminal, request: Request) {
    && terminal.lane == Operator
    && terminal.snapshot == Some(request.snapshot) && terminal.candidate == Some(request.candidate)
  }

  /** The current generation is the one transaction `tx` began to install. */
  predicate InstalledBy(s: Store, begin: Begin, tx: Tx) {
    && ReadPointer(s).Present?
    && var p := ReadPointer(s).pointer;
       && p.transactionId == tx && p.previousId == begin.previousId
       && begin.candidate == Some(p.sha) && p.sha.receiptSnapshot == begin.snapshot
       && p.sha.generation.operator
  }

  /** The generation a commit is proved by, if it is. */
  function CommitProof(s: Store, begin: Begin, tx: Tx, recorded: Option<Id>, upToDate: bool): Option<Id> {
    if InstalledBy(s, begin, tx) && (recorded.None? || recorded == Some(ReadPointer(s).pointer.id)) && upToDate
    then Some(ReadPointer(s).pointer.id)
    else None
  }

  function OperatorTerminal(
    request: Request, status: Status, reason: Reason, id: Option<Id>,
    observedSnapshot: Option<nat>, observedCandidate: Option<Manifest>): Terminal
  {
    Terminal(Operator, status, reason, id, Some(request.snapshot), Some(request.candidate), observedSnapshot,
        observedCandidate)
  }

  /** What a durable terminal record answers on replay. */
  function TerminalAnswer(s: Store, begin: Begin, terminal: Terminal, request: Request, upToDate: bool): Answer {
    if !TerminalMatches(terminal, request) then Answer(Declined, ReplayConflict, None)
    else
      var proof := CommitProof(s, begin, request.tx, terminal.generationId, upToDate);
      if terminal.status != Committed && proof.Some? then Answer(Rebuilt, CommitReconciled, proof)
      else if terminal.status == Committed then
        if terminal.observedSnapshot != Some(request.snapshot)
            || terminal.observedCandidate != Some(request.candidate) then
          Answer(Declined, ReplayConflict, None)
        else if proof.None? then Answer(Erred, CommitUnproven, None)
        else Answer(Rebuilt, terminal.reason, proof)
      else Answer(if terminal.status == Denied then Declined else Erred, terminal.reason, terminal.generationId)
  }

  /** "Rebuilt" is only ever said of the generation that is current. */
  predicate Honest(s: Store, request: Request, answer: Answer) {
    answer.verdict == Rebuilt ==>
      && Get(s.begins, request.tx).Some? && s.begins[request.tx].Whole?
      && BeginMatches(s.begins[request.tx].content, request)
      && InstalledBy(s, s.begins[request.tx].content, request.tx)
      && (answer.generationId.Some? ==> answer.generationId == CurrentId(s))
  }

  class Authority {
    // Survives a crash.
    var store: Store

    var script: seq<Event>

    // Every pointer ever written, oldest first.
    ghost var history: seq<Pointer>

    ghost predicate Valid()
      reads this
    {
      HistorySound(store, history) && EachOnce(history)
    }

    constructor ()
      ensures Valid() && history == [] && script == []
    {
      store := Store(map[], None, map[], map[], map[]);
      script, history := [], [];
    }

    method Tick() returns (r: Outcome)
      modifies `script
      ensures old(script) == [] ==> r == Done && script == []
      ensures old(script) != [] ==> r == OutcomeOf(old(script)[0]) && script == old(script)[1..]
    {
      if script == [] { return Done; }
      var event := script[0];
      script := script[1..];
      match event
      case Proceed => return Done;
      case Raise => return Failed(StepRaised);
      case PowerCut => return Failed(Crashed);
    }

    /** Creates a file exclusively and fills it; an existing file is only compared. */
    method WriteOnce<K(==, !new), T(==)>(files: map<K, File<T>>, key: K, content: T)
      returns (r: Outcome, after: map<K, File<T>>)
      modifies `script
      ensures forall k :: k in files ==> Get(after, k) == Some(files[k])
      ensures forall k :: k in after && k != key ==> k in files
      ensures r == Done ==> after == files[key := Whole(content)]
      ensures key in files && files[key] != Whole(content) ==> r.Raised()
      ensures (old(script) == [] ==>
                && script == [] && (r == Done || r.Raised())
                && (key !in files || files[key] == Whole(content) ==> r == Done))
    {
      after := files;
      if key in files {
        r := if files[key] == Whole(content) then Done
            else Failed(Refused("immutable file exists with different bytes"));
        return;
      }
      r := Tick();
      if r != Done { return; }
      after := files[key := Partial];
      r := Tick();
      if r == Done {
        after := files[key := Whole(content)];
      } else if r.Raised() {
        var removed := Tick();
        if removed == Done { after := files; } else { r := removed; }
      }
    }

    /** Validates a candidate against the pointer and commits it by one swap; an
        exact repetition of the current promotion changes nothing. */
    method Promote(
        candidate: Manifest, tx: Tx, expectedPrevious: Option<Id>, reviewed: Option<Manifest>) returns (r: Outcome)
      requires HistorySound(store, history) && LaneAllows(store.begins, tx, store.pointer, candidate)
      modifies `store, `script, `history
      ensures HistorySound(store, history) && Kept(old(store), store)
      ensures store == old(store).(artifacts := store.artifacts, pointer := store.pointer)
      ensures history == old(history) || history == old(history) + [PointerTo(candidate, tx, expectedPrevious)]
      ensures !Promoted(old(history), tx) && EachOnce(old(history)) ==> EachOnce(history)
      ensures r.Raised() ==> history == old(history)
      ensures (r == Done ==>
                && store.pointer == Some(PointerTo(candidate, tx, expectedPrevious))
                && (reviewed.Some? ==> candidate == reviewed.value))
      ensures history != old(history) ==> PromotionFits(old(store), candidate, tx, expectedPrevious)
      ensures old(script) == [] ==> script == [] && (r == Done || r.Raised())
      ensures (old(script) == [] && (reviewed.Some? ==> candidate == reviewed.value)
               && PromotionFits(old(store), candidate, tx, expectedPrevious)
               && candidate.generation.id !in old(store).artifacts) ==> r == Done
    {
      hide Genuine;
      hide HistorySound, EachOnce, Promoted;
      PointerIsReadable(store, history);
      NothingChanged(store);
      if RepeatsCurrent(store, candidate, tx, expectedPrevious, reviewed) { return Done; }
      if !MayPromote(store, candidate, tx, expectedPrevious, reviewed) {
        return Failed(Refused("candidate is not the next authority generation"));
      }
      ghost var before := store;
      var artifacts;
      r, artifacts := WriteOnce(store.artifacts, candidate.generation.id, candidate);
      store := store.(artifacts := artifacts);
      HistoryStaysSound(before, store, history);
      if r == Done { r := Swap(PointerTo(candidate, tx, expectedPrevious)); }
    }

    /** The pointer swap, and the best-effort copy for older readers after it. */
    method Swap(pointer: Pointer) returns (r: Outcome)
      requires HistorySound(store, history)
      requires LaneAllows(store.begins, pointer.transactionId, store.pointer, pointer.sha)
      requires Names(pointer) && pointer.sequence == NextSequence(store) && pointer.previousId == CurrentId(store)
      requires Get(store.artifacts, pointer.id) == Some(Whole(pointer.sha))
      modifies `store, `script, `history
      ensures HistorySound(store, history)
      ensures (store == old(store) && history == old(history) && r != Done)
              || (store == old(store).(pointer := Some(pointer)) && history == old(history) + [pointer] && !r.Raised())
      ensures !Promoted(old(history), pointer.transactionId) && EachOnce(old(history)) ==> EachOnce(history)
      ensures old(script) == [] ==> script == [] && r == Done
    {
      hide HistorySound, EachOnce, Promoted;
      r := Tick();
      if r == Done {
        ghost var before, h := store, history;
        store := store.(pointer := Some(pointer));
        history := history + [pointer];
        HistoryGrows(before, store, h, pointer);
        var repaired := Tick();
        if repaired == Failed(Crashed) { r := repaired; }
      }
    }

    method WriteTerminal(tx: Tx, terminal: Terminal) returns (r: Outcome)
      requires Valid()
      modifies `store, `script
      ensures Valid() && Kept(old(store), store)
      ensures store == old(store).(terminals := store.terminals)
      ensures r == Done ==> store.terminals == old(store).terminals[tx := Whole(terminal)]
      ensures (old(script) == [] ==>
                script == [] && (r == Done || r.Raised()) && (tx !in old(store).terminals ==> r == Done))
    {
      hide HistorySound, EachOnce;
      ghost var before := store;
      var terminals;
      r, terminals := WriteOnce(store.terminals, tx, terminal);
      store := store.(terminals := terminals);
      HistoryStaysSound(before, store, history);
    }

    method WriteBegin(tx: Tx, begin: Begin) returns (r: Outcome)
      requires Valid()
      modifies `store, `script
      ensures Valid() && Kept(old(store), store)
      ensures store == old(store).(begins := store.begins)
      ensures forall other :: other in store.begins && other != tx ==> other in old(store).begins
      ensures r == Done ==> store.begins == old(store).begins[tx := Whole(begin)]
      ensures (old(script) == [] ==>
                script == [] && (r == Done || r.Raised()) && (tx !in old(store).begins ==> r == Done))
    {
      hide HistorySound, EachOnce;
      ghost var before := store;
      var begins;
      r, begins := WriteOnce(store.begins, tx, begin);
      store := store.(begins := begins);
      HistoryStaysSound(before, store, history);
    }

    /** Answers a repeated request from the durable records, closing a
        transaction that was interrupted; `None` when it never began. */
    method Replay(request: Request, upToDate: bool) returns (r: Outcome, answer: Option<Answer>)
      requires Valid()
      modifies `store, `script
      ensures Valid() && Kept(old(store), store)
      ensures store == old(store).(terminals := store.terminals)
      ensures answer.None? && r == Done <==> request.tx !in old(store).begins
      ensures answer.Some? ==> r == Done && Honest(store, request, answer.value)
      ensures answer.Some? ==> answer.value == ReplayAnswer(old(store), request, upToDate)
      ensures answer.Some? ==> store.terminals == Closed(old(store), request, upToDate)
      ensures old(script) == [] ==> r == Done && script == []
      ensures request.tx !in old(store).begins ==> store == old(store)
    {
      hide HistorySound, EachOnce;
      NothingChanged(store);
      r, answer := Done, None;
      if request.tx in store.begins {
        var expected := ReplayAnswer(store, request, upToDate);
        ReplayIsHonest(store, request, upToDate);
        var closing := Closing(store, request, upToDate);
        if closing.Some? { r := WriteTerminal(request.tx, closing.value); }
        if r == Done { answer := Some(expected); }
      }
    }

    /** Applies exact reviewed bytes under snapshot and candidate comparison. */
    method Rebaseline(request: Request, around: Surroundings) returns (r: Outcome, answer: Answer)
      requires Valid()
      modifies `store, `script, `history
      ensures Valid() && Kept(old(store), store)
      ensures OneSwapAtMost(old(history), history, request.tx)
      ensures history != old(history) ==> request.tx !in old(store).begins
      ensures r == Done ==> Honest(store, request, answer)
      ensures r == Done && history != old(history) ==> answer.verdict == Rebuilt
      ensures (request.tx in old(store).begins && r == Done ==>
                answer == ReplayAnswer(old(store), request, around.upToDate))
      ensures old(script) == [] ==> r == Done && script == []
      ensures (old(script) == [] && Untouched(old(store), request) && around.quiet
               && around.preliminary == around.current == Some(request.snapshot)
                   && Reviewed(old(store), request, around)
               && around.final == Some(request.snapshot) ==>
                && answer == Answer(Rebuilt, CommitReason(around.upToDate), Some(request.candidate.generation.id))
                && CurrentId(store) == answer.generationId && |history| == |old(history)| + 1
                && Get(store.begins, request.tx) == Some(Whole(BeginOf(request, CurrentId(old(store)))))
                && Get(store.candidates, request.tx) == Some(Whole(request.candidate))
                && Get(store.terminals, request.tx) == Some(Whole(CommitRecord(request, around.upToDate))))
      ensures (request.tx !in old(store).begins && r == Done ==>
                && (answer.reason == NotQuiet <==> !around.quiet)
                && (answer.reason == SnapshotMismatch <==>
                      around.quiet && !(around.preliminary == around.current == Some(request.snapshot)))
                && (answer.reason == CandidateInvalid <==>
                      && around.quiet && around.preliminary == around.current == Some(request.snapshot)
                      && !Reviewed(old(store), request, around))
                && (answer.verdict == Declined ==>
                      answer.reason in {NotQuiet, SnapshotMismatch, CandidateInvalid}
                      || around.final != Some(request.snapshot)))
      ensures (request.tx !in old(store).begins && r == Done
               && answer.reason in {NotQuiet, SnapshotMismatch, CandidateInvalid} ==>
                answer.verdict == Declined && store == old(store))
      ensures (old(script) == [] && Untouched(old(store), request) && around.quiet
               && around.preliminary == around.current == Some(request.snapshot)
               && Reviewed(old(store), request, around) && around.final != Some(request.snapshot) ==>
                answer == Answer(Declined, AuthorityChanged, None))
    {
      hide HistorySound, EachOnce;
      answer := Answer(Erred, Unstated, None);
      var replayed;
      r, replayed := Replay(request, around.upToDate);
      if r == Done {
        if replayed.Some? {
          answer := replayed.value;
        } else if !around.quiet {
          answer := Answer(Declined, NotQuiet, None);
        } else if around.preliminary != Some(request.snapshot) || around.current != Some(request.snapshot) {
          answer := Answer(Declined, SnapshotMismatch, None);
        } else if !ReviewAccepted(store, request, around) {
          ReviewedExactly(store, request, around);
          answer := Answer(Declined, CandidateInvalid, None);
        } else {
          ReviewedExactly(store, request, around);
          r, answer := Apply(request, around);
        }
      }
    }

    /** Begins, promotes and closes an accepted operator transaction. */
    method Apply(request: Request, around: Surroundings) returns (r: Outcome, answer: Answer)
      requires Valid() && request.tx !in store.begins && ReviewAccepted(store, request, around)
      modifies `store, `script, `history
      ensures Valid() && Kept(old(store), store)
      ensures OneSwapAtMost(old(history), history, request.tx)
      ensures r == Done ==> Honest(store, request, answer)
      ensures r == Done && history != old(history) ==> answer.verdict == Rebuilt
      ensures old(script) == [] ==> r == Done && script == []
      ensures (old(script) == [] && Untouched(old(store), request) && Reviewed(old(store), request, around)
               && around.final == Some(request.snapshot) ==>
                && answer == Answer(Rebuilt, CommitReason(around.upToDate), Some(request.candidate.generation.id))
                && CurrentId(store) == answer.generationId && |history| == |old(history)| + 1
                && Get(store.begins, request.tx) == Some(Whole(BeginOf(request, CurrentId(old(store)))))
                && Get(store.candidates, request.tx) == Some(Whole(request.candidate))
                && Get(store.terminals, request.tx) == Some(Whole(CommitRecord(request, around.upToDate))))
      ensures r == Done && answer.verdict == Declined ==> around.final != Some(request.snapshot)
      ensures (old(script) == [] && Untouched(old(store), request) && around.final != Some(request.snapshot) ==>
                answer == Answer(Declined, AuthorityChanged, None))
      ensures r == Done ==> answer.reason !in {NotQuiet, SnapshotMismatch, CandidateInvalid}
    {
      hide HistorySound, EachOnce, ReviewAccepted, Reviewed;
      ghost var s0 := store;
      answer := Answer(Erred, BeginFailed, None);
      NotYetPromoted(store, history, request.tx);
      var previous := CurrentId(store);
      var candidates;
      r, candidates := WriteOnce(store.candidates, request.tx, around.reviewed);
      store := store.(candidates := candidates);
      HistoryStaysSound(s0, store, history);
      ghost var s1 := store;
      if r == Done { r := WriteBegin(request.tx, BeginOf(request, previous)); }
      KeptGoesOn(s0, s1, store);
      if r.Raised() { return Done, answer; }
      if r == Done {
        ghost var s2 := store;
        ReviewStillAccepted(s0, store, request, around);
        r, answer := PromoteReviewed(request, around, previous);
        KeptGoesOn(s0, s2, store);
      }
    }

    /** Checks the authority a last time and promotes the reviewed bytes. */
    method Attempt(request: Request, around: Surroundings, previous: Option<Id>) returns (r: Outcome, status: Status)
      requires Valid() && Get(store.begins, request.tx) == Some(Whole(BeginOf(request, previous)))
      requires !Promoted(history, request.tx) && previous == CurrentId(store) && ReviewAccepted(store, request, around)
      modifies `store, `script, `history
      ensures Valid() && Kept(old(store), store)
      ensures store == old(store).(artifacts := store.artifacts, pointer := store.pointer)
      ensures OneSwapAtMost(old(history), history, request.tx)
      ensures r == Done && status == Committed ==>
                && InstalledBy(store, BeginOf(request, previous), request.tx)
                && CurrentId(store) == Some(request.candidate.generation.id)
      ensures r == Done || r == Failed(Crashed)
      ensures r == Done && status != Committed ==> history == old(history)
      ensures old(script) == [] ==> r == Done && script == []
      ensures (old(script) == [] && around.final == Some(request.snapshot)
               && request.candidate.generation.id !in old(store).artifacts ==>
                status == Status.Committed && |history| == |old(history)| + 1)
      ensures r == Done ==> (status == Denied <==> around.final != Some(request.snapshot))
      ensures r == Done && status == Committed ==> history != old(history)
    {
      hide HistorySound, EachOnce, Promoted;
      NothingChanged(store);
      PointerIsReadable(store, history);
      if store.pointer.Some? { CurrentIsPromoted(store, history); }
      r, status := Done, Denied;
      if around.final == Some(request.snapshot) {
        r := Promote(around.reviewed, request.tx, previous, Some(request.candidate));
        PointerIsReadable(store, history);
        status := if r == Done then Status.Committed else Error;
        if r.Raised() { r := Done; }
      }
    }

    /** The promotion proper; whatever happens short of a crash, a terminal record
        is written last, and failing to write it does not change what is said to
        have been committed. */
    method PromoteReviewed(
        request: Request, around: Surroundings, previous: Option<Id>) returns (r: Outcome, answer: Answer)
      requires Valid() && Get(store.begins, request.tx) == Some(Whole(BeginOf(request, previous)))
      requires !Promoted(history, request.tx) && previous == CurrentId(store) && ReviewAccepted(store, request, around)
      modifies `store, `script, `history
      ensures Valid() && Kept(old(store), store)
      ensures OneSwapAtMost(old(history), history, request.tx)
      ensures r == Done ==> Honest(store, request, answer)
      ensures r == Done && history != old(history) ==> answer.verdict == Rebuilt
      ensures old(script) == [] ==> r == Done && script == []
      ensures (old(script) == [] && around.final == Some(request.snapshot)
               && request.candidate.generation.id !in old(store).artifacts && request.tx !in old(store).terminals ==>
                && answer == Answer(Rebuilt, CommitReason(around.upToDate), Some(request.candidate.generation.id))
                && CurrentId(store) == answer.generationId && |history| == |old(history)| + 1
                && store.terminals == old(store).terminals[request.tx := Whole(CommitRecord(request, around.upToDate))])
      ensures store == old(store).(artifacts := store.artifacts, pointer := store.pointer, terminals := store.terminals)
      ensures (r == Done ==>
                answer.reason == AuthorityChanged || answer.verdict == Declined ==>
                    around.final != Some(request.snapshot))
      ensures (old(script) == [] && around.final != Some(request.snapshot) && request.tx !in old(store).terminals ==>
                answer == Answer(Declined, AuthorityChanged, None))
      ensures r == Done ==> answer.reason !in {NotQuiet, SnapshotMismatch, CandidateInvalid}
    {
      hide HistorySound, EachOnce, Promoted, ReviewAccepted;
      ReviewedExactly(store, request, around);
      ghost var s0 := store;
      var status;
      r, status := Attempt(request, around, previous);
      answer := Answer(VerdictOf(status), AttemptReason(status, around.upToDate), None);
      ghost var s1 := store;
      if r == Done {
        if status == Status.Committed { answer := answer.(generationId := Some(request.candidate.generation.id)); }
        var closed := WriteTerminal(request.tx,
          OperatorTerminal(request, status, answer.reason, answer.generationId, around.final, Some(around.reviewed)));
        KeptGoesOn(s0, s1, store);
        if closed == Failed(Crashed) { r := closed; }
        if closed.Raised() { answer := Answer(LateVerdict(status), LateReason(status), answer.generationId); }
      }
    }

    /** One automatic recovery under a transaction identifier nobody used before. */
    method Automate(tx: Tx, legacy: Option<nat>, seen: Observed) returns (r: Outcome, answer: Answer)
      requires Valid() && tx !in store.begins
      modifies `store, `script, `history
      ensures Valid() && Kept(old(store), store)
      ensures OneSwapAtMost(old(history), history, tx)
      ensures history == old(history) ==> store.pointer == old(store).pointer
      ensures history != old(history) ==> UpdateAccepted(old(store), legacy, seen)
      ensures (!UpdateRecognized(old(store), legacy, seen) ==>
                store == old(store) && r == Done && answer.verdict == Declined)
      ensures r == Done ==> (answer.verdict == Rebuilt <==> history != old(history))
      ensures (r == Done && answer.verdict == Rebuilt ==>
                && store.pointer == Some(PointerTo(seen.candidate.value, tx, CurrentId(old(store))))
                && answer.generationId == CurrentId(store))
      ensures r == Done || r == Failed(Crashed)
      ensures old(script) == [] ==> r == Done && script == []
      ensures (old(script) == [] && UpdateAccepted(old(store), legacy, seen) && tx !in old(store).terminals
               && PromotionFits(old(store), seen.candidate.value, tx, CurrentId(old(store)))
               && seen.candidate.value.generation.id !in old(store).artifacts ==>
                answer == Answer(Rebuilt, UpdateReason(seen.upToDate), CurrentId(store)))
      ensures (history != old(history) ==>
                && seen.quiet && seen.candidateValid && seen.candidate.Some? && seen.preliminary.Some?
                && Some(seen.candidate.value.receiptSnapshot) == seen.current == seen.final
                && var s := old(store);
                   var baseline := if s.pointer.Some? then Some(s.pointer.value.sha.receiptSnapshot) else legacy;
                   && baseline.Some? && RECOGNIZED(baseline.value, seen.preliminary.value)
                   && RECOGNIZED(baseline.value, seen.current.value))
      ensures (r == Done ==>
                && (answer.reason == AuthorityChanged ==> seen.final != seen.current)
                && (answer.reason == CandidateInvalid ==> !seen.candidateValid)
                && (answer.reason == ReceiptMismatch ==>
                      seen.candidate.Some? && Some(seen.candidate.value.receiptSnapshot) != seen.current))
      ensures (r == Done ==>
                && (answer.reason == NotQuiet <==> !seen.quiet)
                && (answer.reason == NotRecognized <==> seen.quiet && !UpdateRecognized(old(store), legacy, seen)))
    {
      hide HistorySound, EachOnce, Promoted, Kept;
      NothingChanged(store);
      PointerIsReadable(store, history);
      r := Done;
      if !seen.quiet {
        answer := Answer(Declined, NotQuiet, None);
      } else if !UpdateRecognized(store, legacy, seen) {
        answer := Answer(Declined, NotRecognized, None);
      } else {
        ghost var s0 := store;
        NotYetPromoted(store, history, tx);
        var previous := CurrentId(store);
        r := WriteBegin(tx, Begin(Automatic, previous, seen.current.value, None, None));
        ghost var s1 := store;
        answer := Answer(Erred, BeginFailed, None);
        if r.Raised() { return Done, answer; }
        if r == Done {
          r, answer := Build(tx, legacy, seen);
          KeptGoesOn(s0, s1, store);
        }
      }
      PointerIsReadable(store, history);
    }

    /** Builds a candidate, checks it and promotes it. */
    method TryUpdate(tx: Tx, legacy: Option<nat>, seen: Observed) returns (r: Outcome, answer: Answer)
      requires Valid() && UpdateRecognized(store, legacy, seen) && !Promoted(history, tx)
      requires Get(store.begins, tx) == Some(Whole(Begin(Automatic, CurrentId(store), seen.current.value, None, None)))
      modifies `store, `script, `history
      ensures Valid() && Kept(old(store), store)
      ensures store == old(store).(artifacts := store.artifacts, pointer := store.pointer)
      ensures OneSwapAtMost(old(history), history, tx)
      ensures history != old(history) ==> UpdateAccepted(old(store), legacy, seen)
      ensures r == Done ==> (answer.verdict == Rebuilt <==> history != old(history))
      ensures (r == Done && answer.verdict == Rebuilt ==>
                && store.pointer == Some(PointerTo(seen.candidate.value, tx, CurrentId(old(store))))
                && answer.generationId == CurrentId(store))
      ensures r == Done || r == Failed(Crashed)
      ensures old(script) == [] ==> r == Done && script == []
      ensures (old(script) == [] && UpdateAccepted(old(store), legacy, seen)
               && PromotionFits(old(store), seen.candidate.value, tx, CurrentId(old(store)))
               && seen.candidate.value.generation.id !in old(store).artifacts ==>
                answer == Answer(Rebuilt, UpdateReason(seen.upToDate), CurrentId(store)))
      ensures (r == Done ==>
                && (answer.reason == AuthorityChanged ==> seen.final != seen.current)
                && (answer.reason == CandidateInvalid ==> !seen.candidateValid)
                && (answer.reason == ReceiptMismatch ==>
                      seen.candidate.Some? && Some(seen.candidate.value.receiptSnapshot) != seen.current))
      ensures r == Done ==> answer.reason !in {NotQuiet, NotRecognized}
    {
      hide HistorySound, EachOnce, Promoted;
      NothingChanged(store);
      PointerIsReadable(store, history);
      if store.pointer.Some? { CurrentIsPromoted(store, history); }
      r := Done;
      if seen.candidate.None? {
        answer := Answer(Erred, BuilderFailed, None);
      } else if seen.final != seen.current {
        answer := Answer(Declined, AuthorityChanged, None);
      } else if seen.candidate.value.receiptSnapshot != seen.current.value {
        answer := Answer(Declined, ReceiptMismatch, None);
      } else if !seen.candidateValid {
        answer := Answer(Declined, CandidateInvalid, None);
      } else {
        r := Promote(seen.candidate.value, tx, CurrentId(store), None);
        PointerIsReadable(store, history);
        answer := if r == Done
          then Answer(Rebuilt, UpdateReason(seen.upToDate), Some(seen.candidate.value.generation.id))
          else Answer(Erred, BuilderFailed, None);
        if r.Raised() { r := Done; }
      }
    }

    /** The update proper; whatever happens short of a crash, a terminal record is
        written last, and failing to write it does not change what was committed. */
    method Build(tx: Tx, legacy: Option<nat>, seen: Observed) returns (r: Outcome, answer: Answer)
      requires Valid() && UpdateRecognized(store, legacy, seen) && !Promoted(history, tx)
      requires Get(store.begins, tx) == Some(Whole(Begin(Automatic, CurrentId(store), seen.current.value, None, None)))
      modifies `store, `script, `history
      ensures Valid() && Kept(old(store), store)
      ensures OneSwapAtMost(old(history), history, tx)
      ensures history == old(history) ==> store.pointer == old(store).pointer
      ensures history != old(history) ==> UpdateAccepted(old(store), legacy, seen)
      ensures r == Done ==> (answer.verdict == Rebuilt <==> history != old(history))
      ensures (r == Done && answer.verdict == Rebuilt ==>
                && store.pointer == Some(PointerTo(seen.candidate.value, tx, CurrentId(old(store))))
                && answer.generationId == CurrentId(store))
      ensures r == Done || r == Failed(Crashed)
      ensures old(script) == [] ==> r == Done && script == []
      ensures (old(script) == [] && UpdateAccepted(old(store), legacy, seen) && tx !in old(store).terminals
               && PromotionFits(old(store), seen.candidate.value, tx, CurrentId(old(store)))
               && seen.candidate.value.generation.id !in old(store).artifacts ==>
                answer == Answer(Rebuilt, UpdateReason(seen.upToDate), CurrentId(store)))
      ensures (r == Done ==>
                && (answer.reason == AuthorityChanged ==> seen.final != seen.current)
                && (answer.reason == CandidateInvalid ==> !seen.candidateValid)
                && (answer.reason == ReceiptMismatch ==>
                      seen.candidate.Some? && Some(seen.candidate.value.receiptSnapshot) != seen.current))
      ensures r == Done ==> answer.reason !in {NotQuiet, NotRecognized}
    {
      hide HistorySound, EachOnce, Promoted, UpdateAccepted, UpdateRecognized, PromotionFits;
      ghost var s0 := store;
      PointerIsReadable(store, history);
      r, answer := TryUpdate(tx, legacy, seen);
      PointerIsReadable(store, history);
      ghost var s1 := store;
      if r == Done {
        var status := StatusOf(answer.verdict);
        r := WriteTerminal(tx, Terminal(Automatic, status, answer.reason, answer.generationId, None, None, None, None));
        KeptGoesOn(s0, s1, store);
        if r.Raised() {
          answer := Answer(LateVerdict(status), LateReason(status), answer.generationId);
          r := Done;
        }
      }
    }

    /** Any sequence of calls, each interrupted anywhere or not at all. */
    method Run(calls: seq<Call>)
      requires Valid()
      modifies `store, `script, `history
      ensures Valid() && Kept(old(store), store)
      ensures |old(history)| <= |history| && history[..|old(history)|] == old(history)
    {
      hide HistorySound, EachOnce;
      NothingChanged(store);
      for i := 0 to |calls|
        invariant Valid() && Kept(old(store), store)
        invariant |old(history)| <= |history| && history[..|old(history)|] == old(history)
      {
        ghost var before, h := store, history;
        script := calls[i].script;
        match calls[i] {
          case Operate(request, around, _) =>
            var _, _ := Rebaseline(request, around);
            KeptGoesOn(old(store), before, store);
          case Automatically(tx, legacy, seen, _) =>
            if tx !in store.begins {
              var _, _ := Automate(tx, legacy, seen);
              KeptGoesOn(old(store), before, store);
            }
        }
      }
    }
  }

  datatype Call =
    | Operate(request: Request, around: Surroundings, script: seq<Event>)
    | Automatically(tx: Tx, legacy: Option<nat>, seen: Observed, script: seq<Event>)

  function VerdictOf(status: Status): Verdict {
    match status case Committed => Rebuilt case Denied => Declined case Error => Erred
  }

  function StatusOf(verdict: Verdict): Status {
    match verdict case Rebuilt => Status.Committed case Declined => Denied case Erred => Error
  }

  function AttemptReason(status: Status, upToDate: bool): Reason {
    match status
    case Committed => if upToDate then RebaselineCommitted else PostvalidationDegraded
    case Denied => AuthorityChanged
    case Error => ApplyFailed
  }

  function UpdateReason(upToDate: bool): Reason {
    if upToDate then UpdateCommitted else PostvalidationDegraded
  }

  function CommitReason(upToDate: bool): Reason {
    if upToDate then RebaselineCommitted else PostvalidationDegraded
  }

  /** The terminal record of an operator commit. */
  function CommitRecord(request: Request, upToDate: bool): Terminal {
    Terminal(Operator, Status.Committed, CommitReason(upToDate), Some(request.candidate.generation.id),
      Some(request.snapshot), Some(request.candidate), Some(request.snapshot), Some(request.candidate))
  }

  function LateVerdict(status: Status): Verdict {
    if status == Status.Committed then Rebuilt else Erred
  }

  function LateReason(status: Status): Reason {
    if status == Status.Committed then TerminalRepairPending
    else TerminalFailed
  }

  /** At most one pointer was added, and it is this transaction's. */
  ghost predicate OneSwapAtMost(before: seq<Pointer>, after: seq<Pointer>, tx: Tx) {
    after == before || (|after| == |before| + 1 && after[..|before|] == before && after[|before|].transactionId == tx)
  }

  /** The review verdict on the supplied bytes. */
  predicate ReviewAccepted(s: Store, request: Request, around: Surroundings) {
    && around.reviewBound && around.candidateValid
    && around.reviewed == request.candidate
    && around.reviewed.receiptSnapshot == request.snapshot
    && around.reviewed.generation.operator
    && PromotionFits(s, around.reviewed, request.tx, CurrentId(s))
  }

  /** The authority snapshot an update is measured against: that of the current
      generation, or of the manifest in use before there was any. */
  function Baseline(s: Store, legacy: Option<nat>): Option<nat> {
    match ReadPointer(s) case Present(p) => Some(p.sha.receiptSnapshot) case _ => legacy
  }

  /** Both readings before the build are recognized updates. */
  predicate UpdateRecognized(s: Store, legacy: Option<nat>, seen: Observed) {
    && seen.quiet && Baseline(s, legacy).Some? && seen.preliminary.Some? && seen.current.Some?
    && RECOGNIZED(Baseline(s, legacy).value, seen.preliminary.value)
    && RECOGNIZED(Baseline(s, legacy).value, seen.current.value)
  }

  /** The build was made for exactly that reading, which still stands after it. */
  predicate UpdateAccepted(s: Store, legacy: Option<nat>, seen: Observed) {
    && UpdateRecognized(s, legacy, seen)
    && seen.final == seen.current && seen.candidateValid
    && seen.candidate.Some? && seen.candidate.value.receiptSnapshot == seen.current.value
  }

  /** The reviewed bytes are the requested candidate, valid, bound to the review, and
      the next operator generation of this very transaction. */
  predicate Reviewed(s: Store, request: Request, around: Surroundings) {
    var g := request.candidate.generation;
    && around.reviewed == request.candidate && around.reviewBound && around.candidateValid
    && request.candidate.receiptSnapshot == request.snapshot && request.candidate.snapshotId == g.id
    && g.operator && g.id == IDENTITY(g.sequence, g.previousId, g.transactionId, g.operator)
    && g.transactionId == request.tx
    && g.previousId == (if s.pointer.Some? then Some(s.pointer.value.id) else None)
    && g.sequence == if s.pointer.Some? then s.pointer.value.sequence + 1 else 1
  }

  /** Nothing in the store is in the way of the records of a transaction. */
  predicate Untouched(s: Store, request: Request) {
    && request.tx !in s.begins && request.tx !in s.terminals && request.tx !in s.candidates
    && request.candidate.generation.id !in s.artifacts
  }

  /** The review check says exactly this. */
  lemma ReviewedExactly(s: Store, request: Request, around: Surroundings)
    ensures ReviewAccepted(s, request, around) <==> Reviewed(s, request, around)
  {
  }

  lemma ReviewStillAccepted(before: Store, after: Store, request: Request, around: Surroundings)
    requires after.pointer == before.pointer && ReviewAccepted(before, request, around)
    ensures ReviewAccepted(after, request, around)
  {
  }

  /** The answer to a repeated request, read off the store as it stands. */
  function ReplayAnswer(s: Store, request: Request, upToDate: bool): Answer
    requires request.tx in s.begins
  {
    if s.begins[request.tx].Partial? then Answer(Erred, BeginInvalid, None)
    else
      var begin := s.begins[request.tx].content;
      if !BeginMatches(begin, request) then Answer(Declined, ReplayConflict, None)
      else if request.tx in s.terminals then
        if s.terminals[request.tx].Partial? then Answer(Erred, TerminalInvalid, None)
        else TerminalAnswer(s, begin, s.terminals[request.tx].content, request, upToDate)
      else if !ReadPointer(s).Present? || ReadPointer(s).pointer.transactionId != request.tx then
        Answer(Erred, InterruptedBeforeCommit, None)
      else
        var proof := CommitProof(s, begin, request.tx, None, upToDate);
        if proof.None? then Answer(Erred, CommitUnproven, None)
        else Answer(Rebuilt, CommitRecovered, proof)
  }

  /** The terminal record a replay adds to an interrupted transaction. */
  function Closing(s: Store, request: Request, upToDate: bool): Option<Terminal>
    requires request.tx in s.begins
  {
    if s.begins[request.tx].Partial? || !BeginMatches(s.begins[request.tx].content, request)
        || request.tx in s.terminals then None
    else if !ReadPointer(s).Present? || ReadPointer(s).pointer.transactionId != request.tx then
      Some(OperatorTerminal(request, Error, InterruptedBeforeCommit, None, None, None))
    else
      var proof := CommitProof(s, s.begins[request.tx].content, request.tx, None, upToDate);
      if proof.None? then
        Some(OperatorTerminal(request, Error, CommitUnproven, None, Some(request.snapshot), Some(request.candidate)))
      else
        Some(OperatorTerminal(request, Status.Committed, CommitRecovered, proof, Some(request.snapshot),
            Some(request.candidate)))
  }

  /** The terminal records after a replay. */
  function Closed(s: Store, request: Request, upToDate: bool): map<Tx, File<Terminal>>
    requires request.tx in s.begins
  {
    if Closing(s, request, upToDate).None? then s.terminals
    else s.terminals[request.tx := Whole(Closing(s, request, upToDate).value)]
  }

  /** Replay says "rebuilt" only when the current pointer's transaction, previous
      link and artifact all match the durable begin record. */
  lemma ReplayIsHonest(s: Store, request: Request, upToDate: bool)
    requires request.tx in s.begins
    ensures Honest(s, request, ReplayAnswer(s, request, upToDate))
    ensures forall t: Store :: t.begins == s.begins && t.pointer == s.pointer && t.artifacts == s.artifacts ==>
              Honest(t, request, ReplayAnswer(s, request, upToDate))
  {
  }

  /** What the durable records answer, record by record. */
  lemma ReplayTells(s: Store, request: Request, upToDate: bool)
    requires request.tx in s.begins && s.begins[request.tx].Whole?
    ensures var begin := s.begins[request.tx].content;
            var same := begin.lane == Operator && begin.authorization == Some(request.authorization)
              && begin.snapshot == request.snapshot && begin.candidate == Some(request.candidate);
            var current := s.pointer.Some? && s.pointer.value ==
                PointerTo(request.candidate, request.tx, begin.previousId)
              && ReadPointer(s).Present? && request.candidate.receiptSnapshot == request.snapshot
              && request.candidate.generation.operator;
            var answer := ReplayAnswer(s, request, upToDate);
            && (!same ==> answer == Answer(Declined, ReplayConflict, None))
            && (same && request.tx !in s.terminals && current ==>
                 answer == if upToDate then Answer(Rebuilt, CommitRecovered, Some(request.candidate.generation.id))
                           else Answer(Erred, CommitUnproven, None))
            && (forall was :: (same && Get(s.terminals, request.tx) == Some(Whole(CommitRecord(request, was)))
                               && current ==>
                 answer == if upToDate then Answer(Rebuilt, CommitReason(was), Some(request.candidate.generation.id))
                           else Answer(Erred, CommitUnproven, None)))
  {
  }

  /** A transaction closed without a commit, and not current, keeps its answer. */
  lemma ClosedReplay(
    s: Store, request: Request, upToDate: bool,
    status: Status, reason: Reason, id: Option<Id>, snapshot: Option<nat>, candidate: Option<Manifest>)
    requires request.tx in s.begins && s.begins[request.tx].Whole?
    requires BeginMatches(s.begins[request.tx].content, request)
    requires s.pointer.None? || s.pointer.value.transactionId != request.tx
    requires status != Status.Committed
    requires Get(s.terminals, request.tx) ==
        Some(Whole(OperatorTerminal(request, status, reason, id, snapshot, candidate)))
    ensures ReplayAnswer(s, request, upToDate) == Answer(if status == Denied then Declined else Erred, reason, id)
  {
  }

  /** An accepted request, repeated after it was answered, is answered from the
      records: the same generation, and nothing changes. */
  method RepeatedRequest(
      authority: Authority, request: Request, around: Surroundings) returns (first: Answer, again: Answer)
    requires authority.Valid() && authority.script == [] && Untouched(authority.store, request)
    requires around.quiet && around.preliminary == around.current == around.final == Some(request.snapshot)
    requires Reviewed(authority.store, request, around) && around.upToDate
    modifies authority
    ensures authority.Valid() && |authority.history| == |old(authority.history)| + 1
    ensures first == again == Answer(Rebuilt, RebaselineCommitted, Some(request.candidate.generation.id))
    ensures CurrentId(authority.store) == Some(request.candidate.generation.id)
  {
    hide HistorySound, EachOnce;
    var _, answer := authority.Rebaseline(request, around);
    first := answer;
    PointerIsReadable(authority.store, authority.history);
    ReplayTells(authority.store, request, true);
    var _, repeated := authority.Rebaseline(request, around);
    again := repeated;
  }

  /** Some artifact of the first `length` on the chain of previous links from `id`
      carries the transaction. */
  ghost predicate OnChain(artifacts: map<Id, File<Manifest>>, id: Id, length: nat, tx: Tx)
    decreases length
  {
    && length >= 1 && id in artifacts && artifacts[id].Whole?
    && var g := artifacts[id].content.generation;
       g.transactionId == tx || (g.previousId.Some? && OnChain(artifacts, g.previousId.value, length - 1, tx))
  }

  /** An artifact below the current one carries the transaction. */
  ghost predicate CommittedBelow(s: Store, tx: Tx) {
    && s.pointer.Some? && s.pointer.value.previousId.Some? && s.pointer.value.sequence >= 1
    && OnChain(s.artifacts, s.pointer.value.previousId.value, s.pointer.value.sequence - 1, tx)
  }

  lemma {:induction false} ChainTellsHistory(s: Store, h: seq<Pointer>, i: nat, tx: Tx)
    requires HistorySound(s, h) && i < |h|
    ensures OnChain(s.artifacts, h[i].id, i + 1, tx) <==> exists j :: 0 <= j <= i && h[j].transactionId == tx
  {
    hide HistorySound;
    HistoryAt(s, h, i);
    if i > 0 {
      ChainTellsHistory(s, h, i - 1, tx);
    }
    assert h[i].transactionId == s.artifacts[h[i].id].content.generation.transactionId;
  }

  /** An open transaction is reported as interrupted before its commit exactly
      when it is not the current one; although it was committed, exactly when the
      store still shows it on the chain below the current generation. */
  lemma WhenInterruptedIsWrong(s: Store, h: seq<Pointer>, request: Request, upToDate: bool)
    requires HistorySound(s, h) && EachOnce(h)
    requires request.tx in s.begins && s.begins[request.tx].Whole?
    requires BeginMatches(s.begins[request.tx].content, request)
    requires request.tx !in s.terminals
    ensures ReplayAnswer(s, request, upToDate).reason == InterruptedBeforeCommit <==>
              (s.pointer.None? || s.pointer.value.transactionId != request.tx)
    ensures ReplayAnswer(s, request, upToDate).reason == InterruptedBeforeCommit && Promoted(h, request.tx) <==>
              CommittedBelow(s, request.tx)
  {
    hide HistorySound, InstalledBy, OnChain;
    PointerIsReadable(s, h);
    if h != [] {
      var last := |h| - 1;
      HistoryAt(s, h, last);
      if last > 0 { ChainTellsHistory(s, h, last - 1, request.tx); }
    }
  }

  /** Such a state exists: an operator's commit cut off before its terminal record,
      under a later automatic one. */
  lemma CommittedYetInterrupted(first: Id, second: Id) returns (s: Store, h: seq<Pointer>, request: Request)
    requires first == IDENTITY(1, None, 0, true) && second == IDENTITY(2, Some(first), 1, false) && first != second
    requires RECOGNIZED(7, 8)
    ensures HistorySound(s, h) && EachOnce(h) && Promoted(h, request.tx) && CommittedBelow(s, request.tx)
    ensures request.tx in s.begins && s.begins[request.tx].Whole? && BeginMatches(s.begins[request.tx].content, request)
    ensures Get(s.candidates, request.tx) == Some(Whole(request.candidate))
    ensures request.tx !in s.terminals && ReplayAnswer(s, request, true).reason == InterruptedBeforeCommit
  {
    var a := Manifest(Generation(first, 1, None, 0, true), first, 7, 0);
    var b := Manifest(Generation(second, 2, Some(first), 1, false), second, 8, 0);
    request := Request(0, 5, 7, a);
    h := [PointerTo(a, 0, None), PointerTo(b, 1, Some(first))];
    s := Store(
      map[first := Whole(a), second := Whole(b)], Some(h[1]),
      map[0 := Whole(BeginOf(request, None)), 1 := Whole(Begin(Automatic, Some(first), 8, None, None))],
      map[1 := Whole(Terminal(Automatic, Status.Committed, UpdateCommitted, Some(second), None, None, None, None))],
      map[0 := Whole(a)]);
    assert h[0].transactionId == 0;
    ChainTellsHistory(s, h, 0, 0);
  }

  predicate Bound(candidate: Manifest, tx: Tx, reviewed: Option<Manifest>) {
    && (reviewed.Some? ==> candidate == reviewed.value)
    && Genuine(candidate.generation) && candidate.generation.transactionId == tx
    && candidate.snapshotId == candidate.generation.id
  }

  /** The pointer already names exactly this promotion. */
  predicate RepeatsCurrent(
    s: Store, candidate: Manifest, tx: Tx, expectedPrevious: Option<Id>, reviewed: Option<Manifest>)
  {
    && Bound(candidate, tx, reviewed)
    && ReadPointer(s).Present?
    && var p := ReadPointer(s).pointer;
       && p.id == candidate.generation.id && p.transactionId == tx && p.previousId == expectedPrevious
       && p.sha == candidate
  }

  /** This generation is current for this transaction, with other bytes. */
  predicate Clashes(s: Store, candidate: Manifest, tx: Tx, expectedPrevious: Option<Id>) {
    && s.pointer.Some? && s.pointer.value.id == candidate.generation.id
    && s.pointer.value.transactionId == tx && s.pointer.value.previousId == expectedPrevious
  }

  predicate MayPromote(
    s: Store, candidate: Manifest, tx: Tx, expectedPrevious: Option<Id>, reviewed: Option<Manifest>)
  {
    && Bound(candidate, tx, reviewed)
    && !ReadPointer(s).Invalid?
    && !Clashes(s, candidate, tx, expectedPrevious)
    && CurrentId(s) == expectedPrevious
    && candidate.generation.sequence == NextSequence(s) && candidate.generation.previousId == expectedPrevious
  }

  /** The pointer a promotion writes. */
  function PointerTo(candidate: Manifest, tx: Tx, previousId: Option<Id>): Pointer {
    Pointer(candidate.generation.id, candidate.generation.sequence, previousId, candidate, tx)
  }

  predicate PromotionFits(s: Store, candidate: Manifest, tx: Tx, expectedPrevious: Option<Id>) {
    && Genuine(candidate.generation) && candidate.generation.transactionId == tx
    && candidate.snapshotId == candidate.generation.id
    && CurrentId(s) == expectedPrevious == candidate.generation.previousId
    && candidate.generation.sequence == NextSequence(s)
  }

  lemma CurrentIsPromoted(s: Store, h: seq<Pointer>)
    requires HistorySound(s, h) && s.pointer.Some?
    ensures Promoted(h, s.pointer.value.transactionId)
  {
    assert h[|h| - 1].transactionId == s.pointer.value.transactionId;
  }
}
