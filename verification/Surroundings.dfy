/** What surrounds a transaction step by step: outside writers, failing steps and
    power cuts.  `W` is one write of an outside writer. */
module Surroundings {
  import opened Wrappers

  /** One step: what outside writers do just before it, and what becomes of it. */
  datatype Moment<W> = Moment(writes: seq<W>, event: Event)

  /** All outside writes still to come. */
  function Writes<W>(script: seq<Moment<W>>): seq<W> {
    if script == [] then [] else script[0].writes + Writes(script[1..])
  }

  predicate NoWrites<W>(script: seq<Moment<W>>) {
    forall i :: 0 <= i < |script| ==> script[i].writes == []
  }

  lemma {:induction false} NoWritesAtAll<W>(script: seq<Moment<W>>)
    ensures NoWrites(script) <==> Writes(script) == []
  {
    if script != [] {
      NoWritesAtAll(script[1..]);
      assert NoWrites(script) ==> NoWrites(script[1..]);
      assert NoWrites(script[1..]) && script[0].writes == [] ==> NoWrites(script) by {
        assert forall i :: 0 < i < |script| ==> script[i] == script[1..][i - 1];
      }
    }
  }

  /** The outside writes a number of calls met: of each call's script a first part. */
  ghost predicate Met<W>(writes: seq<W>, calls: seq<seq<Moment<W>>>)
    decreases |calls|, 1
  {
    if calls == [] then writes == []
    else exists k :: 0 <= k <= |writes| && MetLast(writes, calls, k)
  }

  ghost predicate MetLast<W>(writes: seq<W>, calls: seq<seq<Moment<W>>>, k: nat)
    requires calls != [] && k <= |writes|
    decreases |calls|, 0
  {
    Met(writes[..k], calls[..|calls| - 1]) && writes[k..] <= Writes(calls[|calls| - 1])
  }

  lemma NoneMet<W>()
    ensures Met<W>([], [])
  {
  }

  /** One more call that met some writes and left the others in its script. */
  lemma MetOneMore<W>(
      start: seq<W>, met: seq<W>, after: seq<W>, left: seq<Moment<W>>, calls: seq<seq<Moment<W>>>, i: nat)
    requires i < |calls| && Met(met, calls[..i])
    requires start + met <= after && after + Writes(left) == start + met + Writes(calls[i])
    ensures start <= after && Met(after[|start|..], calls[..i + 1])
  {
    hide Writes;
    var now, k := after[|start|..], |met|;
    assert calls[..i + 1][..i] == calls[..i] && now[..k] == met;
    assert now[k..] + Writes(left) == (after + Writes(left))[|start + met|..] == Writes(calls[i]);
    assert MetLast(now, calls[..i + 1], k);
  }

  /** The outcome of a number of steps one after the other, and what is left of
      the script after them. */
  function Advance<W>(script: seq<Moment<W>>, steps: nat): (Outcome, seq<Moment<W>>) {
    if steps == 0 || script == [] then (Done, script)
    else if script[0].event.Proceed? then Advance(script[1..], steps - 1)
    else (OutcomeOf(script[0].event), script[1..])
  }

  lemma FirstStep<W>(script: seq<Moment<W>>)
    ensures script == [] ==> Advance(script, 1) == (Done, script)
    ensures script != [] ==> Advance(script, 1) == (OutcomeOf(script[0].event), script[1..])
    ensures script != [] ==> Writes(script) == script[0].writes + Writes(script[1..])
    ensures script != [] && NoWrites(script) ==> script[0].writes == [] && NoWrites(script[1..])
  {
    if script != [] { assert Advance(script[1..], 0) == (Done, script[1..]); }
  }

  lemma {:induction false} AdvanceSplit<W>(script: seq<Moment<W>>, first: nat, second: nat)
    ensures Advance(script, first + second) ==
              var done := Advance(script, first); if done.0 == Done then Advance(done.1, second) else done
  {
    if first != 0 && script != [] && script[0].event.Proceed? {
      AdvanceSplit(script[1..], first - 1, second);
    }
  }

  lemma {:induction false} OnlyEvents<W>(script: seq<Moment<W>>, steps: nat)
    ensures Advance(script, steps).0.Raised() ==> Advance(script, steps).0 == Failed(StepRaised)
  {
    if steps != 0 && script != [] && script[0].event.Proceed? { OnlyEvents(script[1..], steps - 1); }
  }

  lemma NoSteps<W>(script: seq<Moment<W>>)
    ensures Advance(script, 0) == (Done, script)
  {
  }

  lemma NothingToCome<W>(steps: nat)
    ensures Advance<W>([], steps) == (Done, []) && NoWrites<W>([])
  {
  }

  /** Steps that went through did so with any fewer; once a step failed, more do not
      change the outcome. */
  lemma StepsAround<W>(script: seq<Moment<W>>, at: nat)
    ensures forall n: nat {:trigger Advance(script, n)} ::
              n <= at && Advance(script, at).0 == Done ==> Advance(script, n).0 == Done
    ensures forall n: nat {:trigger Advance(script, n)} ::
              n >= at && Advance(script, at).0 != Done ==> Advance(script, n) == Advance(script, at)
  {
    forall n: nat | n <= at && Advance(script, at).0 == Done ensures Advance(script, n).0 == Done {
      AdvanceSplit(script, n, at - n);
    }
    forall n: nat | n >= at && Advance(script, at).0 != Done ensures Advance(script, n) == Advance(script, at) {
      AdvanceSplit(script, at, n - at);
    }
  }

  /** The outside writes met in a number of steps. */
  function Seen<W>(script: seq<Moment<W>>, steps: nat): seq<W> {
    if steps == 0 || script == [] then [] else script[0].writes + Seen(script[1..], steps - 1)
  }

  lemma {:induction false} SeenSplit<W>(script: seq<Moment<W>>, first: nat, second: nat)
    requires Advance(script, first).0 == Done
    ensures Seen(script, first + second) == Seen(script, first) + Seen(Advance(script, first).1, second)
  {
    if first != 0 && script != [] {
      SeenSplit(script[1..], first - 1, second);
    } else if script == [] {
      assert Seen(script, first + second) == [];
    }
  }

  lemma SeenFirst<W>(script: seq<Moment<W>>)
    ensures Seen(script, 1) == if script == [] then [] else script[0].writes
  {
    if script != [] { assert Seen(script[1..], 0) == []; }
  }

  predicate NoRaises<W>(script: seq<Moment<W>>) {
    forall i :: 0 <= i < |script| ==> !script[i].event.Raise?
  }

  predicate RaisesNext<W>(script: seq<Moment<W>>) {
    script != [] && script[0].event.Raise?
  }

  predicate OneRaise<W>(script: seq<Moment<W>>) {
    forall i, j :: 0 <= i < j < |script| ==> !(script[i].event.Raise? && script[j].event.Raise?)
  }

  /** No step after one that raised raises, when only one step does. */
  lemma {:induction false} OneRaiseOnly<W>(script: seq<Moment<W>>, steps: nat, more: nat)
    requires OneRaise(script) && Advance(script, steps).0.Raised()
    ensures !RaisesNext(Advance(script, steps).1) && !Advance(Advance(script, steps).1, more).0.Raised()
  {
    if script[0].event.Proceed? {
      OneRaiseOnly(script[1..], steps - 1, more);
    } else {
      assert forall i :: 0 <= i < |script[1..]| ==> !script[1..][i].event.Raise?;
      NeverRaises(script[1..], more);
    }
  }

  lemma {:induction false} NeverRaises<W>(script: seq<Moment<W>>, steps: nat)
    requires NoRaises(script)
    ensures !Advance(script, steps).0.Raised()
  {
    if steps != 0 && script != [] && script[0].event.Proceed? { NeverRaises(script[1..], steps - 1); }
  }

  /** Power is cut after a number of steps. */
  function CutAt<W>(steps: nat): (script: seq<Moment<W>>)
    ensures |script| == steps + 1 && NoWrites(script)
  {
    if steps == 0 then [Moment([], PowerCut)] else [Moment([], Proceed)] + CutAt(steps - 1)
  }

  lemma {:induction false} CutAfter<W>(steps: nat, more: nat)
    ensures Advance<W>(CutAt(steps), steps).0 == Done
    ensures Advance<W>(CutAt(steps), steps + 1 + more).0 == Failed(Crashed)
  {
    if steps != 0 {
      CutAfter<W>(steps - 1, more);
      assert CutAt<W>(steps)[1..] == CutAt<W>(steps - 1);
    }
  }
}
