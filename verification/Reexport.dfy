// The parsers, the exporter and the hook together.

module Reexport {
  // internal/transcript, internal/tracing/exporter.go, cmd/agynd-trace-hook/main.go: a
  // transcript is read again while it grows, and each run exports the turns not recorded yet.

  import opened Options
  import opened Transcript
  import opened Builder
  import opened SpanKeys
  import opened Spans
  import opened TraceHook
  import Claude
  import Codex

  /** From reading a to reading b, with sent recorded: a turn not recorded is offered again,
      and every span it had is among its spans under the same key; a recorded one is not. */
  ghost predicate AllRewritten(a: seq<Turn>, b: seq<Turn>, sent: set<string>) {
    && |a| <= |b|
    && forall i | 0 <= i < |a| ::
         if a[i].id in sent then b[i] !in Unsent(b, sent)
         else b[i] in Unsent(b, sent) && forall p | 0 <= p < |TurnSpans(a[i])| :: Rewritten(a[i], b[i], p)
  }

  lemma {:induction false} GrownTurnsAreRewritten(a: seq<Turn>, b: seq<Turn>, sent: set<string>)
    requires Extends(a, b)
    ensures AllRewritten(a, b, sent)
  {
    UnsentAre(b, sent);
    forall i, p | 0 <= i < |a| && 0 <= p < |TurnSpans(a[i])| ensures Rewritten(a[i], b[i], p) {
      assert TurnExtends(a[i], b[i]);
      SpansAreRewritten(a[i], b[i], p);
    }
    assert forall i | 0 <= i < |a| :: TurnExtends(a[i], b[i]);
  }

  lemma {:induction false} ClaudeSpansAreRewritten(moves: Growth, earlier: seq<Claude.Line>, later: seq<Claude.Line>, sent: set<string>)
    requires Claude.Grown(earlier, later)
    ensures AllRewritten(Claude.Parse(moves, earlier), Claude.Parse(moves, later), sent)
  {
    Claude.StableUnderGrowth(moves, earlier, later);
    GrownTurnsAreRewritten(Claude.Parse(moves, earlier), Claude.Parse(moves, later), sent);
  }

  lemma {:induction false} CodexSpansAreRewritten(moves: Growth, earlier: seq<Codex.Line>, later: seq<Codex.Line>, sent: set<string>)
    requires Codex.Grown(earlier, later) && Codex.HasTurnIDs(earlier) == Codex.HasTurnIDs(later)
    ensures AllRewritten(Codex.Parse(moves, earlier), Codex.Parse(moves, later), sent)
  {
    Codex.StableUnderGrowth(moves, earlier, later);
    GrownTurnsAreRewritten(Codex.Parse(moves, earlier), Codex.Parse(moves, later), sent);
  }

  // ---- What a sequence of runs has exported in the end ----

  /** Run k exports the turn at position i: it is offered, and the export goes through. */
  ghost predicate ExportsTurn(sidecar: Option<string>, runs: seq<Run>, k: nat, i: nat) {
    && k < |runs| && runs[k].exported && i < |runs[k].turns|
    && runs[k].turns[i] in Unsent(runs[k].turns, Load(AfterRuns(sidecar, runs[..k])))
  }

  /** Run k exports a span under the key. */
  ghost predicate ExportsKey(sidecar: Option<string>, runs: seq<Run>, k: nat, key: Key) {
    exists i: nat, p: nat ::
      ExportsTurn(sidecar, runs, k, i) && p < |TurnSpans(runs[k].turns[i])| && TurnSpans(runs[k].turns[i])[p].id == key
  }

  ghost predicate WasExported(sidecar: Option<string>, runs: seq<Run>, key: Key) {
    exists k: nat :: ExportsKey(sidecar, runs, k, key)
  }

  /** The transcript only grows from run to run, and names no two turns alike. */
  ghost predicate Growing(runs: seq<Run>) {
    && (forall j, k | 0 <= j <= k < |runs| :: Extends(runs[j].turns, runs[k].turns))
    && forall k, i, j | 0 <= k < |runs| && 0 <= i < j < |runs[k].turns| :: runs[k].turns[i].id != runs[k].turns[j].id
  }

  /** The turn as the last run read it. */
  function Final(runs: seq<Run>, i: nat): Turn
    requires runs != [] && i < |runs[|runs| - 1].turns|
  {
    runs[|runs| - 1].turns[i]
  }

  /** Every span of the turn's last reading was exported by some run. */
  ghost predicate FullyExported(sidecar: Option<string>, runs: seq<Run>, i: nat)
    requires runs != [] && i < |runs[|runs| - 1].turns|
  {
    forall p | 0 <= p < |TurnSpans(Final(runs, i))| :: WasExported(sidecar, runs, TurnSpans(Final(runs, i))[p].id)
  }

  /** A key of the turn's that was exported was exported as one of the turn's own spans. */
  lemma {:induction false} ExportedFrom(sidecar: Option<string>, runs: seq<Run>, k: nat, i: nat, key: Key) returns (p: nat)
    requires Growing(runs) && runs != [] && i < |runs[|runs| - 1].turns| && key.subject == Final(runs, i).id
    requires ExportsKey(sidecar, runs, k, key)
    ensures ExportsTurn(sidecar, runs, k, i) && p < |TurnSpans(runs[k].turns[i])| && TurnSpans(runs[k].turns[i])[p].id == key
  {
    var j: nat, q: nat :|
      ExportsTurn(sidecar, runs, k, j) && q < |TurnSpans(runs[k].turns[j])| && TurnSpans(runs[k].turns[j])[q].id == key;
    var step, n := SpanIs(runs[k].turns[j], q);
    assert Extends(runs[k].turns, runs[|runs| - 1].turns);
    assert TurnExtends(runs[k].turns[j], runs[|runs| - 1].turns[j]);
    assert j == i;
    p := q;
  }

  /** With r the last run to export the turn, a step of its last reading, or one of the step's
      calls, was exported only if it was there at run r. */
  lemma {:induction false} ExportedByThen(sidecar: Option<string>, runs: seq<Run>, r: nat, i: nat, step: nat, n: nat)
    requires Growing(runs) && ExportsTurn(sidecar, runs, r, i)
    requires forall k | r < k < |runs| :: !ExportsTurn(sidecar, runs, k, i)
    requires i < |runs[|runs| - 1].turns| && FullyExported(sidecar, runs, i)
    requires step < |Final(runs, i).steps| && n <= |Final(runs, i).steps[step].calls.View()|
    ensures step < |runs[r].turns[i].steps| && n <= |runs[r].turns[i].steps[step].calls.View()|
  {
    var key := KeyAt(Final(runs, i), step, n);
    var at := SpanOf(Final(runs, i), step, n);
    assert WasExported(sidecar, runs, key);
    var k: nat :| ExportsKey(sidecar, runs, k, key);
    var p := ExportedFrom(sidecar, runs, k, i, key);
    KeyThere(runs[k].turns[i], p, Final(runs, i), step, n);
    assert k <= r;
    MoreThere(runs[k].turns, runs[r].turns, i, step, n);
  }

  lemma {:induction false} KeyThere(turn: Turn, p: nat, other: Turn, step: nat, n: nat)
    requires p < |TurnSpans(turn)| && TurnSpans(turn)[p].id == KeyAt(other, step, n)
    ensures step < |turn.steps| && n <= |turn.steps[step].calls.View()|
  {
    var s, m := SpanIs(turn, p);
    assert s == step && m == n;
  }

  lemma {:induction false} MoreThere(a: seq<Turn>, b: seq<Turn>, i: nat, step: nat, n: nat)
    requires Extends(a, b) && i < |a| && step < |a[i].steps| && n <= |a[i].steps[step].calls.View()|
    ensures i < |b| && step < |b[i].steps| && n <= |b[i].steps[step].calls.View()|
  {
    assert TurnExtends(a[i], b[i]);
    assert CallsExtend(a[i].steps[step].calls.View(), b[i].steps[step].calls.View());
  }

  /** A turn of the same shape has spans under the same keys. */
  lemma {:induction false} SameKeys(a: Turn, b: Turn, p: nat) returns (q: nat)
    requires SameShape(a, b) && p < |TurnSpans(b)|
    ensures q < |TurnSpans(a)| && TurnSpans(a)[q].id == TurnSpans(b)[p].id
  {
    var step, n := SpanIs(b, p);
    q := SpanOf(a, step, n);
  }

  lemma {:induction false} ExportedThere(sidecar: Option<string>, runs: seq<Run>, k: nat, i: nat, p: nat)
    requires ExportsTurn(sidecar, runs, k, i) && p < |TurnSpans(runs[k].turns[i])|
    ensures WasExported(sidecar, runs, TurnSpans(runs[k].turns[i])[p].id)
  {
    assert ExportsKey(sidecar, runs, k, TurnSpans(runs[k].turns[i])[p].id);
  }

  /** Exactly when nothing is missing in the end: every span of the turn's last reading was
      exported if and only if the turn gained no step and no call after the last run that
      exported it. */
  lemma {:induction false} FullyExportedIff(sidecar: Option<string>, runs: seq<Run>, r: nat, i: nat)
    requires Growing(runs) && ExportsTurn(sidecar, runs, r, i)
    requires forall k | r < k < |runs| :: !ExportsTurn(sidecar, runs, k, i)
    ensures i < |runs[|runs| - 1].turns|
    ensures FullyExported(sidecar, runs, i) <==> SameShape(runs[r].turns[i], Final(runs, i))
  {
    var recorded, final := runs[r].turns[i], Final(runs, i);
    assert Extends(runs[r].turns, runs[|runs| - 1].turns);
    assert TurnExtends(recorded, final);
    if FullyExported(sidecar, runs, i) {
      forall j | 0 <= j < |final.steps|
        ensures j < |recorded.steps| && |final.steps[j].calls.View()| <= |recorded.steps[j].calls.View()|
      {
        ExportedByThen(sidecar, runs, r, i, j, |final.steps[j].calls.View()|);
      }
      NothingGained(recorded, final);
    }
    if SameShape(recorded, final) {
      forall p | 0 <= p < |TurnSpans(final)| ensures WasExported(sidecar, runs, TurnSpans(final)[p].id) {
        var q := SameKeys(recorded, final, p);
        ExportedThere(sidecar, runs, r, i, q);
      }
    }
  }

  lemma {:induction false} NothingGained(a: Turn, b: Turn)
    requires TurnExtends(a, b)
    requires forall j | 0 <= j < |b.steps| :: j < |a.steps| && |b.steps[j].calls.View()| <= |a.steps[j].calls.View()|
    ensures SameShape(a, b)
  {
    if |b.steps| > 0 {
      assert |b.steps[|b.steps| - 1].calls.View()| <= |a.steps[|b.steps| - 1].calls.View()|;
    }
    forall j | 0 <= j < |a.steps| ensures |a.steps[j].calls.View()| == |b.steps[j].calls.View()| {
      assert CallsExtend(a.steps[j].calls.View(), b.steps[j].calls.View());
    }
  }

  /** The run that records a finished turn is the last to export it. So what a turn gains after
      a run found it finished is never exported. */
  lemma {:induction false} RecordingIsLast(sidecar: Option<string>, runs: seq<Run>, r: nat, i: nat)
    requires Growing(runs) && AllFeasible(sidecar, runs) && ExportsTurn(sidecar, runs, r, i)
    requires Finished(runs[r].turns[i]) && Clean(runs[r].turns[i].id)
    ensures forall k | r < k < |runs| :: !ExportsTurn(sidecar, runs, k, i)
  {
    var turn := runs[r].turns[i];
    UnsentAre(runs[r].turns, Load(AfterRuns(sidecar, runs[..r])));
    forall k | r < k < |runs| ensures !ExportsTurn(sidecar, runs, k, i) {
      FeasiblePrefix(sidecar, runs, k);
      assert runs[..k][r] == runs[r];
      StaysRecorded(sidecar, runs[..k], r, turn);
      assert Extends(runs[r].turns, runs[k].turns);
      assert TurnExtends(turn, runs[k].turns[i]);
      UnsentAre(runs[k].turns, Load(AfterRuns(sidecar, runs[..k])));
    }
  }

  /** A finished turn with a clean id, exported by run r, is recorded from then on. */
  lemma {:induction false} StaysRecorded(sidecar: Option<string>, runs: seq<Run>, r: nat, turn: Turn)
    requires AllFeasible(sidecar, runs) && r < |runs| && runs[r].exported && turn in runs[r].turns
    requires Finished(turn) && Clean(turn.id)
    ensures turn.id in Load(AfterRuns(sidecar, runs))
  {
    FeasiblePrefix(sidecar, runs, r);
    RecordedExactlyWhenClean(AfterRuns(sidecar, runs[..r]), runs[r], turn);
    assert runs[..r + 1][..r] == runs[..r] && runs[..r + 1][r] == runs[r];
    SentOnlyGrows(sidecar, runs, r + 1);
  }

  lemma {:induction false} FeasiblePrefix(sidecar: Option<string>, runs: seq<Run>, n: nat)
    requires n <= |runs| && AllFeasible(sidecar, runs)
    ensures AllFeasible(sidecar, runs[..n])
    ensures n < |runs| ==> Feasible(AfterRuns(sidecar, runs[..n]), runs[n])
    decreases |runs|
  {
    if n == |runs| {
      assert runs[..n] == runs;
    } else {
      assert runs[..|runs| - 1][..n] == runs[..n];
      FeasiblePrefix(sidecar, runs[..|runs| - 1], n);
    }
  }
}
