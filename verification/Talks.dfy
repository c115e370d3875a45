// What is said in a transcript, and how the atoms add to it (internal/transcript/transcript.go:77-100):
// the conversation so far, item by item, and the ids of the calls that still wait for a result. A result
// nobody waits for is not part of it.

module Talks {
  import opened Transcript
  import opened Builder
  import opened ToolOutputs

  /** The conversation so far and the ids of the calls still without a result. */
  datatype Talk = Talk(items: seq<ContextItem>, waiting: set<string>)

  const SILENCE := Talk([], {})

  function WithItem(talk: Talk, role: string, text: string, json: Value, at: int): Talk {
    talk.(items := talk.items + [ContextItem(role, text, json, false, at)])
  }

  function WithCall(talk: Talk, callID: string, name: string, arguments: Value, at: int): Talk {
    WithItem(talk, "assistant", name, arguments, at).(waiting := talk.waiting + {callID})
  }

  /** A result is part of the conversation only if its call is waiting for one. */
  function WithResult(talk: Talk, callID: string, output: Value, at: int): Talk {
    if callID in talk.waiting then WithItem(talk, "tool", "", output, at).(waiting := talk.waiting - {callID}) else talk
  }

  ghost predicate Tells(moves: Growth, s: State, talk: Talk) {
    s.shown.items == talk.items && s.pending.Keys == talk.waiting && WellPlaced(moves, s)
  }

  lemma {:induction false} NoteTells(moves: Growth, s: State, talk: Talk, role: string, text: string, json: Value, at: int)
    requires Tells(moves, s, talk)
    ensures Tells(moves, Apply(moves, s, Note(role, text, json, at)), WithItem(talk, role, text, json, at))
  {
    AtomPlaces(moves, s, Note(role, text, json, at));
  }

  lemma {:induction false} CallTells(moves: Growth, s: State, talk: Talk, call: Atom)
    requires Tells(moves, s, talk) && call.Call? && HasStep(s)
    ensures
      var s' := Apply(moves, Apply(moves, s, call), Note("assistant", call.name, call.arguments, call.at));
      Tells(moves, s', WithCall(talk, call.callID, call.name, call.arguments, call.at))
  {
    AtomPlaces(moves, s, call);
    NoteTells(moves, Apply(moves, s, call), talk.(waiting := talk.waiting + {call.callID}), "assistant", call.name, call.arguments, call.at);
  }

  lemma {:induction false} ResultTells(moves: Growth, s: State, talk: Talk, result: Atom)
    requires Tells(moves, s, talk) && result.Result?
    ensures Tells(moves, Apply(moves, s, result), WithResult(talk, result.callID, result.output, result.at))
  {
    AtomPlaces(moves, s, result);
    if result.callID in s.pending {
      assert Placed(moves, s, result.callID, s.pending[result.callID]);
    }
  }

  lemma {:induction false} OtherTells(moves: Growth, s: State, talk: Talk, atom: Atom)
    requires Tells(moves, s, talk) && !atom.Note? && !atom.Call? && !atom.Result?
    ensures Tells(moves, Apply(moves, s, atom), talk)
  {
    AtomPlaces(moves, s, atom);
    OthersKeepCalls(moves, s, atom);
  }

  /** Saying or thinking something and noting it. */
  lemma {:induction false} WordTells(moves: Growth, s: State, talk: Talk, atom: Atom, role: string, text: string, at: int)
    requires Tells(moves, s, talk) && (atom.Say? || atom.Reason?)
    ensures Tells(moves, ApplyAll(moves, s, [atom, Note(role, text, Absent, at)]), WithItem(talk, role, text, Absent, at))
  {
    ApplyTwo(moves, s, atom, Note(role, text, Absent, at));
    OtherTells(moves, s, talk, atom);
    NoteTells(moves, Apply(moves, s, atom), talk, role, text, Absent, at);
  }

  /** A step begun now is shown all of it. */
  lemma {:induction false} SnapshotIsTalk(moves: Growth, s: State, talk: Talk)
    requires Tells(moves, s, talk) && forall i | 0 <= i < |talk.items| :: !talk.items[i].isNew
    ensures Unmarked(Snapshot(s.shown)) == talk.items
  {
  }
}
