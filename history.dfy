/**
 * Undo/redo history of scene snapshots and the monotonic id generator.
 * Snapshots are opaque values of type S: serialising a state and parsing it back is taken
 * to give the same state, so the serialised string and the parsed object are one value here.
 */
module History {
  import opened Common

  /** The two stacks as a value: `history` (last = current state) and `redo` (last = next to redo). */
  datatype Stacks<S> = Stacks(history: seq<S>, redo: seq<S>)

  /** What the autosave slot of local storage holds. */
  datatype Stored<S> = Absent | Unparsable | Saved(snapshot: S)

  /** Appending to the undo list, dropping its oldest entry when it grows past the bound. */
  function Bounded<S>(h: seq<S>): (r: seq<S>)
  {
    if |h| > HISTORY_LIMIT then h[1..] else h
  }

  /** Effect of `pushHistory(s)` on the stacks. */
  function PushStep<S>(st: Stacks<S>, s: S): (r: Stacks<S>)
    requires |st.history| <= HISTORY_LIMIT
    ensures |r.history| <= HISTORY_LIMIT
    ensures |r.history| > 0 && r.history[|r.history| - 1] == s
    ensures r.redo == []
    ensures |st.history| < HISTORY_LIMIT ==> r.history == st.history + [s]
    ensures |st.history| == HISTORY_LIMIT ==> r.history == st.history[1..] + [s]
  {
    Stacks(Bounded(st.history + [s]), [])
  }

  /** Effect of `undo()`: the snapshot returned (if any) and the new stacks. */
  function UndoStep<S>(st: Stacks<S>): (r: (Option<S>, Stacks<S>))
    ensures |st.history| <= 1 ==> r == (None, st)
    ensures |st.history| > 1 ==>
      && r.1.history == st.history[..|st.history| - 1]
      && r.1.redo == st.redo + [st.history[|st.history| - 1]]
      && r.0 == Some(r.1.history[|r.1.history| - 1])
    ensures |r.1.history| + |r.1.redo| == |st.history| + |st.redo|
  {
    if |st.history| > 1 then
      var h := st.history[..|st.history| - 1];
      (Some(h[|h| - 1]), Stacks(h, st.redo + [st.history[|st.history| - 1]]))
    else
      (None, st)
  }

  /** Effect of `redo()`. */
  function RedoStep<S>(st: Stacks<S>): (r: (Option<S>, Stacks<S>))
    ensures |st.redo| == 0 ==> r == (None, st)
    ensures |st.redo| > 0 ==>
      && r.1.redo == st.redo[..|st.redo| - 1]
      && r.1.history == st.history + [st.redo[|st.redo| - 1]]
      && r.0 == Some(st.redo[|st.redo| - 1])
    ensures |r.1.history| + |r.1.redo| == |st.history| + |st.redo|
  {
    if |st.redo| > 0 then
      var s := st.redo[|st.redo| - 1];
      (Some(s), Stacks(st.history + [s], st.redo[..|st.redo| - 1]))
    else
      (None, st)
  }

  /** An undo that does something, followed at once by a redo, restores both stacks and
      hands back the snapshot the undo took off. */
  lemma UndoThenRedo<S>(st: Stacks<S>)
    requires |st.history| > 1
    ensures RedoStep(UndoStep(st).1).1 == st
    ensures RedoStep(UndoStep(st).1).0 == Some(st.history[|st.history| - 1])
  {
    var u := UndoStep(st).1;
    assert u.redo[..|u.redo| - 1] == st.redo;
    assert u.history + [u.redo[|u.redo| - 1]] == st.history;
  }

  /** A redo followed at once by an undo also restores both stacks, and the undo returns the
      snapshot that was current before the redo. */
  lemma RedoThenUndo<S>(st: Stacks<S>)
    requires |st.history| > 0 && |st.redo| > 0
    ensures UndoStep(RedoStep(st).1).1 == st
    ensures UndoStep(RedoStep(st).1).0 == Some(st.history[|st.history| - 1])
  {
    var r := RedoStep(st).1;
    assert r.history[..|r.history| - 1] == st.history;
    assert r.redo + [r.history[|r.history| - 1]] == st.redo;
  }

  /** Any number of undos followed by as many redos, with no push in between, restores the stacks. */
  lemma {:induction false} UndosThenRedos<S>(st: Stacks<S>, n: nat)
    requires |st.history| > n
    ensures RedoN(UndoN(st, n), n) == st
    decreases n
  {
    if n > 0 {
      var u := UndoStep(st).1;
      UndosThenRedos(u, n - 1);
      calc {
        RedoN(UndoN(st, n), n);
        RedoN(UndoN(u, n - 1), n);
        { RedoNSplit(UndoN(u, n - 1), n - 1); }
        RedoStep(RedoN(UndoN(u, n - 1), n - 1)).1;
        RedoStep(u).1;
        { UndoThenRedo(st); }
        st;
      }
    }
  }

  function UndoN<S>(st: Stacks<S>, n: nat): Stacks<S>
    decreases n
  {
    if n == 0 then st else UndoN(UndoStep(st).1, n - 1)
  }

  function RedoN<S>(st: Stacks<S>, n: nat): Stacks<S>
    decreases n
  {
    if n == 0 then st else RedoN(RedoStep(st).1, n - 1)
  }

  lemma {:induction false} RedoNSplit<S>(st: Stacks<S>, n: nat)
    ensures RedoN(st, n + 1) == RedoStep(RedoN(st, n)).1
    decreases n
  {
    if n > 0 { RedoNSplit(RedoStep(st).1, n - 1); }
  }

  /** The history manager: both stacks are updated in place, and a pending autosave timer
      writes the current snapshot to the autosave slot when it fires. */
  class HistoryManager<S> {
    var history: seq<S>
    var redoStack: seq<S>
    var autosavePending: bool
    var stored: Stored<S>

    ghost predicate Valid()
      reads this
    {
      |history| + |redoStack| <= HISTORY_LIMIT
    }

    function Current(): Stacks<S>
      reads this
    {
      Stacks(history, redoStack)
    }

    constructor (storage: Stored<S>)
      ensures Valid()
      ensures history == [] && redoStack == [] && !autosavePending && stored == storage
    {
      history, redoStack := [], [];
      autosavePending := false;
      stored := storage;
    }

    method PushHistory(state: S)
      requires Valid()
      modifies this
      ensures Valid()
      ensures Current() == PushStep(old(Current()), state)
      ensures autosavePending && stored == old(stored)
    {
      history := history + [state];
      if |history| > HISTORY_LIMIT {
        history := history[1..];
      }
      redoStack := [];
      ScheduleAutosave();
    }

    method Undo() returns (r: Option<S>)
      requires Valid()
      modifies this
      ensures Valid()
      ensures (r, Current()) == UndoStep(old(Current()))
      ensures autosavePending == old(autosavePending) && stored == old(stored)
    {
      if |history| > 1 {
        var current := history[|history| - 1];
        history := history[..|history| - 1];
        redoStack := redoStack + [current];
        return Some(history[|history| - 1]);
      }
      return None;
    }

    method Redo() returns (r: Option<S>)
      requires Valid()
      modifies this
      ensures Valid()
      ensures (r, Current()) == RedoStep(old(Current()))
      ensures autosavePending == old(autosavePending) && stored == old(stored)
    {
      if |redoStack| > 0 {
        var snap := redoStack[|redoStack| - 1];
        redoStack := redoStack[..|redoStack| - 1];
        history := history + [snap];
        return Some(snap);
      }
      return None;
    }

    /** Re-arms the debounce timer (an earlier pending write is cancelled). */
    method ScheduleAutosave()
      modifies this`autosavePending
      ensures autosavePending
    {
      autosavePending := true;
    }

    /** The timer callback: writes the top of the history, or the engine's current state when the
        history is empty. A storage that refuses the write (quota) leaves the slot as it was. */
    method FireAutosave(currentState: S, writable: bool)
      requires autosavePending
      modifies this`autosavePending, this`stored
      ensures !autosavePending
      ensures stored == if !writable then old(stored)
                        else if |history| > 0 then Saved(history[|history| - 1])
                        else Saved(currentState)
    {
      autosavePending := false;
      var snap := if |history| > 0 then history[|history| - 1] else currentState;
      if writable {
        stored := Saved(snap);
      }
    }

    method LoadAutosave() returns (r: Option<S>)
      ensures r.Some? <==> stored.Saved?
      ensures stored.Saved? ==> r.value == stored.snapshot
    {
      match stored
      case Saved(s) => r := Some(s);
      case _ => r := None;
    }
  }

  /** Hands out increasing ids; the next one is `nextId`. */
  class IdGenerator {
    var nextId: int

    constructor (startId: int)
      ensures nextId == startId
    {
      nextId := startId;
    }

    method Generate() returns (id: int)
      modifies this
      ensures id == old(nextId) && nextId == old(nextId) + 1
    {
      id := nextId;
      nextId := nextId + 1;
    }

    method SetNext(id: int)
      modifies this
      ensures nextId == id
    {
      nextId := id;
    }
  }
}
