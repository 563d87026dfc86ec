/** The undo/redo manager of the map editor (src/General/UndoRedo.cpp).
    An undo level is a named list of undo steps; the manager keeps the list of
    recorded levels, the index of the level the next undo would revert, the
    level being recorded (if any) and the "undo running" flag. What a step does
    to the edited map is outside this model: a step is known by its identity
    and by what its undo, redo and validity checks report, and every run of a
    step is appended to the manager's history. */
module UndoRedo {
  import opened Opt

  datatype UndoStep = UndoStep(id: nat, isOk: bool, undoSucceeds: bool, redoSucceeds: bool)

  datatype UndoLevel = UndoLevel(name: string, steps: seq<UndoStep>)

  /** One run of a step's undo or redo against the edited map. */
  datatype StepRun = Undone(step: UndoStep) | Redone(step: UndoStep)

  /** The runs an undo of [steps] performs: every step, last to first. */
  function UndoRuns(steps: seq<UndoStep>): seq<StepRun>
  {
    if steps == [] then [] else UndoRuns(steps[1..]) + [Undone(steps[0])]
  }

  /** The runs a redo of [steps] performs: every step, first to last. */
  function RedoRuns(steps: seq<UndoStep>): seq<StepRun>
  {
    if steps == [] then [] else RedoRuns(steps[..|steps| - 1]) + [Redone(steps[|steps| - 1])]
  }

  lemma {:induction false} UndoRunsAt(steps: seq<UndoStep>, k: nat)
    requires k < |steps|
    ensures |UndoRuns(steps)| == |steps|
    ensures UndoRuns(steps)[k] == Undone(steps[|steps| - 1 - k])
  {
    UndoRunsLength(steps[1..]);
    if k < |steps| - 1 {
      UndoRunsAt(steps[1..], k);
    }
  }

  lemma {:induction false} UndoRunsLength(steps: seq<UndoStep>)
    ensures |UndoRuns(steps)| == |steps|
  {
    if steps != [] {
      UndoRunsLength(steps[1..]);
    }
  }

  lemma {:induction false} RedoRunsAt(steps: seq<UndoStep>, k: nat)
    requires k < |steps|
    ensures |RedoRuns(steps)| == |steps|
    ensures RedoRuns(steps)[k] == Redone(steps[k])
  {
    RedoRunsLength(steps[..|steps| - 1]);
    if k < |steps| - 1 {
      RedoRunsAt(steps[..|steps| - 1], k);
    }
  }

  lemma {:induction false} RedoRunsLength(steps: seq<UndoStep>)
    ensures |RedoRuns(steps)| == |steps|
  {
    if steps != [] {
      RedoRunsLength(steps[..|steps| - 1]);
    }
  }

  /** Undoing a concatenation undoes the later part first. */
  lemma {:induction false} UndoRunsAppend(a: seq<UndoStep>, b: seq<UndoStep>)
    ensures UndoRuns(a + b) == UndoRuns(b) + UndoRuns(a)
  {
    if a == [] {
      assert a + b == b;
    } else {
      assert (a + b)[1..] == a[1..] + b;
      UndoRunsAppend(a[1..], b);
    }
  }

  /** Redoing a concatenation redoes the earlier part first. */
  lemma {:induction false} RedoRunsAppend(a: seq<UndoStep>, b: seq<UndoStep>)
    ensures RedoRuns(a + b) == RedoRuns(a) + RedoRuns(b)
  {
    if b == [] {
      assert a + b == a;
    } else {
      assert (a + b)[..|a + b| - 1] == a + b[..|b| - 1];
      RedoRunsAppend(a, b[..|b| - 1]);
    }
  }

  /** UndoLevel::doUndo: runs the undo of every step from last to first and
      reports whether all of them succeeded. */
  method DoUndo(level: UndoLevel) returns (ok: bool, runs: seq<StepRun>)
    ensures runs == UndoRuns(level.steps)
    ensures ok <==> forall s | s in level.steps :: s.undoSucceeds
  {
    ok := true;
    runs := [];
    var a := |level.steps| - 1;
    while a >= 0
      invariant -1 <= a < |level.steps|
      invariant runs == UndoRuns(level.steps[a + 1..])
      invariant ok <==> forall s | s in level.steps[a + 1..] :: s.undoSucceeds
    {
      assert level.steps[a..][1..] == level.steps[a + 1..];
      assert level.steps[a..] == [level.steps[a]] + level.steps[a + 1..];
      if !level.steps[a].undoSucceeds {
        ok := false;
      }
      runs := runs + [Undone(level.steps[a])];
      a := a - 1;
    }
    assert level.steps[0..] == level.steps;
  }

  /** UndoLevel::doRedo: runs the redo of every step from first to last and
      reports whether all of them succeeded. */
  method DoRedo(level: UndoLevel) returns (ok: bool, runs: seq<StepRun>)
    ensures runs == RedoRuns(level.steps)
    ensures ok <==> forall s | s in level.steps :: s.redoSucceeds
  {
    ok := true;
    runs := [];
    var a := 0;
    while a < |level.steps|
      invariant 0 <= a <= |level.steps|
      invariant runs == RedoRuns(level.steps[..a])
      invariant ok <==> forall s | s in level.steps[..a] :: s.redoSucceeds
    {
      assert level.steps[..a + 1][..a] == level.steps[..a];
      assert level.steps[..a + 1] == level.steps[..a] + [level.steps[a]];
      if !level.steps[a].redoSucceeds {
        ok := false;
      }
      runs := runs + [Redone(level.steps[a])];
      a := a + 1;
    }
    assert level.steps[..a] == level.steps;
  }

  /** All steps of [levels], level after level. */
  function AllSteps(levels: seq<UndoLevel>): seq<UndoStep>
  {
    if levels == [] then [] else AllSteps(levels[..|levels| - 1]) + levels[|levels| - 1].steps
  }

  /** [levels] with every level's steps moved out. */
  function Emptied(levels: seq<UndoLevel>): (r: seq<UndoLevel>)
    ensures |r| == |levels|
    ensures forall i :: 0 <= i < |levels| ==> r[i] == levels[i].(steps := [])
  {
    seq(|levels|, i requires 0 <= i < |levels| => levels[i].(steps := []))
  }

  /** Undoing a merged level undoes the original levels newest first, each one
      last step to first, exactly as undoing them one by one would. */
  lemma {:induction false} MergedUndo(levels: seq<UndoLevel>, last: UndoLevel)
    ensures UndoRuns(AllSteps(levels + [last])) == UndoRuns(last.steps) + UndoRuns(AllSteps(levels))
  {
    assert (levels + [last])[..|levels + [last]| - 1] == levels;
    UndoRunsAppend(AllSteps(levels), last.steps);
  }

  /** Redoing a merged level redoes the original levels oldest first. */
  lemma {:induction false} MergedRedo(levels: seq<UndoLevel>, last: UndoLevel)
    ensures RedoRuns(AllSteps(levels + [last])) == RedoRuns(AllSteps(levels)) + RedoRuns(last.steps)
  {
    assert (levels + [last])[..|levels + [last]| - 1] == levels;
    RedoRunsAppend(AllSteps(levels), last.steps);
  }

  /** After merging, the emptied source levels hold no step at all. */
  lemma {:induction false} EmptiedHoldsNoSteps(levels: seq<UndoLevel>)
    ensures AllSteps(Emptied(levels)) == []
  {
    if levels != [] {
      var init := levels[..|levels| - 1];
      assert Emptied(levels)[..|levels| - 1] == Emptied(init);
      EmptiedHoldsNoSteps(init);
    }
  }

  /** UndoLevel::createMerged: moves the steps of every level in [sources],
      in order, to the end of [level]; the sources are left without steps. */
  method CreateMerged(level: UndoLevel, sources: seq<UndoLevel>) returns (merged: UndoLevel, emptied: seq<UndoLevel>)
    ensures merged == level.(steps := level.steps + AllSteps(sources))
    ensures emptied == Emptied(sources)
  {
    merged := level;
    emptied := sources;
    var a := 0;
    while a < |emptied|
      invariant 0 <= a <= |sources| == |emptied|
      invariant merged == level.(steps := level.steps + AllSteps(sources[..a]))
      invariant forall i :: 0 <= i < a ==> emptied[i] == sources[i].(steps := [])
      invariant forall i :: a <= i < |sources| ==> emptied[i] == sources[i]
    {
      var b := 0;
      while b < |emptied[a].steps|
        invariant 0 <= b <= |emptied[a].steps|
        invariant merged == level.(steps := level.steps + AllSteps(sources[..a]) + emptied[a].steps[..b])
      {
        assert emptied[a].steps[..b + 1] == emptied[a].steps[..b] + [emptied[a].steps[b]];
        merged := merged.(steps := merged.steps + [emptied[a].steps[b]]);
        b := b + 1;
      }
      assert emptied[a].steps[..b] == sources[a].steps;
      assert sources[..a + 1][..a] == sources[..a];
      emptied := emptied[a := emptied[a].(steps := [])];
      a := a + 1;
    }
    assert sources[..a] == sources;
  }

  /** Keeps the levels up to and including [index] and appends [level]. */
  function Committed(levels: seq<UndoLevel>, index: int, level: UndoLevel): (r: seq<UndoLevel>)
    requires -1 <= index < |levels|
    ensures |r| == index + 2 && r[index + 1] == level
    ensures forall i :: 0 <= i <= index ==> r[i] == levels[i]
  {
    levels[..index + 1] + [level]
  }

  class UndoManager {
    var levels: seq<UndoLevel>
    var currentIndex: int
    var resetPoint: int
    var recording: Option<UndoLevel>
    var undoRunning: bool
    /** Every undo or redo run of a step so far, in the order performed. */
    var history: seq<StepRun>

    /** The level index stays within -1 .. |levels| - 1, and the reset point
        is never below "nothing to undo". */
    ghost predicate Valid()
      reads this
    {
      -1 <= currentIndex < |levels| && -1 <= resetPoint
    }

    constructor ()
      ensures Valid()
      ensures levels == [] && currentIndex == -1 && resetPoint == -1
      ensures recording == None && !undoRunning && history == []
    {
      levels := [];
      currentIndex := -1;
      resetPoint := -1;
      recording := None;
      undoRunning := false;
      history := [];
    }

    predicate CurrentlyRecording()
      reads this
    {
      recording.Some?
    }

    /** Finishes recording: on success the redo tail is discarded and the
        recorded level becomes the last one and the current one; on failure
        the recorded level is dropped. Ignored while nothing is recorded or an
        undo is running. */
    method EndRecord(success: bool)
      requires Valid()
      modifies this
      ensures Valid()
      ensures old(recording).None? || old(undoRunning) ==> unchanged(this)
      ensures old(recording).Some? && !old(undoRunning) && !success ==>
        recording == None && levels == old(levels) && currentIndex == old(currentIndex)
      ensures old(recording).Some? && !old(undoRunning) && success ==>
        && recording == None
        && levels == Committed(old(levels), old(currentIndex), old(recording).value)
        && currentIndex == |levels| - 1
      ensures resetPoint == old(resetPoint) && undoRunning == old(undoRunning) && history == old(history)
    {
      if recording.None? || undoRunning {
        return;
      }
      if !success {
        recording := None;
        return;
      }
      var kept := levels;
      while |kept| - 1 > currentIndex
        invariant -1 <= currentIndex < |kept| <= |levels|
        invariant kept == levels[..|kept|]
        decreases |kept|
      {
        kept := kept[..|kept| - 1];
      }
      assert kept == levels[..currentIndex + 1];
      levels := kept + [recording.value];
      recording := None;
      currentIndex := |levels| - 1;
    }

    /** Starts recording a new level named [name], first committing any level
        still being recorded. Ignored while an undo is running. */
    method BeginRecord(name: string)
      requires Valid()
      modifies this
      ensures Valid()
      ensures old(undoRunning) ==> unchanged(this)
      ensures !old(undoRunning) ==>
        && recording == Some(UndoLevel(name, []))
        && (old(recording).None? ==> levels == old(levels) && currentIndex == old(currentIndex))
        && (old(recording).Some? ==>
              levels == Committed(old(levels), old(currentIndex), old(recording).value)
              && currentIndex == |levels| - 1)
      ensures resetPoint == old(resetPoint) && undoRunning == old(undoRunning) && history == old(history)
    {
      if undoRunning {
        return;
      }
      if recording.Some? {
        EndRecord(true);
      }
      recording := Some(UndoLevel(name, []));
    }

    /** Adds [step] to the level being recorded and reports the step's own
        validity; without a step, or while nothing is recorded, returns false
        and records nothing. */
    method RecordUndoStep(step: Option<UndoStep>) returns (ok: bool)
      requires Valid()
      modifies this
      ensures Valid()
      ensures step.None? || old(recording).None? ==> !ok && unchanged(this)
      ensures step.Some? && old(recording).Some? ==>
        && ok == step.value.isOk
        && recording == Some(old(recording).value.(steps := old(recording).value.steps + [step.value]))
      ensures levels == old(levels) && currentIndex == old(currentIndex) && resetPoint == old(resetPoint)
      ensures undoRunning == old(undoRunning) && history == old(history)
    {
      if step.None? {
        return false;
      } else if recording.None? {
        return false;
      }
      var level := recording.value;
      recording := Some(level.(steps := level.steps + [step.value]));
      ok := step.value.isOk;
    }

    /** Undoes the current level and moves the index back by one, whether or
        not the level's steps succeeded; returns the level's name, or "" with
        nothing changed while recording or when there is nothing to undo. */
    method Undo() returns (name: string)
      requires Valid()
      modifies this
      ensures Valid()
      ensures old(recording).Some? || old(currentIndex) < 0 ==> name == "" && unchanged(this)
      ensures old(recording).None? && old(currentIndex) >= 0 ==>
        && name == old(levels)[old(currentIndex)].name
        && currentIndex == old(currentIndex) - 1
        && history == old(history) + UndoRuns(old(levels)[old(currentIndex)].steps)
        && !undoRunning
      ensures levels == old(levels) && recording == old(recording) && resetPoint == old(resetPoint)
    {
      if recording.Some? {
        return "";
      }
      if currentIndex < 0 {
        return "";
      }
      undoRunning := true;
      var level := levels[currentIndex];
      var ok, runs := DoUndo(level);
      history := history + runs;
      undoRunning := false;
      currentIndex := currentIndex - 1;
      name := level.name;
    }

    /** Moves the index forward by one and redoes that level; returns the
        level's name, or "" with nothing changed while recording or when the
        index is already at the last level. */
    method Redo() returns (name: string)
      requires Valid()
      modifies this
      ensures Valid()
      ensures old(recording).Some? || old(currentIndex) == |old(levels)| - 1 ==> name == "" && unchanged(this)
      ensures old(recording).None? && old(currentIndex) < |old(levels)| - 1 ==>
        && currentIndex == old(currentIndex) + 1
        && name == levels[currentIndex].name
        && history == old(history) + RedoRuns(levels[currentIndex].steps)
        && !undoRunning
      ensures levels == old(levels) && recording == old(recording) && resetPoint == old(resetPoint)
    {
      if recording.Some? {
        return "";
      }
      if currentIndex == |levels| - 1 || |levels| == 0 {
        return "";
      }
      currentIndex := currentIndex + 1;
      undoRunning := true;
      var level := levels[currentIndex];
      var ok, runs := DoRedo(level);
      history := history + runs;
      undoRunning := false;
      name := level.name;
    }

    /** An undo followed by a redo returns the manager to the same level, and
        the map sees the level's steps undone last to first, then redone
        first to last. */
    method UndoThenRedo() returns (undone: string, redone: string)
      requires Valid() && recording.None? && currentIndex >= 0
      modifies this
      ensures Valid()
      ensures undone == redone == old(levels)[old(currentIndex)].name
      ensures levels == old(levels) && currentIndex == old(currentIndex)
      ensures history == old(history) + UndoRuns(levels[currentIndex].steps) + RedoRuns(levels[currentIndex].steps)
    {
      undone := Undo();
      redone := Redo();
    }

    /** Drops levels from the end of the list, one per step the index moves
        back, until the index reaches the reset point; then stops any
        recording and clears the undo-running flag. */
    method ClearToResetPoint()
      requires Valid()
      modifies this
      ensures Valid()
      ensures old(currentIndex) > resetPoint ==>
        currentIndex == resetPoint
        && levels == old(levels)[..|old(levels)| - (old(currentIndex) - resetPoint)]
      ensures old(currentIndex) > resetPoint && old(currentIndex) == |old(levels)| - 1 ==>
        levels == old(levels)[..resetPoint + 1]
      ensures old(currentIndex) <= resetPoint ==> currentIndex == old(currentIndex) && levels == old(levels)
      ensures recording == None && !undoRunning
      ensures resetPoint == old(resetPoint) && history == old(history)
    {
      var kept, index := levels, currentIndex;
      while index > resetPoint
        invariant -1 <= index < |kept|
        invariant currentIndex > resetPoint ==> resetPoint <= index
        invariant currentIndex <= resetPoint ==> index == currentIndex
        invariant |kept| == |levels| - (currentIndex - index)
        invariant kept == levels[..|kept|]
      {
        kept := kept[..|kept| - 1];
        index := index - 1;
      }
      levels, currentIndex := kept, index;
      recording := None;
      undoRunning := false;
    }

    /** Marks the current level as the one [ClearToResetPoint] returns to. */
    method SetResetPoint()
      requires Valid()
      modifies this
      ensures Valid()
      ensures resetPoint == currentIndex
      ensures currentIndex == old(currentIndex) && levels == old(levels)
      ensures recording == old(recording) && undoRunning == old(undoRunning) && history == old(history)
    {
      resetPoint := currentIndex;
    }

    /** Forgets every level and any recording. */
    method Clear()
      requires Valid()
      modifies this
      ensures Valid()
      ensures levels == [] && currentIndex == -1 && recording == None && !undoRunning
      ensures resetPoint == old(resetPoint) && history == old(history)
    {
      levels := [];
      recording := None;
      currentIndex := -1;
      undoRunning := false;
    }

    /** Appends one level named [name] holding every step of [source]'s levels,
        in order, and makes it current; [source]'s levels keep their names but
        lose their steps. Returns false, changing nothing, when [source] has
        no levels. */
    method CreateMergedLevel(source: UndoManager, name: string) returns (ok: bool)
      requires Valid()
      modifies this, source
      ensures Valid()
      ensures ok <==> |old(source.levels)| > 0
      ensures !ok ==> unchanged(this) && unchanged(source)
      ensures ok && source != this ==>
        && source.levels == Emptied(old(source.levels))
        && levels == old(levels) + [UndoLevel(name, AllSteps(old(source.levels)))]
      ensures ok && source == this ==>
        levels == Emptied(old(levels)) + [UndoLevel(name, AllSteps(old(levels)))]
      ensures ok ==> currentIndex == |levels| - 1 && recording == None
      ensures resetPoint == old(resetPoint) && undoRunning == old(undoRunning) && history == old(history)
      ensures source != this ==>
        && source.currentIndex == old(source.currentIndex) && source.recording == old(source.recording)
        && source.resetPoint == old(source.resetPoint) && source.undoRunning == old(source.undoRunning)
        && source.history == old(source.history)
    {
      if |source.levels| == 0 {
        return false;
      }
      var merged, emptied := CreateMerged(UndoLevel(name, []), source.levels);
      assert merged == UndoLevel(name, AllSteps(source.levels));
      source.levels := emptied;
      levels := levels + [merged];
      recording := None;
      currentIndex := |levels| - 1;
      ok := true;
    }
  }
}
