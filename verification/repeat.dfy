/**
 * Vim dot-repeat and macro recording (crates/vim/src/normal/repeat.rs).
 *
 * Actions and insertions observed while recording are appended to the dot
 * recording and to the named register being recorded. Replaying queues a batch
 * into the `Replayer`, a cursor over a queue of actions into which each new
 * batch is spliced at the cursor. The batch for `.` rewrites a recorded insert
 * into `count` copies; the batch for `@r` is the recording repeated `count`
 * times.
 *
 * What a dispatched action does to the editor, and the scheduling of the
 * deferred steps, are outside this model: `Replayer.Next` reports which step it
 * takes, and the caller performs it.
 */
module VimRepeat {
  import opened Wrappers

  type EntityId = nat

  /** A vim count; a count that was typed is at least 1. */
  type Count = n: nat | 1 <= n witness 1

  /** The editor actions this file distinguishes; every other action is `OtherAction`. */
  datatype Action =
    | InsertBefore
    | InsertAfter
    | InsertFirstNonWhitespace
    | InsertEndOfLine
    | InsertLineAbove
    | InsertLineBelow
    | ToggleReplace
    | NormalBefore
    | Repeat
    | EndRepeat
    | ShowCharacterPalette
    | OtherAction(name: string)

  /** An item of a recording: an action to dispatch, or text typed in insert mode with the UTF-16 range it replaced. */
  datatype ReplayableAction =
    | Action(action: Action)
    | Insertion(text: string, utf16RangeToReplace: Option<(int, int)>)

  // ---------------------------------------------------------------------------
  // Classifying actions

  /** `should_replay`: every action is replayed except the one that opens the character palette. */
  predicate ShouldReplay(action: Action)
    ensures !ShouldReplay(action) <==> action == ShowCharacterPalette
  {
    !action.ShowCharacterPalette?
  }

  /** `repeatable_insert`: the insert a counted insert repeats, if the item starts one. */
  function RepeatableInsert(item: ReplayableAction): (r: Option<Action>)
    ensures item.Insertion? ==> r == None
    ensures item.Action? && item.action in {InsertBefore, InsertAfter, InsertFirstNonWhitespace, InsertEndOfLine} ==> r == Some(InsertBefore)
    ensures item.Action? && item.action in {InsertLineAbove, InsertLineBelow} ==> r == Some(InsertLineBelow)
    ensures item.Action? && item.action == ToggleReplace ==> r == Some(ToggleReplace)
    ensures r.Some? ==> item.Action? && item.action in {InsertBefore, InsertAfter, InsertFirstNonWhitespace, InsertEndOfLine, InsertLineAbove, InsertLineBelow, ToggleReplace}
  {
    match item
    case Insertion(_, _) => None
    case Action(action) =>
      match action
      case InsertBefore => Some(InsertBefore)
      case InsertAfter => Some(InsertBefore)
      case InsertFirstNonWhitespace => Some(InsertBefore)
      case InsertEndOfLine => Some(InsertBefore)
      case InsertLineAbove => Some(InsertLineBelow)
      case InsertLineBelow => Some(InsertLineBelow)
      case ToggleReplace => Some(ToggleReplace)
      case _ => None
  }

  /** The insert a repeat rewrites to is itself repeatable, and rewrites to itself. */
  lemma RepeatableInsertStable(item: ReplayableAction)
    ensures var r := RepeatableInsert(item); r.Some? ==> RepeatableInsert(Action(r.value)) == r
  {
  }

  // ---------------------------------------------------------------------------
  // Repetition and splicing

  /** `n` copies of `s`, one after the other. */
  function Repeated<T>(s: seq<T>, n: nat): seq<T>
    decreases n
  {
    if n == 0 then [] else s + Repeated(s, n - 1)
  }

  /** One more copy at the end is one more copy. */
  lemma {:induction false} RepeatedAppend<T>(s: seq<T>, n: nat)
    ensures Repeated(s, n) + s == Repeated(s, n + 1)
    decreases n
  {
    if n > 0 {
      RepeatedAppend(s, n - 1);
      calc {
        Repeated(s, n) + s;
        (s + Repeated(s, n - 1)) + s;
        s + (Repeated(s, n - 1) + s);
        s + Repeated(s, n);
      }
    }
  }

  lemma {:induction false} RepeatedLength<T>(s: seq<T>, n: nat)
    ensures |Repeated(s, n)| == n * |s|
    decreases n
  {
    if n > 0 {
      RepeatedLength(s, n - 1);
    }
  }

  /** Element `j` of copy `k` of the repetition is element `j` of `s`. */
  lemma {:induction false} RepeatedAt<T>(s: seq<T>, n: nat, k: nat, j: nat)
    requires k < n && j < |s|
    ensures |Repeated(s, n)| == n * |s|
    ensures k * |s| + j < n * |s|
    ensures Repeated(s, n)[k * |s| + j] == s[j]
    decreases n
  {
    RepeatedLength(s, n);
    if k > 0 {
      RepeatedAt(s, n - 1, k - 1, j);
      assert (k - 1) * |s| + |s| == k * |s|;
      assert (n - 1) * |s| + |s| == n * |s|;
    }
  }

  /** The `while count > 0` loop of `replay_register`: the recording, `count` times over. */
  method RepeatActions(actions: seq<ReplayableAction>, count: nat) returns (repeated: seq<ReplayableAction>)
    ensures repeated == Repeated(actions, count)
    ensures |repeated| == count * |actions|
  {
    repeated := [];
    var remaining: nat := count;
    while remaining > 0
      invariant remaining <= count
      invariant repeated == Repeated(actions, count - remaining)
    {
      RepeatedAppend(actions, count - remaining);
      repeated := repeated + actions;
      remaining := remaining - 1;
    }
    RepeatedLength(actions, count);
  }

  /** The queue once `batch` is spliced in at `ix`: what was before stays before, what was after comes after the batch. */
  function Splice<T>(queue: seq<T>, ix: nat, batch: seq<T>): (r: seq<T>)
    requires ix <= |queue|
    ensures |r| == |queue| + |batch|
    ensures r[..ix] == queue[..ix]
    ensures r[ix..ix + |batch|] == batch
    ensures r[ix + |batch|..] == queue[ix..]
  {
    queue[..ix] + batch + queue[ix..]
  }

  // ---------------------------------------------------------------------------
  // The batch for `.`

  /** The recording without a trailing `NormalBefore`. */
  function WithoutTrailingNormalBefore(actions: seq<ReplayableAction>): seq<ReplayableAction> {
    if |actions| > 0 && actions[|actions| - 1] == Action(NormalBefore) then actions[..|actions| - 1] else actions
  }

  /**
   * What `repeat` queues for a recording `actions` and a count. When the
   * recording starts with a repeatable insert, with A the recording without a
   * trailing `NormalBefore` and A' the same with its head replaced by the
   * rewritten insert: A, then A' count - 1 times, from normal mode; A'
   * max(count - 1, 1) times from insert mode, where the first insertion has
   * already happened; then `NormalBefore`. Every batch ends with `EndRepeat`.
   */
  function DotRepeatBatch(actions: seq<ReplayableAction>, count: Count, fromInsertMode: bool): seq<ReplayableAction>
    requires |actions| > 0
  {
    match RepeatableInsert(actions[0])
    case None => actions + [Action(EndRepeat)]
    case Some(toRepeat) =>
      var a := WithoutTrailingNormalBefore(actions);
      var rewritten := a[0 := Action(toRepeat)];
      if fromInsertMode then
        Repeated(rewritten, if count > 1 then count - 1 else 1) + [Action(NormalBefore), Action(EndRepeat)]
      else
        a + Repeated(rewritten, count - 1) + [Action(NormalBefore), Action(EndRepeat)]
  }

  /** Every batch `repeat` queues ends with `EndRepeat`, which ends the replay. */
  lemma DotRepeatBatchEndsWithEndRepeat(actions: seq<ReplayableAction>, count: Count, fromInsertMode: bool)
    requires |actions| > 0
    ensures var batch := DotRepeatBatch(actions, count, fromInsertMode);
      |batch| > 0 && batch[|batch| - 1] == Action(EndRepeat)
  {
  }

  /** A recording that does not start with a repeatable insert is replayed exactly as recorded, whatever the count. */
  lemma DotRepeatPlainRecording(actions: seq<ReplayableAction>, count: Count, fromInsertMode: bool)
    requires |actions| > 0 && RepeatableInsert(actions[0]).None?
    ensures DotRepeatBatch(actions, count, fromInsertMode) == actions + [Action(EndRepeat)]
  {
  }

  /** An insert recorded with its closing `NormalBefore` and repeated once from normal mode is replayed exactly as recorded. */
  lemma {:induction false} DotRepeatOnceReplaysRecording(actions: seq<ReplayableAction>)
    requires |actions| > 1 && RepeatableInsert(actions[0]).Some?
    requires actions[|actions| - 1] == Action(NormalBefore)
    ensures DotRepeatBatch(actions, 1, false) == actions + [Action(EndRepeat)]
  {
    var a := actions[..|actions| - 1];
    assert WithoutTrailingNormalBefore(actions) == a;
    assert Repeated(a[0 := Action(RepeatableInsert(actions[0]).value)], 0) == [];
    assert a + [Action(NormalBefore)] == actions;
  }

  /** How long a counted insert's batch is: `count` copies of the insert from normal mode, max(count - 1, 1) from insert mode, plus the two closing actions. */
  lemma {:induction false} DotRepeatBatchLength(actions: seq<ReplayableAction>, count: Count, fromInsertMode: bool)
    requires |actions| > 0 && RepeatableInsert(actions[0]).Some?
    ensures var a := WithoutTrailingNormalBefore(actions);
      var copies := if fromInsertMode then (if count > 1 then count - 1 else 1) else count;
      |DotRepeatBatch(actions, count, fromInsertMode)| == copies * |a| + 2
  {
    var a := WithoutTrailingNormalBefore(actions);
    var rewritten := a[0 := Action(RepeatableInsert(actions[0]).value)];
    if fromInsertMode {
      RepeatedLength(rewritten, if count > 1 then count - 1 else 1);
    } else {
      RepeatedLength(rewritten, count - 1);
      assert |a| + (count - 1) * |a| == count * |a|;
    }
  }

  /**
   * The queue construction of `repeat`: drop a trailing `NormalBefore`,
   * overwrite the head with the rewritten insert, append the copies in a loop,
   * then close with `NormalBefore` and `EndRepeat`.
   */
  method BuildRepeatBatch(recorded: seq<ReplayableAction>, count: Count, fromInsertMode: bool)
    returns (batch: seq<ReplayableAction>)
    requires |recorded| > 0
    ensures batch == DotRepeatBatch(recorded, count, fromInsertMode)
  {
    var actions := recorded;
    var toRepeat := RepeatableInsert(actions[0]);
    if toRepeat.Some? {
      if actions[|actions| - 1] == Action(NormalBefore) {
        actions := actions[..|actions| - 1];
      }
      assert actions == WithoutTrailingNormalBefore(recorded);
      var newActions := actions;
      actions := actions[0 := Action(toRepeat.value)];
      var n: nat := count;
      if fromInsertMode {
        n := n - 1;
        newActions := newActions[0 := actions[0]];
      }
      ghost var start := newActions;
      var i := 1;
      while i < n
        invariant 1 <= i <= if n < 1 then 1 else n
        invariant newActions == start + Repeated(actions, i - 1)
      {
        RepeatedAppend(actions, i - 1);
        newActions := newActions + actions;
        i := i + 1;
      }
      if fromInsertMode {
        assert start == actions;
        assert Repeated(actions, i) == actions + Repeated(actions, i - 1);
      }
      newActions := newActions + [Action(NormalBefore)];
      actions := newActions;
    }
    batch := actions + [Action(EndRepeat)];
  }

  // ---------------------------------------------------------------------------
  // The replayer

  /** What one call of `Replayer::next` does. */
  datatype Step =
    | Finished                                                     // past the end: the replayer is removed
    | Dispatch(action: Action)                                     // dispatched, then observed
    | Skip(action: Action)                                         // not replayed
    | ReplayInsert(text: string, utf16RangeToReplace: Option<(int, int)>)

  function StepFor(item: ReplayableAction): (step: Step)
    ensures step != Finished
  {
    match item
    case Action(action) => if ShouldReplay(action) then Dispatch(action) else Skip(action)
    case Insertion(text, range) => ReplayInsert(text, range)
  }

  class Replayer {
    var actions: seq<ReplayableAction>
    var running: bool
    var ix: nat
    const editor: EntityId

    constructor (editor: EntityId)
      ensures actions == [] && !running && ix == 0 && this.editor == editor
    {
      actions := [];
      running := false;
      ix := 0;
      this.editor := editor;
    }

    /** `replay`: splices the batch in at the cursor, which stays put; schedules `next` unless already running. */
    method Replay(batch: seq<ReplayableAction>) returns (scheduled: bool)
      requires ix <= |actions|
      modifies this
      ensures actions == Splice(old(actions), old(ix), batch)
      ensures ix == old(ix) && running == old(running)
      ensures scheduled == !running
    {
      actions := actions[..ix] + batch + actions[ix..];
      scheduled := !running;
    }

    /** `stop`: empties the queue. */
    method Stop()
      modifies this
      ensures actions == [] && ix == old(ix) && running == old(running)
    {
      actions := [];
    }

    /** `next`: takes the action at the cursor, if any, and moves the cursor by exactly one. */
    method Next() returns (step: Step)
      modifies this
      ensures ix == old(ix) + 1 && actions == old(actions) && running == old(running)
      ensures step == if old(ix) < |actions| then StepFor(actions[old(ix)]) else Finished
    {
      var item := if ix < |actions| then Some(actions[ix]) else None;
      ix := ix + 1;
      match item {
        case None =>
          step := Finished;
        case Some(action) =>
          step := StepFor(action);
      }
    }
  }

  // ---------------------------------------------------------------------------
  // Recording state

  datatype Mode = Normal | Insert | Replace | Visual | VisualLine | VisualBlock

  datatype Operator = RecordRegister | OtherOperator(name: string)

  /** The selection the dot recording was made over. */
  datatype RecordedSelection =
    | NoSelection
    | SingleLine(cols: nat)
    | Visual(rows: nat, cols: nat)
    | VisualBlock(rows: nat, cols: nat)
    | VisualLine(rows: nat)

  /** The mode `repeat` switches to before replaying over a recorded selection. */
  function ModeFor(selection: RecordedSelection, current: Mode): Mode {
    match selection
    case NoSelection => current
    case SingleLine(_) => Mode.Visual
    case Visual(_, _) => Mode.Visual
    case VisualBlock(_, _) => Mode.VisualBlock
    case VisualLine(_) => Mode.VisualLine
  }

  /** The recording part of the vim workspace state. */
  datatype WorkspaceState = WorkspaceState(
    dotRecording: bool,
    dotReplaying: bool,
    stopRecordingAfterNextAction: bool,
    ignoreCurrentInsertion: bool,
    recordedActions: seq<ReplayableAction>,
    recordedCount: Option<Count>,
    recordedSelection: RecordedSelection,
    recordingRegister: Option<char>,
    lastRecordedRegister: Option<char>,
    lastReplayedRegister: Option<char>,
    recordings: map<char, seq<ReplayableAction>>)

  /** `recordings.entry(register).or_default().push(item)`. */
  function AppendToRecording(recordings: map<char, seq<ReplayableAction>>, register: char, item: ReplayableAction)
    : (r: map<char, seq<ReplayableAction>>)
    ensures r.Keys == recordings.Keys + {register}
    ensures register in recordings ==> r[register] == recordings[register] + [item]
    ensures register !in recordings ==> r[register] == [item]
    ensures forall other :: other in recordings && other != register ==> r[other] == recordings[other]
  {
    recordings[register := (if register in recordings then recordings[register] else []) + [item]]
  }

  /** The dot-recording step shared by `observe_action` and `observe_insertion`. */
  function DotRecorded(s: WorkspaceState, item: ReplayableAction): (r: WorkspaceState)
    ensures r.recordedActions == if s.dotRecording then s.recordedActions + [item] else s.recordedActions
    ensures r.dotRecording == (s.dotRecording && !s.stopRecordingAfterNextAction)
    ensures r.stopRecordingAfterNextAction == (s.stopRecordingAfterNextAction && !s.dotRecording)
    ensures r.(recordedActions := s.recordedActions, dotRecording := s.dotRecording,
               stopRecordingAfterNextAction := s.stopRecordingAfterNextAction) == s
  {
    if s.dotRecording then
      var recorded := s.(recordedActions := s.recordedActions + [item]);
      if recorded.stopRecordingAfterNextAction then
        recorded.(dotRecording := false, stopRecordingAfterNextAction := false)
      else
        recorded
    else
      s
  }

  /** With `stopRecordingAfterNextAction` set, exactly one more item is recorded and the next is not. */
  lemma DotRecordingStopsAfterOneItem(s: WorkspaceState, first: ReplayableAction, second: ReplayableAction)
    requires s.dotRecording && s.stopRecordingAfterNextAction
    ensures DotRecorded(s, first).recordedActions == s.recordedActions + [first]
    ensures DotRecorded(DotRecorded(s, first), second).recordedActions == s.recordedActions + [first]
    ensures !DotRecorded(s, first).dotRecording
  {
  }

  /** The register step: when a register is being recorded, the item is appended to it. */
  function RegisterRecorded(s: WorkspaceState, item: ReplayableAction): (r: WorkspaceState)
    ensures s.recordingRegister.None? ==> r == s
    ensures s.recordingRegister.Some? ==>
      r == s.(recordings := AppendToRecording(s.recordings, s.recordingRegister.value, item))
  {
    match s.recordingRegister
    case None => s
    case Some(register) => s.(recordings := AppendToRecording(s.recordings, register, item))
  }

  /** The count a dot-repeat runs with: none over a recorded selection, else the count just typed, else the one recorded. */
  function RepeatCount(selection: RecordedSelection, taken: Option<Count>, recorded: Option<Count>): (r: Option<Count>)
    ensures !selection.NoSelection? ==> r == None
    ensures selection.NoSelection? && taken.Some? ==> r == taken
    ensures selection.NoSelection? && taken.None? ==> r == recorded
  {
    if !selection.NoSelection? then None
    else if taken.Some? then taken
    else recorded
  }

  // ---------------------------------------------------------------------------
  // Vim

  class Vim {
    var mode: Mode
    var operators: seq<Operator>
    /** The count typed before the command, consumed by `take_count`. */
    var pendingCount: Option<Count>
    var activeEditor: Option<EntityId>
    var state: WorkspaceState
    var replayer: Replayer?

    /** A replayer in the state always has its cursor inside the queue (or just past it). */
    ghost predicate Valid()
      reads this, replayer
    {
      replayer != null ==> replayer.ix <= |replayer.actions|
    }

    constructor (state: WorkspaceState, activeEditor: Option<EntityId>)
      ensures mode == Normal && operators == [] && pendingCount == None
      ensures this.activeEditor == activeEditor && this.state == state && replayer == null
      ensures Valid()
    {
      mode := Normal;
      operators := [];
      pendingCount := None;
      this.activeEditor := activeEditor;
      this.state := state;
      replayer := null;
    }

    /** `batch` was queued: into a new replayer for `editor`, or spliced into the current one at its cursor. */
    twostate predicate Queued(new batch: seq<ReplayableAction>, editor: EntityId)
      reads this, replayer
    {
      && replayer != null
      && (old(replayer) == null ==>
            fresh(replayer) && replayer.editor == editor && replayer.actions == batch && replayer.ix == 0)
      && (old(replayer) != null ==>
            && replayer == old(replayer)
            && old(replayer.ix) <= |old(replayer.actions)|
            && replayer.actions == Splice(old(replayer.actions), old(replayer.ix), batch)
            && replayer.ix == old(replayer.ix))
    }

    /** `replayer.get_or_insert_with(|| Replayer::new(editor)).replay(batch)`. */
    method Enqueue(batch: seq<ReplayableAction>, editor: EntityId)
      requires Valid()
      modifies this, replayer
      ensures Valid() && Queued(batch, editor)
      ensures mode == old(mode) && operators == old(operators) && pendingCount == old(pendingCount)
      ensures activeEditor == old(activeEditor) && state == old(state)
    {
      if replayer == null {
        replayer := new Replayer(editor);
      }
      var _ := replayer.Replay(batch);
    }

    /** The `EndRepeat` handler: dot-replaying ends and the mode goes back to normal. */
    method EndRepeat()
      requires Valid()
      modifies this
      ensures Valid()
      ensures state == old(state).(dotReplaying := false) && mode == Normal
      ensures operators == old(operators) && pendingCount == old(pendingCount)
      ensures activeEditor == old(activeEditor) && replayer == old(replayer)
    {
      state := state.(dotReplaying := false);
      mode := Normal;
    }

    /** The `ToggleRecord` handler: stops the recording in progress, or waits for the register to record into. */
    method ToggleRecord()
      requires Valid()
      modifies this
      ensures Valid()
      ensures old(state.recordingRegister).Some? ==>
        && state == old(state).(recordingRegister := None, lastRecordedRegister := old(state.recordingRegister))
        && operators == old(operators)
      ensures old(state.recordingRegister).None? ==>
        state == old(state) && operators == old(operators) + [RecordRegister]
      ensures mode == old(mode) && pendingCount == old(pendingCount)
      ensures activeEditor == old(activeEditor) && replayer == old(replayer)
    {
      match state.recordingRegister {
        case Some(register) =>
          state := state.(recordingRegister := None, lastRecordedRegister := Some(register));
        case None =>
          operators := operators + [RecordRegister];
      }
    }

    /** The effect of `replay_register(register)`, once the count was taken and the operator cleared. */
    twostate predicate ReplayedRegister(register: char, new batch: Option<seq<ReplayableAction>>)
      reads this, replayer
    {
      var resolved := if register == '@' then old(state.lastReplayedRegister) else Some(register);
      var replays := resolved.Some? && resolved.value in old(state.recordings) && old(activeEditor).Some?;
      && operators == [] && pendingCount == None
      && mode == old(mode) && activeEditor == old(activeEditor)
      && (!replays ==>
            batch == None && state == old(state) && replayer == old(replayer)
            && (replayer != null ==> unchanged(replayer)))
      && (replays ==>
            && batch == Some(Repeated(old(state.recordings)[resolved.value], old(pendingCount).GetOr(1)))
            && state == old(state).(lastReplayedRegister := resolved)
            && Queued(batch.value, old(activeEditor).value))
    }

    /**
     * `replay_register`: `@` stands for the register replayed last; the
     * register's recording is queued `count` times over (default 1).
     */
    method ReplayRegister(register: char) returns (batch: Option<seq<ReplayableAction>>)
      requires Valid()
      modifies this, replayer
      ensures Valid()
      ensures ReplayedRegister(register, batch)
    {
      var count := pendingCount.GetOr(1);
      pendingCount := None;
      operators := [];
      var resolved := register;
      if resolved == '@' {
        match state.lastReplayedRegister {
          case None =>
            return None;
          case Some(last) =>
            resolved := last;
        }
      }
      if resolved !in state.recordings || activeEditor.None? {
        return None;
      }
      var actions := state.recordings[resolved];
      var repeated := RepeatActions(actions, count);
      state := state.(lastReplayedRegister := Some(resolved));
      Enqueue(repeated, activeEditor.value);
      batch := Some(repeated);
    }

    /** The `ReplayLastRecording` handler: replays the register recorded last, if any. */
    method ReplayLastRecording() returns (batch: Option<seq<ReplayableAction>>)
      requires Valid()
      modifies this, replayer
      ensures Valid()
      ensures old(state.lastRecordedRegister).None? ==>
        batch == None && unchanged(this) && (replayer != null ==> unchanged(replayer))
      ensures old(state.lastRecordedRegister).Some? ==>
        ReplayedRegister(old(state.lastRecordedRegister).value, batch)
    {
      match state.lastRecordedRegister {
        case None =>
          return None;
        case Some(register) =>
          batch := ReplayRegister(register);
      }
    }

    /**
     * The bookkeeping `repeat` does once a recording and an editor exist: the
     * count is taken, kept only without a recorded selection, the mode switched
     * to the recorded selection's, and `Repeat` added to the register being
     * recorded unless a replay is running.
     */
    method PrepareRepeat()
      requires Valid()
      modifies this
      ensures Valid()
      ensures var s := old(state).(recordedCount :=
                RepeatCount(old(state.recordedSelection), old(pendingCount), old(state.recordedCount)));
        state == if old(replayer) == null then RegisterRecorded(s, Action(Action.Repeat)) else s
      ensures mode == ModeFor(old(state.recordedSelection), old(mode))
      ensures pendingCount == None && operators == old(operators)
      ensures activeEditor == old(activeEditor) && replayer == old(replayer)
    {
      var count := pendingCount;
      pendingCount := None;
      match state.recordedSelection {
        case NoSelection =>
          if count.Some? {
            state := state.(recordedCount := count);
          }
        case SingleLine(_) =>
          state := state.(recordedCount := None);
          mode := Mode.Visual;
        case Visual(_, _) =>
          state := state.(recordedCount := None);
          mode := Mode.Visual;
        case VisualLine(_) =>
          state := state.(recordedCount := None);
          mode := Mode.VisualLine;
        case VisualBlock(_, _) =>
          state := state.(recordedCount := None);
          mode := Mode.VisualBlock;
      }
      if replayer == null {
        state := RegisterRecorded(state, Action(Action.Repeat));
      }
    }

    /**
     * `repeat`: nothing without a recording or an editor; otherwise, after the
     * bookkeeping of `PrepareRepeat`, the dot-repeat batch for the count in
     * effect is queued with dot-replaying on.
     */
    method Repeat(fromInsertMode: bool) returns (batch: Option<seq<ReplayableAction>>)
      requires Valid()
      modifies this, replayer
      ensures Valid()
      ensures old(state.recordedActions) == [] || old(activeEditor).None? ==>
        batch == None && unchanged(this) && (replayer != null ==> unchanged(replayer))
      ensures old(state.recordedActions) != [] && old(activeEditor).Some? ==>
        var count := RepeatCount(old(state.recordedSelection), old(pendingCount), old(state.recordedCount));
        var s := old(state).(recordedCount := count);
        var recorded := if old(replayer) == null then RegisterRecorded(s, Action(Action.Repeat)) else s;
        && batch == Some(DotRepeatBatch(old(state.recordedActions), count.GetOr(1), fromInsertMode))
        && state == recorded.(dotReplaying := true)
        && mode == ModeFor(old(state.recordedSelection), old(mode))
        && pendingCount == None && operators == old(operators) && activeEditor == old(activeEditor)
        && Queued(batch.value, old(activeEditor).value)
    {
      var actions := state.recordedActions;
      if actions == [] {
        return None;
      }
      if activeEditor.None? {
        return None;
      }
      var editor := activeEditor.value;
      PrepareRepeat();
      var queued := BuildRepeatBatch(actions, state.recordedCount.GetOr(1), fromInsertMode);
      state := state.(dotReplaying := true);
      Enqueue(queued, editor);
      batch := Some(queued);
    }

    /** `observe_action`: the dispatched action is dot-recorded, and recorded into the register unless a replay is running. */
    method ObserveAction(action: Action)
      requires Valid()
      modifies this
      ensures Valid()
      ensures var s := DotRecorded(old(state), Action(action));
        state == if old(replayer) == null then RegisterRecorded(s, Action(action)) else s
      ensures mode == old(mode) && operators == old(operators) && pendingCount == old(pendingCount)
      ensures activeEditor == old(activeEditor) && replayer == old(replayer)
    {
      state := DotRecorded(state, Action(action));
      if replayer == null {
        state := RegisterRecorded(state, Action(action));
      }
    }

    /** `observe_insertion`: one insertion is dropped when flagged; otherwise it is dot-recorded and recorded into the register. */
    method ObserveInsertion(text: string, rangeToReplace: Option<(int, int)>)
      requires Valid()
      modifies this
      ensures Valid()
      ensures old(state.ignoreCurrentInsertion) ==> state == old(state).(ignoreCurrentInsertion := false)
      ensures !old(state.ignoreCurrentInsertion) ==>
        var item := Insertion(text, rangeToReplace);
        state == RegisterRecorded(DotRecorded(old(state), item), item)
      ensures mode == old(mode) && operators == old(operators) && pendingCount == old(pendingCount)
      ensures activeEditor == old(activeEditor) && replayer == old(replayer)
    {
      if state.ignoreCurrentInsertion {
        state := state.(ignoreCurrentInsertion := false);
        return;
      }
      var item := Insertion(text, rangeToReplace);
      state := DotRecorded(state, item);
      state := RegisterRecorded(state, item);
    }

    /** One `Replayer::next` on the replayer in the state: when it has run past the end, it is removed. */
    method Advance() returns (step: Step)
      requires Valid() && replayer != null
      modifies this, replayer
      ensures Valid()
      ensures step == if old(replayer.ix) < |old(replayer.actions)|
                      then StepFor(old(replayer.actions)[old(replayer.ix)]) else Finished
      ensures step == Finished ==> replayer == null
      ensures step != Finished ==>
        replayer == old(replayer) && replayer.ix == old(replayer.ix) + 1 && replayer.actions == old(replayer.actions)
      ensures state == old(state) && mode == old(mode) && operators == old(operators)
      ensures pendingCount == old(pendingCount) && activeEditor == old(activeEditor)
    {
      step := replayer.Next();
      if step == Finished {
        replayer := null;
      }
    }
  }
}
