/**
 Properties of the document session that relate several handler calls: sequences of user
 actions, a save followed by an open, exit against close, and the places where the two notions
 of "unsaved" (the widget's modified flag and the snapshot comparison) part ways.
 */
module SessionProperties {
  import opened DocumentSession

  datatype Option<T> = None | Some(value: T)

  /** One user action together with every answer the environment gives while it is handled. */
  datatype Action =
    | Type(newText: string)
    | New(answer: Answer, save: SaveReplies, clearedModified: bool)
    | Open(answer: Answer, save: SaveReplies, open: OpenReplies)
    | SaveCommand(save: SaveReplies)
    | SaveAsCommand(save: SaveReplies)
    | Exit(answer: Answer, save: SaveReplies)
    | Close(answer: Answer, save: SaveReplies)

  /** The handler each action is wired to. */
  function Handle(s: Session, a: Action): Step {
    match a
    case Type(newText) => Step(Edit(s, newText), [])
    case New(answer, save, clearedModified) => NewFile(s, answer, save, clearedModified)
    case Open(answer, save, open) => OpenFile(s, answer, save, open)
    case SaveCommand(save) => SaveFile(s, save)
    case SaveAsCommand(save) => SaveFileAs(s, save)
    case Exit(answer, save) => OnExit(s, answer, save)
    case Close(answer, save) => CloseEvent(s, answer, save)
  }

  /** The step ends the program: the application quits or the window closes. */
  predicate Ends(t: Step) {
    Quit in t.effects || CloseAccepted in t.effects
  }

  predicate Final(e: Effect) {
    e.Quit? || e.CloseAccepted?
  }

  /** Handle the actions one after another until one of them ends the program. */
  function Run(s: Session, actions: seq<Action>): Step
    decreases |actions|
  {
    if actions == [] then Step(s, [])
    else
      var first := Handle(s, actions[0]);
      if Ends(first) then first
      else
        var rest := Run(first.after, actions[1..]);
        Step(rest.after, first.effects + rest.effects)
  }

  /** An effect that neither ends the program nor touches a file without a name. */
  predicate Ordinary(e: Effect) {
    !Final(e) && ((e.Wrote? || e.SaveFailed?) ==> e.path != "")
  }

  predicate AllOrdinary(effects: seq<Effect>) {
    forall e <- effects :: Ordinary(e)
  }

  /**
   No write is attempted on an empty path, and quitting or closing, if it happens, is the last
   thing that happens.
   */
  predicate WellFormed(effects: seq<Effect>) {
    forall i :: 0 <= i < |effects| ==> Ordinary(effects[i]) || (i == |effects| - 1 && Final(effects[i]))
  }

  lemma EndingLast(prefix: seq<Effect>, last: Effect)
    requires AllOrdinary(prefix)
    ensures WellFormed(prefix + [last]) <==> Ordinary(last) || Final(last)
  {
    var all := prefix + [last];
    forall i | 0 <= i < |prefix| ensures Ordinary(all[i]) {
      assert all[i] in prefix;
    }
    assert all[|all| - 1] == last;
  }

  lemma SaveEffectsAreOrdinary(s: Session, r: SaveReplies)
    ensures AllOrdinary(SaveFile(s, r).effects) && AllOrdinary(SaveFileAs(s, r).effects)
  {
    var target := Target(s, r);
    if target != "" {
      assert Ordinary(WriteOutcome(target, s.text, r.canWrite));
    }
    if r.dialogPath != "" {
      assert Ordinary(WriteOutcome(r.dialogPath, s.text, r.canWrite));
    }
  }

  lemma GatedEffectsAreOrdinary(s: Session, answer: Answer, r: SaveReplies, clearedModified: bool,
                                o: OpenReplies)
    ensures AllOrdinary(NewFile(s, answer, r, clearedModified).effects)
    ensures AllOrdinary(OpenFile(s, answer, r, o).effects)
  {
    SaveEffectsAreOrdinary(s, r);
    if !(s.modified && answer == Cancel) {
      var from := Resolve(s, answer, r);
      var loaded := Load(from.after, o);
      assert AllOrdinary(from.effects);
      assert AllOrdinary(loaded.effects);
      assert OpenFile(s, answer, r, o).effects == from.effects + loaded.effects;
    }
  }

  lemma LeavingEffectsAreWellFormed(s: Session, answer: Answer, r: SaveReplies)
    ensures WellFormed(OnExit(s, answer, r).effects)
    ensures WellFormed(CloseEvent(s, answer, r).effects)
  {
    SaveEffectsAreOrdinary(s, r);
    if HasUnsavedChanges(s) {
      if answer == Save {
        EndingLast([Prompted] + SaveFile(s, r).effects, Quit);
        EndingLast([Prompted] + SaveFile(s, r).effects, CloseAccepted);
      } else {
        EndingLast([Prompted], Quit);
        EndingLast([Prompted], CloseAccepted);
        EndingLast([Prompted], CloseIgnored);
      }
    } else {
      EndingLast([], Quit);
      EndingLast([], CloseAccepted);
    }
  }

  /** Each handler's effects are well formed, and ordinary unless the handler ends the program. */
  lemma HandleIsWellFormed(s: Session, a: Action)
    ensures WellFormed(Handle(s, a).effects)
    ensures !Ends(Handle(s, a)) ==> AllOrdinary(Handle(s, a).effects)
  {
    match a
    case Type(_) =>
    case New(answer, save, clearedModified) =>
      GatedEffectsAreOrdinary(s, answer, save, clearedModified, OpenReplies("", false, ""));
    case Open(answer, save, open) => GatedEffectsAreOrdinary(s, answer, save, false, open);
    case SaveCommand(save) => SaveEffectsAreOrdinary(s, save);
    case SaveAsCommand(save) => SaveEffectsAreOrdinary(s, save);
    case Exit(answer, save) => LeavingEffectsAreWellFormed(s, answer, save);
    case Close(answer, save) => LeavingEffectsAreWellFormed(s, answer, save);
  }

  lemma OrdinaryThenWellFormed(earlier: seq<Effect>, later: seq<Effect>)
    requires AllOrdinary(earlier) && WellFormed(later)
    ensures WellFormed(earlier + later)
  {
    var all := earlier + later;
    forall i | 0 <= i < |all|
      ensures Ordinary(all[i]) || (i == |all| - 1 && Final(all[i]))
    {
      if i < |earlier| {
        assert all[i] in earlier;
      } else {
        assert all[i] == later[i - |earlier|];
      }
    }
  }

  /** In any run, no write is attempted on an empty path, and the run ends at most once, last. */
  lemma {:induction false} RunIsWellFormed(s: Session, actions: seq<Action>)
    ensures WellFormed(Run(s, actions).effects)
    decreases |actions|
  {
    if actions != [] {
      var first := Handle(s, actions[0]);
      HandleIsWellFormed(s, actions[0]);
      if !Ends(first) {
        RunIsWellFormed(first.after, actions[1..]);
        OrdinaryThenWellFormed(first.effects, Run(first.after, actions[1..]).effects);
      }
    }
  }

  /**
   Edits alone change only the buffer and set the modified flag; the snapshot stays. Whether the
   session then counts as unsaved depends only on whether the last text equals the snapshot, so
   typing the saved text back makes it clean for Exit while the modified flag stays set.
   */
  lemma {:induction false} EditsOnlyMoveTheBuffer(s: Session, actions: seq<Action>)
    requires actions != []
    requires forall i :: 0 <= i < |actions| ==> actions[i].Type?
    ensures Run(s, actions) == Step(s.(text := actions[|actions| - 1].newText, modified := true), [])
    ensures HasUnsavedChanges(Run(s, actions).after) <==> actions[|actions| - 1].newText != s.savedText
    decreases |actions|
  {
    if |actions| > 1 {
      EditsOnlyMoveTheBuffer(Edit(s, actions[0].newText), actions[1..]);
    }
  }

  /** The text last written to `path` in a trace of effects, if any. */
  function LastWritten(effects: seq<Effect>, path: string): Option<string>
    decreases |effects|
  {
    if effects == [] then None
    else
      var last := effects[|effects| - 1];
      if last.Wrote? && last.path == path then Some(last.contents)
      else LastWritten(effects[..|effects| - 1], path)
  }

  lemma {:induction false} LastWrittenAppend(earlier: seq<Effect>, later: seq<Effect>, path: string)
    ensures LastWritten(earlier + later, path) ==
      if LastWritten(later, path).Some? then LastWritten(later, path) else LastWritten(earlier, path)
    decreases |later|
  {
    if later == [] {
      assert earlier + later == earlier;
    } else {
      var all := earlier + later;
      var last := later[|later| - 1];
      assert all[|all| - 1] == last;
      assert all[..|all| - 1] == earlier + later[..|later| - 1];
      LastWrittenAppend(earlier, later[..|later| - 1], path);
      if !(last.Wrote? && last.path == path) {
        assert LastWritten(all, path) == LastWritten(earlier + later[..|later| - 1], path);
        assert LastWritten(later, path) == LastWritten(later[..|later| - 1], path);
      }
    }
  }

  /**
   Round trip: after a successful Save, whatever came before, the file holds the buffer; opening
   that file again (reading what was last written there) gives back the same buffer, with no
   prompt, the modified flag cleared and nothing unsaved.
   */
  lemma SaveThenOpenRoundTrip(history: seq<Effect>, s: Session, r: SaveReplies,
                              answer: Answer, r2: SaveReplies, o: OpenReplies)
    requires Target(s, r) != "" && r.canWrite
    requires o.dialogPath == Target(s, r) && o.canRead
    requires LastWritten(history + SaveFile(s, r).effects, o.dialogPath) == Some(o.contents)
    ensures o.contents == s.text
    ensures var reopened := OpenFile(SaveFile(s, r).after, answer, r2, o);
      && reopened.after.text == s.text && reopened.after.currentFilePath == o.dialogPath
      && !reopened.after.modified && !HasUnsavedChanges(reopened.after)
      && Prompted !in reopened.effects
  {
    var saved := SaveFile(s, r);
    LastWrittenAppend(history, saved.effects, o.dialogPath);
    var n := |saved.effects|;
    assert saved.effects[n - 1] == Wrote(o.dialogPath, s.text);
  }

  /** After Save As to a path, a later Save asks nothing and writes the buffer to that path. */
  lemma SaveAsThenSaveWritesThere(s: Session, r: SaveReplies, r2: SaveReplies)
    requires r.dialogPath != ""
    ensures var again := SaveFile(SaveFileAs(s, r).after, r2);
      && AskedSavePath !in again.effects
      && again.effects == [WriteOutcome(r.dialogPath, s.text, r2.canWrite)]
      && again.after.currentFilePath == r.dialogPath
  {
  }

  /** Closing the window and the Exit command take the same decision and leave the same state. */
  lemma CloseMatchesExit(s: Session, answer: Answer, r: SaveReplies)
    ensures CloseEvent(s, answer, r).after == OnExit(s, answer, r).after
    ensures (CloseAccepted in CloseEvent(s, answer, r).effects) <==> (Quit in OnExit(s, answer, r).effects)
  {
  }

  /** Every cancel is a no-op on the session: prompts on New, Open, Exit, Close, and Save As. */
  lemma CancelIsNoOp(s: Session, r: SaveReplies, clearedModified: bool, o: OpenReplies)
    ensures s.modified ==> NewFile(s, Cancel, r, clearedModified).after == s
    ensures s.modified ==> OpenFile(s, Cancel, r, o).after == s
    ensures OpenFile(s, Discard, r, o.(dialogPath := "")).after == s
    ensures HasUnsavedChanges(s) ==> OnExit(s, Cancel, r).after == s
    ensures HasUnsavedChanges(s) ==> CloseEvent(s, Cancel, r).after == s
    ensures SaveFileAs(s, r.(dialogPath := "")).after == s
  {
  }

  /**
   A Save whose file cannot be written still refreshes the snapshot, so a following Exit quits
   without a prompt although nothing reached the file and the modified flag is still set.
   */
  lemma FailedSaveThenExitQuitsSilently(s: Session, r: SaveReplies, answer: Answer, r2: SaveReplies)
    requires s.currentFilePath != "" && !r.canWrite
    ensures var failed := SaveFile(s, r);
      && failed.effects == [SaveFailed(s.currentFilePath)]
      && failed.after.modified == s.modified
      && OnExit(failed.after, answer, r2) == Step(failed.after, [Quit])
  {
  }

  /**
   The same holds when the Save As dialog that Save opens is cancelled: nothing is written, the
   document still has no file, and Exit quits without asking.
   */
  lemma CancelledSaveAsThenExitQuitsSilently(s: Session, r: SaveReplies, answer: Answer, r2: SaveReplies)
    requires s.currentFilePath == "" && r.dialogPath == ""
    ensures var cancelled := SaveFile(s, r);
      && cancelled.effects == [AskedSavePath]
      && cancelled.after == s.(savedText := s.text)
      && OnExit(cancelled.after, answer, r2) == Step(cancelled.after, [Quit])
  {
  }

  /**
   Opening a file leaves the snapshot as it was, so a freshly reopened file whose contents differ
   from the snapshot is unsaved for Exit (which prompts) although its modified flag is clear
   (so New and Open do not prompt). Before the Open the document is unmodified, or its changes
   are discarded at the prompt.
   */
  lemma OpenedFileCountsAsUnsaved(s: Session, o: OpenReplies, answer: Answer, r: SaveReplies,
                                  r2: SaveReplies, clearedModified: bool)
    requires !s.modified || answer == Discard
    requires o.dialogPath != "" && o.canRead && o.contents != s.savedText
    ensures var reopened := OpenFile(s, answer, r, o).after;
      && !reopened.modified && HasUnsavedChanges(reopened)
      && Prompted in OnExit(reopened, answer, r2).effects
      && Prompted !in NewFile(reopened, answer, r2, clearedModified).effects
  {
  }

  /**
   Typing the snapshot's text back makes the buffer clean for Exit but leaves the modified flag
   set, so New prompts while Exit quits at once.
   */
  lemma RetypedTextSplitsTheGates(s: Session, answer: Answer, r: SaveReplies, clearedModified: bool)
    ensures var retyped := Edit(s, s.savedText);
      && !HasUnsavedChanges(retyped) && retyped.modified
      && Prompted in NewFile(retyped, answer, r, clearedModified).effects
      && OnExit(retyped, answer, r) == Step(retyped, [Quit])
  {
  }

  /**
   New keeps the snapshot and the title: after New with Discard (or, when the modified flag is
   clear, without a prompt) on a document whose snapshot is not empty, the empty buffer counts as
   unsaved and the old file name is still the title.
   */
  lemma NewKeepsSnapshotAndTitle(s: Session, r: SaveReplies, clearedModified: bool)
    requires s.savedText != ""
    ensures var cleared := NewFile(s, Discard, r, clearedModified).after;
      && cleared.text == "" && cleared.currentFilePath == ""
      && cleared.savedText == s.savedText && cleared.title == s.title
      && HasUnsavedChanges(cleared)
  {
  }

  /**
   New with Save on a document without a file: the Save As dialog sets the title to the chosen
   file's name, then New empties the path, so the title names a file that is no longer current.
   */
  lemma NewAfterSaveAsTitlesNoFile(s: Session, r: SaveReplies, clearedModified: bool)
    requires s.modified && s.currentFilePath == "" && r.dialogPath != ""
    ensures var cleared := NewFile(s, Save, r, clearedModified);
      && cleared.effects == [Prompted, AskedSavePath, WriteOutcome(r.dialogPath, s.text, r.canWrite)]
      && cleared.after.title == FileNameOf(r.dialogPath)
      && cleared.after.currentFilePath == "" && cleared.after.text == ""
  {
  }

  /** The Save chosen at the prompt of New or Open did not reach the file at its target. */
  predicate SaveMissed(s: Session, r: SaveReplies) {
    Target(s, r) == "" || !r.canWrite
  }

  /**
   New and Open go on after a Save chosen at their prompt even when that Save wrote nothing (the
   file could not be opened, or the Save As dialog was cancelled): the buffer is then replaced,
   by the empty text or by the opened file, and no write of it ever happened.
   */
  lemma UnwrittenTextIsReplacedAfterSave(s: Session, r: SaveReplies, clearedModified: bool,
                                         o: OpenReplies)
    requires s.modified && SaveMissed(s, r)
    ensures var cleared := NewFile(s, Save, r, clearedModified);
      && Prompted in cleared.effects && cleared.after.text == ""
      && forall e <- cleared.effects :: !e.Wrote?
    ensures o.dialogPath != "" && o.canRead ==>
      var reopened := OpenFile(s, Save, r, o);
      && Prompted in reopened.effects && reopened.after.text == o.contents
      && forall e <- reopened.effects :: !e.Wrote?
  {
    var saved := SaveFile(s, r);
    assert forall e <- saved.effects :: !e.Wrote?;
    var loaded := Load(saved.after, o);
    assert forall e <- loaded.effects :: !e.Wrote?;
  }
}
