/**
 The document-session controller of the text editor's main window, stated on values.

 A `Session` holds the five pieces of state the window's handlers read and write: the buffer
 text, the text widget's "modified" flag, the last-saved snapshot, the current file path and the
 window title. Each handler is a function from the session before it and the answers the user and
 the file system give during it, to a `Step`: the session after it and the effects it had, in the
 order they happened (dialogs shown, files written, warnings shown, quit or close).
 */
module DocumentSession {

  /** The three buttons of the "save changes?" prompt. */
  datatype Answer = Save | Discard | Cancel

  /**
   What the window title shows: the application's fixed title, set at start-up, or the file name
   of a path. The file name of a path is kept symbolic; this model does not compute it.
   */
  datatype Title = AppTitle | FileNameOf(path: string)   // AppTitle is "CoMiKx Text Editor"

  /**
   What the environment answers during one Save: the path returned by the Save As dialog (empty
   when the dialog is cancelled; consulted only if the dialog is shown) and whether the target
   file can be opened for writing.
   */
  datatype SaveReplies = SaveReplies(dialogPath: string, canWrite: bool)

  /**
   What the environment answers during one Open: the path returned by the Open dialog (empty when
   cancelled), whether that file can be opened for reading, and the text read from it.
   */
  datatype OpenReplies = OpenReplies(dialogPath: string, canRead: bool, contents: string)

  datatype Session = Session(
    text: string,             // the buffer's plain text
    modified: bool,           // the text widget's own "modified" flag
    savedText: string,        // the snapshot that the unsaved-changes check compares against
    currentFilePath: string,  // empty when the document has no file yet
    title: Title
  )

  /** What a handler does outside the session state, in the order it happens. */
  datatype Effect =
    | Prompted                              // the three-way "save changes?" prompt is shown
    | AskedSavePath                         // the Save As dialog is shown
    | Wrote(path: string, contents: string) // the file is opened for writing and the text written
    | SaveFailed(path: string)              // the "Failed to save the file." warning
    | AskedOpenPath                         // the Open dialog is shown
    | OpenFailed(path: string)              // the "Failed to open the file." warning
    | Quit                                  // the application is asked to quit
    | CloseIgnored                          // the close event is ignored; the window stays open
    | CloseAccepted                         // the default close handling runs

  datatype Step = Step(after: Session, effects: seq<Effect>)

  /** The window as constructed: empty buffer, unmodified, empty snapshot, no file. */
  function Initial(): (s: Session)
    ensures !HasUnsavedChanges(s) && !s.modified
  {
    Session("", false, "", "", AppTitle)
  }

  /** The unsaved-changes check used on exit and close: the buffer differs from the snapshot. */
  predicate HasUnsavedChanges(s: Session) {
    s.text != s.savedText
  }

  /** A user edit: the widget now holds `newText` and marks the document modified. */
  function Edit(s: Session, newText: string): Session {
    s.(text := newText, modified := true)
  }

  /** The path a Save writes to: the current file, else the Save As answer (empty: nowhere). */
  function Target(s: Session, r: SaveReplies): string {
    if s.currentFilePath != "" then s.currentFilePath else r.dialogPath
  }

  /** The warning or write a Save performs once it has a non-empty target `path`. */
  function WriteOutcome(path: string, text: string, canWrite: bool): Effect {
    if canWrite then Wrote(path, text) else SaveFailed(path)
  }

  /** Only what a Save does: the Save As dialog, a write, or the write warning. */
  predicate SaveOnly(effects: seq<Effect>) {
    forall e <- effects :: e.AskedSavePath? || e.Wrote? || e.SaveFailed?
  }

  /**
   Save: the snapshot is taken from the buffer first; with no current file, Save As runs (and
   re-enters Save with the chosen path); otherwise the buffer is written to the current file and
   the modified flag cleared, or a warning is shown if the file cannot be opened for writing.
   */
  function SaveFile(s: Session, r: SaveReplies): (t: Step)
    decreases if s.currentFilePath == "" then 3 else 1
    // the buffer is never changed, and the snapshot is the buffer whatever happens next
    ensures t.after.text == s.text && t.after.savedText == s.text
    ensures !HasUnsavedChanges(t.after)
    // the document's file afterwards is the target (unchanged when there was one already)
    ensures t.after.currentFilePath == Target(s, r)
    // the modified flag is cleared exactly when something was written
    ensures t.after.modified == (s.modified && !(Target(s, r) != "" && r.canWrite))
    ensures t.after.title ==
      (if s.currentFilePath == "" && r.dialogPath != "" then FileNameOf(r.dialogPath) else s.title)
    ensures SaveOnly(t.effects)
    // at most one dialog, and only without a current file; at most one write, to the target
    ensures t.effects ==
      (if s.currentFilePath == "" then [AskedSavePath] else []) +
      (if Target(s, r) == "" then [] else [WriteOutcome(Target(s, r), s.text, r.canWrite)])
  {
    var snapshotTaken := s.(savedText := s.text);
    if snapshotTaken.currentFilePath == "" then
      SaveFileAs(snapshotTaken, r)
    else if r.canWrite then
      Step(snapshotTaken.(modified := false), [Wrote(snapshotTaken.currentFilePath, snapshotTaken.text)])
    else
      Step(snapshotTaken, [SaveFailed(snapshotTaken.currentFilePath)])
  }

  /**
   Save As: ask for a path; a cancelled dialog changes nothing. Otherwise the chosen path becomes
   the current file, Save runs (and writes there without asking again), and the title becomes the
   chosen path's file name.
   */
  function SaveFileAs(s: Session, r: SaveReplies): (t: Step)
    decreases 2
    ensures r.dialogPath == "" ==> t.after == s && t.effects == [AskedSavePath]
    ensures r.dialogPath != "" ==>
      && t.after == s.(savedText := s.text, currentFilePath := r.dialogPath,
                       modified := s.modified && !r.canWrite, title := FileNameOf(r.dialogPath))
      && t.effects == [AskedSavePath, WriteOutcome(r.dialogPath, s.text, r.canWrite)]
  {
    if r.dialogPath == "" then
      Step(s, [AskedSavePath])
    else
      var saved := SaveFile(s.(currentFilePath := r.dialogPath), r);
      Step(saved.after.(title := FileNameOf(r.dialogPath)), [AskedSavePath] + saved.effects)
  }

  /** No Save happened: no Save As dialog, no write, no write warning. */
  predicate NoSave(effects: seq<Effect>) {
    forall e <- effects :: !(e.AskedSavePath? || e.Wrote? || e.SaveFailed?)
  }

  /**
   Where the modified-flag prompt of New and Open leads when it is not cancelled: no prompt when
   the flag is clear; otherwise the prompt, followed by a Save if that was the answer.
   */
  function Resolve(s: Session, answer: Answer, r: SaveReplies): Step {
    if !s.modified then Step(s, [])
    else if answer == Save then
      var saved := SaveFile(s, r);
      Step(saved.after, [Prompted] + saved.effects)
    else Step(s, [Prompted])
  }

  /**
   New: gated on the widget's modified flag. Cancel changes nothing; Save saves first; then the
   buffer is cleared and the current path emptied. The snapshot and the title are left as they
   are. `clearedModified` is the modified flag the widget reports after it is cleared.
   */
  function NewFile(s: Session, answer: Answer, r: SaveReplies, clearedModified: bool): (t: Step)
    ensures (Prompted in t.effects) <==> s.modified
    ensures s.modified && answer == Cancel ==> t.after == s && NoSave(t.effects)
    ensures !(s.modified && answer == Cancel) ==>
      && t.after.text == "" && t.after.currentFilePath == "" && t.after.modified == clearedModified
      && t.after.savedText == (if s.modified && answer == Save then s.text else s.savedText)
      && t.after.title == (if s.modified && answer == Save then SaveFile(s, r).after.title else s.title)
    ensures s.modified && answer == Save ==> t.effects == [Prompted] + SaveFile(s, r).effects
    ensures !(s.modified && answer == Save) ==> NoSave(t.effects)
  {
    if s.modified && answer == Cancel then
      Step(s, [Prompted])
    else
      var from := Resolve(s, answer, r);
      Step(from.after.(text := "", currentFilePath := "", modified := clearedModified), from.effects)
  }

  /**
   What the Open dialog and the read lead to: nothing on a cancelled dialog, a warning on a read
   failure, otherwise the file's contents in the buffer, its path current, the modified flag
   cleared and its file name as title. The snapshot is not touched.
   */
  function Load(s: Session, o: OpenReplies): (t: Step)
    ensures t.after.savedText == s.savedText
    ensures t.effects != [] && t.effects[0] == AskedOpenPath && Prompted !in t.effects && NoSave(t.effects)
    ensures o.dialogPath == "" || !o.canRead ==> t.after == s
    ensures OpenFailed(o.dialogPath) in t.effects <==> o.dialogPath != "" && !o.canRead
    ensures o.dialogPath != "" && o.canRead ==>
      t.after == s.(text := o.contents, currentFilePath := o.dialogPath, modified := false,
                    title := FileNameOf(o.dialogPath))
  {
    if o.dialogPath == "" then
      Step(s, [AskedOpenPath])
    else if o.canRead then
      Step(s.(text := o.contents, currentFilePath := o.dialogPath, modified := false,
              title := FileNameOf(o.dialogPath)), [AskedOpenPath])
    else
      Step(s, [AskedOpenPath, OpenFailed(o.dialogPath)])
  }

  /**
   Open: the same prompt gate as New, then the Open dialog and the read. The snapshot is changed
   only by a Save chosen at the prompt, never by the load itself.
   */
  function OpenFile(s: Session, answer: Answer, r: SaveReplies, o: OpenReplies): (t: Step)
    ensures (Prompted in t.effects) <==> s.modified
    ensures (AskedOpenPath in t.effects) <==> !(s.modified && answer == Cancel)
    ensures s.modified && answer == Cancel ==> t.after == s && NoSave(t.effects)
    ensures !(s.modified && answer == Cancel) ==>
      var base := if s.modified && answer == Save then SaveFile(s, r).after else s;
      && t.after.savedText == base.savedText
      && (o.dialogPath == "" || !o.canRead ==> t.after == base)
      && (o.dialogPath != "" && o.canRead ==>
            t.after == base.(text := o.contents, currentFilePath := o.dialogPath,
                             modified := false, title := FileNameOf(o.dialogPath)))
    // the prompt if shown, then the chosen Save, then the dialog and the read's warning if any
    ensures !(s.modified && answer == Cancel) ==>
      var base := if s.modified && answer == Save then SaveFile(s, r).after else s;
      t.effects == (if s.modified then [Prompted] else []) +
                   (if s.modified && answer == Save then SaveFile(s, r).effects else []) +
                   Load(base, o).effects
    ensures !(s.modified && answer == Save) ==> NoSave(t.effects)
  {
    if s.modified && answer == Cancel then
      Step(s, [Prompted])
    else
      var from := Resolve(s, answer, r);
      var loaded := Load(from.after, o);
      Step(loaded.after, from.effects + loaded.effects)
  }

  /**
   Exit: with unsaved changes, prompt; Cancel stays, Save saves and then quits even when the
   write failed, Discard quits. Without unsaved changes, quit at once.
   */
  function OnExit(s: Session, answer: Answer, r: SaveReplies): (t: Step)
    ensures (Prompted in t.effects) <==> HasUnsavedChanges(s)
    ensures (Quit in t.effects) <==> !(HasUnsavedChanges(s) && answer == Cancel)
    ensures Quit in t.effects ==> t.effects[|t.effects| - 1] == Quit
    ensures t.after == (if HasUnsavedChanges(s) && answer == Save then SaveFile(s, r).after else s)
    ensures HasUnsavedChanges(s) && answer == Save ==>
      t.effects == [Prompted] + SaveFile(s, r).effects + [Quit]
    ensures !(HasUnsavedChanges(s) && answer == Save) ==> NoSave(t.effects)
  {
    if HasUnsavedChanges(s) then
      if answer == Save then
        var saved := SaveFile(s, r);
        Step(saved.after, [Prompted] + saved.effects + [Quit])
      else if answer == Cancel then Step(s, [Prompted])
      else Step(s, [Prompted, Quit])
    else Step(s, [Quit])
  }

  /**
   Window close: the same decision as Exit; Cancel ignores the close event, anything else lets
   the default close handling run.
   */
  function CloseEvent(s: Session, answer: Answer, r: SaveReplies): (t: Step)
    ensures (Prompted in t.effects) <==> HasUnsavedChanges(s)
    ensures (CloseIgnored in t.effects) <==> HasUnsavedChanges(s) && answer == Cancel
    ensures (CloseAccepted in t.effects) <==> !(HasUnsavedChanges(s) && answer == Cancel)
    ensures t.effects != [] &&
      t.effects[|t.effects| - 1] == (if HasUnsavedChanges(s) && answer == Cancel then CloseIgnored else CloseAccepted)
    ensures t.after == (if HasUnsavedChanges(s) && answer == Save then SaveFile(s, r).after else s)
    ensures HasUnsavedChanges(s) && answer == Save ==>
      t.effects == [Prompted] + SaveFile(s, r).effects + [CloseAccepted]
    ensures !(HasUnsavedChanges(s) && answer == Save) ==> NoSave(t.effects)
  {
    if HasUnsavedChanges(s) then
      if answer == Save then
        var saved := SaveFile(s, r);
        Step(saved.after, [Prompted] + saved.effects + [CloseAccepted])
      else if answer == Cancel then Step(s, [Prompted, CloseIgnored])
      else Step(s, [Prompted, CloseAccepted])
    else Step(s, [CloseAccepted])
  }
}
