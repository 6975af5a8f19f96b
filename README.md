# Document session of the CoMiKx text editor, in Dafny

This project models the document session of the editor's `MainWindow` (main.cpp). The window
keeps five pieces of state:

- the text in its `QTextEdit`;
- the text widget's own "modified" flag;
- the last-saved snapshot `savedText`;
- the current file path;
- the window title.

Its handlers change that state: `newFile`, `openFile`, `saveFile`, `saveFileAs`, `onExit`,
`closeEvent`. `hasUnsavedChanges` reads it. Whatever the user or the operating system supplies
during a handler is an explicit input:

- the answer to the three-way prompt (`Answer`: Save, Discard or Cancel);
- the path a file dialog returns, where empty means cancelled;
- whether a file can be opened for reading or for writing;
- the text read from a file.

The project is in three files:

- `document_session.dfy`, module `DocumentSession`: the specification on values. `Session` is
  the state. Each handler is a function from the session before it and its inputs to a `Step`:
  the session after it and the list of its `Effect`s, in order. Effects are the prompt being
  shown, the Save As dialog, a write, a warning, the Open dialog, quitting, and closing or not
  closing the window. `saveFile` and `saveFileAs` call each other, and so do `SaveFile` and
  `SaveFileAs`. Their `decreases` clauses show that the recursion stops, and their contracts
  give its unrolled result: at most one dialog and at most one write.
- `main_window.dfy`, module `Editor`: the class `MainWindow`. Its fields are the five pieces of
  state plus the log of effects. Its methods change the fields step by step, in the order
  main.cpp does, including the early returns on Cancel and the recursion between `SaveFile` and
  `SaveFileAs`. Each method is proved to leave exactly the state, and append exactly the
  effects, that the `DocumentSession` function gives.
- `session_properties.dfy`, module `SessionProperties`: properties that relate several calls.
  It covers runs of user actions, a save followed by an open of the same file, Exit compared
  with Close, and the places where the code's two notions of "unsaved" disagree.

The model keeps these behaviours of the code as written:

- `newFile` and `openFile` prompt when the widget's modified flag is set. `onExit` and
  `closeEvent` prompt when the buffer differs from `savedText`.
- `saveFile` copies the buffer into `savedText` before it knows whether the write succeeds. It
  does so even when the nested Save As dialog is cancelled. Afterwards the session always counts
  as clean for Exit and Close.
- The own lines of `openFile` and `newFile` never set `savedText`, and those of `newFile` never
  set the title. A Save chosen at their prompt can set both.
- After New with Save on a document without a file, the Save As dialog sets the title to the
  chosen file's name. New then empties the path, so the title names a file that is no longer
  current (main.cpp:162, 219, 243, 169-170).
- Exit quits after a Save even when the write failed.
- New and Open go on after a Save chosen at their prompt even when that Save wrote nothing (the
  file could not be written, or the nested Save As dialog was cancelled). They then replace the
  buffer with the empty text or the opened file, so the unsaved text is lost (main.cpp:161-170,
  178-210).

Three further consequences of main.cpp as written:

- A successful Open does not set `savedText` (main.cpp:195-204). After an Open, Exit prompts
  whenever the file's text differs from the old snapshot.
- New clears only the buffer and the path (main.cpp:169-170). `savedText` keeps its old value,
  so after New the empty document counts as unsaved whenever the old snapshot was not empty.
- New and Open gate their prompt on the widget's modified flag (main.cpp:158, 175), not on the
  comparison with `savedText` that Exit and Close use.

## Model

| member | source | states |
|---|---|---|
| DocumentSession.Initial | main.cpp:10-30 | The window starts with an empty buffer, an empty snapshot, no file and the application title, so it starts clean and unmodified. |
| DocumentSession.SaveFile | main.cpp:213-233 | The buffer never changes, and the snapshot becomes the buffer on every path, so afterwards nothing is unsaved. This holds even when the write fails or the nested Save As dialog is cancelled. The path afterwards is the target: the current file if there is one, otherwise the path chosen in Save As. The modified flag is cleared exactly when the target is non-empty and can be written. The title changes only through Save As. The effects are at most one Save As dialog, shown only when there is no current file, then at most one write or write warning, on the target. |
| DocumentSession.SaveFileAs | main.cpp:235-245 | A cancelled dialog changes nothing and shows only the dialog. Otherwise the chosen path becomes current and the snapshot becomes the buffer. The flag is cleared only if the write succeeds. The title becomes the path's file name. Exactly one dialog and one write or warning happen, so the re-entered Save asks nothing. |
| DocumentSession.NewFile | main.cpp:156-171 | The prompt is shown exactly when the modified flag is set. Cancel leaves the session as it was. Otherwise, after the Save if one was chosen, the buffer and the path are empty. The snapshot is the old one, or the saved buffer after Save. The title is the old one, or the one the chosen Save set (Save As sets it to the chosen file's name). No Save happens unless Save was chosen. |
| DocumentSession.Load | main.cpp:185-210 | A cancelled Open dialog changes nothing. A read failure changes nothing and shows the open warning. A successful read sets the buffer to the contents, the path to the chosen path, clears the flag and sets the title to the file name. The snapshot is never touched. |
| DocumentSession.OpenFile | main.cpp:173-211 | It has the same prompt gate as New, and the Open dialog is shown exactly when the prompt was not cancelled. Cancel changes nothing. Otherwise the outcome is the one `Load` gives, starting from the session after the optional Save. The effects are the prompt if shown, then the Save's effects if Save was chosen, then the dialog and any read warning. The snapshot is changed only by that Save. |
| DocumentSession.OnExit | main.cpp:247-258 | The prompt is shown exactly when the buffer differs from the snapshot. The application quits unless that prompt was cancelled, and quitting is the last effect. The state changes only through a Save chosen at the prompt. On Save it quits after the save, whatever the write result. Without Save nothing is written. |
| DocumentSession.CloseEvent | main.cpp:35-47 | It uses the same decision as Exit. The close event is ignored exactly when the prompt was cancelled and is accepted otherwise. That outcome is the last effect. The state changes only through a Save chosen at the prompt. |
| Editor.MainWindow.constructor | main.cpp:10-32 | The new window's state is the initial session and its effect log is empty. |
| Editor.MainWindow.UserEdit | main.cpp:17-18 | Typing into the text widget changes the buffer and sets the modified flag, and nothing else. |
| Editor.MainWindow.HasUnsavedChanges | main.cpp:271-280 | The result is true exactly when the buffer differs from the snapshot. No state changes. |
| Editor.MainWindow.SaveFile | main.cpp:213-233 | The fields afterwards, and the effects appended, are those of `DocumentSession.SaveFile` applied to the fields before. |
| Editor.MainWindow.SaveFileAs | main.cpp:235-245 | The fields afterwards, and the effects appended, are those of `DocumentSession.SaveFileAs`. |
| Editor.MainWindow.NewFile | main.cpp:156-171 | The fields afterwards, and the effects appended, are those of `DocumentSession.NewFile`. |
| Editor.MainWindow.OpenFile | main.cpp:173-211 | The fields afterwards, and the effects appended, are those of `DocumentSession.OpenFile`. |
| Editor.MainWindow.OnExit | main.cpp:247-258 | The fields afterwards, and the effects appended, are those of `DocumentSession.OnExit`. |
| Editor.MainWindow.CloseEvent | main.cpp:35-47 | The fields afterwards, and the effects appended, are those of `DocumentSession.CloseEvent`. |
| SessionProperties.EditsOnlyMoveTheBuffer | main.cpp:271-280 | After any non-empty series of edits, only the buffer (now the last text) and the modified flag (now set) have changed. The session then counts as unsaved exactly when the last text differs from the snapshot. Typing the saved text back makes it clean for Exit while the flag stays set. |
| SessionProperties.HandleIsWellFormed | main.cpp:60-74 | For every handler the menu actions are wired to, every write or write warning names a non-empty path. Quitting or closing can only be the last effect. A handler that neither quits nor closes has only such ordinary effects. |
| SessionProperties.RunIsWellFormed | main.cpp:213-245 | Take any sequence of user actions, handled one after another until one quits or closes the window. No write is ever attempted on an empty path, and the run ends at most once, as its last effect. |
| SessionProperties.SaveThenOpenRoundTrip | main.cpp:188-224 | Take a successful Save after any history. Opening the same file and reading what was last written there gives back exactly the saved buffer. The path is the same, the flag is clear, nothing is unsaved and no prompt is shown. |
| SessionProperties.SaveAsThenSaveWritesThere | main.cpp:218-243 | After Save As to a path P, a later Save shows no dialog and writes the same buffer to P, or warns about P, and P stays current. |
| SessionProperties.CloseMatchesExit | main.cpp:35-47 | Closing the window leaves the same session as the Exit command does (main.cpp:247-258) for the same answers. The window closes exactly when Exit would quit. |
| SessionProperties.CancelIsNoOp | main.cpp:156-258 | The following leave the session exactly as it was: Cancel at the prompt of New or Open when the flag is set; Cancel at the prompt of Exit or Close when there are unsaved changes; a cancelled Open dialog after Discard or when no prompt is shown; a cancelled Save As dialog. |
| SessionProperties.FailedSaveThenExitQuitsSilently | main.cpp:213-231 | Take a Save to an existing path that cannot be written. It only shows the warning, and the modified flag keeps its value. A following Exit quits at once without a prompt. |
| SessionProperties.CancelledSaveAsThenExitQuitsSilently | main.cpp:213-240 | Take a Save with no current file whose Save As dialog is cancelled. It changes only the snapshot, writes nothing, and a following Exit quits at once without a prompt. |
| SessionProperties.OpenedFileCountsAsUnsaved | main.cpp:173-204 | Take a document that is unmodified, or whose prompt is answered Discard, and open a file whose text differs from the old snapshot. Its modified flag is clear, so a following New does not prompt, yet it counts as unsaved, so Exit prompts. |
| SessionProperties.RetypedTextSplitsTheGates | main.cpp:156-258 | Take a buffer edited back to the snapshot's text. It is clean for Exit, which quits at once, but its flag is set, so New prompts. |
| SessionProperties.NewKeepsSnapshotAndTitle | main.cpp:156-170 | For any document with a non-empty snapshot, modified or not, New with Discard (or without a prompt when the flag is clear) empties the buffer and the path, keeps the old snapshot and title, and the empty document then counts as unsaved. |
| SessionProperties.NewAfterSaveAsTitlesNoFile | main.cpp:156-245 | Take a modified document without a file, New with Save, and a Save As dialog that returns a path P. P's file is written or warned about once. The title becomes P's file name, but the path and the buffer end up empty, so the title names a file that is no longer current. |
| SessionProperties.UnwrittenTextIsReplacedAfterSave | main.cpp:156-210 | Take a modified document whose Save would not reach a file: no target, or a target that cannot be written. New with Save prompts, writes nothing and empties the buffer. Open with Save and a readable file prompts, writes nothing and puts the file's text in the buffer. |

## Left out

- Widget construction and wiring (`createMenuBar`, `createToolBar`, `createStatusBar`,
  `createToolbarAction`, the initial size and icon): Qt plumbing with no state of the session.
  Of the wiring, only which handler each action reaches is kept, as `SessionProperties.Handle`.
- Cut, copy, paste, undo and redo: the text widget provides them directly. Their only effect on
  the session is a change of text, which `UserEdit` / `Edit` stand for.
- Find, Replace, Zoom In/Out, Toggle Fullscreen and About: menu entries with no handler.
- Real file input and output and text encoding (`QFile`, `QTextStream`). Whether a file opens is
  an input, and so is the text read. A write that opens is taken to store the buffer verbatim,
  shown as the `Wrote` effect. After a successful read the widget is taken to hold exactly the
  text read. The real `toPlainText()` can differ from what `setPlainText` was given: it turns
  U+00A0 into a space and U+2028/U+2029 into line breaks.
- Dialog presentation: the prompt's wording and its default button (Save), the Save As dialog's
  suggested name `Untitled.txt` and its filter list. Only the answers are modelled. A prompt
  dismissed without a button counts as one of the three answers.
- `QFileInfo::fileName`: a title naming a file is kept as the symbolic `FileNameOf(path)`. Being
  a constructor, it is one-to-one, while the real file name is the same for `/a/x.txt` and
  `/b/x.txt`. No property of the model depends on titles of different paths being different.
- The modified flag that the widget reports after `clear()` is an input of `NewFile`
  (`clearedModified`), because the model does not assume what the toolkit does to it. After
  `setPlainText` in `openFile` the flag is set to false explicitly, so no such input is needed.
- UserEdit: sets the modified flag to true on every edit. It does not model the toolkit's
  undo-based bookkeeping, which can clear the flag again when edits are undone.
- `main` and the event loop. Also left out is what the toolkit does once `QApplication::quit()`
  is requested (for instance a further close event to the window). `SessionProperties.Run`
  simply stops at the first step that quits or closes.
