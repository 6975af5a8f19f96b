/**
 The editor's main window as an object: its handlers change the buffer, the modified flag, the
 snapshot, the current path and the title in place, in the order the window does, and append
 what they show or write to `effects`. Each handler is proved to have exactly the outcome that
 the corresponding function of `DocumentSession` gives for the state before it.
 */
module Editor {
  import opened DocumentSession

  class MainWindow {
    var text: string            // the text widget's plain text
    var modified: bool          // the text widget's document "modified" flag
    var currentFilePath: string
    var savedText: string
    var title: Title
    var effects: seq<Effect>    // what the window has shown, written, or asked for, oldest first

    /** The session the fields make up. */
    function State(): Session
      reads this
    {
      Session(text, modified, savedText, currentFilePath, title)
    }

    constructor ()
      ensures State() == Initial() && effects == []
    {
      savedText := "";
      text := "";
      modified := false;
      currentFilePath := "";
      title := AppTitle;
      effects := [];
    }

    /** The user types: the widget holds the new text and reports itself modified. */
    method UserEdit(newText: string)
      modifies this
      ensures State() == Edit(old(State()), newText) && effects == old(effects)
    {
      text := newText;
      modified := true;
    }

    method HasUnsavedChanges() returns (unsaved: bool)
      ensures unsaved == DocumentSession.HasUnsavedChanges(State())
    {
      var snapshot := savedText;
      unsaved := text != snapshot;
    }

    method SaveFile(r: SaveReplies)
      modifies this
      decreases if currentFilePath == "" then 3 else 1
      ensures State() == DocumentSession.SaveFile(old(State()), r).after
      ensures effects == old(effects) + DocumentSession.SaveFile(old(State()), r).effects
    {
      var currentText := text;
      savedText := currentText;
      if currentFilePath == "" {
        SaveFileAs(r);
      } else if r.canWrite {
        effects := effects + [Wrote(currentFilePath, text)];
        modified := false;
      } else {
        effects := effects + [SaveFailed(currentFilePath)];
      }
    }

    method SaveFileAs(r: SaveReplies)
      modifies this
      decreases 2
      ensures State() == DocumentSession.SaveFileAs(old(State()), r).after
      ensures effects == old(effects) + DocumentSession.SaveFileAs(old(State()), r).effects
    {
      effects := effects + [AskedSavePath];
      var fileName := r.dialogPath;
      if fileName != "" {
        currentFilePath := fileName;
        SaveFile(r);
        title := FileNameOf(fileName);
      }
    }

    /** `clearedModified` is the modified flag the widget reports once its text is cleared. */
    method NewFile(answer: Answer, r: SaveReplies, clearedModified: bool)
      modifies this
      ensures State() == DocumentSession.NewFile(old(State()), answer, r, clearedModified).after
      ensures effects == old(effects) + DocumentSession.NewFile(old(State()), answer, r, clearedModified).effects
    {
      ghost var before, shown := State(), effects;
      ghost var saved := DocumentSession.SaveFile(before, r);
      if modified {
        effects := effects + [Prompted];
        if answer == Save {
          SaveFile(r);
          AppendAssociates(shown, [Prompted], saved.effects);
        } else if answer == Cancel {
          return;
        }
      }
      assert State() == Resolve(before, answer, r).after;
      text := "";
      modified := clearedModified;
      currentFilePath := "";
    }

    method OpenFile(answer: Answer, r: SaveReplies, o: OpenReplies)
      modifies this
      ensures State() == DocumentSession.OpenFile(old(State()), answer, r, o).after
      ensures effects == old(effects) + DocumentSession.OpenFile(old(State()), answer, r, o).effects
    {
      ghost var before, shown := State(), effects;
      ghost var saved := DocumentSession.SaveFile(before, r);
      if modified {
        effects := effects + [Prompted];
        if answer == Save {
          SaveFile(r);
          AppendAssociates(shown, [Prompted], saved.effects);
        } else if answer == Cancel {
          return;
        }
      }
      ghost var from := Resolve(before, answer, r);
      assert State() == from.after && effects == shown + from.effects;
      ghost var loaded := Load(from.after, o);
      effects := effects + [AskedOpenPath];
      var filePath := o.dialogPath;
      if filePath != "" {
        if o.canRead {
          text := o.contents;
          currentFilePath := filePath;
          modified := false;
          title := FileNameOf(filePath);
          assert loaded.effects == [AskedOpenPath];
        } else {
          effects := effects + [OpenFailed(filePath)];
          AppendAssociates(shown + from.effects, [AskedOpenPath], [OpenFailed(filePath)]);
          assert loaded.effects == [AskedOpenPath] + [OpenFailed(filePath)];
        }
      }
      assert State() == loaded.after;
      assert effects == (shown + from.effects) + loaded.effects;
      AppendAssociates(shown, from.effects, loaded.effects);
    }

    method OnExit(answer: Answer, r: SaveReplies)
      modifies this
      ensures State() == DocumentSession.OnExit(old(State()), answer, r).after
      ensures effects == old(effects) + DocumentSession.OnExit(old(State()), answer, r).effects
    {
      ghost var shown := effects;
      ghost var saved := DocumentSession.SaveFile(State(), r);
      var unsaved := HasUnsavedChanges();
      if unsaved {
        effects := effects + [Prompted];
        if answer == Save {
          SaveFile(r);
          AppendAssociates(shown, [Prompted], saved.effects);
          AppendAssociates(shown, [Prompted] + saved.effects, [Quit]);
        } else if answer == Cancel {
          return;
        } else {
          AppendAssociates(shown, [Prompted], [Quit]);
        }
      }
      effects := effects + [Quit];
    }

    method CloseEvent(answer: Answer, r: SaveReplies)
      modifies this
      ensures State() == DocumentSession.CloseEvent(old(State()), answer, r).after
      ensures effects == old(effects) + DocumentSession.CloseEvent(old(State()), answer, r).effects
    {
      ghost var shown := effects;
      ghost var saved := DocumentSession.SaveFile(State(), r);
      var unsaved := HasUnsavedChanges();
      if unsaved {
        effects := effects + [Prompted];
        if answer == Save {
          SaveFile(r);
          AppendAssociates(shown, [Prompted], saved.effects);
          AppendAssociates(shown, [Prompted] + saved.effects, [CloseAccepted]);
        } else if answer == Cancel {
          effects := effects + [CloseIgnored];
          AppendAssociates(shown, [Prompted], [CloseIgnored]);
          return;
        } else {
          AppendAssociates(shown, [Prompted], [CloseAccepted]);
        }
      }
      effects := effects + [CloseAccepted];
    }
  }

  lemma AppendAssociates(a: seq<Effect>, b: seq<Effect>, c: seq<Effect>)
    ensures (a + b) + c == a + (b + c)
  {
  }
}
