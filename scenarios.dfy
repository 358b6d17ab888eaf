/** Sessions with the window, driven only through `MyApp`'s events, one
    frame's hand-offs at a time. File names, tool output and error texts are
    parameters, so each session holds for all of them. */
module Scenarios {
  import opened Wrappers
  import opened Formatter
  import opened App

  /** With every toggle off the tool gets the input path alone. */
  lemma NoToggleArgs(path: string)
    ensures FormatterArgs(path, Options(false, false, false, false, false)) == [path]
  {
    ArgsSpelledOut(path, Options(false, false, false, false, false));
  }

  /** With only "minify" ticked the tool gets the path, then `--minify`. */
  lemma MinifyOnlyArgs(path: string)
    ensures FormatterArgs(path, Options(false, true, false, false, false)) == [path, "--minify"]
  {
    ArgsSpelledOut(path, Options(false, true, false, false, false));
  }

  /** The user opens `path` with every toggle off and the formatter prints
      `formatted`; then the user ticks "minify". */
  method OpenThenMinify(path: string, formatted: string, minified: string)
    returns (first: Option<Invocation>, editor: string, shown: Option<string>,
             second: Option<Invocation>)
    ensures first == Some(Invocation("luau-format", [path]))
    ensures editor == formatted && shown == None
    ensures second == Some(Invocation("luau-format", [path, "--minify"]))
  {
    var app := new MyApp("luau-format");
    var spawned := app.ClickOpen();
    app.OpenDialogDone(Some(path));
    NoToggleArgs(path);
    first := app.Poll(Exited(true, formatted, ""));
    editor, shown := app.editorCode, ErrorLabel(app.error);
    MinifyOnlyArgs(path);
    second := app.Toggle(Minify, Exited(true, minified, ""));
  }

  /** After a good run, a re-run exits non-zero with `message` on standard
      error: the error line shows it and the editor keeps the earlier text. */
  method FailedRunKeepsEditor(path: string, formatted: string, message: string)
    returns (editor: string, shown: Option<string>)
    ensures editor == formatted
    ensures shown == Some(ErrorPrefix + message)
  {
    var app := new MyApp("luau-format");
    var spawned := app.ClickOpen();
    app.OpenDialogDone(Some(path));
    var launch := app.Poll(Exited(true, formatted, ""));
    launch := app.Toggle(LuaCalls, Exited(false, "", message));
    editor, shown := app.editorCode, ErrorLabel(app.error);
  }

  /** A successful run does not clear an earlier formatter error: the error line
      stays until the next Open or Save click. */
  method ErrorOutlivesSuccess(path: string, message: string, formatted: string)
    returns (editor: string, shown: Option<string>)
    ensures editor == formatted
    ensures shown == Some(ErrorPrefix + message)
  {
    var app := new MyApp("luau-format");
    var spawned := app.ClickOpen();
    app.OpenDialogDone(Some(path));
    var launch := app.Poll(Exited(false, "", message));
    launch := app.Toggle(Minify, Exited(true, formatted, ""));
    editor, shown := app.editorCode, ErrorLabel(app.error);
  }

  /** A second click on Open while its dialog is pending spawns nothing; a
      cancelled dialog then runs nothing and forgets the earlier file, so the
      next checkbox click runs nothing either. */
  method CancelledOpen(path: string, output: ProcessOutput)
    returns (firstClick: bool, secondClick: bool,
             polled: Option<Invocation>, toggled: Option<Invocation>)
    ensures firstClick && !secondClick
    ensures polled == None && toggled == None
  {
    var app := new MyApp("luau-format");
    var spawned := app.ClickOpen();
    app.OpenDialogDone(Some(path));
    var launch := app.Poll(output);
    firstClick := app.ClickOpen();
    secondClick := app.ClickOpen();
    app.OpenDialogDone(None);
    polled := app.Poll(output);
    toggled := app.Toggle(Minify, output);
  }

  /** After the user edits the formatted code, Reset brings back the
      formatted code exactly, without running the formatter. */
  method ResetAfterEdit(path: string, formatted: string, text: string)
    returns (edited: string, reset: string)
    ensures edited == text
    ensures reset == formatted
  {
    var app := new MyApp("luau-format");
    var spawned := app.ClickOpen();
    app.OpenDialogDone(Some(path));
    var launch := app.Poll(Exited(true, formatted, ""));
    app.Edit(text);
    edited := app.editorCode;
    app.Reset();
    reset := app.editorCode;
  }

  /** The save thread writes the editor text as it was when Save was clicked,
      even if the user edits on while the dialog is open; a failed write shows
      its error. */
  method SaveWritesClickTimeText(text: string, later: string, target: string, failure: string)
    returns (written: Option<FileWrite>, shown: Option<string>)
    ensures written == Some(FileWrite(target, text))
    ensures shown == Some(ErrorPrefix + failure)
  {
    var app := new MyApp("luau-format");
    app.Edit(text);
    var spawned := app.ClickSave();
    app.Edit(later);
    written := app.SaveDialogDone(Some(target), Some(failure));
    shown := ErrorLabel(app.error);
  }
}
