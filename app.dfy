/** The window's state and the events that change it. Each background thread's
    hand-off (a dialog closing, a file written) is one atomic event; the
    dialog's answer, the written file's result and the formatter's output are
    parameters of the event that consumes them. */
module App {
  import opened Wrappers
  import opened Formatter

  /** The five option checkboxes. */
  datatype Checkbox = NoSimplify | Minify | LuaCalls | SolveRecordTable | SolveListTable

  /** The position of a checkbox's toggle in `Toggles`. */
  function Index(box: Checkbox): (i: nat)
    ensures i < |Flags|
  {
    match box
    case NoSimplify => 0
    case Minify => 1
    case LuaCalls => 2
    case SolveRecordTable => 3
    case SolveListTable => 4
  }

  /** Clicking a checkbox inverts its toggle and no other. */
  function Flip(o: Options, box: Checkbox): (r: Options)
    ensures forall i :: 0 <= i < |Flags| ==> (Toggles(r)[i] != Toggles(o)[i] <==> i == Index(box))
  {
    match box
    case NoSimplify => o.(noSimplify := !o.noSimplify)
    case Minify => o.(minify := !o.minify)
    case LuaCalls => o.(luaCalls := !o.luaCalls)
    case SolveRecordTable => o.(solveRecordTable := !o.solveRecordTable)
    case SolveListTable => o.(solveListTable := !o.solveListTable)
  }

  /** The text the window shows in front of the current error. */
  const ErrorPrefix := "An error occured: "

  /** The error line of the window: shown exactly when there is an error, as
      the fixed prefix followed by the error text. */
  function ErrorLabel(error: Option<string>): (shown: Option<string>)
    ensures shown.Some? <==> error.Some?
    ensures shown.Some? ==>
      && |shown.value| == |ErrorPrefix| + |error.value|
      && shown.value[..|ErrorPrefix|] == ErrorPrefix
      && shown.value[|ErrorPrefix|..] == error.value
  {
    match error
    case None => None
    case Some(e) => Some(ErrorPrefix + e)
  }

  /** Two different errors never show the same line. */
  lemma ErrorLabelInjective(a: Option<string>, b: Option<string>)
    requires ErrorLabel(a) == ErrorLabel(b)
    ensures a == b
  {
  }

  /** A file write performed by the save thread. */
  datatype FileWrite = FileWrite(path: string, contents: string)

  /** The window. `binaryPath` is the tool resolved at startup and never changes.
      `saveCode` is the copy of the editor text that a save thread takes when it
      is spawned; the ghost counters count the dialog threads in flight. */
  class MyApp {
    const binaryPath: string
    var error: Option<string>
    var inputFile: Option<string>
    var isOpeningInput: bool
    var isInputDone: bool
    var isOpeningOutput: bool
    var formattedCode: string
    var editorCode: string
    var noSimplify: bool
    var minify: bool
    var luaCalls: bool
    var solveRecordTable: bool
    var solveListTable: bool
    var saveCode: string
    ghost var openDialogs: nat
    ghost var saveDialogs: nat

    /** Single flight: at most one dialog thread of each kind is alive. An open
        thread is alive from the click until it reports, and its result waits
        for the next poll; a save thread is alive while `isOpeningOutput`. */
    ghost predicate Valid()
      reads this
    {
      && openDialogs <= 1
      && saveDialogs <= 1
      && (openDialogs == 1 <==> isOpeningInput && !isInputDone)
      && (isInputDone ==> isOpeningInput)
      && (saveDialogs == 1 <==> isOpeningOutput)
    }

    /** The current option toggles. */
    function CurrentOptions(): Options
      reads this
    {
      Options(noSimplify, minify, luaCalls, solveRecordTable, solveListTable)
    }

    /** The effect of one `RunBinary` between the old state and this one: with
        no input file nothing is launched and nothing changes; otherwise the tool
        is launched on `FormatterArgs` of the file and the current toggles, and
        a zero exit replaces both code buffers with the output (leaving `error`
        as it was), while a non-zero exit or a launch failure sets `error` and
        leaves both buffers as they were. */
    twostate predicate RanFormatter(output: ProcessOutput, new launch: Option<Invocation>)
      reads this
    {
      match inputFile
      case None =>
        && launch == None
        && formattedCode == old(formattedCode)
        && editorCode == old(editorCode)
        && error == old(error)
      case Some(path) =>
        && launch == Some(Invocation(binaryPath, FormatterArgs(path, CurrentOptions())))
        && match output
           case Exited(success, stdout, stderr) =>
             if success then
               formattedCode == stdout && editorCode == stdout && error == old(error)
             else
               error == Some(stderr) && formattedCode == old(formattedCode)
               && editorCode == old(editorCode)
           case LaunchFailed(message) =>
             error == Some(message) && formattedCode == old(formattedCode)
             && editorCode == old(editorCode)
    }

    constructor (binaryPath: string)
      ensures Valid()
      ensures this.binaryPath == binaryPath
      ensures error == None && inputFile == None
      ensures !isOpeningInput && !isInputDone && !isOpeningOutput
      ensures formattedCode == "" && editorCode == ""
      ensures CurrentOptions() == Options(false, false, false, false, false)
      ensures openDialogs == 0 && saveDialogs == 0
    {
      this.binaryPath := binaryPath;
      error := None;
      inputFile := None;
      isOpeningInput := false;
      isInputDone := false;
      isOpeningOutput := false;
      formattedCode := "";
      editorCode := "";
      noSimplify := false;
      minify := false;
      luaCalls := false;
      solveRecordTable := false;
      solveListTable := false;
      saveCode := "";
      openDialogs := 0;
      saveDialogs := 0;
    }

    /** Runs the formatter on the current input file, if there is one. The
        returned invocation is what was launched; `output` is what that launch
        produced. */
    method RunBinary(output: ProcessOutput) returns (launch: Option<Invocation>)
      modifies this`formattedCode, this`editorCode, this`error
      ensures RanFormatter(output, launch)
    {
      launch := None;
      if inputFile.Some? {
        var path := inputFile.value;
        var args := BuildArgs(path, CurrentOptions());
        launch := Some(Invocation(binaryPath, args));
        match output
        case Exited(success, stdout, stderr) =>
          if success {
            formattedCode := stdout;
            editorCode := formattedCode;
          } else {
            error := Some(stderr);
          }
        case LaunchFailed(message) =>
          error := Some(message);
      }
    }

    /** The "Open file..." button: ignored while an open dialog is pending;
        otherwise clears the error and spawns the dialog thread. */
    method ClickOpen() returns (spawned: bool)
      requires Valid()
      modifies this`error, this`isOpeningInput, this`openDialogs
      ensures Valid()
      ensures spawned <==> !old(isOpeningInput)
      ensures spawned ==> error == None && isOpeningInput
      ensures !spawned ==> unchanged(this)
      ensures openDialogs == old(openDialogs) + (if spawned then 1 else 0)
    {
      spawned := !isOpeningInput;
      if spawned {
        error := None;
        isOpeningInput := true;
        openDialogs := openDialogs + 1;
      }
    }

    /** The open thread finishing: it stores the dialog's answer, `None` when the
        user cancelled, over the previous input file, and marks itself done. */
    method OpenDialogDone(file: Option<string>)
      requires Valid() && isOpeningInput && !isInputDone
      modifies this`inputFile, this`isInputDone, this`openDialogs
      ensures Valid()
      ensures inputFile == file && isInputDone
      ensures openDialogs == old(openDialogs) - 1
    {
      inputFile := file;
      isInputDone := true;
      openDialogs := openDialogs - 1;
    }

    /** The per-frame poll of the open thread's result: when it is done, both
        flags are cleared and the formatter runs on the new input file (so a
        cancelled dialog runs nothing); otherwise nothing happens. */
    method Poll(output: ProcessOutput) returns (launch: Option<Invocation>)
      requires Valid()
      modifies this`isInputDone, this`isOpeningInput, this`formattedCode, this`editorCode,
               this`error
      ensures Valid()
      ensures !old(isInputDone) ==> launch == None && unchanged(this)
      ensures old(isInputDone) ==> !isInputDone && !isOpeningInput && RanFormatter(output, launch)
    {
      launch := None;
      if isInputDone {
        isInputDone := false;
        isOpeningInput := false;
        launch := RunBinary(output);
      }
    }

    /** The "Save to file..." button: ignored while a save dialog is pending;
        otherwise clears the error and spawns the save thread with a copy of
        the editor text. */
    method ClickSave() returns (spawned: bool)
      requires Valid()
      modifies this`error, this`isOpeningOutput, this`saveCode, this`saveDialogs
      ensures Valid()
      ensures spawned <==> !old(isOpeningOutput)
      ensures spawned ==> error == None && isOpeningOutput && saveCode == editorCode
      ensures !spawned ==> unchanged(this)
      ensures saveDialogs == old(saveDialogs) + (if spawned then 1 else 0)
    {
      spawned := !isOpeningOutput;
      if spawned {
        error := None;
        isOpeningOutput := true;
        saveCode := editorCode;
        saveDialogs := saveDialogs + 1;
      }
    }

    /** The save thread finishing. When the user picked a path the copied text
        is written there, and `writeError` is what that write returned; only a
        failed write sets the error, and a cancel leaves it alone. The pending
        flag is cleared either way. */
    method SaveDialogDone(choice: Option<string>, writeError: Option<string>)
      returns (written: Option<FileWrite>)
      requires Valid() && isOpeningOutput
      modifies this`error, this`isOpeningOutput, this`saveDialogs
      ensures Valid()
      ensures !isOpeningOutput && saveDialogs == old(saveDialogs) - 1
      ensures choice.None? ==> written == None && error == old(error)
      ensures choice.Some? ==> written == Some(FileWrite(choice.value, saveCode))
      ensures choice.Some? && writeError.Some? ==> error == writeError
      ensures choice.Some? && writeError.None? ==> error == old(error)
    {
      written := None;
      if choice.Some? {
        written := Some(FileWrite(choice.value, saveCode));
        if writeError.Some? {
          error := Some(writeError.value);
        }
      }
      isOpeningOutput := false;
      saveDialogs := saveDialogs - 1;
    }

    /** A checkbox click: the toggle flips, then the formatter re-runs. */
    method Toggle(box: Checkbox, output: ProcessOutput) returns (launch: Option<Invocation>)
      requires Valid()
      modifies this`noSimplify, this`minify, this`luaCalls, this`solveRecordTable,
               this`solveListTable, this`formattedCode, this`editorCode, this`error
      ensures Valid()
      ensures CurrentOptions() == Flip(old(CurrentOptions()), box)
      ensures RanFormatter(output, launch)
    {
      ghost var before := CurrentOptions();
      FlipBox(box);
      assert CurrentOptions() == Flip(before, box);
      launch := RunBinary(output);
    }

    /** The checkbox widget itself: it inverts the one toggle it is bound to. */
    method FlipBox(box: Checkbox)
      modifies this`noSimplify, this`minify, this`luaCalls, this`solveRecordTable,
               this`solveListTable
      ensures CurrentOptions() == Flip(old(CurrentOptions()), box)
    {
      match box {
        case NoSimplify => noSimplify := !noSimplify;
        case Minify => minify := !minify;
        case LuaCalls => luaCalls := !luaCalls;
        case SolveRecordTable => solveRecordTable := !solveRecordTable;
        case SolveListTable => solveListTable := !solveListTable;
      }
    }

    /** The "Reset editor..." button: the editor shows the last formatted code again. */
    method Reset()
      requires Valid()
      modifies this`editorCode
      ensures Valid()
      ensures editorCode == formattedCode
    {
      editorCode := formattedCode;
    }

    /** The user editing the code in the editor widget. */
    method Edit(text: string)
      requires Valid()
      modifies this`editorCode
      ensures Valid()
      ensures editorCode == text
    {
      editorCode := text;
    }
  }
}
