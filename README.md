# luau-format-gui, modelled in Dafny

luau-format-gui is a small desktop front-end for the `luau-format` Luau
formatter. At startup it makes sure the tool can be run. If it cannot, it
downloads the tool from the project's GitHub releases into
`$HOME/.luau-format-gui/luau-format`. The window then lets the user open a
file, pick five formatting options, edit the formatted result, reset the
editor and save the text to a file. File dialogs run on background threads.
The formatter runs synchronously on the render thread and re-runs every time
a dialog brings in a new file or an option is clicked.

This project models the parts of `src/main.rs` that decide things:

- `Formatter` (`formatter.dfy`): the formatter's command line. `BuildArgs`
  builds it by successive appends, as `run_binary` does. `FormatterArgs` and
  `Selected` are the reference definition it is proved against. The lemmas
  show that the list is the input path followed by exactly the enabled flags,
  in the fixed order, with none repeated.
- `App` (`app.dfy`): the window state, the class `MyApp` with the fields of
  the Rust struct, plus two additions. `saveCode` is the copy of the editor
  text that a save thread captures when it is spawned; it is a closure
  variable in the source, not a struct field. `openDialogs` and
  `saveDialogs` are ghost counts of the dialog threads in flight. Its
  methods are the events: Open and Save clicks, the two dialog threads
  finishing, the per-frame poll, checkbox clicks, Reset and user edits. `RunBinary` maps the process outcome onto `formattedCode`,
  `editorCode` and `error`. Each method's frame (field-level `modifies`) and
  `ensures` give its whole new state. `Valid()` ties the ghost counts to the
  flags and states the single-flight guarantee: at most one thread of each
  kind.
- `Bootstrap` (`bootstrap.dfy`): `main`'s tool acquisition as the method
  `Start`. Every outside answer is a field of `Environment`: HOME, the probe
  launch, platform and architecture, the directory check and creation, the
  download and the file write. `Start` returns the tool path or the abort
  message, together with the three outside actions it performs: creating the
  cache directory, requesting the download URL and writing the tool file.
  The probe launch and the directory check enter only as `Environment`
  inputs.
- `Scenarios` (`scenarios.dfy`): sessions driven through the event methods,
  for all file names, tool outputs and error texts, with their outcomes proved.
- `Wrappers` (`wrappers.dfy`): the `Option` type.

The model follows the code, including these behaviours a user might not expect:

- The open dialog's pending flag (`is_opening_input`) is not cleared by the
  thread. It is cleared by the next poll, together with `is_input_done`.
- A successful formatter run does not clear an earlier error. The error stays
  on screen until the next Open or Save click (`Scenarios.ErrorOutlivesSuccess`).
- HOME is read before the probe. If it is unset, startup aborts even when
  `luau-format` could be run.
- The probe counts as successful whenever the process could be started,
  whatever its exit status.
- A cancelled open dialog overwrites the previous input file with nothing.
  After that, checkbox clicks run nothing (`Scenarios.CancelledOpen`).
- The probe tries only the bare name `luau-format` on the search path. The
  downloaded file is never probed, and its path is used for the current
  session only. So every start without `luau-format` on the search path
  downloads the tool again and overwrites the cached copy.

## Model

| member | source | states |
|---|---|---|
| `Formatter.BuildArgs` | src/main.rs:107-124 | the appended argument list equals `FormatterArgs(path, options)`: the input path, then the selected flags |
| `Formatter.ArgsSpelledOut` | src/main.rs:107-124 | the reference argument list is the input path, then `--nosimplify`, `--minify`, `--lua_calls`, `--solve_record_table` and `--solve_list_table`, each present exactly when its toggle is set, in that order |
| `Formatter.ArgsExact` | src/main.rs:107-124 | the list starts with the input path and has one more entry than there are set toggles; a flag is in the rest exactly when its toggle is set; nothing else appears; the flags keep the fixed table order strictly, so none repeats |
| `Formatter.SelectedMembership` | src/main.rs:110-124 | in a table without repetitions, a flag is selected if and only if its toggle is set |
| `Formatter.SelectedFromTable` | src/main.rs:110-124 | only flags from the table are ever selected |
| `Formatter.SelectedInOrder` | src/main.rs:110-124 | selected flags appear in strictly increasing table position |
| `Formatter.SelectedLength` | src/main.rs:110-124 | one flag is selected per set toggle |
| `App.Flip` | src/main.rs:192-230 | a checkbox click inverts its own toggle and leaves the other four as they were |
| `App.ErrorLabel` | src/main.rs:254-255 | the error line is shown exactly when there is an error, as "An error occured: " followed by the error text |
| `App.ErrorLabelInjective` | src/main.rs:254-255 | different errors never show the same line |
| `App.MyApp.constructor` | src/main.rs:85-101 | a new window keeps the given tool path and starts with no error, no file, no pending dialog, empty buffers and every toggle off |
| `App.MyApp.RunBinary` | src/main.rs:105-143 | with no input file nothing is launched and nothing changes; otherwise the tool is launched with `FormatterArgs` of the file and the toggles; a zero exit sets both buffers to the output and leaves `error` as it was; a non-zero exit sets `error` to standard error, a launch failure sets it to the launch error, and both leave the buffers unchanged |
| `App.MyApp.ClickOpen` | src/main.rs:152-157 | while an open dialog is pending the click changes nothing; otherwise it clears the error, sets the pending flag and spawns exactly one dialog thread |
| `App.MyApp.OpenDialogDone` | src/main.rs:158-164 | the dialog's answer (nothing on cancel) replaces the input file and the thread marks itself done; no other field changes |
| `App.MyApp.Poll` | src/main.rs:247-252 | if the open thread is done, both open flags are cleared and the formatter runs on the new input file (so a cancel launches nothing); otherwise nothing changes |
| `App.MyApp.ClickSave` | src/main.rs:166-175 | while a save dialog is pending the click changes nothing; otherwise it clears the error, sets the pending flag, copies the editor text for the thread and spawns exactly one save thread |
| `App.MyApp.SaveDialogDone` | src/main.rs:176-187 | the pending flag is always cleared; a chosen path receives the text copied at click time; only a failed write sets the error, and a cancel writes nothing and leaves the error alone |
| `App.MyApp.FlipBox` | src/main.rs:192-230 | a clicked checkbox inverts the one toggle it is bound to |
| `App.MyApp.Toggle` | src/main.rs:192-230 | the clicked toggle flips and the formatter re-runs under the new toggles, with the same outcome mapping as `RunBinary` |
| `App.MyApp.Reset` | src/main.rs:232-234 | the editor text becomes the last formatted code; nothing else changes |
| `App.MyApp.Edit` | src/main.rs:236-245 | the editor widget replaces the editor text; nothing else changes |
| `Bootstrap.Start` | src/main.rs:18-55 | HOME is required first; if the probe launches, the tool stays `luau-format` and nothing is fetched or written; otherwise the cache directory `HOME/.luau-format-gui` is created only if missing, exactly one request goes to the platform's URL, a "Not Found" body aborts before any write, any other body is written to `HOME/.luau-format-gui/luau-format`, and that path becomes the tool exactly when the write succeeds; each failure aborts with its message |
| `Bootstrap.DownloadUrlIdentifiesBuild` | src/main.rs:24-32 | equal download URLs mean the same platform kind and, off Windows, the same architecture |
| `Bootstrap.WindowsUrlIsNoArchUrl` | src/main.rs:24-32 | the Windows asset URL differs from every architecture-suffixed URL |
| `Scenarios.NoToggleArgs` | src/main.rs:107-124 | with every toggle off the arguments are the input path alone |
| `Scenarios.MinifyOnlyArgs` | src/main.rs:107-124 | with only minify on the arguments are the input path, then `--minify` |
| `Scenarios.OpenThenMinify` | src/main.rs:247-252 | for any file and output: opening the file launches `luau-format <file>`, the output fills the editor with no error shown, and ticking minify then launches `luau-format <file> --minify` |
| `Scenarios.FailedRunKeepsEditor` | src/main.rs:131-136 | a re-run that exits non-zero shows "An error occured: " followed by its standard error, and keeps the earlier editor text |
| `Scenarios.ErrorOutlivesSuccess` | src/main.rs:128-130 | a successful run after a failed one updates the editor but still shows the old error |
| `Scenarios.CancelledOpen` | src/main.rs:152-163 | a second Open click while the dialog is pending spawns nothing; a cancelled dialog runs nothing, and a later checkbox click runs nothing either, whatever the tool would print |
| `Scenarios.ResetAfterEdit` | src/main.rs:232-234 | after any edit, Reset restores the formatted code exactly |
| `Scenarios.SaveWritesClickTimeText` | src/main.rs:175-183 | the save thread writes the text from the moment Save was clicked, not later edits, to the chosen file, and a failed write's error is shown |

## Left out

- Rendering: the egui panel, heading, buttons, checkbox labels, code editor
  styling, scroll area and window size. This is widget plumbing. A checkbox
  click is modelled as "flip the toggle, then run the formatter"; the editor
  widget only as `Edit`.
- Threads, `Arc<Mutex<..>>` and the tokio runtime. Each background
  completion is one atomic event method. Interleavings inside a frame, and
  lock poisoning (the `unwrap` on `lock()`), are not modelled. Within one
  frame the source handles Open, Save, the checkboxes, Reset, the editor and
  then the poll, in that order. A frame is a sequence of these method calls.
- The native file dialogs (`rfd`). Their answer is an `Option` parameter.
  The save dialog's suggested file name `formatted.lua` is a hint to the
  dialog and is not modelled.
- Running the process (`Command::output`) and blocking on it. Its outcome is
  the `ProcessOutput` parameter. `String::from_utf8_lossy` is not modelled:
  standard output and standard error arrive as already decoded text.
- `std::fs` and `reqwest`. Only their success or failure, and the fetched
  bytes, come in through `Environment`. The `println!` progress messages
  are I/O and are left out.
- Bootstrap.Start: its abort messages are the texts given to `expect` and
  `panic!`. Rust's `expect` also appends the underlying error's debug text,
  which is not modelled.

