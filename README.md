# Aerotech gantry printer: a Dafny model

This project models three parts of the control scripts of a direct-ink-writing printer. The printer is built on an Aerotech Automation1 gantry and carries a two-channel pneumatic dispenser.

- **The G-code rewriter** (`adjust_gcode_file`). It turns a slicer listing into the listing the gantry runs:
  - Everything before the `; process Process1` marker is skipped.
  - Tool, spindle and fan lines (`M3` … `M106`) are dropped.
  - Comment lines after the "Build Summary" line are dropped, and so is the summary line itself.
  - Every space-separated token starting with `E` is removed, and each line is made to end in a newline.
  - A `G1 Z` move becomes `G91`, the move with `Z` renamed to the chosen axis letter, then `G90`.
  - A `Z =` line is dropped.
  - The result starts with `G75` and `$iglobal[0] = 1`, and ends with `$iglobal[0] = 0`.
  - A letter other than A–D is the `ValueError`.

  `AdjustGcodeFile` is the loop as the script writes it. It is proved equal to the specification `Adjust`, which is built from the per-line `Emit` and `Next`. The lemmas are stated about `Adjust` and `Run`.
- **The pneumatic rig** (the serial protocol, `close_valve`, `open_valve`, `set_PID_pressure`, `printing_process`, `cleanup`, and the valve and pressure controls of the window).
  - The module-level globals become the class `Rig`. Its single event trace records both the lines written to the pressure controller ("channel,value\n"; -1 opens a valve, -2 closes it, 0..100 is a set-point in PSI) and the gantry moves. The order in which writes and moves interleave is therefore part of every contract.
  - `printing_process` is two nested loops, proved against the trace `JobTrace`. The lemmas count what the job does, where it leaves each axis, and what every written line means to the receiving side.
- **The Automation1 console** (`main`'s read–dispatch loop, `connect_to_controller`, `disconnect_from_controller`, and the operations behind the connection guard).
  - `Dispatch` is the pure reading of one typed line: strip, split at single spaces, lower-case the command word, check the arguments.
  - The class `ConsoleApp` holds the `controller` reference, the log of SDK calls and the printed messages. Its methods are proved against the pure `Exec`, `Step` and `Session`.

Distances are integers in tenths of a millimetre (the job's 0.4 mm C-axis step is 4). `is_float` (Python's `float()` test) is a parameter of the console model.

`show_axis_parameters` keeps the refusal text of the source as written: without a controller it prints the `set_global_integer` message, "You must connect to the controller before setting a global integer".

## Model

| member | source | states |
|---|---|---|
| PyStr.Strip | 2404_code_2pneumatic/automation1.py:481 | the stripped line is a slice `s[a..b]` of the line with only whitespace before `a` and after `b`, and it neither starts nor ends with whitespace; so exactly the whitespace at both ends is cut, and a line without any there is left as it is |
| PyStr.Lower | 2404_code_2pneumatic/automation1.py:484 | lower-casing keeps the length and maps every character through the ASCII lower-case table |
| PyStr.LowerIdempotent | 2404_code_2pneumatic/automation1.py:484 | lower-casing twice is lower-casing once |
| PyStr.JoinSplit | 2404_code_2pneumatic/use_this_Gcode_revision.py:38-40 | no part of `split(sep)` holds the separator, and `sep.join` of the parts gives the string back |
| PyStr.SplitJoin | 2405_Pythoncode_2pneumatic_system/final_version_UI_2Channel_noGcode.py:513 | splitting a join of separator-free parts gives the parts back |
| PyStr.ReplaceByOneChar | 2404_code_2pneumatic/use_this_Gcode_revision.py:46 | `replace` of one character by one character keeps the length and rewrites exactly the matching positions |
| PyStr.IntToStringRoundTrip | 2405_Pythoncode_2pneumatic_system/final_version_UI_2Channel_noGcode.py:530 | `int(str(i)) == i` for every integer |
| PyStr.PaddingSkipped | 2405_Pythoncode_2pneumatic_system/final_version_UI_2Channel_noGcode.py:662 | `int()` skips any run of spaces, tabs, line breaks, vertical tabs and form feeds on either side of the number and reads what is left |
| PyStr.SeparatorRefused | 2405_Pythoncode_2pneumatic_system/final_version_UI_2Channel_noGcode.py:662 | `int()` refuses a number preceded by U+001C, although `str.isspace()` counts that character as whitespace |
| PyStr.UnderscoreGroups | 2405_Pythoncode_2pneumatic_system/final_version_UI_2Channel_noGcode.py:662 | `int()` reads digits grouped by single underscores: `a_b` is worth the digits of `a` then `b` |
| PyStr.DoubledUnderscore | 2405_Pythoncode_2pneumatic_system/final_version_UI_2Channel_noGcode.py:662 | `int()` refuses two underscores in a row |
| PyStr.EdgeUnderscore | 2405_Pythoncode_2pneumatic_system/final_version_UI_2Channel_noGcode.py:670 | `int()` refuses an underscore before the first digit or after the last |
| PyStr.NatToString | 2404_code_2pneumatic/automation1.py:536-545 | `str(n)` is a non-empty run of decimal digits, with no leading zero unless `n` is 0 |
| PyStr.NatToStringRoundTrip | 2404_code_2pneumatic/automation1.py:536-545 | `str(n)` of a natural number is numeric and reads back as `n` |
| GcodeRewriter.DropETokensKeeps | 2404_code_2pneumatic/use_this_Gcode_revision.py:39 | the comprehension keeps a token exactly when it does not start with `E` |
| GcodeRewriter.KeptTokens | 2404_code_2pneumatic/use_this_Gcode_revision.py:38-40 | after the split–filter–join no space-separated token starts with `E` |
| GcodeRewriter.Clean | 2404_code_2pneumatic/use_this_Gcode_revision.py:38-42 | the cleaned line ends in a newline and has no `E` token |
| GcodeRewriter.ReplaceKeepsWellFormed | 2404_code_2pneumatic/use_this_Gcode_revision.py:45-48 | renaming `Z` to A–D in a cleaned line leaves it newline-terminated, free of `E` tokens and free of `G1 Z` |
| GcodeRewriter.Rewrite | 2404_code_2pneumatic/use_this_Gcode_revision.py:44-56 | a surviving line adds at most three output lines |
| GcodeRewriter.RewriteWellFormed | 2404_code_2pneumatic/use_this_Gcode_revision.py:37-56 | every line the rewrite of one line adds is well formed (newline, no `E` token, no `G1 Z`) |
| GcodeRewriter.Next | 2404_code_2pneumatic/use_this_Gcode_revision.py:19-31 | both flags only go from false to true, and processing is on exactly when it was on or the line holds the marker |
| GcodeRewriter.Adjust | 2404_code_2pneumatic/use_this_Gcode_revision.py:3-60 | `ValueError` exactly for a letter outside A–D; otherwise at least three lines, `G75` and the flag set first, the flag clear last |
| GcodeRewriter.RewriteLine | 2404_code_2pneumatic/use_this_Gcode_revision.py:37-56 | the token filter and the `G1 Z` / `Z =` branches compute the specification's rewrite of the line |
| GcodeRewriter.FilterLine | 2404_code_2pneumatic/use_this_Gcode_revision.py:19-56 | one pass of the loop adds the specification's lines for the line and moves both flags as the specification's scan does |
| GcodeRewriter.AdjustGcodeFile | 2404_code_2pneumatic/use_this_Gcode_revision.py:3-60 | the loop and the two flag lines produce exactly `Adjust(lines, letter)`, including the `ValueError` |
| GcodeRewriter.InsertSecond | 2404_code_2pneumatic/use_this_Gcode_revision.py:59-60 | inserting at index 1 and appending frames the body between `G75`, the flag set and the flag clear |
| GcodeRewriter.ZMoveLine | 2404_code_2pneumatic/use_this_Gcode_revision.py:45-50 | a surviving `G1 Z` line becomes `G91`, the cleaned line with every `Z` (and nothing else) renamed to the letter, then `G90` |
| GcodeRewriter.ZAssignLine | 2404_code_2pneumatic/use_this_Gcode_revision.py:52-54 | a surviving `Z =` line that is not a `G1 Z` move adds nothing |
| GcodeRewriter.KeptTokensInOrder | 2404_code_2pneumatic/use_this_Gcode_revision.py:38-40 | splitting the filtered line at spaces gives back exactly the tokens that do not start with `E`, in their order; a line whose tokens all start with `E` becomes empty |
| GcodeRewriter.KeptTokensUnchanged | 2404_code_2pneumatic/use_this_Gcode_revision.py:38-40 | a line with no `E` token comes out of the split–filter–join unchanged |
| GcodeRewriter.CleanUnchanged | 2404_code_2pneumatic/use_this_Gcode_revision.py:38-42 | cleaning a line with no `E` token only adds the newline it lacks |
| GcodeRewriter.PlainLineCopied | 2404_code_2pneumatic/use_this_Gcode_revision.py:37-56 | a surviving line that already ends in a newline and has no `E` token, no `G1 Z` and no `Z =` is copied unchanged |
| GcodeRewriter.RunAppend | 2404_code_2pneumatic/use_this_Gcode_revision.py:19-56 | rewriting `p + q` is rewriting `p`, then `q` from the scan `p` leaves |
| GcodeRewriter.BeforeMarkerSilent | 2404_code_2pneumatic/use_this_Gcode_revision.py:19-24 | lines before the marker add nothing and leave the scan at its start |
| GcodeRewriter.MarkerStartsProcessing | 2404_code_2pneumatic/use_this_Gcode_revision.py:19-24 | the output depends only on the input from the first marker line on, and that line is filtered as if processing had already begun |
| GcodeRewriter.NoMarkerNoBody | 2404_code_2pneumatic/use_this_Gcode_revision.py:15-60 | a listing without the marker becomes the frame alone |
| GcodeRewriter.RunWellFormed | 2404_code_2pneumatic/use_this_Gcode_revision.py:19-56 | every body line is well formed |
| GcodeRewriter.AdjustWellFormed | 2404_code_2pneumatic/use_this_Gcode_revision.py:15-60 | every output line, the frame included, ends in a newline, has no `E` token and no `G1 Z` |
| GcodeRewriter.SummaryScanStable | 2404_code_2pneumatic/use_this_Gcode_revision.py:26-31 | once past the marker and the summary, the scan stays there |
| GcodeRewriter.CommentSilentAfterSummary | 2404_code_2pneumatic/use_this_Gcode_revision.py:27-28 | after the summary a line starting with `;` adds nothing |
| GcodeRewriter.CommentsIgnoredAfterSummary | 2404_code_2pneumatic/use_this_Gcode_revision.py:26-31 | after the summary, deleting every comment line from the rest of the input does not change the output |
| GcodeRewriter.SummaryStep | 2404_code_2pneumatic/use_this_Gcode_revision.py:29-31 | a "Build Summary" line past the marker adds nothing and sets both flags |
| GcodeRewriter.SummaryLineSilencesComments | 2404_code_2pneumatic/use_this_Gcode_revision.py:26-31 | the output of `p + [summary] + q` is that of `p` followed by `q` with its comments removed |
| GcodeRewriter.ToolLineStep | 2404_code_2pneumatic/use_this_Gcode_revision.py:33-35 | a tool line adds nothing and leaves the scan unchanged |
| GcodeRewriter.ToolLineTransparent | 2404_code_2pneumatic/use_this_Gcode_revision.py:33-35 | deleting a tool, spindle or fan line from the input does not change the output, unless it is the marker or a summary line |
| Pneumatic.CommandLine | 2405_Pythoncode_2pneumatic_system/final_version_UI_2Channel_noGcode.py:525-530 | every command line ends in a newline |
| Pneumatic.CommandRoundTrip | 2405_Pythoncode_2pneumatic_system/final_version_UI_2Channel_noGcode.py:511-533 | every line "channel,value\n" the host writes is read back as that same pair |
| Pneumatic.CommandLineInjective | 2405_Pythoncode_2pneumatic_system/final_version_UI_2Channel_noGcode.py:511-533 | different commands are different lines |
| Pneumatic.ProtocolLines | 2405_Pythoncode_2pneumatic_system/final_version_UI_2Channel_noGcode.py:511-523 | the valve lines are exactly "1,-1\n", "2,-1\n", "1,-2\n" and "2,-2\n" |
| Pneumatic.ValveLinesDistinct | 2405_Pythoncode_2pneumatic_system/final_version_UI_2Channel_noGcode.py:511-523 | the four valve commands are four different lines |
| Pneumatic.Rig.constructor | 2405_Pythoncode_2pneumatic_system/final_version_UI_2Channel_noGcode.py:11-13 | nothing written or moved yet, and both desired pressures are 15 PSI |
| Pneumatic.Rig.CloseValve | 2405_Pythoncode_2pneumatic_system/final_version_UI_2Channel_noGcode.py:511-516 | writes the close line of the channel and nothing else |
| Pneumatic.Rig.OpenValve | 2405_Pythoncode_2pneumatic_system/final_version_UI_2Channel_noGcode.py:518-523 | writes the open line of the channel and nothing else |
| Pneumatic.Rig.SetPidPressure | 2405_Pythoncode_2pneumatic_system/final_version_UI_2Channel_noGcode.py:525-538 | outside 0..100 nothing at all; otherwise writes "n,p\n" and makes p the desired pressure of channel 1 or 2 |
| Pneumatic.Rig.MoveLinear | 2405_Pythoncode_2pneumatic_system/final_version_UI_2Channel_noGcode.py:587 | records one gantry move after everything written so far |
| Pneumatic.Rig.MoveAndRefresh | 2405_Pythoncode_2pneumatic_system/final_version_UI_2Channel_noGcode.py:587-589 | one move, then both desired pressures re-sent, desired pressures unchanged |
| Pneumatic.Rig.PrintRow | 2405_Pythoncode_2pneumatic_system/final_version_UI_2Channel_noGcode.py:585-613 | row `i` is five serpentine units, forward in Y on even rows and back on odd ones, then the C step |
| Pneumatic.Rig.PrintingProcess | 2405_Pythoncode_2pneumatic_system/final_version_UI_2Channel_noGcode.py:556-616 | the job appends exactly `JobTrace` for the pressures desired when it starts: set-points, both valves opened, 100 rows, both valves closed |
| Pneumatic.Rig.Cleanup | 2405_Pythoncode_2pneumatic_system/final_version_UI_2Channel_noGcode.py:621-626 | both set-points to 0, then both valves closed; both desired pressures become 0 |
| Pneumatic.CleanupLines | 2405_Pythoncode_2pneumatic_system/final_version_UI_2Channel_noGcode.py:621-625 | the cleanup writes exactly "1,0\n", "2,0\n", "1,-2\n", "2,-2\n" |
| Pneumatic.StepCounts | 2405_Pythoncode_2pneumatic_system/final_version_UI_2Channel_noGcode.py:587-589 | a move step is one move plus one write per in-range desired pressure |
| Pneumatic.UnitCounts | 2405_Pythoncode_2pneumatic_system/final_version_UI_2Channel_noGcode.py:586-598 | a unit is four moves, four refreshes, no net X travel and twice its Y step |
| Pneumatic.RowCounts | 2405_Pythoncode_2pneumatic_system/final_version_UI_2Channel_noGcode.py:585-613 | a row is 21 moves and 20 refreshes; it travels ten Y steps and one C step |
| Pneumatic.RowsMoves | 2405_Pythoncode_2pneumatic_system/final_version_UI_2Channel_noGcode.py:584-613 | `n` rows make `21 n` moves |
| Pneumatic.RowsWrites | 2405_Pythoncode_2pneumatic_system/final_version_UI_2Channel_noGcode.py:584-613 | `n` rows make 20 writes per row for each in-range channel |
| Pneumatic.RowsTravel | 2405_Pythoncode_2pneumatic_system/final_version_UI_2Channel_noGcode.py:584-613 | after `n` rows Y is back at its start when `n` is even, and C has risen `n` steps |
| Pneumatic.RefreshCounts | 2405_Pythoncode_2pneumatic_system/final_version_UI_2Channel_noGcode.py:570-571 | a refresh moves nothing and writes once per in-range channel |
| Pneumatic.JobCounts | 2405_Pythoncode_2pneumatic_system/final_version_UI_2Channel_noGcode.py:556-616 | the job makes 2100 moves, ends with X and Y where they began and C 40 mm higher, and writes the 4 valve lines plus 2001 set-points per in-range channel |
| Pneumatic.RowEvents | 2405_Pythoncode_2pneumatic_system/final_version_UI_2Channel_noGcode.py:585-613 | every event of a row is one of the job's five moves or one of its expected lines |
| Pneumatic.RowsEvents | 2405_Pythoncode_2pneumatic_system/final_version_UI_2Channel_noGcode.py:584-613 | the same for the first `n` rows |
| Pneumatic.JobWriteDecodes | 2405_Pythoncode_2pneumatic_system/final_version_UI_2Channel_noGcode.py:511-538 | every line the job may write decodes to a valve code or a channel's own desired pressure |
| Pneumatic.JobEvents | 2405_Pythoncode_2pneumatic_system/final_version_UI_2Channel_noGcode.py:556-616 | every move of the job is one of its five fixed moves, and every write decodes to a valve code or the channel's desired pressure |
| Pneumatic.CloseBothCloses | 2405_Pythoncode_2pneumatic_system/final_version_UI_2Channel_noGcode.py:615-616 | closing valve 1 then valve 2 leaves both closed from any state |
| Pneumatic.JobAndCleanupCloseValves | 2405_Pythoncode_2pneumatic_system/final_version_UI_2Channel_noGcode.py:615-625 | after the job, and after the cleanup, both valves are closed, whatever came before |
| Pneumatic.Toggled | 2405_Pythoncode_2pneumatic_system/final_version_UI_2Channel_noGcode.py:676-683 | toggling flips the flag of that valve only and keeps the set of valves |
| Pneumatic.ToggleTwice | 2405_Pythoncode_2pneumatic_system/final_version_UI_2Channel_noGcode.py:675-683 | toggling twice restores the flags, and the two writes are that valve's close then open (or open then close) |
| Pneumatic.PressureControlApp.constructor | 2405_Pythoncode_2pneumatic_system/final_version_UI_2Channel_noGcode.py:631-635 | both valves start flagged open |
| Pneumatic.PressureControlApp.ToggleValve | 2405_Pythoncode_2pneumatic_system/final_version_UI_2Channel_noGcode.py:675-687 | an unknown valve number is the `KeyError` and changes nothing; otherwise the flag flips and the matching command is written |
| Pneumatic.PressureControlApp.UpdateDesiredPressure1 | 2405_Pythoncode_2pneumatic_system/final_version_UI_2Channel_noGcode.py:659-665 | an entry that `int()` reads (spaces, tabs and line breaks around it, an optional sign, digits grouped by single underscores) becomes channel 1's desired pressure, with no range check and no digit limit; any other entry changes nothing |
| Pneumatic.PressureControlApp.UpdateDesiredPressure2 | 2405_Pythoncode_2pneumatic_system/final_version_UI_2Channel_noGcode.py:667-673 | the same for channel 2 |
| Dispatcher.CommandTokens | 2404_code_2pneumatic/automation1.py:481-485 | a typed line always has a first token |
| Dispatcher.DispatchIgnoresCase | 2404_code_2pneumatic/automation1.py:484 | the command word is read without regard to case |
| Dispatcher.SpellingSelects | 2404_code_2pneumatic/automation1.py:487-555 | each command word selects its own branch |
| Dispatcher.KeywordSpelt | 2404_code_2pneumatic/automation1.py:487-555 | only the exact lower-case command words (and the empty line, for help) select a branch; anything else is unknown |
| Dispatcher.SpellingLetters | 2404_code_2pneumatic/automation1.py:487-552 | every command word is a non-empty run of lower-case letters |
| Dispatcher.NameLetters | 2404_code_2pneumatic/automation1.py:487-552 | the name typed for a command is a non-empty run of lower-case letters |
| Dispatcher.SelectArguments | 2404_code_2pneumatic/automation1.py:489-550 | a command word with its arguments in the right number and form runs that command |
| Dispatcher.SelectIndices | 2404_code_2pneumatic/automation1.py:536-545 | the global-integer commands read their numeric arguments back as the indices and values typed |
| Dispatcher.SelectShape | 2404_code_2pneumatic/automation1.py:489-550 | a command is run only from its own word, with as many arguments as it takes, used as typed; a linear move only with a distance and speed `is_float` accepts; a global-integer command only with all-digit arguments, whose values become the index and value |
| Dispatcher.ArgumentsChecked | 2404_code_2pneumatic/automation1.py:497-550 | a line is refused exactly when its command takes arguments and gets the wrong number of them, a distance or speed `is_float` refuses, or a global-integer argument that is not all digits; the complaint is that command's own |
| Dispatcher.ArgumentsRefused | 2404_code_2pneumatic/automation1.py:497-545 | `setglobalinteger 1 -5`, `getglobalinteger +5`, `enable` without or with two axes, and `movelinear` without a speed are each refused with their command's complaint |
| Dispatcher.TokensOfRender | 2404_code_2pneumatic/automation1.py:481-485 | a command typed as its name and arguments splits back into exactly those tokens |
| Dispatcher.RenderDispatches | 2404_code_2pneumatic/automation1.py:481-555 | typing a command as its name and arguments runs exactly that command, for every command whose arguments are non-empty words without whitespace and whose distance and speed `is_float` accepts |
| Dispatcher.DispatchedShape | 2404_code_2pneumatic/automation1.py:481-550 | a line that runs a command starts with its name, in any case, and holds as many tokens as the command takes |
| Dispatcher.SelectQuitHelp | 2404_code_2pneumatic/automation1.py:487-488 | quit and help are selected exactly by their own words |
| Dispatcher.KeywordQuitHelp | 2404_code_2pneumatic/automation1.py:487-552 | "quit" is the only quit word; "help" and the empty word are the only help words |
| Dispatcher.QuitExactly | 2404_code_2pneumatic/automation1.py:551-552 | a line quits exactly when its first token lower-cases to "quit" |
| Dispatcher.HelpExactly | 2404_code_2pneumatic/automation1.py:487-488 | a line asks for help exactly when its first token lower-cases to "help" or is empty |
| Console.ConsoleApp.constructor | 2404_code_2pneumatic/automation1.py:31 | the console starts with no controller, no calls and nothing printed |
| Console.ConsoleApp.ConnectToController | 2404_code_2pneumatic/automation1.py:68-86 | "Already connected" with no call when connected; otherwise the connect call, then the reference and "Connected…" or the fault |
| Console.ConsoleApp.DisconnectFromController | 2404_code_2pneumatic/automation1.py:88-104 | "Already disconnected" with no call when not connected; otherwise the disconnect call, then the reference dropped or the fault |
| Console.ConsoleApp.Operate | 2404_code_2pneumatic/automation1.py:106-464 | without a controller only the operation's refusal; otherwise its messages, its SDK call and its result or the fault |
| Console.ConsoleApp.Carry | 2404_code_2pneumatic/automation1.py:487-555 | each branch of the dispatch does what the specification's response says, and only quit ends the loop |
| Console.ConsoleApp.HandleLine | 2404_code_2pneumatic/automation1.py:478-563 | one pass of the loop: the prompt, then the response to the dispatched line |
| Console.Entries | 2404_code_2pneumatic/automation1.py:479-481 | the session's k-th entry is the k-th typed line, stripped and dispatched, with that line's fault |
| Console.ConsoleApp.RunSession | 2404_code_2pneumatic/automation1.py:473-563 | `main` over a sequence of typed lines ends in the state the specification's session gives and reports how many lines it read |
| Console.TurnQuits | 2404_code_2pneumatic/automation1.py:551-552 | a pass ends the loop exactly when the line is quit |
| Console.CallOnlyWhenAllowed | 2404_code_2pneumatic/automation1.py:68-464 | an SDK call is made exactly when the connection allows it (connect only without a controller, everything else only with one), at most one per command, and the log and output only grow |
| Console.GuardBlocks | 2404_code_2pneumatic/automation1.py:106-464 | without a controller a guarded command makes no call, stays unconnected and prints only its refusal line |
| Console.ConnectionChanges | 2404_code_2pneumatic/automation1.py:68-104 | the connection changes exactly on a connect or disconnect whose SDK call succeeds |
| Console.ConnectTwice | 2404_code_2pneumatic/automation1.py:73-75 | a second connect makes no call and prints "Already connected" |
| Console.DisconnectThenGuarded | 2404_code_2pneumatic/automation1.py:88-121 | after a disconnect every guarded command is refused |
| Console.MalformedComplains | 2404_code_2pneumatic/automation1.py:497-550 | a refused line prints the prompt and its command's complaint text and nothing else: no SDK call and the connection unchanged, with or without a controller |
| Console.ComplaintTurn | 2404_code_2pneumatic/automation1.py:497-550 | the response to refused arguments appends the prompt and the complaint, makes no call and does not quit |
| Console.UnknownPrintsHelp | 2404_code_2pneumatic/automation1.py:553-555 | an unknown word prints the prompt, "Unknown Command" and the command list, and nothing else happens |
| Console.CommandListText | 2404_code_2pneumatic/automation1.py:45-66 | the command list is the 18 lines `print_help` prints, after "Unknown Command" |
| Console.TurnWithoutConnect | 2404_code_2pneumatic/automation1.py:478-555 | without a controller a line that does not connect keeps the console unconnected and makes no call |
| Console.ReplayStopsAtQuit | 2404_code_2pneumatic/automation1.py:478-563 | the loop reads up to and including the first quit, and every line when there is none; faults never end it |
| Console.SessionStopsAtQuit | 2404_code_2pneumatic/automation1.py:478-563 | the same, stated about the typed lines |
| Console.ReplayWithoutConnect | 2404_code_2pneumatic/automation1.py:478-555 | a run of lines that never connects, begun without a controller, makes no SDK call |
| Console.NoConnectNoCalls | 2404_code_2pneumatic/automation1.py:473-563 | a session in which no line connects, begun without a controller, makes no SDK call and stays unconnected |

## Left out

- File reading and writing in `adjust_gcode_file` (the `_revised.gcode` path and the final message): the model takes the lines read and returns the lines written.
- Python's Unicode tables: `strip`, `lower`, `isnumeric` and `int` are modelled on ASCII characters only. In the source a non-ASCII numeric argument such as '²' passes `isnumeric()` at automation1.py:537 and automation1.py:542 and then makes `int()` raise, so the console prints an "Unexpected ValueError: …" line; the model's `IsNumeric` takes ASCII digits only, so it refuses such an argument with the usage line instead.
- PyStr.ParseInt: the interpreter's limit on the digits `int()` converts is not modelled. CPython 3.11 and later, and the security releases 3.7.14, 3.8.14, 3.9.14 and 3.10.7, raise ValueError for a string of more than 4300 digits; older interpreters have no such limit, and the source does not name a version. The model reads a numeral of any length.
- Pneumatic.PressureControlApp.UpdateDesiredPressure1: on an interpreter with the digit limit, an entry of more than 4300 digits is refused and channel 1 keeps its old desired pressure; the model stores it (see `PyStr.ParseInt`).
- Pneumatic.PressureControlApp.UpdateDesiredPressure2: on an interpreter with the digit limit, an entry of more than 4300 digits is refused and channel 2 keeps its old desired pressure; the model stores it (see `PyStr.ParseInt`).
- Dispatcher.Select: on an interpreter with the digit limit, a `getglobalinteger` or `setglobalinteger` argument of more than 4300 digits makes `int()` raise at automation1.py:538 or automation1.py:543, before the SDK call, and the main loop prints "Unexpected ValueError: …" (automation1.py:562-563); the model runs the command (see `PyStr.ParseInt`), and `SelectShape`, `SelectIndices`, `SelectArguments` and `RenderDispatches` hold only where the interpreter has no such limit.
- `is_float` and the `float()` conversion: `is_float` is a parameter, and the distance and speed are carried as the strings typed.
- The prompt text of `input('> ')` and the end of input: `input` raising at the end of input makes the source's loop spin forever; the model reads a finite sequence of lines and stops when they run out.
- What the SDK reports (axis status values, program status, the value of a global integer, axis parameters): those prints depend on the controller and are not modelled. The SDK calls are recorded abstractly in a call log.
- The exception type names and error codes in the "Unexpected …" line: the fault of a line is given as the text printed after "Unexpected ".
- Several reads of `show_axis_parameters` are modelled as one call, `AxisParametersCall`.
- The duplicated console helpers and the module-level connect, start and `enable_axis` of the pneumatic script: that script is modelled only from `close_valve` on.
- `ser.close()`, `ser.flush()`, `read_serial`, `write_serial_command`, `time.sleep` and the console prints of the pneumatic script: the model records the lines written and the moves, and its port never closes. In the source, `printing_process` closes the port when it ends (final_version_UI_2Channel_noGcode.py:617), so a valve toggle from the window afterwards, or the cleanup when the window is closed, raises on its first write; `Rig.Cleanup`, `CleanupLines`, `ToggleValve` and `JobAndCleanupCloseValves` describe those writes as if the port were still open.
- The thread that runs `printing_process` beside the window: the job reads the desired pressures once, at its start, and a change made from the window while it runs is not modelled.
- Button labels and the Tk widgets of the window.
- Dispatcher.SelectShape: for commands that take no arguments the source ignores extra tokens, and this contract says nothing about them; `ArgumentsChecked` states that such commands are never refused.
- Dispatcher.RenderDispatches: stated only for arguments that are non-empty words without whitespace; the source also runs an argument holding a tab or other whitespace that is neither a space nor at the ends of the line (`enable X\tY`), which this lemma does not cover.
- Dispatcher.DispatchedShape: likewise, the number of tokens is stated only for commands that take arguments.
- GcodeRewriter.Rewrite: its own contract bounds only the number of lines; their form is stated by `RewriteWellFormed`, `ZMoveLine`, `ZAssignLine` and `PlainLineCopied`.
- Pneumatic.CommandLine: its own contract states only the final newline; its meaning is `CommandRoundTrip`.
