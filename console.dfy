/**
 * The Automation1 console: the connection guard in front of every controller
 * operation, and `main`'s read-dispatch loop.
 *
 * The motion SDK is not modelled; each SDK operation the console invokes is
 * recorded as a `Call` in an abstract call log.  An SDK operation that raises
 * is given as the `fault` of the input line (the exception's description);
 * the console then prints "Unexpected " followed by it and goes back to the
 * prompt.  What the console prints is kept as a sequence of `Message`s, and
 * `Lines` gives the exact text each one prints.
 */
module Console {
  import opened PyStr
  import opened Dispatcher

  // ---------------------------------------------------------------------
  // SDK calls and printed messages
  // ---------------------------------------------------------------------

  /** An SDK operation the console invokes. */
  datatype Call =
    | ConnectCall
    | DisconnectCall
    | StartCall
    | StopCall
    | EnableCall(axis: string)
    | DisableCall(axis: string)
    | HomeCall(axis: string)
    | AbortCall(axis: string)
    | StatusItemsCall(axis: string)
    | MoveLinearCall(axis: string, distance: string, speed: string)
    | RunProgramCall(path: string)
    | TaskStatusCall
    | StopProgramCall
    | GetIntegerCall(index: nat)
    | SetIntegerCall(index: nat, value: nat)
    | AxisParametersCall(axis: string)

  /** Something the console prints. */
  datatype Message =
    | Prompt
    | CommandList
    | UnknownCommand
    | Complaint(usage: Usage)
    | AlreadyConnected
    | Connected
    | AlreadyDisconnected
    | Disconnected
    | NotConnected(command: Command)
    | Moving(axis: string)
    | StartingProgram
    | Done(command: Command)
    | Unexpected(fault: string)

  const HelpLines: seq<string> := [
    "Available commands:",
    "\tConnect",
    "\tDisconnect",
    "\tStart",
    "\tStop",
    "\tEnable [Axis Name]",
    "\tDisable [Axis Name]",
    "\tHome [Axis Name]",
    "\tAbort [Axis Name]",
    "\tAxisStatus [Axis Name]",
    "\tMoveLinear [Axis Name] [Distance] [Speed]",
    "\tRunProgram [AeroScript Program Path]",
    "\tProgramStatus",
    "\tStopProgram",
    "\tGetGlobalInteger [Index]",
    "\tSetGlobalInteger [Index] [New Value]",
    "\tShowAxisParameters [Axis Name]",
    "\tQuit"
  ]

  /** The commands that need a controller: all but connect and disconnect. */
  predicate Guarded(cmd: Command) {
    !cmd.Connect? && !cmd.Disconnect?
  }

  /** What each guarded operation prints when there is no controller. */
  function GuardText(cmd: Command): string
    requires Guarded(cmd)
  {
    match cmd
    case Start => "You must connect to the controller before you can start it"
    case Stop => "You must connect to the controller before you can stop it"
    case Enable(_) => "You must connect to the controller before enabling an axis"
    case Disable(_) => "You must connect to the controller before disabling an axis"
    case Home(_) => "You must connect to the controller before homing an axis"
    case Abort(_) => "You must connect to the controller before aborting"
    case AxisStatus(_) => "You must connect to the controller before getting an axis's status"
    case MoveLinear(_, _, _) => "You must connect to the controller before moving an axis"
    case RunProgram(_) => "You must connect to the controller before running an AeroScript program"
    case ProgramStatus => "You must connect to the controller before getting an AeroScript program's status"
    case StopProgram => "You must connect to the controller before stopping a program"
    case GetGlobalInteger(_) => "You must connect to the controller before querying a global integer"
    case SetGlobalInteger(_, _) => "You must connect to the controller before setting a global integer"
    case ShowAxisParameters(_) => "You must connect to the controller before setting a global integer"
  }

  /**
   * What a guarded operation prints once its SDK call returns; the lines
   * that report values read from the controller are not modelled.
   */
  function DoneLines(cmd: Command): seq<string>
  {
    match cmd
    case Start => ["Controller started"]
    case Stop => ["Controller stopped"]
    case Enable(a) => ["Axis " + a + " enabled"]
    case Disable(a) => ["Axis " + a + " disabled"]
    case Home(a) => ["Axis " + a + " homed"]
    case Abort(a) => ["Motion aborted on axis " + a]
    case AxisStatus(a) => ["Axis " + a + " Status", "------------"]
    case MoveLinear(_, _, _) => ["Move complete"]
    case StopProgram => ["Program stopped"]
    case SetGlobalInteger(i, v) => ["$iglobal[" + NatToString(i) + "] is now set to: " + NatToString(v)]
    case _ => []
  }

  /** The lines a message prints. */
  function Lines(m: Message): seq<string>
  {
    match m
    case Prompt => ["Enter a command (or 'quit' to exit or 'help' for a list of commands)"]
    case CommandList => HelpLines
    case UnknownCommand => ["Unknown Command"]
    case Complaint(u) => [UsageText(u)]
    case AlreadyConnected => ["Already connected"]
    case Connected => ["Connected to Automation1 controller"]
    case AlreadyDisconnected => ["Already disconnected"]
    case Disconnected => ["Disconnected from Automation1 controller"]
    case NotConnected(cmd) => if Guarded(cmd) then [GuardText(cmd)] else []
    case Moving(a) => ["Moving axis " + a]
    case StartingProgram => ["Starting AeroScript program"]
    case Done(cmd) => DoneLines(cmd)
    case Unexpected(fault) => ["Unexpected " + fault]
  }

  /** The text printed for a sequence of messages. */
  function Transcript(out: seq<Message>): seq<string>
  {
    if out == [] then [] else Transcript(out[..|out| - 1]) + Lines(out[|out| - 1])
  }

  /** Printing one more message prints its lines after the earlier ones. */
  lemma TranscriptSnoc(a: seq<Message>, m: Message)
    ensures Transcript(a + [m]) == Transcript(a) + Lines(m)
  {
    assert (a + [m])[..|a|] == a;
  }

  // ---------------------------------------------------------------------
  // What a command does
  // ---------------------------------------------------------------------

  /** Whether a controller is held, the SDK calls made so far, the messages printed so far. */
  datatype ConsoleState = ConsoleState(connected: bool, calls: seq<Call>, output: seq<Message>)

  /** The SDK operation behind each guarded command. */
  function SdkCall(cmd: Command): Call
    requires Guarded(cmd)
  {
    match cmd
    case Start => StartCall
    case Stop => StopCall
    case Enable(a) => EnableCall(a)
    case Disable(a) => DisableCall(a)
    case Home(a) => HomeCall(a)
    case Abort(a) => AbortCall(a)
    case AxisStatus(a) => StatusItemsCall(a)
    case MoveLinear(a, d, s) => MoveLinearCall(a, d, s)
    case RunProgram(p) => RunProgramCall(p)
    case ProgramStatus => TaskStatusCall
    case StopProgram => StopProgramCall
    case GetGlobalInteger(i) => GetIntegerCall(i)
    case SetGlobalInteger(i, v) => SetIntegerCall(i, v)
    case ShowAxisParameters(a) => AxisParametersCall(a)
  }

  /** What a guarded operation prints before its SDK call. */
  function Before(cmd: Command): seq<Message>
  {
    match cmd
    case MoveLinear(a, _, _) => [Moving(a)]
    case RunProgram(_) => [StartingProgram]
    case _ => []
  }

  /**
   * An SDK call: it is made; if it raises, the fault is reported and the
   * connection is left as it was, otherwise `connected'` and `after` apply.
   */
  function Attempt(st: ConsoleState, call: Call, before: seq<Message>, fault: Option<string>,
                   connected': bool, after: Message): ConsoleState
  {
    ConsoleState(if fault.None? then connected' else st.connected,
                 st.calls + [call],
                 st.output + before + [if fault.Some? then Unexpected(fault.value) else after])
  }

  /** One command, with the fault its SDK call raises, if any. */
  function Exec(st: ConsoleState, cmd: Command, fault: Option<string>): ConsoleState
  {
    if cmd.Connect? then
      if st.connected then st.(output := st.output + [AlreadyConnected])
      else Attempt(st, ConnectCall, [], fault, true, Connected)
    else if cmd.Disconnect? then
      if !st.connected then st.(output := st.output + [AlreadyDisconnected])
      else Attempt(st, DisconnectCall, [], fault, false, Disconnected)
    else if !st.connected then st.(output := st.output + [NotConnected(cmd)])
    else Attempt(st, SdkCall(cmd), Before(cmd), fault, true, Done(cmd))
  }

  /** The result of one pass of the loop: the new state, and whether `main` returned. */
  datatype StepResult = StepResult(state: ConsoleState, quit: bool)

  /** What the console does with a dispatched action, once the prompt is printed. */
  function Respond(st: ConsoleState, action: Action, fault: Option<string>): StepResult
  {
    match action
    case Quit => StepResult(st, true)
    case Help => StepResult(st.(output := st.output + [CommandList]), false)
    case Unknown => StepResult(st.(output := st.output + [UnknownCommand, CommandList]), false)
    case Invalid(usage) => StepResult(st.(output := st.output + [Complaint(usage)]), false)
    case Run(cmd) => StepResult(Exec(st, cmd, fault), false)
  }

  /** One pass of `main`'s loop once the line is dispatched: the prompt, then the response. */
  function Turn(st: ConsoleState, action: Action, fault: Option<string>): StepResult
  {
    Respond(st.(output := st.output + [Prompt]), action, fault)
  }

  /** One pass of `main`'s loop over a typed line. */
  function Step(st: ConsoleState, input: string, fault: Option<string>, isFloat: string -> bool): StepResult
  {
    Turn(st, Dispatch(input, isFloat), fault)
  }

  /** A pass of the loop ends the session exactly when the line dispatches to `quit`. */
  lemma TurnQuits(st: ConsoleState, action: Action, fault: Option<string>)
    ensures Turn(st, action, fault).quit <==> action == Quit
  {
  }

  /** A line typed at the prompt, with the fault its SDK call raises, if any. */
  datatype Line = Line(text: string, fault: Option<string>)

  /** A typed line once dispatched: its action, and the fault its SDK call raises, if any. */
  datatype Entry = Entry(action: Action, fault: Option<string>)

  /** The typed lines, each dispatched. */
  function Entries(lines: seq<Line>, isFloat: string -> bool): (es: seq<Entry>)
    ensures |es| == |lines|
    ensures forall k :: 0 <= k < |es| ==> es[k] == Entry(Dispatch(lines[k].text, isFloat), lines[k].fault)
    decreases |lines|
  {
    if lines == [] then [] else [Entry(Dispatch(lines[0].text, isFloat), lines[0].fault)] + Entries(lines[1..], isFloat)
  }

  /** The state after the session, and how many lines it read. */
  datatype Outcome = Outcome(state: ConsoleState, consumed: nat)

  /** The outcome of a session that began `k` lines earlier. */
  function Later(o: Outcome, k: nat): (r: Outcome)
    ensures r.state == o.state && r.consumed == o.consumed + k
  {
    Outcome(o.state, o.consumed + k)
  }

  /** `main`'s loop over the dispatched lines: it returns at `quit`, or when the lines run out. */
  function Replay(st: ConsoleState, es: seq<Entry>): Outcome
    decreases |es|
  {
    if es == [] then Outcome(st, 0)
    else
      var r := Turn(st, es[0].action, es[0].fault);
      if r.quit then Outcome(r.state, 1) else Later(Replay(r.state, es[1..]), 1)
  }

  /** `main`'s loop over the lines typed. */
  function Session(st: ConsoleState, lines: seq<Line>, isFloat: string -> bool): Outcome
  {
    Replay(st, Entries(lines, isFloat))
  }

  /**
   * One pass of `main`'s loop over line `i` keeps the loop's account of the
   * session: the outcome still owed is the replay from the next line on,
   * or, once the line quits, the state reached.
   */
  lemma ReplayStep(goal: Outcome, st: ConsoleState, st': ConsoleState, quit: bool, es: seq<Entry>, i: nat)
    requires i < |es|
    requires goal == Later(Replay(st, es[i..]), i)
    requires StepResult(st', quit) == Turn(st, es[i].action, es[i].fault)
    ensures quit ==> goal == Outcome(st', i + 1)
    ensures !quit ==> goal == Later(Replay(st', es[i + 1..]), i + 1)
  {
    assert es[i..][0] == es[i] && es[i..][1..] == es[i + 1..];
  }

  // ---------------------------------------------------------------------
  // The console with its controller reference
  // ---------------------------------------------------------------------

  /** The handle to a connected controller. */
  class Controller {
    constructor ()
    {
    }
  }

  /** The console's globals: the controller reference, the SDK calls made, the messages printed. */
  class ConsoleApp {
    var controller: Controller?
    var calls: seq<Call>
    var output: seq<Message>

    function State(): ConsoleState
      reads this
    {
      ConsoleState(controller != null, calls, output)
    }

    /** The console starts without a controller. */
    constructor ()
      ensures State() == ConsoleState(false, [], [])
    {
      controller := null;
      calls := [];
      output := [];
    }

    /** `connect_to_controller`. */
    method ConnectToController(fault: Option<string>)
      modifies this
      ensures State() == Exec(old(State()), Connect, fault)
    {
      if controller != null {
        output := output + [AlreadyConnected];
        return;
      }
      calls := calls + [ConnectCall];
      if fault.Some? {
        output := output + [Unexpected(fault.value)];
        return;
      }
      controller := new Controller();
      output := output + [Connected];
    }

    /** `disconnect_from_controller`: a successful disconnect drops the reference. */
    method DisconnectFromController(fault: Option<string>)
      modifies this
      ensures State() == Exec(old(State()), Disconnect, fault)
      ensures old(controller) != null && fault.None? ==> controller == null
    {
      if controller == null {
        output := output + [AlreadyDisconnected];
        return;
      }
      calls := calls + [DisconnectCall];
      if fault.Some? {
        output := output + [Unexpected(fault.value)];
        return;
      }
      controller := null;
      output := output + [Disconnected];
    }

    /**
     * The operation functions (`start_controller`, `enable_axis`, ...,
     * `show_axis_parameters`): the guard, then the SDK call and its messages.
     */
    method Operate(cmd: Command, fault: Option<string>)
      requires Guarded(cmd)
      modifies this
      ensures State() == Exec(old(State()), cmd, fault)
      ensures controller == old(controller)
    {
      if controller == null {
        output := output + [NotConnected(cmd)];
        return;
      }
      output := output + Before(cmd);
      calls := calls + [SdkCall(cmd)];
      if fault.Some? {
        output := output + [Unexpected(fault.value)];
        return;
      }
      output := output + [Done(cmd)];
    }

    /** Carries out a dispatched action; `quit` says that `main` returns. */
    method Carry(action: Action, fault: Option<string>) returns (quit: bool)
      modifies this
      ensures StepResult(State(), quit) == Respond(old(State()), action, fault)
    {
      quit := false;
      match action
      case Quit =>
        quit := true;
      case Help =>
        output := output + [CommandList];
      case Unknown =>
        output := output + [UnknownCommand];
        output := output + [CommandList];
      case Invalid(usage) =>
        output := output + [Complaint(usage)];
      case Run(cmd) =>
        if cmd.Connect? {
          ConnectToController(fault);
        } else if cmd.Disconnect? {
          DisconnectFromController(fault);
        } else {
          Operate(cmd, fault);
        }
    }

    /** The body of `main`'s loop for one typed line; `quit` says that `main` returns. */
    method HandleLine(input: string, fault: Option<string>, isFloat: string -> bool) returns (quit: bool)
      modifies this
      ensures StepResult(State(), quit) == Step(old(State()), input, fault, isFloat)
    {
      output := output + [Prompt];
      var action := Dispatch(input, isFloat);
      quit := Carry(action, fault);
    }

    /** `main`: reads lines until `quit`, or until there are none left. */
    method RunSession(lines: seq<Line>, isFloat: string -> bool) returns (consumed: nat)
      modifies this
      ensures Outcome(State(), consumed) == Session(old(State()), lines, isFloat)
    {
      var i := 0;
      ghost var es := Entries(lines, isFloat);
      ghost var goal := Replay(State(), es);
      assert es[0..] == es;
      while i < |lines|
        invariant 0 <= i <= |lines|
        invariant goal == Later(Replay(State(), es[i..]), i)
      {
        ghost var before := State();
        var quit := HandleLine(lines[i].text, lines[i].fault, isFloat);
        ReplayStep(goal, before, State(), quit, es, i);
        i := i + 1;
        if quit {
          return i;
        }
      }
      assert es[i..] == [];
      return i;
    }
  }

  // ---------------------------------------------------------------------
  // Properties of the connection guard
  // ---------------------------------------------------------------------

  /**
   * An SDK call is made exactly when the connection allows it: connect only
   * without a controller, everything else only with one.  At most one call
   * is made, and the call log and the output only grow.
   */
  lemma CallOnlyWhenAllowed(st: ConsoleState, cmd: Command, fault: Option<string>)
    ensures var r := Exec(st, cmd, fault);
      && st.calls <= r.calls
      && st.output < r.output
      && |r.calls| <= |st.calls| + 1
      && (|r.calls| == |st.calls| + 1 <==> (if cmd.Connect? then !st.connected else st.connected))
  {
  }

  /** Without a controller a guarded command makes no call and prints only its guard message. */
  lemma GuardBlocks(st: ConsoleState, cmd: Command, fault: Option<string>)
    requires !st.connected && Guarded(cmd)
    ensures var r := Exec(st, cmd, fault);
      && r.calls == st.calls && !r.connected
      && r.output == st.output + [NotConnected(cmd)]
      && Lines(NotConnected(cmd)) == [GuardText(cmd)]
  {
  }

  /** The connection changes only by a connect or a disconnect whose SDK call succeeds. */
  lemma ConnectionChanges(st: ConsoleState, cmd: Command, fault: Option<string>)
    ensures Exec(st, cmd, fault).connected != st.connected
            <==> fault.None? && ((cmd.Connect? && !st.connected) || (cmd.Disconnect? && st.connected))
  {
  }

  /** Connecting twice is harmless: the second connect makes no call and says so. */
  lemma ConnectTwice(st: ConsoleState, f1: Option<string>, f2: Option<string>)
    requires f1.None?
    ensures var s1 := Exec(st, Connect, f1);
      var s2 := Exec(s1, Connect, f2);
      s1.connected && s2.connected && s2.calls == s1.calls
      && s2.output == s1.output + [AlreadyConnected]
  {
  }

  /** After a successful disconnect every guarded command is refused until the next connect. */
  lemma DisconnectThenGuarded(st: ConsoleState, cmd: Command, fault: Option<string>)
    requires st.connected && Guarded(cmd)
    ensures var s1 := Exec(st, Disconnect, None);
      var s2 := Exec(s1, cmd, fault);
      !s2.connected && s2.calls == st.calls + [DisconnectCall]
      && s2.output == st.output + [Disconnected, NotConnected(cmd)]
  {
  }

  // ---------------------------------------------------------------------
  // Properties of the session
  // ---------------------------------------------------------------------

  /** An unknown command word prints the prompt, "Unknown Command" and the command list, and nothing else happens. */
  lemma UnknownPrintsHelp(st: ConsoleState, input: string, fault: Option<string>, isFloat: string -> bool)
    requires Dispatch(input, isFloat) == Unknown
    ensures Step(st, input, fault, isFloat) == StepResult(st.(output := st.output + [Prompt, UnknownCommand, CommandList]), false)
  {
  }

  /**
   * A line whose arguments are missing or malformed prints the prompt and
   * that command's complaint, and nothing else happens: no SDK call, the
   * connection as it was, whether or not a controller is held.
   */
  lemma MalformedComplains(st: ConsoleState, input: string, fault: Option<string>, isFloat: string -> bool)
    requires Dispatch(input, isFloat).Invalid?
    ensures var keyword := KeywordOf(Lower(CommandTokens(input)[0]));
      && UsageFor(keyword) == Some(Dispatch(input, isFloat).usage)
      && !ArgumentsAccepted(keyword, CommandTokens(input)[1..], isFloat)
    ensures var usage := Dispatch(input, isFloat).usage;
      && Step(st, input, fault, isFloat) == StepResult(st.(output := st.output + [Prompt, Complaint(usage)]), false)
      && Transcript(Step(st, input, fault, isFloat).state.output)
         == Transcript(st.output + [Prompt]) + [UsageText(usage)]
  {
    var tokens := CommandTokens(input);
    ArgumentsChecked(KeywordOf(Lower(tokens[0])), tokens[1..], isFloat);
    ComplaintTurn(st, Dispatch(input, isFloat).usage, fault);
    ComplaintText(st.output + [Prompt], Dispatch(input, isFloat).usage);
    assert st.output + [Prompt] + [Complaint(Dispatch(input, isFloat).usage)]
        == st.output + [Prompt, Complaint(Dispatch(input, isFloat).usage)];
  }

  /** The response to refused arguments: the prompt, then the complaint. */
  lemma ComplaintTurn(st: ConsoleState, usage: Usage, fault: Option<string>)
    ensures Turn(st, Invalid(usage), fault) == StepResult(st.(output := st.output + [Prompt, Complaint(usage)]), false)
  {
    assert st.output + [Prompt] + [Complaint(usage)] == st.output + [Prompt, Complaint(usage)];
  }

  /** A complaint prints its one line. */
  lemma ComplaintText(out: seq<Message>, usage: Usage)
    ensures Transcript(out + [Complaint(usage)]) == Transcript(out) + [UsageText(usage)]
  {
    TranscriptSnoc(out, Complaint(usage));
  }

  /** The command list is the 18 lines `print_help` writes. */
  lemma CommandListText(out: seq<Message>)
    ensures Transcript(out + [Prompt, UnknownCommand, CommandList])
            == Transcript(out) + Lines(Prompt) + ["Unknown Command"] + HelpLines
    ensures |Lines(CommandList)| == 18 && Lines(CommandList)[0] == "Available commands:"
  {
    var out1 := out + [Prompt];
    var out2 := out1 + [UnknownCommand];
    TranscriptSnoc(out, Prompt);
    TranscriptSnoc(out1, UnknownCommand);
    TranscriptSnoc(out2, CommandList);
    assert out + [Prompt, UnknownCommand, CommandList] == out2 + [CommandList];
  }

  /** Without a controller, a line that does not connect leaves the console unconnected and makes no call. */
  lemma TurnWithoutConnect(st: ConsoleState, action: Action, fault: Option<string>)
    requires !st.connected && action != Run(Connect)
    ensures var r := Turn(st, action, fault);
      !r.state.connected && r.state.calls == st.calls && st.output < r.state.output
  {
    var st1 := st.(output := st.output + [Prompt]);
    match action
    case Run(cmd) =>
      assert Exec(st1, cmd, fault).calls == st.calls;
    case _ =>
  }

  /**
   * The replay reads up to and including the first `quit` and no further;
   * without a `quit` it reads every line.  Faults never end it.
   */
  lemma {:induction false} ReplayStopsAtQuit(st: ConsoleState, es: seq<Entry>)
    ensures var o := Replay(st, es);
      && o.consumed <= |es|
      && (es != [] ==> o.consumed >= 1)
      && (forall k :: 0 <= k < o.consumed - 1 ==> es[k].action != Quit)
      && (o.consumed < |es| ==> es[o.consumed - 1].action == Quit)
    decreases |es|
  {
    if es != [] {
      var r := Turn(st, es[0].action, es[0].fault);
      TurnQuits(st, es[0].action, es[0].fault);
      if !r.quit {
        ReplayStopsAtQuit(r.state, es[1..]);
        var rest := Replay(r.state, es[1..]);
        forall k | 0 <= k < rest.consumed
          ensures es[k].action != Quit
        {
          if k > 0 {
            assert es[k] == es[1..][k - 1];
          }
        }
        if rest.consumed + 1 < |es| {
          assert es[rest.consumed] == es[1..][rest.consumed - 1];
        }
      }
    }
  }

  /**
   * The session reads up to and including the first line that dispatches to
   * `quit` and no further; without a `quit` it reads every line.  Faults
   * never end it.
   */
  lemma SessionStopsAtQuit(st: ConsoleState, lines: seq<Line>, isFloat: string -> bool)
    ensures var o := Session(st, lines, isFloat);
      && o.consumed <= |lines|
      && (lines != [] ==> o.consumed >= 1)
      && (forall k :: 0 <= k < o.consumed - 1 ==> Dispatch(lines[k].text, isFloat) != Quit)
      && (o.consumed < |lines| ==> Dispatch(lines[o.consumed - 1].text, isFloat) == Quit)
  {
    var es := Entries(lines, isFloat);
    ReplayStopsAtQuit(st, es);
    var o := Replay(st, es);
    forall k | 0 <= k < o.consumed - 1
      ensures Dispatch(lines[k].text, isFloat) != Quit
    {
    }
    if o.consumed < |lines| {
    }
  }

  /** A replay in which no line connects, begun without a controller, makes no SDK call at all. */
  lemma {:induction false} ReplayWithoutConnect(st: ConsoleState, es: seq<Entry>)
    requires !st.connected
    requires forall k :: 0 <= k < |es| ==> es[k].action != Run(Connect)
    ensures var o := Replay(st, es);
      !o.state.connected && o.state.calls == st.calls && st.output <= o.state.output
    decreases |es|
  {
    if es != [] {
      var r := Turn(st, es[0].action, es[0].fault);
      TurnWithoutConnect(st, es[0].action, es[0].fault);
      if !r.quit {
        forall k | 0 <= k < |es[1..]|
          ensures es[1..][k].action != Run(Connect)
        {
          assert es[1..][k] == es[k + 1];
        }
        ReplayWithoutConnect(r.state, es[1..]);
      }
    }
  }

  /** A session in which no line connects, begun without a controller, makes no SDK call at all. */
  lemma NoConnectNoCalls(st: ConsoleState, lines: seq<Line>, isFloat: string -> bool)
    requires !st.connected
    requires forall k :: 0 <= k < |lines| ==> Dispatch(lines[k].text, isFloat) != Run(Connect)
    ensures var o := Session(st, lines, isFloat);
      !o.state.connected && o.state.calls == st.calls && st.output <= o.state.output
  {
    var es := Entries(lines, isFloat);
    forall k | 0 <= k < |es|
      ensures es[k].action != Run(Connect)
    {
    }
    ReplayWithoutConnect(st, es);
  }
}
