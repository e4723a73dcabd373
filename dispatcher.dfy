/**
 * How the Automation1 console reads a typed line: it strips the line, splits
 * it at single spaces, lower-cases the first token to find the command and
 * checks the number and form of the remaining tokens.  `is_float` (Python's
 * float parser) is a parameter.
 */
module Dispatcher {
  import opened PyStr

  datatype Command =
    | Connect
    | Disconnect
    | Start
    | Stop
    | Enable(axis: string)
    | Disable(axis: string)
    | Home(axis: string)
    | Abort(axis: string)
    | AxisStatus(axis: string)
    | MoveLinear(axis: string, distance: string, speed: string)
    | RunProgram(path: string)
    | ProgramStatus
    | StopProgram
    | GetGlobalInteger(index: nat)
    | SetGlobalInteger(index: nat, value: nat)
    | ShowAxisParameters(axis: string)

  /** The commands whose arguments can be missing or malformed, each with its own complaint. */
  datatype Usage =
    | EnableUsage | DisableUsage | HomeUsage | AbortUsage | AxisStatusUsage
    | MoveLinearUsage | RunProgramUsage | GetGlobalUsage | SetGlobalUsage | ShowAxisParametersUsage

  /** What one input line asks for. */
  datatype Action = Help | Unknown | Quit | Invalid(usage: Usage) | Run(command: Command)

  /** The complaint printed for a line with the wrong arguments. */
  function UsageText(usage: Usage): string
  {
    match usage
    case EnableUsage => "Invalid command: you must specify an axis to enable"
    case DisableUsage => "Invalid command: you must specify an axis to disable"
    case HomeUsage => "Invalid command: you must specify an axis to home"
    case AbortUsage => "Invalid command: you must specify an axis to abort motion on"
    case AxisStatusUsage => "Invalid command: you must specify an axis to get status from"
    case MoveLinearUsage => "Invalid command: you must specify an axis, distance, and speed for the linear move"
    case RunProgramUsage => "Invalid command: you must specify the path to an AeroScript program to run"
    case GetGlobalUsage => "Invalid command: you must specify an index to get"
    case SetGlobalUsage => "Invalid command: you must specify an index and a new integer value to set"
    case ShowAxisParametersUsage => "Invalid command: you must specify an axis to show parameters for"
  }

  /** The tokens of an input line: stripped, then split at single spaces. */
  function CommandTokens(input: string): (tokens: seq<string>)
    ensures |tokens| >= 1
  {
    Split(Strip(input), ' ')
  }

  /** `main`'s dispatch of one line. */
  function Dispatch(input: string, isFloat: string -> bool): Action
  {
    DispatchTokens(CommandTokens(input), isFloat)
  }

  /** The command words `main` recognises. */
  datatype Keyword =
    | HelpWord | ConnectWord | DisconnectWord | StartWord | StopWord
    | EnableWord | DisableWord | HomeWord | AbortWord | AxisStatusWord
    | MoveLinearWord | RunProgramWord | ProgramStatusWord | StopProgramWord
    | GetGlobalWord | SetGlobalWord | ShowAxisParametersWord | QuitWord
    | OtherWord

  /** Which command a lower-cased command word names; the empty word asks for help. */
  function KeywordOf(command: string): Keyword
  {
    if command == "" || command == "help" then HelpWord
    else if command == "connect" then ConnectWord
    else if command == "disconnect" then DisconnectWord
    else if command == "start" then StartWord
    else if command == "stop" then StopWord
    else if command == "enable" then EnableWord
    else if command == "disable" then DisableWord
    else if command == "home" then HomeWord
    else if command == "abort" then AbortWord
    else if command == "axisstatus" then AxisStatusWord
    else if command == "movelinear" then MoveLinearWord
    else if command == "runprogram" then RunProgramWord
    else if command == "programstatus" then ProgramStatusWord
    else if command == "stopprogram" then StopProgramWord
    else if command == "getglobalinteger" then GetGlobalWord
    else if command == "setglobalinteger" then SetGlobalWord
    else if command == "showaxisparameters" then ShowAxisParametersWord
    else if command == "quit" then QuitWord
    else OtherWord
  }

  /**
   * The command word, lower-cased, picks the command; the remaining tokens
   * are its arguments, whose number and form are checked.
   */
  function DispatchTokens(tokens: seq<string>, isFloat: string -> bool): Action
    requires |tokens| >= 1
  {
    Select(KeywordOf(Lower(tokens[0])), tokens[1..], isFloat)
  }

  /** The action a command word and its arguments ask for. */
  function Select(keyword: Keyword, args: seq<string>, isFloat: string -> bool): Action
  {
    match keyword
    case HelpWord => Help
    case ConnectWord => Run(Connect)
    case DisconnectWord => Run(Disconnect)
    case StartWord => Run(Start)
    case StopWord => Run(Stop)
    case EnableWord => if |args| == 1 then Run(Enable(args[0])) else Invalid(EnableUsage)
    case DisableWord => if |args| == 1 then Run(Disable(args[0])) else Invalid(DisableUsage)
    case HomeWord => if |args| == 1 then Run(Home(args[0])) else Invalid(HomeUsage)
    case AbortWord => if |args| == 1 then Run(Abort(args[0])) else Invalid(AbortUsage)
    case AxisStatusWord => if |args| == 1 then Run(AxisStatus(args[0])) else Invalid(AxisStatusUsage)
    case MoveLinearWord =>
      if |args| == 3 && isFloat(args[1]) && isFloat(args[2]) then Run(MoveLinear(args[0], args[1], args[2]))
      else Invalid(MoveLinearUsage)
    case RunProgramWord => if |args| == 1 then Run(RunProgram(args[0])) else Invalid(RunProgramUsage)
    case ProgramStatusWord => Run(ProgramStatus)
    case StopProgramWord => Run(StopProgram)
    case GetGlobalWord =>
      if |args| == 1 && IsNumeric(args[0]) then Run(GetGlobalInteger(DigitsValue(args[0])))
      else Invalid(GetGlobalUsage)
    case SetGlobalWord =>
      if |args| == 2 && IsNumeric(args[0]) && IsNumeric(args[1]) then
        Run(SetGlobalInteger(DigitsValue(args[0]), DigitsValue(args[1])))
      else Invalid(SetGlobalUsage)
    case ShowAxisParametersWord =>
      if |args| == 1 then Run(ShowAxisParameters(args[0])) else Invalid(ShowAxisParametersUsage)
    case QuitWord => Quit
    case OtherWord => Unknown
  }

  /** The keyword of each command. */
  function KeywordFor(cmd: Command): Keyword
  {
    match cmd
    case Connect => ConnectWord
    case Disconnect => DisconnectWord
    case Start => StartWord
    case Stop => StopWord
    case Enable(_) => EnableWord
    case Disable(_) => DisableWord
    case Home(_) => HomeWord
    case Abort(_) => AbortWord
    case AxisStatus(_) => AxisStatusWord
    case MoveLinear(_, _, _) => MoveLinearWord
    case RunProgram(_) => RunProgramWord
    case ProgramStatus => ProgramStatusWord
    case StopProgram => StopProgramWord
    case GetGlobalInteger(_) => GetGlobalWord
    case SetGlobalInteger(_, _) => SetGlobalWord
    case ShowAxisParameters(_) => ShowAxisParametersWord
  }

  /** How each keyword is spelt, in lower case. */
  function Spelling(keyword: Keyword): string
  {
    match keyword
    case HelpWord => "help"
    case ConnectWord => "connect"
    case DisconnectWord => "disconnect"
    case StartWord => "start"
    case StopWord => "stop"
    case EnableWord => "enable"
    case DisableWord => "disable"
    case HomeWord => "home"
    case AbortWord => "abort"
    case AxisStatusWord => "axisstatus"
    case MoveLinearWord => "movelinear"
    case RunProgramWord => "runprogram"
    case ProgramStatusWord => "programstatus"
    case StopProgramWord => "stopprogram"
    case GetGlobalWord => "getglobalinteger"
    case SetGlobalWord => "setglobalinteger"
    case ShowAxisParametersWord => "showaxisparameters"
    case QuitWord => "quit"
    case OtherWord => ""
  }

  /** The command word that selects `cmd`. */
  function Name(cmd: Command): string
  {
    Spelling(KeywordFor(cmd))
  }

  /** The arguments a user types for `cmd`. */
  function Arguments(cmd: Command): seq<string>
  {
    match cmd
    case Enable(a) => [a]
    case Disable(a) => [a]
    case Home(a) => [a]
    case Abort(a) => [a]
    case AxisStatus(a) => [a]
    case MoveLinear(a, d, s) => [a, d, s]
    case RunProgram(p) => [p]
    case GetGlobalInteger(i) => [NatToString(i)]
    case SetGlobalInteger(i, v) => [NatToString(i), NatToString(v)]
    case ShowAxisParameters(a) => [a]
    case _ => []
  }

  /** A line a user could type for `cmd`. */
  function Render(cmd: Command): string
  {
    Join([Name(cmd)] + Arguments(cmd), ' ')
  }

  /** A non-empty argument with no whitespace in it. */
  predicate Word(w: string) {
    w != [] && forall i :: 0 <= i < |w| ==> !IsSpace(w[i])
  }

  /** The commands a single line can express: every argument is one word, distances and speeds parse. */
  predicate Typeable(cmd: Command, isFloat: string -> bool) {
    (forall w :: w in Arguments(cmd) ==> Word(w))
    && (cmd.MoveLinear? ==> isFloat(cmd.distance) && isFloat(cmd.speed))
  }

  // ---------------------------------------------------------------------
  // Properties of the dispatcher
  // ---------------------------------------------------------------------

  /** The keywords that ask for help or act on the controller as a whole. */
  predicate ControllerKeyword(keyword: Keyword) {
    keyword.HelpWord? || keyword.ConnectWord? || keyword.DisconnectWord? || keyword.StartWord? || keyword.StopWord?
  }

  /** The keywords of the single-axis commands. */
  predicate AxisKeyword(keyword: Keyword) {
    keyword.EnableWord? || keyword.DisableWord? || keyword.HomeWord? || keyword.AbortWord? || keyword.AxisStatusWord? || keyword.MoveLinearWord?
  }

  /** The keywords of the program and global-variable commands, and `quit`. */
  predicate ProgramKeyword(keyword: Keyword) {
    keyword.RunProgramWord? || keyword.ProgramStatusWord? || keyword.StopProgramWord? || keyword.GetGlobalWord? || keyword.SetGlobalWord? || keyword.ShowAxisParametersWord? || keyword.QuitWord?
  }

  lemma ControllerKeywordSelects(keyword: Keyword)
    requires ControllerKeyword(keyword)
    ensures KeywordOf(Spelling(keyword)) == keyword
  {
    match keyword
    case HelpWord =>
    case ConnectWord =>
    case DisconnectWord =>
    case StartWord =>
    case StopWord =>
  }

  lemma AxisKeywordSelects(keyword: Keyword)
    requires AxisKeyword(keyword)
    ensures KeywordOf(Spelling(keyword)) == keyword
  {
    match keyword
    case EnableWord =>
    case DisableWord =>
    case HomeWord =>
    case AbortWord =>
    case AxisStatusWord =>
    case MoveLinearWord =>
  }

  lemma ProgramKeywordSelects(keyword: Keyword)
    requires ProgramKeyword(keyword)
    ensures KeywordOf(Spelling(keyword)) == keyword
  {
    match keyword
    case RunProgramWord =>
    case ProgramStatusWord =>
    case StopProgramWord =>
    case GetGlobalWord =>
    case SetGlobalWord =>
    case ShowAxisParametersWord =>
    case QuitWord =>
  }

  /** Every keyword's spelling selects that keyword. */
  lemma SpellingSelects(keyword: Keyword)
    requires keyword != OtherWord
    ensures KeywordOf(Spelling(keyword)) == keyword
  {
    if ControllerKeyword(keyword) {
      ControllerKeywordSelects(keyword);
    } else if AxisKeyword(keyword) {
      AxisKeywordSelects(keyword);
    } else {
      ProgramKeywordSelects(keyword);
    }
  }

  /** A recognised command word is a keyword's spelling, or empty. */
  lemma KeywordSpelt(command: string)
    ensures KeywordOf(command) != OtherWord ==> command == Spelling(KeywordOf(command)) || command == ""
  {
    var keyword := KeywordOf(command);
    if keyword != OtherWord && command != "" {
      assert command == Spelling(keyword);
    }
  }

  /** The command word is matched without regard to case. */
  lemma DispatchIgnoresCase(word: string, args: seq<string>, isFloat: string -> bool)
    ensures DispatchTokens([word] + args, isFloat) == DispatchTokens([Lower(word)] + args, isFloat)
  {
    LowerIdempotent(word);
    assert ([word] + args)[1..] == args == ([Lower(word)] + args)[1..];
  }

  /** A command's keyword and arguments select it back. */
  lemma SelectArguments(cmd: Command, isFloat: string -> bool)
    requires cmd.MoveLinear? ==> isFloat(cmd.distance) && isFloat(cmd.speed)
    ensures Select(KeywordFor(cmd), Arguments(cmd), isFloat) == Run(cmd)
  {
    if cmd.GetGlobalInteger? || cmd.SetGlobalInteger? {
      SelectIndices(cmd, isFloat);
    }
  }

  /** The global-integer commands read back the index and value they were typed with. */
  lemma SelectIndices(cmd: Command, isFloat: string -> bool)
    requires cmd.GetGlobalInteger? || cmd.SetGlobalInteger?
    ensures Select(KeywordFor(cmd), Arguments(cmd), isFloat) == Run(cmd)
  {
    NatToStringRoundTrip(cmd.index);
    if cmd.SetGlobalInteger? {
      NatToStringRoundTrip(cmd.value);
    }
  }

  /**
   * A command selected from a keyword has that keyword; a command that takes
   * arguments was given exactly its own, while one that takes none ignores
   * whatever follows it.
   */
  lemma SelectShape(keyword: Keyword, args: seq<string>, isFloat: string -> bool, cmd: Command)
    requires Select(keyword, args, isFloat) == Run(cmd)
    ensures KeywordFor(cmd) == keyword
    ensures Arguments(cmd) != [] ==> |args| == |Arguments(cmd)|
    ensures !cmd.GetGlobalInteger? && !cmd.SetGlobalInteger? && Arguments(cmd) != [] ==> args == Arguments(cmd)
    ensures cmd.MoveLinear? ==> |args| == 3 && isFloat(args[1]) && isFloat(args[2])
    ensures cmd.GetGlobalInteger? ==> |args| == 1 && IsNumeric(args[0]) && cmd.index == DigitsValue(args[0])
    ensures cmd.SetGlobalInteger? ==>
      && |args| == 2 && IsNumeric(args[0]) && IsNumeric(args[1])
      && cmd.index == DigitsValue(args[0]) && cmd.value == DigitsValue(args[1])
  {
  }

  /** The complaint of a command word that takes arguments; the others take none. */
  function UsageFor(keyword: Keyword): Option<Usage>
  {
    match keyword
    case EnableWord => Some(EnableUsage)
    case DisableWord => Some(DisableUsage)
    case HomeWord => Some(HomeUsage)
    case AbortWord => Some(AbortUsage)
    case AxisStatusWord => Some(AxisStatusUsage)
    case MoveLinearWord => Some(MoveLinearUsage)
    case RunProgramWord => Some(RunProgramUsage)
    case GetGlobalWord => Some(GetGlobalUsage)
    case SetGlobalWord => Some(SetGlobalUsage)
    case ShowAxisParametersWord => Some(ShowAxisParametersUsage)
    case _ => None
  }

  /** How many arguments a command word takes. */
  function Arity(keyword: Keyword): nat
  {
    match keyword
    case MoveLinearWord => 3
    case SetGlobalWord => 2
    case _ => if UsageFor(keyword).Some? then 1 else 0
  }

  /**
   * Arguments a command word accepts: exactly its number of them, a distance
   * and speed `is_float` accepts for a linear move, and only decimal digits
   * for a global-integer index or value.
   */
  predicate ArgumentsAccepted(keyword: Keyword, args: seq<string>, isFloat: string -> bool)
  {
    && |args| == Arity(keyword)
    && (keyword == MoveLinearWord ==> isFloat(args[1]) && isFloat(args[2]))
    && (keyword == GetGlobalWord || keyword == SetGlobalWord ==>
          forall i :: 0 <= i < |args| ==> IsNumeric(args[i]))
  }

  /**
   * A line is refused with a complaint exactly when its command word takes
   * arguments and was given the wrong number or a malformed one; the
   * complaint is that command's own.
   */
  lemma ArgumentsChecked(keyword: Keyword, args: seq<string>, isFloat: string -> bool)
    ensures Select(keyword, args, isFloat).Invalid?
      <==> UsageFor(keyword).Some? && !ArgumentsAccepted(keyword, args, isFloat)
    ensures Select(keyword, args, isFloat).Invalid? ==>
      Select(keyword, args, isFloat).usage == UsageFor(keyword).value
  {
    if keyword == SetGlobalWord && |args| == 2 {
      assert (forall i :: 0 <= i < |args| ==> IsNumeric(args[i])) <==> IsNumeric(args[0]) && IsNumeric(args[1]);
    }
  }

  /** Some refused lines: a signed global value, a missing axis, a linear move without a speed. */
  lemma ArgumentsRefused(isFloat: string -> bool)
    ensures Select(SetGlobalWord, ["1", "-5"], isFloat) == Invalid(SetGlobalUsage)
    ensures Select(GetGlobalWord, ["+5"], isFloat) == Invalid(GetGlobalUsage)
    ensures Select(EnableWord, [], isFloat) == Invalid(EnableUsage)
    ensures Select(EnableWord, ["X", "Y"], isFloat) == Invalid(EnableUsage)
    ensures Select(MoveLinearWord, ["X", "10"], isFloat) == Invalid(MoveLinearUsage)
  {
    assert !IsDigit("-5"[0]);
    assert !IsDigit("+5"[0]);
  }

  /** A non-empty run of lower-case ASCII letters. */
  predicate LowerWord(s: string) {
    |s| > 0 && forall i :: 0 <= i < |s| ==> 'a' <= s[i] <= 'z'
  }

  lemma ControllerKeywordLetters(keyword: Keyword)
    requires ControllerKeyword(keyword)
    ensures LowerWord(Spelling(keyword))
  {
    match keyword
    case HelpWord => assert LowerWord("help");
    case ConnectWord => assert LowerWord("connect");
    case DisconnectWord => assert LowerWord("disconnect");
    case StartWord => assert LowerWord("start");
    case StopWord => assert LowerWord("stop");
  }

  lemma AxisKeywordLetters(keyword: Keyword)
    requires AxisKeyword(keyword)
    ensures LowerWord(Spelling(keyword))
  {
    match keyword
    case EnableWord => assert LowerWord("enable");
    case DisableWord => assert LowerWord("disable");
    case HomeWord => assert LowerWord("home");
    case AbortWord => assert LowerWord("abort");
    case AxisStatusWord => assert LowerWord("axisstatus");
    case MoveLinearWord => assert LowerWord("movelinear");
  }

  lemma ProgramKeywordLetters(keyword: Keyword)
    requires ProgramKeyword(keyword)
    ensures LowerWord(Spelling(keyword))
  {
    match keyword
    case RunProgramWord => assert LowerWord("runprogram");
    case ProgramStatusWord => assert LowerWord("programstatus");
    case StopProgramWord => assert LowerWord("stopprogram");
    case GetGlobalWord => assert LowerWord("getglobalinteger");
    case SetGlobalWord => assert LowerWord("setglobalinteger");
    case ShowAxisParametersWord => assert LowerWord("showaxisparameters");
    case QuitWord => assert LowerWord("quit");
  }

  /** Every keyword but the unrecognised one is spelt in lower-case letters. */
  lemma SpellingLetters(keyword: Keyword)
    requires keyword != OtherWord
    ensures LowerWord(Spelling(keyword))
  {
    if ControllerKeyword(keyword) {
      ControllerKeywordLetters(keyword);
    } else if AxisKeyword(keyword) {
      AxisKeywordLetters(keyword);
    } else {
      ProgramKeywordLetters(keyword);
    }
  }

  /** Command names are non-empty runs of lower-case letters. */
  lemma NameLetters(cmd: Command)
    ensures LowerWord(Name(cmd))
  {
    SpellingLetters(KeywordFor(cmd));
  }

  /** A word has no space in it and starts and ends with a non-space character. */
  lemma WordEnds(w: string)
    requires Word(w)
    ensures ' ' !in w && !IsSpace(w[0]) && !IsSpace(w[|w| - 1])
  {
    forall k | 0 <= k < |w|
      ensures w[k] != ' '
    {
      assert !IsSpace(w[k]);
    }
  }

  /** A typeable command's line splits back into its name and its arguments. */
  lemma TokensOfRender(cmd: Command, isFloat: string -> bool)
    requires Typeable(cmd, isFloat)
    ensures CommandTokens(Render(cmd)) == [Name(cmd)] + Arguments(cmd)
  {
    var words := [Name(cmd)] + Arguments(cmd);
    NameLetters(cmd);
    forall i | 0 <= i < |words|
      ensures words[i] != [] && ' ' !in words[i] && !IsSpace(words[i][0]) && !IsSpace(words[i][|words[i]| - 1])
    {
      if i > 0 {
        assert words[i] in Arguments(cmd);
      }
      assert Word(words[i]);
      WordEnds(words[i]);
    }
    JoinEnds(words, ' ');
    assert Strip(Render(cmd)) == Render(cmd);
    SplitJoin(words, ' ');
  }

  /** Typing a command's name and its arguments, separated by single spaces, runs that command. */
  lemma RenderDispatches(cmd: Command, isFloat: string -> bool)
    requires Typeable(cmd, isFloat)
    ensures Dispatch(Render(cmd), isFloat) == Run(cmd)
  {
    var tokens := CommandTokens(Render(cmd));
    TokensOfRender(cmd, isFloat);
    assert tokens[0] == Name(cmd) && tokens[1..] == Arguments(cmd);
    NameLetters(cmd);
    LowerUnchanged(Name(cmd));
    SpellingSelects(KeywordFor(cmd));
    SelectArguments(cmd, isFloat);
  }

  /**
   * A line that runs a command starts with that command's name, in any case;
   * a command with arguments was typed with exactly their number.
   */
  lemma DispatchedShape(input: string, isFloat: string -> bool, cmd: Command)
    requires Dispatch(input, isFloat) == Run(cmd)
    ensures Lower(CommandTokens(input)[0]) == Name(cmd)
    ensures Arguments(cmd) != [] ==> |CommandTokens(input)| == 1 + |Arguments(cmd)|
  {
    var tokens := CommandTokens(input);
    SelectShape(KeywordOf(Lower(tokens[0])), tokens[1..], isFloat, cmd);
    KeywordSpelt(Lower(tokens[0]));
  }

  /** Only the keyword `quit` selects Quit, and only the help keyword selects Help. */
  lemma SelectQuitHelp(keyword: Keyword, args: seq<string>, isFloat: string -> bool)
    ensures Select(keyword, args, isFloat) == Quit <==> keyword == QuitWord
    ensures Select(keyword, args, isFloat) == Help <==> keyword == HelpWord
  {
  }

  /** The command words that end the session or ask for help. */
  lemma KeywordQuitHelp(command: string)
    ensures KeywordOf(command) == QuitWord <==> command == "quit"
    ensures KeywordOf(command) == HelpWord <==> command == "" || command == "help"
  {
    KeywordSpelt(command);
    SpellingSelects(QuitWord);
    SpellingSelects(HelpWord);
  }

  /** Only `quit`, in any case, ends the session. */
  lemma QuitExactly(input: string, isFloat: string -> bool)
    ensures Dispatch(input, isFloat) == Quit <==> Lower(CommandTokens(input)[0]) == "quit"
  {
    var tokens := CommandTokens(input);
    SelectQuitHelp(KeywordOf(Lower(tokens[0])), tokens[1..], isFloat);
    KeywordQuitHelp(Lower(tokens[0]));
  }

  /** An empty line or `help`, in any case, prints the command list. */
  lemma HelpExactly(input: string, isFloat: string -> bool)
    ensures Dispatch(input, isFloat) == Help <==> Lower(CommandTokens(input)[0]) == "" || Lower(CommandTokens(input)[0]) == "help"
  {
    var tokens := CommandTokens(input);
    SelectQuitHelp(KeywordOf(Lower(tokens[0])), tokens[1..], isFloat);
    KeywordQuitHelp(Lower(tokens[0]));
  }
}
