/**
 * The Terminal widget: a scrollback of lines and an input buffer.
 * A change event replaces the buffer; pressing Enter trims it and, when
 * something is left, appends the command line and its resolved output.
 */
module TerminalWidget {
  import opened Wrappers
  import opened ClassNames
  import opened Whitespace

  /** The optional `type` of a line: `'command' | 'output'`. */
  datatype LineType = Command | Output

  /** A `TerminalLine`: its text and an optional role (`None` when `type` is not given). */
  datatype Line = Line(text: string, kind: Option<LineType>)

  /** A response: a single string or an array of strings (`string | string[]`). */
  datatype Response = Text(s: string) | Lines(ss: seq<string>)

  /** The `onCommand` callback; `None` stands for a call that returned `undefined`. */
  type Resolver = string -> Option<Response>

  /** The session configuration fixed at mount time. */
  datatype Config = Config(prompt: string, commands: map<string, Response>, onCommand: Option<Resolver>)

  /** The props a host passes; `None` is an absent prop. */
  datatype TerminalProps = TerminalProps(
    lines: Option<seq<Line>>,
    prompt: Option<string>,
    commands: Option<map<string, Response>>,
    onCommand: Option<Resolver>,
    className: Option<string>)

  /** The widget's local state. */
  datatype State = State(lines: seq<Line>, value: string)

  /** The two input events: a change of the field's text, and a key press. */
  datatype Event = Change(text: string) | KeyDown(key: string)

  const EnterKey: string := "Enter"

  /** Props with their destructuring defaults applied. */
  function ConfigOf(props: TerminalProps): (cfg: Config)
    ensures props.prompt.None? ==> cfg.prompt == "$"
    ensures props.commands.None? ==> cfg.commands == map[]
    ensures props.prompt.Some? ==> cfg.prompt == props.prompt.value
    ensures props.commands.Some? ==> cfg.commands == props.commands.value
    ensures cfg.onCommand == props.onCommand
  {
    Config(props.prompt.GetOr("$"), props.commands.GetOr(map[]), props.onCommand)
  }

  function UnknownCommand(cmd: string): string {
    "Unknown command: " + cmd
  }

  /**
   * The output for a submitted command. The table is read and the callback is
   * called; the callback's result replaces the table's only when the table has
   * no entry and the result is defined; with neither, the fallback line.
   */
  function Resolve(cfg: Config, cmd: string): (r: Response)
    ensures cmd in cfg.commands ==> r == cfg.commands[cmd]
    ensures cmd !in cfg.commands && cfg.onCommand.Some? && cfg.onCommand.value(cmd).Some? ==>
              r == cfg.onCommand.value(cmd).value
    ensures cmd !in cfg.commands && (cfg.onCommand.None? || cfg.onCommand.value(cmd).None?) ==>
              r == Text(UnknownCommand(cmd))
  {
    var output := if cmd in cfg.commands then Some(cfg.commands[cmd]) else None;
    var result := if cfg.onCommand.Some? then cfg.onCommand.value(cmd) else None;
    var output' := if output.None? && result.Some? then result else output;
    output'.GetOr(Text(UnknownCommand(cmd)))
  }

  /** The strings a response prints, one per output line. */
  function Texts(r: Response): (ts: seq<string>)
    ensures r.Text? ==> |ts| == 1 && ts[0] == r.s
    ensures r.Lines? ==> ts == r.ss
  {
    match r
    case Text(s) => [s]
    case Lines(ss) => ss
  }

  /** One `output` line per text, in order. */
  function OutputLines(ts: seq<string>): (ls: seq<Line>)
    ensures |ls| == |ts|
    ensures forall i :: 0 <= i < |ls| ==> ls[i].text == ts[i] && ls[i].kind == Some(Output)
  {
    seq(|ts|, i requires 0 <= i < |ts| => Line(ts[i], Some(Output)))
  }

  /** The lines one submission of `cmd` appends: the command, then its output. */
  function Submission(cfg: Config, cmd: string): (ls: seq<Line>)
    ensures |ls| == 1 + |Texts(Resolve(cfg, cmd))|
    ensures ls[0] == Line(cmd, Some(Command))
    ensures forall i :: 1 <= i < |ls| ==>
              ls[i] == Line(Texts(Resolve(cfg, cmd))[i - 1], Some(Output))
  {
    [Line(cmd, Some(Command))] + OutputLines(Texts(Resolve(cfg, cmd)))
  }

  /** The state after one event; `handleChange` and `handleKeyDown` as a function. */
  function Step(cfg: Config, st: State, ev: Event): State {
    match ev
    case Change(text) => st.(value := text)
    case KeyDown(key) =>
      if key != EnterKey then st
      else
        var cmd := Trim(st.value);
        State(if cmd == "" then st.lines else st.lines + Submission(cfg, cmd), "")
  }

  /** The state after a series of events. */
  function Run(cfg: Config, st: State, evs: seq<Event>): State
    decreases |evs|
  {
    if evs == [] then st else Run(cfg, Step(cfg, st, evs[0]), evs[1..])
  }

  /** Whether pressing `key` on buffer `value` submits a command. */
  predicate Submits(key: string, value: string) {
    key == EnterKey && Trim(value) != ""
  }

  /**
   * One event: the old lines stay a prefix; the lines grow by exactly 1 + k on
   * a submission (k the number of response strings) and by nothing otherwise;
   * Enter always empties the buffer and other keys leave everything as it was.
   */
  lemma StepAppends(cfg: Config, st: State, ev: Event)
    ensures st.lines <= Step(cfg, st, ev).lines
    ensures ev.KeyDown? && Submits(ev.key, st.value) ==>
              var cmd := Trim(st.value);
              Step(cfg, st, ev).lines == st.lines + Submission(cfg, cmd)
              && |Step(cfg, st, ev).lines| == |st.lines| + 1 + |Texts(Resolve(cfg, cmd))|
    ensures !(ev.KeyDown? && Submits(ev.key, st.value)) ==> Step(cfg, st, ev).lines == st.lines
    ensures ev.KeyDown? && ev.key == EnterKey ==> Step(cfg, st, ev).value == ""
    ensures ev.KeyDown? && ev.key != EnterKey ==> Step(cfg, st, ev) == st
    ensures ev.Change? ==> Step(cfg, st, ev).value == ev.text
  {
  }

  /** Over any series of events the scrollback is append-only. */
  lemma {:induction false} RunAppendOnly(cfg: Config, st: State, evs: seq<Event>)
    ensures st.lines <= Run(cfg, st, evs).lines
    decreases |evs|
  {
    if evs != [] {
      var next := Step(cfg, st, evs[0]);
      StepAppends(cfg, st, evs[0]);
      RunAppendOnly(cfg, next, evs[1..]);
    }
  }

  /** The number of command lines in a scrollback. */
  function CountCommands(ls: seq<Line>): (n: nat)
    ensures n <= |ls|
  {
    if ls == [] then 0
    else (if ls[0].kind == Some(Command) then 1 else 0) + CountCommands(ls[1..])
  }

  lemma {:induction false} CountCommandsAppend(a: seq<Line>, b: seq<Line>)
    ensures CountCommands(a + b) == CountCommands(a) + CountCommands(b)
  {
    if a == [] {
      assert a + b == b;
    } else {
      assert (a + b)[1..] == a[1..] + b;
      CountCommandsAppend(a[1..], b);
    }
  }

  lemma {:induction false} OutputLinesNoCommand(ts: seq<string>)
    ensures CountCommands(OutputLines(ts)) == 0
  {
    if ts != [] {
      assert OutputLines(ts)[1..] == OutputLines(ts[1..]);
      OutputLinesNoCommand(ts[1..]);
    }
  }

  /** Each submission adds exactly one command line; nothing else adds any. */
  lemma StepCountsCommands(cfg: Config, st: State, ev: Event)
    ensures CountCommands(Step(cfg, st, ev).lines) ==
              CountCommands(st.lines) + (if ev.KeyDown? && Submits(ev.key, st.value) then 1 else 0)
  {
    if ev.KeyDown? && Submits(ev.key, st.value) {
      var cmd := Trim(st.value);
      var out := OutputLines(Texts(Resolve(cfg, cmd)));
      CountCommandsAppend(st.lines, Submission(cfg, cmd));
      CountCommandsAppend([Line(cmd, Some(Command))], out);
      OutputLinesNoCommand(Texts(Resolve(cfg, cmd)));
      assert CountCommands([Line(cmd, Some(Command))]) == 1;
    }
  }

  /** A table entry wins whatever the callback would have returned. */
  lemma LookupWins(cfg: Config, cmd: string, other: Option<Resolver>)
    requires cmd in cfg.commands
    ensures Submission(cfg, cmd) == Submission(cfg.(onCommand := other), cmd)
    ensures Submission(cfg, cmd) == [Line(cmd, Some(Command))] + OutputLines(Texts(cfg.commands[cmd]))
  {
  }

  /** With neither an entry nor a defined callback result, exactly one fallback line follows. */
  lemma FallbackFires(cfg: Config, cmd: string)
    requires cmd !in cfg.commands
    requires cfg.onCommand.None? || cfg.onCommand.value(cmd).None?
    ensures Submission(cfg, cmd) == [Line(cmd, Some(Command)), Line("Unknown command: " + cmd, Some(Output))]
  {
  }

  /** A defined callback result is used as is, even `''` or `[]`; an array prints one line per element. */
  lemma ResolverResultUsedAsIs(cfg: Config, cmd: string)
    requires cmd !in cfg.commands && cfg.onCommand.Some? && cfg.onCommand.value(cmd).Some?
    ensures Submission(cfg, cmd) == [Line(cmd, Some(Command))] + OutputLines(Texts(cfg.onCommand.value(cmd).value))
    ensures cfg.onCommand.value(cmd) == Some(Lines([])) ==> Submission(cfg, cmd) == [Line(cmd, Some(Command))]
    ensures cfg.onCommand.value(cmd) == Some(Text("")) ==>
              Submission(cfg, cmd) == [Line(cmd, Some(Command)), Line("", Some(Output))]
  {
  }

  // ---------------------------------------------------------------- rendering

  /** One rendered scrollback row: its class, the prompt span if any, and its text. */
  datatype Row = Row(className: string, prompt: Option<string>, text: string)

  /** The whole widget: container class, scrollback rows, and the live input row. */
  datatype View = View(className: string, rows: seq<Row>, inputPrompt: string, inputValue: string)

  /** The text a row shows: the prompt span's text directly followed by the line's text. */
  function RowText(r: Row): string {
    (if r.prompt.Some? then r.prompt.value else "") + r.text
  }

  /** A row's class: `uwg-terminal-line`, plus `uwg-terminal-command` for a command line. */
  function LineClass(isCommand: bool): string {
    Cx([Some("uwg-terminal-line"), if isCommand then Some("uwg-terminal-command") else None])
  }

  /** The fields of a row's class: the line class, then the command class for a command line only. */
  lemma LineClassFields(isCommand: bool)
    ensures Split(LineClass(isCommand)) == ["uwg-terminal-line"] + (if isCommand then ["uwg-terminal-command"] else [])
  {
    assert NoSpace("uwg-terminal-line") && NoSpace("uwg-terminal-command");
    CxFlagFields("uwg-terminal-line", isCommand, "uwg-terminal-command");
  }

  /** A command line gets the prompt and the command class; every other line, typed or not, shows its bare text. */
  function RenderLine(prompt: string, line: Line): (r: Row)
    ensures r.prompt.Some? <==> line.kind == Some(Command)
    ensures RowText(r) == if line.kind == Some(Command) then prompt + line.text else line.text
    ensures r.className == LineClass(line.kind == Some(Command))
  {
    var isCommand := line.kind == Some(Command);
    Row(LineClass(isCommand), if isCommand then Some(prompt) else None, line.text)
  }

  /** The container's class: the base class, then the caller's `className` if it is truthy. */
  function ContainerClass(className: Option<string>): string {
    Cx([Some("uglyworkgood-terminal"), className])
  }

  /** The fields of the container's class: the base class, then the fields of the caller's class. */
  lemma ContainerClassFields(className: Option<string>)
    ensures Split(ContainerClass(className)) ==
              ["uglyworkgood-terminal"] + (if Truthy(className) then Split(className.value) else [])
  {
    assert NoSpace("uglyworkgood-terminal");
    CxTwoFields("uglyworkgood-terminal", className);
  }

  /** The widget's markup: every line in insertion order, then the prompt and the buffer. */
  function Render(cfg: Config, className: Option<string>, st: State): (v: View)
    ensures |v.rows| == |st.lines|
    ensures forall i :: 0 <= i < |v.rows| ==> v.rows[i] == RenderLine(cfg.prompt, st.lines[i])
    ensures v.inputPrompt == cfg.prompt && v.inputValue == st.value
    ensures v.className == ContainerClass(className)
  {
    View(ContainerClass(className),
         seq(|st.lines|, i requires 0 <= i < |st.lines| => RenderLine(cfg.prompt, st.lines[i])),
         cfg.prompt, st.value)
  }

  // ---------------------------------------------------------------- the widget

  class Terminal {
    const config: Config
    const className: Option<string>
    var lines: seq<Line>
    var value: string

    function Snapshot(): State
      reads this
    {
      State(lines, value)
    }

    /** Mount: the scrollback is seeded from `lines` (default empty), the buffer is empty. */
    constructor (props: TerminalProps)
      ensures config == ConfigOf(props) && className == props.className
      ensures lines == props.lines.GetOr([]) && value == ""
    {
      config := ConfigOf(props);
      className := props.className;
      lines := props.lines.GetOr([]);
      value := "";
    }

    /** `handleChange`: the buffer becomes the field's raw text, untrimmed. */
    method HandleChange(text: string)
      modifies this`value
      ensures value == text && lines == old(lines)
      ensures Snapshot() == Step(config, old(Snapshot()), Change(text))
    {
      value := text;
    }

    /** `appendOutput`: the command line, then one output line per resolved string. */
    method AppendOutput(cmd: string)
      modifies this`lines
      ensures lines == old(lines) + Submission(config, cmd)
    {
      var next := lines + [Line(cmd, Some(Command))];
      var output := if cmd in config.commands then Some(config.commands[cmd]) else None;
      var result := if config.onCommand.Some? then config.onCommand.value(cmd) else None;
      if output.None? && result.Some? {
        output := result;
      }
      if output.None? {
        output := Some(Text(UnknownCommand(cmd)));
      }
      match output.value {
        case Lines(ss) =>
          for i := 0 to |ss|
            invariant next == old(lines) + [Line(cmd, Some(Command))] + OutputLines(ss[..i])
          {
            assert OutputLines(ss[..i + 1]) == OutputLines(ss[..i]) + [Line(ss[i], Some(Output))];
            next := next + [Line(ss[i], Some(Output))];
          }
          assert ss[..|ss|] == ss;
        case Text(s) =>
          next := next + [Line(s, Some(Output))];
      }
      lines := next;
    }

    /** `handleKeyDown`: on Enter, submit the trimmed buffer if non-empty, then clear it. */
    method HandleKeyDown(key: string)
      modifies this
      ensures key != EnterKey ==> lines == old(lines) && value == old(value)
      ensures key == EnterKey ==> value == ""
      ensures key == EnterKey ==>
                lines == old(lines) + (if Trim(old(value)) == "" then [] else Submission(config, Trim(old(value))))
      ensures Snapshot() == Step(config, old(Snapshot()), KeyDown(key))
    {
      if key == EnterKey {
        var cmd := Trim(value);
        if cmd != "" {
          AppendOutput(cmd);
        }
        value := "";
      }
    }

    /** The markup for the current state. */
    function View(): View
      reads this
    {
      Render(config, className, Snapshot())
    }
  }

  // ---------------------------------------------------------------- submissions

  /** Enter on a buffer of white space only appends nothing and clears the buffer. */
  lemma EnterOnBlank(cfg: Config, st: State)
    requires AllSpace(st.value)
    ensures Step(cfg, st, KeyDown(EnterKey)) == State(st.lines, "")
  {
    TrimBlank(st.value);
  }

  /** The echoed command is the trimmed buffer, not the raw one. */
  lemma EnterTrimsBuffer(cfg: Config, st: State, pre: string, cmd: string, post: string)
    requires st.value == pre + cmd + post
    requires AllSpace(pre) && AllSpace(post)
    requires cmd != [] && !IsSpace(cmd[0]) && !IsSpace(cmd[|cmd| - 1])
    ensures Step(cfg, st, KeyDown(EnterKey)) == State(st.lines + Submission(cfg, cmd), "")
    ensures Step(cfg, st, KeyDown(EnterKey)).lines[|st.lines|] == Line(cmd, Some(Command))
  {
    TrimPadded(pre, cmd, post);
  }
}
