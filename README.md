# uglyworkgood design system: Terminal and Button, modelled in Dafny

This project models the logic of the two widgets of the uglyworkgood React
design system.

- **Terminal** (`lib/Terminal/Terminal.tsx`) is a toy terminal. It holds an
  input buffer and an append-only scrollback of lines. Each line is a text
  with an optional role, `command` or `output`. A change event replaces the
  buffer with the raw field text. Pressing Enter trims the buffer. If
  anything is left, the widget appends a `command` line. It then resolves
  the output: the `commands` table first, then the `onCommand` callback's
  result, then the fallback `Unknown command: <cmd>`. It appends one
  `output` line per resolved string and clears the buffer. Rendering
  prefixes command lines with the prompt (default `$`).
- **Button** (`lib/Button/Button.tsx`) resolves its props into either a link
  (`<a>`) or a native button. It composes the class string with `cx` and
  orders the content slots. It injects `rel="noopener noreferrer"` on
  new-tab links and computes `disabled`, `aria-busy` and `aria-disabled`.

Modules:

- `Wrappers` (`wrappers.dfy`): `Option`, standing for `undefined`.
- `ClassNames` (`class_names.dfy`): `cx`, which both files define
  identically (Button.tsx:36-38 and Terminal.tsx:40-42), modelled once. It is
  `Join(Kept(parts))`. `Split` is `split(' ')`. It splits at U+0020 only
  and keeps empty fields. It inverts the join only on a non-empty list of
  space-free words. A part that itself contains a space (a `className` of
  `"a b"`) splits into several fields, and an empty join `''` splits into
  `['']`. Fields are not the tokens a browser reads from a class attribute,
  which splits at any ASCII white space and drops empty tokens. The "fields"
  below are always fields of `split(' ')`.
- `Whitespace` (`whitespace.dfy`): `String.prototype.trim` over the
  WhiteSpace and LineTerminator characters of ECMA-262 (section 22.1.3.32,
  with sections 12.2 and 12.3).
- `TerminalWidget` (`terminal.dfy`): the pure transition `Step`, its
  iteration `Run`, and the resolution and render functions. The class
  `Terminal` keeps the `lines`/`value` state. Its methods `HandleChange`,
  `HandleKeyDown` and `AppendOutput` update that state, and each is proved
  equal to `Step` or `Submission`. `AppendOutput` keeps the source's loop
  that pushes one line per array element.
- `ButtonWidget` (`button.dfy`): the Button's prop resolution as pure
  functions.

A defined `onCommand` result is used as it is, even `''` or `[]`
(Terminal.tsx:61-63). `ResolverResultUsedAsIs` states this.

## Model

| member | source | states |
|---|---|---|
| ClassNames.Kept | lib/Button/Button.tsx:37 | `filter(Boolean)` keeps only non-empty texts, at most one per part |
| ClassNames.Join | lib/Button/Button.tsx:37 | `join(' ')` of no words is `''`; otherwise the result starts with the first word |
| ClassNames.Cx | lib/Button/Button.tsx:36-38 | `cx(...parts)` is the join of the kept parts; its behaviour is stated by CxEmpty, CxSnoc, CxTwo and CxFields |
| ClassNames.SpaceIndex | lib/Button/Button.tsx:37 | helper of the inverse of the join at Button.tsx:37: the first space, or the length when there is none, with no space before it |
| ClassNames.SplitJoin | lib/Button/Button.tsx:37 | splitting a space-joined non-empty list of space-free words at spaces gives back the words; an empty list joins to `''`, which splits into `['']` |
| ClassNames.SplitJoinSep | lib/Button/Button.tsx:37 | helper of the inverse of the join at Button.tsx:37: a join of a non-empty list of space-free words, one space and a rest split into the words, then the rest's fields |
| ClassNames.JoinThenFields | lib/Button/Button.tsx:37 | helper of the inverse of the join at Button.tsx:37: for a non-empty list of space-free words, appending a truthy part after one space adds its fields after the words; a falsy part adds nothing |
| ClassNames.KeptAppend | lib/Button/Button.tsx:37 | filtering out falsy parts distributes over concatenation |
| ClassNames.JoinSnoc | lib/Button/Button.tsx:37 | joining one more word adds one space only when something came before |
| ClassNames.KeptCons | lib/Button/Button.tsx:37 | filtering a list that starts with one part keeps that part's text, if truthy, before the rest |
| ClassNames.KeptSix | lib/Button/Button.tsx:56-63 | filtering six parts keeps each truthy one in its place |
| ClassNames.SplitSep | lib/Terminal/Terminal.tsx:41 | helper of the inverse of the join at Terminal.tsx:41: a single space after a space-free word separates it from the rest's fields |
| ClassNames.SplitWord | lib/Terminal/Terminal.tsx:41 | helper of the inverse of the join at Terminal.tsx:41: a space-free word is a single field |
| ClassNames.CxTwo | lib/Terminal/Terminal.tsx:40-42 | `cx(a, b)` with a non-empty `a` is `a`, then a space and `b` only when `b` is truthy |
| ClassNames.CxTwoFields | lib/Terminal/Terminal.tsx:40-42 | the fields of `cx(a, b)` for a non-empty, space-free `a` are `a`, then the fields of `b` if it is truthy |
| ClassNames.CxFlagFields | lib/Terminal/Terminal.tsx:96 | for non-empty, space-free `a` and `c`, the fields of `cx(a, flag && c)` are `a`, then `c` exactly when the flag holds |
| ClassNames.CxEmpty | lib/Terminal/Terminal.tsx:40-42 | the class string is empty exactly when no part is truthy |
| ClassNames.CxSnoc | lib/Button/Button.tsx:36-38 | a falsy last part (false, undefined, `''`) adds nothing; a truthy one is added after a single space, or alone |
| ClassNames.CxFields | lib/Terminal/Terminal.tsx:40-42 | with space-free parts and at least one truthy part, the fields of the class string are exactly the truthy parts in order; with none, the string is `''` (CxEmpty) |
| Whitespace.TrimStart | lib/Terminal/Terminal.tsx:78 | the result is a suffix, everything dropped is white space, and it does not start with white space |
| Whitespace.TrimEnd | lib/Terminal/Terminal.tsx:78 | the result is a prefix, everything dropped is white space, and it does not end with white space |
| Whitespace.Trim | lib/Terminal/Terminal.tsx:78 | the result is the infix of the input that starts after its leading white space |
| Whitespace.TrimStrips | lib/Terminal/Terminal.tsx:78 | everything `trim` drops on either side is white space, and the result neither starts nor ends with white space |
| Whitespace.TrimBlank | lib/Terminal/Terminal.tsx:78-79 | the trimmed text is empty exactly when the input is all white space |
| Whitespace.TrimStartPadded | lib/Terminal/Terminal.tsx:78 | leading white space is removed up to the first other character and no further |
| Whitespace.TrimEndPadded | lib/Terminal/Terminal.tsx:78 | trailing white space is removed back to the last other character and no further |
| Whitespace.TrimPadded | lib/Terminal/Terminal.tsx:78 | trimming white space off both sides of a trimmed text gives exactly that text |
| Whitespace.TrimIdempotent | lib/Terminal/Terminal.tsx:78 | trimming twice is trimming once |
| TerminalWidget.ConfigOf | lib/Terminal/Terminal.tsx:45-51 | `prompt` defaults to `'$'` and `commands` to `{}`; given props are kept |
| TerminalWidget.UnknownCommand | lib/Terminal/Terminal.tsx:65 | the fallback text `Unknown command: <cmd>`; stated by FallbackFires |
| TerminalWidget.Resolve | lib/Terminal/Terminal.tsx:59-66 | a table entry wins; otherwise a defined callback result; otherwise `Unknown command: <cmd>` |
| TerminalWidget.Texts | lib/Terminal/Terminal.tsx:67-71 | a string prints exactly one line; an array prints its elements |
| TerminalWidget.OutputLines | lib/Terminal/Terminal.tsx:68 | one `output` line per string, same text, same order |
| TerminalWidget.Submission | lib/Terminal/Terminal.tsx:56-73 | a submission is the command line followed by one `output` line per resolved string: 1 + k lines |
| TerminalWidget.Step | lib/Terminal/Terminal.tsx:76-88 | `handleChange` and `handleKeyDown` as one transition; stated by StepAppends, StepCountsCommands, EnterOnBlank and EnterTrimsBuffer |
| TerminalWidget.Run | lib/Terminal/Terminal.tsx:76-88 | a series of events applied one after another; stated by RunAppendOnly |
| TerminalWidget.Submits | lib/Terminal/Terminal.tsx:77-79 | the `event.key === 'Enter'` and `if (cmd)` tests together; used by StepAppends and StepCountsCommands |
| TerminalWidget.StepAppends | lib/Terminal/Terminal.tsx:76-88 | old lines stay a prefix; a submission adds exactly 1 + k lines and anything else adds none; Enter clears the buffer; other keys change nothing; a change sets the raw text |
| TerminalWidget.RunAppendOnly | lib/Terminal/Terminal.tsx:53-88 | over any series of events the earlier scrollback stays a prefix |
| TerminalWidget.CountCommands | lib/Terminal/Terminal.tsx:58 | helper measure of StepCountsCommands: the number of command lines, at most the number of lines |
| TerminalWidget.CountCommandsAppend | lib/Terminal/Terminal.tsx:58 | command lines of a concatenation add up |
| TerminalWidget.OutputLinesNoCommand | lib/Terminal/Terminal.tsx:68-70 | resolved output never contains a command line |
| TerminalWidget.StepCountsCommands | lib/Terminal/Terminal.tsx:77-82 | each submission adds exactly one command line and other events add none |
| TerminalWidget.LookupWins | lib/Terminal/Terminal.tsx:59-63 | with a table entry the lines do not depend on the callback |
| TerminalWidget.FallbackFires | lib/Terminal/Terminal.tsx:64-70 | with no entry and an undefined callback result, exactly one `Unknown command: <cmd>` line follows the command |
| TerminalWidget.ResolverResultUsedAsIs | lib/Terminal/Terminal.tsx:60-63 | without a table entry a defined callback result is used as is: `[]` adds no output line and `''` adds one empty line |
| TerminalWidget.EnterOnBlank | lib/Terminal/Terminal.tsx:77-83 | Enter on a blank buffer appends nothing and clears the buffer |
| TerminalWidget.EnterTrimsBuffer | lib/Terminal/Terminal.tsx:76-84 | the echoed command is the trimmed buffer, not the raw one |
| TerminalWidget.LineClass | lib/Terminal/Terminal.tsx:96 | a row's class string; stated by LineClassFields |
| TerminalWidget.LineClassFields | lib/Terminal/Terminal.tsx:96 | the fields of a row's class are `uwg-terminal-line`, then `uwg-terminal-command` exactly for a command line |
| TerminalWidget.RenderLine | lib/Terminal/Terminal.tsx:93-106 | a `command` line shows the prompt then its text and has the command class; every other line, typed or not, shows its bare text |
| TerminalWidget.ContainerClass | lib/Terminal/Terminal.tsx:91 | the container's class string; stated by ContainerClassFields |
| TerminalWidget.ContainerClassFields | lib/Terminal/Terminal.tsx:91 | the fields of the container's class are the base class, followed by the fields of the caller's class only when it is truthy (an empty one adds no field) |
| TerminalWidget.Render | lib/Terminal/Terminal.tsx:90-118 | one row per line in insertion order, the container class, then the input row with the prompt and the buffer |
| TerminalWidget.Terminal.constructor | lib/Terminal/Terminal.tsx:44-54 | the scrollback starts with `lines` (default empty) and the buffer starts empty |
| TerminalWidget.Terminal.HandleChange | lib/Terminal/Terminal.tsx:86-88 | the buffer becomes the raw text and the lines are unchanged |
| TerminalWidget.Terminal.AppendOutput | lib/Terminal/Terminal.tsx:56-74 | the new lines are the old ones followed by the submission |
| TerminalWidget.Terminal.HandleKeyDown | lib/Terminal/Terminal.tsx:76-84 | Enter submits the trimmed buffer if non-empty and clears it; other keys change nothing |
| TerminalWidget.Terminal.View | lib/Terminal/Terminal.tsx:90-118 | the markup for the current `lines` and `value`; stated by Render |
| ButtonWidget.VariantName | lib/Button/Button.tsx:11 | each variant's class suffix is non-empty and has no space |
| ButtonWidget.SizeName | lib/Button/Button.tsx:12 | each size's class suffix is non-empty and has no space |
| ButtonWidget.VariantOf | lib/Button/Button.tsx:45 | the `variant = 'solid'` default; stated by DefaultVariant |
| ButtonWidget.SizeOf | lib/Button/Button.tsx:46 | the `size = 'md'` default; stated by DefaultSize |
| ButtonWidget.IsLink | lib/Button/Button.tsx:55 | link mode: `as === 'a'` or a non-null `href`; stated by Render's first ensures |
| ButtonWidget.SecureRel | lib/Button/Button.tsx:79-84 | a `_blank` target with no or empty `rel` gets `noopener noreferrer`; a non-empty `rel` is kept verbatim; other targets keep `rel` |
| ButtonWidget.OwnClassesSpaceFree | lib/Button/Button.tsx:56-61 | the component's own classes start with the base class and are non-empty and space-free |
| ButtonWidget.ClassParts | lib/Button/Button.tsx:56-63 | the six parts given to `cx`, in order; stated by KeptClassParts |
| ButtonWidget.Classes | lib/Button/Button.tsx:56-63 | the class string; stated by ClassesCallerLast and ClassFields |
| ButtonWidget.KeptClassParts | lib/Button/Button.tsx:56-63 | the truthy class parts are the component's own classes (base, variant, size, `uwg-full` if full width, `uwg-loading` if loading), then a non-empty `className` |
| ButtonWidget.ClassesCallerLast | lib/Button/Button.tsx:56-63 | the caller's `className` comes last after one space; an absent or empty one adds nothing |
| ButtonWidget.ClassFields | lib/Button/Button.tsx:56-63 | the fields of the class string are exactly the component's own classes, then the fields of the caller's class if it is non-empty; a space-free caller class is one field |
| ButtonWidget.Content | lib/Button/Button.tsx:65-72 | spinner only when loading, left icon only when given, always the label, right icon only when given, each at most once, in that order |
| ButtonWidget.Render | lib/Button/Button.tsx:74-115 | a link exactly when `as === 'a'` or `href` is given; link `rel` is secured and `aria-disabled` follows loading; button `disabled` is `disabled or loading`, `aria-busy` follows loading, `type` defaults to `button` |
| ButtonWidget.LoadingBlocks | lib/Button/Button.tsx:109-110 | loading forces a disabled, busy button whatever `disabled` says, and an aria-disabled link |
| ButtonWidget.NewTabIsolated | lib/Button/Button.tsx:78-84 | a new-tab link always has a non-empty `rel`: the caller's, or one whose `split(' ')` fields are exactly `noopener` and `noreferrer` |
| ButtonWidget.DefaultVariant | lib/Button/Button.tsx:45 | leaving out `variant` renders the same element as `solid` |
| ButtonWidget.DefaultSize | lib/Button/Button.tsx:46 | leaving out `size` renders the same element as `md` |
| ButtonWidget.DefaultType | lib/Button/Button.tsx:100-107 | a native button without `type` renders as `type="button"` |

## Left out

- React machinery: `forwardRef`, refs, JSX construction, CSS imports, and the
  batching of `useState` updates. A state update is a direct assignment here.
  The model fixes the props at mount (`config` and `className` are
  constants). In the code, only `lines` is frozen by `useState`. A new
  `prompt`, `commands`, `onCommand` or `className` is read from props on each
  render and takes effect at the next render or submission; the model does not
  capture that.
- Passthrough attributes (`{...anchorRest}`, `{...buttonRest}`). They are
  spread last, so a caller's own `aria-disabled` on a link (Button.tsx:93-94)
  or `aria-busy` on a button (Button.tsx:110-111) overrides the computed one.
  `disabled` and `type` are taken out of the rest first (Button.tsx:100-101),
  so the computed `disabled || loading` always stands. The model states only
  the named fields.
- `LoadingBlocks`: its `disabled` claim holds whatever the caller passes; its
  `ariaBusy` and `ariaDisabled` claims hold only when the caller passes no
  `aria-busy` or `aria-disabled` of their own.
- `onCommand` side effects. The callback is a pure function. The code calls
  it on every submission, even when the table answers; `Resolve` evaluates
  it too but ignores its result then.
- JavaScript object-lookup quirks in `commands[cmd]`, such as prototype keys
  like `constructor`. The table is a `map`.
- JavaScript truthiness of `ReactNode` icons and children (`0`, `''`). They
  are opaque values that are present or absent.
- `TerminalWidget.RenderLine`: the row's React `key` (the index) is not modelled.
- Link mode with `as === 'a'` and no `href` is a caller error that the
  component passes through. The model keeps `href` as `None` then.
- The build configuration (`vite.config.ts`) is not part of this model.
