# Shortcut runner: command encoding and result normalisation

This project models the core of a small tool server. The server exposes sixteen
tools: send a message, place a phone or FaceTime call, send an email, list
contacts, list and create calendar events, list and add reminders, fetch the
weather, and set, delete and list alarms. Each tool call becomes a `Command`.
The `Command` is serialised to a text payload: its four slots joined by
newlines. The payload has four lines only when no slot holds a newline. It is
given to the external `shortcuts run switch` process. That process's outcome is folded
into one result string.

Modules:

- `Text` (`text.dfy`): the host-language string operations the server uses.
  `Strip` is `str.strip()`, written against the full `str.isspace()` character
  set. `Join` is `sep.join(parts)`. `Split` is `s.split(sep)`; it is used only
  to state what the engine can read back out of a payload.
- `Decimal` (`decimal.dfy`): `str(n)` for an `int`, and the parser that reads
  it back.
- `Commands` (`commands.dfy`): the `Command` record with its `" "` defaults,
  `Payload`, and `CheckedPayload`, the payload as its docstring describes it
  (see "## Findings").
- `Invocation` (`invocation.dfy`): the outcome of the engine process
  (`Outcome`: exit status, stdout, stderr), the mapping `Normalize` from an
  outcome to the result string, and `RunCommand`. `RunCommand` takes the engine
  as a function from the payload to an outcome.
- `Tools` (`tools.dfy`): one `ToolCall` constructor per registered tool, the
  `ToCommand` table, and `Handle` (a tool body: `run_command(Command(...))`).

Two details of the code are easy to misread:

- The payload has no trailing newline. The code joins the four slots with
  `"\n"`, so `Payload` has exactly three newlines when no slot contains one.
- A result of `"OK"` does not mean stdout was empty. A stdout that strips to
  `"OK"` gives the same result. `SuccessIsOkIff` states the exact condition.

The source field `function` is called `operation` here, because `function` is
a Dafny keyword.

## Model

| member | source | states |
|---|---|---|
| `Commands.Slots` | server.py:17-25 | a command has exactly four slots, and the function name comes first |
| `Commands.Payload` | server.py:17-25 | the payload is `function + "\n" + arg_1 + "\n" + arg_2 + "\n" + arg_3`, always in that order |
| `Commands.PayloadRoundTrip` | server.py:18-25 | if no slot holds a newline, splitting the payload on `"\n"` gives exactly the four slots, in order |
| `Commands.PayloadNewlineCount` | server.py:25 | the payload holds three newlines plus those inside the slots, so exactly three for newline-free slots |
| `Commands.PayloadInjective` | server.py:25 | two newline-free commands with the same payload are the same command |
| `Commands.PayloadLineCount` | server.py:18-25 | the engine reads four lines plus one for every newline inside a slot |
| `Commands.NewlineInSlotAddsLines` | server.py:18-25 | as written, a command with a newline in any slot gives more than four lines |
| `Commands.CheckedPayload` | server.py:18-25 | the documented four-line payload: present exactly when no slot holds a newline, and then it splits back into the four slots with three newlines |
| `Commands.OmittedSlotsArePlaceholders` | server.py:13-15 | a command built from the name alone has slots `" "`, `" "`, `" "` and the payload `name + "\n \n \n "` |
| `Text.JoinCount` | server.py:25 | fixes the meaning of `Text.Join` (`"\n".join(...)`, the body of `Payload`): joining n parts adds exactly n - 1 separators to those the parts already hold |
| `Text.SplitJoin` | server.py:25 | fixes the meaning of `Text.Join` together with `JoinCount`: splitting a join of separator-free parts gives the parts back |
| `Text.SplitCount` | server.py:18-25 | splitting a string gives one piece more than the separators it holds |
| `Text.Strip` | server.py:40 | the stripped text neither begins nor ends with whitespace and is no longer than the input |
| `Text.StripSplits` | server.py:40 | the input is whitespace, then the stripped text, then whitespace |
| `Text.StripUnique` | server.py:40 | any trimmed middle with only whitespace on both sides is exactly what `strip` returns |
| `Text.StripUniquePadded` | server.py:40 | the same, with the whitespace on each side split into two pieces |
| `Text.StripIdempotent` | server.py:40 | stripping twice is the same as stripping once |
| `Text.StripEmptyIff` | server.py:40-43 | stripping gives the empty string exactly when the input is all whitespace |
| `Decimal.NatToDigits` | server.py:75 | the digits are in canonical form (no leading zero), and the result is `"0"` exactly for 0 |
| `Decimal.IntToString` | server.py:75 | for every integer `str` accepts, `str(number)` is an optional `-` followed by canonical digits, never `-0`, and has no newline |
| `Decimal.DigitsRoundTrip` | server.py:75 | reading back the digits of n gives n |
| `Decimal.ParseIntToString` | server.py:75 | `int(str(n)) == n` for every integer `str` accepts |
| `Decimal.DigitsToNatRoundTrip` | server.py:80 | canonical digits are exactly the digits of the number they denote |
| `Decimal.StringToIntRoundTrip` | server.py:80 | `str(int(s)) == s` for every literal of the form `str` produces |
| `Decimal.IntToStringInjective` | server.py:75-80 | different numbers have different decimal strings |
| `Invocation.Normalize` | server.py:40-43 | never empty; a nonzero exit status gives `"Error: "` followed by the stripped stderr; a zero exit status gives a trimmed string |
| `Invocation.SuccessResult` | server.py:40-41 | on exit status 0: `"OK"` if stdout is only whitespace, otherwise the non-empty stripped stdout, which stdout surrounds with whitespace only |
| `Invocation.SuccessIsOkIff` | server.py:41 | on exit status 0 the result is `"OK"` exactly when stdout is only whitespace or strips to `"OK"` |
| `Invocation.FailureResult` | server.py:42-43 | on a nonzero status the result is exactly `"Error: "` if and only if stderr is only whitespace |
| `Invocation.NormalizeReadsOnlyTheRelevantStream` | server.py:40-43 | a failure ignores stdout, a success ignores stderr, and all nonzero statuses behave alike |
| `Invocation.NormalizeIgnoresPadding` | server.py:40-43 | extra whitespace around both streams does not change the result |
| `Invocation.PaddedStrip` | server.py:40 | stripping a string padded with whitespace is the same as stripping the string |
| `Invocation.SuccessCanMimicFailure` | server.py:41-43 | exit 0 with stdout `"Error: e"` gives the same string as a failure with stderr `e` |
| `Invocation.RunCommand` | server.py:28-43 | the engine reads exactly the payload; a failure result starts with `"Error: "`; a success result is `"OK"` or the stripped stdout; never empty |
| `Invocation.ExampleCallPlaced` | server.py:40-41 | exit 0 with stdout `"Call placed"` gives `"Call placed"` |
| `Invocation.ExampleEmptySuccess` | server.py:41 | example: exit 0 with stdout `""` or `" \n\t"` gives `"OK"` (the general rule is `SuccessResult`) |
| `Invocation.ExampleContactNotFound` | server.py:42-43 | example: exit 1 with stderr `"Contact not found"` gives `"Error: Contact not found"` |
| `Invocation.ExampleTrailingNewline` | server.py:43 | example: stderr `"Contact not found\n"` gives `"Error: Contact not found"`; the trailing newline is stripped before the marker is added |
| `Invocation.ExampleBlankFailure` | server.py:43 | a failure with whitespace-only stderr gives exactly `"Error: "`, whatever stdout held |
| `Tools.ToCommand` | server.py:48-125 | each tool's command carries the tool's registered name, its parameters in declared order in `arg_1..arg_3`, and `" "` in every slot left over |
| `Tools.Params` | server.py:48-125 | no tool declares more than three parameters |
| `Tools.Handle` | server.py:48-125 | every tool returns a non-empty string, which starts with `"Error: "` whenever the engine fails |
| `Tools.CalendarNumberEncoding` | server.py:73-80 | the calendar-listing tools put `str(number)` in `arg_1`, which parses back to `number`; `unit` goes in `arg_2` and `" "` in `arg_3` |
| `Tools.PayloadLines` | server.py:48-125 | a tool with newline-free parameters sends four lines: its name, then its parameters, then placeholders |
| `Tools.SlotsFreeOfNewlines` | server.py:48-125 | a tool with newline-free parameters builds a command with no newline in any slot |
| `Tools.ToCommandInjective` | server.py:48-125 | two different tool calls never build the same command |
| `Tools.PayloadIdentifiesCall` | server.py:48-125 | with newline-free parameters, the payload alone determines the tool call |
| `Tools.ExampleSendEmail` | server.py:63-65 | `sendEmail("Alice", "Hi", "Subject")` gives the slots `["sendEmail", "Alice", "Hi", "Subject"]` |
| `Tools.NewlineInMessage` | server.py:47-48 | a message with one line break, such as `sendMessage("Bob", "hi\nthere")`, reaches the engine as five lines |
| `Tools.ExampleListContacts` | server.py:68-70 | `listContacts()` gives the slots `["listContacts", " ", " ", " "]` and the payload `"listContacts\n \n \n "` |

## Left out

- The subprocess call (server.py:34-39) is not modelled. It starts `shortcuts run switch` and blocks on its I/O. The model takes the engine as a parameter, a function from the payload to an `Outcome`.
- UTF-8 encoding of the payload and decoding of both streams (server.py:36, 40, 43) are left out. Payload and streams are Dafny strings.
- `Text.IsWhitespace` fixes the `str.isspace()` set of current CPython. Changes to that set in other Unicode database versions are not modelled.
- Exceptions other than `CalledProcessError` are not modelled, for example a missing `shortcuts` binary. The code does not catch them, so they are not part of the result contract.
- The FastMCP server object, the `@mcp.tool()` registration and `mcp.run(transport="stdio")` (server.py:5-7, 48, 128-130) are transport glue from a library that is not part of this model.
- Timeouts, cancellation and concurrency are left out. The code has none.
- Decimal.IntToString: CPython's `str(int)` raises `ValueError` for integers of more than 4300 digits (the default of `sys.get_int_max_str_digits()`). That limit is not modelled; the function converts every integer.
- Tools.Handle: for the calendar-listing tools, CPython raises that `ValueError` before any command is run when `number` has more than 4300 digits. The model promises a non-empty result there too.

## Findings

| source | as written | input that shows it | evidently intended | confidence | as-written member | corrected member |
|---|---|---|---|---|---|---|
| server.py:18-25 | `run_command` joins the four slots with `"\n"` and escapes nothing, so a newline inside a slot becomes a line break in the payload | `sendMessage("Bob", "hi\nthere")`: the payload splits into five lines, and the engine reads `"hi"` as the message and `"there"` as `arg_2` | the documented payload of exactly four lines: function, arg_1, arg_2, arg_3 | not executed | `Commands.NewlineInSlotAddsLines`, `Tools.NewlineInMessage` | `Commands.CheckedPayload` |
