# effecthandlers-logging, modelled in Dafny

A model of the logging facade in `effecthandlers_logging/logging.py`. The facade has four parts:

- the `LogLevel` enumeration and the `LogMessage` record;
- the default text formatter;
- the `TextLogger` handler, which formats a message, writes it to its sinks and forwards it to the handlers outside it;
- the emission functions `log`, `log_debug`, `log_info`, `log_warning` and `log_error`.

Modules, one per component:

- `Wrappers` (`wrappers.dfy`): `Option` and `Result`.
- `Text` (`text.dfy`): Python's `sep.join(parts)` and `s.split(c)`, with their round trips.
- `Messages` (`messages.dfy`): levels, ranks, level names, payloads and `LogMessage`.
- `Formatting` (`formatting.dfy`): the level labels, `_format_text_message` and `_default_log_message_formatter`. Colouring, the clock and the process id come in through an `Env` value. `paint` stands for `color(...)`, `clock(i)` is the date-time string read for line `i`, and `pid` is the process id as text.
- `Handler` (`handler.dfy`): sinks, `TextLogger`, and an explicit handler stack with `Send`.
  - The stack is a `seq<TextLogger>` with the innermost logger last.
  - A logger forwards by sending to the loggers before it. An empty stack answers `NoHandler`.
  - A sink is an object recording the argument of each `write` call and how far `flush` has pushed.
  - `Writes(stack, m)` is the list of `(sink, text)` writes one send makes. Every method that sends is proved to leave each sink holding exactly its old contents plus the texts that list addresses to it (`Delivered`). Nothing else changes.
- `Api` (`api.dfy`): `log` and the level shorthands. A missing handler gives a recorded `NoHandlerWarning`, which stands for the `UserWarning` that `warnings.warn` issues, carrying the payload's type name.

Two behaviours of the code worth stating:

- A level outside the enumeration is not rejected when the message is built: the attrs record does not validate its fields, so any value can stand as the level. `_format_text_message` then raises `NotImplementedError` at format time, and `TextLogger.handle` catches it as a declined format, so that logger writes nothing. The model writes such a level as `LevelValue.NotALevel` and reproduces that path.
- A declined format ends `handle` before `send` is called, and `handle` returns `None`.

## Model

| member | source | states |
|---|---|---|
| `Messages.RankOrder` | effecthandlers_logging/logging.py:13-17 | The ranks are DEBUG=0 < INFO=10 < WARNING=50 < ERROR=100. Levels are equal exactly when their ranks are equal, and exactly when their names are equal. |
| `Messages.DefaultLevel` | effecthandlers_logging/logging.py:23-26 | A `LogMessage` built without a level has level INFO and keeps its payload. |
| `Formatting.LevelStyle` | effecthandlers_logging/logging.py:30-37 | A level has no colouring exactly when it is INFO. |
| `Formatting.LevelLabel` | effecthandlers_logging/logging.py:29-39 | A label exists exactly for a member of the enumeration. It is the member's name, painted in that level's style. INFO's label is plain "INFO". Any other level value gives Unsupported. |
| `Text.Split` | effecthandlers_logging/logging.py:50 | Splitting on a character gives one more piece than there are separators. No piece contains the separator. |
| `Text.Join` | effecthandlers_logging/logging.py:40-52 | The empty list joins to "". With `JoinStartsWithFirst` and `JoinEndsWithLast`: a join starts with the first part and ends with the last; `JoinSplit` and `SplitJoin` show it puts `sep` between neighbours and is undone by `Split`. |
| `Text.JoinStartsWithFirst` | effecthandlers_logging/logging.py:40-52 | A join of at least one part starts with the first part. |
| `Text.JoinEndsWithLast` | effecthandlers_logging/logging.py:40-52 | A join of at least one part ends with the last part. |
| `Text.JoinSplit` | effecthandlers_logging/logging.py:40-52 | Joining the pieces of a split with the separator gives back the original string. |
| `Text.SplitJoin` | effecthandlers_logging/logging.py:40-52 | Splitting a join of pieces free of the separator gives back exactly those pieces. |
| `Formatting.Lines` | effecthandlers_logging/logging.py:40-52 | There is one line per segment. Line i is the i-th timestamp, the label and the painted process id, each followed by two spaces, then segment i. |
| `Formatting.FormatText` | effecthandlers_logging/logging.py:29-52 | Formatting text succeeds exactly when the level is a member of the enumeration. |
| `Formatting.FormatTextLines` | effecthandlers_logging/logging.py:40-52 | The formatted text is the lines joined by "\n". There are (number of line breaks in the payload + 1) lines, and line i ends with payload segment i. |
| `Formatting.EmptyPayloadOneLine` | effecthandlers_logging/logging.py:40-52 | An empty payload gives exactly one line: the decoration with an empty segment. |
| `Formatting.OneSegmentOneLine` | effecthandlers_logging/logging.py:40-52 | A payload without line breaks gives exactly one line: the decoration followed by the payload. |
| `Formatting.FormattedLines` | effecthandlers_logging/logging.py:40-52 | When the clock, pid and painter emit no line breaks, splitting the formatted text on "\n" gives back exactly the lines it was joined from, one per payload segment. |
| `Formatting.UnformatLines` | effecthandlers_logging/logging.py:40-52 | Stripping from each line its decoration recovers the payload segments. |
| `Formatting.FormatRoundTrip` | effecthandlers_logging/logging.py:40-52 | When the clock, pid and painter emit no line breaks, splitting the output gives exactly one line per payload segment. Stripping each line's decoration recovers the segments, and joining them recovers the payload. |
| `Formatting.DefaultFormat` | effecthandlers_logging/logging.py:55-60 | The default formatter succeeds exactly for a `str` payload at a member level. A `str` payload is formatted as text, and any other payload gives Unsupported. |
| `Handler.TextLogger.constructor` | effecthandlers_logging/logging.py:64-77 | With no formatter, the default formatter is used; otherwise the one given. With no sink, the sinks are `[stderr]`. A single sink becomes a one-element list, and a list is kept as given. |
| `Handler.TextLogger.WriteToSinks` | effecthandlers_logging/logging.py:86-89 | The sinks, in order, each get the text, then "\n", then a flush. No other sink changes. |
| `Handler.TextLogger.Handle` | effecthandlers_logging/logging.py:79-93 | If the formatter declines, no sink changes, `send` is not called, and the reply is `None`. Otherwise this logger's writes come first, then those of the loggers outside it, for the same message. The reply is `ReturnValue(None)` exactly when the format succeeded and there is no outer logger. |
| `Handler.Send` | effecthandlers_logging/logging.py:90-93 | `NoHandler` exactly for an empty stack. Otherwise the reply is the innermost logger's. The sinks of the stack change exactly by `Writes(stack, m)`. |
| `Handler.ReceivedEmit` | effecthandlers_logging/logging.py:86-89 | A logger's writes give each sink the formatted text and "\n", once for each time the sink is configured. |
| `Handler.ReceivedOutside` | effecthandlers_logging/logging.py:86-93 | A sink that no logger on the stack has receives nothing. |
| `Handler.InnermostFirst` | effecthandlers_logging/logging.py:90-93 | The writes of a logger added inside a stack come before all writes of the loggers outside it. |
| `Handler.DeclineWritesNothing` | effecthandlers_logging/logging.py:82-85 | A send whose innermost logger's formatter declines makes no write. |
| `Handler.SinkGetsOneLine` | effecthandlers_logging/logging.py:86-93 | Take a sink configured once, on one logger, where that logger and every logger inside it format the message. The sink receives exactly that logger's text and then "\n". |
| `Handler.SharedSinkOrder` | effecthandlers_logging/logging.py:86-93 | A sink shared by an outer and an inner logger receives the inner logger's line first, then the outer's. |
| `Handler.OneLoggerOneLine` | effecthandlers_logging/logging.py:79-89 | A `str` payload without line breaks, sent to a default-formatted logger with one sink: the sink gets exactly the decorated line, then "\n". |
| `Api.WarningNamesType` | effecthandlers_logging/logging.py:105 | The type name can be read back out of the no-handler warning text. |
| `Api.Log` | effecthandlers_logging/logging.py:96-105 | The message carries the given level and payload. A warning naming the payload's type is recorded exactly when nothing is installed. The sinks change exactly by the writes of the stack. |
| `Api.LogDebug` | effecthandlers_logging/logging.py:108-109 | Same as `Log`, at DEBUG. |
| `Api.LogInfo` | effecthandlers_logging/logging.py:112-113 | Same as `Log`, at INFO. |
| `Api.LogWarning` | effecthandlers_logging/logging.py:116-117 | Same as `Log`, at WARNING. |
| `Api.LogError` | effecthandlers_logging/logging.py:120-121 | Same as `Log`, at ERROR. |
| `Api.ErrorToMemorySink` | effecthandlers_logging/logging.py:96-121 | `log_error(text)` for a one-line text such as "disk full", with one default logger on a fresh sink, gives no warning. The sink holds exactly one line, the ERROR decoration followed by the text, then "\n". |

## Left out

- `colors.color` is an external library making terminal escape codes. It is the uninterpreted `paint` of `Env`, and escape-code contents are not modelled.
- `DateTime.now()` and `os.getpid()` are parameters in `Env`. A formatter is a pure function of the message, so two loggers with the same formatter render a message identically. The real clock may move on between them.
- The `effecthandlers` engine is not part of this model; `Send` over an explicit stack stands in for it. Not modelled:
  - installing and removing handlers in scopes;
  - messages of other types, which `handle` ignores;
  - what the engine does with a `None` reply after a declined format.
- `Send` ends the dispatch at the innermost logger's reply, whatever it is, `None` included; the engine's treatment of a `None` reply is not part of this model. `Writes`, `Send` and `DeclineWritesNothing` hold only for that choice: if the engine went on to the next outer handler after `None`, the outer loggers' writes would follow.
- Real I/O is not modelled. `sys.stderr` is a `Sink` passed to the constructor, and I/O exceptions from `write` or `flush` do not occur.
- `warnings.warn` is not modelled as Python's warning machinery, only as the returned `NoHandlerWarning` (a `UserWarning` in Python).
- The sink list is copied into a sequence. The Python logger keeps the caller's list object, so later changes to that list are not reflected.
- Custom formatters are total functions to `Result`. A formatter raising anything other than `NotImplementedError` is not modelled, and neither is one returning a non-string.
- Thread safety and concurrent logging are not modelled; the code has none.
