/**
 * The emission API: `log(level, message)` and its four shorthands build a
 * `LogMessage` and send it to the stack; with nothing installed they record
 * a runtime warning naming the payload's type and return normally.
 */
module Api {
  import opened Wrappers
  import opened Messages
  import opened Handler

  /** The `warnings.warn` call (a `UserWarning`) made when no handler is installed. */
  datatype NoHandlerWarning = NoHandlerFor(typeName: string)

  const WarningPrefix: string := "No handler for log message of type \""

  /** The text of the warning. */
  function WarningText(w: NoHandlerWarning): string
  {
    WarningPrefix + w.typeName + "\""
  }

  /** Reads the type name back out of a warning text. */
  function WarnedType(text: string): Option<string>
  {
    if |WarningPrefix| < |text| && text[..|WarningPrefix|] == WarningPrefix && text[|text| - 1] == '"'
    then Some(text[|WarningPrefix|..|text| - 1])
    else None
  }

  /** The warning text names exactly the payload's type. */
  lemma WarningNamesType(w: NoHandlerWarning)
    ensures WarnedType(WarningText(w)) == Some(w.typeName)
  {
    var text := WarningText(w);
    assert text[..|WarningPrefix|] == WarningPrefix;
    assert text[|WarningPrefix|..|text| - 1] == w.typeName;
  }

  /**
   * `log(level, message)`: the message goes to the innermost logger and on
   * outward; a warning is recorded exactly when the stack is empty.
   */
  method Log(stack: seq<TextLogger>, level: LevelValue, payload: Payload) returns (warned: Option<NoHandlerWarning>)
    modifies Footprint(stack)
    ensures warned == if stack == [] then Some(NoHandlerFor(TypeName(payload))) else None
    ensures Delivered(Footprint(stack), Writes(stack, LogMessage(payload, level)))
  {
    var o := Send(stack, LogMessage(payload, level));
    warned := if o.NoHandler? then Some(NoHandlerFor(TypeName(payload))) else None;
  }

  /** `log_debug(message)`. */
  method LogDebug(stack: seq<TextLogger>, payload: Payload) returns (warned: Option<NoHandlerWarning>)
    modifies Footprint(stack)
    ensures warned == if stack == [] then Some(NoHandlerFor(TypeName(payload))) else None
    ensures Delivered(Footprint(stack), Writes(stack, LogMessage(payload, Level(Debug))))
  {
    warned := Log(stack, Level(Debug), payload);
  }

  /** `log_info(message)`. */
  method LogInfo(stack: seq<TextLogger>, payload: Payload) returns (warned: Option<NoHandlerWarning>)
    modifies Footprint(stack)
    ensures warned == if stack == [] then Some(NoHandlerFor(TypeName(payload))) else None
    ensures Delivered(Footprint(stack), Writes(stack, LogMessage(payload, Level(Info))))
  {
    warned := Log(stack, Level(Info), payload);
  }

  /** `log_warning(message)`. */
  method LogWarning(stack: seq<TextLogger>, payload: Payload) returns (warned: Option<NoHandlerWarning>)
    modifies Footprint(stack)
    ensures warned == if stack == [] then Some(NoHandlerFor(TypeName(payload))) else None
    ensures Delivered(Footprint(stack), Writes(stack, LogMessage(payload, Level(Warning))))
  {
    warned := Log(stack, Level(Warning), payload);
  }

  /** `log_error(message)`. */
  method LogError(stack: seq<TextLogger>, payload: Payload) returns (warned: Option<NoHandlerWarning>)
    modifies Footprint(stack)
    ensures warned == if stack == [] then Some(NoHandlerFor(TypeName(payload))) else None
    ensures Delivered(Footprint(stack), Writes(stack, LogMessage(payload, Level(Error))))
  {
    warned := Log(stack, Level(Error), payload);
  }

  /**
   * `log_error(text)` for a one-line text (such as "disk full") with one
   * default-formatted logger writing to a fresh in-memory sink: no warning,
   * and the sink holds one line ending in the text under the painted ERROR
   * label, then a line break.
   */
  method ErrorToMemorySink(env: Formatting.Env, text: string) returns (warned: Option<NoHandlerWarning>, written: seq<string>)
    requires '\n' !in text
    ensures warned == None
    ensures written == [Formatting.Decoration(env, env.paint("ERROR", Formatting.Style("#ff0000", Some("bold"))), 0) + text, "\n"]
  {
    var memory := new Sink();
    var stderr := new Sink();
    var logger := new TextLogger(Some(One(memory)), None, env, stderr);
    assert Footprint([logger]) == {memory} by {
      assert [logger][..0] == [];
    }
    warned := LogError([logger], Str(text));
    OneLoggerOneLine(env, logger, memory, text, Error);
    written := memory.written;
  }
}
