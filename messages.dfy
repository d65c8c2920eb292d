/** The message taxonomy: severity levels and the log message value. */
module Messages {

  /** `LogLevel`: a closed enumeration of four severities. */
  datatype LogLevel = Debug | Info | Warning | Error

  /** The value each enumeration member carries. */
  function Rank(l: LogLevel): nat
  {
    match l
    case Debug => 0
    case Info => 10
    case Warning => 50
    case Error => 100
  }

  /** The member's name, which is also the text of its label. */
  function Name(l: LogLevel): string
  {
    match l
    case Debug => "DEBUG"
    case Info => "INFO"
    case Warning => "WARNING"
    case Error => "ERROR"
  }

  /** The ranks order the levels DEBUG < INFO < WARNING < ERROR and tell them apart. */
  lemma RankOrder(a: LogLevel, b: LogLevel)
    ensures Rank(Debug) < Rank(Info) < Rank(Warning) < Rank(Error)
    ensures Rank(a) == Rank(b) <==> a == b
    ensures Name(a) == Name(b) <==> a == b
  {
  }

  /**
   * What the `level` field of a message holds. The record does not check
   * its fields, so anything may stand there; `NotALevel` is any value that is
   * not a member of the enumeration.
   */
  datatype LevelValue = Level(level: LogLevel) | NotALevel(repr: string)

  /** The payload: a Python `str`, or a value of some other type, known by its type's name. */
  datatype Payload = Str(text: string) | Other(typeName: string)

  /** `type(payload).__name__`. */
  function TypeName(p: Payload): string
  {
    match p
    case Str(_) => "str"
    case Other(name) => name
  }

  /** `LogMessage(message, level=LogLevel.INFO)`. */
  datatype LogMessage = LogMessage(payload: Payload, level: LevelValue := Level(Info))

  /** A message built without a level is at level INFO. */
  lemma DefaultLevel(p: Payload)
    ensures LogMessage(p).level == Level(Info)
    ensures LogMessage(p).payload == p
  {
  }
}
