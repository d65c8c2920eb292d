/**
 * The `TextLogger` handler and the dispatch stack it is installed in.
 *
 * The stack is a sequence of loggers with the innermost (most recently
 * installed) LAST. `Send(stack, m)` hands `m` to the innermost logger, and a
 * logger forwards outward by sending to the loggers before it; an empty
 * stack answers `NoHandler`.
 */
module Handler {
  import opened Wrappers
  import opened Messages
  import opened Formatting

  /**
   * A write destination such as `sys.stderr`: the arguments of its `write`
   * calls in order, and how many of them a `flush` has pushed out.
   */
  class Sink {
    var written: seq<string>
    var flushed: nat

    constructor ()
      ensures written == [] && flushed == 0
    {
      written, flushed := [], 0;
    }

    method Write(s: string)
      modifies this
      ensures written == old(written) + [s] && flushed == old(flushed)
    {
      written := written + [s];
    }

    method Flush()
      modifies this
      ensures written == old(written) && flushed == |written|
    {
      flushed := |written|;
    }
  }

  /** One `write` call: which sink, and what text. */
  datatype WriteCall = WriteCall(sink: Sink, text: string)

  /** The `sink` argument of the constructor: one stream, or a list of them. */
  datatype SinkArg = One(sink: Sink) | Many(sinks: seq<Sink>)

  /** What `handle` returns: `None`, or `ReturnValue(None)`. */
  datatype Reply = NoneReply | ReturnValueNone

  /** What a `send` comes to: some handler's reply, or `NoHandlerError`. */
  datatype Outcome = Handled(reply: Reply) | NoHandler

  /** The writes one logger makes for formatted text `t`: `t` then a line break, sink by sink. */
  function Emit(sinks: seq<Sink>, t: string): seq<WriteCall>
  {
    if sinks == [] then []
    else Emit(sinks[..|sinks| - 1], t) + [WriteCall(sinks[|sinks| - 1], t), WriteCall(sinks[|sinks| - 1], "\n")]
  }

  /** The texts that writes `w` address to sink `s`, in order. */
  function Received(w: seq<WriteCall>, s: Sink): seq<string>
  {
    if w == [] then []
    else Received(w[..|w| - 1], s) + (if w[|w| - 1].sink == s then [w[|w| - 1].text] else [])
  }

  /** How many times sink `s` occurs in `sinks`. */
  function Count(sinks: seq<Sink>, s: Sink): nat
  {
    if sinks == [] then 0
    else Count(sinks[..|sinks| - 1], s) + (if sinks[|sinks| - 1] == s then 1 else 0)
  }

  lemma {:induction false} CountZero(sinks: seq<Sink>, s: Sink)
    ensures Count(sinks, s) == 0 <==> s !in sinks
  {
    if sinks != [] {
      CountZero(sinks[..|sinks| - 1], s);
      assert sinks == sinks[..|sinks| - 1] + [sinks[|sinks| - 1]];
    }
  }

  /** `n` copies of `x`, end to end. */
  function Repeat(x: seq<string>, n: nat): seq<string>
  {
    if n == 0 then [] else Repeat(x, n - 1) + x
  }

  /** The sinks of a list, as a set. */
  function SinkSet(sinks: seq<Sink>): set<Sink>
  {
    set s | s in sinks
  }

  /** All sinks of all loggers on the stack. */
  function Footprint(stack: seq<TextLogger>): set<Sink>
  {
    if stack == [] then {}
    else Footprint(stack[..|stack| - 1]) + SinkSet(stack[|stack| - 1].sinks)
  }

  /**
   * The writes that sending `m` to `stack` makes: the innermost logger's
   * writes first, then those of the loggers outside it. A logger whose
   * formatter declines writes nothing and does not send on; this stack
   * then ends the dispatch there, as it does after any reply.
   */
  function Writes(stack: seq<TextLogger>, m: LogMessage): seq<WriteCall>
  {
    if stack == [] then []
    else
      var inner := stack[|stack| - 1];
      match inner.formatter(m)
      case Err(_) => []
      case Ok(t) => Emit(inner.sinks, t) + Writes(stack[..|stack| - 1], m)
  }

  /**
   * Since the old state, every sink of `S` has had exactly the texts that
   * `w` addresses to it appended, and is flushed up to its end if it had any.
   */
  twostate predicate Delivered(S: set<Sink>, w: seq<WriteCall>)
    reads S
  {
    forall s :: s in S ==>
      && s.written == old(s.written) + Received(w, s)
      && s.flushed == if Received(w, s) == [] then old(s.flushed) else |s.written|
  }

  class TextLogger {
    const formatter: Formatter
    const sinks: seq<Sink>

    /**
     * `TextLogger(sink, formatter)`: no formatter means the default one, no
     * sink means standard error, and a single sink is wrapped in a list.
     */
    constructor (sink: Option<SinkArg>, formatter: Option<Formatter>, env: Env, stderr: Sink)
      ensures this.formatter == if formatter.None? then DefaultFormatter(env) else formatter.value
      ensures this.sinks == match sink
                           case None => [stderr]
                           case Some(One(s)) => [s]
                           case Some(Many(ss)) => ss
    {
      var chosen: Formatter := if formatter.None? then DefaultFormatter(env) else formatter.value;
      this.formatter := chosen;
      this.sinks := match sink
                    case None => [stderr]
                    case Some(One(s)) => [s]
                    case Some(Many(ss)) => ss;
    }

    /** The loop of `handle`: the text, then a line break, then a flush, sink by sink in order. */
    method WriteToSinks(t: string)
      modifies SinkSet(sinks)
      ensures Delivered(SinkSet(sinks), Emit(sinks, t))
    {
      ghost var S := SinkSet(sinks);
      assert forall s :: s in S ==> old(allocated(s));
      for i := 0 to |sinks|
        invariant Delivered(S, Emit(sinks[..i], t))
      {
        label body:
        sinks[i].Write(t);
        sinks[i].Write("\n");
        sinks[i].Flush();
        forall s | s in S
          ensures s.written == old(s.written) + Received(Emit(sinks[..i + 1], t), s)
          ensures s.flushed == if Received(Emit(sinks[..i + 1], t), s) == [] then old(s.flushed) else |s.written|
        {
          ReceivedStep(sinks, i, t, s);
          if s != sinks[i] {
            assert old@body(allocated(s));
            assert s.written == old@body(s.written) && s.flushed == old@body(s.flushed);
          }
        }
      }
      assert sinks[..|sinks|] == sinks;
    }

    /**
     * `handle(message)`: format, write the text and a line break to every
     * sink in order (flushing each), then forward the unchanged message to
     * the loggers `outer` to this one. Declining to format ends the call
     * with `None`; an empty `outer` gives `ReturnValue(None)`.
     */
    method Handle(outer: seq<TextLogger>, m: LogMessage) returns (reply: Reply)
      modifies Footprint(outer + [this])
      decreases |outer|, 1
      ensures reply == ReturnValueNone <==> formatter(m).Ok? && outer == []
      ensures Delivered(Footprint(outer + [this]), Writes(outer + [this], m))
    {
      assert (outer + [this])[..|outer|] == outer;
      FootprintAllocated(outer + [this]);
      var f := formatter(m);
      if f.Err? {
        return NoneReply;
      }
      var t := f.value;
      WriteToSinks(t);
      label mid:
      var o := Send(outer, m);
      reply := if o.NoHandler? then ReturnValueNone else NoneReply;
      ghost var e := Emit(sinks, t);
      ghost var w := Writes(outer, m);
      ghost var S := Footprint(outer + [this]);
      assert S == Footprint(outer) + SinkSet(sinks);
      forall s | s in S
        ensures s.written == old(s.written) + Received(e + w, s)
        ensures s.flushed == if Received(e + w, s) == [] then old(s.flushed) else |s.written|
      {
        ReceivedAppend(e, w, s);
        if s !in SinkSet(sinks) {
          EmitOutside(sinks, t, s);
        }
        if s !in Footprint(outer) {
          ReceivedOutside(outer, m, s);
        }
        Compose(old(s.written), old(s.flushed), old@mid(s.written), old@mid(s.flushed),
                s.written, s.flushed, Received(e, s), Received(w, s));
      }
    }
  }

  /** Two rounds of delivery to one sink make one delivery of both batches. */
  lemma Compose(w0: seq<string>, f0: nat, w1: seq<string>, f1: nat, w2: seq<string>, f2: nat,
                r1: seq<string>, r2: seq<string>)
    requires w1 == w0 + r1 && f1 == (if r1 == [] then f0 else |w1|)
    requires w2 == w1 + r2 && f2 == (if r2 == [] then f1 else |w2|)
    ensures w2 == w0 + (r1 + r2) && f2 == (if r1 + r2 == [] then f0 else |w2|)
  {
  }

  /**
   * `send(m)`: the innermost logger handles `m`; with nothing installed the
   * outcome is `NoHandler` and nothing is written.
   */
  method Send(stack: seq<TextLogger>, m: LogMessage) returns (o: Outcome)
    modifies Footprint(stack)
    decreases |stack|, 0
    ensures o.NoHandler? <==> stack == []
    ensures stack != [] ==> (o.reply == ReturnValueNone <==> |stack| == 1 && stack[0].formatter(m).Ok?)
    ensures Delivered(Footprint(stack), Writes(stack, m))
  {
    if stack == [] {
      return NoHandler;
    }
    var inner := stack[|stack| - 1];
    var outer := stack[..|stack| - 1];
    assert outer + [inner] == stack;
    var r := inner.Handle(outer, m);
    o := Handled(r);
  }

  /** The sinks of allocated loggers are allocated. */
  lemma {:induction false} FootprintAllocated(stack: seq<TextLogger>)
    ensures forall s :: s in Footprint(stack) ==> allocated(s)
  {
    if stack != [] {
      FootprintAllocated(stack[..|stack| - 1]);
    }
  }

  /** The texts addressed to a sink by two batches of writes are those of the first, then the second. */
  lemma {:induction false} ReceivedAppend(v: seq<WriteCall>, w: seq<WriteCall>, s: Sink)
    ensures Received(v + w, s) == Received(v, s) + Received(w, s)
  {
    if w == [] {
      assert v + w == v;
    } else {
      var init := w[..|w| - 1];
      var last := w[|w| - 1];
      var tail := if last.sink == s then [last.text] else [];
      assert (v + w)[..|v + w| - 1] == v + init;
      assert (v + w)[|v + w| - 1] == last;
      assert Received(v + w, s) == Received(v + init, s) + tail;
      ReceivedAppend(v, init, s);
      assert Received(w, s) == Received(init, s) + tail;
    }
  }

  /** Writing to one more sink adds the text and a line break for that sink only. */
  lemma ReceivedStep(sinks: seq<Sink>, i: nat, t: string, s: Sink)
    requires i < |sinks|
    ensures Received(Emit(sinks[..i + 1], t), s)
         == Received(Emit(sinks[..i], t), s) + if sinks[i] == s then [t, "\n"] else []
  {
    var step := [WriteCall(sinks[i], t), WriteCall(sinks[i], "\n")];
    assert sinks[..i + 1][..i] == sinks[..i];
    assert Emit(sinks[..i + 1], t) == Emit(sinks[..i], t) + step;
    ReceivedAppend(Emit(sinks[..i], t), step, s);
    ReceivedPair(sinks[i], t, s);
  }

  lemma ReceivedPair(last: Sink, t: string, s: Sink)
    ensures Received([WriteCall(last, t), WriteCall(last, "\n")], s) == if last == s then [t, "\n"] else []
  {
    var step := [WriteCall(last, t), WriteCall(last, "\n")];
    var first := [WriteCall(last, t)];
    assert step[..1] == first;
    assert first[..0] == [];
    assert Received(first, s) == if last == s then [t] else [];
    assert Received(step, s) == Received(first, s) + if last == s then ["\n"] else [];
  }

  /** A logger's writes give each sink the text and a line break once per time it is configured. */
  lemma {:induction false} ReceivedEmit(sinks: seq<Sink>, t: string, s: Sink)
    ensures Received(Emit(sinks, t), s) == Repeat([t, "\n"], Count(sinks, s))
  {
    if sinks != [] {
      var init := sinks[..|sinks| - 1];
      var last := sinks[|sinks| - 1];
      var step := [WriteCall(last, t), WriteCall(last, "\n")];
      ReceivedEmit(init, t, s);
      ReceivedAppend(Emit(init, t), step, s);
      ReceivedPair(last, t, s);
    }
  }

  /** A logger writes nothing to a sink it does not have. */
  lemma EmitOutside(sinks: seq<Sink>, t: string, s: Sink)
    requires s !in sinks
    ensures Received(Emit(sinks, t), s) == []
  {
    ReceivedEmit(sinks, t, s);
    CountZero(sinks, s);
  }

  /** Nothing is addressed to a sink that no logger on the stack has. */
  lemma {:induction false} ReceivedOutside(stack: seq<TextLogger>, m: LogMessage, s: Sink)
    requires s !in Footprint(stack)
    ensures Received(Writes(stack, m), s) == []
  {
    if stack != [] {
      var inner := stack[|stack| - 1];
      ReceivedOutside(stack[..|stack| - 1], m, s);
      if inner.formatter(m).Ok? {
        var t := inner.formatter(m).value;
        EmitOutside(inner.sinks, t, s);
        ReceivedAppend(Emit(inner.sinks, t), Writes(stack[..|stack| - 1], m), s);
      }
    }
  }

  /** A sink is in the footprint exactly when some logger on the stack has it. */
  lemma {:induction false} InFootprint(stack: seq<TextLogger>, s: Sink)
    ensures s in Footprint(stack) <==> exists j :: 0 <= j < |stack| && s in stack[j].sinks
  {
    if stack != [] {
      var init := stack[..|stack| - 1];
      InFootprint(init, s);
      if s in Footprint(stack) && s !in Footprint(init) {
        assert s in stack[|stack| - 1].sinks;
      }
      if exists j :: 0 <= j < |stack| && s in stack[j].sinks {
        var j :| 0 <= j < |stack| && s in stack[j].sinks;
        if j < |stack| - 1 {
          assert s in init[j].sinks;
        }
      }
    }
  }

  /**
   * Installing a logger inside others makes it handle first: a message
   * it formats is written to its sinks before anything the outer loggers
   * write.
   */
  lemma InnermostFirst(outer: seq<TextLogger>, inner: TextLogger, m: LogMessage)
    requires inner.formatter(m).Ok?
    ensures Writes(outer + [inner], m) == Emit(inner.sinks, inner.formatter(m).value) + Writes(outer, m)
  {
    assert (outer + [inner])[..|outer|] == outer;
  }

  /**
   * A logger whose formatter declines makes no write in this `handle` call
   * and does not send the message on.
   */
  lemma DeclineWritesNothing(outer: seq<TextLogger>, inner: TextLogger, m: LogMessage)
    requires inner.formatter(m).Err?
    ensures Writes(outer + [inner], m) == []
  {
  }

  /** `[x]` repeated once is `x`. */
  lemma RepeatOnce(x: seq<string>)
    ensures Repeat(x, 1) == x
  {
    assert Repeat(x, 1) == Repeat(x, 0) + x;
  }

  /**
   * A sink configured once, on one logger of the stack, receives exactly
   * that logger's formatted text followed by a line break, provided that
   * logger and every logger inside it formats the message.
   */
  lemma {:induction false} SinkGetsOneLine(stack: seq<TextLogger>, k: nat, m: LogMessage, s: Sink)
    requires k < |stack|
    requires forall j :: k <= j < |stack| ==> stack[j].formatter(m).Ok?
    requires Count(stack[k].sinks, s) == 1
    requires forall j :: 0 <= j < |stack| && j != k ==> s !in stack[j].sinks
    ensures Received(Writes(stack, m), s) == [stack[k].formatter(m).value, "\n"]
  {
    var n := |stack|;
    var init := stack[..n - 1];
    var inner := stack[n - 1];
    var t := inner.formatter(m).value;
    ReceivedAppend(Emit(inner.sinks, t), Writes(init, m), s);
    if k == n - 1 {
      ReceivedEmit(inner.sinks, t, s);
      RepeatOnce([t, "\n"]);
      InFootprint(init, s);
      ReceivedOutside(init, m, s);
    } else {
      EmitOutside(inner.sinks, t, s);
      SinkGetsOneLine(init, k, m, s);
    }
  }

  /**
   * A sink shared by two stacked loggers receives the inner logger's line
   * first, then the outer one's.
   */
  lemma SharedSinkOrder(outer: TextLogger, inner: TextLogger, m: LogMessage, s: Sink)
    requires outer.formatter(m).Ok? && inner.formatter(m).Ok?
    requires Count(outer.sinks, s) == 1 && Count(inner.sinks, s) == 1
    ensures Received(Writes([outer, inner], m), s)
         == [inner.formatter(m).value, "\n", outer.formatter(m).value, "\n"]
  {
    var ti, to := inner.formatter(m).value, outer.formatter(m).value;
    InnermostFirst([outer], inner, m);
    InnermostFirst([], outer, m);
    assert [outer] == [] + [outer];
    ReceivedAppend(Emit(inner.sinks, ti), Writes([outer], m), s);
    ReceivedAppend(Emit(outer.sinks, to), Writes([], m), s);
    ReceivedEmit(inner.sinks, ti, s);
    ReceivedEmit(outer.sinks, to, s);
    RepeatOnce([ti, "\n"]);
    RepeatOnce([to, "\n"]);
  }

  /**
   * A one-line `str` message sent to a default-formatted logger with one
   * sink: the sink gets the decorated line, then a line break.
   */
  lemma OneLoggerOneLine(env: Env, logger: TextLogger, s: Sink, text: string, l: LogLevel)
    requires logger.formatter == DefaultFormatter(env)
    requires logger.sinks == [s]
    requires '\n' !in text
    ensures var line := Decoration(env, LevelLabel(env, Level(l)).value, 0) + text;
            && logger.formatter(LogMessage(Str(text), Level(l))) == Ok(line)
            && Received(Writes([logger], LogMessage(Str(text), Level(l))), s) == [line, "\n"]
  {
    var m := LogMessage(Str(text), Level(l));
    var line := Decoration(env, LevelLabel(env, Level(l)).value, 0) + text;
    assert logger.formatter(m) == Ok(line) by {
      OneSegmentOneLine(env, text, l);
      assert logger.formatter(m) == DefaultFormat(env, m);
    }
    assert Count(logger.sinks, s) == 1 by {
      assert logger.sinks[..0] == [];
    }
    var stack := [logger];
    assert forall j :: 0 <= j < |stack| ==> stack[j] == logger;
    SinkGetsOneLine(stack, 0, m, s);
  }
}
