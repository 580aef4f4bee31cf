/** The logger wrapper: a sticky context merged into every record, one
    write path behind every level method, and a `MessageLogged` event for
    each record when a dispatcher is attached. */
module Logging {
  import opened Wrappers
  import opened Values
  import opened Events

  /** A message as the level methods accept it. An object is Jsonable when
      it has `toJson`, Arrayable when it has `toArray`, possibly both;
      `asString` is its string cast. */
  datatype Message =
    | ArrayMessage(items: Value)
    | ObjectMessage(toJson: Option<string>, toArray: Option<Value>, asString: string)
    | ScalarMessage(asString: string)

  datatype LoggerError = RuntimeException(message: string)

  const DispatcherNotSet := "Events dispatcher has not been set."

  /** `formatMessage`: arrays are exported, then Jsonable objects use their
      JSON, then Arrayable objects export their array, and everything else
      is cast to string. `varExport` stands for `var_export($x, true)`. */
  function FormatMessage(message: Message, varExport: Value -> string): (r: string)
    ensures message.ArrayMessage? ==> r == varExport(message.items)
    ensures message.ObjectMessage? && message.toJson.Some? ==> r == message.toJson.value
    ensures message.ObjectMessage? && message.toJson.None? && message.toArray.Some? ==>
              r == varExport(message.toArray.value)
    ensures message.ObjectMessage? && message.toJson.None? && message.toArray.None? ==> r == message.asString
    ensures message.ScalarMessage? ==> r == message.asString
  {
    match message
    case ArrayMessage(a) => varExport(a)
    case ObjectMessage(json, arr, str) =>
      if json.Some? then json.value
      else if arr.Some? then varExport(arr.value)
      else str
    case ScalarMessage(str) => str
  }

  /** `array_merge` of two string-keyed arrays: every key of either, the
      later array winning on a clash. */
  function Merge(earlier: map<string, Value>, later: map<string, Value>): (r: map<string, Value>)
    ensures r.Keys == earlier.Keys + later.Keys
    ensures forall k :: k in later ==> r[k] == later[k]
    ensures forall k :: k in earlier && k !in later ==> r[k] == earlier[k]
  {
    earlier + later
  }

  /** Merging the sticky context step by step is merging it once with the
      combined additions: `withContext(a)` then `withContext(b)` is
      `withContext(merge(a, b))`, and a later call-site context still wins. */
  lemma MergeAssociates(a: map<string, Value>, b: map<string, Value>, c: map<string, Value>)
    ensures Merge(Merge(a, b), c) == Merge(a, Merge(b, c))
  {
  }

  datatype WriterCall = WriterCall(level: string, message: string, context: map<string, Value>)

  /** The underlying PSR logger: every call it receives, oldest first. */
  class Writer {
    var calls: seq<WriterCall>

    constructor()
      ensures calls == []
    {
      calls := [];
    }

    /** `$logger->{$level}($message, $context)`. */
    method Call(level: string, message: string, context: map<string, Value>)
      modifies this
      ensures calls == old(calls) + [WriterCall(level, message, context)]
    {
      calls := calls + [WriterCall(level, message, context)];
    }
  }

  class Logger {
    const writer: Writer
    var dispatcher: Dispatcher?
    /** The sticky context added to every record. */
    var context: map<string, Value>
    /** `var_export($x, true)`. */
    const varExport: Value -> string

    constructor(writer: Writer, dispatcher: Dispatcher?, varExport: Value -> string)
      ensures this.writer == writer && this.dispatcher == dispatcher && this.varExport == varExport
      ensures context == map[]
    {
      this.writer := writer;
      this.dispatcher := dispatcher;
      this.varExport := varExport;
      context := map[];
    }

    /** One record written: the writer's `level` method was called once,
        with the formatted message and the call-site context merged over
        the sticky one; the same record was dispatched as `MessageLogged`
        exactly when a dispatcher is attached; the logger itself is
        unchanged. */
    twostate predicate WroteOnce(level: string, message: Message, callContext: map<string, Value>)
      reads this, writer, dispatcher
    {
      var formatted := FormatMessage(message, varExport);
      var merged := Merge(old(context), callContext);
      && context == old(context)
      && dispatcher == old(dispatcher)
      && writer.calls == old(writer.calls) + [WriterCall(level, formatted, merged)]
      && (dispatcher != null ==>
            && dispatcher.dispatched == old(dispatcher.dispatched) + [MessageLogged(level, formatted, merged)]
            && dispatcher.listeners == old(dispatcher.listeners))
    }

    /** `writeLog`: write first, then publish. */
    method WriteLog(level: string, message: Message, callContext: map<string, Value>)
      modifies writer, dispatcher
      ensures WroteOnce(level, message, callContext)
    {
      var formatted := FormatMessage(message, varExport);
      var merged := Merge(context, callContext);
      writer.Call(level, formatted, merged);
      FireLogEvent(level, formatted, merged);
    }

    /** `fireLogEvent`: publishes only when a dispatcher is attached. */
    method FireLogEvent(level: string, message: string, logContext: map<string, Value>)
      modifies dispatcher
      ensures dispatcher != null ==> dispatcher.dispatched == old(dispatcher.dispatched) + [MessageLogged(level, message, logContext)]
      ensures dispatcher != null ==> dispatcher.listeners == old(dispatcher.listeners)
    {
      if dispatcher != null {
        dispatcher.Dispatch(MessageLogged(level, message, logContext));
      }
    }

    method Emergency(message: Message, callContext: map<string, Value>)
      modifies writer, dispatcher
      ensures WroteOnce("emergency", message, callContext)
    {
      WriteLog("emergency", message, callContext);
    }

    method Alert(message: Message, callContext: map<string, Value>)
      modifies writer, dispatcher
      ensures WroteOnce("alert", message, callContext)
    {
      WriteLog("alert", message, callContext);
    }

    method Critical(message: Message, callContext: map<string, Value>)
      modifies writer, dispatcher
      ensures WroteOnce("critical", message, callContext)
    {
      WriteLog("critical", message, callContext);
    }

    method Error(message: Message, callContext: map<string, Value>)
      modifies writer, dispatcher
      ensures WroteOnce("error", message, callContext)
    {
      WriteLog("error", message, callContext);
    }

    method Warning(message: Message, callContext: map<string, Value>)
      modifies writer, dispatcher
      ensures WroteOnce("warning", message, callContext)
    {
      WriteLog("warning", message, callContext);
    }

    method Notice(message: Message, callContext: map<string, Value>)
      modifies writer, dispatcher
      ensures WroteOnce("notice", message, callContext)
    {
      WriteLog("notice", message, callContext);
    }

    method Info(message: Message, callContext: map<string, Value>)
      modifies writer, dispatcher
      ensures WroteOnce("info", message, callContext)
    {
      WriteLog("info", message, callContext);
    }

    method Debug(message: Message, callContext: map<string, Value>)
      modifies writer, dispatcher
      ensures WroteOnce("debug", message, callContext)
    {
      WriteLog("debug", message, callContext);
    }

    /** `log`: the caller's level goes straight to the writer. */
    method Log(level: string, message: Message, callContext: map<string, Value>)
      modifies writer, dispatcher
      ensures WroteOnce(level, message, callContext)
    {
      WriteLog(level, message, callContext);
    }

    /** `write`: the same as `log`. */
    method Write(level: string, message: Message, callContext: map<string, Value>)
      modifies writer, dispatcher
      ensures WroteOnce(level, message, callContext)
    {
      WriteLog(level, message, callContext);
    }

    method WithContext(added: map<string, Value>) returns (self: Logger)
      modifies this`context
      ensures context == Merge(old(context), added)
      ensures self == this
    {
      context := Merge(context, added);
      self := this;
    }

    method WithoutContext() returns (self: Logger)
      modifies this`context
      ensures context == map[]
      ensures self == this
    {
      context := map[];
      self := this;
    }

    /** `listen`: registers a `MessageLogged` listener, or throws when no
        dispatcher is attached. */
    method Listen(callback: Closure) returns (r: Outcome<LoggerError>)
      modifies dispatcher
      ensures r.Fail? <==> dispatcher == null
      ensures r.Fail? ==> r.error == RuntimeException(DispatcherNotSet)
      ensures dispatcher != null ==> dispatcher.listeners == old(dispatcher.listeners) + [(MessageLoggedClass, callback)]
      ensures dispatcher != null ==> dispatcher.dispatched == old(dispatcher.dispatched)
    {
      if dispatcher == null {
        return Fail(RuntimeException(DispatcherNotSet));
      }
      dispatcher.Listen(MessageLoggedClass, callback);
      r := Pass;
    }

    method SetEventDispatcher(d: Dispatcher)
      modifies this`dispatcher
      ensures dispatcher == d
    {
      dispatcher := d;
    }
  }
}
