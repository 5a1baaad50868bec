/** The six console entry points, the adapters installed over them at module
    load, and `disableLogger`, which puts the originals back. Pino is the
    sink: every adapter call appends one record to it. */
module ConsoleOverrides {
  import opened Wrappers
  import opened JsValues
  import opened LogContext
  import opened LogParams

  /** The console methods the module replaces. */
  datatype EntryPoint = Log | Error | Info | Warn | Trace | Debug

  /** Pino's levels that the adapters use. */
  datatype Level = TraceLevel | DebugLevel | InfoLevel | WarnLevel | ErrorLevel

  /** One call of `logger.<level>(payload, message)`. */
  datatype Record = Record(level: Level, payload: Payload, message: string)

  /** A reference strictly above every reference among the arguments; an
      object allocated there is distinct from all of them. */
  function FreshRef(args: seq<Value>): (r: nat)
    ensures forall i :: 0 <= i < |args| && args[i].HasRef() ==> args[i].ref < r
    decreases |args|
  {
    if |args| == 0 then 0
    else
      var rest := FreshRef(args[1..]);
      if args[0].HasRef() && args[0].ref >= rest then args[0].ref + 1 else rest
  }

  /** The adapter installed as `console.<e>`: normalise the arguments and
      forward them at the mapped level. `log` and `info` both go to `info`;
      `trace` attaches a newly allocated error when the caller passed none,
      so that a stack is shown, and changes nothing else. */
  function RunAdapter(e: EntryPoint, args: seq<Value>, amb: Ambient): (rec: Record)
    ensures (e == Log || e == Info) <==> rec.level == InfoLevel
    ensures e == Warn <==> rec.level == WarnLevel
    ensures e == Error <==> rec.level == ErrorLevel
    ensures e == Debug <==> rec.level == DebugLevel
    ensures e == Trace <==> rec.level == TraceLevel
    ensures rec.message == GetLogParams(args, amb).1
    ensures e != Trace ==> rec.payload == GetLogParams(args, amb).0
    ensures e == Trace ==> rec.payload == GetLogParams(args, amb).0.(err := rec.payload.err)
    ensures e == Trace && LastError(args).Some? ==> rec.payload.err == LastError(args)
    ensures e == Trace && LastError(args).None? ==>
      rec.payload.err.Some? && rec.payload.err.value.Err? && rec.payload.err.value !in args
  {
    var p := GetLogParams(args, amb);
    match e
    case Log => Record(InfoLevel, p.0, p.1)
    case Info => Record(InfoLevel, p.0, p.1)
    case Warn => Record(WarnLevel, p.0, p.1)
    case Error => Record(ErrorLevel, p.0, p.1)
    case Trace =>
      var traced := if p.0.err.None? then p.0.(err := Some(Err(FreshRef(args)))) else p.0;
      Record(TraceLevel, traced, p.1)
    case Debug => Record(DebugLevel, p.0, p.1)
  }

  /** What a console method is bound to: some original function, or one of
      the adapters. */
  datatype Binding = Native(fn: nat) | Adapter(entry: EntryPoint)

  /** The six console bindings, in the order the module captures them. */
  datatype Console = Console(
    log: Binding, error: Binding, info: Binding,
    warn: Binding, trace: Binding, debug: Binding)
  {
    /** `console[e]`. */
    function Get(e: EntryPoint): Binding {
      match e
      case Log => log
      case Error => error
      case Info => info
      case Warn => warn
      case Trace => trace
      case Debug => debug
    }
  }

  /** A call that reached an original console function. */
  datatype NativeCall = NativeCall(fn: nat, args: seq<Value>)

  /** The process state this module touches: the live console bindings, the
      originals captured at load, what pino has been sent, and what reached
      the original console functions. */
  datatype World = World(
    console: Console,
    builtIns: Console,
    records: seq<Record>,
    passthrough: seq<NativeCall>)

  /** Evaluating the module: the current bindings are kept as the
      originals, then every entry point is replaced by its adapter. */
  function Load(original: Console): (w: World)
    ensures w.builtIns == original
    ensures forall e :: w.console.Get(e) == Adapter(e)
    ensures w.records == [] && w.passthrough == []
  {
    World(
      Console(Adapter(Log), Adapter(Error), Adapter(Info), Adapter(Warn), Adapter(Trace), Adapter(Debug)),
      original, [], [])
  }

  /** `disableLogger()`: every entry point gets its original back; nothing
      else changes. */
  function DisableLogger(w: World): (r: World)
    ensures forall e :: r.console.Get(e) == w.builtIns.Get(e)
    ensures r.builtIns == w.builtIns
    ensures r.records == w.records && r.passthrough == w.passthrough
  {
    w.(console := Console(
      w.builtIns.log, w.builtIns.error, w.builtIns.info,
      w.builtIns.warn, w.builtIns.trace, w.builtIns.debug))
  }

  /** `console.<e>(...args)`: whatever is bound there runs. An adapter adds
      one record to pino; an original function is recorded as reached. */
  function Call(w: World, e: EntryPoint, args: seq<Value>, amb: Ambient): (r: World)
    ensures r.console == w.console && r.builtIns == w.builtIns
    ensures |r.records| + |r.passthrough| == |w.records| + |w.passthrough| + 1
    ensures w.records <= r.records && w.passthrough <= r.passthrough
  {
    match w.console.Get(e)
    case Adapter(a) => w.(records := w.records + [RunAdapter(a, args, amb)])
    case Native(f) => w.(passthrough := w.passthrough + [NativeCall(f, args)])
  }
}
