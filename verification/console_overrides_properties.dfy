/** Properties of the console interception: installing then disabling
    restores the originals, calls go to pino exactly while the adapters are
    bound, and the adapters survive a failing context store. */
module ConsoleOverridesProperties {
  import opened Wrappers
  import opened JsValues
  import opened LogContext
  import opened LogParams
  import opened LogParamsProperties
  import opened ConsoleOverrides

  /** Loading the module and then disabling the logger leaves the console
      exactly as it was before the module was loaded. */
  lemma RestoreAfterInstall(original: Console)
    ensures DisableLogger(Load(original)).console == original
  {
    var c := DisableLogger(Load(original)).console;
    assert c.log == c.Get(Log) && c.error == c.Get(Error) && c.info == c.Get(Info);
    assert c.warn == c.Get(Warn) && c.trace == c.Get(Trace) && c.debug == c.Get(Debug);
  }

  /** Disabling twice is disabling once. */
  lemma DisableLoggerIdempotent(w: World)
    ensures DisableLogger(DisableLogger(w)) == DisableLogger(w)
  {
  }

  /** While an adapter is bound, a console call appends exactly its record
      to pino and reaches no original function. */
  lemma InstalledCallReachesPino(w: World, e: EntryPoint, args: seq<Value>, amb: Ambient)
    requires w.console.Get(e) == Adapter(e)
    ensures Call(w, e, args, amb).records == w.records + [RunAdapter(e, args, amb)]
    ensures Call(w, e, args, amb).passthrough == w.passthrough
  {
  }

  /** After the logger is disabled (with original functions captured), no
      console call reaches pino: each goes to the original function of its
      entry point. */
  lemma DisabledCallBypassesPino(w: World, e: EntryPoint, args: seq<Value>, amb: Ambient)
    requires forall e' :: w.builtIns.Get(e').Native?
    ensures Call(DisableLogger(w), e, args, amb).records == w.records
    ensures Call(DisableLogger(w), e, args, amb).passthrough
         == w.passthrough + [NativeCall(w.builtIns.Get(e).fn, args)]
  {
  }

  /** `console.trace()` with no arguments still shows a stack: the record
      carries a new error and an empty message. */
  lemma TraceWithoutArguments(amb: Ambient)
    ensures RunAdapter(Trace, [], amb).level == TraceLevel
    ensures RunAdapter(Trace, [], amb).message == ""
    ensures RunAdapter(Trace, [], amb).payload.err.Some?
    ensures RunAdapter(Trace, [], amb).payload.err.value.Err?
    ensures RunAdapter(Trace, [], amb).payload.objects.None?
  {
  }

  /** Every adapter builds its record even when every context lookup
      throws; the record then carries no context field. */
  lemma AdaptersSurviveContextFailure(e: EntryPoint, args: seq<Value>, amb: Ambient)
    requires AllLookupsFail(amb.store) && amb.store.correlationId.None?
    ensures NoContext(RunAdapter(e, args, amb).payload)
  {
    TotalContextFailure(args, amb);
  }
}
