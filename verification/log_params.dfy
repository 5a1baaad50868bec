/** The argument normalisation behind every console adapter: a variadic
    console call becomes one structured payload (the "merging object") and
    one message string. */
module LogParams {
  import opened Wrappers
  import opened JsValues
  import opened LogContext

  // ---------------------------------------------------------------------
  // Classification of one argument: three independent tests.

  /** `typeof v === "object" && v !== null && !(v instanceof Error)`:
      exactly the non-error objects (arrays and boxed strings included). */
  function IsPlainObject(v: Value): (b: bool)
    ensures b <==> v.Obj?
  {
    TypeOf(v) == ObjectTag && v != Null && !InstanceOfError(v)
  }

  /** `v instanceof Error`: exactly the error objects. */
  function IsError(v: Value): (b: bool)
    ensures b <==> v.Err?
  {
    InstanceOfError(v)
  }

  /** `typeof v === "string"`: exactly the primitive strings. */
  function IsMessage(v: Value): (b: bool)
    ensures b <==> v.Str?
  {
    TypeOf(v) == StringTag
  }

  // ---------------------------------------------------------------------
  // The fold over the arguments, step by step as the source runs it.

  /** The three local variables of the fold: the last error seen, the
      objects pushed so far and the message built so far. */
  datatype Acc = Acc(err: Option<Value>, objects: seq<Value>, message: string)

  /** The state before the first argument. */
  const Start: Acc := Acc(None, [], "")

  /** The first test of the loop body: a string is appended after one space
      and the result trimmed at the front. */
  function StepMessage(message: string, arg: Value): string {
    if IsMessage(arg) then TrimStart(message + " " + arg.text) else message
  }

  /** The second test: a non-error object is pushed. */
  function StepObjects(objects: seq<Value>, arg: Value): seq<Value> {
    if IsPlainObject(arg) then objects + [arg] else objects
  }

  /** The third test: an error overwrites the one kept so far. */
  function StepErr(err: Option<Value>, arg: Value): Option<Value> {
    if IsError(arg) then Some(arg) else err
  }

  /** One iteration of the loop body; the three tests are applied one after
      the other, none of them excludes the others. */
  function Step(acc: Acc, arg: Value): Acc {
    Acc(StepErr(acc.err, arg), StepObjects(acc.objects, arg), StepMessage(acc.message, arg))
  }

  /** `args.forEach(...)`: the steps applied from the first argument to the
      last. */
  function ForEach(acc: Acc, args: seq<Value>): Acc
    decreases |args|
  {
    if |args| == 0 then acc else ForEach(Step(acc, args[0]), args[1..])
  }

  // ---------------------------------------------------------------------
  // Reference definitions of what the fold collects.

  /** The texts of the string arguments, in argument order. */
  function Strings(args: seq<Value>): (r: seq<string>)
    ensures |r| <= |args|
    decreases |args|
  {
    if |args| == 0 then []
    else (if args[0].Str? then [args[0].text] else []) + Strings(args[1..])
  }

  /** The non-error object arguments, in argument order. */
  function PlainObjects(args: seq<Value>): (r: seq<Value>)
    ensures |r| <= |args|
    decreases |args|
  {
    if |args| == 0 then []
    else (if args[0].Obj? then [args[0]] else []) + PlainObjects(args[1..])
  }

  /** A text is among the collected strings exactly when a string argument
      carries it. */
  lemma {:induction false} StringsMembers(args: seq<Value>)
    ensures forall s :: s in Strings(args) <==> Str(s) in args
    decreases |args|
  {
    if |args| > 0 {
      StringsMembers(args[1..]);
      assert args == [args[0]] + args[1..];
    }
  }

  /** A value is among the collected objects exactly when it is an object
      argument. */
  lemma {:induction false} PlainObjectsMembers(args: seq<Value>)
    ensures forall v :: v in PlainObjects(args) <==> v in args && v.Obj?
    decreases |args|
  {
    if |args| > 0 {
      PlainObjectsMembers(args[1..]);
      assert args == [args[0]] + args[1..];
    }
  }

  /** `ss.join(" ")`: the strings separated by single spaces. */
  function Join(ss: seq<string>): string
    decreases |ss|
  {
    if |ss| == 0 then ""
    else if |ss| == 1 then ss[0]
    else ss[0] + " " + Join(ss[1..])
  }

  /** The position of the last error argument, found by scanning from the
      end: no later argument is an error, and there is none at all when the
      answer is `None`. */
  function LastErrorIndex(args: seq<Value>): (r: Option<nat>)
    ensures r.Some? ==> r.value < |args| && args[r.value].Err?
    ensures r.Some? ==> forall j :: r.value < j < |args| ==> !args[j].Err?
    ensures r.None? <==> forall j :: 0 <= j < |args| ==> !args[j].Err?
    decreases |args|
  {
    if |args| == 0 then None
    else if args[|args| - 1].Err? then Some(|args| - 1)
    else LastErrorIndex(args[..|args| - 1])
  }

  /** The last error argument, if any. */
  function LastError(args: seq<Value>): Option<Value> {
    match LastErrorIndex(args)
    case Some(i) => Some(args[i])
    case None => None
  }

  // ---------------------------------------------------------------------
  // The fold agrees with the reference definitions.

  /** The message the fold would build from a trimmed message `m` when the
      strings `ss` follow: each is appended after one space. */
  function SpaceEach(ss: seq<string>): string
    decreases |ss|
  {
    if |ss| == 0 then "" else " " + ss[0] + SpaceEach(ss[1..])
  }

  /** Prefixing every string with a space is one space before the join. */
  lemma {:induction false} SpaceEachIsSpacedJoin(ss: seq<string>)
    requires |ss| > 0
    ensures SpaceEach(ss) == " " + Join(ss)
    decreases |ss|
  {
    if |ss| > 1 {
      SpaceEachIsSpacedJoin(ss[1..]);
    }
  }

  /** Any index that is an error with no error after it is the last one. */
  lemma LastErrorIndexUnique(args: seq<Value>, i: nat)
    requires i < |args| && args[i].Err?
    requires forall j :: i < j < |args| ==> !args[j].Err?
    ensures LastErrorIndex(args) == Some(i)
  {
  }

  /** The last error of a concatenation: the second part's, or else the
      first part's. */
  lemma LastErrorAppend(a: seq<Value>, b: seq<Value>)
    ensures LastError(a + b) == if LastError(b).Some? then LastError(b) else LastError(a)
  {
    var ab := a + b;
    match LastErrorIndex(b)
    case Some(k) =>
      LastErrorIndexUnique(ab, |a| + k);
    case None =>
      match LastErrorIndex(a)
      case Some(k) =>
        LastErrorIndexUnique(ab, k);
      case None =>
        assert forall j :: 0 <= j < |ab| ==> !ab[j].Err? by {
          forall j | 0 <= j < |ab| ensures !ab[j].Err? {
            if j < |a| { assert ab[j] == a[j]; } else { assert ab[j] == b[j - |a|]; }
          }
        }
  }

  /** The fold's message after any arguments, from any trimmed message:
      every string argument is appended after one space, then the whole is
      trimmed. */
  lemma {:induction false} ForEachMessage(acc: Acc, args: seq<Value>)
    requires Trimmed(acc.message)
    ensures ForEach(acc, args).message == TrimStart(acc.message + SpaceEach(Strings(args)))
    decreases |args|
  {
    if |args| == 0 {
      assert acc.message + "" == acc.message;
    } else {
      var a, rest := args[0], args[1..];
      assert args == [a] + rest;
      assert ForEach(acc, args) == ForEach(Step(acc, a), rest);
      ForEachMessage(Step(acc, a), rest);
      MessageStep(acc, a, rest);
    }
  }

  /** One argument's effect on the message, in the form the induction
      above needs. */
  lemma MessageStep(acc: Acc, a: Value, rest: seq<Value>)
    ensures TrimStart(Step(acc, a).message + SpaceEach(Strings(rest)))
         == TrimStart(acc.message + SpaceEach(Strings([a] + rest)))
  {
    StringsCons(a, rest);
    if a.Str? {
      StringStep(acc.message, a.text, SpaceEach(Strings(rest)));
      SpaceEachCons(a.text, Strings(rest));
    } else {
      assert Strings([a] + rest) == Strings(rest);
    }
  }

  /** Appending one string to a message and trimming, then appending the
      rest, trims like appending everything at once. */
  lemma StringStep(msg: string, text: string, tail: string)
    ensures TrimStart(TrimStart(msg + " " + text) + tail) == TrimStart(msg + (" " + text + tail))
  {
    TrimStartAbsorbs(msg + " " + text, tail);
    assert (msg + " " + text) + tail == msg + " " + (text + tail);
    assert (msg + " ") + (text + tail) == msg + (" " + (text + tail));
    assert " " + text + tail == " " + (text + tail);
  }

  /** Unfolding `Strings` once at the front. */
  lemma StringsCons(a: Value, rest: seq<Value>)
    ensures Strings([a] + rest) == (if a.Str? then [a.text] else []) + Strings(rest)
  {
    assert ([a] + rest)[1..] == rest;
  }

  /** Unfolding `PlainObjects` once at the front. */
  lemma PlainObjectsCons(a: Value, rest: seq<Value>)
    ensures PlainObjects([a] + rest) == (if a.Obj? then [a] else []) + PlainObjects(rest)
  {
    assert ([a] + rest)[1..] == rest;
  }

  /** Unfolding `SpaceEach` once at the front. */
  lemma SpaceEachCons(s: string, ss: seq<string>)
    ensures SpaceEach([s] + ss) == " " + s + SpaceEach(ss)
  {
    assert ([s] + ss)[1..] == ss;
  }

  /** The fold's object list: the starting list followed by the object
      arguments in order. */
  lemma {:induction false} ForEachObjects(acc: Acc, args: seq<Value>)
    ensures ForEach(acc, args).objects == acc.objects + PlainObjects(args)
    decreases |args|
  {
    if |args| == 0 {
      assert acc.objects + [] == acc.objects;
    } else {
      var a, rest := args[0], args[1..];
      assert args == [a] + rest;
      var next := Step(acc, a);
      assert ForEach(acc, args) == ForEach(next, rest);
      ForEachObjects(next, rest);
      PlainObjectsCons(a, rest);
      var pushed := if a.Obj? then [a] else [];
      assert next.objects == acc.objects + pushed;
      assert PlainObjects(args) == pushed + PlainObjects(rest);
      assert (acc.objects + pushed) + PlainObjects(rest) == acc.objects + (pushed + PlainObjects(rest));
    }
  }

  /** The fold's error: the last error argument, or the starting one when no
      argument is an error. */
  lemma {:induction false} ForEachErr(acc: Acc, args: seq<Value>)
    ensures ForEach(acc, args).err == if LastError(args).Some? then LastError(args) else acc.err
    decreases |args|
  {
    if |args| > 0 {
      var a, rest := args[0], args[1..];
      assert args == [a] + rest;
      ForEachErr(Step(acc, a), rest);
      LastErrorAppend([a], rest);
    }
  }

  /** From the empty start, the fold builds exactly the reference message,
      object list and last error. */
  lemma FoldMatchesReference(args: seq<Value>)
    ensures ForEach(Start, args).message == TrimStart(Join(Strings(args)))
    ensures ForEach(Start, args).objects == PlainObjects(args)
    ensures ForEach(Start, args).err == LastError(args)
  {
    ForEachMessage(Start, args);
    ForEachObjects(Start, args);
    ForEachErr(Start, args);
    var ss := Strings(args);
    if |ss| > 0 {
      SpaceEachIsSpacedJoin(ss);
      assert ("" + SpaceEach(ss))[1..] == Join(ss);
    }
  }

  // ---------------------------------------------------------------------
  // The merging object.

  /** The structured side of one log record. A field that is `None` is
      either absent or holds `undefined`; the two serialise alike. */
  datatype Payload = Payload(
    objects: Option<seq<Value>>,
    err: Option<Value>,
    tenantId: Option<string>,
    appId: Option<string>,
    identityId: Option<string>,
    identityType: Option<IdentityType>,
    correlationId: Option<string>)

  /** No ambient context field is set. */
  predicate NoContext(p: Payload) {
    p.tenantId.None? && p.appId.None? && p.identityId.None?
    && p.identityType.None? && p.correlationId.None?
  }

  /** `getLogParams(args)`: the merging object and the message of a console
      call. The message is the string arguments joined by single spaces with
      leading whitespace removed; `objects` lists the non-error objects in
      order and is left out when there are none; `err` is the last error;
      the context fields are filled only under the global context flag, each
      from its best-effort lookup. */
  function GetLogParams(args: seq<Value>, amb: Ambient): (r: (Payload, string))
    ensures r.1 == TrimStart(Join(Strings(args)))
    ensures r.0.objects == if |PlainObjects(args)| == 0 then None else Some(PlainObjects(args))
    ensures r.0.err == LastError(args)
    ensures !amb.logContext ==> NoContext(r.0)
    ensures amb.logContext ==>
      && r.0.tenantId == GetTenantId(amb.store.tenantId)
      && r.0.appId == GetAppId(amb.store.appId)
      && r.0.correlationId == amb.store.correlationId
    ensures amb.logContext && GetIdentity(amb.store.identity).Some? ==>
      && r.0.identityId == Some(GetIdentity(amb.store.identity).value.id)
      && r.0.identityType == Some(GetIdentity(amb.store.identity).value.kind)
    ensures GetIdentity(amb.store.identity).None? ==>
      r.0.identityId.None? && r.0.identityType.None?
  {
    FoldMatchesReference(args);
    var acc := ForEach(Start, args);
    var identity := GetIdentity(amb.store.identity);
    var payload := Payload(
      if |acc.objects| > 0 then Some(acc.objects) else None,
      acc.err,
      if amb.logContext then GetTenantId(amb.store.tenantId) else None,
      if amb.logContext then GetAppId(amb.store.appId) else None,
      if amb.logContext && identity.Some? then Some(identity.value.id) else None,
      if amb.logContext && identity.Some? then Some(identity.value.kind) else None,
      if amb.logContext then amb.store.correlationId else None);
    (payload, acc.message)
  }
}
