/** Properties of the argument normalisation: the three tests are
    independent, order is kept, the message is always trimmed, errors are
    last-wins, and context is attached only under the global flag. */
module LogParamsProperties {
  import opened Wrappers
  import opened JsValues
  import opened LogContext
  import opened LogParams

  /** The three tests never overlap, and what none of them accepts is a
      null, undefined, number, bigint, boolean, symbol or function. */
  lemma ClassificationIsExclusive(v: Value)
    ensures !(IsMessage(v) && IsPlainObject(v))
    ensures !(IsMessage(v) && IsError(v))
    ensures !(IsPlainObject(v) && IsError(v))
    ensures !IsMessage(v) && !IsPlainObject(v) && !IsError(v) <==>
      v.Null? || v.Undefined? || v.Num? || v.BigInt? || v.Bool? || v.Sym? || v.Fn?
  {
  }

  /** Collecting strings distributes over concatenation of argument lists. */
  lemma {:induction false} StringsAppend(a: seq<Value>, b: seq<Value>)
    ensures Strings(a + b) == Strings(a) + Strings(b)
    decreases |a|
  {
    if |a| == 0 {
      assert a + b == b;
    } else {
      assert a + b == [a[0]] + (a[1..] + b);
      assert a == [a[0]] + a[1..];
      StringsCons(a[0], a[1..] + b);
      StringsCons(a[0], a[1..]);
      StringsAppend(a[1..], b);
    }
  }

  /** Collecting objects distributes over concatenation of argument lists. */
  lemma {:induction false} PlainObjectsAppend(a: seq<Value>, b: seq<Value>)
    ensures PlainObjects(a + b) == PlainObjects(a) + PlainObjects(b)
    decreases |a|
  {
    if |a| == 0 {
      assert a + b == b;
    } else {
      assert a + b == [a[0]] + (a[1..] + b);
      assert a == [a[0]] + a[1..];
      PlainObjectsCons(a[0], a[1..] + b);
      PlainObjectsCons(a[0], a[1..]);
      PlainObjectsAppend(a[1..], b);
    }
  }

  /** An argument placed between two runs of arguments lands between their
      contributions: the message fragments and the objects keep argument
      order, and an error placed last wins over every earlier one. */
  lemma ArgumentOrderKept(a: seq<Value>, v: Value, b: seq<Value>)
    ensures Strings(a + [v] + b) == Strings(a) + (if v.Str? then [v.text] else []) + Strings(b)
    ensures PlainObjects(a + [v] + b) == PlainObjects(a) + (if v.Obj? then [v] else []) + PlainObjects(b)
    ensures v.Err? ==> LastError(a + [v]) == Some(v)
  {
    StringsAround(a, v, b);
    PlainObjectsAround(a, v, b);
    if v.Err? {
      LastErrorIndexUnique(a + [v], |a|);
    }
  }

  /** The string part of the lemma above. */
  lemma StringsAround(a: seq<Value>, v: Value, b: seq<Value>)
    ensures Strings(a + [v] + b) == Strings(a) + (if v.Str? then [v.text] else []) + Strings(b)
  {
    StringsAppend(a + [v], b);
    StringsAppend(a, [v]);
    StringsCons(v, []);
    assert [v] + [] == [v];
  }

  /** The object part of the lemma above. */
  lemma PlainObjectsAround(a: seq<Value>, v: Value, b: seq<Value>)
    ensures PlainObjects(a + [v] + b) == PlainObjects(a) + (if v.Obj? then [v] else []) + PlainObjects(b)
  {
    PlainObjectsAppend(a + [v], b);
    PlainObjectsAppend(a, [v]);
    PlainObjectsCons(v, []);
    assert [v] + [] == [v];
  }

  /** An argument that is not a string leaves the message as it would be
      without it, wherever it stands. */
  lemma NonStringKeepsMessage(a: seq<Value>, v: Value, b: seq<Value>, amb: Ambient)
    requires !v.Str?
    ensures GetLogParams(a + [v] + b, amb).1 == GetLogParams(a + b, amb).1
  {
    StringsAround(a, v, b);
    StringsAppend(a, b);
    assert Strings(a) + [] + Strings(b) == Strings(a) + Strings(b);
    assert Strings(a + [v] + b) == Strings(a + b);
  }

  /** An argument that is not a non-error object leaves the object list as
      it would be without it. */
  lemma NonObjectKeepsObjects(a: seq<Value>, v: Value, b: seq<Value>, amb: Ambient)
    requires !v.Obj?
    ensures GetLogParams(a + [v] + b, amb).0.objects == GetLogParams(a + b, amb).0.objects
  {
    PlainObjectsAround(a, v, b);
    PlainObjectsAppend(a, b);
    assert PlainObjects(a) + [] + PlainObjects(b) == PlainObjects(a) + PlainObjects(b);
    assert PlainObjects(a + [v] + b) == PlainObjects(a + b);
  }

  /** An argument that is not an error leaves the recorded error as it would
      be without it. */
  lemma NonErrorKeepsErr(a: seq<Value>, v: Value, b: seq<Value>, amb: Ambient)
    requires !v.Err?
    ensures GetLogParams(a + [v] + b, amb).0.err == GetLogParams(a + b, amb).0.err
  {
    LastErrorAppend(a + [v], b);
    LastErrorAppend(a, [v]);
    LastErrorAppend(a, b);
    assert LastErrorIndex([v]).None?;
  }

  /** The three tests act independently: a null, undefined, number, bigint,
      boolean, symbol or function argument is dropped without trace. */
  lemma DroppedArgumentIgnored(a: seq<Value>, v: Value, b: seq<Value>, amb: Ambient)
    requires !v.Str? && !v.Obj? && !v.Err?
    ensures GetLogParams(a + [v] + b, amb) == GetLogParams(a + b, amb)
  {
    NonStringKeepsMessage(a, v, b, amb);
    NonObjectKeepsObjects(a, v, b, amb);
    NonErrorKeepsErr(a, v, b, amb);
  }

  /** Whatever the arguments, the message never starts with whitespace,
      after every step of the fold. */
  lemma MessageTrimmedAtEveryStep(args: seq<Value>, k: nat)
    requires k <= |args|
    ensures Trimmed(ForEach(Start, args[..k]).message)
  {
    FoldMatchesReference(args[..k]);
  }

  /** Leading whitespace is all the message loses: the joined strings are
      some whitespace followed by the message. */
  lemma MessageKeepsInnerWhitespace(args: seq<Value>, amb: Ambient)
    ensures var joined, msg := Join(Strings(args)), GetLogParams(args, amb).1;
      && |msg| <= |joined|
      && joined == joined[..|joined| - |msg|] + msg
      && forall i :: 0 <= i < |joined| - |msg| ==> IsWs(joined[i])
  {
    var joined, msg := Join(Strings(args)), GetLogParams(args, amb).1;
    TrimStartDropsOnlyWhitespace(joined);
    assert joined == joined[..|joined| - |msg|] + joined[|joined| - |msg|..];
  }

  /** A call made of strings only: the message is their trimmed join and
      neither objects nor an error are recorded. */
  lemma OnlyStrings(args: seq<Value>, amb: Ambient)
    requires forall i :: 0 <= i < |args| ==> args[i].Str?
    ensures |Strings(args)| == |args|
    ensures forall i :: 0 <= i < |args| ==> Strings(args)[i] == args[i].text
    ensures GetLogParams(args, amb).0.objects.None?
    ensures GetLogParams(args, amb).0.err.None?
  {
    StringsOfTexts(args);
    PlainObjectsMembers(args);
    if |PlainObjects(args)| > 0 {
      assert PlainObjects(args)[0] in PlainObjects(args);
    }
  }

  /** Over strings only, the collected texts are the arguments' texts. */
  lemma {:induction false} StringsOfTexts(args: seq<Value>)
    requires forall i :: 0 <= i < |args| ==> args[i].Str?
    ensures |Strings(args)| == |args|
    ensures forall i :: 0 <= i < |args| ==> Strings(args)[i] == args[i].text
    decreases |args|
  {
    if |args| > 0 {
      StringsOfTexts(args[1..]);
      assert args == [args[0]] + args[1..];
      StringsCons(args[0], args[1..]);
    }
  }

  /** Two errors in a row: the second one is recorded. */
  lemma TwoErrorsLastWins(e1: nat, e2: nat, amb: Ambient)
    ensures GetLogParams([Err(e1), Err(e2)], amb).0.err == Some(Err(e2))
  {
    LastErrorIndexUnique([Err(e1), Err(e2)], 1);
  }

  /** A single object and no text: empty message, one recorded object. */
  lemma SingleObject(x: nat, amb: Ambient)
    ensures GetLogParams([Obj(x)], amb).1 == ""
    ensures GetLogParams([Obj(x)], amb).0.objects == Some([Obj(x)])
    ensures GetLogParams([Obj(x)], amb).0.err.None?
  {
    StringsCons(Obj(x), []);
    PlainObjectsCons(Obj(x), []);
    assert [Obj(x)] == [Obj(x)] + [];
    assert LastErrorIndex([Obj(x)]).None?;
  }

  /** Text, an object and an error together, each in its own place. */
  lemma MixedCall(user: nat, e: nat, amb: Ambient)
    ensures var r := GetLogParams([Str("User logged in"), Obj(user), Err(e)], amb);
      && r.1 == "User logged in"
      && r.0.objects == Some([Obj(user)])
      && r.0.err == Some(Err(e))
  {
    var args := [Str("User logged in"), Obj(user), Err(e)];
    assert args == [args[0]] + ([args[1]] + ([args[2]] + []));
    StringsCons(args[2], []);
    StringsCons(args[1], [args[2]]);
    StringsCons(args[0], [args[1], args[2]]);
    PlainObjectsCons(args[2], []);
    PlainObjectsCons(args[1], [args[2]]);
    PlainObjectsCons(args[0], [args[1], args[2]]);
    assert Strings(args) == ["User logged in"];
    assert PlainObjects(args) == [Obj(user)];
    assert Join(["User logged in"]) == "User logged in";
    TrimStartUnique("User logged in", 0);
    LastErrorIndexUnique(args, 2);
  }

  /** When every context lookup throws and no correlation id is set, the
      record is still built, with no context field. */
  lemma TotalContextFailure(args: seq<Value>, amb: Ambient)
    requires AllLookupsFail(amb.store) && amb.store.correlationId.None?
    ensures NoContext(GetLogParams(args, amb).0)
  {
  }
}
