/** The part of the JavaScript runtime the console adapters depend on:
    argument values with their `typeof` tag and `instanceof Error` test,
    and `String.prototype.trimStart`. */
module JsValues {

  /** An argument of a console call. Every object-like value carries a
      reference, so two distinct objects are never equal. */
  datatype Value =
    | Str(text: string)   // a primitive string
    | Obj(ref: nat)       // a non-null object outside Error's prototype chain: a record, an array, a boxed string, a date, ...
    | Err(ref: nat)       // an object with Error.prototype on its prototype chain
    | Fn(ref: nat)        // a function
    | Sym(ref: nat)       // a symbol
    | Num                 // a number; which one plays no role here
    | BigInt(n: int)
    | Bool(b: bool)
    | Null
    | Undefined
  {
    /** Whether the value is a reference (and so has a `ref`). */
    predicate HasRef() {
      Obj? || Err? || Fn? || Sym?
    }
  }

  /** The results of the `typeof` operator. */
  datatype TypeTag =
    | StringTag | ObjectTag | FunctionTag | SymbolTag
    | NumberTag | BigIntTag | BooleanTag | UndefinedTag

  /** `typeof v`; note that `typeof null` is "object". */
  function TypeOf(v: Value): TypeTag {
    match v
    case Str(_) => StringTag
    case Obj(_) => ObjectTag
    case Err(_) => ObjectTag
    case Null => ObjectTag
    case Fn(_) => FunctionTag
    case Sym(_) => SymbolTag
    case Num => NumberTag
    case BigInt(_) => BigIntTag
    case Bool(_) => BooleanTag
    case Undefined => UndefinedTag
  }

  /** `v instanceof Error`: primitives are never instances of anything. */
  predicate InstanceOfError(v: Value) {
    v.Err?
  }

  /** The characters `trimStart` removes: the ECMAScript WhiteSpace
      (tab, vertical tab, form feed, space, no-break space, byte order mark
      and the Unicode space separators) and LineTerminator code points. */
  predicate IsWs(c: char) {
    || c == '\t' || c == '\n' || c == '\U{000B}' || c == '\U{000C}' || c == '\r'
    || c == ' ' || c == '\U{00A0}' || c == '\U{1680}'
    || ('\U{2000}' <= c <= '\U{200A}')
    || c == '\U{2028}' || c == '\U{2029}' || c == '\U{202F}' || c == '\U{205F}'
    || c == '\U{3000}' || c == '\U{FEFF}'
  }

  /** A string that `trimStart` leaves alone. */
  predicate Trimmed(s: string) {
    s == [] || !IsWs(s[0])
  }

  /** `s.trimStart()`: the suffix of `s` left after dropping its leading
      whitespace. */
  function TrimStart(s: string): (r: string)
    ensures |r| <= |s|
    ensures Trimmed(r)
    decreases |s|
  {
    if |s| > 0 && IsWs(s[0]) then TrimStart(s[1..]) else s
  }

  /** `trimStart` removes a prefix, and only whitespace: the result is a
      suffix of the input and every character before it is whitespace. */
  lemma {:induction false} TrimStartDropsOnlyWhitespace(s: string)
    ensures TrimStart(s) == s[|s| - |TrimStart(s)|..]
    ensures forall i :: 0 <= i < |s| - |TrimStart(s)| ==> IsWs(s[i])
    decreases |s|
  {
    if |s| > 0 && IsWs(s[0]) {
      TrimStartDropsOnlyWhitespace(s[1..]);
    }
  }

  /** The properties above determine `trimStart` completely: any suffix
      of `s` that is trimmed and is preceded only by whitespace is it. */
  lemma {:induction false} TrimStartUnique(s: string, k: nat)
    requires k <= |s|
    requires forall i :: 0 <= i < k ==> IsWs(s[i])
    requires Trimmed(s[k..])
    ensures TrimStart(s) == s[k..]
    decreases k
  {
    if k > 0 {
      TrimStartUnique(s[1..], k - 1);
      assert s[1..][k - 1..] == s[k..];
    }
  }

  /** Trimming a prefix before appending changes nothing once the whole is
      trimmed: `(x.trimStart() + y).trimStart() == (x + y).trimStart()`. */
  lemma {:induction false} TrimStartAbsorbs(x: string, y: string)
    ensures TrimStart(TrimStart(x) + y) == TrimStart(x + y)
    decreases |x|
  {
    if |x| > 0 && IsWs(x[0]) {
      assert (x + y)[1..] == x[1..] + y;
      TrimStartAbsorbs(x[1..], y);
    }
  }
}
