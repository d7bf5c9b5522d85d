/** The condition evaluator of the alert manager (`evaluateCondition`,
    agents-monitor/lib/alerts.js:205-225).

    The source compiles a rule's condition string with `new Function`, binding
    the seven whitelisted metric fields as parameters, and treats anything that
    throws as "not met". Here a condition is a small syntax tree: comparisons
    between a field and a literal, `&&` and `||`, and an `Unsupported` leaf for
    any text outside that grammar. Evaluation follows JavaScript: operands are
    read left to right, `&&`/`||` short-circuit, a missing optional field reads
    as `undefined`, and an unsupported expression throws. A name outside the
    whitelist is treated as unbound and throws; in the source that holds for
    every name that is not also a global of the JavaScript host (a compiled
    function sees the global scope, so `Infinity` or `Math` resolve). */
module Conditions {
  import opened Common

  /** One agent's metrics, as handed to `evaluateRules`. */
  datatype Snapshot = Snapshot(
    agentId: string,
    agentName: string,
    status: string,
    successRate: real,
    executionTime: real,
    totalTokens: real,
    errorCount: Option<real>,
    cpuUsage: Option<real>,
    memoryUsage: Option<real>)

  /** The JavaScript values a condition can see. */
  datatype Value = Undefined | Num(n: real) | Str(s: string)

  /** The names bound when the condition is compiled (alerts.js:207-215). */
  const Whitelist: set<string> :=
    {"status", "successRate", "executionTime", "totalTokens", "errorCount", "cpuUsage", "memoryUsage"}

  function OptionalNumber(o: Option<real>): Value {
    if o.Some? then Num(o.value) else Undefined
  }

  /** The evaluation context built afresh from the snapshot on every call. */
  function Context(m: Snapshot): (ctx: map<string, Value>)
    ensures ctx.Keys == Whitelist
  {
    map[
      "status" := Str(m.status),
      "successRate" := Num(m.successRate),
      "executionTime" := Num(m.executionTime),
      "totalTokens" := Num(m.totalTokens),
      "errorCount" := OptionalNumber(m.errorCount),
      "cpuUsage" := OptionalNumber(m.cpuUsage),
      "memoryUsage" := OptionalNumber(m.memoryUsage)]
  }

  datatype Operand = Field(name: string) | NumLit(n: real) | StrLit(s: string)

  /** `<`, `<=`, `>`, `>=`, `===`, `!==`. */
  datatype CmpOp = Lt | Le | Gt | Ge | StrictEq | StrictNe

  datatype Cond =
    | Compare(op: CmpOp, lhs: Operand, rhs: Operand)
    | And(left: Cond, right: Cond)
    | Or(left: Cond, right: Cond)
    | Unsupported(text: string)

  /** Why an evaluation threw. */
  datatype Thrown = ReferenceError(name: string) | SyntaxError(text: string)

  datatype EvalResult = Ok(b: bool) | Threw(error: Thrown)

  /** Code-unit lexicographic order, JavaScript's `<` on two strings. */
  predicate StrLess(a: string, b: string)
    decreases |a|
  {
    if a == [] then b != []
    else if b == [] then false
    else if a[0] != b[0] then a[0] < b[0]
    else StrLess(a[1..], b[1..])
  }

  predicate StrictEquals(a: Value, b: Value) {
    match (a, b)
    case (Undefined, Undefined) => true
    case (Num(x), Num(y)) => x == y
    case (Str(x), Str(y)) => x == y
    case _ => false
  }

  /** `a < b`; `undefined` (NaN) and a string against a number compare false. */
  predicate LessThan(a: Value, b: Value) {
    match (a, b)
    case (Num(x), Num(y)) => x < y
    case (Str(x), Str(y)) => StrLess(x, y)
    case _ => false
  }

  /** `a <= b`, which JavaScript computes as `!(b < a)` when neither side is NaN. */
  predicate AtMost(a: Value, b: Value) {
    match (a, b)
    case (Num(x), Num(y)) => x <= y
    case (Str(x), Str(y)) => !StrLess(y, x)
    case _ => false
  }

  predicate Apply(op: CmpOp, a: Value, b: Value) {
    match op
    case Lt => LessThan(a, b)
    case Le => AtMost(a, b)
    case Gt => LessThan(b, a)
    case Ge => AtMost(b, a)
    case StrictEq => StrictEquals(a, b)
    case StrictNe => !StrictEquals(a, b)
  }

  datatype Lookup = Found(v: Value) | Unbound(name: string)

  function Resolve(o: Operand, ctx: map<string, Value>): Lookup {
    match o
    case Field(n) => if n in ctx then Found(ctx[n]) else Unbound(n)
    case NumLit(x) => Found(Num(x))
    case StrLit(s) => Found(Str(s))
  }

  function Eval(c: Cond, ctx: map<string, Value>): EvalResult {
    match c
    case Compare(op, l, r) =>
      (match Resolve(l, ctx)
       case Unbound(n) => Threw(ReferenceError(n))
       case Found(a) =>
         match Resolve(r, ctx)
         case Unbound(n) => Threw(ReferenceError(n))
         case Found(b) => Ok(Apply(op, a, b)))
    case And(l, r) =>
      (match Eval(l, ctx)
       case Threw(e) => Threw(e)
       case Ok(b) => if !b then Ok(false) else Eval(r, ctx))
    case Or(l, r) =>
      (match Eval(l, ctx)
       case Threw(e) => Threw(e)
       case Ok(b) => if b then Ok(true) else Eval(r, ctx))
    case Unsupported(t) => Threw(SyntaxError(t))
  }

  /** `evaluateCondition(condition, metrics)`: true exactly when evaluating the
      condition against the snapshot's context completes with `true`; any
      thrown error yields false. */
  function EvaluateCondition(c: Cond, m: Snapshot): (met: bool)
    ensures met <==> Eval(c, Context(m)) == Ok(true)
    ensures Eval(c, Context(m)).Threw? ==> !met
  {
    match Eval(c, Context(m))
    case Ok(b) => b
    case Threw(_) => false
  }

  /** Only whitelisted names, and no unsupported text anywhere. */
  predicate WellFormed(c: Cond) {
    match c
    case Compare(_, l, r) => (l.Field? ==> l.name in Whitelist) && (r.Field? ==> r.name in Whitelist)
    case And(l, r) => WellFormed(l) && WellFormed(r)
    case Or(l, r) => WellFormed(l) && WellFormed(r)
    case Unsupported(_) => false
  }

  /** A well-formed condition never throws, whatever the metrics. */
  lemma {:induction false} WellFormedNeverThrows(c: Cond, m: Snapshot)
    requires WellFormed(c)
    ensures Eval(c, Context(m)).Ok?
  {
    match c
    case Compare(_, _, _) =>
    case And(l, r) =>
      WellFormedNeverThrows(l, m);
      WellFormedNeverThrows(r, m);
    case Or(l, r) =>
      WellFormedNeverThrows(l, m);
      WellFormedNeverThrows(r, m);
  }

  /** On well-formed operands `&&` and `||` are boolean conjunction and disjunction. */
  lemma ConnectivesAreBoolean(a: Cond, b: Cond, m: Snapshot)
    requires WellFormed(a) && WellFormed(b)
    ensures EvaluateCondition(And(a, b), m) == (EvaluateCondition(a, m) && EvaluateCondition(b, m))
    ensures EvaluateCondition(Or(a, b), m) == (EvaluateCondition(a, m) || EvaluateCondition(b, m))
  {
    WellFormedNeverThrows(a, m);
    WellFormedNeverThrows(b, m);
  }

  /** `&&` short-circuits: once the left side is false, the right side is never
      evaluated, so even a right side that would throw leaves the result false
      (the `status === "unknown" && undefined.prop` case). */
  lemma ShortCircuitAnd(a: Cond, b: Cond, m: Snapshot)
    requires Eval(a, Context(m)) == Ok(false)
    ensures Eval(And(a, b), Context(m)) == Ok(false)
    ensures !EvaluateCondition(And(a, b), m)
  {
  }

  /** A condition that throws is "not met" whatever it is combined with on the right. */
  lemma {:induction false} ThrowingLeftIsNotMet(a: Cond, b: Cond, m: Snapshot)
    requires Eval(a, Context(m)).Threw?
    ensures !EvaluateCondition(a, m)
    ensures !EvaluateCondition(And(a, b), m) && !EvaluateCondition(Or(a, b), m)
  {
    assert Eval(And(a, b), Context(m)) == Threw(Eval(a, Context(m)).error);
    assert Eval(Or(a, b), Context(m)) == Threw(Eval(a, Context(m)).error);
  }

  /** Names a function compiled by `new Function` resolves in the global
      scope: the global object's properties of section 19 of ECMA-262, the
      members it inherits from `Object.prototype`, and the common globals of
      Node. */
  const JsGlobalNames: set<string> := {
    "globalThis", "Infinity", "NaN", "undefined",
    "eval", "isFinite", "isNaN", "parseFloat", "parseInt",
    "decodeURI", "decodeURIComponent", "encodeURI", "encodeURIComponent",
    "AggregateError", "Array", "ArrayBuffer", "BigInt", "BigInt64Array", "BigUint64Array",
    "Boolean", "DataView", "Date", "Error", "EvalError", "FinalizationRegistry",
    "Float32Array", "Float64Array", "Function", "Int8Array", "Int16Array", "Int32Array",
    "Map", "Number", "Object", "Promise", "Proxy", "RangeError", "ReferenceError",
    "RegExp", "Set", "SharedArrayBuffer", "String", "Symbol", "SyntaxError", "TypeError",
    "Uint8Array", "Uint8ClampedArray", "Uint16Array", "Uint32Array", "URIError",
    "WeakMap", "WeakRef", "WeakSet", "Atomics", "JSON", "Math", "Reflect", "Intl",
    "constructor", "hasOwnProperty", "isPrototypeOf", "propertyIsEnumerable",
    "toLocaleString", "toString", "valueOf", "__proto__",
    "__defineGetter__", "__defineSetter__", "__lookupGetter__", "__lookupSetter__",
    "global", "process", "console", "Buffer", "URL", "URLSearchParams",
    "TextEncoder", "TextDecoder", "AbortController", "AbortSignal", "Event", "EventTarget",
    "setTimeout", "setInterval", "setImmediate", "clearTimeout", "clearInterval",
    "clearImmediate", "queueMicrotask", "structuredClone", "atob", "btoa",
    "fetch", "performance", "crypto", "WebAssembly"}

  /** A name that is neither whitelisted nor a global cannot be reached:
      comparing it throws a `ReferenceError`, so the condition is not met. */
  lemma UnlistedNameIsNotMet(op: CmpOp, name: string, rhs: Operand, m: Snapshot)
    requires name !in Whitelist && name !in JsGlobalNames
    ensures Eval(Compare(op, Field(name), rhs), Context(m)) == Threw(ReferenceError(name))
    ensures !EvaluateCondition(Compare(op, Field(name), rhs), m)
  {
  }

  /** The result depends on the whitelisted fields only: the agent's id and
      name (not in the context) cannot change it. */
  lemma IdentityIsInvisible(c: Cond, m: Snapshot, id: string, name: string)
    ensures EvaluateCondition(c, m.(agentId := id, agentName := name)) == EvaluateCondition(c, m)
  {
    assert Context(m.(agentId := id, agentName := name)) == Context(m);
  }
}
