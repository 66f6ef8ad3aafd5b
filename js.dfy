/**
  * JavaScript values as the data handlers see them, the objects they change
  * in place, and the observable trace a handler leaves behind: the calls it
  * makes into the data-service client and the invocations of its completion
  * callback `next`.
  */
module Js {

  datatype Option<T> = None | Some(value: T)

  /** A JavaScript value. Plain objects and arrays are kept by value; an
    * object is an association list in property insertion order. */
  datatype Value =
    | Undefined
    | Null
    | Bool(b: bool)
    | Num(n: int)
    | Str(s: string)
    | Arr(items: seq<Value>)
    | Obj(fields: seq<(string, Value)>)
      /** an object made by `new Error(message)` */
    | Error(message: Value)
      /** a host object (a stream, a function, the service client), compared
        * by identity; `transform` says whether it is `instanceof Stream.Transform` */
    | Host(id: nat, transform: bool)

  /** JavaScript truthiness (numbers are integers here, so NaN does not arise) */
  predicate Truthy(v: Value) {
    match v
    case Undefined => false
    case Null => false
    case Bool(b) => b
    case Num(n) => n != 0
    case Str(s) => s != ""
    case _ => true
  }

  /** reading a property of these throws a TypeError */
  predicate Nullish(v: Value) {
    v.Undefined? || v.Null?
  }

  /** JavaScript's `||`: the first operand when truthy, else the second */
  function Or(a: Value, b: Value): (r: Value)
    ensures Truthy(r) <==> Truthy(a) || Truthy(b)
    ensures Truthy(a) ==> r == a
    ensures !Truthy(a) ==> r == b
  {
    if Truthy(a) then a else b
  }

  function KeysOf(fields: seq<(string, Value)>): (keys: seq<string>)
    ensures |keys| == |fields|
    ensures forall i :: 0 <= i < |fields| ==> keys[i] == fields[i].0
  {
    if fields == [] then [] else [fields[0].0] + KeysOf(fields[1..])
  }

  /** reading property `key` of a plain object: its first binding, or undefined */
  function Lookup(fields: seq<(string, Value)>, key: string): Value {
    if fields == [] then Undefined
    else if fields[0].0 == key then fields[0].1
    else Lookup(fields[1..], key)
  }

  /** The binding at index `i` is the one a lookup finds when no earlier
    * binding has the same key. */
  lemma {:induction false} LookupAt(fields: seq<(string, Value)>, key: string, i: nat)
    requires i < |fields| && fields[i].0 == key
    requires forall j :: 0 <= j < i ==> fields[j].0 != key
    ensures Lookup(fields, key) == fields[i].1
  {
    if i > 0 {
      LookupAt(fields[1..], key, i - 1);
    }
  }

  /** assigning property `key` of a plain object: an existing property keeps its
    * place, a new one is added last */
  function Put(fields: seq<(string, Value)>, key: string, v: Value): (r: seq<(string, Value)>)
    ensures Lookup(r, key) == v
    ensures forall k :: k != key ==> Lookup(r, k) == Lookup(fields, k)
    ensures KeysOf(r) == if key in KeysOf(fields) then KeysOf(fields) else KeysOf(fields) + [key]
  {
    if fields == [] then [(key, v)]
    else if fields[0].0 == key then [(key, v)] + fields[1..]
    else [fields[0]] + Put(fields[1..], key, v)
  }

  lemma KeysOfAppend(a: seq<(string, Value)>, b: seq<(string, Value)>)
    ensures KeysOf(a + b) == KeysOf(a) + KeysOf(b)
  {
    var joined, parts := KeysOf(a + b), KeysOf(a) + KeysOf(b);
    forall i | 0 <= i < |joined| ensures joined[i] == parts[i] {
      if i < |a| {
        assert (a + b)[i] == a[i];
      } else {
        assert (a + b)[i] == b[i - |a|];
      }
    }
  }

  /** A lookup in `a + b` finds the binding in `a` when there is one, and
    * the one in `b` otherwise. */
  lemma {:induction false} LookupAppend(a: seq<(string, Value)>, b: seq<(string, Value)>, key: string)
    ensures Lookup(a + b, key) == if key in KeysOf(a) then Lookup(a, key) else Lookup(b, key)
  {
    if a != [] {
      assert (a + b)[0] == a[0] && (a + b)[1..] == a[1..] + b;
      assert KeysOf(a) == [a[0].0] + KeysOf(a[1..]);
      if a[0].0 != key {
        LookupAppend(a[1..], b, key);
      }
    } else {
      assert a + b == b;
    }
  }

  /** Assigning a property the object does not have yet adds it last. */
  lemma {:induction false} PutNew(fields: seq<(string, Value)>, key: string, v: Value)
    requires key !in KeysOf(fields)
    ensures Put(fields, key, v) == fields + [(key, v)]
  {
    if fields != [] {
      assert KeysOf(fields) == [fields[0].0] + KeysOf(fields[1..]);
      PutNew(fields[1..], key, v);
      assert fields == [fields[0]] + fields[1..];
    }
  }

  /** reading property `key` of any value; only plain objects and errors have properties here */
  function Get(v: Value, key: string): Value {
    match v
    case Obj(fields) => Lookup(fields, key)
    case Error(m) => if key == "message" then m else Undefined
    case _ => Undefined
  }

  /** the text of a string value (used where the value is known to be a string) */
  function Text(v: Value): string {
    if v.Str? then v.s else ""
  }

  /** the `length` of a value: the length of an array or a string, the `length` property
    * of a plain object, undefined for the rest */
  function LengthOf(v: Value): (r: Value)
    ensures v.Arr? ==> (Truthy(r) <==> v.items != [])
    ensures v.Str? ==> (Truthy(r) <==> v.s != "")
  {
    match v
    case Arr(items) => Num(|items|)
    case Str(s) => Num(|s|)
    case Obj(fields) => Lookup(fields, "length")
    case _ => Undefined
  }

  /** the object's own property `key` exists (it may hold undefined) */
  predicate Has(v: Value, key: string) {
    v.Obj? && key in KeysOf(v.fields)
  }

  /** the decimal digits of `n`, the property name of index `n` */
  function NatToString(n: nat): (s: string)
    ensures s != []
    ensures forall i :: 0 <= i < |s| ==> '0' <= s[i] <= '9'
    ensures |s| > 1 ==> s[0] != '0'
    decreases n
  {
    if n < 10 then [Digit(n)] else NatToString(n / 10) + [Digit(n % 10)]
  }

  function Digit(d: nat): (c: char)
    requires d < 10
    ensures '0' <= c <= '9'
  {
    "0123456789"[d]
  }

  /** the last piece of `s` split at '/': the longest suffix of `s` that holds no '/' */
  function LastSegment(s: string): (r: string)
    ensures |r| <= |s| && r == s[|s| - |r|..]
    ensures '/' !in r
    ensures |r| == |s| || s[|s| - |r| - 1] == '/'
  {
    if s == [] then ""
    else if s[|s| - 1] == '/' then ""
    else LastSegment(s[..|s| - 1]) + [s[|s| - 1]]
  }

  /** The segment after the last '/' of `prefix + "/" + seg` is `seg`, when
    * `seg` holds no '/'. */
  lemma {:induction false} LastSegmentAfterSlash(prefix: string, seg: string)
    requires '/' !in seg
    ensures LastSegment(prefix + "/" + seg) == seg
  {
    var s := prefix + "/" + seg;
    var r := LastSegment(s);
    var n := |s| - |seg|;
    assert s[n - 1] == '/';
    assert s[n..] == seg;
  }

  /** A plain object whose properties a handler changes in place (its
    * `options`, its `data`, the arguments a registry wrapper receives). */
  class JsObject {
    var props: seq<(string, Value)>
  }

  /** What a handler does that its caller can observe, in order. */
  datatype Event =
      /** the service client's operation `op` called with `args`, the handler's own callback last */
    | Call(op: string, args: seq<Value>)
      /** the service client's operation `op` called with `args` and `next` last: the reply goes to the caller unchanged */
    | Forward(op: string, args: seq<Value>)
      /** the completion callback `next` called with `args` */
    | Next(args: seq<Value>)
      /** an exception escapes the handler */
    | Throw(kind: string)

  /** the `(err, result)` pair a service call hands to its callback */
  datatype Reply = Reply(err: Value, res: Value)

  /** the service operations a trace calls, in order */
  function ServiceOps(trace: seq<Event>): (ops: seq<string>)
    ensures |ops| <= |trace|
    ensures (forall i :: 0 <= i < |trace| ==> trace[i].Next? || trace[i].Throw?) ==> ops == []
  {
    if trace == [] then []
    else (if trace[0].Call? || trace[0].Forward? then [trace[0].op] else []) + ServiceOps(trace[1..])
  }

  /** the error a handler reports by calling `next` with a new Error */
  function Fail(message: string): Event {
    Next([Error(Str(message))])
  }

  /** the `@graph` fan-out: `next` with each item and true, then `next` with null twice */
  function GraphEvents(items: seq<Value>): (events: seq<Event>)
    ensures |events| == |items| + 1
    ensures forall i :: 0 <= i < |items| ==> events[i] == Next([items[i], Bool(true)])
    ensures events[|items|] == Next([Null, Null])
  {
    if items == [] then [Next([Null, Null])]
    else [Next([items[0], Bool(true)])] + GraphEvents(items[1..])
  }

  /** the loop that reports each item of a `@graph` in order, then the end of the list */
  method EmitGraph(items: seq<Value>) returns (events: seq<Event>)
    ensures events == GraphEvents(items)
  {
    events := [];
    for i := 0 to |items|
      invariant |events| == i
      invariant forall j :: 0 <= j < i ==> events[j] == Next([items[j], Bool(true)])
    {
      events := events + [Next([items[i], Bool(true)])];
    }
    events := events + [Next([Null, Null])];
    assert |events| == |GraphEvents(items)|;
  }
}
