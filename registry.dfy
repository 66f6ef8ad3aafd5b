/**
  * The handler registry (`index.js`): `appendDataHandlers` walks the nested
  * object of data handlers and mirrors it into `module.exports`, creating or
  * reusing a namespace object for every nested object and installing, for
  * every other value, the wrapper `generateMethod` makes. A wrapper writes
  * the shared service client as `_Service` into its first or second
  * argument and hands all its arguments, with the same `this`, to the
  * handler.
  *
  * Namespace objects are never shared between two places of the output, so
  * each is named by its path from `module.exports`, and the output is the
  * map from names to nodes that `module.exports` holds.
  */
module Registry {
  import opened Js

  /** a leaf of the handler tree: a function, known by its identity, or any
    * other value, which is wrapped all the same */
  datatype Handler = Fn(id: nat) | NotCallable(v: Value)

  /** the handler tree: a value whose type is 'object' makes a namespace (an
    * array's entries are named by their indices, and null has none);
    * every other value is a leaf */
  datatype Source = Namespace(entries: seq<Entry>) | Leaf(handler: Handler)
  datatype Entry = Entry(name: string, child: Source)

  /** what `module.exports` holds: namespace objects and wrappers; a wrapper
    * keeps the dotted name it was made with and the handler it calls */
  datatype Node = Ns(slots: map<string, Node>) | Wrapper(prefix: string, handler: Handler)

  /** the dotted name of `name` below `prefix`; an empty prefix is falsy */
  function CurrentPrefix(prefix: string, name: string): string {
    if prefix != "" then prefix + "." + name else name
  }

  /** the slots of the namespace `SetOrGet` gives for `name`: the
    * existing namespace object is reused, anything else is replaced by an
    * empty one */
  function Existing(slots: map<string, Node>, name: string): map<string, Node> {
    if name in slots && slots[name].Ns? then slots[name].slots else map[]
  }

  /** `appendDataHandlers` on the slots of the parent namespace:
    * the entries in iteration order, a nested object descending into its
    * namespace, any other value replacing the slot with its wrapper */
  function AppendAll(entries: seq<Entry>, slots: map<string, Node>, prefix: string): map<string, Node>
    decreases entries
  {
    if entries == [] then slots
    else
      var last := entries[|entries| - 1];
      var before := AppendAll(entries[..|entries| - 1], slots, prefix);
      var current := CurrentPrefix(prefix, last.name);
      match last.child
      case Leaf(h) => before[last.name := Wrapper(current, h)]
      case Namespace(children) =>
        before[last.name := Ns(AppendAll(children, Existing(before, last.name), current))]
  }

  /** the slots of the namespace at `path` (none where there is no namespace) */
  function SlotsAt(root: map<string, Node>, path: seq<string>): map<string, Node>
    decreases |path|
  {
    if path == [] then root else SlotsAt(Existing(root, path[0]), path[1..])
  }

  /** `root` with the namespace at `path` holding `slots`; namespaces on the
    * way are kept and missing ones created */
  function Graft(root: map<string, Node>, path: seq<string>, slots: map<string, Node>): map<string, Node>
    decreases |path|
  {
    if path == [] then slots
    else root[path[0] := Ns(Graft(Existing(root, path[0]), path[1..], slots))]
  }

  /** `path` leads from `root` through namespace objects only */
  predicate IsNamespace(root: map<string, Node>, path: seq<string>)
    decreases |path|
  {
    path == [] || (path[0] in root && root[path[0]].Ns? && IsNamespace(root[path[0]].slots, path[1..]))
  }

  /** Grafting a namespace's own slots back changes nothing. */
  lemma {:induction false} GraftSelf(root: map<string, Node>, path: seq<string>)
    requires IsNamespace(root, path)
    ensures Graft(root, path, SlotsAt(root, path)) == root
    decreases |path|
  {
    if path != [] {
      GraftSelf(root[path[0]].slots, path[1..]);
    }
  }

  /** A namespace slot of a grafted namespace is a namespace path. */
  lemma {:induction false} GraftedNamespace(root: map<string, Node>, path: seq<string>, slots: map<string, Node>, name: string)
    requires name in slots && slots[name].Ns?
    ensures IsNamespace(Graft(root, path, slots), path + [name])
    decreases |path|
  {
    if path == [] {
      assert [name][1..] == [];
    } else {
      assert (path + [name])[0] == path[0] && (path + [name])[1..] == path[1..] + [name];
      GraftedNamespace(Existing(root, path[0]), path[1..], slots, name);
    }
  }

  /** What was grafted at a path is found there. */
  lemma {:induction false} SlotsAtGraft(root: map<string, Node>, path: seq<string>, slots: map<string, Node>)
    ensures SlotsAt(Graft(root, path, slots), path) == slots
    decreases |path|
  {
    if path != [] {
      SlotsAtGraft(Existing(root, path[0]), path[1..], slots);
    }
  }

  /** A second graft at the same path replaces the first. */
  lemma {:induction false} GraftGraft(root: map<string, Node>, path: seq<string>, s1: map<string, Node>, s2: map<string, Node>)
    ensures Graft(Graft(root, path, s1), path, s2) == Graft(root, path, s2)
    decreases |path|
  {
    if path != [] {
      GraftGraft(Existing(root, path[0]), path[1..], s1, s2);
    }
  }

  /** Grafting below a namespace is grafting the namespace with its new
    * contents. */
  lemma {:induction false} GraftChild(root: map<string, Node>, path: seq<string>, parent: map<string, Node>,
                                      name: string, child: map<string, Node>, inner: map<string, Node>)
    ensures Graft(Graft(root, path, parent[name := Ns(child)]), path + [name], inner)
         == Graft(root, path, parent[name := Ns(inner)])
    decreases |path|
  {
    if path == [] {
      assert [name][1..] == [];
    } else {
      assert (path + [name])[0] == path[0] && (path + [name])[1..] == path[1..] + [name];
      GraftChild(Existing(root, path[0]), path[1..], parent, name, child, inner);
    }
  }

  /** `module.exports` as the registry builds it */
  class Exports {
    var root: map<string, Node>

    /** `appendDataHandlers` on the handler tree, an empty `module.exports`
      * and an empty prefix */
    constructor (handlers: seq<Entry>)
      ensures root == AppendAll(handlers, map[], "")
    {
      root := map[];
      new;
      AppendDataHandlers(handlers, [], "");
    }

    /** `appendDataHandlers` on the namespace at `path` */
    method AppendDataHandlers(entries: seq<Entry>, path: seq<string>, prefix: string)
      requires IsNamespace(root, path)
      modifies this
      ensures root == Graft(old(root), path, AppendAll(entries, SlotsAt(old(root), path), prefix))
      decreases entries
    {
      ghost var root0, start := root, SlotsAt(root, path);
      GraftSelf(root0, path);
      assert entries[..0] == [];
      // the handler never returns false, so the iteration visits every entry
      for k := 0 to |entries|
        invariant root == Graft(root0, path, AppendAll(entries[..k], start, prefix))
      {
        var name, child := entries[k].name, entries[k].child;
        ghost var before := AppendAll(entries[..k], start, prefix);
        assert entries[..k + 1][..k] == entries[..k] && entries[..k + 1][k] == entries[k];
        SlotsAtGraft(root0, path, before);
        var current := CurrentPrefix(prefix, name);
        var parent := SlotsAt(root, path);
        if child.Namespace? {
          var existing := Existing(parent, name);
          root := Graft(root, path, parent[name := Ns(existing)]);
          GraftGraft(root0, path, before, parent[name := Ns(existing)]);
          GraftedNamespace(root0, path, parent[name := Ns(existing)], name);
          assert SlotsAt(root, path + [name]) == existing by {
            SlotsAtAppend(root, path, name);
            SlotsAtGraft(root0, path, parent[name := Ns(existing)]);
          }
          AppendDataHandlers(child.entries, path + [name], current);
          GraftChild(root0, path, parent, name, existing, AppendAll(child.entries, existing, current));
        } else {
          root := Graft(root, path, parent[name := Wrapper(current, child.handler)]);
          GraftGraft(root0, path, before, parent[name := Wrapper(current, child.handler)]);
        }
      }
      assert entries[..|entries|] == entries;
    }
  }

  /** The slots one step below a path are those of the child namespace. */
  lemma {:induction false} SlotsAtAppend(root: map<string, Node>, path: seq<string>, name: string)
    ensures SlotsAt(root, path + [name]) == Existing(SlotsAt(root, path), name)
    decreases |path|
  {
    if path == [] {
      assert [name][1..] == [];
    } else {
      assert (path + [name])[0] == path[0] && (path + [name])[1..] == path[1..] + [name];
      SlotsAtAppend(Existing(root, path[0]), path[1..], name);
    }
  }

  /** the names of a namespace's entries */
  function Names(entries: seq<Entry>): set<string> {
    set i | 0 <= i < |entries| :: entries[i].name
  }

  /** every namespace of the tree names each of its entries once, as the
    * keys of a JavaScript object are */
  predicate WellFormed(entries: seq<Entry>)
    decreases entries
  {
    && (forall i, j :: 0 <= i < j < |entries| ==> entries[i].name != entries[j].name)
    && (forall i :: 0 <= i < |entries| && entries[i].child.Namespace? ==> WellFormed(entries[i].child.entries))
  }

  /** `slots` has exactly the shape of the tree: one slot per entry, a
    * namespace for every nested object, and for every other value a wrapper
    * made with its dotted name */
  predicate Mirrors(entries: seq<Entry>, slots: map<string, Node>, prefix: string)
    decreases entries
  {
    && slots.Keys == Names(entries)
    && forall i :: 0 <= i < |entries| ==>
         var current := CurrentPrefix(prefix, entries[i].name);
         match entries[i].child
         case Leaf(h) => slots[entries[i].name] == Wrapper(current, h)
         case Namespace(children) =>
           slots[entries[i].name].Ns? && Mirrors(children, slots[entries[i].name].slots, current)
  }

  /** Built on empty namespaces, the exports mirror the handler tree. */
  lemma {:induction false} AppendMirrors(entries: seq<Entry>, prefix: string)
    requires WellFormed(entries)
    ensures Mirrors(entries, AppendAll(entries, map[], prefix), prefix)
    decreases entries
  {
    if entries != [] {
      var n := |entries| - 1;
      var last, init := entries[n], entries[..n];
      assert forall i :: 0 <= i < n ==> init[i] == entries[i];
      assert WellFormed(init);
      AppendMirrors(init, prefix);
      var before := AppendAll(init, map[], prefix);
      assert last.name !in before by {
        assert before.Keys == Names(init);
      }
      var current := CurrentPrefix(prefix, last.name);
      if last.child.Namespace? {
        AppendMirrors(last.child.entries, current);
      }
      assert Names(entries) == Names(init) + {last.name} by {
        assert forall i :: 0 <= i < n ==> entries[i].name == init[i].name;
      }
    }
  }

  /** A slot no entry names keeps what it held. */
  lemma {:induction false} AppendKeeps(entries: seq<Entry>, slots: map<string, Node>, prefix: string, key: string)
    requires key !in Names(entries)
    ensures key in AppendAll(entries, slots, prefix) <==> key in slots
    ensures key in slots ==> AppendAll(entries, slots, prefix)[key] == slots[key]
    decreases entries
  {
    if entries != [] {
      var n := |entries| - 1;
      assert Names(entries[..n]) <= Names(entries) by {
        assert forall i :: 0 <= i < n ==> entries[..n][i] == entries[i];
      }
      assert entries[n].name in Names(entries);
      AppendKeeps(entries[..n], slots, prefix, key);
    }
  }

  /** A nested object whose name already holds a namespace extends that
    * namespace: what it held under names the nested object does not use is
    * kept. Any other value under the name is replaced by a new namespace. */
  lemma NamespaceReused(slots: map<string, Node>, name: string, children: seq<Entry>, prefix: string, key: string)
    requires key !in Names(children)
    ensures var r := AppendAll([Entry(name, Namespace(children))], slots, prefix)[name];
      && r.Ns?
      && (name in slots && slots[name].Ns? && key in slots[name].slots ==> key in r.slots && r.slots[key] == slots[name].slots[key])
      && (!(name in slots && slots[name].Ns?) ==> (key !in r.slots))
  {
    var es := [Entry(name, Namespace(children))];
    assert es[..0] == [];
    AppendKeeps(children, Existing(slots, name), CurrentPrefix(prefix, name), key);
  }

  /** A JavaScript argument: an object, which a callee can change in place,
    * or a primitive value, on which a property write has no effect */
  datatype Argument = Ref(obj: JsObject) | Prim(v: Value)

  /** the `i`-th argument, undefined past the end */
  function Arg(args: seq<Argument>, i: nat): Argument {
    if i < |args| then args[i] else Prim(Undefined)
  }

  /** the objects among the arguments */
  function Objects(args: seq<Argument>): set<JsObject> {
    set i | 0 <= i < |args| && args[i].Ref? :: args[i].obj
  }

  /** the stream convention: the argument has truthy `i` and `o`, and `i` is a
    * transform stream */
  predicate StreamPair(a: Argument)
    reads if a.Ref? then {a.obj} else {}
  {
    a.Ref? &&
    var i := Lookup(a.obj.props, "i");
    Truthy(i) && Truthy(Lookup(a.obj.props, "o")) && i.Host? && i.transform
  }

  /** where the wrapper's `_Service` assignment lands */
  datatype Injection = TypeError | Ignored | Into(obj: JsObject)

  /** The service client goes into the second argument under the stream
    * convention and into the first otherwise; a nullish receiver throws. */
  function InjectionOf(args: seq<Argument>): (inj: Injection)
    reads Objects(args)
    ensures inj.Into? ==> exists j :: 0 <= j < 2 && j < |args| && args[j] == Ref(inj.obj)
    ensures inj.TypeError? <==>
      (Arg(args, 0).Prim? && Nullish(Arg(args, 0).v)) ||
      (StreamPair(Arg(args, 0)) && Arg(args, 1).Prim? && Nullish(Arg(args, 1).v))
    ensures StreamPair(Arg(args, 0)) && Arg(args, 1).Ref? ==> inj == Into(Arg(args, 1).obj)
    ensures !StreamPair(Arg(args, 0)) && Arg(args, 0).Ref? ==> inj == Into(Arg(args, 0).obj)
    ensures var target := if StreamPair(Arg(args, 0)) then Arg(args, 1) else Arg(args, 0);
      inj.Ignored? <==> target.Prim? && !Nullish(target.v)
  {
    var first := Arg(args, 0);
    if first.Prim? && Nullish(first.v) then TypeError
    else
      var target := if StreamPair(first) then Arg(args, 1) else first;
      if target.Ref? then Into(target.obj)
      else if Nullish(target.v) then TypeError
      else Ignored
  }

  /** what a call of a wrapper comes to: the handler called with the same
    * `this` and the same arguments, or an exception */
  datatype Outcome = Delegated(handler: nat, thisArg: Value, args: seq<Argument>) | Threw(kind: string)

  /** a call of the function `generateMethod` returns: the service client is
    * written into the first or second argument, then the handler is applied
    * to `this` and all the arguments; the dotted name plays no part */
  method Invoke(wrapper: Node, thisArg: Value, args: seq<Argument>, service: Value) returns (outcome: Outcome)
    requires wrapper.Wrapper?
    modifies Objects(args)
    ensures old(InjectionOf(args)).TypeError? ==> outcome == Threw("TypeError")
    ensures !old(InjectionOf(args)).TypeError? ==>
      outcome == if wrapper.handler.Fn? then Delegated(wrapper.handler.id, thisArg, args) else Threw("TypeError")
    ensures old(InjectionOf(args)).Into? ==>
      old(InjectionOf(args)).obj.props == Put(old(InjectionOf(args).obj.props), "_Service", service)
    ensures forall o :: o in Objects(args) && old(InjectionOf(args)) != Into(o) ==> o.props == old(o.props)
  {
    var first := Arg(args, 0);
    if first.Prim? && Nullish(first.v) {
      return Threw("TypeError");
    }
    var target := first;
    if first.Ref? {
      var i := Lookup(first.obj.props, "i");
      if Truthy(i) && Truthy(Lookup(first.obj.props, "o")) && i.Host? && i.transform {
        target := Arg(args, 1);
      }
    }
    match target {
      case Ref(o) =>
        o.props := Put(o.props, "_Service", service);
      case Prim(v) =>
        if Nullish(v) {
          return Threw("TypeError");
        }
    }
    match wrapper.handler {
      case Fn(id) => outcome := Delegated(id, thisArg, args);
      case NotCallable(_) => outcome := Threw("TypeError");
    }
  }
}
