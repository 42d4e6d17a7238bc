/** The node-type hierarchy writes of `addPluginPyNodes`: each resolvable
    ancestor chain is walked from `'dependNode'`, every element handed to
    `factories.addPyNode` with the previous element as its parent, and its
    class mirrored into `pymel.all`. */
module TypeHierarchy {
  import opened PluginTypes

  /** The contract assumed of `factories.addPyNode`, whose body is not part
      of this model: insert the node type with the given parent when it is
      absent, leave the hierarchy alone otherwise. */
  function AddPyNode(h: map<string, string>, node: string, parent: string): map<string, string> {
    if node in h then h else h[node := parent]
  }

  /** The inner loop: walk one chain, the parent starting at `parent`. */
  function InsertChain(h: map<string, string>, parent: string, chain: seq<string>): map<string, string>
    decreases |chain|
  {
    if chain == [] then h
    else InsertChain(AddPyNode(h, chain[0], parent), chain[0], chain[1..])
  }

  /** One node type of the outer loop: skipped when its chain is not iterable. */
  function InsertType(h: map<string, string>, t: string, inh: string -> Option<seq<string>>): map<string, string> {
    match inh(t)
    case None => h
    case Some(chain) => InsertChain(h, "dependNode", chain)
  }

  /** The outer loop over the plugin's node types. */
  function InsertTypes(h: map<string, string>, types: seq<string>, inh: string -> Option<seq<string>>): map<string, string>
    decreases |types|
  {
    if types == [] then h
    else InsertTypes(InsertType(h, types[0], inh), types[1..], inh)
  }

  /** All chain elements of the resolvable node types. */
  function ChainNodes(types: seq<string>, inh: string -> Option<seq<string>>): set<string>
    decreases |types|
  {
    if types == [] then {}
    else (match inh(types[0]) case None => {} case Some(c) => Elems(c)) + ChainNodes(types[1..], inh)
  }

  /** The `pymel.all` writes of one chain: each element's class under the
      name `addPyNode` returned. */
  function PublishChain(ns: map<string, Binding>, chain: seq<string>, py: string -> string): map<string, Binding>
    decreases |chain|
  {
    if chain == [] then ns
    else PublishChain(ns[py(chain[0]) := NodeClass(py(chain[0]))], chain[1..], py)
  }

  function PublishType(ns: map<string, Binding>, t: string, inh: string -> Option<seq<string>>, py: string -> string): map<string, Binding> {
    match inh(t)
    case None => ns
    case Some(chain) => PublishChain(ns, chain, py)
  }

  function PublishTypes(ns: map<string, Binding>, types: seq<string>, inh: string -> Option<seq<string>>, py: string -> string): map<string, Binding>
    decreases |types|
  {
    if types == [] then ns
    else PublishTypes(PublishType(ns, types[0], inh, py), types[1..], inh, py)
  }

  /** Class names of the elements of one chain. */
  function ChainNames(chain: seq<string>, py: string -> string): set<string>
    decreases |chain|
  {
    if chain == [] then {} else {py(chain[0])} + ChainNames(chain[1..], py)
  }

  /** Class names of the elements of every resolvable chain. */
  function TypeNames(types: seq<string>, inh: string -> Option<seq<string>>, py: string -> string): set<string>
    decreases |types|
  {
    if types == [] then {}
    else (match inh(types[0]) case None => {} case Some(c) => ChainNames(c, py)) + TypeNames(types[1..], inh, py)
  }

  /** Reference definition of the published classes: one per name. */
  function ClassMap(names: set<string>): map<string, Binding> {
    map y | y in names :: NodeClass(y)
  }

  // ---------------------------------------------------------------- chains

  /** A chain walk adds exactly the chain's elements and never re-parents a
      node type that was already present. */
  lemma {:induction false} InsertChainKeys(h: map<string, string>, parent: string, chain: seq<string>)
    ensures InsertChain(h, parent, chain).Keys == h.Keys + Elems(chain)
    ensures forall n :: n in h ==> InsertChain(h, parent, chain)[n] == h[n]
    decreases |chain|
  {
    if chain != [] {
      var h' := AddPyNode(h, chain[0], parent);
      InsertChainKeys(h', chain[0], chain[1..]);
      assert Elems(chain) == {chain[0]} + Elems(chain[1..]) by {
        assert chain == [chain[0]] + chain[1..];
      }
    }
  }

  /** Order-preserving insertion: a chain element that is new (absent before
      and not repeated earlier in the chain) gets the previous element as its
      parent, and the first element gets the starting parent. */
  lemma {:induction false} InsertChainParent(h: map<string, string>, parent: string, chain: seq<string>, k: nat)
    requires k < |chain|
    requires chain[k] !in h && chain[k] !in chain[..k]
    ensures chain[k] in InsertChain(h, parent, chain)
    ensures InsertChain(h, parent, chain)[chain[k]] == if k == 0 then parent else chain[k - 1]
    decreases |chain|
  {
    var h' := AddPyNode(h, chain[0], parent);
    if k == 0 {
      InsertChainKeys(h', chain[0], chain[1..]);
    } else {
      assert chain[0] in chain[..k];
      assert chain[1..][k - 1] == chain[k];
      assert chain[1..][..k - 1] == chain[1..k];
      assert chain[k] !in chain[1..k] by {
        assert forall i :: 1 <= i < k ==> chain[1..k][i - 1] == chain[..k][i];
      }
      InsertChainParent(h', chain[0], chain[1..], k - 1);
      assert (if k - 1 == 0 then chain[0] else chain[1..][k - 2]) == chain[k - 1];
    }
  }

  /** Re-walking a chain whose elements are all present changes nothing. */
  lemma {:induction false} InsertChainNoOp(h: map<string, string>, parent: string, chain: seq<string>)
    requires Elems(chain) <= h.Keys
    ensures InsertChain(h, parent, chain) == h
    decreases |chain|
  {
    if chain != [] {
      assert chain[0] in Elems(chain);
      assert Elems(chain[1..]) <= Elems(chain) by {
        forall x | x in Elems(chain[1..]) ensures x in Elems(chain) {
          var i :| 0 <= i < |chain[1..]| && chain[1..][i] == x;
          assert chain[i + 1] == x;
        }
      }
      InsertChainNoOp(h, chain[0], chain[1..]);
    }
  }

  /** Every parent link names a node type in the hierarchy or the root
      `dependNode`. */
  predicate Closed(h: map<string, string>) {
    forall k :: k in h ==> h[k] in h || h[k] == "dependNode"
  }

  /** A chain walk from a present parent (or the root) never leaves a
      dangling parent link. */
  lemma {:induction false} InsertChainKeepsClosed(h: map<string, string>, parent: string, chain: seq<string>)
    requires Closed(h) && (parent in h || parent == "dependNode")
    ensures Closed(InsertChain(h, parent, chain))
    decreases |chain|
  {
    if chain != [] {
      var h' := AddPyNode(h, chain[0], parent);
      assert Closed(h') && chain[0] in h';
      InsertChainKeepsClosed(h', chain[0], chain[1..]);
    }
  }

  // ------------------------------------------------------------- node types

  /** The batch adds exactly the elements of the resolvable chains and keeps
      every existing parent link. */
  lemma {:induction false} InsertTypesKeys(h: map<string, string>, types: seq<string>, inh: string -> Option<seq<string>>)
    ensures InsertTypes(h, types, inh).Keys == h.Keys + ChainNodes(types, inh)
    ensures forall n :: n in h ==> InsertTypes(h, types, inh)[n] == h[n]
    decreases |types|
  {
    if types != [] {
      var h' := InsertType(h, types[0], inh);
      match inh(types[0]) {
        case None =>
        case Some(c) => InsertChainKeys(h, "dependNode", c);
      }
      InsertTypesKeys(h', types[1..], inh);
    }
  }

  /** Re-running the batch over node types already inserted changes nothing. */
  lemma {:induction false} InsertTypesNoOp(h: map<string, string>, types: seq<string>, inh: string -> Option<seq<string>>)
    requires ChainNodes(types, inh) <= h.Keys
    ensures InsertTypes(h, types, inh) == h
    decreases |types|
  {
    if types != [] {
      match inh(types[0]) {
        case None =>
        case Some(c) => InsertChainNoOp(h, "dependNode", c);
      }
      InsertTypesNoOp(h, types[1..], inh);
    }
  }

  /** The batch never leaves a dangling parent link: every walk starts at
      the root `dependNode`. */
  lemma {:induction false} InsertTypesKeepsClosed(h: map<string, string>, types: seq<string>, inh: string -> Option<seq<string>>)
    requires Closed(h)
    ensures Closed(InsertTypes(h, types, inh))
    decreases |types|
  {
    if types != [] {
      match inh(types[0]) {
        case None =>
        case Some(c) => InsertChainKeepsClosed(h, "dependNode", c);
      }
      InsertTypesKeepsClosed(InsertType(h, types[0], inh), types[1..], inh);
    }
  }

  /** Running the batch twice leaves the same hierarchy as running it once. */
  lemma InsertTypesIdempotent(h: map<string, string>, types: seq<string>, inh: string -> Option<seq<string>>)
    ensures InsertTypes(InsertTypes(h, types, inh), types, inh) == InsertTypes(h, types, inh)
  {
    InsertTypesKeys(h, types, inh);
    InsertTypesNoOp(InsertTypes(h, types, inh), types, inh);
  }

  /** The batch over a concatenation is the batch over each part in turn. */
  lemma {:induction false} InsertTypesAppend(h: map<string, string>, a: seq<string>, b: seq<string>, inh: string -> Option<seq<string>>)
    ensures InsertTypes(h, a + b, inh) == InsertTypes(InsertTypes(h, a, inh), b, inh)
    decreases |a|
  {
    if a != [] {
      assert (a + b)[1..] == a[1..] + b;
      InsertTypesAppend(InsertType(h, a[0], inh), a[1..], b, inh);
    } else {
      assert a + b == b;
    }
  }

  /** A node type whose chain is not iterable is skipped and nothing else:
      the batch equals the batch over the list without it. */
  lemma InsertTypesSkipsUnresolvable(h: map<string, string>, a: seq<string>, t: string, b: seq<string>, inh: string -> Option<seq<string>>)
    requires inh(t).None?
    ensures InsertTypes(h, a + [t] + b, inh) == InsertTypes(h, a + b, inh)
  {
    InsertTypesAppend(h, a + [t], b, inh);
    InsertTypesAppend(h, a, [t], inh);
    InsertTypesAppend(h, a, b, inh);
    assert InsertTypes(InsertTypes(h, a, inh), [t], inh) == InsertTypes(h, a, inh) by {
      assert [t][1..] == [];
    }
  }

  // --------------------------------------------------------------- pymel.all

  lemma ClassMapEmpty(ns: map<string, Binding>)
    ensures ns + ClassMap({}) == ns
  {
    assert ClassMap({}) == map[];
  }

  lemma ClassMapCons(ns: map<string, Binding>, y: string, rest: set<string>)
    ensures ns[y := NodeClass(y)] + ClassMap(rest) == ns + ClassMap({y} + rest)
  {
  }

  lemma ClassMapUnion(ns: map<string, Binding>, a: set<string>, b: set<string>)
    ensures ns + ClassMap(a) + ClassMap(b) == ns + ClassMap(a + b)
  {
  }

  /** The classes published for one chain, in closed form. */
  lemma {:induction false} PublishChainClosedForm(ns: map<string, Binding>, chain: seq<string>, py: string -> string)
    ensures PublishChain(ns, chain, py) == ns + ClassMap(ChainNames(chain, py))
    decreases |chain|
  {
    if chain == [] {
      ClassMapEmpty(ns);
    } else {
      var y := py(chain[0]);
      PublishChainClosedForm(ns[y := NodeClass(y)], chain[1..], py);
      ClassMapCons(ns, y, ChainNames(chain[1..], py));
    }
  }

  /** The classes published by the whole batch, in closed form: exactly one
      `NodeClass` per class name of a resolvable chain element. */
  lemma {:induction false} PublishTypesClosedForm(ns: map<string, Binding>, types: seq<string>, inh: string -> Option<seq<string>>, py: string -> string)
    ensures PublishTypes(ns, types, inh, py) == ns + ClassMap(TypeNames(types, inh, py))
    decreases |types|
  {
    if types == [] {
      ClassMapEmpty(ns);
    } else {
      var first: set<string> := match inh(types[0]) case None => {} case Some(c) => ChainNames(c, py);
      var ns' := PublishType(ns, types[0], inh, py);
      match inh(types[0]) {
        case None => ClassMapEmpty(ns);
        case Some(c) => PublishChainClosedForm(ns, c, py);
      }
      assert ns' == ns + ClassMap(first);
      PublishTypesClosedForm(ns', types[1..], inh, py);
      ClassMapUnion(ns, first, TypeNames(types[1..], inh, py));
    }
  }
}
