// canonicalJson as it runs: a walk over an object graph that remembers the objects on the current path.
module JsonGraph {
  import opened Prelude
  import opened Keyed
  import opened CanonicalJson
  import opened JsonRoundTrip

  // Unsupported is anything that is not JSON: undefined, a function, a bigint, a negative zero, a fraction.
  datatype Value = NullValue | Flag(flag: bool) | Number(number: int) | String(text: Text) | Unsupported | Ref(id: nat)

  // Irregular is an object that is not plain: a hole, an accessor, a symbol key, a foreign prototype.
  datatype Node = Items(items: seq<Value>) | Fields(fields: seq<Entry<Value>>) | Irregular

  type Graph = map<nat, Node>

  predicate InGraph(g: Graph, v: Value) {
    v.Ref? ==> v.id in g
  }

  // No dangling references, and no object holds a key twice.
  predicate WellFormed(g: Graph) {
    forall id | id in g ::
      match g[id]
      case Items(items) => forall i | 0 <= i < |items| :: InGraph(g, items[i])
      case Fields(fields) => DistinctKeys(fields) && forall i | 0 <= i < |fields| :: InGraph(g, fields[i].value)
      case Irregular => true
  }

  predicate AtomAccepted(v: Value) {
    match v
    case Number(n) => IsSafe(n)
    case String(s) => WellPaired(s)
    case Unsupported => false
    case _ => true
  }

  /******* The walk *******/

  // The walk from v accepts, given the objects it is inside of.
  predicate Accepts(g: Graph, v: Value, path: set<nat>)
    requires WellFormed(g) && InGraph(g, v)
    decreases g.Keys - path
  {
    if !v.Ref? then AtomAccepted(v)
    else if v.id in path then false
    else
      match g[v.id]
      case Items(items) => forall i | 0 <= i < |items| :: Accepts(g, items[i], path + {v.id})
      case Fields(fields) =>
        forall i | 0 <= i < |fields| :: WellPaired(fields[i].key) && Accepts(g, fields[i].value, path + {v.id})
      case Irregular => false
  }

  function AtomTree(v: Value): Json
    requires !v.Ref? && AtomAccepted(v)
  {
    match v
    case NullValue => Null
    case Flag(b) => Bool(b)
    case Number(n) => Num(n)
    case String(s) => Str(s)
  }

  // The tree an accepted value denotes: an object met twice is there twice.
  function Tree(g: Graph, v: Value, path: set<nat>): Json
    requires WellFormed(g) && InGraph(g, v) && Accepts(g, v, path)
    decreases g.Keys - path
  {
    if !v.Ref? then AtomTree(v)
    else
      match g[v.id]
      case Items(items) => Arr(seq(|items|, i requires 0 <= i < |items| => Tree(g, items[i], path + {v.id})))
      case Fields(fields) =>
        Obj(seq(|fields|, i requires 0 <= i < |fields| =>
              Entry(fields[i].key, Tree(g, fields[i].value, path + {v.id}))))
  }

  function TextAt(g: Graph, v: Value, path: set<nat>): Text
    requires WellFormed(g)
  {
    if InGraph(g, v) && Accepts(g, v, path) then Print(Tree(g, v, path)) else []
  }

  lemma {:induction false} ItemsText(g: Graph, id: nat, path: set<nat>, parts: seq<Text>)
    requires WellFormed(g) && id in g && g[id].Items? && Accepts(g, Ref(id), path)
    requires |parts| == |g[id].items|
    requires forall i | 0 <= i < |parts| :: parts[i] == TextAt(g, g[id].items[i], path + {id})
    ensures Print(Tree(g, Ref(id), path)) == [OPEN_ARRAY] + Join(parts) + [CLOSE_ARRAY]
  {
    hide Join;
    var items := Tree(g, Ref(id), path).items;
    assert parts == seq(|items|, i requires 0 <= i < |items| => Print(items[i]));
  }

  lemma {:induction false} FieldsText(g: Graph, id: nat, path: set<nat>, parts: seq<Text>)
    requires WellFormed(g) && id in g && g[id].Fields? && Accepts(g, Ref(id), path)
    requires |parts| == |g[id].fields|
    requires forall i | 0 <= i < |parts| ::
               var f := Sort(g[id].fields)[i];
               parts[i] == Quote(f.key) + [COLON] + TextAt(g, f.value, path + {id})
    ensures Print(Tree(g, Ref(id), path)) == [OPEN_OBJECT] + Join(parts) + [CLOSE_OBJECT]
  {
    hide Join, Sort, Quote;
    var fields, tree := g[id].fields, Tree(g, Ref(id), path).fields;
    var textAt := (v: Value) => TextAt(g, v, path + {id});
    var entries := seq(|tree|, i requires 0 <= i < |tree| => Entry(tree[i].key, Print(tree[i].value)));
    assert entries == MapEntries(textAt, fields);
    SortMaps(textAt, fields);
    assert parts == FieldTexts(Sort(entries));
  }

  class Encoder {
    const graph: Graph
    var seen: set<nat>

    constructor (graph: Graph)
      ensures this.graph == graph && seen == {}
    {
      this.graph := graph;
      seen := {};
    }

    // Succeeds exactly on what the walk accepts, with the text of the tree and `seen` as it was.
    method Encode(v: Value) returns (result: Result<Text>)
      requires WellFormed(graph) && InGraph(graph, v)
      modifies this
      ensures result.Ok? <==> Accepts(graph, v, old(seen))
      ensures result.Ok? ==> result.value == TextAt(graph, v, old(seen)) && seen == old(seen)
      ensures result.Err? ==> result.code == InvalidCanonicalValue
      decreases graph.Keys - seen, 1
    {
      if !v.Ref? {
        if !AtomAccepted(v) { return Err(InvalidCanonicalValue); }
        return Ok(Print(AtomTree(v)));
      }
      if v.id in seen { return Err(InvalidCanonicalValue); }
      ghost var path := seen;
      seen := seen + {v.id};
      var out: Text;
      match graph[v.id] {
        case Irregular =>
          return Err(InvalidCanonicalValue);
        case Items(items) =>
          var parts :- EncodeItems(v.id, items, path);
          ItemsText(graph, v.id, path, parts);
          out := [OPEN_ARRAY] + Join(parts) + [CLOSE_ARRAY];
        case Fields(fields) =>
          SortKeeps(fields);
          var parts :- EncodeFields(v.id, fields, Sort(fields), path);
          FieldsText(graph, v.id, path, parts);
          out := [OPEN_OBJECT] + Join(parts) + [CLOSE_OBJECT];
      }
      seen := seen - {v.id};
      assert seen == path;
      return Ok(out);
    }

    method EncodeItems(id: nat, items: seq<Value>, ghost path: set<nat>) returns (result: Result<seq<Text>>)
      requires WellFormed(graph) && id in graph && graph[id] == Items(items)
      requires id !in path && seen == path + {id}
      modifies this
      ensures result.Ok? <==> Accepts(graph, Ref(id), path)
      ensures result.Ok? ==> seen == old(seen) && |result.value| == |items|
      ensures result.Ok? ==> forall i | 0 <= i < |items| :: result.value[i] == TextAt(graph, items[i], path + {id})
      ensures result.Err? ==> result.code == InvalidCanonicalValue
      decreases graph.Keys - path, 0
    {
      var parts := [];
      for i := 0 to |items|
        invariant seen == path + {id} && |parts| == i
        invariant forall j | 0 <= j < i ::
                    Accepts(graph, items[j], path + {id}) && parts[j] == TextAt(graph, items[j], path + {id})
      {
        var text :- Encode(items[i]);
        parts := parts + [text];
      }
      return Ok(parts);
    }

    method EncodeFields(id: nat, fields: seq<Entry<Value>>, sorted: seq<Entry<Value>>, ghost path: set<nat>)
      returns (result: Result<seq<Text>>)
      requires WellFormed(graph) && id in graph && graph[id] == Fields(fields) && sorted == Sort(fields)
      requires id !in path && seen == path + {id}
      modifies this
      ensures result.Ok? <==> Accepts(graph, Ref(id), path)
      ensures result.Ok? ==> seen == old(seen) && |result.value| == |fields|
      ensures result.Ok? ==> forall i | 0 <= i < |fields| ::
                               result.value[i]
                               == Quote(sorted[i].key) + [COLON] + TextAt(graph, sorted[i].value, path + {id})
      ensures result.Err? ==> result.code == InvalidCanonicalValue
      decreases graph.Keys - path, 0
    {
      hide Sort, Quote;
      var parts := [];
      SortKeeps(fields);
      for i := 0 to |sorted|
        invariant seen == path + {id} && |parts| == i
        invariant forall j | 0 <= j < i ::
                    && InGraph(graph, sorted[j].value) && WellPaired(sorted[j].key)
                    && Accepts(graph, sorted[j].value, path + {id})
        invariant forall j | 0 <= j < i ::
                    parts[j] == Quote(sorted[j].key) + [COLON] + TextAt(graph, sorted[j].value, path + {id})
      {
        var f := sorted[i];
        assert f in fields;
        ghost var k :| 0 <= k < |fields| && fields[k] == f;
        if !WellPaired(f.key) { return Err(InvalidCanonicalValue); }
        var text := Encode(f.value);
        if text.Err? { return Err(InvalidCanonicalValue); }
        parts := parts + [Quote(f.key) + [COLON] + text.value];
      }
      forall k | 0 <= k < |fields|
        ensures WellPaired(fields[k].key) && Accepts(graph, fields[k].value, path + {id})
      {
        assert fields[k] in sorted;
        var j :| 0 <= j < |sorted| && sorted[j] == fields[k];
      }
      return Ok(parts);
    }
  }

  method Canonical(graph: Graph, v: Value) returns (result: Result<Text>)
    requires WellFormed(graph) && InGraph(graph, v)
    ensures result == if Accepts(graph, v, {}) then Ok(TextAt(graph, v, {})) else Err(InvalidCanonicalValue)
  {
    var encoder := new Encoder(graph);
    result := encoder.Encode(v);
  }

  /******* What the walk accepts *******/

  predicate IsChild(node: Node, v: Value) {
    match node
    case Items(items) => v in items
    case Fields(fields) => exists i | 0 <= i < |fields| :: fields[i].value == v
    case Irregular => false
  }

  // What the walk looks at in one object.
  ghost predicate NodeAccepted(node: Node) {
    && !node.Irregular?
    && (node.Fields? ==> forall i | 0 <= i < |node.fields| :: WellPaired(node.fields[i].key))
    && (forall v | IsChild(node, v) && !v.Ref? :: AtomAccepted(v))
  }

  // A route: objects, each holding a reference to the next.
  predicate Route(g: Graph, ids: seq<nat>) {
    && ids != []
    && (forall i | 0 <= i < |ids| :: ids[i] in g)
    && (forall i | 0 < i < |ids| :: IsChild(g[ids[i - 1]], Ref(ids[i])))
  }

  predicate RepeatsNone(ids: seq<nat>) {
    forall i, j | 0 <= i < j < |ids| :: ids[i] != ids[j]
  }

  // Along this route no object is met twice or was on the path before, and the last one is acceptable in itself.
  ghost predicate FineRoute(g: Graph, ids: seq<nat>, path: set<nat>)
    requires Route(g, ids)
  {
    RepeatsNone(ids) && (forall i | 0 <= i < |ids| :: ids[i] !in path) && NodeAccepted(g[ids[|ids| - 1]])
  }

  lemma {:induction false} AcceptsChildren(g: Graph, id: nat, path: set<nat>)
    requires WellFormed(g) && id in g
    ensures Accepts(g, Ref(id), path) <==>
              && id !in path && !g[id].Irregular?
              && (g[id].Fields? ==> forall i | 0 <= i < |g[id].fields| :: WellPaired(g[id].fields[i].key))
              && forall v | IsChild(g[id], v) :: InGraph(g, v) && Accepts(g, v, path + {id})
  {
    if id !in path && g[id].Items? {
      assert forall i | 0 <= i < |g[id].items| :: IsChild(g[id], g[id].items[i]);
    }
    if id !in path && g[id].Fields? {
      assert forall i | 0 <= i < |g[id].fields| :: IsChild(g[id], g[id].fields[i].value);
    }
  }

  lemma {:induction false} AcceptedRoute(g: Graph, ids: seq<nat>, path: set<nat>)
    requires WellFormed(g) && Route(g, ids) && Accepts(g, Ref(ids[0]), path)
    ensures FineRoute(g, ids, path)
    decreases |ids|
  {
    hide Accepts;
    var id := ids[0];
    AcceptsChildren(g, id, path);
    forall v | IsChild(g[id], v) && !v.Ref?
      ensures AtomAccepted(v)
    {
      AtomWalk(g, v, path + {id});
    }
    if |ids| > 1 {
      assert IsChild(g[id], Ref(ids[1]));
      AcceptedRoute(g, ids[1..], path + {id});
      assert FineRoute(g, ids[1..], path + {id});
      assert forall i | 1 <= i < |ids| :: ids[i] == ids[1..][i - 1];
    }
  }

  lemma AtomWalk(g: Graph, v: Value, path: set<nat>)
    requires WellFormed(g) && !v.Ref?
    ensures Accepts(g, v, path) <==> AtomAccepted(v)
  {
  }

  lemma {:induction false} LongerRoute(g: Graph, id: nat, ids: seq<nat>, path: set<nat>)
    requires Route(g, ids) && id in g && IsChild(g[id], Ref(ids[0]))
    ensures Route(g, [id] + ids)
    ensures FineRoute(g, [id] + ids, path) ==> FineRoute(g, ids, path + {id})
  {
    var longer := [id] + ids;
    assert forall i | 0 <= i < |ids| :: longer[i + 1] == ids[i];
    assert longer[|longer| - 1] == ids[|ids| - 1];
    forall i | 0 < i < |longer|
      ensures IsChild(g[longer[i - 1]], Ref(longer[i]))
    {
      if i > 1 { assert IsChild(g[ids[i - 2]], Ref(ids[i - 1])); }
    }
    if FineRoute(g, longer, path) {
      forall i | 0 <= i < |ids|
        ensures ids[i] !in path + {id}
      {
        assert longer[i + 1] !in path && longer[0] != longer[i + 1];
      }
    }
  }

  lemma {:induction false} FineRoutesAccepted(g: Graph, id: nat, path: set<nat>)
    requires WellFormed(g) && id in g
    requires forall ids: seq<nat> | Route(g, ids) && ids[0] == id :: FineRoute(g, ids, path)
    ensures Accepts(g, Ref(id), path)
    decreases g.Keys - path
  {
    hide Accepts;
    assert Route(g, [id]) && FineRoute(g, [id], path);
    assert NodeAccepted(g[id]) && id !in path by { assert [id][0] == id; }
    forall v | IsChild(g[id], v)
      ensures InGraph(g, v) && Accepts(g, v, path + {id})
    {
      if v.Ref? {
        forall ids: seq<nat> | Route(g, ids) && ids[0] == v.id
          ensures FineRoute(g, ids, path + {id})
        {
          LongerRoute(g, id, ids, path);
          assert ([id] + ids)[0] == id;
        }
        FineRoutesAccepted(g, v.id, path + {id});
      } else {
        AtomWalk(g, v, path + {id});
      }
    }
    AcceptsChildren(g, id, path);
  }

  // The encoder accepts an object exactly when, on every route from it, no object comes twice and every object met
  // is plain with acceptable keys and atoms: shared objects are fine, cycles and invalid values are not.
  lemma {:induction false} AcceptsExactlyAcyclicPlain(g: Graph, id: nat)
    requires WellFormed(g) && id in g
    ensures Accepts(g, Ref(id), {}) <==>
              forall ids: seq<nat> | Route(g, ids) && ids[0] == id ::
                RepeatsNone(ids) && NodeAccepted(g[ids[|ids| - 1]])
  {
    hide Accepts, NodeAccepted, RepeatsNone;
    if Accepts(g, Ref(id), {}) {
      forall ids: seq<nat> | Route(g, ids) && ids[0] == id
        ensures RepeatsNone(ids) && NodeAccepted(g[ids[|ids| - 1]])
      {
        AcceptedRoute(g, ids, {});
      }
    }
    if forall ids: seq<nat> | Route(g, ids) && ids[0] == id :: RepeatsNone(ids) && NodeAccepted(g[ids[|ids| - 1]]) {
      forall ids: seq<nat> | Route(g, ids) && ids[0] == id
        ensures FineRoute(g, ids, {})
      {
      }
      FineRoutesAccepted(g, id, {});
    }
  }

  // What is encoded is plain JSON with unique keys, so its text reads back.
  lemma {:induction false} AcceptedTreeIsPlain(g: Graph, v: Value, path: set<nat>)
    requires WellFormed(g) && InGraph(g, v) && Accepts(g, v, path)
    ensures Plain(Tree(g, v, path)) && UniqueKeys(Tree(g, v, path))
    decreases g.Keys - path
  {
    if v.Ref? {
      match g[v.id]
      case Items(items) =>
        forall i | 0 <= i < |items|
          ensures Plain(Tree(g, items[i], path + {v.id})) && UniqueKeys(Tree(g, items[i], path + {v.id}))
        {
          AcceptedTreeIsPlain(g, items[i], path + {v.id});
        }
      case Fields(fields) =>
        forall i | 0 <= i < |fields|
          ensures Plain(Tree(g, fields[i].value, path + {v.id})) && UniqueKeys(Tree(g, fields[i].value, path + {v.id}))
        {
          AcceptedTreeIsPlain(g, fields[i].value, path + {v.id});
        }
    }
  }

  // Two accepted objects, in one graph or two, get the same text exactly when they denote the same JSON value.
  lemma {:induction false} SameTextSameTree(g: Graph, v: Value, h: Graph, w: Value)
    requires WellFormed(g) && InGraph(g, v) && Accepts(g, v, {})
    requires WellFormed(h) && InGraph(h, w) && Accepts(h, w, {})
    ensures TextAt(g, v, {}) == TextAt(h, w, {}) <==> Equivalent(Tree(g, v, {}), Tree(h, w, {}))
    ensures Parse(TextAt(g, v, {})) == Ok(Normalize(Tree(g, v, {})))
  {
    AcceptedTreeIsPlain(g, v, {});
    AcceptedTreeIsPlain(h, w, {});
    SameTextSameValue(Tree(g, v, {}), Tree(h, w, {}));
    TextReadsBack(Tree(g, v, {}));
  }
}
