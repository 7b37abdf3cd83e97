/**
 * Redaction of object graphs, shared and cyclic ones included: references are
 * followed until the depth budget is used up.
 */
module RedactionGraph {
  import opened Redaction
  import opened RedactionTheorems

  type LeafValue = v: Value | !IsContainer(v) witness Undefined

  datatype GraphValue = GraphLeaf(value: LeafValue) | Ref(node: nat)

  datatype Node = ArrNode(items: seq<GraphValue>) | ObjNode(props: seq<GraphProp>)

  datatype GraphProp = GraphProp(key: string, value: GraphValue)

  /** What each reference points to; a finite graph uses finitely many of them. */
  type Heap = nat -> Node

  function Budget(depth: nat): nat {
    if depth <= MAX_DEPTH then MAX_DEPTH + 1 - depth else 0
  }

  function SanitizeGraph(heap: Heap, v: GraphValue, depth: nat): Value
    decreases Budget(depth), 1, 0
  {
    if depth > MAX_DEPTH then TOO_DEEP
    else if v.GraphLeaf? then v.value
    else
      match heap(v.node)
      case ArrNode(items) => Arr(SanitizeGraphItems(heap, items, depth + 1))
      case ObjNode(props) => Obj(SanitizeGraphProps(heap, props, depth + 1))
  }

  function SanitizeGraphItems(heap: Heap, items: seq<GraphValue>, depth: nat): seq<Value>
    decreases Budget(depth), 2, |items|
  {
    if items == [] then [] else [SanitizeGraph(heap, items[0], depth)] + SanitizeGraphItems(heap, items[1..], depth)
  }

  function SanitizeGraphProp(heap: Heap, p: GraphProp, depth: nat): Value
    decreases Budget(depth), 2, 0
  {
    if IsSensitive(p.key) then REDACTED
    else if p.value.Ref? then SanitizeGraph(heap, p.value, depth)
    else p.value.value
  }

  function SanitizeGraphProps(heap: Heap, props: seq<GraphProp>, depth: nat): seq<Prop>
    decreases Budget(depth), 3, |props|
  {
    if props == [] then []
    else
      var rest := SanitizeGraphProps(heap, props[1..], depth);
      if IsDropped(props[0].key) then rest
      else [Prop(props[0].key, SanitizeGraphProp(heap, props[0], depth))] + rest
  }

  /** The tree a graph unfolds to, with `cut` wherever `levels` references have been followed. */
  function Unfold(heap: Heap, v: GraphValue, levels: nat, cut: Value): Value
    decreases levels, 1, 0
  {
    if v.GraphLeaf? then v.value
    else if levels == 0 then cut
    else
      match heap(v.node)
      case ArrNode(items) => Arr(UnfoldItems(heap, items, levels - 1, cut))
      case ObjNode(props) => Obj(UnfoldProps(heap, props, levels - 1, cut))
  }

  function UnfoldItems(heap: Heap, items: seq<GraphValue>, levels: nat, cut: Value): seq<Value>
    decreases levels, 2, |items|
  {
    if items == [] then [] else [Unfold(heap, items[0], levels, cut)] + UnfoldItems(heap, items[1..], levels, cut)
  }

  function UnfoldProps(heap: Heap, props: seq<GraphProp>, levels: nat, cut: Value): seq<Prop>
    decreases levels, 2, |props|
  {
    if props == [] then []
    else [Prop(props[0].key, Unfold(heap, props[0].value, levels, cut))] + UnfoldProps(heap, props[1..], levels, cut)
  }

  /** On any graph redaction terminates, with the result it has on any deep enough unfolding of it. */
  lemma {:induction false} GraphIsUnfolding(heap: Heap, v: GraphValue, depth: nat, levels: nat, cut: Value)
    requires levels >= Budget(depth) + 1
    ensures SanitizeGraph(heap, v, depth) == Sanitize(Unfold(heap, v, levels, cut), depth)
    decreases Budget(depth), 1, 0
  {
    if depth <= MAX_DEPTH && v.Ref? {
      match heap(v.node)
      case ArrNode(items) => GraphItemsAreUnfolding(heap, items, depth + 1, levels - 1, cut);
      case ObjNode(props) => GraphPropsAreUnfolding(heap, props, depth + 1, levels - 1, cut);
    }
  }

  lemma {:induction false} GraphItemsAreUnfolding(heap: Heap, items: seq<GraphValue>, depth: nat,
                                                    levels: nat, cut: Value)
    requires levels >= Budget(depth) + 1
    ensures SanitizeGraphItems(heap, items, depth) == SanitizeItems(UnfoldItems(heap, items, levels, cut), depth)
    decreases Budget(depth), 2, |items|
  {
    if items != [] {
      GraphIsUnfolding(heap, items[0], depth, levels, cut);
      GraphItemsAreUnfolding(heap, items[1..], depth, levels, cut);
      assert UnfoldItems(heap, items, levels, cut)[1..] == UnfoldItems(heap, items[1..], levels, cut);
    }
  }

  lemma {:induction false} GraphPropsAreUnfolding(heap: Heap, props: seq<GraphProp>, depth: nat,
                                                    levels: nat, cut: Value)
    requires levels >= Budget(depth) + 1
    ensures SanitizeGraphProps(heap, props, depth) == SanitizeProps(UnfoldProps(heap, props, levels, cut), depth)
    decreases Budget(depth), 2, |props|
  {
    if props != [] {
      GraphPropsAreUnfolding(heap, props[1..], depth, levels, cut);
      GraphIsUnfolding(heap, props[0].value, depth, levels, cut);
      assert UnfoldProps(heap, props, levels, cut)[1..] == UnfoldProps(heap, props[1..], levels, cut);
      assert IsContainer(Unfold(heap, props[0].value, levels, cut)) <==> props[0].value.Ref?;
    }
  }

  /** So a cyclic value comes out as a tree of at most six levels that redaction leaves alone. */
  lemma GraphsComeOutShallow(heap: Heap, v: GraphValue)
    ensures Nesting(SanitizeGraph(heap, v, 0)) <= 6
    ensures Sanitize(SanitizeGraph(heap, v, 0), 0) == SanitizeGraph(heap, v, 0)
  {
    GraphIsUnfolding(heap, v, 0, MAX_DEPTH + 2, Undefined);
    var tree := Unfold(heap, v, MAX_DEPTH + 2, Undefined);
    ResultIsShallow(tree, 0);
    TwiceIsOnce(tree, 0);
  }
}
