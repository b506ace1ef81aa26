/** convertToOptional (yandex/data_source_yandex_mdb_mongodb_cluster.go): the schema of a data source
    is a copy of the resource's schema in which every attribute is optional. Schemas and resources are
    shared by reference, so the copy must not touch the original. */
module OptionalSchema {

  datatype SchemaType = TypeBool | TypeInt | TypeFloat | TypeString | TypeList | TypeMap | TypeSet

  datatype Elem = NoElem | ElemSchema(schema: Schema) | ElemResource(resource: Resource)

  /** `other` stands for the fields the conversion copies without looking at them. */
  class Schema {
    var typ: SchemaType
    var required: bool
    var optional: bool
    var forceNew: bool
    var exactlyOneOf: seq<string>
    var elem: Elem
    var other: string

    constructor CopyOf(s: Schema)
      ensures typ == s.typ && required == s.required && optional == s.optional && forceNew == s.forceNew
      ensures exactlyOneOf == s.exactlyOneOf && elem == s.elem && other == s.other
    {
      typ, required, optional, forceNew := s.typ, s.required, s.optional, s.forceNew;
      exactlyOneOf, elem, other := s.exactlyOneOf, s.elem, s.other;
    }
  }

  class Resource {
    var schema: map<string, Schema>
    var other: string

    constructor CopyOf(r: Resource)
      ensures schema == r.schema && other == r.other
    {
      schema, other := r.schema, r.other;
    }
  }

  /** A list or set of nested blocks: the only element the conversion goes into. */
  predicate IsBlock(s: Schema)
    reads s
  {
    (s.typ == TypeList || s.typ == TypeSet) && s.elem.ElemResource?
  }

  // ---------- the shape of a schema ----------

  /** The objects a finite schema is made of, as far as the conversion goes. */
  datatype Tree = Plain(self: Schema) | Block(self: Schema, resource: Resource, forest: Forest)

  datatype Forest = Forest(trees: map<string, Tree>)

  ghost function Foot(t: Tree): set<object> {
    match t
    case Plain(s) => {s}
    case Block(s, r, f) => {s, r} + FootAll(f)
  }

  ghost function FootAll(f: Forest): set<object> {
    set k, o | k in f.trees && o in Foot(f.trees[k]) :: o
  }

  lemma {:induction false} FootAllocated(t: Tree)
    ensures forall o | o in Foot(t) :: allocated(o)
    decreases t
  {
    if t.Block? {
      FootAllAllocated(t.forest);
      forall o | o in Foot(t)
        ensures allocated(o)
      {
        if o != t.self && o != t.resource {
          assert o in FootAll(t.forest);
        }
      }
    } else {
      assert allocated(t.self);
    }
  }

  lemma {:induction false} FootAllAllocated(f: Forest)
    ensures forall o | o in FootAll(f) :: allocated(o)
    decreases f
  {
    forall o | o in FootAll(f)
      ensures allocated(o)
    {
      var k :| k in f.trees && o in Foot(f.trees[k]);
      FootAllocated(f.trees[k]);
    }
  }

  ghost predicate Shaped(t: Tree)
    reads Foot(t)
    decreases t
  {
    match t
    case Plain(s) => !IsBlock(s)
    case Block(s, r, f) => IsBlock(s) && s.elem.resource == r && ShapedAll(r.schema, f)
  }

  ghost predicate ShapedAll(schemas: map<string, Schema>, f: Forest)
    reads FootAll(f)
    decreases f
  {
    && schemas.Keys == f.trees.Keys
    && forall k | k in f.trees :: schemas[k] == f.trees[k].self && Shaped(f.trees[k])
  }

  /** What a schema says. An element that is not converted is shared, so its identity counts. */
  datatype Attrs = Attrs(
    typ: SchemaType, required: bool, optional: bool, forceNew: bool, exactlyOneOf: seq<string>, other: string)

  datatype Node = Leaf(attrs: Attrs, elem: Elem) | Nested(attrs: Attrs, other: string, fields: map<string, Node>)

  function AttrsOf(s: Schema): Attrs
    reads s
  {
    Attrs(s.typ, s.required, s.optional, s.forceNew, s.exactlyOneOf, s.other)
  }

  ghost function NodeOf(t: Tree): Node
    reads Foot(t)
  {
    match t
    case Plain(s) => Leaf(AttrsOf(s), s.elem)
    case Block(s, r, f) => Nested(AttrsOf(s), r.other, NodesOf(f))
  }

  ghost function NodesOf(f: Forest): map<string, Node>
    reads FootAll(f)
  {
    map k | k in f.trees :: NodeOf(f.trees[k])
  }

  // ---------- the conversion ----------

  function Weak(a: Attrs): Attrs {
    a.(required := false, optional := true, forceNew := false, exactlyOneOf := [])
  }

  function Weaken(n: Node): Node {
    match n
    case Leaf(a, elem) => Leaf(Weak(a), elem)
    case Nested(a, other, fields) => Nested(Weak(a), other, map k | k in fields :: Weaken(fields[k]))
  }

  function WeakenAll(nodes: map<string, Node>): map<string, Node> {
    map k | k in nodes :: Weaken(nodes[k])
  }

  /** The method modifies nothing: the original keeps every attribute of every object. */
  method ConvertToOptional(original: map<string, Schema>, ghost f: Forest)
    returns (res: map<string, Schema>, ghost g: Forest)
    requires ShapedAll(original, f)
    ensures ShapedAll(original, f) && NodesOf(f) == old(NodesOf(f))
    ensures ShapedAll(res, g) && fresh(FootAll(g))
    ensures NodesOf(g) == WeakenAll(NodesOf(f))
    decreases f, 2
  {
    FootAllAllocated(f);
    res := map[];
    g := Forest(map[]);
    ghost var nodes := NodesOf(f);
    ghost var weak: map<string, Node> := map[];
    var rest := original.Keys;
    while rest != {}
      invariant rest <= original.Keys && weak.Keys == original.Keys - rest
      invariant ShapedAll(original, f) && NodesOf(f) == nodes
      invariant ShapedAll(res, g) && NodesOf(g) == weak
      invariant forall o | o in FootAll(g) :: fresh(o)
      invariant forall k | k in weak :: weak[k] == Weaken(nodes[k])
      decreases rest
    {
      var key: string :| key in rest;
      res, g := ConvertNext(key, original, f, res, g);
      weak := weak[key := Weaken(nodes[key])];
      rest := rest - {key};
    }
    assert weak == WeakenAll(nodes);
  }

  /** One turn of the loop. */
  method ConvertNext(key: string, original: map<string, Schema>, ghost f: Forest,
                     before: map<string, Schema>, ghost g: Forest)
    returns (res: map<string, Schema>, ghost h: Forest)
    requires ShapedAll(original, f) && key in original
    requires ShapedAll(before, g) && key !in g.trees
    ensures ShapedAll(original, f) && NodesOf(f) == old(NodesOf(f)) && key in NodesOf(f)
    ensures ShapedAll(res, h) && forall o | o in FootAll(h) :: o in FootAll(g) || fresh(o)
    ensures NodesOf(h) == old(NodesOf(g))[key := Weaken(NodesOf(f)[key])]
    decreases f, 1
  {
    FootAllAllocated(g);
    FootAllAllocated(f);
    var newItem, t := ConvertOne(original[key], f.trees[key]);
    Grow(before, g, key, newItem, t);
    res := before[key := newItem];
    h := Forest(g.trees[key := t]);
  }

  lemma Grow(res: map<string, Schema>, g: Forest, key: string, item: Schema, t: Tree)
    requires ShapedAll(res, g) && key !in g.trees && t.self == item && Shaped(t)
    ensures ShapedAll(res[key := item], Forest(g.trees[key := t]))
    ensures FootAll(Forest(g.trees[key := t])) == FootAll(g) + Foot(t)
    ensures NodesOf(Forest(g.trees[key := t])) == NodesOf(g)[key := NodeOf(t)]
  {
    var more := g.trees[key := t];
    forall o | o in FootAll(g) + Foot(t)
      ensures o in FootAll(Forest(more))
    {
      if o in FootAll(g) {
        var k :| k in g.trees && o in Foot(g.trees[k]);
        assert more[k] == g.trees[k];
      } else {
        assert more[key] == t;
      }
    }
  }

  method ConvertOne(value: Schema, ghost tree: Tree) returns (newItem: Schema, ghost t: Tree)
    requires tree.self == value && Shaped(tree)
    ensures t.self == newItem && Shaped(t) && fresh(Foot(t))
    ensures NodeOf(t) == Weaken(NodeOf(tree))
    decreases tree, 0
  {
    FootAllocated(tree);
    newItem := CopySchema(value);
    if newItem.typ == TypeList || newItem.typ == TypeSet {
      if newItem.elem.ElemResource? {
        assert Shaped(tree) && NodeOf(tree) == old(NodeOf(tree));
        var elem, g := ConvertBlock(newItem.elem.resource, tree.forest);
        t := AttachBlock(newItem, elem, g);
        return;
      }
    }
    t := Plain(newItem);
  }

  method AttachBlock(newItem: Schema, elem: Resource, ghost g: Forest) returns (ghost t: Tree)
    requires newItem.typ == TypeList || newItem.typ == TypeSet
    requires newItem !in FootAll(g) && ShapedAll(elem.schema, g)
    modifies newItem`elem
    ensures t == Block(newItem, elem, g) && Shaped(t)
    ensures NodeOf(t) == Nested(AttrsOf(newItem), elem.other, old(NodesOf(g)))
    ensures AttrsOf(newItem) == old(AttrsOf(newItem))
  {
    newItem.elem := ElemResource(elem);
    t := Block(newItem, elem, g);
  }

  method CopySchema(value: Schema) returns (newItem: Schema)
    ensures fresh(newItem)
    ensures AttrsOf(newItem) == Weak(AttrsOf(value)) && newItem.elem == value.elem
  {
    newItem := new Schema.CopyOf(value);
    newItem.required := false;
    newItem.exactlyOneOf := [];
    newItem.optional := true;
    newItem.forceNew := false;
  }

  method ConvertBlock(resource: Resource, ghost f: Forest) returns (elem: Resource, ghost g: Forest)
    requires ShapedAll(resource.schema, f)
    ensures fresh(elem) && fresh(FootAll(g)) && elem !in FootAll(g)
    ensures elem.other == resource.other && ShapedAll(elem.schema, g)
    ensures NodesOf(g) == WeakenAll(old(NodesOf(f)))
    decreases f, 3
  {
    FootAllAllocated(f);
    elem := CopyResource(resource);
    var schema;
    schema, g := ConvertToOptional(elem.schema, f);
    SetFields(elem, schema, g);
  }

  method CopyResource(resource: Resource) returns (elem: Resource)
    ensures fresh(elem) && elem.schema == resource.schema && elem.other == resource.other
  {
    elem := new Resource.CopyOf(resource);
  }

  method SetFields(elem: Resource, schema: map<string, Schema>, ghost g: Forest)
    requires elem !in FootAll(g) && ShapedAll(schema, g)
    modifies elem`schema
    ensures elem.schema == schema && ShapedAll(schema, g) && NodesOf(g) == old(NodesOf(g))
  {
    elem.schema := schema;
  }

  // ---------- what the copy is like ----------

  /** At every depth: optional, not required, not force-new, no exclusive groups. */
  predicate AllOptional(n: Node) {
    && n.attrs.optional && !n.attrs.required && !n.attrs.forceNew && n.attrs.exactlyOneOf == []
    && (n.Nested? ==> forall k | k in n.fields :: AllOptional(n.fields[k]))
  }

  /** At every depth the same keys, types and untouched parts. */
  predicate SameShape(a: Node, b: Node) {
    && a.attrs.typ == b.attrs.typ && a.attrs.other == b.attrs.other
    && match (a, b)
       case (Leaf(_, e1), Leaf(_, e2)) => e1 == e2
       case (Nested(_, o1, f1), Nested(_, o2, f2)) =>
         o1 == o2 && f1.Keys == f2.Keys && forall k | k in f1 && k in f2 :: SameShape(f1[k], f2[k])
       case _ => false
  }

  lemma {:induction false} WeakenedIsOptional(n: Node)
    ensures AllOptional(Weaken(n)) && SameShape(n, Weaken(n))
    ensures AllOptional(n) <==> Weaken(n) == n
  {
    if n.Nested? {
      forall k | k in n.fields
        ensures AllOptional(Weaken(n.fields[k])) && SameShape(n.fields[k], Weaken(n.fields[k]))
        ensures AllOptional(n.fields[k]) <==> Weaken(n.fields[k]) == n.fields[k]
      {
        WeakenedIsOptional(n.fields[k]);
      }
      if Weaken(n) == n {
        forall k | k in n.fields
          ensures AllOptional(n.fields[k])
        {
          assert Weaken(n).fields[k] == Weaken(n.fields[k]);
        }
      }
    }
  }

  /** Only the copy's shape and weakness matter: any schema that is optional throughout and has the
      original's shape is the copy. */
  lemma {:induction false} WeakenedIsTheOnlyOne(n: Node, m: Node)
    requires AllOptional(m) && SameShape(n, m)
    ensures m == Weaken(n)
  {
    if n.Nested? {
      forall k | k in n.fields
        ensures m.fields[k] == Weaken(n.fields[k])
      {
        WeakenedIsTheOnlyOne(n.fields[k], m.fields[k]);
      }
      assert m.fields == Weaken(n).fields;
    }
  }

  /** Converting twice is converting once. */
  lemma WeakenIdempotent(nodes: map<string, Node>)
    ensures WeakenAll(WeakenAll(nodes)) == WeakenAll(nodes)
  {
    forall k | k in nodes
      ensures Weaken(Weaken(nodes[k])) == Weaken(nodes[k])
    {
      WeakenedIsOptional(nodes[k]);
      WeakenedIsOptional(Weaken(nodes[k]));
    }
  }
}
