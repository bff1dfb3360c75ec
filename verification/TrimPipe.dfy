/** TrimInputPipe: the recursive in-place rewrite of a request body. */
module TrimPipe {
  import opened Wrappers

  // ----- String.prototype.trim (section 22.1.3 of ECMA-262) -----

  /** WhiteSpace and LineTerminator code points. */
  predicate IsSpace(c: char) {
    c in {'\t', '\U{000B}', '\U{000C}', ' ', '\U{00A0}', '\U{FEFF}', '\n', '\r', '\U{2028}', '\U{2029}'}
    || c in {'\U{1680}', '\U{202F}', '\U{205F}', '\U{3000}'}
    || '\U{2000}' <= c <= '\U{200A}'
  }

  /** Its code points. */
  lemma SpacesAre(c: char)
    ensures IsSpace(c) <==>
      || c as int in {0x9, 0xA, 0xB, 0xC, 0xD, 0x20, 0xA0, 0x1680, 0x2028, 0x2029, 0x202F, 0x205F, 0x3000, 0xFEFF}
      || 0x2000 <= c as int <= 0x200A
  {
  }

  function TrimStart(s: string): string {
    if s != [] && IsSpace(s[0]) then TrimStart(s[1..]) else s
  }

  function TrimEnd(s: string): string {
    if s != [] && IsSpace(s[|s| - 1]) then TrimEnd(s[..|s| - 1]) else s
  }

  function Trim(s: string): string {
    TrimEnd(TrimStart(s))
  }

  ghost predicate AllSpace(s: string) {
    forall i :: 0 <= i < |s| ==> IsSpace(s[i])
  }

  ghost predicate Bare(s: string) {
    s == [] || (!IsSpace(s[0]) && !IsSpace(s[|s| - 1]))
  }

  lemma {:induction false} TrimStartCuts(s: string) returns (pre: string)
    ensures s == pre + TrimStart(s) && AllSpace(pre)
    ensures TrimStart(s) != [] ==> !IsSpace(TrimStart(s)[0])
  {
    if s != [] && IsSpace(s[0]) {
      var rest := TrimStartCuts(s[1..]);
      pre := [s[0]] + rest;
    } else {
      pre := [];
    }
  }

  lemma {:induction false} TrimEndCuts(s: string) returns (post: string)
    ensures s == TrimEnd(s) + post && AllSpace(post)
    ensures TrimEnd(s) != [] ==> !IsSpace(TrimEnd(s)[|TrimEnd(s)| - 1])
  {
    if s != [] && IsSpace(s[|s| - 1]) {
      var rest := TrimEndCuts(s[..|s| - 1]);
      post := rest + [s[|s| - 1]];
    } else {
      post := [];
    }
  }

  /** Trimming cuts white space off both ends and leaves none at either. */
  lemma TrimCuts(s: string) returns (pre: string, post: string)
    ensures s == pre + Trim(s) + post && AllSpace(pre) && AllSpace(post) && Bare(Trim(s))
  {
    pre := TrimStartCuts(s);
    post := TrimEndCuts(TrimStart(s));
  }

  lemma BareIsTrimmed(s: string)
    requires Bare(s)
    ensures Trim(s) == s
  {
  }

  lemma TrimIdempotent(s: string)
    ensures Trim(Trim(s)) == Trim(s)
  {
    var _, _ := TrimCuts(s);
    BareIsTrimmed(Trim(s));
  }

  // ----- values on the heap -----

  /** A JavaScript value: a primitive, or a reference to an object or an array. */
  datatype Value = Undefined | Null | Bool(b: bool) | Number(n: real) | Text(s: string) | Ref(node: Node)

  /** An array with its elements, or a plain object with its own keys and their values. */
  class Node {
    const isArray: bool
    const keys: seq<string>
    var slots: seq<Value>  // element i of an array, or the value of keys[i]

    constructor (isArray: bool, keys: seq<string>, slots: seq<Value>)
      ensures this.isArray == isArray && this.keys == keys && this.slots == slots
    {
      this.isArray, this.keys, this.slots := isArray, keys, slots;
    }
  }

  // ----- trees in the heap -----

  /** A snapshot of the tree below a value: which node is where, and what it holds. */
  datatype Tree = Leaf(v: Value) | Branch(node: Node, kids: seq<Tree>)

  ghost function Root(t: Tree): Value {
    match t
    case Leaf(v) => v
    case Branch(node, _) => Ref(node)
  }

  /** The heap cells of a tree. */
  ghost function Cells(t: Tree): set<Node> {
    match t
    case Leaf(_) => {}
    case Branch(node, kids) => {node} + (set kid, n | kid in kids && n in Cells(kid) :: n)
  }

  ghost predicate Apart(ts: seq<Tree>) {
    forall i, j :: 0 <= i < j < |ts| ==> Cells(ts[i]) !! Cells(ts[j])
  }

  /** The heap holds exactly this tree, and no two of its nodes are one. */
  ghost predicate Holds(t: Tree)
    reads Cells(t)
  {
    match t
    case Leaf(v) => !v.Ref?
    case Branch(node, kids) =>
      && |node.slots| == |kids|
      && (!node.isArray ==> |node.keys| == |kids|)
      && (forall i :: 0 <= i < |kids| ==> node.slots[i] == Root(kids[i]))
      && (forall kid :: kid in kids ==> node !in Cells(kid) && Holds(kid))
      && Apart(kids)
  }

  // ----- what the pipe does to a tree -----

  /** Every string that is the value of an object's key is trimmed; nothing else changes. */
  ghost function Trimmed(t: Tree): Tree
    decreases t, 0
  {
    match t
    case Leaf(_) => t
    case Branch(node, kids) =>
      Branch(node, seq(|kids|, i requires 0 <= i < |kids| =>
        if node.isArray then Trimmed(kids[i]) else TrimmedField(kids[i])))
  }

  ghost function TrimmedField(t: Tree): Tree
    decreases t, 1
  {
    if t.Leaf? && t.v.Text? then Leaf(Text(Trim(t.v.s))) else Trimmed(t)
  }

  lemma TrimmedKid(t: Tree, i: nat)
    requires t.Branch? && i < |t.kids|
    ensures Trimmed(t).Branch? && |Trimmed(t).kids| == |t.kids| && Trimmed(t).node == t.node
    ensures Trimmed(t).kids[i] == if t.node.isArray then Trimmed(t.kids[i]) else TrimmedField(t.kids[i])
  {
  }

  // ----- its laws -----

  /** Same root reference (so same identity), same nodes. */
  lemma {:induction false} TrimmedKeepsCells(t: Tree)
    ensures Cells(Trimmed(t)) == Cells(t) && Root(Trimmed(t)) == Root(t)
  {
    if t.Branch? {
      var kids, kids' := t.kids, Trimmed(t).kids;
      forall i | 0 <= i < |kids| ensures Cells(kids'[i]) == Cells(kids[i]) {
        TrimmedKid(t, i);
        TrimmedKeepsCells(kids[i]);
      }
      forall n ensures n in Cells(Trimmed(t)) <==> n in Cells(t) {
        if n in Cells(t) && n != t.node {
          var i :| 0 <= i < |kids| && n in Cells(kids[i]);
          assert kids'[i] in kids';
        }
        if n in Cells(Trimmed(t)) && n != t.node {
          var i :| 0 <= i < |kids'| && n in Cells(kids'[i]);
          assert kids[i] in kids;
        }
      }
    }
  }

  /** Applying the pipe twice is applying it once. */
  lemma {:induction false} TrimmedIdempotent(t: Tree)
    ensures Trimmed(Trimmed(t)) == Trimmed(t)
  {
    if t.Branch? {
      var kids, once, twice := t.kids, Trimmed(t).kids, Trimmed(Trimmed(t)).kids;
      forall i | 0 <= i < |kids| ensures twice[i] == once[i] {
        TrimmedKid(t, i);
        TrimmedKid(Trimmed(t), i);
        TrimmedIdempotent(kids[i]);
        if kids[i].Leaf? && kids[i].v.Text? {
          TrimIdempotent(kids[i].v.s);
        }
      }
      assert twice == once;
    }
  }

  /** The subtree reached by taking slot path[0], then slot path[1], and so on. */
  ghost function Sub(t: Tree, path: seq<nat>): Option<Tree> {
    if path == [] then Some(t)
    else if t.Leaf? || path[0] >= |t.kids| then None
    else Sub(t.kids[path[0]], path[1..])
  }

  /** The path's last step goes to the value of an object's key. */
  ghost predicate InField(t: Tree, path: seq<nat>) {
    path != [] && t.Branch?
    && if |path| == 1 then !t.node.isArray
       else path[0] < |t.kids| && InField(t.kids[path[0]], path[1..])
  }

  /** Path by path: the same nodes with the same keys and lengths, the same leaves, except that a string
    * which is the value of an object's key is trimmed. */
  lemma {:induction false} TrimmedAt(t: Tree, path: seq<nat>)
    ensures match Sub(t, path)
      case None => Sub(Trimmed(t), path).None?
      case Some(Leaf(v)) =>
        Sub(Trimmed(t), path) == Some(Leaf(if InField(t, path) && v.Text? then Text(Trim(v.s)) else v))
      case Some(Branch(node, kids)) =>
        var t' := Sub(Trimmed(t), path);
        t'.Some? && t'.value.Branch? && t'.value.node == node && |t'.value.kids| == |kids|
  {
    if path != [] && t.Branch? && path[0] < |t.kids| {
      TrimmedAt(t.kids[path[0]], path[1..]);
    }
  }

  // ----- the pipe -----

  lemma {:induction false} CellsAllocated(t: Tree)
    ensures forall n :: n in Cells(t) ==> allocated(n)
  {
    if t.Branch? {
      forall kid | kid in t.kids {
        CellsAllocated(kid);
      }
    }
  }

  /** What the loop needs to know about a node and its kids, trimmed or not. */
  lemma KidFacts(t: Tree)
    requires Holds(t) && t.Branch?
    ensures |t.node.slots| == |t.kids| == |Trimmed(t).kids|
    ensures Trimmed(t).Branch? && Trimmed(t).node == t.node
    ensures !t.node.isArray ==> |t.node.keys| == |t.kids|
    ensures Apart(t.kids) && Apart(Trimmed(t).kids) && t.node in Cells(t)
    ensures forall i :: 0 <= i < |t.kids| ==>
      t.node.slots[i] == Root(t.kids[i]) && Holds(t.kids[i])
    ensures forall i :: 0 <= i < |t.kids| ==>
      Cells(t.kids[i]) <= Cells(t) && t.node !in Cells(t.kids[i])
      && Cells(Trimmed(t).kids[i]) == Cells(t.kids[i])
  {
    forall i | 0 <= i < |t.kids| ensures Cells(Trimmed(t).kids[i]) == Cells(t.kids[i]) {
      TrimmedKid(t, i);
      TrimmedKeepsCells(t.kids[i]);
    }
  }

  /** A node whose slots and kids are right holds its tree. */
  lemma HoldsAgain(t: Tree)
    requires t.Branch? && Apart(t.kids) && |t.node.slots| == |t.kids|
    requires !t.node.isArray ==> |t.node.keys| == |t.kids|
    requires forall i :: 0 <= i < |t.kids| ==>
      t.node.slots[i] == Root(t.kids[i]) && Holds(t.kids[i]) && t.node !in Cells(t.kids[i])
    ensures Holds(t)
  {
  }

  /** On any tree of objects and arrays: the same reference comes back, the heap then holds the trimmed
    * tree, and no cell outside the tree changes. */
  method Transform(value: Value, ghost t: Tree) returns (r: Value)
    requires Holds(t) && Root(t) == value
    modifies Cells(t)
    ensures r == value && Holds(Trimmed(t))
    decreases t, 1
  {
    if value.Ref? {
      KidFacts(t);
      TransformSlots(value.node, t);
    }
    r := value;
  }

  /** The loop over the elements of an array or the keys of an object. */
  method TransformSlots(node: Node, ghost t: Tree)
    requires t.Branch? && t.node == node && Holds(t)
    modifies Cells(t)
    ensures Holds(Trimmed(t))
    decreases t, 0
  {
    hide Holds, Cells, Trimmed;
    KidFacts(t);
    ghost var kids, trimmed := t.kids, Trimmed(t).kids;
    var i := 0;
    while i < |node.slots|
      invariant 0 <= i <= |node.slots| == |kids|
      invariant forall j :: 0 <= j < i ==> node.slots[j] == Root(trimmed[j]) && Holds(trimmed[j])
      invariant forall j :: i <= j < |kids| ==> node.slots[j] == Root(kids[j]) && Holds(kids[j])
    {
      TrimmedKid(t, i);
      CellsAllocated(t);
      var item := TransformSlot(node, i, kids[i]);
      node.slots := node.slots[i := item];
      i := i + 1;
    }
    HoldsAgain(Trimmed(t));
  }

  /** The body of either loop: the new content of one slot of a node. */
  method TransformSlot(node: Node, i: nat, ghost kid: Tree) returns (item: Value)
    requires i < |node.slots| && node.slots[i] == Root(kid) && Holds(kid) && node !in Cells(kid)
    modifies Cells(kid)
    ensures var kid' := if node.isArray then Trimmed(kid) else TrimmedField(kid);
      item == Root(kid') && Cells(kid') == Cells(kid) && Holds(kid')
    decreases kid, 2
  {
    TrimmedKeepsCells(kid);
    item := node.slots[i];
    if node.isArray {
      item := Transform(item, kid);
    } else if item.Text? {
      item := Text(Trim(item.s));
    } else if item.Ref? {
      item := Transform(item, kid);
    }
  }
}
