/** The link-normalizing transform in place: a worklist over the nodes of a document whose
    marks are rewritten where they are. */
module NoteTransform {
  import opened Wrappers
  import opened Notes

  /** A node of a parsed document; only its marks are ever assigned. */
  class Node {
    const fields: seq<Field>
    var marks: Option<seq<Json>>
    const content: Option<seq<Node>>
    ghost const size: nat
    ghost const nodes: set<Node>

    function Children(): seq<Node> {
      if content.Some? then content.value else []
    }

    /** `nodes` are this node and those below it, and `size` counts them with their repetitions. */
    ghost predicate Tree()
      decreases size
    {
      && this in nodes && size == 1 + Sizes(Children())
      && (forall f <- fields :: f.key != "marks" && f.key != "content")
      && (forall i :: 0 <= i < |Children()| ==>
            Children()[i].size < size && Children()[i].nodes <= nodes && Children()[i].Tree())
      && forall n <- nodes :: n == this || exists i :: 0 <= i < |Children()| && n in Children()[i].nodes
    }

    constructor (fields: seq<Field>, marks: Option<seq<Json>>, content: Option<seq<Node>>)
      requires forall f <- fields :: f.key != "marks" && f.key != "content"
      requires content.Some? ==> forall c <- content.value :: c.Tree()
      ensures Tree() && this.fields == fields && this.marks == marks && this.content == content
    {
      this.fields, this.marks, this.content := fields, marks, content;
      var children := if content.Some? then content.value else [];
      size := 1 + Sizes(children);
      nodes := {this} + set c, n | c in children && n in c.nodes :: n;
      new;
      forall i | 0 <= i < |children| ensures children[i].size < size {
        SizesAtLeast(children, i);
      }
    }

    /** The JSON value this node stands for. */
    ghost function Value(): Json
      requires Tree()
      reads nodes
      decreases size, 1
    {
      Obj(fields + MarksField(marks) + ContentField())
    }

    ghost function ContentField(): seq<Field>
      requires Tree()
      reads nodes
      decreases size, 0
    {
      if content.None? then [] else [Field("content", Arr(Values(|content.value|)))]
    }

    ghost function Values(n: nat): (r: seq<Json>)
      requires Tree() && content.Some? && n <= |content.value|
      reads nodes
      decreases size, 0, n + 1
      ensures |r| == n && forall i :: 0 <= i < n ==> r[i] == ValueOf(i)
    {
      if n == 0 then [] else Values(n - 1) + [ValueOf(n - 1)]
    }

    ghost function ValueOf(i: nat): Json
      requires Tree() && content.Some? && i < |content.value|
      reads nodes
      decreases size, 0, 0
    {
      assert Children()[i].Tree() && Children()[i].nodes <= nodes;
      content.value[i].Value()
    }
  }

  ghost function Sizes(nodes: seq<Node>): nat {
    if nodes == [] then 0 else Sizes(nodes[..|nodes| - 1]) + nodes[|nodes| - 1].size
  }

  lemma {:induction false} SizesAtLeast(nodes: seq<Node>, i: nat)
    requires i < |nodes|
    ensures nodes[i].size <= Sizes(nodes)
  {
    if i < |nodes| - 1 {
      SizesAtLeast(nodes[..|nodes| - 1], i);
    }
  }

  function MarksField(marks: Option<seq<Json>>): seq<Field> {
    if marks.None? then [] else [Field("marks", Arr(marks.value))]
  }

  function NormalMarks(marks: Option<seq<Json>>): Option<seq<Json>> {
    if marks.None? then None else Some(RewriteMarks(LinkAttrs, marks.value))
  }

  lemma {:induction false} FieldsSplit(a: seq<Field>, b: seq<Field>)
    ensures RewriteFields(LinkAttrs, a + b) == RewriteFields(LinkAttrs, a) + RewriteFields(LinkAttrs, b)
    decreases |a|
  {
    hide RewriteValue;
    if a == [] {
      assert a + b == b;
    } else {
      assert (a + b)[1..] == a[1..] + b;
      FieldsSplit(a[1..], b);
    }
  }

  lemma {:induction false} OtherFieldsStay(fields: seq<Field>)
    requires forall f <- fields :: f.key != "marks" && f.key != "content"
    ensures RewriteFields(LinkAttrs, fields) == fields
  {
    if fields != [] {
      OtherKey(LinkAttrs, fields[0].key, fields[0].value);
      OtherFieldsStay(fields[1..]);
    }
  }

  lemma MarksFieldNormal(marks: Option<seq<Json>>)
    ensures RewriteFields(LinkAttrs, MarksField(marks)) == MarksField(NormalMarks(marks))
  {
    hide RewriteMarks;
    if marks.Some? {
      assert MarksField(marks)[1..] == [];
    }
  }

  twostate predicate Normalized(n: Node)
    reads n
  {
    n.marks == NormalMarks(old(n.marks))
  }

  /** Every node below has been normalized. */
  twostate predicate AllNormalized(nodes: set<Node>)
    reads nodes
  {
    forall x <- nodes :: old(allocated(x)) && Normalized(x)
  }

  /** Then so has the value. */
  twostate lemma {:induction false} ValueIsNormal(n: Node)
    requires n.Tree() && old(allocated(n.nodes)) && AllNormalized(n.nodes)
    ensures n.Value() == Normal(old(n.Value()))
    decreases n.size, 1
  {
    hide RewriteFields, NormalMarks, MarksField;
    ContentIsNormal(n);
    var marks := old(n.marks);
    OtherFieldsStay(n.fields);
    MarksFieldNormal(marks);
    FieldsSplit(n.fields, MarksField(marks));
    FieldsSplit(n.fields + MarksField(marks), old(n.ContentField()));
  }

  twostate lemma {:induction false} ContentIsNormal(n: Node)
    requires n.Tree() && old(allocated(n.nodes)) && AllNormalized(n.nodes)
    ensures n.ContentField() == RewriteFields(LinkAttrs, old(n.ContentField()))
    decreases n.size, 0
  {
    if n.content.Some? {
      var k := |n.content.value|;
      var before := old(n.Values(k));
      forall i | 0 <= i < k ensures n.Values(k)[i] == RewriteAll(LinkAttrs, before)[i] {
        var child := n.Children()[i];
        assert child.Tree() && child.nodes <= n.nodes;
        ValueIsNormal(child);
      }
      assert n.Values(k) == RewriteAll(LinkAttrs, before);
      OneField("content", Arr(before));
    }
  }

  lemma OneField(key: string, value: Json)
    ensures RewriteFields(LinkAttrs, [Field(key, value)]) == [Field(key, RewriteValue(LinkAttrs, key, value))]
  {
    hide RewriteValue;
    assert [Field(key, value)][1..] == [];
  }

  /** A node is left to the worklist. */
  ghost predicate Below(n: Node, pending: seq<Node>) {
    exists i :: 0 <= i < |pending| && n in pending[i].nodes
  }

  lemma {:induction false} SizesSplit(a: seq<Node>, b: seq<Node>)
    ensures Sizes(a + b) == Sizes(a) + Sizes(b)
    decreases |b|
  {
    if b == [] {
      assert a + b == a;
    } else {
      assert (a + b)[..|a + b| - 1] == a + b[..|b| - 1];
      SizesSplit(a, b[..|b| - 1]);
    }
  }

  lemma SizesOfOne(n: Node)
    ensures Sizes([n]) == n.size
  {
    assert Sizes([n][..0]) == 0;
  }

  /** Whatever is below a node that is taken is the node itself or below its children. */
  lemma StillBelow(n: Node, rest: seq<Node>, node: Node)
    requires node.Tree() && Below(n, rest + [node])
    ensures n == node || Below(n, rest + node.Children())
  {
    var all := rest + [node];
    var i :| 0 <= i < |all| && n in all[i].nodes;
    var pushed := rest + node.Children();
    if i < |rest| {
      assert pushed[i] == rest[i];
    } else if n != node {
      var j :| 0 <= j < |node.Children()| && n in node.Children()[j].nodes;
      assert pushed[|rest| + j] == node.Children()[j];
    }
  }

  lemma NormalMarksOnce(marks: Option<seq<Json>>)
    ensures NormalMarks(NormalMarks(marks)) == NormalMarks(marks)
  {
    hide RewriteMarks, LinkAttrs;
    if marks.Some? {
      forall a ensures LinkAttrs(a).Obj? && LinkAttrs(LinkAttrs(a).fields) == LinkAttrs(a) {
        NormalAttrsOnce(a);
      }
      MarksTwice(LinkAttrs, LinkAttrs, LinkAttrs, marks.value);
    }
  }

  /** The links of one node get their attributes, one mark after the other. */
  method NormalizeMarks(node: Node)
    modifies node`marks
    ensures node.marks == NormalMarks(old(node.marks))
  {
    hide RewriteMark;
    if node.marks.None? {
      return;
    }
    var i := 0;
    ghost var before := node.marks.value;
    while i < |node.marks.value|
      invariant node.marks.Some? && i <= |node.marks.value| == |before|
      invariant forall k :: 0 <= k < i ==> node.marks.value[k] == RewriteMark(LinkAttrs, before[k])
      invariant forall k :: i <= k < |before| ==> node.marks.value[k] == before[k]
    {
      node.marks := Some(node.marks.value[i := RewriteMark(LinkAttrs, node.marks.value[i])]);
      i := i + 1;
    }
    assert node.marks.value == RewriteMarks(LinkAttrs, before);
  }

  /** The whole document, in place. */
  method NormalizeLinks(document: Node)
    requires document.Tree()
    modifies document.nodes
    ensures document.Value() == Normal(old(document.Value()))
  {
    hide Below, NormalMarks, Sizes, Node.Tree;
    var pending := [document];
    assert forall n <- document.nodes :: Below(n, pending) by { AllBelow(document); }
    while pending != []
      invariant forall p <- pending :: p.Tree() && p.nodes <= document.nodes
      invariant forall n <- document.nodes :: n.marks == old(n.marks) || n.marks == NormalMarks(old(n.marks))
      invariant forall n <- document.nodes :: n.marks == NormalMarks(old(n.marks)) || Below(n, pending)
      decreases Sizes(pending)
    {
      var node, rest := pending[|pending| - 1], pending[..|pending| - 1];
      assert pending == rest + [node] && node in pending;
      TreeParts(node);
      NormalizeMarks(node);
      NormalMarksOnce(old(node.marks));
      forall n | n in document.nodes
        ensures n.marks == NormalMarks(old(n.marks)) || Below(n, rest + node.Children()) {
        if Below(n, pending) {
          StillBelow(n, rest, node);
        }
      }
      SizesSplit(rest, [node]);
      SizesOfOne(node);
      SizesSplit(rest, node.Children());
      pending := rest + node.Children();
    }
    NothingBelow();
    ValueIsNormal(document);
  }

  lemma AllBelow(document: Node)
    ensures forall n <- document.nodes :: Below(n, [document])
  {
    assert [document][0] == document;
  }

  lemma NothingBelow()
    ensures forall n: Node {:trigger Below(n, [])} :: !Below(n, [])
  {
  }

  lemma TreeParts(node: Node)
    requires node.Tree()
    ensures node in node.nodes && node.size == 1 + Sizes(node.Children())
    ensures forall c <- node.Children() :: c.Tree() && c.nodes <= node.nodes
  {
  }
}
