/** Structured notes: the explicit-stack validator against a recursive grammar, and the
    transform that normalizes links. */
module Notes {
  import opened Wrappers

  /** A JSON value; `undefined` is an absent key. */
  datatype Json = Null | Bool(b: bool) | Num(r: real) | Str(s: string) | Arr(items: seq<Json>) | Obj(fields: seq<Field>)

  datatype Field = Field(key: string, value: Json)

  /** The protocol of a URL, where it can be parsed. */
  type Protocol = string -> Option<string>

  const MAX_DEPTH := 64
  const MAX_SAFE := 9007199254740991.0

  function Get(fields: seq<Field>, key: string): (r: Option<Json>)
    ensures r.Some? ==> exists f <- fields :: f.key == key && f.value == r.value
  {
    if fields == [] then None else if fields[0].key == key then Some(fields[0].value) else Get(fields[1..], key)
  }

  predicate Keys(fields: seq<Field>, allowed: seq<string>) {
    forall f <- fields :: f.key in allowed
  }

  const BLOCKS := ["paragraph", "heading", "bulletList", "orderedList", "blockquote", "codeBlock", "horizontalRule"]
  const MARKS := ["bold", "italic", "underline", "strike", "code", "link"]

  // ----- the grammar of one node -----

  function Type(node: Json): Option<string> {
    if node.Obj? && Get(node.fields, "type").Some? && Get(node.fields, "type").value.Str?
    then Some(Get(node.fields, "type").value.s) else None
  }

  predicate AllowedIn(parent: string, kind: string) {
    if parent == "paragraph" || parent == "heading" then kind == "text" || kind == "hardBreak"
    else if parent == "codeBlock" then kind == "text"
    else if parent == "bulletList" || parent == "orderedList" then kind == "listItem"
    else kind in BLOCKS
  }

  predicate TextOk(kind: string, text: Option<Json>) {
    if text.None? then kind != "text" else kind == "text" && text.value.Str? && text.value.s != ""
  }

  predicate Among(value: Option<Json>, allowed: seq<Json>) {
    value.None? || value.value in allowed
  }

  predicate AttrsOk(kind: string, attrs: Option<Json>) {
    attrs.Some? ==> attrs.value.Obj? && AttrFieldsOk(kind, attrs.value.fields)
  }

  predicate AttrFieldsOk(kind: string, a: seq<Field>) {
    if kind == "heading" then
      && Keys(a, ["level", "textAlign"]) && Get(a, "level").Some?
      && Get(a, "level").value in [Num(1.0), Num(2.0), Num(3.0)]
      && Among(Get(a, "textAlign"), [Null, Str("left"), Str("center")])
    else if kind == "paragraph" then
      Keys(a, ["textAlign"]) && Among(Get(a, "textAlign"), [Null, Str("left"), Str("center")])
    else if kind == "orderedList" then
      && Keys(a, ["start", "type"]) && Get(a, "start").Some? && PositiveSafeInteger(Get(a, "start").value)
      && Among(Get(a, "type"), [Null, Str("1")])
    else if kind == "codeBlock" then
      Keys(a, ["language"]) && Get(a, "language").Some? && (Get(a, "language").value.Null?
                                                            || Get(a, "language").value.Str?)
    else a == []
  }

  predicate PositiveSafeInteger(value: Json) {
    value.Num? && 1.0 <= value.r <= MAX_SAFE && value.r == value.r.Floor as real
  }

  predicate NullOrString(value: Option<Json>) {
    value.None? || value.value.Null? || value.value.Str?
  }

  predicate LinkOk(protocol: Protocol, attrs: Option<Json>) {
    && attrs.Some? && attrs.value.Obj?
    && var a := attrs.value.fields;
       && Keys(a, ["href", "target", "rel", "class", "title"])
       && Get(a, "href").Some? && Get(a, "href").value.Str?
       && protocol(Get(a, "href").value.s) in [Some("https:"), Some("http:"), Some("mailto:")]
       && Among(Get(a, "target"), [Null, Str("_blank")])
       && NullOrString(Get(a, "rel")) && Among(Get(a, "class"), [Null]) && NullOrString(Get(a, "title"))
  }

  predicate MarkOk(protocol: Protocol, mark: Json) {
    && mark.Obj? && Keys(mark.fields, ["type", "attrs"]) && Type(mark).Some? && Type(mark).value in MARKS
    && if Type(mark).value == "link" then LinkOk(protocol, Get(mark.fields, "attrs"))
       else Get(mark.fields, "attrs").None? || Get(mark.fields, "attrs").value == Obj([])
  }

  predicate MarksOk(protocol: Protocol, kind: string, parent: string, marks: Option<Json>) {
    marks.Some? ==>
      && kind == "text" && parent != "codeBlock" && marks.value.Arr?
      && forall mark <- marks.value.items :: MarkOk(protocol, mark)
  }

  predicate IsList(kind: string) {
    kind == "bulletList" || kind == "orderedList" || kind == "listItem"
  }

  predicate ContentOk(kind: string, content: Option<Json>) {
    && (content.Some? ==> content.value.Arr? && kind != "text" && kind != "hardBreak" && kind != "horizontalRule")
    && (IsList(kind) ==> content.Some? && content.value.Arr? && content.value.items != [])
    && (kind == "listItem" ==> Type(content.value.items[0]) == Some("paragraph"))
  }

  /** The node itself, its children left aside. */
  predicate NodeOk(protocol: Protocol, node: Json, parent: string, depth: nat) {
    && depth <= MAX_DEPTH && node.Obj? && Keys(node.fields, ["type", "content", "attrs", "text", "marks"])
    && Type(node).Some?
    && var kind := Type(node).value;
       && (depth > 0 ==> AllowedIn(parent, kind))
       && TextOk(kind, Get(node.fields, "text")) && AttrsOk(kind, Get(node.fields, "attrs"))
       && MarksOk(protocol, kind, parent, Get(node.fields, "marks")) && ContentOk(kind, Get(node.fields, "content"))
  }

  // ----- the grammar of documents -----

  function Size(j: Json): nat
    decreases j, 0
  {
    match j
    case Arr(items) => 1 + SizeAll(items)
    case Obj(fields) => 1 + SizeFields(fields)
    case _ => 1
  }

  function SizeAll(items: seq<Json>): nat {
    if items == [] then 0 else Size(items[0]) + SizeAll(items[1..])
  }

  function SizeFields(fields: seq<Field>): nat {
    if fields == [] then 0 else Size(fields[0].value) + SizeFields(fields[1..])
  }

  /** The children of a node. */
  function Children(node: Json): seq<Json> {
    if node.Obj? && Get(node.fields, "content").Some? && Get(node.fields, "content").value.Arr?
    then Get(node.fields, "content").value.items else []
  }

  lemma {:induction false} GotIsSmaller(fields: seq<Field>, key: string)
    requires Get(fields, key).Some?
    ensures Size(Get(fields, key).value) <= SizeFields(fields)
  {
    if fields[0].key != key {
      GotIsSmaller(fields[1..], key);
    }
  }

  lemma ChildrenAreSmaller(node: Json)
    ensures SizeAll(Children(node)) < Size(node)
  {
    if Children(node) != [] {
      GotIsSmaller(node.fields, "content");
    }
  }

  lemma {:induction false} ItemIsSmaller(items: seq<Json>, i: nat)
    requires i < |items|
    ensures Size(items[i]) <= SizeAll(items)
  {
    if i > 0 {
      ItemIsSmaller(items[1..], i - 1);
    }
  }

  /** The document grammar: every node fits its parent, and no tree is deeper than 64. */
  ghost predicate Fits(protocol: Protocol, node: Json, parent: string, depth: nat)
    decreases Size(node)
  {
    && NodeOk(protocol, node, parent, depth)
    && forall i :: 0 <= i < |Children(node)| ==>
         (ChildrenAreSmaller(node); ItemIsSmaller(Children(node), i);
          Fits(protocol, Children(node)[i], Type(node).value, depth + 1))
  }

  ghost predicate IsDocument(protocol: Protocol, value: Json) {
    && Type(value) == Some("doc") && Children(value) != []
    && Fits(protocol, value, "", 0)
  }

  // ----- the validator -----

  datatype Frame = Frame(node: Json, parent: string, depth: nat)

  ghost predicate AllFit(protocol: Protocol, pending: seq<Frame>) {
    forall i :: 0 <= i < |pending| ==> Fits(protocol, pending[i].node, pending[i].parent, pending[i].depth)
  }

  function Work(pending: seq<Frame>): nat {
    if pending == [] then 0 else Work(pending[..|pending| - 1]) + Size(pending[|pending| - 1].node)
  }

  function Frames(nodes: seq<Json>, parent: string, depth: nat): (r: seq<Frame>)
    ensures |r| == |nodes| && forall i :: 0 <= i < |r| ==> r[i] == Frame(nodes[i], parent, depth)
  {
    seq(|nodes|, i requires 0 <= i < |nodes| => Frame(nodes[i], parent, depth))
  }

  lemma {:induction false} WorkOfChildren(pending: seq<Frame>, nodes: seq<Json>, parent: string, depth: nat, n: nat)
    requires n <= |nodes|
    ensures Work(pending + Frames(nodes, parent, depth)[..n]) == Work(pending) + SizeAll(nodes[..n])
  {
    var frames := Frames(nodes, parent, depth);
    if n == 0 {
      assert pending + frames[..0] == pending;
    } else {
      WorkOfChildren(pending, nodes, parent, depth, n - 1);
      var longer := pending + frames[..n];
      assert longer[..|longer| - 1] == pending + frames[..n - 1];
      SizeOneMore(nodes[..n - 1], nodes[n - 1]);
      assert nodes[..n] == nodes[..n - 1] + [nodes[n - 1]];
    }
  }

  lemma {:induction false} SizeOneMore(items: seq<Json>, x: Json)
    ensures SizeAll(items + [x]) == SizeAll(items) + Size(x)
    decreases |items|
  {
    if items == [] {
      assert SizeAll([x][1..]) == 0;
    } else {
      assert (items + [x])[1..] == items[1..] + [x];
      SizeOneMore(items[1..], x);
    }
  }

  /** Checking a node and putting off its children says the same of the whole. */
  lemma PutOff(protocol: Protocol, rest: seq<Frame>, f: Frame)
    requires NodeOk(protocol, f.node, f.parent, f.depth)
    ensures var pushed := rest + Frames(Children(f.node), Type(f.node).value, f.depth + 1);
            AllFit(protocol, pushed) <==> AllFit(protocol, rest + [f])
  {
    hide NodeOk;
    NodeHasType(protocol, f.node, f.parent, f.depth);
    var children := Children(f.node);
    var frames := Frames(children, Type(f.node).value, f.depth + 1);
    AllFitSplits(protocol, rest, frames);
    AllFitSplits(protocol, rest, [f]);
    assert AllFit(protocol, [f]) <==> Fits(protocol, f.node, f.parent, f.depth) by { OneFits(protocol, f); }
    assert AllFit(protocol, frames) <==> Fits(protocol, f.node, f.parent, f.depth);
  }

  lemma OneFits(protocol: Protocol, f: Frame)
    ensures AllFit(protocol, [f]) <==> Fits(protocol, f.node, f.parent, f.depth)
  {
    hide Fits;
    assert [f][0] == f;
  }

  lemma AllFitSplits(protocol: Protocol, a: seq<Frame>, b: seq<Frame>)
    ensures AllFit(protocol, a + b) <==> AllFit(protocol, a) && AllFit(protocol, b)
  {
    hide Fits;
    if AllFit(protocol, a + b) {
      forall i | 0 <= i < |b| ensures Fits(protocol, b[i].node, b[i].parent, b[i].depth) {
        assert (a + b)[|a| + i] == b[i];
      }
      forall i | 0 <= i < |a| ensures Fits(protocol, a[i].node, a[i].parent, a[i].depth) {
        assert (a + b)[i] == a[i];
      }
    }
  }

  /** Pushing the children of a node for it leaves less work. */
  lemma LessWork(rest: seq<Frame>, f: Frame, kind: string)
    ensures Work(rest + Frames(Children(f.node), kind, f.depth + 1)) < Work(rest + [f])
  {
    hide Size, SizeAll, Children, Work;
    var children := Children(f.node);
    var frames := Frames(children, kind, f.depth + 1);
    ChildrenAreSmaller(f.node);
    WorkOfChildren(rest, children, kind, f.depth + 1, |children|);
    assert frames[..|children|] == frames && children[..|children|] == children;
    WorkOneMore(rest, f);
  }

  lemma WorkOneMore(rest: seq<Frame>, f: Frame)
    ensures Work(rest + [f]) == Work(rest) + Size(f.node)
  {
    hide Size;
    assert (rest + [f])[..|rest|] == rest;
  }

  // ----- the guards of one node, in their order -----

  method CheckAttrs(kind: string, attrs: Json) returns (ok: bool)
    ensures ok <==> AttrsOk(kind, Some(attrs))
  {
    hide Keys, Get, PositiveSafeInteger;
    if !attrs.Obj? {
      return false;
    }
    var a := attrs.fields;
    if kind == "heading" {
      if !Keys(a, ["level", "textAlign"]) || Get(a, "level").None?
         || Get(a, "level").value !in [Num(1.0), Num(2.0), Num(3.0)] {
        return false;
      }
    } else if kind == "paragraph" {
      if !Keys(a, ["textAlign"]) {
        return false;
      }
    } else if kind == "orderedList" {
      if !Keys(a, ["start", "type"]) || Get(a, "start").None? || !PositiveSafeInteger(Get(a, "start").value)
         || (Get(a, "type").Some? && Get(a, "type").value != Null && Get(a, "type").value != Str("1")) {
        return false;
      }
    } else if kind == "codeBlock" {
      if !Keys(a, ["language"]) || Get(a, "language").None?
         || (!Get(a, "language").value.Null? && !Get(a, "language").value.Str?) {
        return false;
      }
    } else if a != [] {
      return false;
    }
    if (kind == "heading" || kind == "paragraph") && Get(a, "textAlign").Some?
       && Get(a, "textAlign").value != Null && Get(a, "textAlign").value !in [Str("left"), Str("center")] {
      return false;
    }
    return true;
  }

  method CheckLink(protocol: Protocol, attrs: Option<Json>) returns (ok: bool)
    ensures ok <==> LinkOk(protocol, attrs)
  {
    hide Keys, Get;
    if attrs.None? || !attrs.value.Obj? {
      return false;
    }
    var a := attrs.value.fields;
    if !Keys(a, ["href", "target", "rel", "class", "title"]) || Get(a, "href").None? || !Get(a, "href").value.Str? {
      return false;
    }
    var scheme := protocol(Get(a, "href").value.s);
    if scheme.None? || scheme.value !in ["https:", "http:", "mailto:"] {
      return false;
    }
    var target, rel, cssClass, title := Get(a, "target"), Get(a, "rel"), Get(a, "class"), Get(a, "title");
    if target.Some? && target.value != Null && target.value != Str("_blank") {
      return false;
    }
    if rel.Some? && !rel.value.Null? && !rel.value.Str? {
      return false;
    }
    if cssClass.Some? && !cssClass.value.Null? {
      return false;
    }
    return title.None? || title.value.Null? || title.value.Str?;
  }

  method CheckMark(protocol: Protocol, mark: Json) returns (ok: bool)
    ensures ok <==> MarkOk(protocol, mark)
  {
    hide Keys, Get, LinkOk;
    if !mark.Obj? || !Keys(mark.fields, ["type", "attrs"]) || Type(mark).None? || Type(mark).value !in MARKS {
      return false;
    }
    var attrs := Get(mark.fields, "attrs");
    if Type(mark).value == "link" {
      ok := CheckLink(protocol, attrs);
    } else {
      ok := attrs.None? || attrs.value == Obj([]);
    }
  }

  method CheckMarks(protocol: Protocol, kind: string, parent: string, marks: Json) returns (ok: bool)
    ensures ok <==> MarksOk(protocol, kind, parent, Some(marks))
  {
    hide MarkOk;
    if kind != "text" || parent == "codeBlock" || !marks.Arr? {
      return false;
    }
    for i := 0 to |marks.items|
      invariant forall k :: 0 <= k < i ==> MarkOk(protocol, marks.items[k])
    {
      var fine := CheckMark(protocol, marks.items[i]);
      if !fine {
        return false;
      }
    }
    return true;
  }

  /** The guards agree with the grammar of one node. */
  method CheckNode(protocol: Protocol, node: Json, parent: string, depth: nat) returns (ok: bool)
    ensures ok <==> NodeOk(protocol, node, parent, depth)
  {
    hide Keys, Get, MarksOk, AttrsOk, AllowedIn;
    if depth > MAX_DEPTH || !node.Obj? || !Keys(node.fields, ["type", "content", "attrs", "text", "marks"])
       || Type(node).None? {
      return false;
    }
    var kind := Type(node).value;
    if depth > 0 && !AllowedIn(parent, kind) {
      return false;
    }
    var text := Get(node.fields, "text");
    if text.Some? && (kind != "text" || !text.value.Str? || text.value.s == "") {
      return false;
    }
    if kind == "text" && (text.None? || !text.value.Str?) {
      return false;
    }
    var attrs, marks := Get(node.fields, "attrs"), Get(node.fields, "marks");
    AbsentIsOk(protocol, kind, parent);
    if attrs.Some? {
      var fine := CheckAttrs(kind, attrs.value);
      if !fine {
        return false;
      }
    }
    if marks.Some? {
      var fine := CheckMarks(protocol, kind, parent, marks.value);
      if !fine {
        return false;
      }
    }
    var content := Get(node.fields, "content");
    if content.Some? && (!content.value.Arr? || kind == "text" || kind == "hardBreak" || kind == "horizontalRule") {
      return false;
    }
    if IsList(kind) && (content.None? || content.value.items == []) {
      return false;
    }
    return kind == "listItem" ==> Type(content.value.items[0]) == Some("paragraph");
  }

  lemma AbsentIsOk(protocol: Protocol, kind: string, parent: string)
    ensures AttrsOk(kind, None) && MarksOk(protocol, kind, parent, None)
  {
  }

  /** The validator accepts exactly the documents of the grammar. */
  method IsNoteDocument(protocol: Protocol, value: Json) returns (ok: bool)
    ensures ok <==> IsDocument(protocol, value)
  {
    hide Fits, NodeOk, AllFit, Work, Children, Type, Frames;
    if Type(value) != Some("doc") || Children(value) == [] {
      return false;
    }
    var pending := [Frame(value, "", 0)];
    OneFits(protocol, pending[0]);
    while pending != []
      invariant AllFit(protocol, pending) <==> Fits(protocol, value, "", 0)
      decreases Work(pending)
    {
      var n := |pending| - 1;
      var frame, rest := pending[n], pending[..n];
      assert pending == rest + [frame];
      var fine := CheckNode(protocol, frame.node, frame.parent, frame.depth);
      if !fine {
        Misfit(protocol, rest, frame);
        return false;
      }
      PutOff(protocol, rest, frame);
      NodeHasType(protocol, frame.node, frame.parent, frame.depth);
      LessWork(rest, frame, Type(frame.node).value);
      pending := rest + Frames(Children(frame.node), Type(frame.node).value, frame.depth + 1);
    }
    NothingLeft(protocol);
    return true;
  }

  /** Which of the pending nodes is looked at next does not matter. */
  method IsNoteDocumentInAnyOrder(protocol: Protocol, value: Json) returns (ok: bool)
    ensures ok <==> IsDocument(protocol, value)
  {
    hide Fits, NodeOk, AllFit, Work, Children, Type, Frames;
    if Type(value) != Some("doc") || Children(value) == [] {
      return false;
    }
    var pending := [Frame(value, "", 0)];
    OneFits(protocol, pending[0]);
    while pending != []
      invariant AllFit(protocol, pending) <==> Fits(protocol, value, "", 0)
      decreases Work(pending)
    {
      var n: nat :| n < |pending|;
      var frame, rest := pending[n], pending[..n] + pending[n + 1..];
      Moved(protocol, pending, n);
      var fine := CheckNode(protocol, frame.node, frame.parent, frame.depth);
      if !fine {
        Misfit(protocol, rest, frame);
        return false;
      }
      PutOff(protocol, rest, frame);
      NodeHasType(protocol, frame.node, frame.parent, frame.depth);
      LessWork(rest, frame, Type(frame.node).value);
      pending := rest + Frames(Children(frame.node), Type(frame.node).value, frame.depth + 1);
    }
    NothingLeft(protocol);
    return true;
  }

  /** Any pending node may as well be the last one. */
  lemma Moved(protocol: Protocol, pending: seq<Frame>, n: nat)
    requires n < |pending|
    ensures var moved := pending[..n] + pending[n + 1..] + [pending[n]];
            (AllFit(protocol, pending) <==> AllFit(protocol, moved)) && Work(pending) == Work(moved)
  {
    hide AllFit, Work;
    var a, f, b := pending[..n], pending[n], pending[n + 1..];
    assert pending == a + ([f] + b) && a + b + [f] == a + (b + [f]);
    AllFitSplits(protocol, a, [f] + b);
    AllFitSplits(protocol, [f], b);
    AllFitSplits(protocol, a + b, [f]);
    AllFitSplits(protocol, a, b);
    WorkSplits(a, [f] + b);
    WorkSplits([f], b);
    WorkSplits(a + b, [f]);
    WorkSplits(a, b);
  }

  lemma {:induction false} WorkSplits(a: seq<Frame>, b: seq<Frame>)
    ensures Work(a + b) == Work(a) + Work(b)
    decreases |b|
  {
    if b == [] {
      assert a + b == a;
    } else {
      assert (a + b)[..|a + b| - 1] == a + b[..|b| - 1];
      WorkSplits(a, b[..|b| - 1]);
    }
  }

  lemma NothingLeft(protocol: Protocol)
    ensures AllFit(protocol, [])
  {
  }

  lemma NodeHasType(protocol: Protocol, node: Json, parent: string, depth: nat)
    requires NodeOk(protocol, node, parent, depth)
    ensures Type(node).Some?
  {
  }

  lemma Misfit(protocol: Protocol, rest: seq<Frame>, f: Frame)
    requires !NodeOk(protocol, f.node, f.parent, f.depth)
    ensures !AllFit(protocol, rest + [f])
  {
    hide NodeOk;
    AllFitSplits(protocol, rest, [f]);
    OneFits(protocol, f);
    assert !Fits(protocol, f.node, f.parent, f.depth);
  }

  // ----- the transform -----

  /** The attributes a link gets: where it goes and its title are kept. */
  function LinkAttrs(a: seq<Field>): Json {
    Obj([Field("href", if Get(a, "href").Some? then Get(a, "href").value else Null), Field("target", Str("_blank")),
         Field("rel", Str("noopener noreferrer")), Field("class", Null),
         Field("title", if Get(a, "title").Some? then Get(a, "title").value else Null)])
  }

  /** What a link is for: where it goes, and its title. */
  function LinkEssence(a: seq<Field>): Json {
    Obj([Field("href", if Get(a, "href").Some? then Get(a, "href").value else Null),
         Field("title", if Get(a, "title").Some? then Get(a, "title").value else Null)])
  }

  /** A rewriting of link attributes. */
  type Rewriting = seq<Field> -> Json

  function RewriteAttrs(f: Rewriting, fields: seq<Field>): (r: seq<Field>)
    ensures |r| == |fields|
    ensures forall i :: 0 <= i < |r| ==>
              r[i] == if fields[i].key == "attrs" && fields[i].value.Obj?
                      then Field("attrs", f(fields[i].value.fields)) else fields[i]
  {
    if fields == [] then []
    else
      var x := fields[0];
      [if x.key == "attrs" && x.value.Obj? then Field("attrs", f(x.value.fields)) else x] + RewriteAttrs(f, fields[1..])
  }

  function RewriteMark(f: Rewriting, mark: Json): Json {
    if Type(mark) == Some("link") then Obj(RewriteAttrs(f, mark.fields)) else mark
  }

  function RewriteMarks(f: Rewriting, marks: seq<Json>): (r: seq<Json>)
    ensures |r| == |marks| && forall i :: 0 <= i < |r| ==> r[i] == RewriteMark(f, marks[i])
  {
    if marks == [] then [] else [RewriteMark(f, marks[0])] + RewriteMarks(f, marks[1..])
  }

  /** The whole document, its links rewritten. */
  function Rewrite(f: Rewriting, node: Json): Json
    decreases node, 0
  {
    if node.Obj? then Obj(RewriteFields(f, node.fields)) else node
  }

  function RewriteFields(f: Rewriting, fields: seq<Field>): (r: seq<Field>)
    ensures |r| == |fields| && forall i :: 0 <= i < |r| ==> r[i].key == fields[i].key
    decreases fields
  {
    if fields == [] then []
    else [Field(fields[0].key, RewriteValue(f, fields[0].key, fields[0].value))] + RewriteFields(f, fields[1..])
  }

  function RewriteValue(f: Rewriting, key: string, value: Json): Json
    decreases value, 1
  {
    if key == "marks" && value.Arr? then Arr(RewriteMarks(f, value.items))
    else if key == "content" && value.Arr? then Arr(RewriteAll(f, value.items))
    else value
  }

  function RewriteAll(f: Rewriting, nodes: seq<Json>): (r: seq<Json>)
    ensures |r| == |nodes| && forall i :: 0 <= i < |r| ==> r[i] == Rewrite(f, nodes[i])
    decreases nodes
  {
    if nodes == [] then [] else [Rewrite(f, nodes[0])] + RewriteAll(f, nodes[1..])
  }

  /** The transform of the schema. */
  function Normal(node: Json): Json {
    Rewrite(LinkAttrs, node)
  }

  // ----- one rewriting after another -----

  /** Doing `f` and then `g` is doing `h`. */
  ghost predicate Composes(f: Rewriting, g: Rewriting, h: Rewriting) {
    forall a :: f(a).Obj? && g(f(a).fields) == h(a)
  }

  lemma {:induction false} GetRewritten(f: Rewriting, fields: seq<Field>, key: string)
    ensures Get(RewriteAttrs(f, fields), key) ==
              if key == "attrs" && Get(fields, key).Some? && Get(fields, key).value.Obj?
              then Some(f(Get(fields, key).value.fields)) else Get(fields, key)
  {
    if fields != [] {
      GetRewritten(f, fields[1..], key);
    }
  }

  lemma MarkTwice(f: Rewriting, g: Rewriting, h: Rewriting, mark: Json)
    requires Composes(f, g, h)
    ensures RewriteMark(g, RewriteMark(f, mark)) == RewriteMark(h, mark) && Type(RewriteMark(f, mark)) == Type(mark)
  {
    hide Composes, RewriteAttrs, Get;
    if Type(mark) == Some("link") {
      GetRewritten(f, mark.fields, "type");
      AttrsTwice(f, g, h, mark.fields);
    }
  }

  lemma AttrsTwice(f: Rewriting, g: Rewriting, h: Rewriting, fields: seq<Field>)
    requires Composes(f, g, h)
    ensures RewriteAttrs(g, RewriteAttrs(f, fields)) == RewriteAttrs(h, fields)
  {
    hide Composes, RewriteAttrs;
    var twice := RewriteAttrs(g, RewriteAttrs(f, fields));
    forall i | 0 <= i < |fields| ensures twice[i] == RewriteAttrs(h, fields)[i] {
      if fields[i].key == "attrs" && fields[i].value.Obj? {
        ComposesAt(f, g, h, fields[i].value.fields);
      }
    }
  }

  lemma ComposesAt(f: Rewriting, g: Rewriting, h: Rewriting, a: seq<Field>)
    requires Composes(f, g, h)
    ensures f(a).Obj? && g(f(a).fields) == h(a)
  {
  }

  lemma {:induction false} Twice(f: Rewriting, g: Rewriting, h: Rewriting, node: Json)
    requires Composes(f, g, h)
    ensures Rewrite(g, Rewrite(f, node)) == Rewrite(h, node)
    decreases node, 0
  {
    hide Composes;
    if node.Obj? {
      FieldsTwice(f, g, h, node.fields);
    }
  }

  lemma {:induction false} FieldsTwice(f: Rewriting, g: Rewriting, h: Rewriting, fields: seq<Field>)
    requires Composes(f, g, h)
    ensures RewriteFields(g, RewriteFields(f, fields)) == RewriteFields(h, fields)
    decreases fields
  {
    hide Rewrite, RewriteAll, RewriteValue, Composes;
    if fields != [] {
      ValueTwice(f, g, h, fields[0].key, fields[0].value);
      FieldsTwice(f, g, h, fields[1..]);
      assert RewriteFields(f, fields)[1..] == RewriteFields(f, fields[1..]);
    }
  }

  lemma {:induction false} ValueTwice(f: Rewriting, g: Rewriting, h: Rewriting, key: string, value: Json)
    requires Composes(f, g, h)
    ensures RewriteValue(g, key, RewriteValue(f, key, value)) == RewriteValue(h, key, value)
    decreases value, 1
  {
    hide Rewrite, RewriteMark, Composes;
    if key == "marks" && value.Arr? {
      MarksTwice(f, g, h, value.items);
    } else if key == "content" && value.Arr? {
      AllTwice(f, g, h, value.items);
    }
  }

  lemma MarksTwice(f: Rewriting, g: Rewriting, h: Rewriting, marks: seq<Json>)
    requires Composes(f, g, h)
    ensures RewriteMarks(g, RewriteMarks(f, marks)) == RewriteMarks(h, marks)
  {
    hide RewriteMark, Composes;
    var twice := RewriteMarks(g, RewriteMarks(f, marks));
    forall i | 0 <= i < |marks| ensures twice[i] == RewriteMarks(h, marks)[i] {
      MarkTwice(f, g, h, marks[i]);
    }
  }

  lemma {:induction false} AllTwice(f: Rewriting, g: Rewriting, h: Rewriting, nodes: seq<Json>)
    requires Composes(f, g, h)
    ensures RewriteAll(g, RewriteAll(f, nodes)) == RewriteAll(h, nodes)
    decreases nodes
  {
    hide Rewrite, Composes;
    if nodes != [] {
      Twice(f, g, h, nodes[0]);
      AllTwice(f, g, h, nodes[1..]);
      assert RewriteAll(f, nodes)[1..] == RewriteAll(f, nodes[1..]);
    }
  }

  lemma LinkAttrsKeep(a: seq<Field>)
    ensures Get(LinkAttrs(a).fields, "href") == Some(if Get(a, "href").Some? then Get(a, "href").value else Null)
    ensures Get(LinkAttrs(a).fields, "title") == Some(if Get(a, "title").Some? then Get(a, "title").value else Null)
  {
    hide Get;
    var b := LinkAttrs(a).fields;
    GetAt(b, "href", 0);
    assert "title"[0] == 't' && "href"[0] == 'h' && "rel"[0] == 'r' && "class"[0] == 'c' && |"target"| == 6;
    GetAt(b, "title", 4);
  }

  lemma LinkAttrsSet(a: seq<Field>)
    ensures Get(LinkAttrs(a).fields, "target") == Some(Str("_blank"))
    ensures Get(LinkAttrs(a).fields, "rel") == Some(Str("noopener noreferrer"))
    ensures Get(LinkAttrs(a).fields, "class") == Some(Null)
  {
    hide Get;
    var b := LinkAttrs(a).fields;
    assert "target"[0] == 't' && "href"[0] == 'h' && "rel"[0] == 'r' && "class"[0] == 'c';
    GetAt(b, "target", 1);
    GetAt(b, "rel", 2);
    GetAt(b, "class", 3);
  }

  lemma {:induction false} GetAt(fields: seq<Field>, key: string, i: nat)
    requires i < |fields| && fields[i].key == key && forall j :: 0 <= j < i ==> fields[j].key != key
    ensures Get(fields, key) == Some(fields[i].value)
  {
    if i > 0 {
      GetAt(fields[1..], key, i - 1);
    }
  }

  /** The transform is idempotent. */
  lemma NormalOnce(node: Json)
    ensures Normal(Normal(node)) == Normal(node)
  {
    hide LinkAttrs, Rewrite;
    forall a ensures LinkAttrs(a).Obj? && LinkAttrs(LinkAttrs(a).fields) == LinkAttrs(a) {
      NormalAttrsOnce(a);
    }
    Twice(LinkAttrs, LinkAttrs, LinkAttrs, node);
  }

  lemma NormalAttrsOnce(a: seq<Field>)
    ensures LinkAttrs(a).Obj? && LinkAttrs(LinkAttrs(a).fields) == LinkAttrs(a)
  {
    hide Get;
    LinkAttrsKeep(a);
  }

  /** It changes nothing but links, and of these neither where they go nor their title. */
  lemma NormalKeepsEssence(node: Json)
    ensures Rewrite(LinkEssence, Normal(node)) == Rewrite(LinkEssence, node)
  {
    hide LinkAttrs, LinkEssence, Rewrite;
    forall a ensures LinkAttrs(a).Obj? && LinkEssence(LinkAttrs(a).fields) == LinkEssence(a) {
      EssenceIsKept(a);
    }
    Twice(LinkAttrs, LinkEssence, LinkEssence, node);
  }

  lemma EssenceIsKept(a: seq<Field>)
    ensures LinkAttrs(a).Obj? && LinkEssence(LinkAttrs(a).fields) == LinkEssence(a)
  {
    LinkAttrsKeep(a);
  }

  // ----- what is a document stays one -----

  lemma {:induction false} GetRewrittenField(f: Rewriting, fields: seq<Field>, key: string)
    ensures Get(RewriteFields(f, fields), key) ==
              if Get(fields, key).Some? then Some(RewriteValue(f, key, Get(fields, key).value)) else None
  {
    hide RewriteValue;
    if fields != [] {
      GetRewrittenField(f, fields[1..], key);
      assert RewriteFields(f, fields)[1..] == RewriteFields(f, fields[1..]);
    }
  }

  lemma TypeIsKept(f: Rewriting, node: Json)
    ensures Type(Rewrite(f, node)) == Type(node)
  {
    hide Get, RewriteFields, RewriteValue;
    if node.Obj? {
      GetRewrittenField(f, node.fields, "type");
      if Get(node.fields, "type").Some? {
        OtherKey(f, "type", Get(node.fields, "type").value);
      }
    }
  }

  lemma OtherKey(f: Rewriting, key: string, value: Json)
    requires key != "marks" && key != "content"
    ensures RewriteValue(f, key, value) == value
  {
  }

  lemma ChildrenRewritten(f: Rewriting, node: Json)
    ensures Children(Rewrite(f, node)) == RewriteAll(f, Children(node))
  {
    hide Get, RewriteFields, RewriteAll, RewriteMarks;
    if node.Obj? {
      GetRewrittenField(f, node.fields, "content");
    }
  }

  lemma LinkStaysOk(protocol: Protocol, a: seq<Field>)
    requires LinkOk(protocol, Some(Obj(a)))
    ensures LinkOk(protocol, Some(LinkAttrs(a)))
  {
    hide Get, Keys, LinkAttrs;
    LinkAttrsKeep(a);
    LinkAttrsSet(a);
    LinkAttrKeys(a);
  }

  lemma MarkStaysOk(protocol: Protocol, mark: Json)
    requires MarkOk(protocol, mark)
    ensures MarkOk(protocol, RewriteMark(LinkAttrs, mark))
  {
    hide LinkAttrs, LinkOk, Get, Keys, RewriteAttrs;
    if Type(mark) == Some("link") {
      LinkHasAttrs(protocol, Get(mark.fields, "attrs"));
      var attrs := Get(mark.fields, "attrs").value.fields;
      GetRewritten(LinkAttrs, mark.fields, "type");
      GetRewritten(LinkAttrs, mark.fields, "attrs");
      KeysRewritten(mark.fields, RewriteAttrs(LinkAttrs, mark.fields), ["type", "attrs"]);
      LinkStaysOk(protocol, attrs);
    }
  }

  lemma LinkHasAttrs(protocol: Protocol, attrs: Option<Json>)
    requires LinkOk(protocol, attrs)
    ensures attrs.Some? && attrs.value.Obj?
  {
  }

  lemma LinkAttrKeys(a: seq<Field>)
    ensures LinkAttrs(a).Obj? && Keys(LinkAttrs(a).fields, ["href", "target", "rel", "class", "title"])
  {
    hide Get;
  }

  lemma KeysRewritten(a: seq<Field>, b: seq<Field>, allowed: seq<string>)
    requires |a| == |b| && forall i :: 0 <= i < |a| ==> b[i].key == a[i].key
    requires Keys(a, allowed)
    ensures Keys(b, allowed)
  {
    forall x | x in b ensures x.key in allowed {
      var i :| 0 <= i < |b| && b[i] == x;
      assert a[i] in a;
    }
  }

  lemma MarksStayOk(protocol: Protocol, kind: string, parent: string, marks: Option<Json>)
    requires MarksOk(protocol, kind, parent, marks) && marks.Some?
    ensures MarksOk(protocol, kind, parent, Some(RewriteValue(LinkAttrs, "marks", marks.value)))
  {
    hide MarkOk, RewriteMark;
    var items := marks.value.items;
    forall mark | mark in RewriteMarks(LinkAttrs, items) ensures MarkOk(protocol, mark) {
      var i :| 0 <= i < |items| && RewriteMarks(LinkAttrs, items)[i] == mark;
      assert items[i] in items;
      MarkStaysOk(protocol, items[i]);
    }
  }

  lemma ContentStaysOk(kind: string, content: Option<Json>)
    requires ContentOk(kind, content) && content.Some?
    ensures ContentOk(kind, Some(RewriteValue(LinkAttrs, "content", content.value)))
  {
    hide Rewrite;
    if kind == "listItem" {
      TypeIsKept(LinkAttrs, content.value.items[0]);
    }
  }

  lemma NodeStaysOk(protocol: Protocol, node: Json, parent: string, depth: nat)
    requires NodeOk(protocol, node, parent, depth)
    ensures NodeOk(protocol, Normal(node), parent, depth)
  {
    hide MarksOk, ContentOk, AttrsOk, RewriteValue;
    TypeIsKept(LinkAttrs, node);
    var kind, fields := Type(node).value, node.fields;
    GetRewrittenField(LinkAttrs, fields, "text");
    GetRewrittenField(LinkAttrs, fields, "attrs");
    GetRewrittenField(LinkAttrs, fields, "marks");
    GetRewrittenField(LinkAttrs, fields, "content");
    OtherValues(fields);
    KeysRewritten(fields, RewriteFields(LinkAttrs, fields), ["type", "content", "attrs", "text", "marks"]);
    if Get(fields, "marks").Some? {
      MarksStayOk(protocol, kind, parent, Get(fields, "marks"));
    }
    if Get(fields, "content").Some? {
      ContentStaysOk(kind, Get(fields, "content"));
    }
  }

  lemma OtherValues(fields: seq<Field>)
    ensures forall v :: RewriteValue(LinkAttrs, "text", v) == v && RewriteValue(LinkAttrs, "attrs", v) == v
  {
  }

  lemma {:induction false} StillFits(protocol: Protocol, node: Json, parent: string, depth: nat)
    requires Fits(protocol, node, parent, depth)
    ensures Fits(protocol, Normal(node), parent, depth)
    decreases Size(node)
  {
    hide NodeOk, Rewrite;
    NodeHasType(protocol, node, parent, depth);
    NodeStaysOk(protocol, node, parent, depth);
    TypeIsKept(LinkAttrs, node);
    ChildrenRewritten(LinkAttrs, node);
    var children, kind := Children(node), Type(node).value;
    forall i | 0 <= i < |children| ensures Fits(protocol, Children(Normal(node))[i], kind, depth + 1) {
      ChildrenAreSmaller(node);
      ItemIsSmaller(children, i);
      assert Fits(protocol, children[i], kind, depth + 1);
      StillFits(protocol, children[i], kind, depth + 1);
    }
  }

  /** A document stays a document. */
  lemma NormalStaysDocument(protocol: Protocol, value: Json)
    requires IsDocument(protocol, value)
    ensures IsDocument(protocol, Normal(value))
  {
    hide Fits, Rewrite;
    TypeIsKept(LinkAttrs, value);
    ChildrenRewritten(LinkAttrs, value);
    StillFits(protocol, value, "", 0);
  }
}
