/**
 * The in-memory rendering backend: element and text nodes held by reference,
 * and a renderer that applies the framework's mutation calls to them in place.
 * Calls the backend does not support throw; here they return `Fail` or `Err`
 * with the message the TypeScript throws, and their empty frame says nothing
 * changes.
 */
module ConsoleRendering {
  import opened Exceptions
  import opened JsArray

  /**
   * The one key that an assignment into a plain `{}` object does not store:
   * it names the accessor every object inherits for its prototype.
   */
  const ProtoKey: string := "__proto__"

  /** An untyped (`any`) property payload; it is stored, never interpreted. */
  datatype Any = Undefined | Null | Bool(b: bool) | Number(n: int) | Str(s: string)

  /**
   * `ConsoleNode = ConsoleElement | ConsoleText`. Both variants hold a reference,
   * so `==` on nodes is reference identity, as `===` is in the TypeScript.
   */
  datatype Node = Element(element: ConsoleElement) | Text(text: ConsoleText)

  /** An element: a tag name, two string-keyed maps and an ordered child list. */
  class ConsoleElement {
    const name: string
    var attributes: map<string, string>
    var properties: map<string, Any>
    var children: seq<Node>
    /** Declared by platform-console but never assigned: it stays null. */
    var view: ConsoleView?

    /** A fresh element named `name` with no attributes, properties or children. */
    constructor (name: string)
      ensures this.name == name
      ensures attributes == map[] && properties == map[] && children == [] && view == null
    {
      this.name := name;
      attributes := map[];
      properties := map[];
      children := [];
      view := null;
    }

    /** True of an element no mutation has touched yet. */
    predicate IsBlank()
      reads this
    {
      attributes == map[] && properties == map[] && children == [] && view == null
    }
  }

  /** A text node: a string payload that `setValue` overwrites. */
  class ConsoleText {
    var value: string

    constructor (value: string)
      ensures this.value == value
    {
      this.value := value;
    }
  }

  /** The view an element may point to; no operation of the renderer creates one. */
  class ConsoleView {
    var children: seq<Node>

    constructor ()
      ensures children == []
    {
      children := [];
    }
  }

  /**
   * What `insertBefore` leaves in `children`: a splice at the index `findIndex`
   * reports. Whether or not `refChild` is present, exactly one copy of the new
   * child is added and nothing else is lost.
   */
  function InsertedBefore(children: seq<Node>, newChild: Node, refChild: Node): (r: seq<Node>)
    ensures |r| == |children| + 1
    ensures multiset(r) == multiset(children) + multiset{newChild}
  {
    var r := Splice(children, FindIndex(children, refChild), 0, [newChild]);
    var k := SpliceStart(|children|, FindIndex(children, refChild));
    assert r == children[..k] + [newChild] + children[k..];
    assert children == children[..k] + children[k..];
    r
  }

  /**
   * What `removeChild` leaves in `children`: a one-element splice at the index
   * `findIndex` reports. Exactly one child goes unless the list is empty, and
   * nothing is added.
   */
  function Removed(children: seq<Node>, oldChild: Node): (r: seq<Node>)
    ensures |r| == if children == [] then 0 else |children| - 1
    ensures multiset(r) <= multiset(children)
  {
    var r := Splice(children, FindIndex(children, oldChild), 1, []);
    var k := SpliceStart(|children|, FindIndex(children, oldChild));
    var d := SpliceDeleteCount(|children|, FindIndex(children, oldChild), 1);
    assert r == children[..k] + children[k + d..];
    assert children[..k + d] == children[..k] + children[k..k + d];
    assert children == children[..k + d] + children[k + d..];
    r
  }

  /**
   * With `refChild` present, the new child takes the index of its first
   * occurrence: the children before it stay put, the rest shift right by one.
   */
  lemma InsertBeforePresent(children: seq<Node>, newChild: Node, refChild: Node)
    requires refChild in children
    ensures var i, r := FindIndex(children, refChild), InsertedBefore(children, newChild, refChild);
      0 <= i < |children| && children[i] == refChild && refChild !in children[..i]
      && |r| == |children| + 1
      && r[..i] == children[..i] && r[i] == newChild && r[i + 1..] == children[i..]
      && r[i + 1] == refChild
  {
  }

  /**
   * With `refChild` absent, `findIndex` gives -1 and the splice starts one
   * from the end: the new child lands just before the last child, or becomes
   * the only child of an empty list. Nothing throws.
   */
  lemma InsertBeforeAbsent(children: seq<Node>, newChild: Node, refChild: Node)
    requires refChild !in children
    ensures var r := InsertedBefore(children, newChild, refChild);
      if children == [] then r == [newChild]
      else r == children[..|children| - 1] + [newChild, children[|children| - 1]]
  {
  }

  /**
   * With `oldChild` present, exactly its first occurrence goes: the list
   * shrinks by one, keeps the others in their order, and loses one copy of
   * `oldChild` as a multiset.
   */
  lemma RemoveChildPresent(children: seq<Node>, oldChild: Node)
    requires oldChild in children
    ensures var i, r := FindIndex(children, oldChild), Removed(children, oldChild);
      0 <= i < |children| && children[i] == oldChild && oldChild !in children[..i]
      && r == children[..i] + children[i + 1..]
      && |r| == |children| - 1
      && multiset(r) == multiset(children) - multiset{oldChild}
  {
    var i := FindIndex(children, oldChild);
    var r := Removed(children, oldChild);
    assert r == children[..i] + children[i + 1..];
    calc {
      multiset(children);
      { assert children == children[..i] + [oldChild] + children[i + 1..]; }
      multiset(children[..i]) + multiset{oldChild} + multiset(children[i + 1..]);
    }
  }

  /**
   * With `oldChild` absent, `findIndex` gives -1 and the splice deletes the
   * last child; an empty list stays empty. Nothing throws.
   */
  lemma RemoveChildAbsent(children: seq<Node>, oldChild: Node)
    requires oldChild !in children
    ensures Removed(children, oldChild) == if children == [] then [] else children[..|children| - 1]
  {
  }

  /** Removing a child just appended (and not there before) restores the list. */
  lemma RemoveUndoesAppend(children: seq<Node>, newChild: Node)
    requires newChild !in children
    ensures Removed(children + [newChild], newChild) == children
  {
  }

  /**
   * Removing a child just inserted (and not there before) restores the list,
   * also when `refChild` is absent and the insertion fell before the last child.
   */
  lemma RemoveUndoesInsertBefore(children: seq<Node>, newChild: Node, refChild: Node)
    requires newChild !in children
    ensures Removed(InsertedBefore(children, newChild, refChild), newChild) == children
  {
    var k := SpliceStart(|children|, FindIndex(children, refChild));
    var r := InsertedBefore(children, newChild, refChild);
    assert r == children[..k] + [newChild] + children[k..];
    assert FindIndex(r, newChild) == k by {
      assert r[k] == newChild && r[..k] == children[..k];
    }
    assert r[..k] + r[k + 1..] == children;
  }

  /** `Renderer2` as implemented by the console backend; `root` is the current tree. */
  class ConsoleRenderer {
    var root: ConsoleElement

    /** The renderer starts with an empty element named "root". */
    constructor ()
      ensures fresh(root) && root.name == "root" && root.IsBlank()
    {
      root := new ConsoleElement("root");
    }

    /** `namespace` is ignored; the result is a new, detached, blank element. */
    method CreateElement(name: string, namespace: string) returns (e: ConsoleElement)
      ensures fresh(e) && e.name == name && e.IsBlank()
    {
      e := new ConsoleElement(name);
    }

    /** Comments cannot be represented: always throws. */
    method CreateComment(value: string) returns (r: Result<ConsoleElement>)
      ensures r == Err(Error("createComment not implemented."))
    {
      r := Err(Error("createComment not implemented."));
    }

    /** A new, detached text node holding `value`. */
    method CreateText(value: string) returns (t: ConsoleText)
      ensures fresh(t) && t.value == value
    {
      t := new ConsoleText(value);
    }

    /** `parent.children.push(newChild)`: the new child becomes the last one. */
    method AppendChild(parent: ConsoleElement, newChild: Node)
      modifies parent`children
      ensures parent.children == old(parent.children) + [newChild]
    {
      parent.children := parent.children + [newChild];
    }

    /**
     * `splice(findIndex(refChild), 0, newChild)`: before the first occurrence
     * of `refChild`, or just before the last child when `refChild` is absent
     * (see InsertBeforePresent and InsertBeforeAbsent).
     */
    method InsertBefore(parent: ConsoleElement, newChild: Node, refChild: Node)
      modifies parent`children
      ensures parent.children == InsertedBefore(old(parent.children), newChild, refChild)
    {
      var i := FindIndex(parent.children, refChild);
      parent.children := Splice(parent.children, i, 0, [newChild]);
    }

    /**
     * `splice(findIndex(oldChild), 1)`: the first occurrence of `oldChild`
     * goes, or the last child when `oldChild` is absent (see RemoveChildPresent
     * and RemoveChildAbsent).
     */
    method RemoveChild(parent: ConsoleElement, oldChild: Node)
      modifies parent`children
      ensures parent.children == Removed(old(parent.children), oldChild)
    {
      var i := FindIndex(parent.children, oldChild);
      parent.children := Splice(parent.children, i, 1, []);
    }

    /**
     * The current tree is replaced by a fresh blank element named by the
     * selector (`preserveContent` is ignored), and that element is returned.
     * Being fresh and childless, it reaches nothing of the previous tree.
     */
    method SelectRootElement(selectorOrNode: string, preserveContent: bool) returns (e: ConsoleElement)
      modifies this`root
      ensures fresh(e) && root == e && e.name == selectorOrNode && e.IsBlank()
    {
      root := new ConsoleElement(selectorOrNode);
      e := root;
    }

    /** No parent links are kept: always throws. */
    method ParentNode(node: Node) returns (r: Outcome)
      ensures r == Fail(Error("parentNode not implemented."))
    {
      r := Fail(Error("parentNode not implemented."));
    }

    /** No sibling links are kept: always throws. */
    method NextSibling(node: Node) returns (r: Outcome)
      ensures r == Fail(Error("nextSibling not implemented."))
    {
      r := Fail(Error("nextSibling not implemented."));
    }

    /**
     * `el.attributes[name] = value`; `namespace` is ignored. The key
     * "__proto__" reaches the inherited prototype setter, which ignores a
     * string, so nothing is stored under it.
     */
    method SetAttribute(el: ConsoleElement, name: string, value: string, namespace: string)
      modifies el`attributes
      ensures name != ProtoKey ==> name in el.attributes && el.attributes[name] == value
      ensures el.attributes == if name == ProtoKey then old(el.attributes) else old(el.attributes)[name := value]
    {
      if name != ProtoKey {
        el.attributes := el.attributes[name := value];
      }
    }

    /** `delete el.attributes[name]`; deleting an absent key changes nothing. */
    method RemoveAttribute(el: ConsoleElement, name: string, namespace: string)
      modifies el`attributes
      ensures name !in el.attributes
      ensures el.attributes == old(el.attributes) - {name}
      ensures name !in old(el.attributes) ==> el.attributes == old(el.attributes)
    {
      el.attributes := el.attributes - {name};
    }

    /** Styling is not represented: always throws. */
    method AddClass(el: ConsoleElement, name: string) returns (r: Outcome)
      ensures r == Fail(Error("addClass not implemented."))
    {
      r := Fail(Error("addClass not implemented."));
    }

    /** Styling is not represented: always throws. */
    method RemoveClass(el: ConsoleElement, name: string) returns (r: Outcome)
      ensures r == Fail(Error("removeClass not implemented."))
    {
      r := Fail(Error("removeClass not implemented."));
    }

    /** Styling is not represented: always throws (`flags` is ignored). */
    method SetStyle(el: ConsoleElement, style: string, value: Any, flags: int) returns (r: Outcome)
      ensures r == Fail(Error("setStyle not implemented."))
    {
      r := Fail(Error("setStyle not implemented."));
    }

    /** Styling is not represented: always throws (`flags` is ignored). */
    method RemoveStyle(el: ConsoleElement, style: string, flags: int) returns (r: Outcome)
      ensures r == Fail(Error("removeStyle not implemented."))
    {
      r := Fail(Error("removeStyle not implemented."));
    }

    /**
     * `el.properties[name] = value`; attributes and children are outside the
     * frame. The key "__proto__" reaches the inherited prototype setter instead
     * of storing a key: a primitive value is ignored, and `null` changes the
     * map's prototype, which is not represented here.
     */
    method SetProperty(el: ConsoleElement, name: string, value: Any)
      modifies el`properties
      ensures name != ProtoKey ==> name in el.properties && el.properties[name] == value
      ensures el.properties == if name == ProtoKey then old(el.properties) else old(el.properties)[name := value]
    {
      if name != ProtoKey {
        el.properties := el.properties[name := value];
      }
    }

    /**
     * On a text node the value is overwritten, so the last write wins; on an
     * element it throws and nothing changes.
     */
    method SetValue(node: Node, value: string) returns (r: Outcome)
      modifies if node.Text? then {node.text} else {}
      ensures node.Text? ==> r == Pass && node.text.value == value
      ensures node.Element? ==> r == Fail(Error("setValue only implemented for ConsoleNode"))
    {
      if node.Text? {
        node.text.value := value;
        r := Pass;
      } else {
        r := Fail(Error("setValue only implemented for ConsoleNode"));
      }
    }

    /** No events are delivered: always throws. */
    method Listen(target: Node, eventName: string) returns (r: Outcome)
      ensures r == Fail(Error("listen not implemented."))
    {
      r := Fail(Error("listen not implemented."));
    }
  }

  /** The framework-side type descriptor passed to `createRenderer`; it is ignored. */
  datatype RendererType = RendererType(id: string)

  /** Hands out one renderer, shared by every host element and component type. */
  class ConsoleRendererFactory {
    const defaultRenderer: ConsoleRenderer

    constructor ()
      ensures fresh(defaultRenderer) && fresh(defaultRenderer.root)
      ensures defaultRenderer.root.name == "root" && defaultRenderer.root.IsBlank()
    {
      defaultRenderer := new ConsoleRenderer();
    }

    /** Whatever the arguments, the result is the shared `defaultRenderer`. */
    method CreateRenderer(hostElement: Node, rendererType: RendererType) returns (r: ConsoleRenderer)
      ensures r == defaultRenderer
    {
      r := defaultRenderer;
    }
  }
}
