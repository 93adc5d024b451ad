/**
 * OrderedList: passes its size down to the children that have none.
 *
 * Each child is either a React element (a kind and its props) or any other
 * value. Elements are cloned with `size` set to their own size when that is
 * truthy and to the list's size otherwise; other children are returned as
 * they are. The list box starts from the `ol` base styles and the caller's
 * remaining props override them.
 */
module OrderedList {
  import opened JsValues

  /** The sizes the list accepts. */
  type ListSize = s: int | s == 300 || s == 400 || s == 500 || s == 600 witness 400

  const DefaultSize: ListSize := 400

  datatype Child =
    | Element(kind: nat, props: map<string, JsValue>)
    | NonElement(value: JsValue)

  /** `OrderedList.styles`. */
  const BaseStyles: map<string, JsValue> := map[
    "is" := Str("ol"),
    "margin" := Num(0.0),
    "marginLeft" := Str("1.1em"),
    "padding" := Num(0.0),
    "listStylePosition" := Str("inside"),
    "listStyle" := Str("decimal")]

  /** The mapping applied to one child. */
  function SizeChild(c: Child, size: ListSize): (r: Child)
    ensures c.NonElement? ==> r == c
    ensures c.Element? ==> r.Element? && r.kind == c.kind
    ensures c.Element? ==> r.props.Keys == c.props.Keys + {"size"}
    ensures c.Element? ==> forall k :: k in c.props && k != "size" ==> r.props[k] == c.props[k]
    ensures c.Element? && Truthy(Get(c.props, "size")) ==> r.props["size"] == c.props["size"]
    ensures c.Element? && !Truthy(Get(c.props, "size")) ==> r.props["size"] == Num(size as real)
  {
    match c
    case NonElement(_) => c
    case Element(kind, props) =>
      Element(kind, props["size" := Or(Get(props, "size"), Num(size as real))])
  }

  /** The children after the mapping, in their order. */
  function SizeChildren(cs: seq<Child>, size: ListSize): (r: seq<Child>)
    ensures |r| == |cs|
    ensures forall i :: 0 <= i < |cs| ==> r[i] == SizeChild(cs[i], size)
    decreases |cs|
  {
    if cs == [] then []
    else [SizeChild(cs[0], size)] + SizeChildren(cs[1..], size)
  }

  /** What `render` produces: the box props and the mapped children. */
  datatype ListView = ListView(boxProps: map<string, JsValue>, children: seq<Child>)

  function Render(children: seq<Child>, size: Option<ListSize>, props: map<string, JsValue>): (v: ListView)
    ensures size.None? ==> v.children == SizeChildren(children, DefaultSize)
    ensures size.Some? ==> v.children == SizeChildren(children, size.value)
    ensures v.boxProps.Keys == BaseStyles.Keys + (props.Keys - {"children", "size"})
    ensures forall k :: k in props && k != "children" && k != "size" ==> v.boxProps[k] == props[k]
    ensures forall k :: k in BaseStyles && k !in props ==> v.boxProps[k] == BaseStyles[k]
  {
    var listSize := match size case None => DefaultSize case Some(s) => s;
    ListView(BaseStyles + (props - {"children", "size"}), SizeChildren(children, listSize))
  }

  /** The mapping distributes over concatenation: children are handled one
      by one, in order. */
  lemma {:induction false} SizeChildrenAppend(a: seq<Child>, b: seq<Child>, size: ListSize)
    ensures SizeChildren(a + b, size) == SizeChildren(a, size) + SizeChildren(b, size)
  {
    var l, r := SizeChildren(a + b, size), SizeChildren(a, size) + SizeChildren(b, size);
    assert |l| == |r|;
    forall i | 0 <= i < |l| ensures l[i] == r[i] {
      if i < |a| {
        assert (a + b)[i] == a[i];
      } else {
        assert (a + b)[i] == b[i - |a|];
      }
    }
  }

  /** Sizing twice is sizing once, even with another list size the second
      time: after the first pass every element has a truthy size. */
  lemma SizeChildIdempotent(c: Child, size: ListSize, other: ListSize)
    ensures SizeChild(SizeChild(c, size), other) == SizeChild(c, size)
  {
    if c.Element? {
      var once := SizeChild(c, size);
      assert Truthy(Get(once.props, "size"));
      assert once.props["size" := once.props["size"]] == once.props;
    }
  }
}
