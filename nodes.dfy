/** The configuration document as the builder sees it, after the document
    parser has produced it: element nodes with attributes and element children,
    and the `Properties` bags built from `<property name=".." value=".."/>` children.
    Placeholder substitution is done by that parser and is not part of this model. */
module Nodes {
  import opened Failures

  /** A `java.util.Properties` bag: string keys, string values. */
  type Props = map<string, string>

  datatype XNode = XNode(name: string, attributes: map<string, string>, children: seq<XNode>)

  /** `getStringAttribute(name)`: the attribute's value, or nothing when it is absent. */
  function Attr(node: XNode, name: string): (r: Option<string>)
    ensures r.Some? <==> name in node.attributes
    ensures r.Some? ==> r.value == node.attributes[name]
  {
    if name in node.attributes then Some(node.attributes[name]) else None
  }

  /** `evalNode(name)` relative to `node`: the first child element with that name. */
  function Child(node: XNode, name: string): (r: Option<XNode>)
    ensures r.Some? ==> r.value in node.children && r.value.name == name
    ensures r.None? <==> forall c :: c in node.children ==> c.name != name
  {
    FirstNamed(node.children, name)
  }

  function FirstNamed(cs: seq<XNode>, name: string): (r: Option<XNode>)
    ensures r.Some? ==> r.value in cs && r.value.name == name
    ensures r.None? <==> forall c :: c in cs ==> c.name != name
  {
    if cs == [] then None
    else if cs[0].name == name then Some(cs[0])
    else FirstNamed(cs[1..], name)
  }

  /** The (name, value) pairs of the children that carry both attributes, in document order. */
  function Entries(cs: seq<XNode>): (r: seq<(string, string)>)
    ensures |r| <= |cs|
  {
    if cs == [] then []
    else
      var rest := Entries(cs[1..]);
      match (Attr(cs[0], "name"), Attr(cs[0], "value"))
      case (Some(n), Some(v)) => [(n, v)] + rest
      case _ => rest
  }

  /** Exactly the children that carry both a name and a value contribute an entry. */
  lemma {:induction false} EntriesOfChildren(cs: seq<XNode>)
    ensures forall c :: c in cs && Attr(c, "name").Some? && Attr(c, "value").Some? ==>
              (Attr(c, "name").value, Attr(c, "value").value) in Entries(cs)
    ensures forall e :: e in Entries(cs) ==> exists c :: c in cs && Attr(c, "name") == Some(e.0) && Attr(c, "value") == Some(e.1)
  {
    if cs != [] {
      EntriesOfChildren(cs[1..]);
      assert forall c :: c in cs[1..] ==> c in cs;
      assert forall c :: c in cs ==> c == cs[0] || c in cs[1..];
    }
  }

  /** The bag built from `entries` in order, so a later entry overrides an earlier one. */
  function PropsOf(entries: seq<(string, string)>): (r: Props)
    ensures r.Keys == set e | e in entries :: e.0
  {
    if entries == [] then map[]
    else
      var last := entries[|entries| - 1];
      var front := entries[..|entries| - 1];
      assert forall e :: e in entries <==> e in front || e == last;
      PropsOf(front)[last.0 := last.1]
  }

  /** The value a key gets in `PropsOf(entries)` is the value of its last entry. */
  lemma {:induction false} PropsOfLastWins(entries: seq<(string, string)>, j: nat)
    requires j < |entries|
    requires forall k :: j < k < |entries| ==> entries[k].0 != entries[j].0
    ensures PropsOf(entries)[entries[j].0] == entries[j].1
  {
    if j < |entries| - 1 {
      PropsOfLastWins(entries[..|entries| - 1], j);
    }
  }

  /** `getChildrenAsProperties()`. */
  function ChildrenAsProperties(node: XNode): Props {
    PropsOf(Entries(node.children))
  }

  /** The keys of the bag are the names of the children that carry both a name
      and a value. */
  lemma ChildrenAsPropertiesKeys(node: XNode)
    ensures forall c :: c in node.children && Attr(c, "name").Some? && Attr(c, "value").Some? ==>
              Attr(c, "name").value in ChildrenAsProperties(node)
    ensures forall k :: k in ChildrenAsProperties(node) ==>
              exists c :: c in node.children && Attr(c, "name") == Some(k) && Attr(c, "value").Some?
  {
    EntriesOfChildren(node.children);
    var entries := Entries(node.children);
    forall k | k in ChildrenAsProperties(node)
      ensures exists c :: c in node.children && Attr(c, "name") == Some(k) && Attr(c, "value").Some?
    {
      var e :| e in entries && e.0 == k;
    }
  }
}
