/** SimpleDB `Item`: three presence-flagged fields read from an XML element and written back out as
    query-string entries. */
module SimpleDbModel {
  import opened Wrappers
  import Xml

  /** An `Attribute` element of an item. Its own fields and serialiser are not part of this model,
      so it is kept as the node it was read from. */
  datatype Attribute = Attribute(source: Xml.XmlNode)

  /** Each field is `None` exactly when its "has been set" flag is false. */
  datatype Item = Item(
    name: Option<string>,
    alternateNameEncoding: Option<string>,
    attributes: Option<seq<Attribute>>)

  /** `Item()`: every presence flag false. */
  function NewItem(): (it: Item)
    ensures it.name.None? && it.alternateNameEncoding.None? && it.attributes.None?
  {
    Item(None, None, None)
  }

  /** `StringUtils::Trim` and `StringUtils::URLEncode` and `Attribute::OutputToStream`, all defined
      outside this model. */
  datatype TextHelpers = TextHelpers(
    trim: string -> string,
    urlEncode: string -> string,
    attributeOut: (Attribute, string) -> string)

  function AsAttributes(nodes: seq<Xml.XmlNode>): (r: seq<Attribute>)
    ensures |r| == |nodes|
    ensures forall k :: 0 <= k < |nodes| ==> r[k] == Attribute(nodes[k])
  {
    seq(|nodes|, k requires 0 <= k < |nodes| => Attribute(nodes[k]))
  }

  /** `Item::operator=(XmlNode)`: a null node changes nothing; otherwise each scalar is replaced (and
      flagged) only when its child element exists, and the "Attribute" children are appended. */
  function Assign(item: Item, node: Option<Xml.XmlNode>, helpers: TextHelpers): (r: Item)
    ensures node.None? ==> r == item
    ensures Xml.FirstChild(node, "Name").None? ==> r.name == item.name
    ensures Xml.FirstChild(node, "Name").Some? ==>
      r.name == Some(helpers.trim(Xml.FirstChild(node, "Name").value.text))
    ensures Xml.FirstChild(node, "AlternateNameEncoding").None? ==> r.alternateNameEncoding == item.alternateNameEncoding
    ensures Xml.FirstChild(node, "AlternateNameEncoding").Some? ==>
      r.alternateNameEncoding == Some(helpers.trim(Xml.FirstChild(node, "AlternateNameEncoding").value.text))
    ensures node.Some? && Xml.Named(node.value.children, "Attribute") != [] ==>
      r.attributes == Some(item.attributes.GetOr([]) + AsAttributes(Xml.Named(node.value.children, "Attribute")))
    ensures (node.None? || Xml.Named(node.value.children, "Attribute") == []) ==> r.attributes == item.attributes
  {
    if node.None? then item
    else
      var nameNode := Xml.FirstChild(node, "Name");
      var encodingNode := Xml.FirstChild(node, "AlternateNameEncoding");
      var found := Xml.Named(node.value.children, "Attribute");
      Item(
        if nameNode.Some? then Some(helpers.trim(nameNode.value.text)) else item.name,
        if encodingNode.Some? then Some(helpers.trim(encodingNode.value.text)) else item.alternateNameEncoding,
        if found != [] then Some(item.attributes.GetOr([]) + AsAttributes(found)) else item.attributes)
  }

  /** The attribute list is flagged by parsing exactly when the element has an "Attribute" child. */
  lemma AttributesFlagIffChild(node: Xml.XmlNode, helpers: TextHelpers)
    ensures Assign(NewItem(), Some(node), helpers).attributes.Some? <==>
      exists j :: 0 <= j < |node.children| && node.children[j].name == "Attribute"
  {
  }

  function DigitChar(d: nat): (c: char)
    requires d < 10
    ensures '0' <= c <= '9' && c as int - '0' as int == d
  {
    ('0' as int + d) as char
  }

  /** The number a string of decimal digits denotes, most significant digit first. */
  function DigitsValue(s: string): nat
    requires forall i :: 0 <= i < |s| ==> '0' <= s[i] <= '9'
  {
    if s == [] then 0 else DigitsValue(s[..|s| - 1]) * 10 + (s[|s| - 1] as int - '0' as int)
  }

  /** An unsigned index as an output stream prints it: decimal digits, no sign, no padding. */
  function Decimal(n: nat): (s: string)
    ensures |s| >= 1
    ensures forall i :: 0 <= i < |s| ==> '0' <= s[i] <= '9'
    ensures n > 0 ==> s[0] != '0'
  {
    if n < 10 then [DigitChar(n)] else Decimal(n / 10) + [DigitChar(n % 10)]
  }

  /** The digits `Decimal` prints denote the index itself. */
  lemma {:induction false} DecimalDenotes(n: nat)
    ensures DigitsValue(Decimal(n)) == n
  {
    var s := Decimal(n);
    if n < 10 {
      assert s[..0] == [];
    } else {
      DecimalDenotes(n / 10);
      assert s[..|s| - 1] == Decimal(n / 10);
    }
  }

  /** Different attribute positions are written under different prefixes. */
  lemma AttributePrefixesDistinct(location: string, i: nat, j: nat)
    requires i != j
    ensures location + ".Attribute." + Decimal(i) != location + ".Attribute." + Decimal(j)
  {
    DecimalDenotes(i);
    DecimalDenotes(j);
    var p := location + ".Attribute.";
    assert (p + Decimal(i))[|p|..] == Decimal(i);
    assert (p + Decimal(j))[|p|..] == Decimal(j);
  }

  /** One write to the output stream: the name entry, the encoding entry, or the delegation to an
      attribute's serialiser under its own prefix. */
  datatype Fragment =
    | NameEntry(prefix: string, value: string)
    | EncodingEntry(prefix: string, value: string)
    | AttributeAt(prefix: string, attribute: Attribute)

  /** The attribute entries, numbered from `start` upward by one each. */
  function AttributeFragments(location: string, attrs: seq<Attribute>, start: nat): (r: seq<Fragment>)
    ensures |r| == |attrs|
    ensures forall k {:trigger r[k]} :: 0 <= k < |attrs| ==>
      r[k] == AttributeAt(location + ".Attribute." + Decimal(start + k), attrs[k])
    decreases |attrs|
  {
    if attrs == [] then []
    else [AttributeAt(location + ".Attribute." + Decimal(start), attrs[0])] + AttributeFragments(location, attrs[1..], start + 1)
  }

  /** The order fields are written in: Name, then AlternateNameEncoding, then the attributes. */
  function Rank(f: Fragment): nat {
    match f
    case NameEntry(_, _) => 0
    case EncodingEntry(_, _) => 1
    case AttributeAt(_, _) => 2
  }

  /** What `Item::OutputToStream(oStream, location)` writes, write by write. */
  function Fragments(item: Item, location: string): (r: seq<Fragment>)
    ensures |r| == (if item.name.Some? then 1 else 0) + (if item.alternateNameEncoding.Some? then 1 else 0)
      + |item.attributes.GetOr([])|
    ensures forall i, j :: 0 <= i < j < |r| ==> Rank(r[i]) <= Rank(r[j])
    ensures item.name.Some? ==> r[0] == NameEntry(location, item.name.value)
    ensures item.alternateNameEncoding.Some? ==>
      r[if item.name.Some? then 1 else 0] == EncodingEntry(location, item.alternateNameEncoding.value)
    ensures item.attributes.Some? ==> forall k :: 0 <= k < |item.attributes.value| ==>
      r[|r| - |item.attributes.value| + k] == AttributeAt(location + ".Attribute." + Decimal(k + 1), item.attributes.value[k])
  {
    var names := if item.name.Some? then [NameEntry(location, item.name.value)] else [];
    var encodings := if item.alternateNameEncoding.Some? then [EncodingEntry(location, item.alternateNameEncoding.value)] else [];
    var attrs := if item.attributes.Some? then AttributeFragments(location, item.attributes.value, 1) else [];
    names + encodings + attrs
  }

  /** The text of one write. */
  function RenderFragment(f: Fragment, helpers: TextHelpers): string {
    match f
    case NameEntry(p, v) => p + ".Name=" + helpers.urlEncode(v) + "&"
    case EncodingEntry(p, v) => p + ".AlternateNameEncoding=" + helpers.urlEncode(v) + "&"
    case AttributeAt(p, a) => helpers.attributeOut(a, p)
  }

  /** The text of a sequence of writes, in order. */
  function Render(frags: seq<Fragment>, helpers: TextHelpers): string {
    if frags == [] then "" else RenderFragment(frags[0], helpers) + Render(frags[1..], helpers)
  }

  lemma {:induction false} RenderAppend(xs: seq<Fragment>, ys: seq<Fragment>, helpers: TextHelpers)
    ensures Render(xs + ys, helpers) == Render(xs, helpers) + Render(ys, helpers)
    decreases |xs|
  {
    if xs == [] {
      assert xs + ys == ys;
    } else {
      assert (xs + ys)[0] == xs[0];
      assert (xs + ys)[1..] == xs[1..] + ys;
      RenderAppend(xs[1..], ys, helpers);
    }
  }

  /** Reference text of the attribute loop: each attribute's own serialiser, called with the prefix
      `location.Attribute.<n>` for n = start, start + 1, and so on. */
  function AttributesOut(location: string, attrs: seq<Attribute>, start: nat, helpers: TextHelpers): string
    decreases |attrs|
  {
    if attrs == [] then ""
    else helpers.attributeOut(attrs[0], location + ".Attribute." + Decimal(start)) + AttributesOut(location, attrs[1..], start + 1, helpers)
  }

  /** The attribute writes render as the reference text of the attribute loop. */
  lemma {:induction false} RenderAttributeFragments(location: string, attrs: seq<Attribute>, start: nat, helpers: TextHelpers)
    ensures Render(AttributeFragments(location, attrs, start), helpers) == AttributesOut(location, attrs, start, helpers)
    decreases |attrs|
  {
    if attrs != [] {
      var first := AttributeAt(location + ".Attribute." + Decimal(start), attrs[0]);
      var rest := AttributeFragments(location, attrs[1..], start + 1);
      assert AttributeFragments(location, attrs, start) == [first] + rest;
      assert ([first] + rest)[1..] == rest;
      RenderAttributeFragments(location, attrs[1..], start + 1, helpers);
    }
  }

  lemma RenderOne(f: Fragment, helpers: TextHelpers)
    ensures Render([f], helpers) == RenderFragment(f, helpers)
  {
    assert [f][1..] == [];
  }

  /** The writes of `Item::OutputToStream(oStream, location)` render as: the Name entry if set, then
      the AlternateNameEncoding entry if set, each as `location.Key=<URL-encoded value>&`, then every
      attribute's own serialiser under `location.Attribute.1`, `location.Attribute.2`, and so on. */
  lemma FragmentsText(item: Item, location: string, helpers: TextHelpers)
    ensures Render(Fragments(item, location), helpers) ==
      (if item.name.Some? then location + ".Name=" + helpers.urlEncode(item.name.value) + "&" else "")
      + (if item.alternateNameEncoding.Some? then
           location + ".AlternateNameEncoding=" + helpers.urlEncode(item.alternateNameEncoding.value) + "&" else "")
      + AttributesOut(location, item.attributes.GetOr([]), 1, helpers)
  {
    var names := if item.name.Some? then [NameEntry(location, item.name.value)] else [];
    var encodings := if item.alternateNameEncoding.Some? then [EncodingEntry(location, item.alternateNameEncoding.value)] else [];
    var attrs := if item.attributes.Some? then AttributeFragments(location, item.attributes.value, 1) else [];
    assert Fragments(item, location) == names + encodings + attrs;
    RenderAppend(names + encodings, attrs, helpers);
    RenderAppend(names, encodings, helpers);
    if item.name.Some? {
      RenderOne(NameEntry(location, item.name.value), helpers);
    }
    if item.alternateNameEncoding.Some? {
      RenderOne(EncodingEntry(location, item.alternateNameEncoding.value), helpers);
    }
    RenderAttributeFragments(location, item.attributes.GetOr([]), 1, helpers);
  }

  /** `Item::OutputToStream(oStream, location)`: the text of its writes, as `FragmentsText` spells out. */
  function OutputToStream(item: Item, location: string, helpers: TextHelpers): (r: string)
    ensures r ==
      (if item.name.Some? then location + ".Name=" + helpers.urlEncode(item.name.value) + "&" else "")
      + (if item.alternateNameEncoding.Some? then
           location + ".AlternateNameEncoding=" + helpers.urlEncode(item.alternateNameEncoding.value) + "&" else "")
      + AttributesOut(location, item.attributes.GetOr([]), 1, helpers)
  {
    FragmentsText(item, location, helpers);
    Render(Fragments(item, location), helpers)
  }

  /** The attribute loop of the indexed serialiser: a running index from 1, and for each attribute
      a prefix streamed from the location, the index, the location value, ".Attribute." and the
      running index. */
  method IndexedAttributesOut(location: string, index: nat, locationValue: string, attrs: seq<Attribute>, helpers: TextHelpers)
    returns (out: string)
    ensures out == AttributesOut(location + Decimal(index) + locationValue, attrs, 1, helpers)
  {
    ghost var prefix := location + Decimal(index) + locationValue;
    out := "";
    var attributesIdx := 1;
    var i := 0;
    assert attrs[0..] == attrs;
    while i < |attrs|
      invariant 0 <= i <= |attrs| && attributesIdx == i + 1
      invariant out + AttributesOut(prefix, attrs[i..], attributesIdx, helpers) == AttributesOut(prefix, attrs, 1, helpers)
    {
      var attributesSs := location + Decimal(index) + locationValue + ".Attribute." + Decimal(attributesIdx);
      var written := helpers.attributeOut(attrs[i], attributesSs);
      var rest := AttributesOut(prefix, attrs[i + 1..], attributesIdx + 1, helpers);
      assert attrs[i..][1..] == attrs[i + 1..];
      assert AttributesOut(prefix, attrs[i..], attributesIdx, helpers) == written + rest;
      assert out + (written + rest) == (out + written) + rest;
      out := out + written;
      attributesIdx := attributesIdx + 1;
      i := i + 1;
    }
  }

  /** `Item::OutputToStream(oStream, location, index, locationValue)`, written as the source writes
      it: every entry streams the location, the index and the location value before its key. It
      writes exactly what the plain serialiser writes under the joined location. */
  method OutputToStreamIndexed(item: Item, location: string, index: nat, locationValue: string, helpers: TextHelpers)
    returns (out: string)
    ensures out == OutputToStream(item, location + Decimal(index) + locationValue, helpers)
  {
    var nameText := "";
    if item.name.Some? {
      nameText := location + Decimal(index) + locationValue + ".Name=" + helpers.urlEncode(item.name.value) + "&";
    }
    var encodingText := "";
    if item.alternateNameEncoding.Some? {
      encodingText := location + Decimal(index) + locationValue + ".AlternateNameEncoding="
        + helpers.urlEncode(item.alternateNameEncoding.value) + "&";
    }
    var attributesText := "";
    if item.attributes.Some? {
      attributesText := IndexedAttributesOut(location, index, locationValue, item.attributes.value, helpers);
    }
    out := nameText + encodingText + attributesText;
  }

  /** Reading one write back into an item. */
  function Absorb(acc: Item, f: Fragment): Item {
    match f
    case NameEntry(_, v) => acc.(name := Some(v))
    case EncodingEntry(_, v) => acc.(alternateNameEncoding := Some(v))
    case AttributeAt(_, a) => acc.(attributes := Some(acc.attributes.GetOr([]) + [a]))
  }

  /** Reading a sequence of writes back into an item, starting from `acc`. */
  function Reassemble(acc: Item, frags: seq<Fragment>): Item
    decreases |frags|
  {
    if frags == [] then acc else Reassemble(Absorb(acc, frags[0]), frags[1..])
  }

  lemma {:induction false} ReassembleAppend(acc: Item, xs: seq<Fragment>, ys: seq<Fragment>)
    ensures Reassemble(acc, xs + ys) == Reassemble(Reassemble(acc, xs), ys)
    decreases |xs|
  {
    if xs != [] {
      assert (xs + ys)[0] == xs[0];
      assert (xs + ys)[1..] == xs[1..] + ys;
      ReassembleAppend(Absorb(acc, xs[0]), xs[1..], ys);
    } else {
      assert xs + ys == ys;
    }
  }

  lemma ReassembleCons(acc: Item, f: Fragment, rest: seq<Fragment>)
    ensures Reassemble(acc, [f] + rest) == Reassemble(Absorb(acc, f), rest)
  {
    assert ([f] + rest)[1..] == rest;
  }

  /** Reading back the attribute writes appends the attributes, in order, to whatever list the item
      already holds, and leaves the other fields alone; no writes leave the list as it was. */
  lemma {:induction false} ReassembleAttributeWrites(name: Option<string>, encoding: Option<string>, prior: Option<seq<Attribute>>,
                                                     location: string, attrs: seq<Attribute>, start: nat)
    ensures Reassemble(Item(name, encoding, prior), AttributeFragments(location, attrs, start))
      == Item(name, encoding, if attrs == [] then prior else Some(prior.GetOr([]) + attrs))
    decreases |attrs|
  {
    if attrs != [] {
      var first := AttributeAt(location + ".Attribute." + Decimal(start), attrs[0]);
      var rest := AttributeFragments(location, attrs[1..], start + 1);
      var next := Some(prior.GetOr([]) + [attrs[0]]);
      assert AttributeFragments(location, attrs, start) == [first] + rest;
      ReassembleCons(Item(name, encoding, prior), first, rest);
      ReassembleAttributeWrites(name, encoding, next, location, attrs[1..], start + 1);
      var before := prior.GetOr([]);
      if attrs[1..] == [] {
        assert attrs == [attrs[0]];
      } else {
        assert [attrs[0]] + attrs[1..] == attrs;
        assert before + [attrs[0]] + attrs[1..] == before + ([attrs[0]] + attrs[1..]);
      }
    }
  }

  /** Round trip: reading the writes back into a fresh item recovers exactly the flagged fields and
      their values, so unflagged fields are never written and flagged ones always are. A flagged but
      empty attribute list writes nothing and so cannot be recovered. */
  lemma SerialisedFieldsRoundTrip(item: Item, location: string)
    requires item.attributes != Some([])
    ensures Reassemble(NewItem(), Fragments(item, location)) == item
  {
    var names := if item.name.Some? then [NameEntry(location, item.name.value)] else [];
    var encodings := if item.alternateNameEncoding.Some? then [EncodingEntry(location, item.alternateNameEncoding.value)] else [];
    var attrs := if item.attributes.Some? then AttributeFragments(location, item.attributes.value, 1) else [];
    assert Fragments(item, location) == names + encodings + attrs;
    ReassembleAppend(NewItem(), names + encodings, attrs);
    ReassembleAppend(NewItem(), names, encodings);
    var afterNames := Reassemble(NewItem(), names);
    assert afterNames == Item(item.name, None, None);
    var afterScalars := Reassemble(afterNames, encodings);
    assert afterScalars == Item(item.name, item.alternateNameEncoding, None);
    if item.attributes.Some? {
      ReassembleAttributeWrites(item.name, item.alternateNameEncoding, None, location, item.attributes.value, 1);
      assert [] + item.attributes.value == item.attributes.value;
    } else {
      assert attrs == [];
    }
  }
}
