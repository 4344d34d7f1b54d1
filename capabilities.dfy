/** The rudimentary WMS GetCapabilities reader (`parse_wms` and its nested
    `parse_layer`, scripts/strict_check.py:81-154) over an already-parsed
    element tree. */
module Capabilities {
  import opened Strings

  /** ElementTree's `.text`: `None` for an element without text content. */
  type Text = Option<string>

  /** One XML element as ElementTree holds it. Tags may still carry a
      `{namespace}` prefix; every comparison goes through `LocalName`, which is
      what stripping every tag during `iterparse` amounts to. */
  datatype Element = Element(tag: string, attrib: map<string, string>, text: Text, children: seq<Element>)

  /** What the XML parser made of a response body. */
  datatype Document = Malformed | Xml(root: Element)

  /** The exceptions `parse_wms` raises, in the order it checks for them. */
  datatype ParseError =
    | NotXml
    | ServiceException
    | NoCapabilitiesElement(rootTag: string)
    | NoVersion
    | CrsWithoutText      // `e.text.upper()` on a CRS/SRS element without text
    | StyleWithoutName    // `new_style['Name']` for a Style element without a Name child
  {
    /** `str(e)` for the exception. */
    function Message(): string
    {
      match this
      case NotXml => "Could not parse XML."
      case ServiceException => "WMS service exception"
      case NoCapabilitiesElement(tag) => "No Capabilities Element present: Root tag: " + tag
      case NoVersion => "WMS version cannot be identified."
      case CrsWithoutText => "'NoneType' object has no attribute 'upper'"
      case StyleWithoutName => "'Name'"
    }
  }

  /** A style advertised by a layer: its `Title` (if present) and `Name`. */
  datatype Style = Style(title: Option<Text>, name: Text)

  /** The CRS set object a layer record points to: the one default set shared
      by every top-level layer of a document, or a private copy. */
  datatype CrsRef = Shared | Own(codes: set<string>)

  /** A registered layer record while the tree is being read. */
  datatype LayerEntry = LayerEntry(name: Option<Text>, title: Option<Text>, abstractText: Option<Text>,
                                   crs: CrsRef, styles: map<Text, Style>)

  /** A layer of the finished capability tree. */
  datatype Layer = Layer(title: Option<Text>, abstractText: Option<Text>, crs: set<string>, styles: map<Text, Style>)

  datatype Capabilities = Capabilities(version: string, layers: map<Text, Layer>, formats: seq<Text>)

  /** The state `parse_layer` mutates: the `layers` dict of the enclosing
      `parse_wms` call and the contents of the shared default CRS set. */
  datatype BuildState = BuildState(layers: map<Text, LayerEntry>, shared: set<string>)

  const Empty := BuildState(map[], {})

  // ---------------------------------------------------------------------
  // Element queries (ElementTree `find`/`findall` over stripped tags)
  // ---------------------------------------------------------------------

  predicate HasTag(e: Element, name: string)
  {
    LocalName(e.tag) == name
  }

  /** The elements of `es` whose local tag is `name`, in order. */
  function Tagged(es: seq<Element>, name: string): seq<Element>
  {
    if es == [] then []
    else (if HasTag(es[0], name) then [es[0]] else []) + Tagged(es[1..], name)
  }

  /** `e.findall("./name")`. */
  function ChildrenTagged(e: Element, name: string): seq<Element>
  {
    Tagged(e.children, name)
  }

  /** `e.find("./name")`: the first such child. */
  function Find(e: Element, name: string): Option<Element>
  {
    var found := ChildrenTagged(e, name);
    if found == [] then None else Some(found[0])
  }

  /** The text of `e.find("./name")`, if that child exists. */
  function FindText(e: Element, name: string): Option<Text>
  {
    match Find(e, name)
    case None => None
    case Some(child) => Some(child.text)
  }

  /** All elements below `e` in document order (`e.iter()` without `e`). */
  function Descendants(e: Element): seq<Element>
    decreases e, 1, 0
  {
    DescendantsFrom(e, 0)
  }

  function DescendantsFrom(e: Element, j: nat): seq<Element>
    decreases e, 0, |e.children| - j
  {
    if j >= |e.children| then []
    else [e.children[j]] + Descendants(e.children[j]) + DescendantsFrom(e, j + 1)
  }

  /** One `/name` step of a path query applied to every element of `es`. */
  function ChildrenOfAll(es: seq<Element>, name: string): seq<Element>
  {
    if es == [] then [] else ChildrenTagged(es[0], name) + ChildrenOfAll(es[1..], name)
  }

  /** `root.findall(".//Capability")`. */
  function CapabilityElements(root: Element): seq<Element>
  {
    Tagged(Descendants(root), "Capability")
  }

  /** `root.findall(".//Capability/Layer")`: the top-level layers. */
  function TopLayers(root: Element): seq<Element>
  {
    ChildrenOfAll(CapabilityElements(root), "Layer")
  }

  /** `root.findall(".//Capability/Request/GetMap/Format")`. */
  function FormatElements(root: Element): seq<Element>
  {
    ChildrenOfAll(ChildrenOfAll(ChildrenOfAll(CapabilityElements(root), "Request"), "GetMap"), "Format")
  }

  function TextsOf(es: seq<Element>): (r: seq<Text>)
    ensures |r| == |es| && forall k :: 0 <= k < |es| ==> r[k] == es[k].text
  {
    seq(|es|, k requires 0 <= k < |es| => es[k].text)
  }

  // ---------------------------------------------------------------------
  // parse_layer, as a function of the state it mutates
  // ---------------------------------------------------------------------

  /** The `CRS` children of a layer, then its `SRS` children. */
  function CrsElements(e: Element): seq<Element>
  {
    ChildrenTagged(e, "CRS") + ChildrenTagged(e, "SRS")
  }

  /** Adds `text.upper()` of `es[i..]` to `acc`; fails at the first element without text. */
  function CrsFrom(es: seq<Element>, i: nat, acc: set<string>): Result<set<string>, ParseError>
    decreases |es| - i
  {
    if i >= |es| then Success(acc)
    else if es[i].text.None? then Failure(CrsWithoutText)
    else CrsFrom(es, i + 1, acc + {Upper(es[i].text.value)})
  }

  /** The CRS codes a layer declares itself. */
  function OwnCrs(e: Element): Result<set<string>, ParseError>
  {
    CrsFrom(CrsElements(e), 0, {})
  }

  /** The style record built from one `Style` element; `None` when it has no
      `Name` child (the KeyError at line 131). */
  function StyleOf(e: Element): Option<Style>
  {
    match FindText(e, "Name")
    case None => None
    case Some(name) => Some(Style(FindText(e, "Title"), name))
  }

  /** Registers the styles of `es[i..]` in `acc` by name, later ones overriding. */
  function StylesFrom(es: seq<Element>, i: nat, acc: map<Text, Style>): Result<map<Text, Style>, ParseError>
    decreases |es| - i
  {
    if i >= |es| then Success(acc)
    else match StyleOf(es[i])
      case None => Failure(StyleWithoutName)
      case Some(style) => StylesFrom(es, i + 1, acc[style.name := style])
  }

  /** The set this layer's record ends up pointing to, once its own codes are added. */
  function LayerCodes(crs: CrsRef, own: set<string>, st: BuildState): set<string>
  {
    (if crs.Shared? then st.shared else crs.codes) + own
  }

  /** The state right after a layer with codes `own` and style map `styles`
      has been read (and registered when it has a `Name`). */
  function Registered(e: Element, crs: CrsRef, own: set<string>, styles: map<Text, Style>, st: BuildState): BuildState
  {
    var codes := LayerCodes(crs, own, st);
    var name := FindText(e, "Name");
    var entry := LayerEntry(name, FindText(e, "Title"), FindText(e, "Abstract"),
                            if crs.Shared? then Shared else Own(codes), styles);
    var layers := if name.Some? then st.layers[name.value := entry] else st.layers;
    BuildState(layers, if crs.Shared? then codes else st.shared)
  }

  /** `parse_layer(e, crs, inherited)` run on state `st`. */
  function LayerSpec(e: Element, crs: CrsRef, inherited: map<Text, Style>, st: BuildState): Result<BuildState, ParseError>
    decreases e, 1, 0
  {
    match OwnCrs(e)
    case Failure(err) => Failure(err)
    case Success(own) =>
      match StylesFrom(ChildrenTagged(e, "Style"), 0, inherited)
      case Failure(err) => Failure(err)
      case Success(styles) =>
        SublayersFrom(e, 0, LayerCodes(crs, own, st), styles, Registered(e, crs, own, styles, st))
  }

  /** The recursive calls for the `Layer` children of `parent` from index `j`
      on, each handed a copy of `codes` and the parent's style map. */
  function SublayersFrom(parent: Element, j: nat, codes: set<string>, styles: map<Text, Style>, st: BuildState)
    : Result<BuildState, ParseError>
    decreases parent, 0, |parent.children| - j
  {
    if j >= |parent.children| then Success(st)
    else if !HasTag(parent.children[j], "Layer") then SublayersFrom(parent, j + 1, codes, styles, st)
    else match LayerSpec(parent.children[j], Own(codes), styles, st)
      case Failure(err) => Failure(err)
      case Success(st') => SublayersFrom(parent, j + 1, codes, styles, st')
  }

  lemma SublayersStep(parent: Element, j: nat, codes: set<string>, styles: map<Text, Style>, st: BuildState)
    requires j < |parent.children|
    ensures !HasTag(parent.children[j], "Layer") ==>
      SublayersFrom(parent, j, codes, styles, st) == SublayersFrom(parent, j + 1, codes, styles, st)
    ensures HasTag(parent.children[j], "Layer") ==>
      SublayersFrom(parent, j, codes, styles, st) ==
        match LayerSpec(parent.children[j], Own(codes), styles, st)
        case Failure(err) => Failure(err)
        case Success(st') => SublayersFrom(parent, j + 1, codes, styles, st')
  {
  }

  /** `parse_layer(top)` for the top-level layers from index `i` on, all of
      them using the shared default CRS set. */
  function TopFrom(tops: seq<Element>, i: nat, st: BuildState): Result<BuildState, ParseError>
    decreases |tops| - i
  {
    if i >= |tops| then Success(st)
    else match LayerSpec(tops[i], Shared, map[], st)
      case Failure(err) => Failure(err)
      case Success(st') => TopFrom(tops, i + 1, st')
  }

  function ResolveEntry(entry: LayerEntry, shared: set<string>): Layer
  {
    Layer(entry.title, entry.abstractText, if entry.crs.Shared? then shared else entry.crs.codes, entry.styles)
  }

  /** The layer dict as it reads once parsing is over: records pointing to the
      shared set see its final contents. */
  function Resolve(st: BuildState): (layers: map<Text, Layer>)
    ensures layers.Keys == st.layers.Keys
    ensures forall k :: k in layers ==> layers[k] == ResolveEntry(st.layers[k], st.shared)
  {
    map k | k in st.layers :: ResolveEntry(st.layers[k], st.shared)
  }

  function Outcome(err: Option<ParseError>, st: BuildState): Result<BuildState, ParseError>
  {
    if err.None? then Success(st) else Failure(err.value)
  }

  /** What `parse_wms` returns or raises for a document. */
  function CapabilitiesOf(doc: Document): Result<Capabilities, ParseError>
  {
    match doc
    case Malformed => Failure(NotXml)
    case Xml(root) =>
      var tag := LocalName(root.tag);
      if tag == "ServiceExceptionReport" || tag == "ServiceException" then Failure(ServiceException)
      else if tag != "WMT_MS_Capabilities" && tag != "WMS_Capabilities" then Failure(NoCapabilitiesElement(tag))
      else if "version" !in root.attrib then Failure(NoVersion)
      else match TopFrom(TopLayers(root), 0, Empty)
        case Failure(err) => Failure(err)
        case Success(st) => Success(Capabilities(root.attrib["version"], Resolve(st), TextsOf(FormatElements(root))))
  }

  // ---------------------------------------------------------------------
  // The imperative reader
  // ---------------------------------------------------------------------

  /** The `layers` dict of one `parse_wms` call together with the default
      CRS set that its top-level layers share. */
  class LayerRegistry {
    var layers: map<Text, LayerEntry>
    var sharedCrs: set<string>

    function State(): BuildState
      reads this
    {
      BuildState(layers, sharedCrs)
    }

    constructor ()
      ensures State() == Empty
    {
      layers := map[];
      sharedCrs := {};
    }

    /** `parse_layer(e, crs, inherited)`: registers `e` (when it has a
        `Name`) and then its `Layer` children, depth first. */
    method ParseLayer(e: Element, crs: CrsRef, inherited: map<Text, Style>) returns (err: Option<ParseError>)
      modifies this
      decreases e, 2
      ensures LayerSpec(e, crs, inherited, old(State())) == Outcome(err, State())
    {
      var own := ReadCrs(CrsElements(e));
      if own.Failure? {
        return Some(own.error);
      }
      var styles := ReadStyles(ChildrenTagged(e, "Style"), inherited);
      if styles.Failure? {
        return Some(styles.error);
      }

      // the CRS texts went into the set this layer was handed: the shared
      // default set for a top-level layer, a private copy otherwise
      var codes := (if crs.Shared? then sharedCrs else crs.codes) + own.value;
      if crs.Shared? {
        sharedCrs := codes;
      }
      var name := FindText(e, "Name");
      if name.Some? {
        var entry := LayerEntry(name, FindText(e, "Title"), FindText(e, "Abstract"),
                                if crs.Shared? then Shared else Own(codes), styles.value);
        layers := layers[name.value := entry];
      }
      assert State() == Registered(e, crs, own.value, styles.value, old(State()));
      err := ParseSublayers(e, codes, styles.value);
    }

    /** The loop over `e.findall("./Layer")` (lines 136-139): each child gets
        a copy of `codes` and the parent's style map. */
    method ParseSublayers(e: Element, codes: set<string>, styles: map<Text, Style>) returns (err: Option<ParseError>)
      modifies this
      decreases e, 1
      ensures SublayersFrom(e, 0, codes, styles, old(State())) == Outcome(err, State())
    {
      ghost var goal := SublayersFrom(e, 0, codes, styles, State());
      var j := 0;
      err := None;
      while j < |e.children| && err.None?
        invariant 0 <= j <= |e.children|
        invariant err.None? ==> goal == SublayersFrom(e, j, codes, styles, State())
        invariant err.Some? ==> goal == Failure(err.value)
        decreases |e.children| - j
      {
        err := ParseChild(e, j, codes, styles);
        j := j + 1;
      }
    }

    /** One iteration of that loop: child `j`, when it is a `Layer`. */
    method ParseChild(e: Element, j: nat, codes: set<string>, styles: map<Text, Style>) returns (err: Option<ParseError>)
      requires j < |e.children|
      modifies this
      decreases e, 0
      ensures err.None? ==> SublayersFrom(e, j, codes, styles, old(State())) == SublayersFrom(e, j + 1, codes, styles, State())
      ensures err.Some? ==> SublayersFrom(e, j, codes, styles, old(State())) == Failure(err.value)
    {
      SublayersStep(e, j, codes, styles, State());
      if HasTag(e.children[j], "Layer") {
        err := ParseLayer(e.children[j], Own(codes), styles);
      } else {
        err := None;
      }
    }

    /** The loop over the top-level layers (lines 143-144). */
    method ParseTopLayers(tops: seq<Element>) returns (err: Option<ParseError>)
      modifies this
      ensures TopFrom(tops, 0, old(State())) == Outcome(err, State())
    {
      var i := 0;
      while i < |tops|
        invariant 0 <= i <= |tops|
        invariant TopFrom(tops, 0, old(State())) == TopFrom(tops, i, State())
      {
        err := ParseLayer(tops[i], Shared, map[]);
        if err.Some? {
          return;
        }
        i := i + 1;
      }
      return None;
    }
  }

  /** The `CRS`/`SRS` loop of `parse_layer` (lines 119-122): the upper-cased
      text of each element, failing at the first one without text. */
  method ReadCrs(es: seq<Element>) returns (r: Result<set<string>, ParseError>)
    ensures r == CrsFrom(es, 0, {})
  {
    var codes: set<string> := {};
    var i := 0;
    while i < |es|
      invariant 0 <= i <= |es|
      invariant CrsFrom(es, 0, {}) == CrsFrom(es, i, codes)
    {
      var text := es[i].text;
      if text.None? {
        return Failure(CrsWithoutText);
      }
      codes := codes + {Upper(text.value)};
      i := i + 1;
    }
    return Success(codes);
  }

  /** The `Style` loop of `parse_layer` (lines 123-131): each style is
      registered under its name in a copy of the inherited map. */
  method ReadStyles(es: seq<Element>, inherited: map<Text, Style>) returns (r: Result<map<Text, Style>, ParseError>)
    ensures r == StylesFrom(es, 0, inherited)
  {
    var styles := inherited;
    var i := 0;
    while i < |es|
      invariant 0 <= i <= |es|
      invariant StylesFrom(es, 0, inherited) == StylesFrom(es, i, styles)
    {
      var style := StyleOf(es[i]);
      if style.None? {
        return Failure(StyleWithoutName);
      }
      styles := styles[style.value.name := style.value];
      i := i + 1;
    }
    return Success(styles);
  }

  /** `parse_wms`: the root checks, then every top-level layer, then the
      GetMap formats. */
  method ParseWms(doc: Document) returns (r: Result<Capabilities, ParseError>)
    ensures r == CapabilitiesOf(doc)
  {
    if doc.Malformed? {
      return Failure(NotXml);
    }
    var root := doc.root;
    var rootTag := LocalName(root.tag);
    if rootTag == "ServiceExceptionReport" || rootTag == "ServiceException" {
      return Failure(ServiceException);
    }
    if rootTag != "WMT_MS_Capabilities" && rootTag != "WMS_Capabilities" {
      return Failure(NoCapabilitiesElement(rootTag));
    }
    if "version" !in root.attrib {
      return Failure(NoVersion);
    }
    var version := root.attrib["version"];

    var registry := new LayerRegistry();
    var err := registry.ParseTopLayers(TopLayers(root));
    if err.Some? {
      return Failure(err.value);
    }
    var formats := ReadFormats(FormatElements(root));
    return Success(Capabilities(version, Resolve(registry.State()), formats));
  }

  /** The formats loop of `parse_wms` (lines 149-151). */
  method ReadFormats(es: seq<Element>) returns (formats: seq<Text>)
    ensures formats == TextsOf(es)
  {
    formats := [];
    var i := 0;
    while i < |es|
      invariant 0 <= i <= |es|
      invariant formats == TextsOf(es[..i])
    {
      assert es[..i + 1][..i] == es[..i];
      formats := formats + [es[i].text];
      i := i + 1;
    }
    assert es[..i] == es;
  }
}
