/** What the WMS capabilities reader promises: how CRS codes and styles are
    collected and inherited, which layers get registered, the CRS set shared
    by the top-level layers, and that namespaces on the root tag are ignored. */
module CapabilityFacts {
  import opened Strings
  import opened Capabilities

  // ---------------------------------------------------------------------
  // CRS codes of one layer
  // ---------------------------------------------------------------------

  /** The upper-cased texts of the elements of `es[i..]` that have text. */
  function CrsCodes(es: seq<Element>, i: nat): set<string>
  {
    set k | i <= k < |es| && es[k].text.Some? :: Upper(es[k].text.value)
  }

  /** The CRS loop succeeds exactly when every CRS/SRS element has text, and
      then adds the upper-cased text of each of them to what was there. */
  lemma {:induction false} CrsFromMeaning(es: seq<Element>, i: nat, acc: set<string>)
    requires i <= |es|
    ensures CrsFrom(es, i, acc).Success? <==> forall k :: i <= k < |es| ==> es[k].text.Some?
    ensures CrsFrom(es, i, acc).Success? ==> CrsFrom(es, i, acc).value == acc + CrsCodes(es, i)
    decreases |es| - i
  {
    if i == |es| {
      assert CrsCodes(es, i) == {};
    } else if es[i].text.Some? {
      CrsFromMeaning(es, i + 1, acc + {Upper(es[i].text.value)});
      assert CrsCodes(es, i) == {Upper(es[i].text.value)} + CrsCodes(es, i + 1);
    }
  }

  // ---------------------------------------------------------------------
  // Styles of one layer
  // ---------------------------------------------------------------------

  /** The names of the styles declared by `es[i..]`. */
  function StyleNames(es: seq<Element>, i: nat): set<Text>
    decreases |es| - i
  {
    if i >= |es| then {}
    else (if StyleOf(es[i]).Some? then {StyleOf(es[i]).value.name} else {}) + StyleNames(es, i + 1)
  }

  /** The style loop succeeds exactly when every `Style` element has a `Name`. */
  lemma {:induction false} StylesSucceed(es: seq<Element>, i: nat, acc: map<Text, Style>)
    requires i <= |es|
    ensures StylesFrom(es, i, acc).Success? <==> forall k :: i <= k < |es| ==> StyleOf(es[k]).Some?
    decreases |es| - i
  {
    if i < |es| && StyleOf(es[i]).Some? {
      StylesSucceed(es, i + 1, acc[StyleOf(es[i]).value.name := StyleOf(es[i]).value]);
    }
  }

  /** On success the style map holds the inherited styles plus one entry per
      declared name. */
  lemma {:induction false} StylesKeys(es: seq<Element>, i: nat, acc: map<Text, Style>)
    requires i <= |es|
    requires StylesFrom(es, i, acc).Success?
    ensures StylesFrom(es, i, acc).value.Keys == acc.Keys + StyleNames(es, i)
    decreases |es| - i
  {
    if i < |es| {
      var style := StyleOf(es[i]).value;
      StylesKeys(es, i + 1, acc[style.name := style]);
    }
  }

  /** Inherited styles whose name is not redeclared keep their record. */
  lemma {:induction false} StylesKeepInherited(es: seq<Element>, i: nat, acc: map<Text, Style>, name: Text)
    requires i <= |es|
    requires StylesFrom(es, i, acc).Success?
    requires name in acc && name !in StyleNames(es, i)
    ensures name in StylesFrom(es, i, acc).value && StylesFrom(es, i, acc).value[name] == acc[name]
    decreases |es| - i
  {
    if i < |es| {
      var style := StyleOf(es[i]).value;
      StylesKeepInherited(es, i + 1, acc[style.name := style], name);
    }
  }

  /** When a name is declared more than once, the last declaration wins:
      the style at `q`, whose name no later `Style` element redeclares, is
      the record kept for that name. */
  lemma {:induction false} StylesLastWins(es: seq<Element>, i: nat, acc: map<Text, Style>, q: nat)
    requires i <= q < |es|
    requires StylesFrom(es, i, acc).Success?
    requires StyleOf(es[q]).Some? && StyleOf(es[q]).value.name !in StyleNames(es, q + 1)
    ensures var last := StyleOf(es[q]).value;
      last.name in StylesFrom(es, i, acc).value && StylesFrom(es, i, acc).value[last.name] == last
    decreases q - i
  {
    var style := StyleOf(es[i]).value;
    var acc' := acc[style.name := style];
    if i < q {
      StylesLastWins(es, i + 1, acc', q);
    } else {
      StylesKeepInherited(es, i + 1, acc', style.name);
    }
  }

  // ---------------------------------------------------------------------
  // Inheritance from the parent layer
  // ---------------------------------------------------------------------

  /** Going from `before` to `after` registered only records that carry a
      private CRS set containing `codes` and a style map containing every name
      in `styles`, kept every name registered before, and left the shared
      default set alone. */
  predicate Inherits(before: BuildState, after: BuildState, codes: set<string>, styles: map<Text, Style>)
  {
    && after.shared == before.shared
    && before.layers.Keys <= after.layers.Keys
    && forall k :: k in after.layers && (k !in before.layers || after.layers[k] != before.layers[k]) ==>
         && after.layers[k].crs.Own?
         && codes <= after.layers[k].crs.codes
         && styles.Keys <= after.layers[k].styles.Keys
  }

  lemma InheritsTransitive(s1: BuildState, s2: BuildState, s3: BuildState, codes: set<string>, styles: map<Text, Style>)
    requires Inherits(s1, s2, codes, styles) && Inherits(s2, s3, codes, styles)
    ensures Inherits(s1, s3, codes, styles)
  {
    forall k | k in s3.layers && (k !in s1.layers || s3.layers[k] != s1.layers[k])
      ensures s3.layers[k].crs.Own? && codes <= s3.layers[k].crs.codes && styles.Keys <= s3.layers[k].styles.Keys
    {
      if k in s2.layers && s3.layers[k] == s2.layers[k] {
        assert k !in s1.layers || s2.layers[k] != s1.layers[k];
      }
    }
  }

  lemma InheritsWeaken(s1: BuildState, s2: BuildState, codes: set<string>, styles: map<Text, Style>,
                       fewer: set<string>, inherited: map<Text, Style>)
    requires Inherits(s1, s2, codes, styles)
    requires fewer <= codes && inherited.Keys <= styles.Keys
    ensures Inherits(s1, s2, fewer, inherited)
  {
  }

  /** A nested layer (handed a private copy `codes` of its parent's CRS set
      and its parent's styles) and all of its descendants advertise every
      CRS and every style of the parent, and never touch the shared set. */
  lemma {:induction false} LayerInherits(e: Element, codes: set<string>, styles: map<Text, Style>, st: BuildState)
    requires LayerSpec(e, Own(codes), styles, st).Success?
    ensures Inherits(st, LayerSpec(e, Own(codes), styles, st).value, codes, styles)
    decreases e, 1, 0
  {
    var own := OwnCrs(e).value;
    var es := ChildrenTagged(e, "Style");
    StylesKeys(es, 0, styles);
    var mine := StylesFrom(es, 0, styles).value;
    var st1 := Registered(e, Own(codes), own, mine, st);
    assert Inherits(st, st1, codes, styles);
    SublayersInherit(e, 0, codes + own, mine, st1);
    var r := SublayersFrom(e, 0, codes + own, mine, st1).value;
    InheritsWeaken(st1, r, codes + own, mine, codes, styles);
    InheritsTransitive(st, st1, r, codes, styles);
  }

  lemma {:induction false} SublayersInherit(parent: Element, j: nat, codes: set<string>, styles: map<Text, Style>, st: BuildState)
    requires j <= |parent.children|
    requires SublayersFrom(parent, j, codes, styles, st).Success?
    ensures Inherits(st, SublayersFrom(parent, j, codes, styles, st).value, codes, styles)
    decreases parent, 0, |parent.children| - j
  {
    if j < |parent.children| {
      var child := parent.children[j];
      SublayersStep(parent, j, codes, styles, st);
      if !HasTag(child, "Layer") {
        SublayersInherit(parent, j + 1, codes, styles, st);
      } else {
        LayerInherits(child, codes, styles, st);
        var st1 := LayerSpec(child, Own(codes), styles, st).value;
        SublayersInherit(parent, j + 1, codes, styles, st1);
        InheritsTransitive(st, st1, SublayersFrom(parent, j + 1, codes, styles, st1).value, codes, styles);
      }
    }
  }

  // ---------------------------------------------------------------------
  // Registration
  // ---------------------------------------------------------------------

  /** The `Name` of `e` itself, if it has one: the key `parse_layer`
      registers it under. */
  function OwnName(e: Element): set<Text>
  {
    if FindText(e, "Name").Some? then {FindText(e, "Name").value} else {}
  }

  /** The names of `e` and of every layer below it reached through `Layer`
      children. */
  function LayerNames(e: Element): set<Text>
    decreases e, 1, 0
  {
    OwnName(e) + SublayerNames(e, 0)
  }

  /** The names of the `Layer` children of `parent` from index `j` on, and of
      the layers below them. */
  function SublayerNames(parent: Element, j: nat): set<Text>
    decreases parent, 0, |parent.children| - j
  {
    if j >= |parent.children| then {}
    else (if HasTag(parent.children[j], "Layer") then LayerNames(parent.children[j]) else {})
         + SublayerNames(parent, j + 1)
  }

  /** Going from `before` to `after` registered exactly the names `names`:
      the keys are the old ones plus these, and every other old record is
      unchanged. */
  predicate RegistersExactly(before: BuildState, after: BuildState, names: set<Text>)
  {
    && after.layers.Keys == before.layers.Keys + names
    && forall n :: n in before.layers && n !in names ==> after.layers[n] == before.layers[n]
  }

  lemma RegistersTransitive(s1: BuildState, s2: BuildState, s3: BuildState, first: set<Text>, second: set<Text>)
    requires RegistersExactly(s1, s2, first) && RegistersExactly(s2, s3, second)
    ensures RegistersExactly(s1, s3, first + second)
  {
  }

  /** A successfully read layer registers exactly the named layers of its
      subtree: a layer without `Name` is never registered, and every other
      record stays as it was. */
  lemma {:induction false} LayerRegisters(e: Element, crs: CrsRef, inherited: map<Text, Style>, st: BuildState)
    requires LayerSpec(e, crs, inherited, st).Success?
    ensures RegistersExactly(st, LayerSpec(e, crs, inherited, st).value, LayerNames(e))
    decreases e, 1, 0
  {
    var own := OwnCrs(e).value;
    var mine := StylesFrom(ChildrenTagged(e, "Style"), 0, inherited).value;
    var st1 := Registered(e, crs, own, mine, st);
    assert RegistersExactly(st, st1, OwnName(e));
    SublayersRegister(e, 0, LayerCodes(crs, own, st), mine, st1);
    RegistersTransitive(st, st1, LayerSpec(e, crs, inherited, st).value, OwnName(e), SublayerNames(e, 0));
  }

  lemma {:induction false} SublayersRegister(parent: Element, j: nat, codes: set<string>, styles: map<Text, Style>, st: BuildState)
    requires j <= |parent.children|
    requires SublayersFrom(parent, j, codes, styles, st).Success?
    ensures RegistersExactly(st, SublayersFrom(parent, j, codes, styles, st).value, SublayerNames(parent, j))
    decreases parent, 0, |parent.children| - j
  {
    if j < |parent.children| {
      var child := parent.children[j];
      SublayersStep(parent, j, codes, styles, st);
      if !HasTag(child, "Layer") {
        SublayersRegister(parent, j + 1, codes, styles, st);
      } else {
        LayerRegisters(child, Own(codes), styles, st);
        var st1 := LayerSpec(child, Own(codes), styles, st).value;
        SublayersRegister(parent, j + 1, codes, styles, st1);
        RegistersTransitive(st, st1, SublayersFrom(parent, j + 1, codes, styles, st1).value,
                            LayerNames(child), SublayerNames(parent, j + 1));
      }
    }
  }

  /** When no layer below `e` carries `e`'s own name, the record kept for it
      is `e`'s: its `Name`, `Title` and `Abstract`, the styles it read, and
      for a nested layer a private CRS set holding exactly the codes it was
      handed plus its own upper-cased CRS/SRS texts. */
  lemma OwnRecordKept(e: Element, crs: CrsRef, inherited: map<Text, Style>, st: BuildState)
    requires LayerSpec(e, crs, inherited, st).Success?
    requires FindText(e, "Name").Some? && FindText(e, "Name").value !in SublayerNames(e, 0)
    ensures var r := LayerSpec(e, crs, inherited, st).value;
      && FindText(e, "Name").value in r.layers
      && r.layers[FindText(e, "Name").value] ==
           LayerEntry(FindText(e, "Name"), FindText(e, "Title"), FindText(e, "Abstract"),
                      if crs.Shared? then Shared else Own(crs.codes + CrsCodes(CrsElements(e), 0)),
                      StylesFrom(ChildrenTagged(e, "Style"), 0, inherited).value)
  {
    var own := OwnCrs(e).value;
    CrsFromMeaning(CrsElements(e), 0, {});
    assert own == CrsCodes(CrsElements(e), 0);
    var mine := StylesFrom(ChildrenTagged(e, "Style"), 0, inherited).value;
    var n := FindText(e, "Name").value;
    var st1 := Registered(e, crs, own, mine, st);
    assert n in st1.layers && st1.layers[n].crs == if crs.Shared? then Shared else Own(crs.codes + own);
    SublayersRegister(e, 0, LayerCodes(crs, own, st), mine, st1);
    assert LayerSpec(e, crs, inherited, st) == SublayersFrom(e, 0, LayerCodes(crs, own, st), mine, st1);
  }

  /** Both states agree on the records of `names`. */
  predicate AgreeOn(a: BuildState, b: BuildState, names: set<Text>)
  {
    forall n :: n in names ==> n in a.layers && n in b.layers && a.layers[n] == b.layers[n]
  }

  /** Reading a nested layer does not depend on what was registered before:
      it succeeds or fails alike, and the records of its subtree's names
      come out the same. */
  lemma {:induction false} NestedRecordsIndependent(e: Element, codes: set<string>, inherited: map<Text, Style>,
                                                    st1: BuildState, st2: BuildState)
    ensures LayerSpec(e, Own(codes), inherited, st1).Success? <==> LayerSpec(e, Own(codes), inherited, st2).Success?
    ensures LayerSpec(e, Own(codes), inherited, st1).Success? ==>
      AgreeOn(LayerSpec(e, Own(codes), inherited, st1).value, LayerSpec(e, Own(codes), inherited, st2).value, LayerNames(e))
    decreases e, 1, 0
  {
    if OwnCrs(e).Success? && StylesFrom(ChildrenTagged(e, "Style"), 0, inherited).Success? {
      var own := OwnCrs(e).value;
      var mine := StylesFrom(ChildrenTagged(e, "Style"), 0, inherited).value;
      var s1 := Registered(e, Own(codes), own, mine, st1);
      var s2 := Registered(e, Own(codes), own, mine, st2);
      SublayersIndependent(e, 0, codes + own, mine, s1, s2);
      if LayerSpec(e, Own(codes), inherited, st1).Success? {
        SublayersRegister(e, 0, codes + own, mine, s1);
        SublayersRegister(e, 0, codes + own, mine, s2);
      }
    }
  }

  lemma {:induction false} SublayersIndependent(parent: Element, j: nat, codes: set<string>, styles: map<Text, Style>,
                                                st1: BuildState, st2: BuildState)
    requires j <= |parent.children|
    ensures SublayersFrom(parent, j, codes, styles, st1).Success? <==> SublayersFrom(parent, j, codes, styles, st2).Success?
    ensures SublayersFrom(parent, j, codes, styles, st1).Success? ==>
      AgreeOn(SublayersFrom(parent, j, codes, styles, st1).value, SublayersFrom(parent, j, codes, styles, st2).value,
              SublayerNames(parent, j))
    decreases parent, 0, |parent.children| - j
  {
    if j < |parent.children| {
      var child := parent.children[j];
      SublayersStep(parent, j, codes, styles, st1);
      SublayersStep(parent, j, codes, styles, st2);
      if !HasTag(child, "Layer") {
        SublayersIndependent(parent, j + 1, codes, styles, st1, st2);
      } else {
        NestedRecordsIndependent(child, codes, styles, st1, st2);
        if LayerSpec(child, Own(codes), styles, st1).Success? {
          var s1 := LayerSpec(child, Own(codes), styles, st1).value;
          var s2 := LayerSpec(child, Own(codes), styles, st2).value;
          SublayersIndependent(parent, j + 1, codes, styles, s1, s2);
          if SublayersFrom(parent, j + 1, codes, styles, s1).Success? {
            SublayersRegister(parent, j + 1, codes, styles, s1);
            SublayersRegister(parent, j + 1, codes, styles, s2);
          }
        }
      }
    }
  }

  /** Last registration wins among siblings: when child `k` is a `Layer`
      whose subtree carries `n` and no later child's does, then however the
      loop got to child `k` from `j` (earlier siblings registering `n`
      included), the record kept for `n` is the one child `k`'s subtree
      registers when read on its own. */
  lemma {:induction false} LaterSiblingWins(parent: Element, j: nat, k: nat, codes: set<string>, styles: map<Text, Style>,
                                            st: BuildState, n: Text)
    requires j <= k < |parent.children|
    requires HasTag(parent.children[k], "Layer")
    requires n in LayerNames(parent.children[k]) && n !in SublayerNames(parent, k + 1)
    requires SublayersFrom(parent, j, codes, styles, st).Success?
    ensures LayerSpec(parent.children[k], Own(codes), styles, Empty).Success?
    ensures var alone := LayerSpec(parent.children[k], Own(codes), styles, Empty).value.layers;
      var r := SublayersFrom(parent, j, codes, styles, st).value.layers;
      n in alone && n in r && r[n] == alone[n]
    decreases k - j
  {
    var child := parent.children[j];
    SublayersStep(parent, j, codes, styles, st);
    if j == k {
      NestedRecordsIndependent(child, codes, styles, st, Empty);
      var st1 := LayerSpec(child, Own(codes), styles, st).value;
      SublayersRegister(parent, k + 1, codes, styles, st1);
    } else if !HasTag(child, "Layer") {
      LaterSiblingWins(parent, j + 1, k, codes, styles, st, n);
    } else {
      LaterSiblingWins(parent, j + 1, k, codes, styles, LayerSpec(child, Own(codes), styles, st).value, n);
    }
  }

  // ---------------------------------------------------------------------
  // The default CRS set of the top-level layers
  // ---------------------------------------------------------------------

  /** The CRS codes the layers `tops[i..]` declare themselves. */
  function TopCodes(tops: seq<Element>, i: nat): set<string>
    decreases |tops| - i
  {
    if i >= |tops| then {}
    else (if OwnCrs(tops[i]).Success? then OwnCrs(tops[i]).value else {}) + TopCodes(tops, i + 1)
  }

  /** A top-level layer adds its own codes to the shared default set; its
      nested layers only ever write to copies. */
  lemma TopLayerShared(e: Element, st: BuildState)
    requires LayerSpec(e, Shared, map[], st).Success?
    ensures LayerSpec(e, Shared, map[], st).value.shared == st.shared + OwnCrs(e).value
  {
    var own := OwnCrs(e).value;
    var mine := StylesFrom(ChildrenTagged(e, "Style"), 0, map[]).value;
    SublayersInherit(e, 0, st.shared + own, mine, Registered(e, Shared, own, mine, st));
  }

  /** After all top-level layers are read, the shared default set holds the
      codes declared by every one of them, and nothing else. */
  lemma {:induction false} TopFromShared(tops: seq<Element>, i: nat, st: BuildState)
    requires i <= |tops|
    requires TopFrom(tops, i, st).Success?
    ensures TopFrom(tops, i, st).value.shared == st.shared + TopCodes(tops, i)
    decreases |tops| - i
  {
    if i < |tops| {
      TopLayerShared(tops[i], st);
      TopFromShared(tops, i + 1, LayerSpec(tops[i], Shared, map[], st).value);
    }
  }

  /** The names of the layers `tops[i..]` and of the layers below them. */
  function TopNames(tops: seq<Element>, i: nat): set<Text>
    decreases |tops| - i
  {
    if i >= |tops| then {} else LayerNames(tops[i]) + TopNames(tops, i + 1)
  }

  /** The top-level loop registers exactly the named layers of the whole
      tree and leaves every other record alone. */
  lemma {:induction false} TopFromRegisters(tops: seq<Element>, i: nat, st: BuildState)
    requires i <= |tops|
    requires TopFrom(tops, i, st).Success?
    ensures RegistersExactly(st, TopFrom(tops, i, st).value, TopNames(tops, i))
    decreases |tops| - i
  {
    if i < |tops| {
      LayerRegisters(tops[i], Shared, map[], st);
      var st1 := LayerSpec(tops[i], Shared, map[], st).value;
      TopFromRegisters(tops, i + 1, st1);
      RegistersTransitive(st, st1, TopFrom(tops, i + 1, st1).value, LayerNames(tops[i]), TopNames(tops, i + 1));
    }
  }

  /** The layer dict `parse_wms` returns is keyed by exactly the names of the
      named layers below `Capability`. */
  lemma ParsedLayerNames(root: Element)
    requires CapabilitiesOf(Xml(root)).Success?
    ensures CapabilitiesOf(Xml(root)).value.layers.Keys == TopNames(TopLayers(root), 0)
  {
    TopFromRegisters(TopLayers(root), 0, Empty);
  }

  /** Every record of a top-level layer points to the one default set, so
      once parsing is over each such layer advertises the CRS codes of all
      top-level layers together. */
  lemma TopLevelCrsLeaks(root: Element)
    requires TopFrom(TopLayers(root), 0, Empty).Success?
    ensures var st := TopFrom(TopLayers(root), 0, Empty).value;
      forall k :: k in st.layers && st.layers[k].crs.Shared? ==>
        Resolve(st)[k].crs == TopCodes(TopLayers(root), 0)
  {
    TopFromShared(TopLayers(root), 0, Empty);
  }

  // ---------------------------------------------------------------------
  // The root element
  // ---------------------------------------------------------------------

  /** A successful parse comes from a capabilities root with a `version`
      attribute, and reports that version and the GetMap formats. */
  lemma ParsedRoot(doc: Document)
    requires CapabilitiesOf(doc).Success?
    ensures doc.Xml?
    ensures LocalName(doc.root.tag) == "WMT_MS_Capabilities" || LocalName(doc.root.tag) == "WMS_Capabilities"
    ensures "version" in doc.root.attrib && CapabilitiesOf(doc).value.version == doc.root.attrib["version"]
    ensures CapabilitiesOf(doc).value.formats == TextsOf(FormatElements(doc.root))
  {
  }

  /** Reading the layers can only fail on a CRS without text or a style
      without a name. */
  predicate LayerFault(err: ParseError)
  {
    err.CrsWithoutText? || err.StyleWithoutName?
  }

  lemma {:induction false} CrsFromFault(es: seq<Element>, i: nat, acc: set<string>)
    ensures CrsFrom(es, i, acc).Failure? ==> CrsFrom(es, i, acc).error == CrsWithoutText
    decreases |es| - i
  {
    if i < |es| && es[i].text.Some? {
      CrsFromFault(es, i + 1, acc + {Upper(es[i].text.value)});
    }
  }

  lemma {:induction false} StylesFromFault(es: seq<Element>, i: nat, acc: map<Text, Style>)
    ensures StylesFrom(es, i, acc).Failure? ==> StylesFrom(es, i, acc).error == StyleWithoutName
    decreases |es| - i
  {
    if i < |es| && StyleOf(es[i]).Some? {
      var style := StyleOf(es[i]).value;
      StylesFromFault(es, i + 1, acc[style.name := style]);
    }
  }

  lemma {:induction false} LayerSpecFault(e: Element, crs: CrsRef, inherited: map<Text, Style>, st: BuildState)
    ensures LayerSpec(e, crs, inherited, st).Failure? ==> LayerFault(LayerSpec(e, crs, inherited, st).error)
    decreases e, 1, 0
  {
    CrsFromFault(CrsElements(e), 0, {});
    StylesFromFault(ChildrenTagged(e, "Style"), 0, inherited);
    if OwnCrs(e).Success? && StylesFrom(ChildrenTagged(e, "Style"), 0, inherited).Success? {
      var own := OwnCrs(e).value;
      var styles := StylesFrom(ChildrenTagged(e, "Style"), 0, inherited).value;
      SublayersFault(e, 0, LayerCodes(crs, own, st), styles, Registered(e, crs, own, styles, st));
    }
  }

  lemma {:induction false} SublayersFault(parent: Element, j: nat, codes: set<string>, styles: map<Text, Style>, st: BuildState)
    ensures SublayersFrom(parent, j, codes, styles, st).Failure? ==>
      LayerFault(SublayersFrom(parent, j, codes, styles, st).error)
    decreases parent, 0, |parent.children| - j
  {
    if j < |parent.children| {
      var child := parent.children[j];
      SublayersStep(parent, j, codes, styles, st);
      if !HasTag(child, "Layer") {
        SublayersFault(parent, j + 1, codes, styles, st);
      } else {
        LayerSpecFault(child, Own(codes), styles, st);
        if LayerSpec(child, Own(codes), styles, st).Success? {
          SublayersFault(parent, j + 1, codes, styles, LayerSpec(child, Own(codes), styles, st).value);
        }
      }
    }
  }

  lemma {:induction false} TopFromFault(tops: seq<Element>, i: nat, st: BuildState)
    ensures TopFrom(tops, i, st).Failure? ==> LayerFault(TopFrom(tops, i, st).error)
    decreases |tops| - i
  {
    if i < |tops| {
      LayerSpecFault(tops[i], Shared, map[], st);
      if LayerSpec(tops[i], Shared, map[], st).Success? {
        TopFromFault(tops, i + 1, LayerSpec(tops[i], Shared, map[], st).value);
      }
    }
  }

  /** The root checks, in order: a document that is not XML, a service
      exception root, a root that is not a capabilities element and a root
      without `version` each fail with their own error, and with no other
      cause. */
  lemma RootErrors(doc: Document)
    ensures CapabilitiesOf(doc) == Failure(NotXml) <==> doc.Malformed?
    ensures CapabilitiesOf(doc) == Failure(ServiceException) <==>
      doc.Xml? && LocalName(doc.root.tag) in {"ServiceExceptionReport", "ServiceException"}
    ensures (CapabilitiesOf(doc).Failure? && CapabilitiesOf(doc).error.NoCapabilitiesElement?) <==>
      doc.Xml? && LocalName(doc.root.tag) !in {"ServiceExceptionReport", "ServiceException", "WMT_MS_Capabilities", "WMS_Capabilities"}
    ensures CapabilitiesOf(doc) == Failure(NoVersion) <==>
      doc.Xml? && LocalName(doc.root.tag) in {"WMT_MS_Capabilities", "WMS_Capabilities"} && "version" !in doc.root.attrib
  {
    if doc.Xml? {
      TopFromFault(TopLayers(doc.root), 0, Empty);
    }
  }

  lemma {:induction false} LocalNameAfterBrace(prefix: string, name: string)
    requires '}' !in name
    ensures LocalName(prefix + "}" + name) == name
    decreases |name|
  {
    var tag := prefix + "}" + name;
    if name == [] {
      assert tag[|tag| - 1] == '}';
    } else {
      var init := name[..|name| - 1];
      assert tag[..|tag| - 1] == prefix + "}" + init;
      LocalNameAfterBrace(prefix, init);
      assert init + [name[|name| - 1]] == name;
    }
  }

  lemma {:induction false} DescendantsOnlyOfChildren(a: Element, b: Element, j: nat)
    requires a.children == b.children
    ensures DescendantsFrom(a, j) == DescendantsFrom(b, j)
    decreases |a.children| - j
  {
    if j < |a.children| {
      DescendantsOnlyOfChildren(a, b, j + 1);
    }
  }

  /** A namespace on the root tag changes nothing: `{ns}WMS_Capabilities` is
      read exactly like `WMS_Capabilities`, and likewise for the exception
      roots. */
  lemma RootNamespaceIgnored(root: Element, ns: string)
    requires '}' !in root.tag
    ensures CapabilitiesOf(Xml(root.(tag := "{" + ns + "}" + root.tag))) == CapabilitiesOf(Xml(root))
  {
    var root' := root.(tag := "{" + ns + "}" + root.tag);
    LocalNameAfterBrace("{" + ns, root.tag);
    LocalNameOfPlain(root.tag);
    assert "{" + ns + "}" + root.tag == ("{" + ns) + "}" + root.tag;
    DescendantsOnlyOfChildren(root', root, 0);
    assert TopLayers(root') == TopLayers(root);
    assert FormatElements(root') == FormatElements(root);
  }
}

module CapabilityExamples {
  import opened Strings
  import opened Capabilities

  function Leaf(tag: string, text: string): Element
  {
    Element(tag, map[], Some(text), [])
  }

  /** A layer with a `Name` and one `CRS` child and nothing else. */
  function SimpleLayer(name: string, code: string): Element
  {
    Element("Layer", map[], None, [Leaf("Name", name), Leaf("CRS", code)])
  }

  /** Two sibling top-level layers, `a` declaring `code1` and `b` declaring
      `code2`. */
  function TwoTopLayers(code1: string, code2: string): Element
  {
    Element("WMS_Capabilities", map["version" := "1.3.0"], None, [
      Element("Capability", map[], None, [SimpleLayer("a", code1), SimpleLayer("b", code2)])])
  }

  lemma PlainTags()
    ensures LocalName("WMS_Capabilities") == "WMS_Capabilities"
    ensures LocalName("Capability") == "Capability"
    ensures LocalName("Layer") == "Layer"
    ensures LocalName("Name") == "Name"
    ensures LocalName("CRS") == "CRS"
  {
    LocalNameOfPlain("WMS_Capabilities");
    LocalNameOfPlain("Capability");
    LocalNameOfPlain("Layer");
    LocalNameOfPlain("Name");
    LocalNameOfPlain("CRS");
  }

  lemma TaggedTwo(x: Element, y: Element, name: string)
    ensures Tagged([x, y], name) == (if HasTag(x, name) then [x] else []) + (if HasTag(y, name) then [y] else [])
  {
    assert [x, y][1..] == [y];
    assert [y][1..] == [];
    assert Tagged([y], name) == (if HasTag(y, name) then [y] else []) + Tagged([], name);
  }

  lemma {:induction false} NoneTagged(es: seq<Element>, name: string)
    requires forall k :: 0 <= k < |es| ==> !HasTag(es[k], name)
    ensures Tagged(es, name) == []
  {
    if es != [] {
      NoneTagged(es[1..], name);
    }
  }

  /** A top-level `SimpleLayer` registers itself with the shared set and adds
      its upper-cased code to that set. */
  lemma SimpleTopLayer(name: string, code: string, st: BuildState)
    ensures LayerSpec(SimpleLayer(name, code), Shared, map[], st) ==
      Success(BuildState(st.layers[Some(name) := LayerEntry(Some(Some(name)), None, None, Shared, map[])],
                         st.shared + {Upper(code)}))
  {
    var e := SimpleLayer(name, code);
    PlainTags();
    TaggedTwo(e.children[0], e.children[1], "CRS");
    TaggedTwo(e.children[0], e.children[1], "SRS");
    TaggedTwo(e.children[0], e.children[1], "Style");
    TaggedTwo(e.children[0], e.children[1], "Name");
    TaggedTwo(e.children[0], e.children[1], "Title");
    TaggedTwo(e.children[0], e.children[1], "Abstract");
    assert ChildrenTagged(e, "CRS") == [e.children[1]];
    assert ChildrenTagged(e, "SRS") == [];
    var crs := e.children[1];
    assert CrsElements(e) == [crs];
    assert CrsFrom([crs], 0, {}) == CrsFrom([crs], 1, {} + {Upper(code)});
    assert {} + {Upper(code)} == {Upper(code)};
    assert OwnCrs(e) == Success({Upper(code)});
    assert ChildrenTagged(e, "Style") == [];
    assert ChildrenTagged(e, "Name") == [e.children[0]];
    assert ChildrenTagged(e, "Title") == [];
    assert ChildrenTagged(e, "Abstract") == [];
    var st1 := Registered(e, Shared, {Upper(code)}, map[], st);
    SublayersStep(e, 0, st.shared + {Upper(code)}, map[], st1);
    SublayersStep(e, 1, st.shared + {Upper(code)}, map[], st1);
  }

  lemma SimpleDescendants(name: string, code: string)
    ensures Descendants(SimpleLayer(name, code)) == SimpleLayer(name, code).children
  {
    var e := SimpleLayer(name, code);
    assert Descendants(e.children[0]) == [];
    assert Descendants(e.children[1]) == [];
    assert DescendantsFrom(e, 2) == [];
    assert DescendantsFrom(e, 1) == [e.children[1]];
  }

  /** The document's top-level layers are its two sibling layers. */
  lemma TwoTopLayersFound(code1: string, code2: string)
    ensures TopLayers(TwoTopLayers(code1, code2)) == [SimpleLayer("a", code1), SimpleLayer("b", code2)]
  {
    var root := TwoTopLayers(code1, code2);
    var cap := root.children[0];
    var a := SimpleLayer("a", code1);
    var b := SimpleLayer("b", code2);
    PlainTags();
    SimpleDescendants("a", code1);
    SimpleDescendants("b", code2);
    assert DescendantsFrom(cap, 1) == [b] + b.children;
    assert Descendants(cap) == [a] + a.children + [b] + b.children;
    var below := Descendants(cap);
    assert DescendantsFrom(root, 1) == [];
    assert Descendants(root) == [cap] + below + [];
    assert [cap] + below + [] == [cap] + below;
    NoneTagged(below, "Capability");
    assert ([cap] + below)[1..] == below;
    assert CapabilityElements(root) == [cap];
    TaggedTwo(a, b, "Layer");
    assert ChildrenOfAll([cap], "Layer") == ChildrenTagged(cap, "Layer");
  }

  /** Each of the two layers ends up advertising both codes, upper-cased. */
  lemma SiblingCrsLeak(code1: string, code2: string)
    ensures CapabilitiesOf(Xml(TwoTopLayers(code1, code2))).Success?
    ensures var layers := CapabilitiesOf(Xml(TwoTopLayers(code1, code2))).value.layers;
      && layers.Keys == {Some("a"), Some("b")}
      && layers[Some("a")].crs == {Upper(code1), Upper(code2)}
      && layers[Some("b")].crs == {Upper(code1), Upper(code2)}
  {
    var a := SimpleLayer("a", code1);
    var b := SimpleLayer("b", code2);
    PlainTags();
    TwoTopLayersFound(code1, code2);
    SimpleTopLayer("a", code1, Empty);
    var st1 := LayerSpec(a, Shared, map[], Empty).value;
    SimpleTopLayer("b", code2, st1);
    var st2 := LayerSpec(b, Shared, map[], st1).value;
    assert TopFrom([a, b], 1, st1) == Success(st2);
    assert TopFrom([a, b], 0, Empty) == Success(st2);
    assert st2.shared == {Upper(code1), Upper(code2)};
  }
}
