/** `check_tms`: a tile URL template is checked by probing a few zoom levels
    at the tile that holds the source's representative point, and the probes
    are classified into one good or error message. */
module TmsCheck {
  import opened Strings
  import opened Messages

  /** The properties `check_tms` reads: the tile URL template and the
      optional zoom bounds. */
  datatype TmsSource = TmsSource(url: string, minZoom: Option<int>, maxZoom: Option<int>)

  /** The zoom bounds, 0 and 22 unless the source sets them (lines 402-407). */
  function MinZoom(src: TmsSource): int
  {
    if src.minZoom.Some? then src.minZoom.value else 0
  }

  function MaxZoom(src: TmsSource): int
  {
    if src.maxZoom.Some? then src.maxZoom.value else 22
  }

  // ---------------------------------------------------------------------
  // The `{switch:…}` rewrite (lines 396-400)
  // ---------------------------------------------------------------------

  /** The longest prefix of `s` without a closing brace: `[^}]*`. */
  function UntilBrace(s: string): (r: string)
    ensures r <= s && '}' !in r
    ensures |r| < |s| ==> s[|r|] == '}'
    decreases |s|
  {
    if s == [] || s[0] == '}' then [] else [s[0]] + UntilBrace(s[1..])
  }

  /** `re.search(r'switch:?([^}]*)', url)`: the whole match and its group,
      starting at the first `switch` of the URL. */
  function SwitchMatch(url: string): Option<(string, string)>
  {
    match IndexOf(url, "switch")
    case None => None
    case Some(i) =>
      var rest := url[i + 6..];
      var colon := if |rest| > 0 && rest[0] == ':' then ":" else "";
      var alternatives := UntilBrace(rest[|colon|..]);
      Some(("switch" + colon + alternatives, alternatives))
  }

  /** The URL after the rewrite and the value bound to `switch`, if any. */
  datatype Template = Template(url: string, switch: Option<string>)

  /** Every occurrence of the matched `switch:…` text becomes `switch`, and
      `switch` is bound to the first alternative. */
  function RewriteSwitch(url: string): Template
  {
    if !Contains(url, "{switch:") then Template(url, None)
    else
      match SwitchMatch(url)
      case None => Template(url, None)
      case Some((whole, alternatives)) => Template(ReplaceAll(url, whole, "switch"), Some(Split(alternatives, ',')[0]))
  }

  lemma {:induction false} UntilBraceOf(alternatives: string, b: string)
    requires '}' !in alternatives
    ensures UntilBrace(alternatives + "}" + b) == alternatives
    decreases |alternatives|
  {
    if alternatives != [] {
      assert (alternatives + "}" + b)[1..] == alternatives[1..] + "}" + b;
      UntilBraceOf(alternatives[1..], b);
    }
  }

  /** `s.replace(t, r)` leaves a prefix in which no match starts untouched. */
  lemma {:induction false} ReplaceAfterPrefix(p: string, t: string, q: string, r: string)
    requires t != []
    requires forall j :: 0 <= j < |p| ==> !OccursAt(p + t + q, t, j)
    ensures ReplaceAll(p + t + q, t, r) == p + r + ReplaceAll(q, t, r)
    decreases |p|
  {
    if p == [] {
      assert p + t + q == t + q;
      ReplaceAtHead(t, q, r);
    } else {
      var c, tail := p[0], p[1..];
      assert p == [c] + tail;
      assert !OccursAt(p + t + q, t, 0);
      NoMatchInTail(p, t, q);
      ReplaceAfterPrefix(tail, t, q, r);
      RegroupFront(c, tail, t, q);
      RegroupFront(c, tail, r, ReplaceAll(q, t, r));
      ReplaceSkip(c, tail + t + q, t, r);
    }
  }

  /** Regrouping behind a leading character, over variables so that no
      other facts are in scope while the sequences are compared. */
  lemma RegroupFront(c: char, x: string, y: string, z: string)
    ensures [c] + x + y + z == [c] + (x + y + z)
  {
  }

  /** A match at the very start is replaced. */
  lemma ReplaceAtHead(t: string, q: string, r: string)
    requires t != []
    ensures ReplaceAll(t + q, t, r) == r + ReplaceAll(q, t, r)
  {
    assert t <= t + q;
    assert (t + q)[|t|..] == q;
  }

  /** A character where no match starts is kept. */
  lemma ReplaceSkip(c: char, s: string, t: string, r: string)
    requires t != [] && !OccursAt([c] + s, t, 0)
    ensures ReplaceAll([c] + s, t, r) == [c] + ReplaceAll(s, t, r)
  {
    assert !(t <= [c] + s);
    assert ([c] + s)[1..] == s;
  }

  /** Without a match in the prefix, none starts in the prefix's tail either. */
  lemma NoMatchInTail(p: string, t: string, q: string)
    requires p != []
    requires forall j :: 0 <= j < |p| ==> !OccursAt(p + t + q, t, j)
    ensures forall j :: 0 <= j < |p| - 1 ==> !OccursAt(p[1..] + t + q, t, j)
  {
    assert [p[0]] + (p[1..] + t + q) == p + t + q;
    forall j | 0 <= j < |p| - 1
      ensures !OccursAt(p[1..] + t + q, t, j)
    {
      var rest := p[1..] + t + q;
      if OccursAt(rest, t, j) {
        assert ([p[0]] + rest)[j + 1..j + 1 + |t|] == rest[j..j + |t|];
        assert OccursAt(p + t + q, t, j + 1);
      }
    }
  }

  /** With no `switch` in `a`, the first `switch` of `a{switch…` is the
      one after the brace. */
  lemma FirstSwitch(a: string, rest: string)
    requires !Contains(a, "switch")
    ensures IndexOf(a + "{switch" + rest, "switch") == Some(|a| + 1)
  {
    var url := a + "{switch" + rest;
    var i := |a| + 1;
    assert url[i..i + 6] == "switch";
    assert OccursAt(url, "switch", i);
    forall j | 0 <= j < i
      ensures !OccursAt(url, "switch", j)
    {
      NoSwitchBefore(a, rest, j);
    }
    IndexOfFirst(url, "switch", i);
  }

  /** The first occurrence is the one `IndexOf` finds. */
  lemma IndexOfFirst(s: string, pat: string, i: int)
    requires OccursAt(s, pat, i)
    requires forall j :: 0 <= j < i ==> !OccursAt(s, pat, j)
    ensures IndexOf(s, pat) == Some(i)
  {
    var r := IndexOf(s, pat);
    assert r.Some?;
    assert !(r.value < i);
    assert !(i < r.value);
  }

  lemma NoSwitchBefore(a: string, rest: string, j: int)
    requires !Contains(a, "switch") && 0 <= j <= |a|
    ensures !OccursAt(a + "{switch" + rest, "switch", j)
  {
    ContainsIffOccurs(a, "switch");
    NoSwitchWithin(a, rest, j);
    NoSwitchAcross(a, rest, j);
  }

  /** A `switch` inside `a` would be one of `a`. */
  lemma NoSwitchWithin(a: string, rest: string, j: int)
    ensures 0 <= j && j + 6 <= |a| && !OccursAt(a, "switch", j) ==> !OccursAt(a + "{switch" + rest, "switch", j)
  {
    if 0 <= j && j + 6 <= |a| {
      assert a[j..j + 6] == (a + "{switch" + rest)[j..j + 6];
    }
  }

  /** A `switch` reaching the brace would contain `{`. */
  lemma NoSwitchAcross(a: string, rest: string, j: int)
    ensures j <= |a| < j + 6 ==> !OccursAt(a + "{switch" + rest, "switch", j)
  {
    var url := a + "{switch" + rest;
    assert url[|a|] == '{';
    if j <= |a| < j + 6 && OccursAt(url, "switch", j) {
      MatchedCharInPattern(url, "switch", j, |a|);
    }
  }

  /** Regrouping a concatenation of five parts, over variables so that the
      solver does not unfold the string literals while regrouping. */
  lemma Regroup5(a: string, x: string, y: string, u: string, r: string)
    ensures (a + x) + y + (u + r) == a + (x + y + u) + r
  {
  }

  /** The placeholder text split at the brace and at `switch`. */
  lemma PlaceholderParts(a: string, alternatives: string, b: string)
    ensures a + "{" + ("switch:" + alternatives) + ("}" + b) == a + "{switch:" + alternatives + "}" + b
    ensures a + "{switch" + (":" + alternatives + "}" + b) == a + "{switch:" + alternatives + "}" + b
  {
    assert "{" + "switch:" == "{switch:";
    assert a + "{" + ("switch:" + alternatives) + ("}" + b) == a + ("{" + "switch:") + alternatives + "}" + b;
    assert "{switch" + ":" == "{switch:";
    assert a + "{switch" + (":" + alternatives + "}" + b) == a + ("{switch" + ":") + alternatives + "}" + b;
  }

  /** After the first `switch`, the colon and then the text up to the
      closing brace. */
  lemma SwitchMatchAfter(a: string, tail: string)
    requires !Contains(a, "switch") && |tail| > 0 && tail[0] == ':'
    ensures SwitchMatch(a + "{switch" + tail) == Some(("switch:" + UntilBrace(tail[1..]), UntilBrace(tail[1..])))
  {
    FirstSwitch(a, tail);
    var url := a + "{switch" + tail;
    assert url[|a| + 7..] == tail;
    assert "switch" + ":" == "switch:";
  }

  /** The regular expression matches `switch:alternatives`, up to the
      closing brace. */
  lemma SwitchMatchOf(a: string, alternatives: string, b: string)
    requires !Contains(a, "switch") && '}' !in alternatives
    ensures SwitchMatch(a + "{switch:" + alternatives + "}" + b) == Some(("switch:" + alternatives, alternatives))
  {
    var tail := ":" + alternatives + "}" + b;
    PlaceholderParts(a, alternatives, b);
    assert tail[1..] == alternatives + "}" + b;
    SwitchMatchAfter(a, tail);
    UntilBraceOf(alternatives, b);
  }

  /** No copy of `switch:alternatives` starts before the placeholder's. */
  lemma NoWholeBefore(a: string, alternatives: string, b: string)
    requires !Contains(a, "switch")
    ensures forall j :: 0 <= j < |a| + 1 ==>
      !OccursAt(a + "{switch:" + alternatives + "}" + b, "switch:" + alternatives, j)
  {
    var whole := "switch:" + alternatives;
    var url := a + "{switch:" + alternatives + "}" + b;
    PlaceholderParts(a, alternatives, b);
    forall j | 0 <= j < |a| + 1
      ensures !OccursAt(url, whole, j)
    {
      NoSwitchBefore(a, ":" + alternatives + "}" + b, j);
      PrefixStops(url, whole, "switch", j);
    }
  }

  /** The rewrite replaces the placeholder's text with `switch`. */
  lemma SwitchReplaced(a: string, alternatives: string, b: string)
    requires !Contains(a, "switch")
    ensures ReplaceAll(a + "{switch:" + alternatives + "}" + b, "switch:" + alternatives, "switch")
      == a + "{switch}" + ReplaceAll(b, "switch:" + alternatives, "switch")
  {
    var whole := "switch:" + alternatives;
    var p := a + "{";
    var q := "}" + b;
    PlaceholderParts(a, alternatives, b);
    NoWholeBefore(a, alternatives, b);
    ReplaceAfterPrefix(p, whole, q, "switch");
    var replaced := ReplaceAll(b, whole, "switch");
    QuoteNotReplaced(whole, b);
    Regroup5(a, "{", "switch", "}", replaced);
    BracedSwitch();
  }

  lemma BracedSwitch()
    ensures "{" + "switch" + "}" == "{switch}"
  {
  }

  /** A text starting with `}` keeps it when `switch…` is replaced. */
  lemma QuoteNotReplaced(whole: string, b: string)
    requires |whole| > 0 && whole[0] == 's'
    ensures ReplaceAll("}" + b, whole, "switch") == "}" + ReplaceAll(b, whole, "switch")
  {
    var q := "}" + b;
    assert q[0] == '}';
    assert !(whole <= q);
    assert q[1..] == b;
  }

  /** Where a prefix of `t` does not occur, `t` does not either. */
  lemma PrefixStops(s: string, t: string, p: string, j: int)
    requires p <= t
    ensures !OccursAt(s, p, j) ==> !OccursAt(s, t, j)
  {
    if OccursAt(s, t, j) {
      assert s[j..j + |p|] == s[j..j + |t|][..|p|];
    }
  }

  /** A template written `a{switch:alternatives}b`, with no `switch` before
      the placeholder, is rewritten to `a{switch}b` (every later copy of the
      placeholder text rewritten too) and binds `switch` to the first
      alternative. */
  lemma SwitchRewrite(a: string, alternatives: string, b: string)
    requires !Contains(a, "switch") && '}' !in alternatives
    ensures RewriteSwitch(a + "{switch:" + alternatives + "}" + b)
      == Template(a + "{switch}" + ReplaceAll(b, "switch:" + alternatives, "switch"), Some(Split(alternatives, ',')[0]))
  {
    var url := a + "{switch:" + alternatives + "}" + b;
    assert url[|a|..|a| + 8] == "{switch:";
    assert OccursAt(url, "{switch:", |a|);
    ContainsIffOccurs(url, "{switch:");
    assert Contains(url, "{switch:");
    SwitchMatchOf(a, alternatives, b);
    SwitchReplaced(a, alternatives, b);
  }

  /** A template without `{switch:` is left as it is, with no binding. */
  lemma NoSwitch(url: string)
    requires !Contains(url, "{switch:")
    ensures RewriteSwitch(url) == Template(url, None)
  {
  }

  // ---------------------------------------------------------------------
  // The y conventions of `test_zoom` (lines 418-425)
  // ---------------------------------------------------------------------

  /** How the template spells the tile row: `{-y}` counts rows from the
      bottom (TMS), `{!y}` from the bottom of the upper half, `{y}` from
      the top. */
  datatype YConvention = Flipped | HalfFlipped | Plain

  /** The first convention the template mentions, in that order. */
  function ConventionOf(url: string): YConvention
  {
    if Contains(url, "{-y}") then Flipped
    else if Contains(url, "{!y}") then HalfFlipped
    else Plain
  }

  /** Python's `2 ** n`: an int for `n >= 0`, a float for negative `n`
      (`2 ** (zoom - 1)` at zoom 0 is 0.5). */
  function Pow2(n: int): (r: real)
    ensures r > 0.0
    decreases if n >= 0 then n else -n
  {
    if n == 0 then 1.0
    else if n > 0 then 2.0 * Pow2(n - 1)
    else Pow2(n + 1) / 2.0
  }

  lemma {:induction false} Pow2Step(n: int)
    ensures Pow2(n + 1) == 2.0 * Pow2(n)
    decreases if n >= 0 then n else -n
  {
    if n < -1 {
      Pow2Step(n + 1);
    }
  }

  /** Powers of two at non-negative exponents are whole numbers. */
  function Pow2Nat(n: nat): (r: nat)
    ensures r >= 1
  {
    if n == 0 then 1 else 2 * Pow2Nat(n - 1)
  }

  lemma {:induction false} Pow2Whole(n: nat)
    ensures Pow2(n) == Pow2Nat(n) as real
  {
    if n > 0 {
      Pow2Whole(n - 1);
    }
  }

  /** The value substituted for the row placeholder. */
  function YValue(convention: YConvention, zoom: int, row: int): real
  {
    match convention
    case Flipped => Pow2(zoom) - 1.0 - row as real
    case HalfFlipped => Pow2(zoom - 1) - 1.0 - row as real
    case Plain => row as real
  }

  /** Flipping a row of the `2^zoom` rows of a zoom level gives a row of
      that zoom level again, and flipping twice gives the row back. */
  lemma FlippedRow(zoom: nat, row: int)
    requires 0 <= row < Pow2Nat(zoom)
    ensures 0.0 <= YValue(Flipped, zoom, row) < Pow2(zoom)
    ensures YValue(Flipped, zoom, YValue(Flipped, zoom, row).Floor) == row as real
  {
    Pow2Whole(zoom);
    var flipped := Pow2Nat(zoom) - 1 - row;
    assert YValue(Flipped, zoom, row) == flipped as real;
    assert YValue(Flipped, zoom, row).Floor == flipped;
  }

  /** `{!y}` is `{-y}` shifted down by half the rows of the zoom level. */
  lemma HalfFlippedShift(zoom: int, row: int)
    ensures YValue(HalfFlipped, zoom, row) == YValue(Flipped, zoom, row) - Pow2(zoom - 1)
  {
    Pow2Step(zoom - 1);
  }

  // ---------------------------------------------------------------------
  // One probe: `test_zoom` (lines 413-433)
  // ---------------------------------------------------------------------

  /** The tile of a zoom level holding the source's representative point. */
  datatype Tile = Tile(x: int, row: int)

  /** What `test_zoom` requests: the rewritten template, the convention its
      row placeholder uses and the value put there, and the parameters
      `x`, `zoom` and (when bound) `switch` it is formatted with. */
  datatype TileQuery = TileQuery(url: string, convention: YConvention, y: real, x: int, zoom: int, switch: Option<string>)

  /** The request for `zoom`, given the tile `tileAt(zoom)`. */
  function QueryFor(t: Template, tileAt: int -> Tile, zoom: int): (q: TileQuery)
    ensures q.zoom == zoom && q.x == tileAt(zoom).x && q.switch == t.switch
    ensures q.convention == ConventionOf(t.url) && q.y == YValue(q.convention, zoom, tileAt(zoom).row)
  {
    var tile := tileAt(zoom);
    var convention := ConventionOf(t.url);
    TileQuery(t.url, convention, YValue(convention, zoom, tile.row), tile.x, zoom, t.switch)
  }

  /** Whether the tile of `zoom` answers with status 200 (`test_url`). */
  function Reachability(t: Template, tileAt: int -> Tile, reachable: TileQuery -> bool): int -> bool
  {
    zoom => reachable(QueryFor(t, tileAt, zoom))
  }

  // ---------------------------------------------------------------------
  // The probe search (lines 435-448)
  // ---------------------------------------------------------------------

  /** The zooms a probe sequence has tested. */
  function Elems(zooms: seq<int>): set<int>
  {
    set z | z in zooms
  }

  /** `for zoom in range(z, hi): if zoom not in tested: if test_zoom(zoom): break`. */
  function Ascend(z: int, hi: int, ok: int -> bool, tested: set<int>): seq<int>
    decreases hi - z
  {
    if z >= hi then []
    else if z in tested then Ascend(z + 1, hi, ok, tested)
    else if ok(z) then [z]
    else [z] + Ascend(z + 1, hi, ok, tested + {z})
  }

  /** `for zoom in range(z, lo, -1): if zoom not in tested: if test_zoom(zoom): break`. */
  function Descend(z: int, lo: int, ok: int -> bool, tested: set<int>): seq<int>
    decreases z - lo
  {
    if z <= lo then []
    else if z in tested then Descend(z - 1, lo, ok, tested)
    else if ok(z) then [z]
    else [z] + Descend(z - 1, lo, ok, tested + {z})
  }

  function Min(a: int, b: int): int { if a <= b then a else b }
  function Max(a: int, b: int): int { if a >= b then a else b }

  /** Every zoom probed, in order: `min_zoom`, then upwards from it while
      nothing answers, then `max_zoom` (tested or not), then downwards from
      it while nothing answers. */
  function Probes(minZoom: int, maxZoom: int, ok: int -> bool): seq<int>
  {
    var up := if ok(minZoom) then [] else Ascend(minZoom + 1, Min(minZoom + 4, maxZoom), ok, {minZoom});
    var before := [minZoom] + up + [maxZoom];
    before + (if ok(maxZoom) then [] else Descend(maxZoom, Max(maxZoom - 4, minZoom), ok, Elems(before)))
  }

  /** The probed zooms that answered, in order (`zoom_success`). */
  function Passing(zooms: seq<int>, ok: int -> bool): seq<int>
    decreases |zooms|
  {
    if zooms == [] then []
    else
      var k := |zooms| - 1;
      Passing(zooms[..k], ok) + (if ok(zooms[k]) then [zooms[k]] else [])
  }

  /** The probed zooms that did not answer, in order (`zoom_failures`). */
  function Failing(zooms: seq<int>, ok: int -> bool): seq<int>
    decreases |zooms|
  {
    if zooms == [] then []
    else
      var k := |zooms| - 1;
      Failing(zooms[..k], ok) + (if ok(zooms[k]) then [] else [zooms[k]])
  }

  // ---------------------------------------------------------------------
  // Classification (lines 450-457)
  // ---------------------------------------------------------------------

  /** Good when every probe answered, an error naming the failures when
      some did and some did not, "no zoom level reachable" otherwise. The
      failures are listed sorted, so only their multiset matters. */
  function Classify(tested: set<int>, success: seq<int>, failures: seq<int>): Report
  {
    if |failures| == 0 && |success| > 0 then Report([ZoomsReachable(tested)], [], [])
    else if |failures| > 0 && |success| > 0 then Errors([ZoomsNotReachable(multiset(failures), tested)])
    else Errors([NoZoomReachable(tested)])
  }

  // ---------------------------------------------------------------------
  // Properties of the probe search
  // ---------------------------------------------------------------------

  /** `r` is `z, z+1, …` in turn, within `[z, hi)`, every zoom but the last
      failed, and the last answered unless the range was used up. */
  predicate AscendedFrom(r: seq<int>, z: int, hi: int, ok: int -> bool)
  {
    && |r| <= Max(0, hi - z)
    && (forall k :: 0 <= k < |r| ==> r[k] == z + k)
    && (forall k :: 0 <= k < |r| - 1 ==> !ok(r[k]))
    && (|r| < hi - z ==> |r| > 0 && ok(r[|r| - 1]))
  }

  /** The ascending search probes `z, z+1, …` in turn and stops at the
      first zoom that answers, or when the range is used up. */
  lemma {:induction false} AscendShape(z: int, hi: int, ok: int -> bool, tested: set<int>)
    requires forall k :: z <= k < hi ==> k !in tested
    ensures AscendedFrom(Ascend(z, hi, ok, tested), z, hi, ok)
    decreases hi - z
  {
    if z < hi && !ok(z) {
      AscendShape(z + 1, hi, ok, tested + {z});
      var rest := Ascend(z + 1, hi, ok, tested + {z});
      var r := [z] + rest;
      assert Ascend(z, hi, ok, tested) == r;
      assert forall k :: 1 <= k < |r| ==> r[k] == rest[k - 1];
    }
  }

  /** Every zoom of `r` is an untested zoom of `(lo, z]`. */
  predicate FreshWithin(r: seq<int>, z: int, lo: int, tested: set<int>)
  {
    forall k :: 0 <= k < |r| ==> lo < r[k] <= z && r[k] !in tested
  }

  predicate StrictlyDecreasing(r: seq<int>)
  {
    forall i, j :: 0 <= i < j < |r| ==> r[i] > r[j]
  }

  /** Every zoom of `r` but the last failed. */
  predicate FailedBeforeLast(r: seq<int>, ok: int -> bool)
  {
    forall k :: 0 <= k < |r| - 1 ==> !ok(r[k])
  }

  lemma {:induction false} DescendFresh(z: int, lo: int, ok: int -> bool, tested: set<int>)
    ensures FreshWithin(Descend(z, lo, ok, tested), z, lo, tested)
    decreases z - lo
  {
    if z > lo {
      if z in tested {
        DescendFresh(z - 1, lo, ok, tested);
      } else if !ok(z) {
        DescendFresh(z - 1, lo, ok, tested + {z});
        var rest := Descend(z - 1, lo, ok, tested + {z});
        var r := [z] + rest;
        assert forall k :: 1 <= k < |r| ==> r[k] == rest[k - 1];
      }
    }
  }

  lemma {:induction false} DescendDecreasing(z: int, lo: int, ok: int -> bool, tested: set<int>)
    ensures StrictlyDecreasing(Descend(z, lo, ok, tested))
    decreases z - lo
  {
    if z > lo {
      if z in tested {
        DescendDecreasing(z - 1, lo, ok, tested);
      } else if !ok(z) {
        DescendDecreasing(z - 1, lo, ok, tested + {z});
        DescendFresh(z - 1, lo, ok, tested + {z});
        var rest := Descend(z - 1, lo, ok, tested + {z});
        var r := [z] + rest;
        assert forall k :: 1 <= k < |r| ==> r[k] == rest[k - 1];
      }
    }
  }

  lemma {:induction false} DescendFailsBeforeLast(z: int, lo: int, ok: int -> bool, tested: set<int>)
    ensures FailedBeforeLast(Descend(z, lo, ok, tested), ok)
    decreases z - lo
  {
    if z > lo {
      if z in tested {
        DescendFailsBeforeLast(z - 1, lo, ok, tested);
      } else if !ok(z) {
        DescendFailsBeforeLast(z - 1, lo, ok, tested + {z});
        var rest := Descend(z - 1, lo, ok, tested + {z});
        var r := [z] + rest;
        assert forall k :: 1 <= k < |r| ==> r[k] == rest[k - 1];
      }
    }
  }

  /** The descending search probes untested zooms of `(lo, z]`, from the
      top down, and every probe but the last failed. */
  lemma DescendProbes(z: int, lo: int, ok: int -> bool, tested: set<int>)
    ensures FreshWithin(Descend(z, lo, ok, tested), z, lo, tested)
    ensures StrictlyDecreasing(Descend(z, lo, ok, tested))
    ensures FailedBeforeLast(Descend(z, lo, ok, tested), ok)
  {
    DescendFresh(z, lo, ok, tested);
    DescendDecreasing(z, lo, ok, tested);
    DescendFailsBeforeLast(z, lo, ok, tested);
  }

  /** The descending search stops only at a zoom that answers: every
      untested zoom of `(lo, z]` above the last probe was probed, and all of
      them when the last probe failed too. */
  lemma {:induction false} DescendCovers(z: int, lo: int, ok: int -> bool, tested: set<int>, k: int)
    requires lo < k <= z && k !in tested
    ensures var r := Descend(z, lo, ok, tested);
      (|r| == 0 || !ok(r[|r| - 1]) || k > r[|r| - 1]) ==> k in r
    decreases z - lo
  {
    if z in tested {
      DescendCovers(z - 1, lo, ok, tested, k);
    } else if !ok(z) && k < z {
      DescendCovers(z - 1, lo, ok, tested + {z}, k);
      var rest := Descend(z - 1, lo, ok, tested + {z});
      var r := [z] + rest;
      assert Descend(z, lo, ok, tested) == r;
      assert rest != [] ==> rest[|rest| - 1] == r[|r| - 1];
    }
  }

  /** With `min_zoom <= max_zoom`: the search starts at `min_zoom`, probes
      `max_zoom` right after the ascending search, stays within the bounds
      and probes at most eight zooms. */
  lemma ProbesBounds(minZoom: int, maxZoom: int, ok: int -> bool)
    requires minZoom <= maxZoom
    ensures var p := Probes(minZoom, maxZoom, ok);
      && 2 <= |p| <= 8 && p[0] == minZoom && maxZoom in p
      && forall k :: 0 <= k < |p| ==> minZoom <= p[k] <= maxZoom
  {
    var up := if ok(minZoom) then [] else Ascend(minZoom + 1, Min(minZoom + 4, maxZoom), ok, {minZoom});
    var before := [minZoom] + up + [maxZoom];
    BeforeShape(minZoom, maxZoom, ok, up);
    var lo := Max(maxZoom - 4, minZoom);
    var down := if ok(maxZoom) then [] else Descend(maxZoom, lo, ok, Elems(before));
    DescendFresh(maxZoom, lo, ok, Elems(before));
    assert maxZoom in Elems(before);
    DescendBelowTop(maxZoom, lo, ok, Elems(before));
    ConcatWithin(before, down, minZoom, maxZoom);
    assert Probes(minZoom, maxZoom, ok) == before + down;
    assert (before + down)[|before| - 1] == maxZoom;
  }

  /** Two runs within bounds make a run within bounds. */
  lemma ConcatWithin(xs: seq<int>, ys: seq<int>, lo: int, hi: int)
    requires forall k :: 0 <= k < |xs| ==> lo <= xs[k] <= hi
    requires forall k :: 0 <= k < |ys| ==> lo <= ys[k] <= hi
    ensures forall k :: 0 <= k < |xs + ys| ==> lo <= (xs + ys)[k] <= hi
  {
    var p := xs + ys;
    assert forall k :: |xs| <= k < |p| ==> p[k] == ys[k - |xs|];
  }

  /** Up to and including the `max_zoom` probe: two to five zooms, from
      `min_zoom` to `max_zoom`. */
  lemma BeforeShape(minZoom: int, maxZoom: int, ok: int -> bool, up: seq<int>)
    requires minZoom <= maxZoom
    requires up == if ok(minZoom) then [] else Ascend(minZoom + 1, Min(minZoom + 4, maxZoom), ok, {minZoom})
    ensures var before := [minZoom] + up + [maxZoom];
      && 2 <= |before| <= 5 && before[0] == minZoom && before[|before| - 1] == maxZoom
      && forall k :: 0 <= k < |before| ==> minZoom <= before[k] <= maxZoom
  {
    if !ok(minZoom) {
      AscendShape(minZoom + 1, Min(minZoom + 4, maxZoom), ok, {minZoom});
    }
    var before := [minZoom] + up + [maxZoom];
    assert forall k :: 1 <= k < |before| - 1 ==> before[k] == up[k - 1];
  }

  /** When the top of the range is already tested, at most `z - lo - 1`
      zooms are probed on the way down. */
  lemma DescendBelowTop(z: int, lo: int, ok: int -> bool, tested: set<int>)
    requires z in tested
    ensures |Descend(z, lo, ok, tested)| <= Max(0, z - lo - 1)
  {
    if z > lo {
      DescendLength(z - 1, lo, ok, tested);
    }
  }

  lemma {:induction false} DescendLength(z: int, lo: int, ok: int -> bool, tested: set<int>)
    ensures |Descend(z, lo, ok, tested)| <= Max(0, z - lo)
    decreases z - lo
  {
    if z > lo {
      if z in tested {
        DescendLength(z - 1, lo, ok, tested);
      } else if !ok(z) {
        DescendLength(z - 1, lo, ok, tested + {z});
      }
    }
  }

  /** Two runs without repeats, the second avoiding the first, make a run
      without repeats. */
  lemma ConcatDistinct(xs: seq<int>, ys: seq<int>)
    requires forall i, j :: 0 <= i < j < |xs| ==> xs[i] != xs[j]
    requires forall i, j :: 0 <= i < j < |ys| ==> ys[i] != ys[j]
    requires forall k :: 0 <= k < |ys| ==> ys[k] !in Elems(xs)
    ensures forall i, j :: 0 <= i < j < |xs + ys| ==> (xs + ys)[i] != (xs + ys)[j]
  {
    var p := xs + ys;
    forall i, j | 0 <= i < j < |p|
      ensures p[i] != p[j]
    {
      if j < |xs| {
        assert p[i] == xs[i] && p[j] == xs[j];
      } else if i < |xs| {
        assert p[i] == xs[i] && xs[i] in Elems(xs);
        assert p[j] == ys[j - |xs|];
      } else {
        assert p[i] == ys[i - |xs|] && p[j] == ys[j - |xs|];
      }
    }
  }

  /** Up to and including the `max_zoom` probe the zooms only increase. */
  lemma BeforeIncreasing(minZoom: int, maxZoom: int, ok: int -> bool, up: seq<int>)
    requires minZoom < maxZoom
    requires up == if ok(minZoom) then [] else Ascend(minZoom + 1, Min(minZoom + 4, maxZoom), ok, {minZoom})
    ensures var before := [minZoom] + up + [maxZoom];
      forall i, j :: 0 <= i < j < |before| ==> before[i] < before[j]
  {
    var hi := Min(minZoom + 4, maxZoom);
    if !ok(minZoom) {
      AscendShape(minZoom + 1, hi, ok, {minZoom});
    }
    var before := [minZoom] + up + [maxZoom];
    assert forall k :: 0 <= k < |before| - 1 ==> before[k] == minZoom + k < maxZoom;
  }

  /** With `min_zoom < max_zoom` no zoom is probed twice. */
  lemma ProbesDistinct(minZoom: int, maxZoom: int, ok: int -> bool)
    requires minZoom < maxZoom
    ensures var p := Probes(minZoom, maxZoom, ok);
      forall i, j :: 0 <= i < j < |p| ==> p[i] != p[j]
  {
    var up := if ok(minZoom) then [] else Ascend(minZoom + 1, Min(minZoom + 4, maxZoom), ok, {minZoom});
    var before := [minZoom] + up + [maxZoom];
    BeforeIncreasing(minZoom, maxZoom, ok, up);
    var lo := Max(maxZoom - 4, minZoom);
    DescendFresh(maxZoom, lo, ok, Elems(before));
    DescendDecreasing(maxZoom, lo, ok, Elems(before));
    var down := if ok(maxZoom) then [] else Descend(maxZoom, lo, ok, Elems(before));
    ConcatDistinct(before, down);
    assert Probes(minZoom, maxZoom, ok) == before + down;
  }

  /** The unguarded `max_zoom` probe: with `min_zoom == max_zoom` the one
      zoom is probed twice, so it is listed twice as a success or twice as
      a failure. */
  lemma SameBoundsProbeTwice(zoom: int, ok: int -> bool)
    ensures Probes(zoom, zoom, ok) == [zoom, zoom]
    ensures ok(zoom) ==> Passing([zoom, zoom], ok) == [zoom, zoom] && Failing([zoom, zoom], ok) == []
    ensures !ok(zoom) ==> Failing([zoom, zoom], ok) == [zoom, zoom] && Passing([zoom, zoom], ok) == []
  {
    assert [zoom, zoom][..1] == [zoom] && [zoom][..0] == [];
    assert Passing([zoom], ok) == (if ok(zoom) then [zoom] else []);
    assert Failing([zoom], ok) == (if ok(zoom) then [] else [zoom]);
    assert Descend(zoom, zoom, ok, {zoom}) == [];
  }

  /** With the bounds the wrong way round, both loops have empty ranges:
      only `min_zoom` and then `max_zoom` are probed. */
  lemma InvertedBoundsProbeEnds(minZoom: int, maxZoom: int, ok: int -> bool)
    requires maxZoom < minZoom
    ensures Probes(minZoom, maxZoom, ok) == [minZoom, maxZoom]
  {
    assert Ascend(minZoom + 1, maxZoom, ok, {minZoom}) == [];
    assert Descend(maxZoom, minZoom, ok, Elems([minZoom, maxZoom])) == [];
  }

  /** With zooms 5 to 10 where 5 and 6 fail and 7 and 10 answer, the search
      probes 5, 6 and 7 on the way up and then 10. */
  lemma FiveToTen(ok: int -> bool)
    requires !ok(5) && !ok(6) && ok(7) && ok(10)
    ensures Probes(5, 10, ok) == [5, 6, 7, 10]
  {
    assert Ascend(7, 9, ok, {5, 6}) == [7];
    assert {5} + {6} == {5, 6};
    assert Ascend(6, 9, ok, {5}) == [6, 7];
  }

  /** … and reports 5 and 6 as unreachable, having tested 5, 6, 7 and 10. */
  lemma FiveToTenReport(ok: int -> bool)
    requires !ok(5) && !ok(6) && ok(7) && ok(10)
    ensures Classify(Elems([5, 6, 7, 10]), Passing([5, 6, 7, 10], ok), Failing([5, 6, 7, 10], ok))
      == Errors([ZoomsNotReachable(multiset{5, 6}, {5, 6, 7, 10})])
  {
    FourProbes(5, 6, 7, 10, ok);
  }

  /** Two failing probes followed by two answering ones. */
  lemma FourProbes(a: int, b: int, c: int, d: int, ok: int -> bool)
    requires !ok(a) && !ok(b) && ok(c) && ok(d)
    ensures Failing([a, b, c, d], ok) == [a, b] && Passing([a, b, c, d], ok) == [c, d]
    ensures multiset(Failing([a, b, c, d], ok)) == multiset{a, b}
    ensures Elems([a, b, c, d]) == {a, b, c, d}
  {
    var p := [a, b, c, d];
    assert p[..3] == [a, b, c] && [a, b, c][..2] == [a, b] && [a, b][..1] == [a] && [a][..0] == [];
    assert Failing([a], ok) == [a] && Passing([a], ok) == [];
    assert Failing([a, b], ok) == [a] + [b] == [a, b] && Passing([a, b], ok) == [];
    assert Failing([a, b, c], ok) == [a, b] && Passing([a, b, c], ok) == [c];
    assert Passing(p, ok) == [c] + [d] == [c, d];
    assert multiset([a, b]) == multiset{a, b};
    assert forall z :: z in p <==> z == a || z == b || z == c || z == d;
  }

  /** Which probes answered. */
  lemma {:induction false} PassingMeaning(zooms: seq<int>, ok: int -> bool)
    ensures forall z :: z in Passing(zooms, ok) <==> z in zooms && ok(z)
    ensures Passing(zooms, ok) == [] <==> forall k :: 0 <= k < |zooms| ==> !ok(zooms[k])
    decreases |zooms|
  {
    if zooms != [] {
      var k := |zooms| - 1;
      PassingMeaning(zooms[..k], ok);
      assert zooms == zooms[..k] + [zooms[k]];
      assert forall j :: 0 <= j < k ==> zooms[..k][j] == zooms[j];
    }
  }

  /** Which probes did not answer. */
  lemma {:induction false} FailingMeaning(zooms: seq<int>, ok: int -> bool)
    ensures forall z :: z in Failing(zooms, ok) <==> z in zooms && !ok(z)
    ensures Failing(zooms, ok) == [] <==> forall k :: 0 <= k < |zooms| ==> ok(zooms[k])
    decreases |zooms|
  {
    if zooms != [] {
      var k := |zooms| - 1;
      FailingMeaning(zooms[..k], ok);
      assert zooms == zooms[..k] + [zooms[k]];
      assert forall j :: 0 <= j < k ==> zooms[..k][j] == zooms[j];
    }
  }

  /** For a non-empty probe sequence: good exactly when every probe
      answered. */
  lemma ClassifyGood(zooms: seq<int>, ok: int -> bool)
    requires |zooms| > 0
    ensures (forall k :: 0 <= k < |zooms| ==> ok(zooms[k]))
      <==> Classify(Elems(zooms), Passing(zooms, ok), Failing(zooms, ok)) == Report([ZoomsReachable(Elems(zooms))], [], [])
  {
    PassingMeaning(zooms, ok);
    FailingMeaning(zooms, ok);
    ZeroProbeLeft(zooms, ok);
  }

  /** "No zoom level reachable" exactly when no probe answered. */
  lemma ClassifyNone(zooms: seq<int>, ok: int -> bool)
    requires |zooms| > 0
    ensures (forall k :: 0 <= k < |zooms| ==> !ok(zooms[k]))
      <==> Classify(Elems(zooms), Passing(zooms, ok), Failing(zooms, ok)) == Errors([NoZoomReachable(Elems(zooms))])
  {
    PassingMeaning(zooms, ok);
    FailingMeaning(zooms, ok);
    ZeroProbeLeft(zooms, ok);
  }

  /** No probe is left out: each answered or it did not. */
  lemma ZeroProbeLeft(zooms: seq<int>, ok: int -> bool)
    ensures forall k :: 0 <= k < |zooms| ==> zooms[k] in Passing(zooms, ok) || zooms[k] in Failing(zooms, ok)
  {
    PassingMeaning(zooms, ok);
    FailingMeaning(zooms, ok);
    forall k | 0 <= k < |zooms|
      ensures zooms[k] in Passing(zooms, ok) || zooms[k] in Failing(zooms, ok)
    {
      var z := zooms[k];
      assert z in zooms;
      if ok(z) {
        assert z in Passing(zooms, ok);
      } else {
        assert z in Failing(zooms, ok);
      }
    }
  }

  /** The "not reachable" error names exactly the zooms that failed. */
  lemma ClassifyPartial(zooms: seq<int>, ok: int -> bool)
    ensures var report := Classify(Elems(zooms), Passing(zooms, ok), Failing(zooms, ok));
      report.errors != [] && report.errors[0].ZoomsNotReachable? ==>
        forall z :: z in report.errors[0].failures <==> z in zooms && !ok(z)
  {
    FailingMeaning(zooms, ok);
    var failures := Failing(zooms, ok);
    assert forall z :: z in multiset(failures) <==> z in failures;
  }

  // ---------------------------------------------------------------------
  // The whole check
  // ---------------------------------------------------------------------

  /** What one `check_tms` call appends, and the zooms it probed in order. */
  datatype TmsOutcome = TmsOutcome(report: Report, probed: seq<int>)

  /** `check_tms(source)`, with `tileAt` the tile of the representative
      point per zoom and `reachable` standing for `test_url`. */
  function TmsRun(src: TmsSource, tileAt: int -> Tile, reachable: TileQuery -> bool): TmsOutcome
  {
    if Contains(src.url, "{z}") then TmsOutcome(Errors([ZoomTokenZ]), [])
    else if Contains(src.url, "{apikey}") then TmsOutcome(Report([], [ApiKeyRequired], []), [])
    else
      var ok := Reachability(RewriteSwitch(src.url), tileAt, reachable);
      var probed := Probes(MinZoom(src), MaxZoom(src), ok);
      TmsOutcome(Classify(Elems(probed), Passing(probed, ok), Failing(probed, ok)), probed)
  }

  /** Every call appends exactly one message, and probes nothing exactly
      when the URL has `{z}` or `{apikey}`. */
  lemma TmsRunOneMessage(src: TmsSource, tileAt: int -> Tile, reachable: TileQuery -> bool)
    ensures var out := TmsRun(src, tileAt, reachable);
      && |out.report.good| + |out.report.warnings| + |out.report.errors| == 1
      && (out.probed == [] <==> Contains(src.url, "{z}") || Contains(src.url, "{apikey}"))
  {
    if !Contains(src.url, "{z}") && !Contains(src.url, "{apikey}") {
      var ok := Reachability(RewriteSwitch(src.url), tileAt, reachable);
      var probed := Probes(MinZoom(src), MaxZoom(src), ok);
      assert |probed| >= 2;
    }
  }

  /** Past the token checks and with `min_zoom <= max_zoom`: at most eight
      zooms within the bounds are probed, `min_zoom` first and `max_zoom`
      among them; the source is good exactly when every probe answered and
      "no zoom level reachable" exactly when none did. */
  lemma TmsRunProbed(src: TmsSource, tileAt: int -> Tile, reachable: TileQuery -> bool)
    requires !Contains(src.url, "{z}") && !Contains(src.url, "{apikey}")
    requires MinZoom(src) <= MaxZoom(src)
    ensures var out := TmsRun(src, tileAt, reachable);
      var ok := Reachability(RewriteSwitch(src.url), tileAt, reachable);
      && 2 <= |out.probed| <= 8 && out.probed[0] == MinZoom(src) && MaxZoom(src) in out.probed
      && (forall k :: 0 <= k < |out.probed| ==> MinZoom(src) <= out.probed[k] <= MaxZoom(src))
      && (out.report.good != [] <==> forall k :: 0 <= k < |out.probed| ==> ok(out.probed[k]))
      && (out.report.errors == [NoZoomReachable(Elems(out.probed))]
          <==> forall k :: 0 <= k < |out.probed| ==> !ok(out.probed[k]))
  {
    var ok := Reachability(RewriteSwitch(src.url), tileAt, reachable);
    var probed := Probes(MinZoom(src), MaxZoom(src), ok);
    ProbesBounds(MinZoom(src), MaxZoom(src), ok);
    ClassifyGood(probed, ok);
    ClassifyNone(probed, ok);
  }

  /** One step of the ascending loop, seen from the zooms probed so far. */
  lemma AscendStep(zoom: int, hi: int, ok: int -> bool, tested: set<int>, done: seq<int>)
    requires zoom < hi
    ensures zoom in tested ==> done + Ascend(zoom, hi, ok, tested) == done + Ascend(zoom + 1, hi, ok, tested)
    ensures zoom !in tested && ok(zoom) ==> done + Ascend(zoom, hi, ok, tested) == done + [zoom]
    ensures zoom !in tested && !ok(zoom) ==>
      done + Ascend(zoom, hi, ok, tested) == (done + [zoom]) + Ascend(zoom + 1, hi, ok, tested + {zoom})
  {
    var rest := Ascend(zoom + 1, hi, ok, tested + {zoom});
    assert done + ([zoom] + rest) == (done + [zoom]) + rest;
  }

  /** One step of the descending loop, seen from the zooms probed so far. */
  lemma DescendStep(zoom: int, lo: int, ok: int -> bool, tested: set<int>, done: seq<int>)
    requires zoom > lo
    ensures zoom in tested ==> done + Descend(zoom, lo, ok, tested) == done + Descend(zoom - 1, lo, ok, tested)
    ensures zoom !in tested && ok(zoom) ==> done + Descend(zoom, lo, ok, tested) == done + [zoom]
    ensures zoom !in tested && !ok(zoom) ==>
      done + Descend(zoom, lo, ok, tested) == (done + [zoom]) + Descend(zoom - 1, lo, ok, tested + {zoom})
  {
    var rest := Descend(zoom - 1, lo, ok, tested + {zoom});
    assert done + ([zoom] + rest) == (done + [zoom]) + rest;
  }

  /** The state `test_zoom` updates: `tested_zooms`, `zoom_success` and
      `zoom_failures`, and (as a ghost) the zooms probed so far, in order. */
  class ZoomProbe {
    const template: Template
    const tileAt: int -> Tile
    const reachable: TileQuery -> bool
    var tested: set<int>
    var success: seq<int>
    var failures: seq<int>
    ghost var probed: seq<int>

    /** The three lists are what the probes so far give. */
    ghost predicate Valid()
      reads this
    {
      var ok := Reachability(template, tileAt, reachable);
      tested == Elems(probed) && success == Passing(probed, ok) && failures == Failing(probed, ok)
    }

    constructor (template: Template, tileAt: int -> Tile, reachable: TileQuery -> bool)
      ensures this.template == template && this.tileAt == tileAt && this.reachable == reachable
      ensures probed == [] && Valid()
    {
      this.template, this.tileAt, this.reachable := template, tileAt, reachable;
      tested, success, failures := {}, [], [];
      probed := [];
    }

    /** `test_zoom(zoom)`. */
    method TestZoom(zoom: int) returns (passed: bool)
      requires Valid()
      modifies this
      ensures passed == Reachability(template, tileAt, reachable)(zoom)
      ensures tested == old(tested) + {zoom}
      ensures success == old(success) + (if passed then [zoom] else [])
      ensures failures == old(failures) + (if passed then [] else [zoom])
      ensures probed == old(probed) + [zoom] && Valid()
    {
      tested := tested + {zoom};
      var tile := tileAt(zoom);
      var convention := ConventionOf(template.url);
      var y := YValue(convention, zoom, tile.row);
      passed := reachable(TileQuery(template.url, convention, y, tile.x, zoom, template.switch));
      assert QueryFor(template, tileAt, zoom) == TileQuery(template.url, convention, y, tile.x, zoom, template.switch);
      assert passed == Reachability(template, tileAt, reachable)(zoom);
      if passed {
        success := success + [zoom];
      } else {
        failures := failures + [zoom];
      }
      ghost var before := probed;
      probed := probed + [zoom];
      assert probed[..|probed| - 1] == before;
    }

    /** One pass of the ascending loop: test `zoom` unless it was tested. */
    method StepUp(zoom: int, hi: int) returns (found: bool)
      requires Valid() && zoom < hi
      modifies this
      ensures Valid()
      ensures old(probed) + Ascend(zoom, hi, Reachability(template, tileAt, reachable), old(tested))
        == if found then probed else probed + Ascend(zoom + 1, hi, Reachability(template, tileAt, reachable), tested)
    {
      AscendStep(zoom, hi, Reachability(template, tileAt, reachable), tested, probed);
      found := false;
      if zoom !in tested {
        found := TestZoom(zoom);
      }
    }

    /** One pass of the descending loop: test `zoom` unless it was tested. */
    method StepDown(zoom: int, lo: int) returns (found: bool)
      requires Valid() && zoom > lo
      modifies this
      ensures Valid()
      ensures old(probed) + Descend(zoom, lo, Reachability(template, tileAt, reachable), old(tested))
        == if found then probed else probed + Descend(zoom - 1, lo, Reachability(template, tileAt, reachable), tested)
    {
      DescendStep(zoom, lo, Reachability(template, tileAt, reachable), tested, probed);
      found := false;
      if zoom !in tested {
        found := TestZoom(zoom);
      }
    }

    /** The ascending search after `min_zoom` failed: `range(start, hi)`. */
    method ProbeUp(start: int, hi: int)
      requires Valid()
      modifies this
      ensures probed == old(probed) + Ascend(start, hi, Reachability(template, tileAt, reachable), old(tested))
      ensures Valid()
    {
      ghost var goal := old(probed) + Ascend(start, hi, Reachability(template, tileAt, reachable), tested);
      var zoom := start;
      var found := false;
      while zoom < hi && !found
        invariant Valid()
        invariant goal == if found then probed else probed + Ascend(zoom, hi, Reachability(template, tileAt, reachable), tested)
        decreases hi - zoom
      {
        found := StepUp(zoom, hi);
        zoom := zoom + 1;
      }
    }

    /** The descending search after `max_zoom` failed: `range(top, lo, -1)`. */
    method ProbeDown(top: int, lo: int)
      requires Valid()
      modifies this
      ensures probed == old(probed) + Descend(top, lo, Reachability(template, tileAt, reachable), old(tested))
      ensures Valid()
    {
      ghost var goal := old(probed) + Descend(top, lo, Reachability(template, tileAt, reachable), tested);
      var zoom := top;
      var found := false;
      while zoom > lo && !found
        invariant Valid()
        invariant goal == if found then probed else probed + Descend(zoom, lo, Reachability(template, tileAt, reachable), tested)
        decreases zoom - lo
      {
        found := StepDown(zoom, lo);
        zoom := zoom - 1;
      }
    }

    /** Lines 435-448. */
    method ProbeZooms(minZoom: int, maxZoom: int)
      requires Valid() && probed == []
      modifies this
      ensures probed == Probes(minZoom, maxZoom, Reachability(template, tileAt, reachable))
      ensures Valid()
    {
      ghost var ok := Reachability(template, tileAt, reachable);
      var passed := TestZoom(minZoom);
      assert tested == {minZoom};
      if !passed {
        ProbeUp(minZoom + 1, Min(minZoom + 4, maxZoom));
      }
      ghost var up := if ok(minZoom) then [] else Ascend(minZoom + 1, Min(minZoom + 4, maxZoom), ok, {minZoom});
      assert probed == [minZoom] + up;
      passed := TestZoom(maxZoom);
      assert tested == Elems([minZoom] + up + [maxZoom]);
      if !passed {
        ProbeDown(maxZoom, Max(maxZoom - 4, minZoom));
      }
    }
  }

  /** `check_tms`. */
  method CheckTms(src: TmsSource, tileAt: int -> Tile, reachable: TileQuery -> bool, sink: MessageSink)
    modifies sink
    ensures sink.Contents() == old(sink.Contents()).Then(TmsRun(src, tileAt, reachable).report)
  {
    if Contains(src.url, "{z}") {
      sink.Error(ZoomTokenZ);
      return;
    }
    if Contains(src.url, "{apikey}") {
      sink.Warn(ApiKeyRequired);
      return;
    }
    var template := RewriteSwitch(src.url);
    var minZoom := if src.minZoom.Some? then src.minZoom.value else 0;
    var maxZoom := if src.maxZoom.Some? then src.maxZoom.value else 22;
    var probe := new ZoomProbe(template, tileAt, reachable);
    probe.ProbeZooms(minZoom, maxZoom);
    if |probe.failures| == 0 && |probe.success| > 0 {
      sink.Good(ZoomsReachable(probe.tested));
    } else if |probe.failures| > 0 && |probe.success| > 0 {
      sink.Error(ZoomsNotReachable(multiset(probe.failures), probe.tested));
    } else {
      sink.Error(NoZoomReachable(probe.tested));
    }
  }
}
