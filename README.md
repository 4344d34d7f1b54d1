# Strict checks for Editor Layer Index sources

A Dafny model of the checking core of `scripts/strict_check.py`. This is the
script that the OpenStreetMap Editor Layer Index runs on newly added imagery
sources. For each source it fills three lists of good, warning and error
messages. The model covers these parts of the script:

- `dict_raise_on_duplicates`: the JSON object hook that refuses a repeated
  key (`duplicates.dfy`).
- `parse_wms` with its nested `parse_layer` (`capabilities.dfy`, with
  properties in `capability_facts.dfy`). This is the rudimentary reader of a
  WMS GetCapabilities document. Its input is an already-parsed element tree.
  It strips tag namespaces and checks the root element. It then walks the
  layer tree: each layer inherits its parent's CRS set and style map, and
  every named layer is registered. Finally it collects the GetMap formats.
  The reader is an imperative class, `LayerRegistry`. Its mutable fields are
  the `layers` dict and the one default CRS set that all top-level layers of
  a document share.
- `check_wms` and `check_wms_endpoint` (`wms_check.dfy`). These cover:
  - the URL template checks;
  - the case-folded query parameters;
  - the mandatory GetMap parameters with the `crs`/`srs` rule;
  - the `styles` warning;
  - version negotiation over `None, 1.3.0, 1.1.1, 1.1.0, 1.0.0`, stopping
    at the first parsed answer;
  - the GetCapabilities query;
  - the layer, style and CRS cross-checks;
  - the string-ordered version warning;
  - the format and jpeg checks.
- `check_tms` with its nested `test_zoom` (`tms_check.dfy`). These cover:
  - the `{z}` and `{apikey}` early exits;
  - the `{switch:…}` rewrite;
  - the default zoom bounds 0 and 22;
  - the three y conventions;
  - the adaptive probe search over half-open ranges, with the unguarded
    `max_zoom` probe;
  - the good / partial / none classification.

  The probing state (`tested_zooms`, `zoom_success`, `zoom_failures`) is a
  class, `ZoomProbe`.

Shared pieces:

- `messages.dfy` holds the message kinds. It also holds `MessageSink`, the
  three append-only lists a checker writes to.
- `strings.dfy` holds the Python string operations the script uses: `in`,
  `find`, `split`, `join`, `upper`/`lower`, `replace`, `<` and
  `rpartition('}')`.

Every I/O step is a parameter of the model:

- the HTTP fetch is `fetch` / `fetchUrl`, from a query to a transport error
  or a parsed document;
- `validators.url` is `urlValid`;
- the tile of the representative point per zoom is `tileAt`;
- `test_url` is `reachable`.

Messages are the datatype `Msg`, not rendered text. Several of them are
built by joining Python sets, so their text order is not fixed; the datatype
keeps exactly the data they carry.

The model follows the code in the following places, which a reader might
expect to behave otherwise:

- The ascending probe range is `range(min_zoom + 1, min(min_zoom + 4, max_zoom))`, so
  `min(min_zoom + 4, max_zoom)` itself is never reached by that loop.
- `max_zoom` is always probed, even when it was tested already. With
  `min_zoom == max_zoom` the same zoom is probed twice (`SameBoundsProbeTwice`).
  Consequently, if zooms 5 and 6 fail and 7 answers, bounds 5..10 still probe
  10: the probes are `[5, 6, 7, 10]` (`FiveToTen`).
- A style parameter is exempt when it is `default`, empty, or exactly
  `len(layers)` commas. That is one comma more than separates the layers.
  Both spellings are silent (`CommasBetweenLayers`, `CommaPerLayer`).
- All top-level layers share the default `crs=set()` object of
  `parse_layer`. Every CRS a top-level layer declares therefore ends up in
  every top-level layer's set (`TopLevelCrsLeaks`, `SiblingCrsLeak`).
- A GetMap `Format` element without text makes `"', '".join` raise
  `TypeError`. Nothing in `check_wms` catches it, so the run is `crashed`.
- The `switch` match is `re.search(r'switch:?([^}]*)')`, which starts at
  the first `switch` anywhere in the URL. The rewrite lemma is therefore
  stated for templates with no `switch` before the placeholder.

## Model

| member | source | states |
|---|---|---|
| Duplicates.DictRaiseOnDuplicates | scripts/strict_check.py:39-47 | the loop returns the dictionary of the pairs, or fails with the first key met a second time |
| Duplicates.DecodeSucceeds | scripts/strict_check.py:41-47 | the hook succeeds exactly when no two pairs share a key |
| Duplicates.DecodeContents | scripts/strict_check.py:41-47 | with distinct keys the dictionary has exactly the pairs' keys and binds each key to its own value |
| Duplicates.DecodeFailure | scripts/strict_check.py:42-44 | the key raised is the key of the first position whose key already occurred earlier |
| Duplicates.FirstRepeatMeaning | scripts/strict_check.py:42-44 | the first repeat is a position whose key occurs before it, and the pairs before it have distinct keys; with no repeat all keys are distinct |
| Duplicates.BuildKeys | scripts/strict_check.py:46 | the dictionary built has exactly the keys of the pairs |
| Strings.LocalNameShape | scripts/strict_check.py:92 | `tag.rpartition('}')[-1]` is the suffix of the tag after its last `}`, and holds no `}` |
| Strings.LocalNameIdempotent | scripts/strict_check.py:92-97 | stripping the namespace of an already stripped tag changes nothing |
| Capabilities.ParseWms | scripts/strict_check.py:81-154 | the reader returns exactly what `parse_wms` returns or raises for the document (`CapabilitiesOf`) |
| Capabilities.ReadCrs | scripts/strict_check.py:119-122 | the CRS/SRS loop is `CrsFrom`: upper-cased texts, failing at the first element without text |
| Capabilities.ReadStyles | scripts/strict_check.py:123-131 | the style loop is `StylesFrom`: styles registered by name over the inherited map, failing on a style without `Name` |
| Capabilities.ReadFormats | scripts/strict_check.py:149-152 | the formats are the texts of the GetMap `Format` elements in document order |
| Capabilities.TextsOf | scripts/strict_check.py:149-152 | one text per element, in the same order |
| Capabilities.Resolve | scripts/strict_check.py:111-146 | the finished layer dict has the registered names, and a layer pointing at the shared default set sees its final contents |
| Capabilities.LayerRegistry.constructor | scripts/strict_check.py:109-111 | a fresh registry has no layers and an empty shared default CRS set |
| Capabilities.LayerRegistry.ParseLayer | scripts/strict_check.py:111-139 | one `parse_layer` call changes the registry and the shared set exactly as `LayerSpec` says, or fails with its exception |
| Capabilities.LayerRegistry.ParseSublayers | scripts/strict_check.py:136-139 | the loop over the `Layer` children changes the state as `SublayersFrom` says |
| Capabilities.LayerRegistry.ParseChild | scripts/strict_check.py:136-139 | one child step: a non-`Layer` child is skipped, a `Layer` child is parsed with a copy of the parent's codes |
| Capabilities.LayerRegistry.ParseTopLayers | scripts/strict_check.py:142-144 | the top-level loop changes the state as `TopFrom` says |
| CapabilityFacts.RootErrors | scripts/strict_check.py:89-105 | unparsable XML, a service-exception root, a non-capabilities root and a root without `version` each fail with their own error, in that order, and only then |
| CapabilityFacts.LayerSpecFault | scripts/strict_check.py:111-139 | reading a layer can only fail on a CRS without text or a style without a name |
| CapabilityFacts.TopFromFault | scripts/strict_check.py:142-144 | reading the top-level layers can only fail with one of those two errors |
| CapabilityFacts.ParsedRoot | scripts/strict_check.py:97-154 | a successful parse has a capabilities root with a `version`, and reports that version and the formats |
| CapabilityFacts.RootNamespaceIgnored | scripts/strict_check.py:91-97 | a `{namespace}` prefix on the root tag does not change the result |
| CapabilityFacts.CrsFromMeaning | scripts/strict_check.py:119-122 | the CRS loop succeeds iff every CRS/SRS element has text, and then adds exactly their upper-cased texts |
| CapabilityFacts.StylesSucceed | scripts/strict_check.py:123-131 | the style loop succeeds iff every `Style` has a `Name` |
| CapabilityFacts.StylesKeys | scripts/strict_check.py:113-131 | the style map is the inherited names plus the declared names, never fewer |
| CapabilityFacts.StylesKeepInherited | scripts/strict_check.py:113-114 | an inherited style that is not redeclared keeps its record |
| CapabilityFacts.StylesLastWins | scripts/strict_check.py:123-131 | a style name declared more than once keeps its last declaration: the `Style` element with that name that no later one redeclares gives the record |
| CapabilityFacts.LayerInherits | scripts/strict_check.py:111-139 | a nested layer and all its descendants advertise every CRS and style of the parent, and the shared set is untouched (the exact set of a layer's own record is `OwnRecordKept`) |
| CapabilityFacts.SublayersInherit | scripts/strict_check.py:136-139 | every layer registered by the child loop inherits the parent's codes and styles |
| CapabilityFacts.InheritsTransitive | scripts/strict_check.py:136-139 | inheritance carries across successive steps |
| CapabilityFacts.LayerRegisters | scripts/strict_check.py:111-139 | reading a layer registers exactly the named layers of its subtree: the keys become the old keys plus those names, so a layer without `Name` is never registered, and every other record is unchanged |
| CapabilityFacts.SublayersRegister | scripts/strict_check.py:136-139 | the child loop registers exactly the named layers below the `Layer` children and leaves every other record unchanged |
| CapabilityFacts.OwnRecordKept | scripts/strict_check.py:112-134 | when no layer below carries the same name, the record kept is the layer's own: its `Name`, `Title`, `Abstract` and styles, and for a nested layer a private CRS set of exactly the parent's codes plus its own upper-cased CRS/SRS texts |
| CapabilityFacts.NestedRecordsIndependent | scripts/strict_check.py:111-139 | reading a nested layer succeeds or fails regardless of the earlier registrations, and gives the same records for its subtree's names |
| CapabilityFacts.SublayersIndependent | scripts/strict_check.py:136-139 | the same for the child loop |
| CapabilityFacts.LaterSiblingWins | scripts/strict_check.py:133-139 | a name registered by an earlier sibling and again by a later one keeps the later sibling's record, exactly as that sibling's subtree registers it on its own |
| CapabilityFacts.TopFromRegisters | scripts/strict_check.py:142-144 | the top-level loop registers exactly the named layers of the whole tree and leaves every other record unchanged |
| CapabilityFacts.ParsedLayerNames | scripts/strict_check.py:109-146 | the returned layer dict is keyed by exactly the names of the named layers below `Capability` |
| CapabilityFacts.TopFromShared | scripts/strict_check.py:111-144 | after the top-level loop the shared default set holds exactly the CRS codes the top-level layers declare |
| CapabilityFacts.TopLevelCrsLeaks | scripts/strict_check.py:111-146 | every top-level layer ends up advertising the CRS codes of all top-level layers together |
| CapabilityExamples.SiblingCrsLeak | scripts/strict_check.py:111-146 | two sibling top-level layers with one code each both advertise both codes |
| Messages.MessageSink.constructor | scripts/strict_check.py:157 | the three lists start empty |
| Messages.MessageSink.Good | scripts/strict_check.py:452 | `good_msgs.append(m)` adds `m` to the good list and changes nothing else |
| Messages.MessageSink.Warn | scripts/strict_check.py:205 | `warning_msgs.append(m)` adds `m` to the warning list and changes nothing else |
| Messages.MessageSink.Error | scripts/strict_check.py:175 | `error_msgs.append(m)` adds `m` to the error list and changes nothing else |
| Strings.Upper | scripts/strict_check.py:122 | one upper-cased character per character |
| Strings.Lower | scripts/strict_check.py:186 | one lower-cased character per character |
| Strings.RemoveBraces | scripts/strict_check.py:174 | the URL without braces has no brace and keeps every other character |
| WmsCheck.Absent | scripts/strict_check.py:177-178 | the missing placeholders are exactly those that do not occur in the URL |
| WmsCheck.UrlErrorsMeaning | scripts/strict_check.py:173-180 | the URL error is given iff the brace-free URL is not valid; the placeholder error iff some placeholder is absent |
| WmsCheck.CheckUrl | scripts/strict_check.py:173-180 | appends exactly the URL and placeholder errors |
| WmsCheck.BuildArgs | scripts/strict_check.py:182-186 | the parameter loop builds `ArgsOf` the query |
| WmsCheck.ArgsKeys | scripts/strict_check.py:185-186 | the parameter keys are exactly the lower-cased query keys |
| WmsCheck.ArgsValue | scripts/strict_check.py:185-186 | a key maps to the value of its last occurrence, whatever its case |
| WmsCheck.ArgsOfSnoc | scripts/strict_check.py:185-186 | a later pair overwrites the lower-cased key |
| WmsCheck.FindMissingParameters | scripts/strict_check.py:189-198 | the loop computes the set of missing mandatory parameters |
| WmsCheck.MissingOfMeaning | scripts/strict_check.py:189-199 | nothing is missing iff all seven GetMap parameters are present, `crs` is present for version `1.3.0` and `srs` for any other version; `crs` and `srs` are never both missing |
| WmsCheck.MissingMember | scripts/strict_check.py:189-198 | each absent required parameter is reported missing |
| WmsCheck.MissingParametersStop | scripts/strict_check.py:199-202 | with something missing, exactly one combined error follows the URL errors, with no warning and no request sent |
| WmsCheck.NoMissingParametersError | scripts/strict_check.py:199-202 | with nothing missing, no missing-parameter error is ever given |
| WmsCheck.RunPastParameters | scripts/strict_check.py:199-205 | with nothing missing, the run is the URL errors followed by the negotiation and its checks |
| WmsCheck.StylesWarning | scripts/strict_check.py:204-205 | past the mandatory parameters, the styles warning is given iff `styles` is absent |
| WmsCheck.NegotiatedStyles | scripts/strict_check.py:204-205 | the same, for the part after the parameter check |
| WmsCheck.CapabilitiesQueryRoundTrip | scripts/strict_check.py:207-219 | the GetCapabilities query reads back as service, request, the optional version and the original `map` |
| WmsCheck.BaseQueryArgs | scripts/strict_check.py:209-210 | the base query is service=WMS, request=GetCapabilities |
| WmsCheck.Tries | scripts/strict_check.py:227-234 | five attempts, in the fixed version order, each with its label and query |
| WmsCheck.TryVersion | scripts/strict_check.py:233-241 | one attempt gives the parsed capabilities, or the text of the exception raised |
| WmsCheck.Negotiate | scripts/strict_check.py:225-242 | the loop with `break` computes `NegotiateFrom` over the five attempts |
| WmsCheck.NegotiateStep | scripts/strict_check.py:233-242 | one loop step: a success ends the negotiation, a failure records its message and goes on |
| WmsCheck.NegotiateFromMeaning | scripts/strict_check.py:225-242 | queries are sent in order; with no success every attempt fails and is reported in order; otherwise the capabilities are those of the first success, after exactly the failures before it |
| WmsCheck.FailuresAreAttempts | scripts/strict_check.py:240-241 | every recorded failure is an attempt failure |
| WmsCheck.ThirdVersionAnswers | scripts/strict_check.py:227-239 | if only `1.1.1` answers after two failures, three queries are sent and its capabilities are used |
| WmsCheck.EveryAttemptFails | scripts/strict_check.py:240-242 | when every attempt fails, one failure per attempt is recorded and every query is sent |
| WmsCheck.NegotiationAllFail | scripts/strict_check.py:225-247 | the same for the five version attempts |
| WmsCheck.AllVersionsFail | scripts/strict_check.py:244-247 | when all five fail, exactly their errors are appended in order and checking stops |
| WmsCheck.ReportFailures | scripts/strict_check.py:244-247 | appends the failures in order |
| WmsCheck.Unadvertised | scripts/strict_check.py:250-256 | the unknown layers are exactly the requested names the capabilities lack |
| WmsCheck.FindUnadvertised | scripts/strict_check.py:250-256 | the loop computes them in order |
| WmsCheck.CheckUnknownLayers | scripts/strict_check.py:250-258 | appends the unknown-layers error when there are any |
| WmsCheck.StyleMismatchesMeaning | scripts/strict_check.py:270-272 | an error is given exactly for a non-empty style paired with a known layer that does not advertise it |
| WmsCheck.StyleMismatches | scripts/strict_check.py:270-272 | at most one error per layer |
| WmsCheck.EmptyStylesMatch | scripts/strict_check.py:270-272 | empty styles give no error |
| WmsCheck.CommasBetweenLayers | scripts/strict_check.py:262-272 | one comma fewer than layers is not exempt, but splits into empty styles and gives no error |
| WmsCheck.CommaPerLayer | scripts/strict_check.py:265 | `len(layers)` commas is exempt |
| WmsCheck.ReportStyleMismatches | scripts/strict_check.py:270-272 | the style loop appends exactly those errors |
| WmsCheck.CheckStyles | scripts/strict_check.py:260-272 | appends the style-count or style-support errors |
| WmsCheck.FindUnsupported | scripts/strict_check.py:280-283 | the loop computes the declared projections whose upper-case form a layer lacks |
| WmsCheck.CrsFindingOne | scripts/strict_check.py:279-289 | a layer gives no CRS error iff it is unknown or supports every declared projection |
| WmsCheck.CrsFindingsSilent | scripts/strict_check.py:278-289 | no CRS error at all iff every requested layer passes |
| WmsCheck.CrsFindingsReported | scripts/strict_check.py:278-289 | each CRS error names a non-empty set of declared projections |
| WmsCheck.CrsFindings | scripts/strict_check.py:278-289 | at most one CRS error per requested layer |
| WmsCheck.ReportCrs | scripts/strict_check.py:278-289 | the CRS loop appends exactly those errors |
| WmsCheck.CheckProjections | scripts/strict_check.py:274-289 | appends the missing-projections error or the CRS errors |
| WmsCheck.LayerErrorKinds | scripts/strict_check.py:250-289 | the layer checks give only layer, style and CRS errors |
| WmsCheck.CheckLayers | scripts/strict_check.py:250-289 | appends the unknown-layer, style and CRS errors in that order |
| WmsCheck.CrossChecksVersion | scripts/strict_check.py:291-297 | the version warning is given iff the requested version is less than the server's as a string; a format without text crashes the check |
| Strings.LexLessIrreflexive | scripts/strict_check.py:291 | string `<` is irreflexive |
| Strings.LexLessTransitive | scripts/strict_check.py:291 | string `<` is transitive |
| WmsCheck.FormatStrings | scripts/strict_check.py:297 | the format texts are usable iff none is missing, and are then the texts themselves |
| WmsCheck.JpegInJoinedFormats | scripts/strict_check.py:297-301 | `jpeg` occurs in the joined formats iff it occurs in one of them |
| WmsCheck.CrossChecksFormats | scripts/strict_check.py:296-303 | the format error is given iff the format is not advertised; the jpeg warning iff the format lacks `jpeg` and an advertised one has it |
| WmsCheck.CheckFormats | scripts/strict_check.py:296-303 | appends exactly the format error and the jpeg warning |
| WmsCheck.CheckAgainst | scripts/strict_check.py:249-303 | the checks after a successful negotiation append `CrossChecks` |
| WmsCheck.CheckNegotiated | scripts/strict_check.py:203-303 | the styles warning, then the negotiation, then its failures or the cross-checks |
| WmsCheck.CheckWms | scripts/strict_check.py:157-303 | `check_wms` appends exactly `WmsRun`'s messages and sends exactly its queries |
| WmsCheck.NothingGood | scripts/strict_check.py:157-303 | `check_wms` never appends a good message |
| WmsCheck.EndpointErrors | scripts/strict_check.py:325-333 | the endpoint check gives at most one error, and none iff the fetched document parses |
| WmsCheck.ReadResponse | scripts/strict_check.py:325-333 | a fetched response becomes the parsed capabilities, or the text of the transport or parse exception |
| WmsCheck.CheckWmsEndpoint | scripts/strict_check.py:306-333 | appends exactly that error |
| TmsCheck.UntilBrace | scripts/strict_check.py:397 | `[^}]*` is the longest brace-free prefix |
| TmsCheck.UntilBraceOf | scripts/strict_check.py:397 | the group stops at the placeholder's closing brace |
| Strings.IndexOf | scripts/strict_check.py:397 | the first occurrence of the pattern, or none at all |
| Strings.Split | scripts/strict_check.py:398 | `split` gives at least one piece, none holding the separator |
| Strings.JoinSplit | scripts/strict_check.py:398 | joining the pieces with the separator gives the text back |
| Strings.SplitRepeat | scripts/strict_check.py:265-266 | `n` commas split into `n + 1` empty pieces |
| Strings.ReplaceAllAbsent | scripts/strict_check.py:399 | `replace` leaves a text without the target unchanged |
| TmsCheck.ReplaceAfterPrefix | scripts/strict_check.py:399 | `replace` leaves a prefix in which no match starts untouched |
| TmsCheck.SwitchMatchOf | scripts/strict_check.py:396-398 | the regular expression matches `switch:alternatives` up to the closing brace |
| TmsCheck.SwitchReplaced | scripts/strict_check.py:399 | the placeholder becomes `{switch}` |
| TmsCheck.SwitchRewrite | scripts/strict_check.py:396-400 | `a{switch:alts}b` becomes `a{switch}b` (later copies rewritten too) with `switch` bound to the first alternative |
| TmsCheck.NoSwitch | scripts/strict_check.py:396 | a template without `{switch:` is kept, with no binding |
| TmsCheck.Pow2Step | scripts/strict_check.py:419-422 | `2 ** (n + 1)` is twice `2 ** n`, for negative `n` too |
| TmsCheck.Pow2Whole | scripts/strict_check.py:419 | at non-negative exponents `2 ** n` is a whole number |
| TmsCheck.FlippedRow | scripts/strict_check.py:418-420 | `{-y}` maps a row of the zoom level to a row of it, and flipping twice gives the row back |
| TmsCheck.HalfFlippedShift | scripts/strict_check.py:421-423 | `{!y}` is `{-y}` less half the rows of the zoom level |
| TmsCheck.QueryFor | scripts/strict_check.py:413-428 | the request carries the zoom, the tile column, the `switch` binding, and the row value of the first convention the template uses |
| TmsCheck.ZoomProbe.constructor | scripts/strict_check.py:409-411 | the three lists start empty |
| TmsCheck.ZoomProbe.TestZoom | scripts/strict_check.py:413-434 | a probe adds the zoom to the tested set and to the success or the failure list, according to reachability |
| TmsCheck.ZoomProbe.StepUp | scripts/strict_check.py:438-441 | one step of the ascending loop |
| TmsCheck.ZoomProbe.StepDown | scripts/strict_check.py:445-448 | one step of the descending loop |
| TmsCheck.ZoomProbe.ProbeUp | scripts/strict_check.py:438-441 | the ascending loop probes exactly `Ascend` |
| TmsCheck.ZoomProbe.ProbeDown | scripts/strict_check.py:445-448 | the descending loop probes exactly `Descend` |
| TmsCheck.ZoomProbe.ProbeZooms | scripts/strict_check.py:436-448 | the probe search probes exactly `Probes`, and the lists agree with those probes |
| TmsCheck.AscendStep | scripts/strict_check.py:438-441 | one ascending step skips a tested zoom, stops on success, and goes on after a failure |
| TmsCheck.DescendStep | scripts/strict_check.py:445-448 | one descending step skips a tested zoom, stops on success, and goes on after a failure |
| TmsCheck.AscendShape | scripts/strict_check.py:438-441 | the ascending probes are consecutive zooms within the range, all failing but the last |
| TmsCheck.DescendProbes | scripts/strict_check.py:445-448 | the descending probes are untested zooms within the range, strictly decreasing, all failing but the last |
| TmsCheck.DescendCovers | scripts/strict_check.py:445-448 | every untested zoom of the range is probed, except those below a final success |
| TmsCheck.DescendLength | scripts/strict_check.py:445 | at most `z - lo` descending probes |
| TmsCheck.ProbesBounds | scripts/strict_check.py:436-448 | for `min_zoom <= max_zoom`: between 2 and 8 probes, all within the bounds, `min_zoom` first and `max_zoom` among them |
| TmsCheck.ProbesDistinct | scripts/strict_check.py:436-448 | with `min_zoom < max_zoom` no zoom is probed twice |
| TmsCheck.SameBoundsProbeTwice | scripts/strict_check.py:437-444 | with `min_zoom == max_zoom` the zoom is probed twice and lands twice in one list |
| TmsCheck.InvertedBoundsProbeEnds | scripts/strict_check.py:436-448 | with `min_zoom > max_zoom` both probe loops have empty ranges, so exactly `min_zoom` and then `max_zoom` are probed |
| TmsCheck.FiveToTen | scripts/strict_check.py:436-448 | bounds 5..10 with 5 and 6 failing and 7 answering probe 5, 6, 7 and 10 |
| TmsCheck.FiveToTenReport | scripts/strict_check.py:450-455 | that run reports zooms 5 and 6 not reachable |
| TmsCheck.PassingMeaning | scripts/strict_check.py:429-431 | the success list holds exactly the probed zooms that answered |
| TmsCheck.FailingMeaning | scripts/strict_check.py:432-434 | the failure list holds exactly the probed zooms that did not |
| TmsCheck.ClassifyGood | scripts/strict_check.py:451-452 | the source is good iff every probe answered |
| TmsCheck.ClassifyNone | scripts/strict_check.py:456-457 | "no zoom level reachable" iff no probe answered |
| TmsCheck.ClassifyPartial | scripts/strict_check.py:453-455 | the partial error lists exactly the probed zooms that failed |
| TmsCheck.ZeroProbeLeft | scripts/strict_check.py:429-434 | every probe, at every position, lands in one of the two lists |
| TmsCheck.TmsRunOneMessage | scripts/strict_check.py:389-457 | every call appends exactly one message, and probes nothing iff the URL has `{z}` or `{apikey}` |
| TmsCheck.TmsRunProbed | scripts/strict_check.py:402-457 | for `min_zoom <= max_zoom`, past the token checks, at most eight in-bound probes starting at `min_zoom` and including `max_zoom`; good iff all answered, none reachable iff none did |
| TmsCheck.CheckTms | scripts/strict_check.py:361-457 | `check_tms` appends exactly `TmsRun`'s message |

## Left out

- HTTP is not modelled (`requests.get` in `test_url` and in the two WMS fetches). Every fetch is a parameter, as a function from the query to a response. The model therefore assumes the server answers the same query the same way within one check.
- XML parsing with `ET.iterparse` is not modelled. The input is an element tree, and a document that does not parse is the `Malformed` variant.
- URL handling is not modelled: `urlparse`, `parse_qsl`, `urlencode`, `urlunparse` and `validators.url`. The query is the sequence of pairs `parse_qsl` yields, and URL validity is the parameter `urlValid`. The GetCapabilities query is the sequence of pairs `urlencode` receives, not the encoded string.
- Geometry is not modelled: `mercantile.tile` and the shapely representative point or default point `(6.1, 49.6)`. Both are floating-point computations. The tile per zoom is the parameter `tileAt`.
- `check_wmts` is not modelled. It only calls owslib's `WebMapTileService`, whose code is not part of this model.
- The command-line loop is not modelled: argparse, file checks, JSON loading, jsonschema validation, logging, icon and geometry checks, and the exit code. `dict_raise_on_duplicates` is modelled on its own, as a function of the key/value pairs.
- WmsCheck.StyleExempt: the empty-style exemption (`style == ''`, line 265) and `EmptyStylesMatch` cover inputs the script never produces. `parse_qsl` drops pairs with an empty value by default, so a `STYLES=` parameter never reaches `wms_args`. For the same reason, following the advice of the warning at line 205 ("'STYLES=' can be used") still produces that warning. The model takes the pairs `parse_qsl` yields as its input and does not add this filter.
- Message texts are not modelled; messages are kinds with their data. Rendering a set (the missing parameters, the unsupported CRS codes) has no fixed order in Python.
- TmsCheck.CheckTms: does not model the `Exception: …` error that the catch-all handler at line 459 appends. That handler is reached when `str.format(**parameters)` fails on a template with an unknown placeholder, or when `shape()` rejects a geometry. Both are library behaviour outside the model.
- TmsCheck.QueryFor: does not model the query URL as the string that `str.format` and `str(y)` produce. The request is a structured `TileQuery` (template, convention, y, x, zoom, switch), and the y value is a real number. `2 ** (zoom - 1)` at zoom 0 makes it the float `-0.5 - row` in Python.
- Strings.Upper: `str.upper()` is modelled on ASCII letters only. Other characters are kept unchanged, with no Unicode case mapping.
- Strings.Lower: `str.lower()` is modelled on ASCII letters only. Other characters are kept unchanged, with no Unicode case mapping.
- WmsCheck.CheckWms: `check_wms` ends in an uncaught `TypeError` when an advertised format has no text. The model reports this as the `crashed` result rather than modelling the exception propagating to the caller.
