/** The three message lists every checker appends to (`good_msgs`,
    `warning_msgs`, `error_msgs`). A message is kept as the data it reports
    rather than as rendered text: several messages join Python sets, whose
    iteration order is not fixed, so only their contents are meaningful. */
module Messages {

  datatype Msg =
    | UrlValidationError(url: string)                            // "URL validation error: {url}"
    | MissingPlaceholders(placeholders: seq<string>)             // "The following values are missing in the URL: ..."
    | MissingParameters(parameters: set<string>)                 // "Parameter '...' is missing in url."
    | StylesMissing                                              // "Parameter 'styles' is missing in url. ..."
    | AttemptFailed(version: string, reason: string)             // "WMS {version}: Error: {reason}"
    | LayersNotAdvertised(layers: seq<string>)                   // "Layers '...' not advertised by WMS GetCapabilities request."
    | StyleCountMismatch                                         // "Not the same number of styles and layers."
    | StyleNotSupported(layer: string, style: string)            // "Layer '{layer}' does not support style '{style}'"
    | MissingAvailableProjections                                // "source is missing 'available_projections' element."
    | CrsNotSupported(unsupported: set<string>, layerCrs: set<string>)  // "CRS '...' not in: ..."
    | VersionBehind(requested: string, server: string)           // "Query requests WMS version '...', server supports '...'"
    | FormatNotAdvertised(format: string, formats: seq<string>)  // "Format '...' not in '...'."
    | JpegAvailable(format: string, formats: seq<string>) // "Server supports jpeg, but '...' is used. ..."
    | Exception(reason: string)                                  // "Exception: {reason}"
    | ZoomTokenZ                                                 // "{z} found instead of {zoom} in tile url"
    | ApiKeyRequired                                             // "Not possible to check URL, apikey is required."
    | ZoomsReachable(tested: set<int>)                           // "Zoom levels reachable. (Tested: ...)"
    | ZoomsNotReachable(failures: multiset<int>, tested: set<int>)  // "Zoom level ... not reachable. (Tested: ...)"
    | NoZoomReachable(tested: set<int>)                          // "No zoom level reachable. (Tested: ...)"

  /** What one checker appends, list by list. */
  datatype Report = Report(good: seq<Msg>, warnings: seq<Msg>, errors: seq<Msg>)
  {
    function Then(more: Report): Report
    {
      Report(good + more.good, warnings + more.warnings, errors + more.errors)
    }
  }

  /** Appending in two steps is appending the concatenation. */
  lemma ThenAssociative(a: Report, b: Report, c: Report)
    ensures a.Then(b).Then(c) == a.Then(b.Then(c))
  {
    assert a.good + b.good + c.good == a.good + (b.good + c.good);
    assert a.warnings + b.warnings + c.warnings == a.warnings + (b.warnings + c.warnings);
    assert a.errors + b.errors + c.errors == a.errors + (b.errors + c.errors);
  }

  function Errors(errors: seq<Msg>): Report
  {
    Report([], [], errors)
  }

  /** Appending three lists of errors in turn appends their concatenation. */
  lemma ErrorsInTurn(r: Report, a: seq<Msg>, b: seq<Msg>, c: seq<Msg>)
    ensures r.Then(Errors(a)).Then(Errors(b)).Then(Errors(c)) == r.Then(Errors(a + b + c))
  {
    assert r.errors + a + b + c == r.errors + (a + b + c);
  }

  /** The lists `good_msgs`, `warning_msgs` and `error_msgs` handed to a checker. */
  class MessageSink {
    var good: seq<Msg>
    var warnings: seq<Msg>
    var errors: seq<Msg>

    function Contents(): Report
      reads this
    {
      Report(good, warnings, errors)
    }

    constructor ()
      ensures Contents() == Report([], [], [])
    {
      good, warnings, errors := [], [], [];
    }

    method Good(m: Msg)
      modifies this
      ensures Contents() == old(Contents()).Then(Report([m], [], []))
    {
      good := good + [m];
    }

    method Warn(m: Msg)
      modifies this
      ensures Contents() == old(Contents()).Then(Report([], [m], []))
    {
      warnings := warnings + [m];
    }

    method Error(m: Msg)
      modifies this
      ensures Contents() == old(Contents()).Then(Report([], [], [m]))
    {
      errors := errors + [m];
    }
  }
}
