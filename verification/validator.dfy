/**
 The request validator of the screenshot handler: from the `url`, `width` and
 `height` query values and the process-wide relaxed-scheme flag it decides
 either to reject the request with a specific failure or to capture a parsed
 target, optionally resized. The checks run in a fixed order and the first
 failing one decides the outcome.

 `strconv.Atoi` and `url.Parse` are collaborators: the integer parse results
 arrive as `Option<int>` (`None` for a parse error) and the URL parser is a
 function parameter.
 */
module Validator {
  import opened Common
  import opened Text

  /** A parsed URL, reduced to what the handler inspects: its scheme. The
      rest of the URL only travels on to the capture backend. */
  datatype Url = Url(scheme: string, rest: string)

  /** Every way the handler can fail, validation failures first. */
  datatype Problem =
    | MissingUrl
    | WidthWithoutHeight
    | HeightWithoutWidth
    | MalformedUrl(reason: string)
    | InsecureScheme
    | CaptureFailed(reason: string)
    | DecodeFailed(reason: string)
    | EncodeFailed(reason: string)

  /** What validation concludes: reject, or capture `target` and, when the
      dimensions are positive, fit the image into `width` x `height`. */
  datatype Decision =
    | Reject(failure: Problem)
    | Capture(target: Url, width: nat, height: nat)

  const MissingUrlMessage: string := "url parameter missing. eg ?url=https://google.com"
  const WidthWithoutHeightMessage: string := "received width option without height argument"
  const HeightWithoutWidthMessage: string := "received height option without width argument"
  const InsecureSchemeMessage: string := "only http(s) urls are accepted"

  const NotAcceptable: int := 406
  const InternalServerError: int := 500

  /** The HTTP status each failure is answered with: 406 for misuse of the
      query and for a refused scheme, 500 for a URL the parser rejects and
      for every collaborator failure after validation. */
  function Status(f: Problem): int {
    match f
    case MissingUrl | WidthWithoutHeight | HeightWithoutWidth | InsecureScheme => NotAcceptable
    case _ => InternalServerError
  }

  /** The text of the error response: a fixed message for the 406 failures,
      the collaborator's own error text for the 500 ones. */
  function Message(f: Problem): string {
    match f
    case MissingUrl => MissingUrlMessage
    case WidthWithoutHeight => WidthWithoutHeightMessage
    case HeightWithoutWidth => HeightWithoutWidthMessage
    case InsecureScheme => InsecureSchemeMessage
    case MalformedUrl(e) => e
    case CaptureFailed(e) => e
    case DecodeFailed(e) => e
    case EncodeFailed(e) => e
  }

  /** Every 406 answer carries one of the four fixed messages and every 500
      answer passes a collaborator's error text through unchanged. */
  lemma StatusAndMessage(f: Problem)
    ensures Status(f) == NotAcceptable || Status(f) == InternalServerError
    ensures Status(f) == NotAcceptable ==>
              Message(f) in {MissingUrlMessage, WidthWithoutHeightMessage,
                             HeightWithoutWidthMessage, InsecureSchemeMessage}
    ensures Status(f) == InternalServerError <==>
              f.MalformedUrl? || f.CaptureFailed? || f.DecodeFailed? || f.EncodeFailed?
    ensures Status(f) == InternalServerError ==> Message(f) == f.reason
  {
  }

  /** The position in the handler at which a failure is detected; a failure
      detected earlier wins over one detected later. */
  function Stage(f: Problem): nat {
    match f
    case MissingUrl => 0
    case WidthWithoutHeight => 1
    case HeightWithoutWidth => 2
    case MalformedUrl(_) => 3
    case InsecureScheme => 4
    case CaptureFailed(_) => 5
    case DecodeFailed(_) => 6
    case EncodeFailed(_) => 7
  }

  /** Normalises an `Atoi` result: a parse error or a value below 1 both mean
      "not supplied" and become 0; a positive value is kept. */
  function NormaliseDim(parsed: Option<int>): (d: nat)
    ensures d == 0 || d >= 1
    ensures d >= 1 <==> parsed.Some? && parsed.value >= 1
    ensures d >= 1 ==> d == parsed.value
  {
    match parsed
    case Some(v) => if v < 1 then 0 else v
    case None => 0
  }

  /** The scheme guard against server-side request forgery: the scheme must
      start with "http". It is a prefix test, so "http", "https" and any other
      scheme beginning with "http" pass. */
  predicate SchemeAllowed(scheme: string) {
    HasPrefix(scheme, "http")
  }

  /** Whether the request breaks the validation rule that `f` reports, each
      rule judged on its own and independently of the order in which the
      handler checks them. The scheme rule can only be judged of a URL that
      parses; failures after validation are no rule of the request. */
  predicate Breaks(f: Problem, rawUrl: string, widthParse: Option<int>, heightParse: Option<int>,
                   parseUrl: string -> Result<Url>, allowInsecure: bool)
  {
    var u := TrimSpace(rawUrl);
    var w := NormaliseDim(widthParse);
    var h := NormaliseDim(heightParse);
    match f
    case MissingUrl => u == []
    case WidthWithoutHeight => w > 0 && h == 0
    case HeightWithoutWidth => h > 0 && w == 0
    case MalformedUrl(e) => parseUrl(u) == Failure(e)
    case InsecureScheme =>
      !allowInsecure && parseUrl(u).Success? && !SchemeAllowed(parseUrl(u).value.scheme)
    case _ => false
  }

  /** The handler's validation sequence. A request that passes it is
      captured with the URL the parser produced from the trimmed url and with
      the normalised dimensions, both zero or both positive; in the default
      mode the captured scheme starts with "http". */
  function Decide(rawUrl: string, widthParse: Option<int>, heightParse: Option<int>,
                  parseUrl: string -> Result<Url>, allowInsecure: bool): (d: Decision)
    ensures d.Capture? ==>
              && parseUrl(TrimSpace(rawUrl)) == Success(d.target)
              && d.width == NormaliseDim(widthParse)
              && d.height == NormaliseDim(heightParse)
              && (d.width == 0 <==> d.height == 0)
              && (allowInsecure || SchemeAllowed(d.target.scheme))
    ensures d.Reject? ==> Stage(d.failure) <= Stage(InsecureScheme)
  {
    var u := TrimSpace(rawUrl);
    if u == [] then Reject(MissingUrl)
    else
      var w := NormaliseDim(widthParse);
      var h := NormaliseDim(heightParse);
      if w > 0 && h == 0 then Reject(WidthWithoutHeight)
      else if h > 0 && w == 0 then Reject(HeightWithoutWidth)
      else match parseUrl(u)
        case Failure(e) => Reject(MalformedUrl(e))
        case Success(t) =>
          if !allowInsecure && !SchemeAllowed(t.scheme) then Reject(InsecureScheme)
          else Capture(t, w, h)
  }

  /** First failure wins. Against the order-independent rules of `Breaks`:
      the request is captured exactly when it breaks no rule, and a rejection
      reports a rule the request breaks that is checked no later than any
      other rule it breaks. */
  lemma FirstBrokenRuleWins(rawUrl: string, widthParse: Option<int>, heightParse: Option<int>,
                            parseUrl: string -> Result<Url>, allowInsecure: bool)
    ensures var d := Decide(rawUrl, widthParse, heightParse, parseUrl, allowInsecure);
            && (d.Capture? <==>
                  forall f :: !Breaks(f, rawUrl, widthParse, heightParse, parseUrl, allowInsecure))
            && (d.Reject? ==> Breaks(d.failure, rawUrl, widthParse, heightParse, parseUrl, allowInsecure))
            && (d.Reject? ==>
                  forall g | Breaks(g, rawUrl, widthParse, heightParse, parseUrl, allowInsecure)
                    :: Stage(d.failure) <= Stage(g))
  {
    var d := Decide(rawUrl, widthParse, heightParse, parseUrl, allowInsecure);
    var u := TrimSpace(rawUrl);
    var w := NormaliseDim(widthParse);
    var h := NormaliseDim(heightParse);
    if d.Reject? {
      assert Breaks(d.failure, rawUrl, widthParse, heightParse, parseUrl, allowInsecure);
    } else {
      forall f ensures !Breaks(f, rawUrl, widthParse, heightParse, parseUrl, allowInsecure) {
        match f
        case InsecureScheme =>
          assert parseUrl(u) == Success(d.target);
        case _ =>
      }
    }
  }

  /** A url that is empty or only white space is rejected as missing, and
      only such a url is. */
  lemma MissingUrlFirst(rawUrl: string, widthParse: Option<int>, heightParse: Option<int>,
                        parseUrl: string -> Result<Url>, allowInsecure: bool)
    ensures Decide(rawUrl, widthParse, heightParse, parseUrl, allowInsecure) == Reject(MissingUrl)
            <==> AllSpace(rawUrl)
  {
    TrimSpaceEmptyIff(rawUrl);
  }

  /** Once the url is present, exactly one positive dimension is rejected,
      naming the missing one. A dimension that fails to parse or is below 1
      counts as absent, so it is an error only beside a positive one. */
  lemma UnpairedDimensionRejected(rawUrl: string, widthParse: Option<int>, heightParse: Option<int>,
                                  parseUrl: string -> Result<Url>, allowInsecure: bool)
    ensures var d := Decide(rawUrl, widthParse, heightParse, parseUrl, allowInsecure);
            var w := NormaliseDim(widthParse);
            var h := NormaliseDim(heightParse);
            && (d == Reject(WidthWithoutHeight) <==> TrimSpace(rawUrl) != [] && w > 0 && h == 0)
            && (d == Reject(HeightWithoutWidth) <==> TrimSpace(rawUrl) != [] && h > 0 && w == 0)
  {
  }

  /** A URL the parser rejects gives a 500 carrying the parser's text, once
      the url is present and the dimensions are paired. */
  lemma MalformedUrlRejected(rawUrl: string, widthParse: Option<int>, heightParse: Option<int>,
                             parseUrl: string -> Result<Url>, allowInsecure: bool, e: string)
    requires TrimSpace(rawUrl) != []
    requires (NormaliseDim(widthParse) == 0) == (NormaliseDim(heightParse) == 0)
    requires parseUrl(TrimSpace(rawUrl)) == Failure(e)
    ensures Decide(rawUrl, widthParse, heightParse, parseUrl, allowInsecure) == Reject(MalformedUrl(e))
    ensures Status(MalformedUrl(e)) == InternalServerError && Message(MalformedUrl(e)) == e
  {
  }

  /** The order of the checks: a missing url beats a dimension error, a
      dimension error beats a parse failure, a parse failure beats the scheme
      check. Each earlier failure wins whatever the later inputs are. */
  lemma CheckOrder(rawUrl: string, widthParse: Option<int>, heightParse: Option<int>,
                   parseUrl: string -> Result<Url>, allowInsecure: bool)
    ensures var d := Decide(rawUrl, widthParse, heightParse, parseUrl, allowInsecure);
            var u := TrimSpace(rawUrl);
            var w := NormaliseDim(widthParse);
            var h := NormaliseDim(heightParse);
            && (u == [] && (w == 0) != (h == 0) ==> d == Reject(MissingUrl))
            && (u != [] && w > 0 && h == 0 && parseUrl(u).Failure? ==> d == Reject(WidthWithoutHeight))
            && (u != [] && h > 0 && w == 0 && parseUrl(u).Failure? ==> d == Reject(HeightWithoutWidth))
            && (u != [] && (w == 0) == (h == 0) && parseUrl(u).Failure? ==>
                  && d == Reject(MalformedUrl(parseUrl(u).error))
                  && d == Decide(rawUrl, widthParse, heightParse, parseUrl, !allowInsecure))
  {
  }

  /** In the default mode a parsed URL whose scheme does not start with
      "http" is refused with 406, once the earlier checks pass. */
  lemma InsecureSchemeRejected(rawUrl: string, widthParse: Option<int>, heightParse: Option<int>,
                               parseUrl: string -> Result<Url>, t: Url)
    requires TrimSpace(rawUrl) != []
    requires (NormaliseDim(widthParse) == 0) == (NormaliseDim(heightParse) == 0)
    requires parseUrl(TrimSpace(rawUrl)) == Success(t)
    requires !SchemeAllowed(t.scheme)
    ensures Decide(rawUrl, widthParse, heightParse, parseUrl, false) == Reject(InsecureScheme)
    ensures Status(InsecureScheme) == NotAcceptable
  {
  }

  /** Any scheme that begins with "http" passes the guard, among them "http"
      and "https"; "file", "ftp" and the empty scheme of a relative URL do
      not, nor does any scheme shorter than four characters. */
  lemma SchemeGuardIsPrefixTest(suffix: string, scheme: string)
    ensures SchemeAllowed("http" + suffix)
    ensures SchemeAllowed("http") && SchemeAllowed("https")
    ensures !SchemeAllowed("file") && !SchemeAllowed("ftp") && !SchemeAllowed("")
    ensures |scheme| < 4 ==> !SchemeAllowed(scheme)
  {
    assert ("http" + suffix)[..4] == "http";
    assert "http"[..4] == "http";
    assert "https"[..4] == "http";
    assert "file"[..4] != "http" by { assert "file"[0] != "http"[0]; }
  }

  /** In relaxed mode no scheme is filtered: every request with a present url,
      paired dimensions and a URL that parses is captured with that URL. */
  lemma RelaxedModeCapturesEveryParsedUrl(rawUrl: string, widthParse: Option<int>, heightParse: Option<int>,
                                          parseUrl: string -> Result<Url>, t: Url)
    requires TrimSpace(rawUrl) != []
    requires (NormaliseDim(widthParse) == 0) == (NormaliseDim(heightParse) == 0)
    requires parseUrl(TrimSpace(rawUrl)) == Success(t)
    ensures Decide(rawUrl, widthParse, heightParse, parseUrl, true)
            == Capture(t, NormaliseDim(widthParse), NormaliseDim(heightParse))
  {
  }
}
