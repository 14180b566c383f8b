/**
 The HTTP handler of the screenshot server: validate the query, capture the
 validated URL, and answer with the captured PNG as it is or with a JPEG of
 it fitted into the requested box, mapping every failure to a status code.

 The collaborators the handler calls are parameters: `strconv.Atoi`,
 `url.Parse`, the browser's `Screenshot`, `image.Decode`, `imaging.Fit` and
 `jpeg.Encode`. The handler's answer is a value rather than writes to a
 response writer.
 */
module Handler {
  import opened Common
  import opened Text
  import opened Validator

  /** The query values the handler reads; a parameter that is absent reads
      as "", as with Go's `Query().Get`. */
  datatype Query = Query(url: string, width: string, height: string)

  /** Process-wide settings fixed at startup; only the relaxed-scheme flag
      reaches the handler. */
  datatype Config = Config(allowInsecureUris: bool)

  /** The collaborators, with `Img` the decoded pixel buffer. */
  datatype Backends<!Img> = Backends(
    atoi: string -> Option<int>,
    parseUrl: string -> Result<Url>,
    screenshot: Url -> Result<Bytes>,
    decode: Bytes -> Result<Img>,
    fit: (Img, nat, nat) -> Img,
    encodeJpeg: Img -> Result<Bytes>)

  const PngType: string := "image/png"
  const JpegType: string := "image/jpeg"

  /** The single terminal answer to a request: an error status with its
      message, or an image body with its content type (status 200). */
  datatype Outcome =
    | HttpError(status: int, message: string)
    | Image(contentType: string, body: Bytes)

  /** The answer together with the URL the screenshot was taken of, if one
      was taken. */
  datatype Served = Served(outcome: Outcome, screenshotOf: Option<Url>)

  /** The error answer for a failure. */
  function Fail(f: Problem): Outcome {
    HttpError(Status(f), Message(f))
  }

  /** Validation with the query's dimensions parsed by `atoi`. */
  function DecideQuery<Img>(q: Query, cfg: Config, b: Backends<Img>): Decision {
    Decide(q.url, b.atoi(q.width), b.atoi(q.height), b.parseUrl, cfg.allowInsecureUris)
  }

  /** What the handler answers once the screenshot returned `shot`. Without
      a requested width the captured bytes go out unchanged as PNG; with one
      they are decoded, fitted into `width` x `height` and encoded as JPEG. */
  function Render<Img>(shot: Result<Bytes>, width: nat, height: nat, b: Backends<Img>): (o: Outcome)
    ensures shot.Failure? ==> o == Fail(CaptureFailed(shot.error))
    ensures o.Image? ==> shot.Success?
    ensures o.Image? && o.contentType == PngType ==> o.body == shot.value
    ensures o.Image? <==>
              && shot.Success?
              && (width == 0 || (&& b.decode(shot.value).Success?
                                 && b.encodeJpeg(b.fit(b.decode(shot.value).value, width, height)).Success?))
  {
    match shot
    case Failure(e) => Fail(CaptureFailed(e))
    case Success(buf) =>
      if width == 0 then Image(PngType, buf)
      else
        match b.decode(buf)
        case Failure(e) => Fail(DecodeFailed(e))
        case Success(img) =>
          match b.encodeJpeg(b.fit(img, width, height))
          case Failure(e) => Fail(EncodeFailed(e))
          case Success(out) => Image(JpegType, out)
  }

  /** The handler after validation: a rejection is answered with its
      failure and takes no screenshot; a capture takes the screenshot of the
      validated URL and renders it. */
  function Respond<Img>(d: Decision, b: Backends<Img>): (r: Served)
    ensures r.screenshotOf.Some? <==> d.Capture?
    ensures d.Capture? ==> r.screenshotOf == Some(d.target)
    ensures d.Reject? ==> r.outcome == Fail(d.failure)
    ensures r.outcome.Image? ==> d.Capture? && b.screenshot(d.target).Success?
  {
    match d
    case Reject(f) => Served(Fail(f), None)
    case Capture(t, w, h) => Served(Render(b.screenshot(t), w, h, b), Some(t))
  }

  /** The handler. The screenshot is taken exactly when validation passes,
      and then of the validated URL; a validation failure is answered with
      its own status and message; every answer is a 406 or 500 error, or an
      image only after a successful screenshot. */
  function Handle<Img>(q: Query, cfg: Config, b: Backends<Img>): (r: Served)
    ensures var d := DecideQuery(q, cfg, b);
            && (r.screenshotOf.Some? <==> d.Capture?)
            && (d.Capture? ==> r.screenshotOf == Some(d.target))
            && (d.Reject? ==> r.outcome == Fail(d.failure))
    ensures r.outcome.HttpError? ==>
              r.outcome.status == NotAcceptable || r.outcome.status == InternalServerError
    ensures r.outcome.Image? ==>
              && r.screenshotOf.Some?
              && b.screenshot(r.screenshotOf.value).Success?
  {
    Respond(DecideQuery(q, cfg, b), b)
  }

  /** A missing or blank url is answered 406 with the guidance message and
      nothing else is looked at: the answer is the same whatever the
      dimensions, collaborators and mode are, and no screenshot is taken. */
  lemma MissingUrlAnswer<Img>(q: Query, cfg: Config, b: Backends<Img>, other: Query, cfg': Config, b': Backends<Img>)
    requires AllSpace(q.url) && other.url == q.url
    ensures Handle(q, cfg, b) == Served(HttpError(NotAcceptable, MissingUrlMessage), None)
    ensures Handle(other, cfg', b') == Handle(q, cfg, b)
  {
    MissingUrlFirst(q.url, b.atoi(q.width), b.atoi(q.height), b.parseUrl, cfg.allowInsecureUris);
    MissingUrlFirst(other.url, b'.atoi(other.width), b'.atoi(other.height), b'.parseUrl, cfg'.allowInsecureUris);
  }

  /** A width without a height, or a height without a width, is answered 406
      naming the missing one, and no screenshot is taken. */
  lemma UnpairedDimensionAnswer<Img>(q: Query, cfg: Config, b: Backends<Img>)
    requires TrimSpace(q.url) != []
    ensures var w := NormaliseDim(b.atoi(q.width));
            var h := NormaliseDim(b.atoi(q.height));
            && (w > 0 && h == 0 ==>
                  Handle(q, cfg, b) == Served(HttpError(NotAcceptable, WidthWithoutHeightMessage), None))
            && (h > 0 && w == 0 ==>
                  Handle(q, cfg, b) == Served(HttpError(NotAcceptable, HeightWithoutWidthMessage), None))
  {
    UnpairedDimensionRejected(q.url, b.atoi(q.width), b.atoi(q.height), b.parseUrl, cfg.allowInsecureUris);
  }

  /** In the default mode, a URL that parses to a scheme not starting with
      "http" is answered 406 and never captured; "file:///etc/passwd" is the
      case in point. */
  lemma InsecureSchemeAnswer<Img>(q: Query, b: Backends<Img>, t: Url)
    requires TrimSpace(q.url) != []
    requires (NormaliseDim(b.atoi(q.width)) == 0) == (NormaliseDim(b.atoi(q.height)) == 0)
    requires b.parseUrl(TrimSpace(q.url)) == Success(t)
    requires !SchemeAllowed(t.scheme)
    ensures Handle(q, Config(false), b) == Served(HttpError(NotAcceptable, InsecureSchemeMessage), None)
  {
    InsecureSchemeRejected(q.url, b.atoi(q.width), b.atoi(q.height), b.parseUrl, t);
  }

  /** In relaxed mode every URL that parses is captured, whatever its scheme,
      once the url is present and the dimensions are paired. */
  lemma RelaxedModeAnswer<Img>(q: Query, b: Backends<Img>, t: Url)
    requires TrimSpace(q.url) != []
    requires (NormaliseDim(b.atoi(q.width)) == 0) == (NormaliseDim(b.atoi(q.height)) == 0)
    requires b.parseUrl(TrimSpace(q.url)) == Success(t)
    ensures Handle(q, Config(true), b).screenshotOf == Some(t)
  {
    RelaxedModeCapturesEveryParsedUrl(q.url, b.atoi(q.width), b.atoi(q.height), b.parseUrl, t);
  }

  /** A screenshot that fails is answered 500 with the capture backend's
      error text, and no image is produced. */
  lemma CaptureFailureAnswer<Img>(t: Url, width: nat, height: nat, b: Backends<Img>, e: string)
    requires b.screenshot(t) == Failure(e)
    ensures Respond(Capture(t, width, height), b) == Served(HttpError(InternalServerError, e), Some(t))
  {
  }

  /** Without dimensions the screenshot goes out byte for byte as PNG. */
  lemma PassThroughAnswer<Img>(t: Url, b: Backends<Img>, png: Bytes)
    requires b.screenshot(t) == Success(png)
    ensures Respond(Capture(t, 0, 0), b) == Served(Image(PngType, png), Some(t))
  {
  }

  /** With dimensions the screenshot is decoded (a failure is a 500 with the
      decoder's text), fitted into width x height and encoded as JPEG (a
      failure is a 500 with the encoder's text). */
  lemma ResizeAnswer<Img>(t: Url, width: nat, height: nat, b: Backends<Img>, png: Bytes)
    requires width > 0 && height > 0
    requires b.screenshot(t) == Success(png)
    ensures var o := Respond(Capture(t, width, height), b).outcome;
            match b.decode(png)
            case Failure(e) => o == HttpError(InternalServerError, e)
            case Success(img) =>
              match b.encodeJpeg(b.fit(img, width, height))
              case Failure(e) => o == HttpError(InternalServerError, e)
              case Success(jpeg) => o == Image(JpegType, jpeg)
  {
  }

  /** The content type tells the two success shapes apart: PNG exactly when
      no dimensions were requested, JPEG exactly when both were. */
  lemma ContentTypeFollowsDimensions<Img>(q: Query, cfg: Config, b: Backends<Img>)
    requires Handle(q, cfg, b).outcome.Image?
    ensures var w := NormaliseDim(b.atoi(q.width));
            var h := NormaliseDim(b.atoi(q.height));
            var o := Handle(q, cfg, b).outcome;
            && (o.contentType == PngType <==> w == 0 && h == 0)
            && (o.contentType == JpegType <==> w > 0 && h > 0)
  {
  }

  /** White space around the url makes no difference to the answer. */
  lemma PaddingIgnored<Img>(q: Query, pre: string, post: string, cfg: Config, b: Backends<Img>)
    requires AllSpace(pre) && AllSpace(post)
    ensures Handle(q.(url := pre + q.url + post), cfg, b) == Handle(q, cfg, b)
  {
    TrimSpaceIgnoresPadding(pre, q.url, post);
  }

  /** In the default mode a present url without dimensions whose parsed
      scheme passes the guard is captured and passed through as PNG. */
  lemma NoDimensionsPassThrough<Img>(q: Query, b: Backends<Img>, t: Url, png: Bytes)
    requires TrimSpace(q.url) != []
    requires NormaliseDim(b.atoi(q.width)) == 0 && NormaliseDim(b.atoi(q.height)) == 0
    requires b.parseUrl(TrimSpace(q.url)) == Success(t) && SchemeAllowed(t.scheme)
    requires b.screenshot(t) == Success(png)
    ensures Handle(q, Config(false), b) == Served(Image(PngType, png), Some(t))
  {
  }

  /** `?url=https://example.com` with a capture backend that returns `png`
      is answered with `png` as PNG; the parser is only assumed to read the
      scheme "https". The url is a parameter fixed by `requires` rather than
      an inline literal so that the verifier does not unfold the literal's
      characters in every use. */
  lemma PassThroughExample<Img>(url: string, b: Backends<Img>, png: Bytes)
    requires url == "https://example.com"
    requires b.parseUrl(url) == Success(Url("https", "//example.com"))
    requires b.atoi("") == None
    requires b.screenshot(Url("https", "//example.com")) == Success(png)
    ensures Handle(Query(url, "", ""), Config(false), b)
            == Served(Image(PngType, png), Some(Url("https", "//example.com")))
  {
    TrimSpaceKeeps(url);
    SchemeGuardIsPrefixTest("", "");
    NoDimensionsPassThrough(Query(url, "", ""), b, Url("https", "//example.com"), png);
  }

  /** In the default mode `?url=ftp://internal` is answered 406 and no
      screenshot is taken; the parser is only assumed to read the scheme
      "ftp". The url is a parameter for the same reason as in
      `PassThroughExample`. */
  lemma InsecureSchemeExample<Img>(url: string, b: Backends<Img>)
    requires url == "ftp://internal"
    requires b.parseUrl(url) == Success(Url("ftp", "//internal"))
    requires b.atoi("") == None
    ensures Handle(Query(url, "", ""), Config(false), b)
            == Served(HttpError(NotAcceptable, InsecureSchemeMessage), None)
  {
    TrimSpaceKeeps(url);
    SchemeGuardIsPrefixTest("", "");
    InsecureSchemeAnswer(Query(url, "", ""), b, Url("ftp", "//internal"));
  }
}
