# Screenshot server request handler, modelled in Dafny

This project models the HTTP handler of the `gowitness server` command. The
handler takes a screenshot of a URL with a headless browser and returns the
image, optionally resized. From the query values `url`, `width` and `height`
and the process-wide `--allow-insecure-uri` flag it produces exactly one
answer:

- an HTTP error, 406 or 500, with a message;
- the captured PNG, passed through unchanged; or
- the capture decoded, fitted into width x height and re-encoded as JPEG.

The checks run in a fixed order and the first failure wins:

1. the trimmed url must not be empty;
2. a width or height that does not parse, or is below 1, counts as absent;
3. a width without a height, or a height without a width, is refused;
4. the url must parse;
5. unless relaxed mode is on, the scheme must start with `http`. This is the
   guard against server-side request forgery.

Only a request that passes every check reaches the browser.

Layout:

- `common.dfy` (`Common`): `Option`, `Result` (a value or an error text), bytes.
- `text.dfy` (`Text`): Go's `strings.TrimSpace` with `unicode.IsSpace`, and
  `strings.HasPrefix`. Lemmas pin trimming down completely:
  - the trimmed string is a slice with white space on both sides;
  - padding any string with white space trims back to the same result;
  - trimming is idempotent.
- `validator.dfy` (`Validator`): the failure kinds and their status codes and
  messages, dimension normalisation, the scheme guard, and `Decide`. `Decide`
  is compared with `Breaks`, a reference that judges each rule on its own,
  independent of order.
- `handler.dfy` (`Handler`): `Handle`, which is `Decide` followed by
  `Respond`. `Respond` takes the screenshot and renders it. The answer records
  the URL the screenshot was taken of, if one was taken.

The foreign calls are function parameters, bundled in `Backends`:
`strconv.Atoi`, `url.Parse`, the browser's `Screenshot`, `image.Decode`,
`imaging.Fit` and `jpeg.Encode`. Nothing is assumed about them beyond their
types. The relaxed-scheme flag is an explicit `Config` value.

The `server` command's help text says "Allowed URLs, by default, need to
start with http:// or https://" (cmd/server.go:32-33), and the flag's help
says "allow uris that dont start with http(s)" (cmd/server.go:64). The code
at cmd/server.go:105 tests only for the prefix `"http"`, so any scheme
beginning with `http` passes. The model follows the code, and
`SchemeGuardIsPrefixTest` states the difference.

## Model

| member | source | states |
|---|---|---|
| Text.TrimSpace | cmd/server.go:69 | The trimmed url is no longer than the raw one and, unless empty, neither starts nor ends with white space |
| Text.TrimSpaceEmptyIff | cmd/server.go:69-70 | The trimmed url is empty exactly when the raw url is empty or all white space |
| Text.TrimSpaceSplits | cmd/server.go:69 | The trimmed url is a slice of the raw url, with only white space before and after it |
| Text.TrimSpaceOfPadded | cmd/server.go:69 | Surrounding a string that has no white space at its ends with white space, then trimming, gives the string back |
| Text.TrimSpaceIgnoresPadding | cmd/server.go:69 | Extra white space around any url does not change the trimmed url |
| Text.TrimSpaceIdempotent | cmd/server.go:69 | Trimming a trimmed url changes nothing |
| Text.TrimLeftShape | cmd/server.go:69 | Leading trimming keeps a suffix that is empty or starts with a non-space character, and drops only white space |
| Text.TrimRightShape | cmd/server.go:69 | Trailing trimming keeps a prefix that is empty or ends with a non-space character, and drops only white space |
| Text.HasPrefixIff | cmd/server.go:105 | The prefix test holds exactly when the scheme is the prefix followed by something |
| Validator.NormaliseDim | cmd/server.go:75-86 | A dimension is 0 or at least 1; it is positive exactly when it parsed to a value of at least 1, and then it is that value |
| Validator.StatusAndMessage | cmd/server.go:68-136 | Every error is 406 or 500. The 406 errors (missing url, unpaired dimension, refused scheme) carry fixed messages. The 500 errors (parse, capture, decode, encode) carry the collaborator's error text unchanged |
| Validator.Decide | cmd/server.go:69-109 | A request that passes validation is captured with the URL parsed from the trimmed url and the normalised dimensions, both zero or both positive; in the default mode its scheme starts with "http" |
| Validator.FirstBrokenRuleWins | cmd/server.go:69-109 | Checked against the order-independent rules: the request is captured exactly when it breaks no rule, and a rejection names a broken rule that is checked no later than any other broken rule |
| Validator.MissingUrlFirst | cmd/server.go:69-73 | The request is rejected as missing its url exactly when the url is empty or all white space, whatever the other inputs are |
| Validator.UnpairedDimensionRejected | cmd/server.go:88-96 | With a url present, the width-without-height rejection happens exactly when only the width is positive, and the height-without-width rejection exactly when only the height is positive |
| Validator.MalformedUrlRejected | cmd/server.go:98-102 | With a url present and dimensions paired, a URL the parser refuses gives a 500 carrying the parser's error text |
| Validator.CheckOrder | cmd/server.go:69-109 | A missing url beats a dimension error, a dimension error beats a parse failure, and a parse failure is reported the same way in either mode |
| Validator.InsecureSchemeRejected | cmd/server.go:104-109 | In the default mode, a parsed scheme not starting with "http" is refused with 406 once the earlier checks pass |
| Validator.SchemeGuardIsPrefixTest | cmd/server.go:105 | "http", "https" and every scheme starting with "http" pass the guard; "file", "ftp", the empty scheme and any scheme shorter than four characters do not |
| Validator.RelaxedModeCapturesEveryParsedUrl | cmd/server.go:104-111 | In relaxed mode, every request with a url, paired dimensions and a URL that parses is captured with that URL and those dimensions |
| Handler.Render | cmd/server.go:111-135 | A failed screenshot gives a 500 with its error text. An image answer comes from a successful screenshot, and a PNG answer is the captured bytes. An image is produced exactly when the screenshot succeeds and either no width was asked for or both decoding and encoding succeed |
| Handler.Respond | cmd/server.go:111-136 | A screenshot is taken exactly when validation passes, and of the validated URL; a rejection is answered with its own status and message; an image answer implies a successful screenshot |
| Handler.Handle | cmd/server.go:68-136 | A screenshot is taken exactly when validation passes, and of the validated URL. A validation failure is answered with its status and message. Every error is a 406 or 500, and every image comes from a successful screenshot |
| Handler.MissingUrlAnswer | cmd/server.go:69-73 | A blank url is answered 406 with the guidance message and no screenshot, the same whatever the other inputs, collaborators and mode are |
| Handler.UnpairedDimensionAnswer | cmd/server.go:88-96 | With a url present, one positive dimension alone is answered 406 with the message naming the missing one, and no screenshot is taken |
| Handler.InsecureSchemeAnswer | cmd/server.go:104-109 | In the default mode, a scheme not starting with "http" is answered 406 "only http(s) urls are accepted" and no screenshot is taken |
| Handler.RelaxedModeAnswer | cmd/server.go:104-111 | In relaxed mode every url that parses reaches the screenshot, whatever its scheme |
| Handler.CaptureFailureAnswer | cmd/server.go:111-115 | A failed screenshot is answered 500 with the backend's error text |
| Handler.PassThroughAnswer | cmd/server.go:117-121 | Without dimensions the answer is image/png with exactly the captured bytes |
| Handler.ResizeAnswer | cmd/server.go:123-135 | With dimensions, a decode failure is a 500 with the decoder's text. Otherwise the image is fitted into width x height, and an encode failure is a 500 with the encoder's text, else the answer is image/jpeg with the encoded bytes |
| Handler.ContentTypeFollowsDimensions | cmd/server.go:117-130 | An image answer is image/png exactly when neither dimension was given and image/jpeg exactly when both were, so branching on the width alone decides the same |
| Handler.PaddingIgnored | cmd/server.go:69 | White space around the url does not change the answer |
| Handler.NoDimensionsPassThrough | cmd/server.go:69-121 | In the default mode, a url with an http-prefixed scheme and no dimensions is captured and passed through as PNG |
| Handler.PassThroughExample | cmd/server.go:69-121 | `?url=https://example.com` is answered image/png with the captured bytes |
| Handler.InsecureSchemeExample | cmd/server.go:104-109 | In the default mode `?url=ftp://internal` is answered 406 and no screenshot is taken |

## Left out

- The `server` command, its flags and the default listen address `localhost:7171` (cmd/server.go:16-65). This is command-line plumbing.
- `http.ListenAndServe`, route registration, the warning when the address is not localhost, and exiting on a bind failure (cmd/server.go:48-56). These are I/O and process lifecycle.
- Concurrent handling of requests. The handler shares only read-only configuration, so there is nothing to verify.
- The internals of `strconv.Atoi`, `url.Parse`, the browser screenshot, `image.Decode`, `imaging.Fit` and `jpeg.Encode`. They are function parameters. For example, `url.Parse` lower-cases the scheme, so `HTTP://` passes the guard; the model only sees what the parser returns.
- Aspect-ratio and bounding-box properties of the fitted image. The resize code is foreign and numeric.
- The wire format of `http.Error`: a `text/plain; charset=utf-8` content type, a `nosniff` header and a trailing newline on the message. An error answer is modelled as its status and message.
- Handler.Render: a failed JPEG encode is modelled as a 500 answer. In the code the `image/jpeg` header is set and `jpeg.Encode` writes into the response before its error is checked (cmd/server.go:130-133). An error the encoder returns before writing anything, such as an image too large to encode, really is the 500 the model records. Once the encoder has written to the response, an error means the write to the client failed. The 200 status and the `image/jpeg` header are already fixed and the connection is closed, so the client receives at most a truncated 200 and no error text. The model records a 500 instead.
- Errors from writing the PNG body (cmd/server.go:119) are ignored by the code and not modelled.
- Strings are sequences of Unicode code points. Go strings are bytes, and invalid UTF-8 in the url value is not modelled.
