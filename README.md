# SigV4 presigned URLs for the S3 backend

This project models the request signer of the S3 backend of a Traefik
middleware plugin that serves objects from an S3 bucket. For each request the
backend turns an object key into an AWS Signature Version 4 presigned GET
URL ("query-string authentication"), then fetches that URL. The model covers
`generatePresignedURL` and its helpers in `s3/s3.go`:

- the link-style switch that picks the host and the canonical URI;
- the five `X-Amz-*` query parameters, set on a `url.Values` map;
- the canonical query string: keys collected from the map, sorted in place,
  and `key=value` parts appended in a nested loop;
- the six-line canonical request and the four-line string to sign;
- the four-step HMAC chain that derives the signing key;
- the signature, and the final URL with the signature added to the query.

It also covers the `S3` configuration record, `New`, and the signing half of
`Get`, which signs `prefix + path`.

The model has these modules:

- `GoStrings`: Go strings as byte sequences, with `strings.Join` and a
  splitter as its partner.
- `Sorting`: Go's byte order on strings, and `sort.Strings` as an in-place
  insertion sort on an array.
- `Hex`: `hex.EncodeToString` and its decoder.
- `UrlEscape`: `url.PathEscape` and `url.QueryEscape`, after Go's
  `shouldEscape`, with their unescapers.
- `UrlValues`: `url.Values`, its `Set`, and the specification of `Encode`.
- `TimeFormat`: the two `time.Format` layouts, and a parser of the
  timestamp.
- `Crypto`: SHA-256 and HMAC-SHA256 as arbitrary functions returning 32
  bytes.
- `S3`: the signer itself.
- `S3Properties`: what the URL is, stated outright.

The code works step by step: it fills the map with `Set` calls and fills and
sorts a slice of keys. That part is imperative Dafny:

- `CollectKeys` is a loop over the map's keys, in whatever order the map
  gives them.
- `SortStrings` sorts an `array` in place.
- `CanonicalQueryString` runs the nested part loops.

Each of these is proved equal to a pure specification. The string
compositions are functions.

## Model

| member | source | states |
|---|---|---|
| S3.HostAndURI | s3/s3.go:18-33 | The result is an error exactly when the link style is neither "path" nor "vhost", and the error is "invalid LinkStyle param". |
| S3Properties.PathStyleAddressing | s3/s3.go:23-26 | In path style the host is the endpoint. The URI splits at `/` into the empty string, the bucket and the escaped key, and the escaped key unescapes to the key. |
| S3Properties.VirtualHostedAddressing | s3/s3.go:27-30 | In vhost style the host is the bucket, a dot, then the endpoint. The URI is the single segment of the escaped key, which unescapes to the key. |
| S3Properties.StylesNeverMix | s3/s3.go:22-30 | For the same endpoint, bucket and key, the two styles give different hosts and different URIs. |
| S3.SignedParams | s3/s3.go:40-45 | The five `Set` calls leave exactly the keys X-Amz-Algorithm, X-Amz-Credential, X-Amz-Date, X-Amz-Expires and X-Amz-SignedHeaders. Each has one value: the algorithm, the credential, the timestamp, "86400" and "host". X-Amz-Signature is absent. |
| S3.SignedParamsAsList | s3/s3.go:40-45 | The signed parameters are the run of `Set` calls in the listed order on an empty map. |
| UrlValues.Set | s3/s3.go:41-45 | `Set` overwrites. The key then holds exactly the one value, and every other key keeps its values. |
| UrlValues.SetCommutes | s3/s3.go:41-45 | `Set` calls on different keys commute. |
| UrlValues.SetAllOrderIndependent | s3/s3.go:41-45 | Setting the same pairs, with distinct keys, in any order builds the same map. So the query does not depend on the order of the `Set` calls. |
| S3.CollectKeys | s3/s3.go:48-51 | The collected slice holds each key of the map exactly once, whatever order the map yields them in. |
| Sorting.SortStrings | s3/s3.go:52 | After `sort.Strings`, the slice is sorted in Go's byte order and is a permutation of what it held before. |
| Sorting.SortedUnique | s3/s3.go:52 | Two sorted sequences with the same multiset of strings are equal. So the sorted key slice does not depend on map iteration order. |
| S3.SortedCollectedKeys | s3/s3.go:48-52 | A sorted permutation of the map's keys is the specification's ascending key sequence, and each of its keys is in the map. |
| S3.AppendKeyParts | s3/s3.go:56-58 | The inner loop appends one `QueryEscape(k)=QueryEscape(v)` part per value of the key, in the order of the values. |
| S3.KeysParts | s3/s3.go:54-59 | The outer loop produces the parts of each key in turn, in the order of the sorted keys. |
| S3.CanonicalQueryString | s3/s3.go:47-60 | The canonical query string equals `Encode` of the map: the escaped `key=value` parts, in ascending key order, joined by `&`. |
| UrlValues.EncodeDecodes | s3/s3.go:60 | Splitting the encoding at `&` gives back the parts, in order. |
| UrlValues.PairDecodes | s3/s3.go:57 | One part splits at `=` into the escaped key and the escaped value, and both unescape to the originals. |
| UrlValues.EncodeSortedPairs | s3/s3.go:47-60 | If pairs with distinct keys in ascending order are Set on an empty map, the encoding is their parts in that order. |
| S3Properties.CanonicalQueryPairs | s3/s3.go:40-60 | The signed canonical query is the five parameters' parts in the order they are set, which is already ascending key order. |
| S3Properties.FinalParamList | s3/s3.go:90 | The final parameter list is a permutation of the five signed parameters plus the signature. |
| S3Properties.FinalQueryPairs | s3/s3.go:90-91 | The final query is the six parameters' parts in ascending key order, with X-Amz-Signature between X-Amz-Expires and X-Amz-SignedHeaders. |
| UrlEscape.UnescapeEscape | s3/s3.go:18 | Unescaping undoes path escaping and query escaping, for every string. |
| UrlEscape.EscapeUnchanged | s3/s3.go:57 | Escaping leaves a string unchanged exactly when none of its bytes needs escaping in that mode. |
| UrlEscape.PathEscape | s3/s3.go:18 | The escaped key contains no `/`, `?` or newline, so it stays one path segment. |
| UrlEscape.PathEscapeSlash | s3/s3.go:18 | A `/` inside the key is escaped as `%2F`, not kept as a separator. |
| UrlEscape.QueryEscape | s3/s3.go:57 | An escaped query component contains no `&`, `=`, space or newline. |
| UrlEscape.QueryEscapeSpace | s3/s3.go:57 | QueryEscape writes a space as `+`. |
| UrlEscape.EscapeAppend | s3/s3.go:18 | Escaping works byte by byte, so it distributes over concatenation. |
| TimeFormat.TimestampRoundTrip | s3/s3.go:35-37 | For a calendar instant before the year 10000, the date has 8 bytes and the timestamp 16. The date is the timestamp's first 8 bytes, and parsing the timestamp gives back the instant. |
| TimeFormat.DateIsTimestampPrefix | s3/s3.go:36-37 | For every instant, the date is a proper prefix of the timestamp. |
| TimeFormat.TimestampAlphabet | s3/s3.go:37 | Every byte of the timestamp is a digit, `T` or `Z`. |
| S3Properties.TimestampUnescaped | s3/s3.go:43 | The timestamp needs no query escaping: it appears in the query as it is. |
| S3Properties.CredentialSegments | s3/s3.go:42 | The credential is the access key, a `/`, then the credential scope. Split at `/`, it gives the access key, date, region, "s3" and "aws4_request". |
| S3Properties.ScopeSegments | s3/s3.go:77 | The credential scope is date, region, "s3" and "aws4_request" joined by `/`, and it splits back into them. |
| S3Properties.CanonicalRequestLines | s3/s3.go:62-74 | Split at newlines, the canonical request is "GET", the URI, the query, "host:" and the host, an empty line, "host" and "UNSIGNED-PAYLOAD". |
| S3Properties.StringToSignLines | s3/s3.go:76-83 | The string to sign has four lines: the algorithm, the timestamp, the scope, and 64 lower-case hex digits that decode to the SHA-256 of the canonical request. |
| Hex.Encode | s3/s3.go:82 | Hex encoding gives two lower-case hex digits per byte. |
| Hex.DecodeEncode | s3/s3.go:82 | Decoding the hex encoding gives the bytes back. |
| S3.HmacHex | s3/s3.go:103-106 | The result is 64 lower-case hex digits that decode to the HMAC. |
| S3Properties.SigningKeyFoldsScope | s3/s3.go:115-121 | The signing key is the HMAC chain keyed by "AWS4" and the secret, over the segments of the credential scope in order. |
| S3.GeneratePresignedURL | s3/s3.go:17-94 | The method returns exactly the specification: the style error, or the URL whose query is the signed parameters plus the signature computed over them. |
| S3Properties.PresignedURLExplicit | s3/s3.go:86-91 | For either valid style, the URL is "https://", the host, the URI, "?", then the six parts in key order. The signature is the HMAC, under the signing key, of the string to sign over the canonical request, and that request holds the five signed parameters only. |
| S3.New | s3/s3.go:134-145 | Each argument goes into its own field. This includes region and endpoint, although `New` takes them in the opposite order to the struct. |
| S3.Get | s3/s3.go:148-155 | Signing fails exactly for an invalid link style. Then the status is 500, the message is "unable to generate presigned URL, " followed by the error, the error is returned, and nothing is fetched. Otherwise the URL fetched is the presigned URL of `prefix + path`. |
| S3Properties.NewSignsPrefixedKey | s3/s3.go:134-151 | A backend made by `New` signs the key `prefix + path`, with the region and endpoint given to `New`, and the timeout has no effect on the URL. |
| Sorting.LeqTotal | s3/s3.go:52 | Go's string order is total. |
| Sorting.LeqAntisymmetric | s3/s3.go:52 | Go's string order is antisymmetric. |
| Sorting.LeqTransitive | s3/s3.go:52 | Go's string order is transitive. |
| GoStrings.SplitJoin | s3/s3.go:60 | Splitting a join at its one-byte separator gives the parts back, when no part contains the separator. |

## Left out

- SHA-256 and HMAC-SHA256 (s3/s3.go:97-113) are library calls. They are fields of `Crypto.Primitives`: any functions returning 32 bytes. Every property here holds for all such functions. Their bit-level workings are not modelled.
- `time.Now().UTC()` (s3/s3.go:35) is the instant `now`, given as calendar fields. The conversion from a clock reading to those fields is not modelled.
- TimeFormat.TimestampRoundTrip: holds for years below 10000 only. Go writes longer years with more digits, and the model's `AppendInt` does the same, but the fixed 16-byte shape then no longer holds.
- The HTTP fetch in `Get` (s3/s3.go:157-174) is left out: the request, the status check, the header copying and the body read are network I/O. `Get` ends at the URL it would fetch, or at the signing failure.
- `http.Error` (s3/s3.go:153) writes a response. The model keeps only its status and message. The headers it sets and the writer itself are not modelled.
- `timeoutSeconds` is stored by `New` but is never read in `s3/s3.go`. The model stores it and proves it does not affect the URL. The plugin file, the local backend and the logger are not part of this model.
- `url.PathEscape`, `url.QueryEscape` and `url.Values.Encode` are library code. They are modelled after Go's `shouldEscape` and the sorted join, covering only the two escaping modes the signer reaches.
- Escaping follows the code, not idealised SigV4. `url.PathEscape` turns a `/` inside the key into `%2F`, so a key with slashes is one escaped segment. `url.QueryEscape` writes a space as `+`, not `%20`. The model follows the code in both cases. The style error message is "invalid LinkStyle param", as the code writes it.
- Sorting.SortStrings: Go's `sort.Strings` is a pattern-defeating quicksort. The model is an insertion sort with the same contract: sorted, and a permutation. The canonical result does not depend on the algorithm, by `Sorting.SortedUnique`.
- Go strings hold bytes, so strings here are sequences of bytes. UTF-8 decoding is not modelled, since neither escaping nor sorting depends on it.
- The collected keys are gathered into a fresh array of the map's size. Go's `append` growth is not modelled.
