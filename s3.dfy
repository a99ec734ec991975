/** The S3 backend's request signer: an AWS Signature Version 4 presigned
    GET URL ("query-string authentication"), built from the credentials, the
    bucket addressing and one UTC instant, and the signing half of `Get`. */
module S3 {
  import opened Wrappers
  import opened GoStrings
  import opened Sorting
  import Hex
  import opened UrlEscape
  import opened UrlValues
  import opened TimeFormat
  import opened Crypto

  /** An error, by its message. */
  datatype Error = Error(message: GoString)

  /** The only error the builder itself produces. */
  const InvalidLinkStyle := Error("invalid LinkStyle param")

  /** The literals of the signer. */
  const Algorithm: GoString := "AWS4-HMAC-SHA256"
  const Service: GoString := "s3"
  const Terminator: GoString := "aws4_request"
  const ExpiresSeconds: GoString := "86400"
  const SignedHeaders: GoString := "host"
  const UnsignedPayload: GoString := "UNSIGNED-PAYLOAD"
  const AlgorithmKey: GoString := "X-Amz-Algorithm"
  const CredentialKey: GoString := "X-Amz-Credential"
  const DateKey: GoString := "X-Amz-Date"
  const ExpiresKey: GoString := "X-Amz-Expires"
  const SignedHeadersKey: GoString := "X-Amz-SignedHeaders"
  const SignatureKey: GoString := "X-Amz-Signature"
  const ScopeSuffix: GoString := "/s3/aws4_request"

  /** Where the signed request goes: the host, and the path as signed and
      sent. */
  datatype Target = Target(host: GoString, canonicalURI: GoString)

  /** The link-style switch: path style names the bucket as the first path
      segment on the endpoint, virtual-hosted style names it as the first
      label of the host; any other style is an error. The key is
      path-escaped as one segment. */
  function HostAndURI(linkStyle: GoString, endpoint: GoString, bucket: GoString, key: GoString): (r: Result<Target, Error>)
    ensures r.Failure? <==> linkStyle != "path" && linkStyle != "vhost"
    ensures r.Failure? ==> r.error == InvalidLinkStyle
  {
    var escapedKey := PathEscape(key);
    if linkStyle == "path" then Success(Target(endpoint, "/" + bucket + "/" + escapedKey))
    else if linkStyle == "vhost" then Success(Target(bucket + "." + endpoint, "/" + escapedKey))
    else Failure(InvalidLinkStyle)
  }

  /** The value of X-Amz-Credential. */
  function Credential(accessKeyID: GoString, date: GoString, region: GoString): GoString
  {
    accessKeyID + "/" + date + "/" + region + ScopeSuffix
  }

  /** The credential scope of the string to sign. */
  function CredentialScope(date: GoString, region: GoString): GoString
  {
    date + "/" + region + ScopeSuffix
  }

  /** The five `query.Set` calls before signing, in the order the source
      makes them. */
  function SignedParamList(accessKeyID: GoString, date: GoString, region: GoString, timestamp: GoString): seq<(GoString, GoString)>
  {
    [(AlgorithmKey, Algorithm),
     (CredentialKey, Credential(accessKeyID, date, region)),
     (DateKey, timestamp),
     (ExpiresKey, ExpiresSeconds),
     (SignedHeadersKey, SignedHeaders)]
  }

  /** The query parameters that are signed: the five `Set` calls on an empty
      map. */
  function SignedParams(accessKeyID: GoString, date: GoString, region: GoString, timestamp: GoString): (r: Values)
    ensures r.Keys == {AlgorithmKey, CredentialKey, DateKey, ExpiresKey, SignedHeadersKey}
    ensures r[AlgorithmKey] == [Algorithm] && r[CredentialKey] == [Credential(accessKeyID, date, region)]
    ensures r[DateKey] == [timestamp] && r[ExpiresKey] == [ExpiresSeconds] && r[SignedHeadersKey] == [SignedHeaders]
    ensures SignatureKey !in r
  {
    var q0: Values := map[];
    var q1 := Set(q0, AlgorithmKey, Algorithm);
    var q2 := Set(q1, CredentialKey, Credential(accessKeyID, date, region));
    var q3 := Set(q2, DateKey, timestamp);
    var q4 := Set(q3, ExpiresKey, ExpiresSeconds);
    Set(q4, SignedHeadersKey, SignedHeaders)
  }

  /** The signed parameters are the run of `Set` calls the list names. */
  lemma SignedParamsAsList(accessKeyID: GoString, date: GoString, region: GoString, timestamp: GoString)
    ensures SignedParams(accessKeyID, date, region, timestamp)
         == SetAll(map[], SignedParamList(accessKeyID, date, region, timestamp))
  {
    var l := SignedParamList(accessKeyID, date, region, timestamp);
    var q0: Values := map[];
    var q1 := Set(q0, AlgorithmKey, Algorithm);
    var q2 := Set(q1, CredentialKey, Credential(accessKeyID, date, region));
    var q3 := Set(q2, DateKey, timestamp);
    var q4 := Set(q3, ExpiresKey, ExpiresSeconds);
    var q5 := Set(q4, SignedHeadersKey, SignedHeaders);
    calc {
      SetAll(q0, l);
      SetAll(q1, l[1..]);
      { assert l[1..][1..] == l[2..]; }
      SetAll(q2, l[2..]);
      { assert l[2..][1..] == l[3..]; }
      SetAll(q3, l[3..]);
      { assert l[3..][1..] == l[4..]; }
      SetAll(q4, l[4..]);
      { assert l[4..][1..] == l[5..] == []; }
      SetAll(q5, l[5..]);
      q5;
    }
  }

  /** The canonical request: six components joined by newlines, the
      canonical headers component itself ending in a newline. */
  function CanonicalRequest(t: Target, canonicalQuery: GoString): GoString
  {
    Join(["GET", t.canonicalURI, canonicalQuery, "host:" + t.host + "\n", SignedHeaders, UnsignedPayload], "\n")
  }

  /** The string to sign: four lines, the last the hex SHA-256 of the
      canonical request. */
  function StringToSign(c: Primitives, timestamp: GoString, scope: GoString, canonicalRequest: GoString): GoString
  {
    Join([Algorithm, timestamp, scope, Hex.Encode(c.sha256(canonicalRequest))], "\n")
  }

  /** `hmacSHA256Hex`: the HMAC as 64 lower-case hexadecimal digits, which
      decode to the HMAC's 32 bytes. */
  function HmacHex(c: Primitives, key: GoString, data: GoString): (r: GoString)
    ensures |r| == 64 && forall i | 0 <= i < |r| :: Hex.IsLowerHex(r[i])
    ensures Hex.Decode(r) == Some(c.hmac(key, data))
  {
    Hex.DecodeEncode(c.hmac(key, data));
    Hex.Encode(c.hmac(key, data))
  }

  /** `getSigningKey`: four HMACs, keyed first by "AWS4" and the secret,
      folding in the date, the region, the service "s3" and the terminator
      "aws4_request". */
  function SigningKey(c: Primitives, secret: GoString, date: GoString, region: GoString): Digest
  {
    var kDate := c.hmac("AWS4" + secret, date);
    var kRegion := c.hmac(kDate, region);
    var kService := c.hmac(kRegion, "s3");
    c.hmac(kService, "aws4_request")
  }

  /** A chain of HMACs: each message is hashed under the previous result. */
  function HmacChain(c: Primitives, key: GoString, messages: seq<GoString>): GoString
    decreases |messages|
  {
    if messages == [] then key else HmacChain(c, c.hmac(key, messages[0]), messages[1..])
  }

  /** The X-Amz-Signature for a request to `t` at instant `now`. */
  ghost function Signature(c: Primitives, accessKeyID: GoString, secretAccessKey: GoString, region: GoString,
                     t: Target, now: Instant): GoString
  {
    var date, timestamp := FormatDate(now), FormatTimestamp(now);
    var query := SignedParams(accessKeyID, date, region, timestamp);
    var canonicalRequest := CanonicalRequest(t, Encode(query));
    var stringToSign := StringToSign(c, timestamp, CredentialScope(date, region), canonicalRequest);
    HmacHex(c, SigningKey(c, secretAccessKey, date, region), stringToSign)
  }

  /** The final URL: scheme, host, path and the encoded query. */
  function SignedURL(t: Target, encodedQuery: GoString): GoString
  {
    "https://" + t.host + t.canonicalURI + "?" + encodedQuery
  }

  /** What `generatePresignedURL` returns for the instant `now`. */
  ghost function PresignedURL(c: Primitives, accessKeyID: GoString, secretAccessKey: GoString, region: GoString,
                              endpoint: GoString, bucket: GoString, linkStyle: GoString, key: GoString,
                              now: Instant): Result<GoString, Error>
  {
    match HostAndURI(linkStyle, endpoint, bucket, key)
    case Failure(e) => Failure(e)
    case Success(t) =>
      var query := SignedParams(accessKeyID, FormatDate(now), region, FormatTimestamp(now));
      var signature := Signature(c, accessKeyID, secretAccessKey, region, t, now);
      Success(SignedURL(t, Encode(Set(query, SignatureKey, signature))))
  }

  /** The keys of a map, collected into a fresh slice in whatever order the
      map yields them. */
  method CollectKeys(query: Values) returns (keys: array<GoString>)
    ensures fresh(keys)
    ensures multiset(keys[..]) == multiset(query.Keys)
  {
    keys := new GoString[|query|];
    var remaining := query.Keys;
    var n := 0;
    while remaining != {}
      invariant remaining <= query.Keys
      invariant n + |remaining| == keys.Length
      invariant multiset(keys[..n]) + multiset(remaining) == multiset(query.Keys)
      decreases remaining
    {
      var k :| k in remaining;
      keys[n] := k;
      assert keys[..n + 1] == keys[..n] + [k];
      assert multiset(remaining) == multiset(remaining - {k}) + multiset{k} by {
        assert remaining == (remaining - {k}) + {k};
      }
      n := n + 1;
      remaining := remaining - {k};
    }
    assert keys[..n] == keys[..];
  }

  /** Whatever order the keys were collected in, once sorted they are the
      map's keys in ascending order. */
  lemma SortedCollectedKeys(sorted: seq<GoString>, query: Values)
    requires Sorted(sorted) && multiset(sorted) == multiset(query.Keys)
    ensures sorted == SortedKeys(query.Keys)
    ensures forall i | 0 <= i < |sorted| :: sorted[i] in query
  {
    SortedUnique(sorted, SortedKeys(query.Keys));
    forall i | 0 <= i < |sorted| ensures sorted[i] in query {
      assert sorted[i] in multiset(sorted);
    }
  }

  /** The inner loop of the canonical query string: one `key=value` part per
      value of the key, appended in the order of the values. */
  method AppendKeyParts(parts: seq<GoString>, k: GoString, values: seq<GoString>) returns (r: seq<GoString>)
    ensures r == parts + KeyParts(k, values)
  {
    r := parts;
    for j := 0 to |values|
      invariant r == parts + KeyParts(k, values[..j])
    {
      r := r + [Pair(k, values[j])];
      assert values[..j + 1][..j] == values[..j];
    }
    assert values[..|values|] == values;
  }

  /** The canonical query string (also what `Values.Encode` computes): the
      keys are collected from the map in whatever order it yields them,
      sorted in place, and each key's `key=value` parts are appended. The
      result is the sorted encoding, whatever the collection order was. */
  method CanonicalQueryString(query: Values) returns (s: GoString)
    ensures s == Encode(query)
  {
    var keys := CollectKeys(query);
    SortStrings(keys);
    SortedCollectedKeys(keys[..], query);
    var canonicalQueryParts := KeysParts(keys, query);
    s := Join(canonicalQueryParts, "&");
  }

  /** The outer loop of the canonical query string: the parts of each key in
      turn, in the order of the keys. */
  method KeysParts(keys: array<GoString>, query: Values) returns (parts: seq<GoString>)
    requires forall i | 0 <= i < keys.Length :: keys[i] in query
    ensures parts == Parts(keys[..], query)
  {
    parts := [];
    for i := 0 to keys.Length
      invariant parts == Parts(keys[..i], query)
    {
      var k := keys[i];
      parts := AppendKeyParts(parts, k, query[k]);
      assert keys[..i + 1][..i] == keys[..i];
    }
    assert keys[..keys.Length] == keys[..];
  }

  /** `generatePresignedURL`, with the clock reading `now` passed in. */
  method GeneratePresignedURL(c: Primitives, accessKeyID: GoString, secretAccessKey: GoString, region: GoString,
                              endpoint: GoString, bucket: GoString, linkStyle: GoString, key: GoString,
                              now: Instant) returns (r: Result<GoString, Error>)
    ensures r == PresignedURL(c, accessKeyID, secretAccessKey, region, endpoint, bucket, linkStyle, key, now)
  {
    var escapedKey := PathEscape(key);
    var host, canonicalURI;
    if linkStyle == "path" {
      host := endpoint;
      canonicalURI := "/" + bucket + "/" + escapedKey;
    } else if linkStyle == "vhost" {
      host := bucket + "." + endpoint;
      canonicalURI := "/" + escapedKey;
    } else {
      return Failure(InvalidLinkStyle);
    }

    ghost var t := Target(host, canonicalURI);
    assert HostAndURI(linkStyle, endpoint, bucket, key) == Success(t);

    var date := FormatDate(now);
    var timestamp := FormatTimestamp(now);

    var query: Values := map[];
    query := Set(query, AlgorithmKey, Algorithm);
    query := Set(query, CredentialKey, Credential(accessKeyID, date, region));
    query := Set(query, DateKey, timestamp);
    query := Set(query, ExpiresKey, ExpiresSeconds);
    query := Set(query, SignedHeadersKey, SignedHeaders);

    var canonicalQueryString := CanonicalQueryString(query);
    var canonicalRequest := CanonicalRequest(Target(host, canonicalURI), canonicalQueryString);
    var credentialScope := CredentialScope(date, region);
    var stringToSign := StringToSign(c, timestamp, credentialScope, canonicalRequest);
    var signingKey := SigningKey(c, secretAccessKey, date, region);
    var signature := HmacHex(c, signingKey, stringToSign);
    assert signature == Signature(c, accessKeyID, secretAccessKey, region, t, now);

    query := Set(query, SignatureKey, signature);
    var encoded := CanonicalQueryString(query);
    r := Success(SignedURL(Target(host, canonicalURI), encoded));
  }

  /** The backend's configuration, written once by `New` and only read
      afterwards. */
  datatype S3 = S3(accessKeyID: GoString, secretAccessKey: GoString, region: GoString, endpoint: GoString,
                   bucket: GoString, prefix: GoString, linkStyle: GoString, timeoutSeconds: int)

  /** `New`: note that it takes the endpoint before the region, while the
      struct (and the signer) list the region first. */
  function New(accessKeyID: GoString, secretAccessKey: GoString, endpoint: GoString, region: GoString,
               bucket: GoString, prefix: GoString, linkStyle: GoString, timeoutSeconds: int): (r: S3)
    ensures r.region == region && r.endpoint == endpoint
    ensures r.accessKeyID == accessKeyID && r.secretAccessKey == secretAccessKey && r.bucket == bucket
    ensures r.prefix == prefix && r.linkStyle == linkStyle && r.timeoutSeconds == timeoutSeconds
  {
    S3(accessKeyID, secretAccessKey, region, endpoint, bucket, prefix, linkStyle, timeoutSeconds)
  }

  /** The URL `s.Get(path)` signs: the presigned URL of the key `prefix +
      path` under the backend's configuration. */
  ghost function GetURL(c: Primitives, s: S3, path: GoString, now: Instant): Result<GoString, Error>
  {
    PresignedURL(c, s.accessKeyID, s.secretAccessKey, s.region, s.endpoint, s.bucket, s.linkStyle, s.prefix + path, now)
  }

  /** The message `Get` writes with status 500 when signing fails. */
  function SignFailureMessage(e: Error): GoString
  {
    "unable to generate presigned URL, " + e.message
  }

  /** How the signing half of `Get` ends: either it answers 500 with the
      signing error and returns that error, fetching nothing, or it goes on
      to fetch the URL. */
  datatype GetStep =
    | SignFailed(status: int, message: GoString, err: Error)
    | Fetch(url: GoString)

  const StatusInternalServerError := 500

  /** The signing half of `s.Get(path, rw)`, with the clock reading `now`. */
  method Get(c: Primitives, s: S3, path: GoString, now: Instant) returns (step: GetStep)
    ensures step.SignFailed? <==> s.linkStyle != "path" && s.linkStyle != "vhost"
    ensures step.SignFailed? ==> step == SignFailed(StatusInternalServerError, SignFailureMessage(InvalidLinkStyle), InvalidLinkStyle)
    ensures step.Fetch? ==> GetURL(c, s, path, now) == Success(step.url)
  {
    var key := s.prefix + path;
    var urlStr := GeneratePresignedURL(c, s.accessKeyID, s.secretAccessKey, s.region, s.endpoint, s.bucket, s.linkStyle, key, now);
    if urlStr.Failure? {
      return SignFailed(StatusInternalServerError, SignFailureMessage(urlStr.error), urlStr.error);
    }
    step := Fetch(urlStr.value);
  }
}
