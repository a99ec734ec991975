/** What the presigned URL is, stated outright: the addressing each link
    style gives, the exact canonical query before and after signing, the
    line structure of the canonical request and of the string to sign, the
    credential scope and the signing key it folds, and the URL as a whole. */
module S3Properties {
  import opened Wrappers
  import opened GoStrings
  import opened Sorting
  import Hex
  import opened UrlEscape
  import opened UrlValues
  import opened TimeFormat
  import opened Crypto
  import opened S3

  // The byte order of neighbouring query keys.

  lemma AlgorithmBeforeCredential()
    ensures Leq(AlgorithmKey, CredentialKey) && AlgorithmKey != CredentialKey
  {
  }

  lemma CredentialBeforeDate()
    ensures Leq(CredentialKey, DateKey) && CredentialKey != DateKey
  {
  }

  lemma DateBeforeExpires()
    ensures Leq(DateKey, ExpiresKey) && DateKey != ExpiresKey
  {
  }

  lemma ExpiresBeforeSignature()
    ensures Leq(ExpiresKey, SignatureKey) && ExpiresKey != SignatureKey
  {
  }

  lemma ExpiresBeforeSignedHeaders()
    ensures Leq(ExpiresKey, SignedHeadersKey) && ExpiresKey != SignedHeadersKey
  {
  }

  lemma SignatureBeforeSignedHeaders()
    ensures Leq(SignatureKey, SignedHeadersKey) && SignatureKey != SignedHeadersKey
  {
    var sign: GoString := "X-Amz-Sign";
    assert SignatureKey == sign + "ature";
    assert SignedHeadersKey == sign + "edHeaders";
    LeqAfterPrefix(sign, "ature", "edHeaders");
  }

  /** Five strings, each before the next, in a sequence. */
  lemma Ascending5(a: GoString, b: GoString, c: GoString, d: GoString, e: GoString)
    requires Leq(a, b) && Leq(b, c) && Leq(c, d) && Leq(d, e)
    requires a != b && b != c && c != d && d != e
    ensures Sorted([a, b, c, d, e])
    ensures forall i, j | 0 <= i < j < 5 :: [a, b, c, d, e][i] != [a, b, c, d, e][j]
  {
    StrictlySortedDistinct([a, b, c, d, e]);
  }

  /** Six strings, each before the next, in a sequence. */
  lemma Ascending6(a: GoString, b: GoString, c: GoString, d: GoString, e: GoString, f: GoString)
    requires Leq(a, b) && Leq(b, c) && Leq(c, d) && Leq(d, e) && Leq(e, f)
    requires a != b && b != c && c != d && d != e && e != f
    ensures Sorted([a, b, c, d, e, f])
    ensures forall i, j | 0 <= i < j < 6 :: [a, b, c, d, e, f][i] != [a, b, c, d, e, f][j]
  {
    StrictlySortedDistinct([a, b, c, d, e, f]);
  }

  /** Four pairs Set on an empty map, written out. */
  lemma SetAllFour(k1: GoString, v1: GoString, k2: GoString, v2: GoString, k3: GoString, v3: GoString,
                   k4: GoString, v4: GoString)
    ensures SetAll(map[], [(k1, v1), (k2, v2), (k3, v3), (k4, v4)])
         == Set(Set(Set(Set(map[], k1, v1), k2, v2), k3, v3), k4, v4)
  {
    var l: seq<(GoString, GoString)> := [(k1, v1), (k2, v2), (k3, v3), (k4, v4)];
    var q1 := Set(map[], k1, v1);
    var q2 := Set(q1, k2, v2);
    calc {
      SetAll(map[], l);
      SetAll(q1, l[1..]);
      { assert l[1..][1..] == l[2..]; }
      SetAll(q2, l[2..]);
      { assert l[2..][1..] == l[3..]; }
      SetAll(Set(q2, k3, v3), l[3..]);
      { assert |l[3..][1..]| == 0; }
      Set(Set(q2, k3, v3), k4, v4);
    }
  }

  /** Two pairs Set, written out. */
  lemma SetAllTwo(q: Values, k1: GoString, v1: GoString, k2: GoString, v2: GoString)
    ensures SetAll(q, [(k1, v1), (k2, v2)]) == Set(Set(q, k1, v1), k2, v2)
  {
    var l: seq<(GoString, GoString)> := [(k1, v1), (k2, v2)];
    calc {
      SetAll(q, l);
      SetAll(Set(q, k1, v1), l[1..]);
      { assert |l[1..][1..]| == 0; }
      Set(Set(q, k1, v1), k2, v2);
    }
  }

  /** Six `Set` calls on an empty map, the last two swapped with respect
      to the list, give the map of the list. */
  lemma SetsSwappedLast(k1: GoString, v1: GoString, k2: GoString, v2: GoString, k3: GoString, v3: GoString,
                        k4: GoString, v4: GoString, k5: GoString, v5: GoString, k6: GoString, v6: GoString)
    requires k5 != k6
    ensures Set(Set(Set(Set(Set(Set(map[], k1, v1), k2, v2), k3, v3), k4, v4), k5, v5), k6, v6)
         == SetAll(map[], [(k1, v1), (k2, v2), (k3, v3), (k4, v4), (k6, v6), (k5, v5)])
  {
    var first: seq<(GoString, GoString)> := [(k1, v1), (k2, v2), (k3, v3), (k4, v4)];
    var last: seq<(GoString, GoString)> := [(k6, v6), (k5, v5)];
    var q4 := Set(Set(Set(Set(map[], k1, v1), k2, v2), k3, v3), k4, v4);
    assert first + last == [(k1, v1), (k2, v2), (k3, v3), (k4, v4), (k6, v6), (k5, v5)];
    SetAllAppend(map[], first, last);
    SetAllFour(k1, v1, k2, v2, k3, v3, k4, v4);
    SetAllTwo(q4, k6, v6, k5, v5);
    SetCommutes(q4, k5, v5, k6, v6);
  }

  /** The same six `Set` calls, with keys ascending once the last two are
      swapped, encode as the six parts in key order. */
  lemma EncodeSwappedLast(k1: GoString, v1: GoString, k2: GoString, v2: GoString, k3: GoString, v3: GoString,
                          k4: GoString, v4: GoString, k5: GoString, v5: GoString, k6: GoString, v6: GoString)
    requires Sorted([k1, k2, k3, k4, k6, k5])
    requires forall i, j | 0 <= i < j < 6 :: [k1, k2, k3, k4, k6, k5][i] != [k1, k2, k3, k4, k6, k5][j]
    ensures Encode(Set(Set(Set(Set(Set(Set(map[], k1, v1), k2, v2), k3, v3), k4, v4), k5, v5), k6, v6))
         == Join(PairParts([(k1, v1), (k2, v2), (k3, v3), (k4, v4), (k6, v6), (k5, v5)]), "&")
  {
    var pairs := [(k1, v1), (k2, v2), (k3, v3), (k4, v4), (k6, v6), (k5, v5)];
    assert [k1, k2, k3, k4, k6, k5][4] != [k1, k2, k3, k4, k6, k5][5];
    assert KeysOf(pairs) == [k1, k2, k3, k4, k6, k5];
    SetsSwappedLast(k1, v1, k2, v2, k3, v3, k4, v4, k5, v5, k6, v6);
    EncodeSortedPairs(pairs);
  }

  /** The five signed keys, as the source sets them, are in ascending
      order and distinct. */
  lemma SignedKeysAscending()
    ensures Sorted([AlgorithmKey, CredentialKey, DateKey, ExpiresKey, SignedHeadersKey])
    ensures forall i, j | 0 <= i < j < 5 ::
              [AlgorithmKey, CredentialKey, DateKey, ExpiresKey, SignedHeadersKey][i]
              != [AlgorithmKey, CredentialKey, DateKey, ExpiresKey, SignedHeadersKey][j]
  {
    AlgorithmBeforeCredential();
    CredentialBeforeDate();
    DateBeforeExpires();
    ExpiresBeforeSignedHeaders();
    Ascending5(AlgorithmKey, CredentialKey, DateKey, ExpiresKey, SignedHeadersKey);
  }

  /** With the signature added, X-Amz-Signature sorts between X-Amz-Expires
      and X-Amz-SignedHeaders. */
  lemma FinalKeysAscending()
    ensures Sorted([AlgorithmKey, CredentialKey, DateKey, ExpiresKey, SignatureKey, SignedHeadersKey])
    ensures forall i, j | 0 <= i < j < 6 ::
              [AlgorithmKey, CredentialKey, DateKey, ExpiresKey, SignatureKey, SignedHeadersKey][i]
              != [AlgorithmKey, CredentialKey, DateKey, ExpiresKey, SignatureKey, SignedHeadersKey][j]
  {
    AlgorithmBeforeCredential();
    CredentialBeforeDate();
    DateBeforeExpires();
    ExpiresBeforeSignature();
    SignatureBeforeSignedHeaders();
    Ascending6(AlgorithmKey, CredentialKey, DateKey, ExpiresKey, SignatureKey, SignedHeadersKey);
  }

  /** The `key=value` parts of a parameter list, in its order, joined by
      `&`. */
  function JoinedPairs(pairs: seq<(GoString, GoString)>): GoString
  {
    Join(PairParts(pairs), "&")
  }

  /** The canonical query string of the signed parameters: one
      `key=value` part per parameter, in the order the source sets them,
      which is ascending key order. */
  lemma CanonicalQueryPairs(accessKeyID: GoString, date: GoString, region: GoString, timestamp: GoString)
    ensures Encode(SignedParams(accessKeyID, date, region, timestamp))
         == JoinedPairs(SignedParamList(accessKeyID, date, region, timestamp))
  {
    var list := SignedParamList(accessKeyID, date, region, timestamp);
    SignedParamsAsList(accessKeyID, date, region, timestamp);
    SignedKeysAscending();
    assert KeysOf(list) == [AlgorithmKey, CredentialKey, DateKey, ExpiresKey, SignedHeadersKey];
    EncodeSortedPairs(list);
  }

  /** The parameters of the final URL in ascending key order: the signed
      five, with X-Amz-Signature between X-Amz-Expires and
      X-Amz-SignedHeaders. */
  function FinalParamList(accessKeyID: GoString, date: GoString, region: GoString, timestamp: GoString,
                          signature: GoString): (r: seq<(GoString, GoString)>)
    ensures multiset(r) == multiset(SignedParamList(accessKeyID, date, region, timestamp) + [(SignatureKey, signature)])
  {
    var list := SignedParamList(accessKeyID, date, region, timestamp);
    var r := [list[0], list[1], list[2], list[3], (SignatureKey, signature), list[4]];
    assert list == list[..4] + [list[4]];
    assert r == list[..4] + [(SignatureKey, signature), list[4]];
    r
  }

  /** The query of the final URL: the signed parameters and the signature,
      one `key=value` part each, in ascending key order. */
  lemma FinalQueryPairs(accessKeyID: GoString, date: GoString, region: GoString, timestamp: GoString,
                        signature: GoString)
    ensures Encode(Set(SignedParams(accessKeyID, date, region, timestamp), SignatureKey, signature))
         == JoinedPairs(FinalParamList(accessKeyID, date, region, timestamp, signature))
  {
    FinalKeysAscending();
    EncodeSwappedLast(AlgorithmKey, Algorithm, CredentialKey, Credential(accessKeyID, date, region),
                      DateKey, timestamp, ExpiresKey, ExpiresSeconds, SignedHeadersKey, SignedHeaders,
                      SignatureKey, signature);
  }

  // Addressing.

  /** Path style: the host is the endpoint, and the path has two segments,
      the bucket and the escaped key, which unescapes to the key. */
  lemma PathStyleAddressing(endpoint: GoString, bucket: GoString, key: GoString)
    requires '/' !in bucket
    ensures HostAndURI("path", endpoint, bucket, key).Success?
    ensures var t := HostAndURI("path", endpoint, bucket, key).value;
            t.host == endpoint
            && Split(t.canonicalURI, '/') == ["", bucket, PathEscape(key)]
            && PathUnescape(PathEscape(key)) == Some(key)
  {
    var escaped := PathEscape(key);
    var parts: seq<GoString> := ["", bucket, escaped];
    assert Join(parts, "/") == "/" + bucket + "/" + escaped by {
      assert parts[1..] == [bucket, escaped];
      assert parts[1..][1..] == [escaped];
    }
    SplitJoin(parts, '/');
    UnescapeEscape(key, PathSegment);
  }

  /** Virtual-hosted style: the host is the bucket, a dot and the endpoint,
      and the path is the one segment of the escaped key. */
  lemma VirtualHostedAddressing(endpoint: GoString, bucket: GoString, key: GoString)
    ensures HostAndURI("vhost", endpoint, bucket, key).Success?
    ensures var t := HostAndURI("vhost", endpoint, bucket, key).value;
            t.host[..|bucket|] == bucket && t.host[|bucket|] == '.' && t.host[|bucket| + 1..] == endpoint
            && Split(t.canonicalURI, '/') == ["", PathEscape(key)]
            && PathUnescape(PathEscape(key)) == Some(key)
  {
    var escaped := PathEscape(key);
    var parts: seq<GoString> := ["", escaped];
    assert Join(parts, "/") == "/" + escaped by {
      assert parts[1..] == [escaped];
    }
    SplitJoin(parts, '/');
    UnescapeEscape(key, PathSegment);
  }

  /** The two styles never give the same host, nor the same path. */
  lemma StylesNeverMix(endpoint: GoString, bucket: GoString, key: GoString)
    ensures var p, v := HostAndURI("path", endpoint, bucket, key), HostAndURI("vhost", endpoint, bucket, key);
            p.Success? && v.Success?
            && p.value.host != v.value.host && p.value.canonicalURI != v.value.canonicalURI
  {
    var p, v := HostAndURI("path", endpoint, bucket, key), HostAndURI("vhost", endpoint, bucket, key);
    assert |p.value.host| < |v.value.host|;
    assert |v.value.canonicalURI| < |p.value.canonicalURI|;
  }

  // The canonical request and the string to sign.

  /** The canonical request read line by line: the method, the path, the
      query, the one canonical header, the empty line that ends the headers,
      the signed headers and the payload hash. */
  lemma CanonicalRequestLines(t: Target, canonicalQuery: GoString)
    requires '\n' !in t.host && '\n' !in t.canonicalURI && '\n' !in canonicalQuery
    ensures Split(CanonicalRequest(t, canonicalQuery), '\n')
         == ["GET", t.canonicalURI, canonicalQuery, "host:" + t.host, "", SignedHeaders, UnsignedPayload]
  {
    var header: GoString := "host:" + t.host;
    var six: seq<GoString> := ["GET", t.canonicalURI, canonicalQuery, header + "\n", SignedHeaders, UnsignedPayload];
    var seven: seq<GoString> := ["GET", t.canonicalURI, canonicalQuery, header, "", SignedHeaders, UnsignedPayload];
    var head: seq<GoString> := ["GET", t.canonicalURI, canonicalQuery];
    var tail: seq<GoString> := [SignedHeaders, UnsignedPayload];
    assert Join(six, "\n") == Join(seven, "\n") by {
      assert six == head + [header + "\n"] + tail;
      assert seven == head + [header, []] + tail;
      TrailingSeparator(head, header, tail, "\n");
    }
    assert forall i | 0 <= i < |seven| :: '\n' !in seven[i];
    SplitJoin(seven, '\n');
  }

  /** The string to sign read line by line: the algorithm, the timestamp,
      the scope, and the hash of the canonical request as 64 lower-case
      hexadecimal digits that decode to the hash. */
  lemma StringToSignLines(c: Primitives, timestamp: GoString, scope: GoString, canonicalRequest: GoString)
    requires '\n' !in timestamp && '\n' !in scope
    ensures var lines := Split(StringToSign(c, timestamp, scope, canonicalRequest), '\n');
            |lines| == 4 && lines[..3] == [Algorithm, timestamp, scope]
            && |lines[3]| == 64 && (forall i | 0 <= i < 64 :: Hex.IsLowerHex(lines[3][i]))
            && Hex.Decode(lines[3]) == Some(c.sha256(canonicalRequest))
  {
    var digest := Hex.Encode(c.sha256(canonicalRequest));
    var lines: seq<GoString> := [Algorithm, timestamp, scope, digest];
    assert '\n' !in digest by {
      forall i | 0 <= i < |digest| ensures digest[i] != '\n' {
        assert Hex.IsLowerHex(digest[i]);
      }
    }
    assert forall i | 0 <= i < |lines| :: '\n' !in lines[i];
    SplitJoin(lines, '\n');
    Hex.DecodeEncode(c.sha256(canonicalRequest));
  }

  // The credential, its scope and the signing key.

  /** The fixed tail of the scope is the service and the terminator. */
  lemma ScopeSuffixSegments()
    ensures ScopeSuffix == "/" + Service + "/" + Terminator
  {
    var slash: GoString := "/";
    assert ScopeSuffix == slash + Service + slash + Terminator;
  }

  /** The scope reads back as its four segments: date, region, service and
      terminator. */
  lemma ScopeSegments(date: GoString, region: GoString)
    requires '/' !in date && '/' !in region
    ensures CredentialScope(date, region) == Join([date, region, Service, Terminator], "/")
    ensures Split(CredentialScope(date, region), '/') == [date, region, Service, Terminator]
  {
    var scope: seq<GoString> := [date, region, Service, Terminator];
    var slash: GoString := "/";
    ScopeSuffixSegments();
    assert scope[1..] == [region, Service, Terminator];
    assert scope[1..][1..] == [Service, Terminator];
    assert scope[1..][1..][1..] == [Terminator];
    assert Join(scope[2..], slash) == Service + slash + Terminator;
    assert Join(scope[1..], slash) == region + slash + Join(scope[2..], slash);
    calc {
      Join(scope, slash);
      date + slash + Join(scope[1..], slash);
      date + slash + (region + slash + (Service + slash + Terminator));
      date + slash + region + (slash + Service + slash + Terminator);
      date + slash + region + ScopeSuffix;
    }
    assert '/' !in Service && '/' !in Terminator;
    SplitJoin(scope, '/');
  }

  /** The credential is the access key and the scope, and reads back as the
      key followed by the scope's segments. */
  lemma CredentialSegments(accessKeyID: GoString, date: GoString, region: GoString)
    requires '/' !in accessKeyID && '/' !in date && '/' !in region
    ensures Credential(accessKeyID, date, region) == accessKeyID + "/" + CredentialScope(date, region)
    ensures Split(Credential(accessKeyID, date, region), '/') == [accessKeyID, date, region, Service, Terminator]
  {
    var scope: seq<GoString> := [date, region, Service, Terminator];
    var credential: seq<GoString> := [accessKeyID] + scope;
    var slash: GoString := "/";
    assert Credential(accessKeyID, date, region) == accessKeyID + slash + CredentialScope(date, region);
    ScopeSegments(date, region);
    assert credential[1..] == scope;
    assert Join(credential, slash) == accessKeyID + slash + Join(scope, slash);
    assert forall i | 0 <= i < |credential| :: '/' !in credential[i] by {
      assert '/' !in Service && '/' !in Terminator;
    }
    SplitJoin(credential, '/');
  }

  /** The signing key is the HMAC chain keyed by "AWS4" and the secret over
      the segments of the credential scope, in order. */
  lemma SigningKeyFoldsScope(c: Primitives, secret: GoString, date: GoString, region: GoString)
    requires '/' !in date && '/' !in region
    ensures SigningKey(c, secret, date, region)
         == HmacChain(c, "AWS4" + secret, Split(CredentialScope(date, region), '/'))
  {
    ScopeSegments(date, region);
    var segments: seq<GoString> := [date, region, Service, Terminator];
    var kDate := c.hmac("AWS4" + secret, date);
    var kRegion := c.hmac(kDate, region);
    var kService := c.hmac(kRegion, Service);
    calc {
      HmacChain(c, "AWS4" + secret, segments);
      { assert segments[1..] == [region, Service, Terminator]; }
      HmacChain(c, kDate, [region, Service, Terminator]);
      { assert [region, Service, Terminator][1..] == [Service, Terminator]; }
      HmacChain(c, kRegion, [Service, Terminator]);
      { assert [Service, Terminator][1..] == [Terminator]; }
      HmacChain(c, kService, [Terminator]);
      { assert [Terminator][1..] == []; }
      HmacChain(c, c.hmac(kService, Terminator), []);
    }
  }

  // The timestamp in the query.

  /** The timestamp needs no escaping in a query: it appears in the query as
      it is. */
  lemma TimestampUnescaped(now: Instant)
    ensures QueryEscape(FormatTimestamp(now)) == FormatTimestamp(now)
  {
    var timestamp := FormatTimestamp(now);
    TimestampAlphabet(now);
    assert forall i | 0 <= i < |timestamp| :: IsAlnum(timestamp[i]);
    EscapeUnchanged(timestamp, QueryComponent);
  }

  // The URL as a whole.

  /** The presigned URL, written out: for either link style it is the
      scheme, the host and the path of that style, and a query of the six
      parameters in key order, the signature among them. The signature is
      the HMAC, under the signing key, of the string to sign, whose canonical
      request holds the five signed parameters only. */
  lemma PresignedURLExplicit(c: Primitives, accessKeyID: GoString, secretAccessKey: GoString, region: GoString,
                             endpoint: GoString, bucket: GoString, linkStyle: GoString, key: GoString,
                             now: Instant)
    requires linkStyle == "path" || linkStyle == "vhost"
    ensures HostAndURI(linkStyle, endpoint, bucket, key).Success?
    ensures var t := HostAndURI(linkStyle, endpoint, bucket, key).value;
            var date, timestamp := FormatDate(now), FormatTimestamp(now);
            var canonicalQuery := JoinedPairs(SignedParamList(accessKeyID, date, region, timestamp));
            var canonicalRequest := CanonicalRequest(t, canonicalQuery);
            var stringToSign := StringToSign(c, timestamp, CredentialScope(date, region), canonicalRequest);
            var signature := HmacHex(c, SigningKey(c, secretAccessKey, date, region), stringToSign);
            PresignedURL(c, accessKeyID, secretAccessKey, region, endpoint, bucket, linkStyle, key, now)
            == Success(SignedURL(t, JoinedPairs(FinalParamList(accessKeyID, date, region, timestamp, signature))))
  {
    var date, timestamp := FormatDate(now), FormatTimestamp(now);
    var t := HostAndURI(linkStyle, endpoint, bucket, key).value;
    var canonicalQuery := JoinedPairs(SignedParamList(accessKeyID, date, region, timestamp));
    var signature := Signature(c, accessKeyID, secretAccessKey, region, t, now);
    assert signature == HmacHex(c, SigningKey(c, secretAccessKey, date, region),
                                StringToSign(c, timestamp, CredentialScope(date, region), CanonicalRequest(t, canonicalQuery))) by {
      CanonicalQueryPairs(accessKeyID, date, region, timestamp);
    }
    FinalQueryPairs(accessKeyID, date, region, timestamp, signature);
  }

  // The backend.

  /** A backend made by `New` signs with the region and the endpoint given
      to `New`, whatever their order in its parameter list, for the key
      `prefix + path`; the timeout plays no part in the URL. */
  lemma NewSignsPrefixedKey(c: Primitives, accessKeyID: GoString, secretAccessKey: GoString, endpoint: GoString,
                            region: GoString, bucket: GoString, prefix: GoString, linkStyle: GoString,
                            timeoutSeconds: int, timeoutSeconds': int, path: GoString, now: Instant)
    ensures GetURL(c, New(accessKeyID, secretAccessKey, endpoint, region, bucket, prefix, linkStyle, timeoutSeconds), path, now)
         == PresignedURL(c, accessKeyID, secretAccessKey, region, endpoint, bucket, linkStyle, prefix + path, now)
         == GetURL(c, New(accessKeyID, secretAccessKey, endpoint, region, bucket, prefix, linkStyle, timeoutSeconds'), path, now)
  {
  }
}
