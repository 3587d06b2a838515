/** Browser fingerprints (backend/core/middleware/fingerprint.py): the
    SHA-256 of six request headers serialised as a key-sorted JSON object,
    attached to every request before it reaches the views. */
module Fingerprint {
  import opened Common
  import opened Json
  import opened Idempotency

  /** The six META entries the fingerprint is made of, with the JSON field
      each one is stored under. */
  const FingerprintHeaders: seq<(string, string)> := [
    ("user_agent", "HTTP_USER_AGENT"),
    ("accept_language", "HTTP_ACCEPT_LANGUAGE"),
    ("accept_encoding", "HTTP_ACCEPT_ENCODING"),
    ("accept", "HTTP_ACCEPT"),
    ("connection", "HTTP_CONNECTION"),
    ("dnt", "HTTP_DNT")
  ]

  /** The fingerprint object; an absent header contributes "". */
  function FingerprintData(meta: Meta): (d: map<string, string>)
    ensures d.Keys == {"user_agent", "accept_language", "accept_encoding", "accept", "connection", "dnt"}
    ensures forall i :: 0 <= i < |FingerprintHeaders| ==>
              d[FingerprintHeaders[i].0] == MetaGet(meta, FingerprintHeaders[i].1, "")
  {
    map[
      "user_agent" := MetaGet(meta, "HTTP_USER_AGENT", ""),
      "accept_language" := MetaGet(meta, "HTTP_ACCEPT_LANGUAGE", ""),
      "accept_encoding" := MetaGet(meta, "HTTP_ACCEPT_ENCODING", ""),
      "accept" := MetaGet(meta, "HTTP_ACCEPT", ""),
      "connection" := MetaGet(meta, "HTTP_CONNECTION", ""),
      "dnt" := MetaGet(meta, "HTTP_DNT", "")
    ]
  }

  /** extract_fingerprint */
  function ExtractFingerprint(sha: Hasher, dumps: Dumps, meta: Meta): Digest {
    sha(dumps(SortedItems(FingerprintData(meta))))
  }

  /** validate_fingerprint: the stored value matches exactly when it equals
      the fingerprint of the current request. */
  function ValidateFingerprint(sha: Hasher, dumps: Dumps, meta: Meta, stored: string): (ok: bool)
    ensures ok <==> stored == ExtractFingerprint(sha, dumps, meta)
  {
    ExtractFingerprint(sha, dumps, meta) == stored
  }

  /** Two requests agree on the six headers (reading an absent header as ""). */
  predicate SameFingerprintHeaders(m1: Meta, m2: Meta) {
    forall i :: 0 <= i < |FingerprintHeaders| ==>
      MetaGet(m1, FingerprintHeaders[i].1, "") == MetaGet(m2, FingerprintHeaders[i].1, "")
  }

  /** The fingerprint object is determined by the six headers, and different
      header values give a different object: the serialised hash input
      separates requests exactly by these headers. */
  lemma FingerprintDataExact(m1: Meta, m2: Meta)
    ensures FingerprintData(m1) == FingerprintData(m2) <==> SameFingerprintHeaders(m1, m2)
  {
    var d1, d2 := FingerprintData(m1), FingerprintData(m2);
    if SameFingerprintHeaders(m1, m2) {
      forall k | k in d1 ensures d1[k] == d2[k] {
        var i :| 0 <= i < |FingerprintHeaders| && FingerprintHeaders[i].0 == k by {
          assert FingerprintHeaders[0].0 == "user_agent";
          assert FingerprintHeaders[1].0 == "accept_language";
          assert FingerprintHeaders[2].0 == "accept_encoding";
          assert FingerprintHeaders[3].0 == "accept";
          assert FingerprintHeaders[4].0 == "connection";
          assert FingerprintHeaders[5].0 == "dnt";
        }
      }
      assert d1 == d2;
    }
  }

  /** Headers other than the six do not affect the fingerprint; so fingerprint
      equality is implied by header agreement, and a hash input differs
      whenever one of the six headers differs. */
  lemma FingerprintDependsOnHeaders(sha: Hasher, dumps: Dumps, m1: Meta, m2: Meta)
    ensures SameFingerprintHeaders(m1, m2) ==> ExtractFingerprint(sha, dumps, m1) == ExtractFingerprint(sha, dumps, m2)
    ensures !SameFingerprintHeaders(m1, m2) ==> SortedItems(FingerprintData(m1)) != SortedItems(FingerprintData(m2))
  {
    FingerprintDataExact(m1, m2);
    if SortedItems(FingerprintData(m1)) == SortedItems(FingerprintData(m2)) {
      SortedItemsInjective(FingerprintData(m1), FingerprintData(m2));
    }
  }

  /** A missing header and an empty header give the same fingerprint. */
  lemma AbsentHeaderIsEmpty(sha: Hasher, dumps: Dumps, meta: Meta, h: string)
    requires h in meta && meta[h] == ""
    ensures ExtractFingerprint(sha, dumps, meta - {h}) == ExtractFingerprint(sha, dumps, meta)
  {
    assert SameFingerprintHeaders(meta - {h}, meta);
    FingerprintDependsOnHeaders(sha, dumps, meta - {h}, meta);
  }

  /** A request always validates against the fingerprint it was given. */
  lemma ValidateOwnFingerprint(sha: Hasher, dumps: Dumps, meta: Meta)
    ensures ValidateFingerprint(sha, dumps, meta, ExtractFingerprint(sha, dumps, meta))
  {
  }

  /** The parts of an incoming request the middleware reads and writes. */
  class Request {
    const meta: Meta
    var fingerprint: Option<Digest>

    constructor (meta: Meta)
      ensures this.meta == meta && fingerprint == None
    {
      this.meta := meta;
      fingerprint := None;
    }
  }

  /** The middleware, around the next handler of the chain. The handler sees
      the request's headers and the fingerprint attached to it. */
  class FingerprintMiddleware<R> {
    const sha: Hasher
    const dumps: Dumps
    const getResponse: (Meta, Option<Digest>) -> R

    constructor (sha: Hasher, dumps: Dumps, getResponse: (Meta, Option<Digest>) -> R)
      ensures this.sha == sha && this.dumps == dumps && this.getResponse == getResponse
    {
      this.sha := sha;
      this.dumps := dumps;
      this.getResponse := getResponse;
    }

    /** `__call__`: attach the fingerprint, then return the downstream
        response unchanged. */
    method Call(request: Request) returns (response: R)
      modifies request
      ensures request.fingerprint == Some(ExtractFingerprint(sha, dumps, request.meta))
      ensures response == getResponse(request.meta, request.fingerprint)
    {
      request.fingerprint := Some(ExtractFingerprint(sha, dumps, request.meta));
      response := getResponse(request.meta, request.fingerprint);
    }
  }
}
