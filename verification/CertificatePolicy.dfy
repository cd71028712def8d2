/** Remembered decisions about faulty certificates, web/security/cert_policy.cc and
    web/security/certificate_policy_cache.cc. A certificate is its chain fingerprint. */
module CertificatePolicy {
  import opened Prelude

  type Fingerprint = string
  type Host = string
  type CertStatus = bv32

  datatype Judgment = UNKNOWN | ALLOWED | DENIED

  /** The bit test of Check on a stored status. */
  predicate Matches(stored: CertStatus, error: CertStatus) {
    stored & error != 0 && (!(stored & error) ^ !error) == 0
  }

  function Judged(allowed: Option<CertStatus>, error: CertStatus): Judgment {
    if allowed.Some? && Matches(allowed.value, error) then ALLOWED else UNKNOWN
  }

  /** The errors of `error` that were not there when `stored` was stored. */
  function AdditionalErrors(stored: CertStatus, error: CertStatus): CertStatus {
    error & !stored
  }

  lemma MatchMeansNoAdditional(a: CertStatus, e: CertStatus)
    requires a & e != 0 && (!(a & e) ^ !e) == 0
    ensures e != 0 && e & !a == 0
  {
  }

  lemma NoAdditionalMeansMatch(a: CertStatus, e: CertStatus)
    requires e != 0 && e & !a == 0
    ensures a & e != 0 && (!(a & e) ^ !e) == 0
  {
  }

  lemma MatchesIff(a: CertStatus, e: CertStatus)
    ensures Matches(a, e) <==> e != 0 && AdditionalErrors(a, e) == 0
  {
    if Matches(a, e) {
      MatchMeansNoAdditional(a, e);
    } else if e != 0 && AdditionalErrors(a, e) == 0 {
      NoAdditionalMeansMatch(a, e);
    }
  }

  /** Allowed means: stored, some error, and no additional error. */
  lemma AllowedIff(allowed: Option<CertStatus>, error: CertStatus)
    ensures Judged(allowed, error) == ALLOWED <==>
            allowed.Some? && error != 0 && AdditionalErrors(allowed.value, error) == 0
    ensures Judged(allowed, error) != DENIED
  {
    if allowed.Some? {
      MatchesIff(allowed.value, error);
    }
  }

  /** "Exact match to or subset", the comment on the bit test, is what it means exactly for
      queries that name some error. */
  lemma SubsetIff(stored: CertStatus, error: CertStatus)
    ensures (Judged(Some(stored), error) == ALLOWED <==> AdditionalErrors(stored, error) == 0) <==> error != 0
  {
    MatchesIff(stored, error);
    NoErrorIsUnknown(stored);
  }

  /** A query without any error is a subset of every stored status, but not allowed. */
  lemma NoErrorIsUnknown(stored: CertStatus)
    ensures Judged(Some(stored), 0) == UNKNOWN && AdditionalErrors(stored, 0) == 0
  {
    MatchesIff(stored, 0);
  }

  /** What is allowed stays allowed with fewer errors, as long as one is left. */
  lemma FewerErrorsStayAllowed(allowed: Option<CertStatus>, error: CertStatus, fewer: CertStatus)
    requires Judged(allowed, error) == ALLOWED && fewer != 0 && fewer & error == fewer
    ensures Judged(allowed, fewer) == ALLOWED
  {
    AllowedIff(allowed, error);
    AllowedIff(allowed, fewer);
    Fewer(allowed.value, error, fewer);
  }

  lemma Fewer(a: CertStatus, e: CertStatus, f: CertStatus)
    requires e & !a == 0 && f & e == f
    ensures f & !a == 0
  {
  }

  type Policy = map<Fingerprint, CertStatus>

  function Lookup(policy: Policy, cert: Fingerprint): Option<CertStatus> {
    if cert in policy then Some(policy[cert]) else None
  }

  class CertPolicy {
    var allowed: Policy

    constructor ()
      ensures allowed == map[]
    {
      allowed := map[];
    }

    method Check(cert: Fingerprint, error: CertStatus) returns (j: Judgment)
      ensures j == Judged(Lookup(allowed, cert), error)
    {
      if cert in allowed && Matches(allowed[cert], error) {
        return ALLOWED;
      }
      return UNKNOWN;
    }

    method Allow(cert: Fingerprint, error: CertStatus)
      modifies this
      ensures allowed == old(allowed)[cert := error]
    {
      allowed := allowed[cert := error];
    }
  }

  /** The std::map of policies holds its CertPolicy objects by value: one per host, none
      shared. */
  class CertificatePolicyCache {
    var certPolicyForHost: map<Host, CertPolicy>
    ghost var repr: set<object>

    ghost predicate Valid()
      reads this, repr
    {
      && this in repr
      && (forall h | h in certPolicyForHost :: certPolicyForHost[h] in repr)
      && (forall h, k | h in certPolicyForHost && k in certPolicyForHost && h != k ::
            certPolicyForHost[h] != certPolicyForHost[k])
    }

    /** What is stored for a host; nothing and an empty policy are the same. */
    ghost function Stored(host: Host, cert: Fingerprint): Option<CertStatus>
      requires Valid()
      reads this, repr
    {
      if host in certPolicyForHost then Lookup(certPolicyForHost[host].allowed, cert) else None
    }

    constructor ()
      ensures Valid() && fresh(repr)
      ensures forall host, cert :: Stored(host, cert).None?
    {
      certPolicyForHost := map[];
      repr := {this};
    }

    /** operator[] of std::map: an empty policy is inserted for a new host. */
    method PolicyFor(host: Host) returns (policy: CertPolicy)
      requires Valid()
      modifies this
      ensures Valid() && fresh(repr - old(repr))
      ensures host in certPolicyForHost && certPolicyForHost[host] == policy
      ensures policy in repr && (fresh(policy) || policy in old(repr))
      ensures forall h, cert :: Stored(h, cert) == old(Stored(h, cert))
    {
      if host !in certPolicyForHost {
        var p := new CertPolicy();
        certPolicyForHost := certPolicyForHost[host := p];
        repr := repr + {p};
      }
      policy := certPolicyForHost[host];
    }

    method AllowCertForHost(cert: Fingerprint, host: Host, error: CertStatus)
      requires Valid()
      modifies repr
      ensures Valid() && fresh(repr - old(repr))
      ensures forall h, c :: Stored(h, c) == if h == host && c == cert then Some(error) else old(Stored(h, c))
    {
      var policy := PolicyFor(host);
      policy.Allow(cert, error);
    }

    /** A query may insert an empty policy, which changes no answer. */
    method QueryPolicy(cert: Fingerprint, host: Host, error: CertStatus) returns (j: Judgment)
      requires Valid()
      modifies repr
      ensures Valid() && fresh(repr - old(repr))
      ensures j == Judged(old(Stored(host, cert)), error)
      ensures forall h, c :: Stored(h, c) == old(Stored(h, c))
    {
      var policy := PolicyFor(host);
      j := policy.Check(cert, error);
    }

    method ClearCertificatePolicies()
      requires Valid()
      modifies this
      ensures Valid() && repr == old(repr)
      ensures forall h, c :: Stored(h, c).None?
    {
      certPolicyForHost := map[];
    }

    /** A run of calls: each query is answered from the history of allows and clears, and
        what is stored in the end is what that history says. */
    method Run(calls: seq<Call>) returns (answers: seq<Judgment>)
      requires Valid() && forall h, c :: Stored(h, c).None?
      modifies repr
      ensures Valid() && fresh(repr - old(repr)) && answers == Answers(calls)
      ensures forall h, c :: Stored(h, c) == LastAllow(calls, h, c)
    {
      answers := [];
      for i := 0 to |calls|
        invariant Valid() && fresh(repr - old(repr))
        invariant forall h, c :: Stored(h, c) == LastAllow(calls[..i], h, c)
        invariant answers == Answers(calls[..i])
      {
        assert calls[..i + 1][..i] == calls[..i];
        match calls[i] {
          case Allow(cert, host, error) => AllowCertForHost(cert, host, error);
          case Clear => ClearCertificatePolicies();
          case Query(cert, host, error) =>
            var j := QueryPolicy(cert, host, error);
            answers := answers + [j];
        }
      }
      assert calls[..|calls|] == calls;
    }
  }

  // ---------------------------------------------------------------------------
  // Histories

  datatype Call =
    | Allow(cert: Fingerprint, host: Host, error: CertStatus)
    | Query(cert: Fingerprint, host: Host, error: CertStatus)
    | Clear

  /** The status of the most recent allow for this host and certificate since the last
      clear. */
  function LastAllow(calls: seq<Call>, host: Host, cert: Fingerprint): Option<CertStatus> {
    if calls == [] then None
    else
      var c := calls[|calls| - 1];
      if c.Clear? then None
      else if c == Allow(cert, host, c.error) then Some(c.error)
      else LastAllow(calls[..|calls| - 1], host, cert)
  }

  function Answers(calls: seq<Call>): seq<Judgment> {
    if calls == [] then []
    else
      var before, c := calls[..|calls| - 1], calls[|calls| - 1];
      Answers(before) + if c.Query? then [Judged(LastAllow(before, c.host, c.cert), c.error)] else []
  }

  function WithoutQueries(calls: seq<Call>): seq<Call> {
    if calls == [] then []
    else
      var c := calls[|calls| - 1];
      WithoutQueries(calls[..|calls| - 1]) + if c.Query? then [] else [c]
  }

  lemma LastAllowOneMore(calls: seq<Call>, c: Call, host: Host, cert: Fingerprint)
    ensures LastAllow(calls + [c], host, cert) ==
            if c.Clear? then None
            else if c.Allow? && c.cert == cert && c.host == host then Some(c.error)
            else LastAllow(calls, host, cert)
  {
    assert (calls + [c])[..|calls|] == calls;
  }

  lemma {:induction false} LastAllowWithoutQueries(calls: seq<Call>, host: Host, cert: Fingerprint)
    ensures LastAllow(WithoutQueries(calls), host, cert) == LastAllow(calls, host, cert)
  {
    if calls != [] {
      var before, c := calls[..|calls| - 1], calls[|calls| - 1];
      LastAllowWithoutQueries(before, host, cert);
      if !c.Query? {
        LastAllowOneMore(WithoutQueries(before), c, host, cert);
        assert WithoutQueries(calls) == WithoutQueries(before) + [c];
      } else {
        assert WithoutQueries(calls) == WithoutQueries(before);
      }
    }
  }

  /** Queries have no influence on later answers, although each may insert an empty policy:
      a cache that went through some calls and one that went through the same calls except
      for the queries answer any next query alike. */
  method QueriesDoNotMatter(calls: seq<Call>, host: Host, cert: Fingerprint, error: CertStatus)
    returns (answer: Judgment, answerWithout: Judgment)
    ensures answer == answerWithout == Judged(LastAllow(calls, host, cert), error)
  {
    var cache := new CertificatePolicyCache();
    var _ := cache.Run(calls);
    answer := cache.QueryPolicy(cert, host, error);
    var other := new CertificatePolicyCache();
    var _ := other.Run(WithoutQueries(calls));
    answerWithout := other.QueryPolicy(cert, host, error);
    LastAllowWithoutQueries(calls, host, cert);
  }

  /** A query is answered ALLOWED exactly if the certificate was allowed for the host at
      some point `i`, with nothing after it that clears or replaces this, and the query
      names some error and no error that was not there then. */
  lemma {:induction false} AllowedFromHistory(calls: seq<Call>, host: Host, cert: Fingerprint, error: CertStatus)
    ensures Judged(LastAllow(calls, host, cert), error) == ALLOWED <==> AllowedAt(calls, host, cert, error)
  {
    AllowedIff(LastAllow(calls, host, cert), error);
    LastAllowIsInForce(calls, host, cert);
  }

  predicate AllowedAt(calls: seq<Call>, host: Host, cert: Fingerprint, error: CertStatus) {
    exists i :: 0 <= i < |calls| && InForce(calls, i, host, cert) && error != 0
                && AdditionalErrors(calls[i].error, error) == 0
  }

  /** So the answers of a run are determined query by query from the calls before it. */
  lemma {:induction false} AnswersFromHistory(calls: seq<Call>, k: nat) returns (j: nat)
    requires k < |calls| && calls[k].Query?
    ensures j < |Answers(calls)| && j == |Answers(calls[..k])|
    ensures Answers(calls)[j] ==
            if AllowedAt(calls[..k], calls[k].host, calls[k].cert, calls[k].error) then ALLOWED else UNKNOWN
  {
    var before := calls[..|calls| - 1];
    if k < |before| {
      j := AnswersFromHistory(before, k);
      assert before[..k] == calls[..k];
    } else {
      j := |Answers(before)|;
      AllowedFromHistory(before, calls[k].host, calls[k].cert, calls[k].error);
      AllowedIff(LastAllow(before, calls[k].host, calls[k].cert), calls[k].error);
    }
  }

  /** Call `i` allowed the certificate, and neither a clear nor another allow for it
      came later. */
  predicate InForce(calls: seq<Call>, i: nat, host: Host, cert: Fingerprint)
    requires i < |calls|
  {
    && calls[i].Allow? && calls[i].cert == cert && calls[i].host == host
    && forall k :: i < k < |calls| ==>
         !calls[k].Clear? && !(calls[k].Allow? && calls[k].cert == cert && calls[k].host == host)
  }

  lemma {:induction false} LastAllowIsInForce(calls: seq<Call>, host: Host, cert: Fingerprint)
    ensures forall i :: 0 <= i < |calls| && InForce(calls, i, host, cert) ==>
              LastAllow(calls, host, cert) == Some(calls[i].error)
    ensures LastAllow(calls, host, cert).Some? ==> exists i :: 0 <= i < |calls| && InForce(calls, i, host, cert)
  {
    if calls != [] {
      var before, c := calls[..|calls| - 1], calls[|calls| - 1];
      LastAllowIsInForce(before, host, cert);
      forall i | 0 <= i < |calls| && InForce(calls, i, host, cert)
        ensures LastAllow(calls, host, cert) == Some(calls[i].error)
      {
        if i < |before| {
          assert InForce(before, i, host, cert);
        }
      }
      if LastAllow(calls, host, cert).Some? {
        if c.Allow? && c.cert == cert && c.host == host {
          assert InForce(calls, |before|, host, cert);
        } else {
          var i :| 0 <= i < |before| && InForce(before, i, host, cert);
          assert InForce(calls, i, host, cert);
        }
      }
    }
  }
}
