/**
 * `getCookieDomain`: the broadest domain the browser lets the client set
 * cookies on. Each candidate is a dot followed by a suffix of the
 * hostname's labels, tried from the shortest suffix (the last label) to the
 * whole hostname; a probe cookie is set on each in turn and the first
 * candidate on which it becomes visible is returned, after the probe is
 * removed again.
 *
 * Whether the browser keeps a cookie set on a domain is an oracle
 * (`accepts`); the random probe name is a parameter that is not yet in the jar.
 */
module CookieDomain {
  import opened Values
  import opened Strings

  /** The cookie jar the probe writes to. */
  class CookieJar {
    var cookies: map<string, string>

    constructor (cookies: map<string, string>)
      ensures this.cookies == cookies
    {
      this.cookies := cookies;
    }
  }

  /** Candidate `i`: `.` followed by the labels from `i` on. */
  function Candidate(labels: seq<string>, i: nat): string
    requires i < |labels|
  {
    "." + Join(labels[i..], '.')
  }

  /** No candidate of `labels` is accepted. */
  predicate AcceptsNone(labels: seq<string>, accepts: string -> bool) {
    forall i :: 0 <= i < |labels| ==> !accepts(Candidate(labels, i))
  }

  /** `d` is the accepted candidate tried first, counting down from the
      last label. */
  predicate FirstAccepted(labels: seq<string>, accepts: string -> bool, d: string) {
    exists i :: 0 <= i < |labels| && d == Candidate(labels, i) && accepts(d) &&
      forall j :: i < j < |labels| ==> !accepts(Candidate(labels, j))
  }

  /** `getCookieDomain(config)`. `hostname` is `None` when there is no
      document. */
  method GetCookieDomain(configured: Option<string>, hostname: Option<string>, probe: string,
                         accepts: string -> bool, jar: CookieJar)
    returns (r: Option<string>)
    requires probe !in jar.cookies
    modifies jar
    ensures jar.cookies == old(jar.cookies)
    ensures configured.Some? && configured.value != "" ==> r == configured
    ensures (configured.None? || configured.value == "") && hostname.None? ==> r.None?
    ensures (configured.None? || configured.value == "") && hostname.Some? ==>
      var labels := Split(hostname.value, '.');
      (r.None? <==> AcceptsNone(labels, accepts)) &&
      (r.Some? ==> FirstAccepted(labels, accepts, r.value))
  {
    if configured.Some? && configured.value != "" {
      return configured;
    }
    if hostname.None? {
      return None;
    }
    var labels := Split(hostname.value, '.');
    var i := |labels|;
    while i > 0
      invariant 0 <= i <= |labels|
      invariant jar.cookies == old(jar.cookies)
      invariant forall j :: i <= j < |labels| ==> !accepts(Candidate(labels, j))
    {
      i := i - 1;
      var cookieDomain := Candidate(labels, i);
      if accepts(cookieDomain) {
        jar.cookies := jar.cookies[probe := "cookie"];
      }
      if probe in jar.cookies {
        jar.cookies := jar.cookies - {probe};
        assert jar.cookies == old(jar.cookies);
        assert FirstAccepted(labels, accepts, cookieDomain);
        assert !AcceptsNone(labels, accepts);
        return Some(cookieDomain);
      }
    }
    return None;
  }

  /** Every candidate is a dot followed by a suffix of the hostname that
      starts at the beginning or right after one of its dots. */
  lemma CandidateIsLabelSuffix(hostname: string, i: nat)
    requires i < |Split(hostname, '.')|
    ensures exists k ::
              0 <= k <= |hostname| && Candidate(Split(hostname, '.'), i) == "." + hostname[k..] &&
              (k == 0 || hostname[k - 1] == '.')
  {
    JoinedSuffix(hostname, '.', i);
  }

  /** The last label alone is tried first: candidate `n - 1` is the text after
      the last dot. */
  lemma FirstCandidateIsLastLabel(hostname: string)
    ensures var labels := Split(hostname, '.');
      Candidate(labels, |labels| - 1) == "." + labels[|labels| - 1] &&
      '.' !in labels[|labels| - 1]
  {
    var labels := Split(hostname, '.');
    assert labels[|labels| - 1..] == [labels[|labels| - 1]];
  }
}
