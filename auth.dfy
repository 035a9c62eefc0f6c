/** The credential check of the endpoint (`authenticate`): the presented
    key is the first truthy value of the `x-api-key` header, the
    `authorization` header with its first `"Bearer "` removed, and the `key`
    query parameter, and it must equal the configured key exactly. */
module Auth {
  import opened Wrappers

  /** The text removed from the `authorization` header. */
  const BearerPrefix: string := "Bearer "

  /** `p` occurs in `s` starting at index `i`. */
  predicate OccursAt(s: string, p: string, i: nat)
  {
    i + |p| <= |s| && s[i..i + |p|] == p
  }

  /** `i` is the leftmost index at which `p` occurs in `s`. */
  ghost predicate FirstOccurrence(s: string, p: string, i: nat)
  {
    OccursAt(s, p, i) && forall j: nat :: j < i ==> !OccursAt(s, p, j)
  }

  /** `p` occurs nowhere in `s`. */
  ghost predicate Absent(s: string, p: string)
  {
    forall j: nat :: !OccursAt(s, p, j)
  }

  /** The search behind `String.prototype.indexOf`, started at index `i`. */
  function IndexFrom(s: string, p: string, i: nat): (r: Option<nat>)
    requires i <= |s|
    ensures r.Some? ==> i <= r.value && OccursAt(s, p, r.value)
    ensures r.Some? ==> forall j: nat :: i <= j < r.value ==> !OccursAt(s, p, j)
    ensures r.None? ==> forall j: nat :: i <= j ==> !OccursAt(s, p, j)
    decreases |s| - i
  {
    if i + |p| > |s| then None
    else if s[i..i + |p|] == p then Some(i)
    else IndexFrom(s, p, i + 1)
  }

  /** `s.indexOf(p)`, with `None` for JavaScript's `-1`. */
  function IndexOf(s: string, p: string): (r: Option<nat>)
    ensures r.Some? ==> FirstOccurrence(s, p, r.value)
    ensures r.None? <==> Absent(s, p)
  {
    IndexFrom(s, p, 0)
  }

  /** `s.replace(p, '')` with a string pattern: removes the leftmost
      occurrence of `p`, wherever it stands, and leaves `s` alone when `p`
      does not occur. */
  function ReplaceFirst(s: string, p: string): (r: string)
    ensures Absent(s, p) ==> r == s
    ensures forall i: nat {:trigger FirstOccurrence(s, p, i)} ::
      FirstOccurrence(s, p, i) ==> r == s[..i] + s[i + |p|..]
  {
    match IndexOf(s, p)
    case None => s
    case Some(i) => s[..i] + s[i + |p|..]
  }

  /** JavaScript truthiness of a string that may be `undefined`/`null`:
      present and non-empty. */
  predicate Present(v: Option<string>)
  {
    v.Some? && v.value != ""
  }

  /** JavaScript's `a || b`. */
  function Or(a: Option<string>, b: Option<string>): Option<string>
  {
    if Present(a) then a else b
  }

  /** `authorization?.replace('Bearer ', '')`. */
  function StripBearer(authorization: Option<string>): Option<string>
  {
    match authorization
    case None => None
    case Some(h) => Some(ReplaceFirst(h, BearerPrefix))
  }

  /** The value of `apiKey` in `authenticate`: the `||` chain over the three
      credential sources. */
  function PresentedKey(xApiKey: Option<string>, authorization: Option<string>,
                        queryKey: Option<string>): (r: Option<string>)
    ensures Present(xApiKey) ==> r == xApiKey
    ensures !Present(xApiKey) && Present(StripBearer(authorization)) ==> r == StripBearer(authorization)
    ensures !Present(xApiKey) && !Present(StripBearer(authorization)) ==> r == queryKey
  {
    Or(Or(xApiKey, StripBearer(authorization)), queryKey)
  }

  /** `authenticate(req)` with the environment's `API_KEY` passed in as
      `configured`: fails when no key is configured, otherwise compares the
      presented key with `===`. */
  function Authenticate(xApiKey: Option<string>, authorization: Option<string>,
                        queryKey: Option<string>, configured: Option<string>): (ok: bool)
    ensures !Present(configured) ==> !ok
    ensures ok ==> xApiKey == configured || StripBearer(authorization) == configured || queryKey == configured
    ensures ok ==> Present(PresentedKey(xApiKey, authorization, queryKey))
  {
    if !Present(configured) then false
    else PresentedKey(xApiKey, authorization, queryKey) == configured
  }

  /** `"Bearer " + token` loses exactly its leading `"Bearer "`; in
      particular `"Bearer Bearer t"` becomes `"Bearer t"`. */
  lemma ReplaceFirstOfPrefix(p: string, t: string)
    ensures ReplaceFirst(p + t, p) == t
  {
  }

  /** The pattern is removed where it first occurs, not only as a prefix:
      a text `u` in front of it that cannot start an occurrence stays. */
  lemma ReplaceFirstInside(u: string, p: string, t: string)
    requires p != []
    requires forall k :: 0 <= k < |u| ==> u[k] != p[0]
    ensures ReplaceFirst(u + p + t, p) == u + t
  {
    var s := u + p + t;
    assert s[|u|..|u| + |p|] == p;
    forall j: nat | j < |u|
      ensures !OccursAt(s, p, j)
    {
      assert s[j..j + |p|][0] == s[j] == u[j] != p[0];
    }
    assert FirstOccurrence(s, p, |u|);
    assert s[..|u|] == u;
    assert s[|u| + |p|..] == t;
  }

  /** A misconfigured deployment (no key, or an empty one) rejects every
      request, whatever it presents. */
  lemma FailsClosed(xApiKey: Option<string>, authorization: Option<string>,
                    queryKey: Option<string>, configured: Option<string>)
    requires configured.None? || configured == Some("")
    ensures !Authenticate(xApiKey, authorization, queryKey, configured)
  {
  }

  /** A non-empty `x-api-key` header is the only credential compared: the
      result is its exact equality with the configured key. */
  lemma HeaderKeyDecides(xApiKey: Option<string>, authorization: Option<string>,
                         queryKey: Option<string>, configured: Option<string>)
    requires Present(xApiKey)
    ensures Authenticate(xApiKey, authorization, queryKey, configured)
        <==> Present(configured) && xApiKey.value == configured.value
  {
  }

  /** With a non-empty `x-api-key`, neither the bearer header nor the query
      key can change the outcome, even when one of them would match. */
  lemma HeaderKeyShadowsOthers(xApiKey: Option<string>, configured: Option<string>,
                               authorization1: Option<string>, queryKey1: Option<string>,
                               authorization2: Option<string>, queryKey2: Option<string>)
    requires Present(xApiKey)
    ensures Authenticate(xApiKey, authorization1, queryKey1, configured)
         == Authenticate(xApiKey, authorization2, queryKey2, configured)
  {
  }

  /** The query key is consulted only when both header-derived values are
      absent or empty; then it alone decides. */
  lemma QueryKeyIsLastResort(xApiKey: Option<string>, authorization: Option<string>,
                             queryKey: Option<string>, configured: Option<string>)
    ensures Present(xApiKey) || Present(StripBearer(authorization)) ==>
      forall other: Option<string> :: Authenticate(xApiKey, authorization, other, configured)
                                   == Authenticate(xApiKey, authorization, queryKey, configured)
    ensures !Present(xApiKey) && !Present(StripBearer(authorization)) ==>
      (Authenticate(xApiKey, authorization, queryKey, configured)
       <==> Present(configured) && queryKey == configured)
  {
  }

  /** A client that sends only `Authorization: Bearer <key>` with the
      configured key is admitted. */
  lemma BearerHeaderAdmits(xApiKey: Option<string>, queryKey: Option<string>, configured: Option<string>)
    requires !Present(xApiKey) && Present(configured)
    ensures Authenticate(xApiKey, Some(BearerPrefix + configured.value), queryKey, configured)
  {
    ReplaceFirstOfPrefix(BearerPrefix, configured.value);
  }

  /** Access is granted only on exact (case-sensitive) equality with the
      configured key of the first non-empty credential source: `x-api-key`,
      else the stripped `authorization` header, else the query key. */
  lemma OnlyExactMatchAdmits(xApiKey: Option<string>, authorization: Option<string>,
                             queryKey: Option<string>, configured: Option<string>)
    ensures Authenticate(xApiKey, authorization, queryKey, configured)
        <==> Present(configured)
             && (xApiKey == configured
                 || (!Present(xApiKey)
                     && (StripBearer(authorization) == configured
                         || (!Present(StripBearer(authorization)) && queryKey == configured))))
  {
  }

  /** The comparison is case-sensitive: `"abc"` does not match `"ABC"`. */
  lemma MatchIsCaseSensitive()
    ensures !Authenticate(Some("abc"), None, None, Some("ABC"))
  {
  }
}
