/** Choosing the HTTP-01 challenge (section 8.3 of RFC 8555) among the
    challenges a CA offers for an order.

    An order lists its authorizations; each authorization offers a sequence of
    challenge bodies. The selection scans the authorizations in list order and,
    within each, the offered challenges in order, and returns the first
    challenge body whose challenge is HTTP-01; when none is offered it fails. */
module ChallengeSelection {

  import opened Wrappers
  import opened AcmeErrors

  /** The challenge proper, tagged by type. */
  datatype Challenge =
    | Http01(token: string)
    | Dns01(token: string)
    | TlsAlpn01(token: string)
    | UnknownChallenge(typ: string)

  /** A challenge as offered inside an authorization: the challenge and the URL to answer it at. */
  datatype ChallengeBody = ChallengeBody(chall: Challenge, uri: string)

  datatype Authorization = Authorization(identifier: string, challenges: seq<ChallengeBody>)

  datatype AuthorizationResource = AuthorizationResource(uri: string, body: Authorization)

  datatype OrderResource = OrderResource(uri: string, authorizations: seq<AuthorizationResource>)

  predicate IsHttp01(c: ChallengeBody) {
    c.chall.Http01?
  }

  /** Some challenge in `chs` is HTTP-01. */
  ghost predicate OffersHttp01(chs: seq<ChallengeBody>) {
    exists j :: 0 <= j < |chs| && IsHttp01(chs[j])
  }

  /** `chs[j]` is HTTP-01 and no challenge before it is. */
  ghost predicate FirstHttp01At(chs: seq<ChallengeBody>, j: int) {
    0 <= j < |chs| && IsHttp01(chs[j]) &&
    forall k :: 0 <= k < j ==> !IsHttp01(chs[k])
  }

  /** No authorization of `authzs` offers an HTTP-01 challenge. */
  ghost predicate NoneOffered(authzs: seq<AuthorizationResource>) {
    forall i :: 0 <= i < |authzs| ==> !OffersHttp01(authzs[i].body.challenges)
  }

  /** Challenge `j` of authorization `i` is the first HTTP-01 challenge met when
      scanning authorizations in order and challenges in order within each. */
  ghost predicate FirstInScanOrder(authzs: seq<AuthorizationResource>, i: int, j: int) {
    0 <= i < |authzs| &&
    FirstHttp01At(authzs[i].body.challenges, j) &&
    forall p :: 0 <= p < i ==> !OffersHttp01(authzs[p].body.challenges)
  }

  /** The inner scan over one authorization's challenges. */
  function FirstHttp01(chs: seq<ChallengeBody>): (r: Option<ChallengeBody>)
    ensures r.Some? ==> IsHttp01(r.value) && r.value in chs
  {
    if chs == [] then None
    else if IsHttp01(chs[0]) then Some(chs[0])
    else FirstHttp01(chs[1..])
  }

  /** The outer scan over the authorizations. */
  function ScanAuthorizations(authzs: seq<AuthorizationResource>): (r: Result<ChallengeBody, ApiError>)
    ensures r.Success? ==> IsHttp01(r.value)
    ensures r.Failure? ==> r.error == ChallengeNotOffered && RaisedMessage(r.error) == Some(NotOfferedMessage)
  {
    if authzs == [] then Failure(ChallengeNotOffered)
    else
      match FirstHttp01(authzs[0].body.challenges)
      case Some(c) => Success(c)
      case None => ScanAuthorizations(authzs[1..])
  }

  /** select_http01_chall: the nested loops with early return. */
  method SelectHttp01Chall(order: OrderResource) returns (r: Result<ChallengeBody, ApiError>)
    ensures r == ScanAuthorizations(order.authorizations)
  {
    var authzs := order.authorizations;
    var i := 0;
    while i < |authzs|
      invariant 0 <= i <= |authzs|
      invariant ScanAuthorizations(authzs) == ScanAuthorizations(authzs[i..])
    {
      var chs := authzs[i].body.challenges;
      assert authzs[i..][0] == authzs[i] && authzs[i..][1..] == authzs[i + 1..];
      var j := 0;
      while j < |chs|
        invariant 0 <= j <= |chs|
        invariant FirstHttp01(chs) == FirstHttp01(chs[j..])
      {
        assert chs[j..][0] == chs[j] && chs[j..][1..] == chs[j + 1..];
        if IsHttp01(chs[j]) {
          return Success(chs[j]);
        }
        j := j + 1;
      }
      i := i + 1;
    }
    return Failure(ChallengeNotOffered);
  }

  /** The inner scan finds nothing exactly when nothing is offered, and what
      it finds is the first HTTP-01 challenge. */
  lemma {:induction false} FirstHttp01Correct(chs: seq<ChallengeBody>)
    ensures FirstHttp01(chs).None? <==> !OffersHttp01(chs)
    ensures FirstHttp01(chs).Some? ==>
              exists j :: FirstHttp01At(chs, j) && chs[j] == FirstHttp01(chs).value
  {
    if chs == [] {
    } else if IsHttp01(chs[0]) {
      assert FirstHttp01At(chs, 0);
    } else {
      var rest := chs[1..];
      FirstHttp01Correct(rest);
      if FirstHttp01(rest).None? {
        forall j | 0 <= j < |chs| ensures !IsHttp01(chs[j]) {
          if j > 0 { assert chs[j] == rest[j - 1]; }
        }
      } else {
        var j :| FirstHttp01At(rest, j) && rest[j] == FirstHttp01(rest).value;
        forall k | 0 <= k < j + 1 ensures !IsHttp01(chs[k]) {
          if k > 0 { assert chs[k] == rest[k - 1]; }
        }
        assert FirstHttp01At(chs, j + 1);
      }
    }
  }

  /** Selection fails exactly when no authorization offers HTTP-01. */
  lemma {:induction false} ScanFailsIffNoneOffered(authzs: seq<AuthorizationResource>)
    ensures ScanAuthorizations(authzs).Failure? <==> NoneOffered(authzs)
  {
    if authzs != [] {
      var rest := authzs[1..];
      FirstHttp01Correct(authzs[0].body.challenges);
      ScanFailsIffNoneOffered(rest);
      if FirstHttp01(authzs[0].body.challenges).None? {
        forall i | 0 <= i < |authzs| ensures !OffersHttp01(authzs[i].body.challenges) || !NoneOffered(rest) {
          if i > 0 { assert authzs[i] == rest[i - 1]; }
        }
        if !NoneOffered(rest) {
          var i :| 0 <= i < |rest| && OffersHttp01(rest[i].body.challenges);
          assert rest[i] == authzs[i + 1];
        }
      }
    }
  }

  /** On success the selected challenge is the first HTTP-01 challenge in scan
      order: every earlier authorization offers none, and no earlier challenge
      of the same authorization is HTTP-01. */
  lemma {:induction false} ScanReturnsFirstInScanOrder(authzs: seq<AuthorizationResource>)
    ensures ScanAuthorizations(authzs).Success? ==>
              exists i, j :: FirstInScanOrder(authzs, i, j) &&
                             authzs[i].body.challenges[j] == ScanAuthorizations(authzs).value
  {
    if authzs != [] {
      var chs := authzs[0].body.challenges;
      FirstHttp01Correct(chs);
      if FirstHttp01(chs).Some? {
        var j :| FirstHttp01At(chs, j) && chs[j] == FirstHttp01(chs).value;
        assert FirstInScanOrder(authzs, 0, j);
      } else {
        var rest := authzs[1..];
        ScanReturnsFirstInScanOrder(rest);
        if ScanAuthorizations(rest).Success? {
          var i, j :| FirstInScanOrder(rest, i, j) &&
                      rest[i].body.challenges[j] == ScanAuthorizations(rest).value;
          forall p | 0 <= p < i + 1 ensures !OffersHttp01(authzs[p].body.challenges) {
            if p > 0 { assert authzs[p] == rest[p - 1]; }
          }
          assert FirstInScanOrder(authzs, i + 1, j);
        }
      }
    }
  }

  /** On success the selected challenge is one the order actually offers. */
  lemma SelectedIsOffered(order: OrderResource)
    ensures ScanAuthorizations(order.authorizations).Success? ==>
              exists i :: 0 <= i < |order.authorizations| &&
                          ScanAuthorizations(order.authorizations).value in order.authorizations[i].body.challenges
  {
    ScanReturnsFirstInScanOrder(order.authorizations);
  }

  /** The first position in scan order is unique, so the selection is determined. */
  lemma FirstInScanOrderUnique(authzs: seq<AuthorizationResource>, i: int, j: int, i': int, j': int)
    requires FirstInScanOrder(authzs, i, j) && FirstInScanOrder(authzs, i', j')
    ensures i == i' && j == j'
  {
  }

  /** All offered challenges, authorization by authorization: the scan order. */
  function Flatten(authzs: seq<AuthorizationResource>): seq<ChallengeBody> {
    if authzs == [] then [] else authzs[0].body.challenges + Flatten(authzs[1..])
  }

  lemma {:induction false} FirstHttp01Append(a: seq<ChallengeBody>, b: seq<ChallengeBody>)
    ensures FirstHttp01(a + b) == if FirstHttp01(a).Some? then FirstHttp01(a) else FirstHttp01(b)
  {
    if a != [] {
      assert (a + b)[0] == a[0];
      assert (a + b)[1..] == a[1..] + b;
      FirstHttp01Append(a[1..], b);
    } else {
      assert a + b == b;
    }
  }

  /** Reference definition: the nested scan returns the first HTTP-01 challenge
      of the flattened list of offered challenges. */
  lemma {:induction false} ScanMatchesFlattened(authzs: seq<AuthorizationResource>)
    ensures ScanAuthorizations(authzs) ==
            match FirstHttp01(Flatten(authzs))
            case Some(c) => Success(c)
            case None => Failure(ChallengeNotOffered)
  {
    if authzs != [] {
      FirstHttp01Append(authzs[0].body.challenges, Flatten(authzs[1..]));
      ScanMatchesFlattened(authzs[1..]);
    }
  }
}
