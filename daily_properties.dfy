/**
 * What getMeetingToken promises about the claims it fills in: precedence of
 * the caller's payload, the defaults, the error conditions, the state a
 * failing call leaves behind, and the scenarios of the repository's tests.
 */
module DailyProperties {
  import opened Wrappers
  import opened Daily

  /** A truthy `r`, `d`, `exp`, `iat` or `o` of the incoming payload is never
      overwritten, whether the call succeeds or fails; the identity claims `u`
      and `ud` are only ever carried through. (`otcd` and a falsy `o` can be
      overwritten by the options: see PayloadOtcdOverwritten and
      PayloadOwnerFalseOverwritten.) */
  lemma MintKeepsTruthyClaims(url: RoomURL, opts: Option<MeetingOptions>, c: Claims, now: int)
    ensures var m := Mint(url, opts, c, now);
      && (StrTruthy(c.r) ==> m.claims.r == c.r)
      && (StrTruthy(c.d) ==> m.claims.d == c.d)
      && (NumTruthy(c.exp) ==> m.claims.exp == c.exp)
      && (NumTruthy(c.iat) ==> m.claims.iat == c.iat)
      && (BoolTruthy(c.o) ==> m.claims.o == c.o)
      && m.claims.u == c.u && m.claims.ud == c.ud
  {
    match FillRoomName(c, url)
    case Failure(_) =>
    case Success(c1) =>
      match FillDomain(c1, opts)
      case Failure(_) =>
      case Success(c2) =>
        match FillExpiry(c2, opts, now)
        case Failure(_) =>
        case Success(c3) =>
          var c4 := FillOwnerAndIssuedAt(c3, now);
          assert c4.r == c.r || !StrTruthy(c.r);
          assert c4.u == c.u && c4.ud == c.ud;
  }

  /** Each error is thrown exactly when its check fails and every earlier check passed. */
  lemma MintErrors(url: RoomURL, opts: Option<MeetingOptions>, c: Claims, now: int)
    ensures var m := Mint(url, opts, c, now);
      && (m.error == Some(InvalidRoomURL) <==> RoomURLUnusable(c, url))
      && (m.error == Some(MissingDomainID) <==> !RoomURLUnusable(c, url) && DomainMissing(c, opts))
      && (m.error == Some(InvalidExpireTime(now + DefaultTokenLifetime)) <==>
            !RoomURLUnusable(c, url) && !DomainMissing(c, opts) && ExpireTimeInvalid(c, opts))
      && (m.error == Some(DataTooLong) <==>
            !RoomURLUnusable(c, url) && !DomainMissing(c, opts) && !ExpireTimeInvalid(c, opts)
            && DataOversized(opts))
      && (m.error.None? <==>
            !RoomURLUnusable(c, url) && !DomainMissing(c, opts) && !ExpireTimeInvalid(c, opts)
            && !DataOversized(opts))
  {
  }

  /** The claims of a successful call: the room name from the URL, the domain
      from the options, the default or requested expiry, the issue time, the
      owner flag and the echoed data. The domain claim is never empty. */
  lemma MintDefaults(url: RoomURL, opts: Option<MeetingOptions>, c: Claims, now: int)
    requires Mint(url, opts, c, now).error.None?
    ensures var m := Mint(url, opts, c, now);
      && (!StrTruthy(c.r) ==> url.Parsed? && m.claims.r == Some(RoomName(url.pathname)))
      && (!StrTruthy(c.d) ==> opts.Some? && m.claims.d == opts.value.domainID)
      && StrTruthy(m.claims.d)
      && (!NumTruthy(c.exp) ==>
            m.claims.exp == Some(if NumTruthy(ExpireTimeOf(opts)) then ExpireTimeOf(opts).value
                                 else now + DefaultTokenLifetime))
      && (!NumTruthy(c.iat) ==> m.claims.iat == Some(now))
      && m.claims.o == Some(BoolTruthy(c.o) || IsModerator(opts))
      && m.claims.otcd == (if opts.Some? && StrTruthy(opts.value.data) then opts.value.data else c.otcd)
  {
  }

  /** A failing call has still written the claims its earlier steps filled
      (the room name before a missing domain, say), and nothing after them:
      the exact payload left behind, for each of the four errors. */
  lemma MintFailureLeavesEarlierWrites(url: RoomURL, opts: Option<MeetingOptions>, c: Claims, now: int)
    requires Mint(url, opts, c, now).error.Some?
    ensures var m := Mint(url, opts, c, now);
      && (m.error == Some(InvalidRoomURL) ==> m.claims == c)
      && (m.error == Some(MissingDomainID) ==>
            m.claims == c.(r := if StrTruthy(c.r) then c.r else Some(RoomName(url.pathname))))
      && (m.error.value.InvalidExpireTime? ==>
            m.claims == c.(r := if StrTruthy(c.r) then c.r else Some(RoomName(url.pathname)),
                           d := if StrTruthy(c.d) then c.d else opts.value.domainID))
      && (m.error == Some(DataTooLong) ==>
            m.claims == c.(r := if StrTruthy(c.r) then c.r else Some(RoomName(url.pathname)),
                           d := if StrTruthy(c.d) then c.d else opts.value.domainID,
                           exp := if NumTruthy(c.exp) then c.exp
                                  else Some(if NumTruthy(opts.value.expireTime) then opts.value.expireTime.value
                                            else now + DefaultTokenLifetime),
                           o := if BoolTruthy(c.o) then c.o else Some(false),
                           iat := if NumTruthy(c.iat) then c.iat else Some(now)))
      && (m.error != Some(DataTooLong) ==> m.claims.o == c.o && m.claims.iat == c.iat)
      && m.claims.otcd == c.otcd
  {
  }

  /** The payload's own `otcd` does not take priority: truthy `data` in the
      options replaces it on every successful call. */
  lemma PayloadOtcdOverwritten(url: RoomURL, opts: MeetingOptions, c: Claims, now: int)
    requires StrTruthy(c.otcd) && StrTruthy(opts.data)
    requires Mint(url, Some(opts), c, now).error.None?
    ensures Mint(url, Some(opts), c, now).claims.otcd == opts.data
  {
  }

  /** The payload's own `o: false` does not take priority either: the
      moderator role turns it into `true`. */
  lemma PayloadOwnerFalseOverwritten(url: RoomURL, opts: MeetingOptions, c: Claims, now: int)
    requires c.o == Some(false) && opts.role == Some(Moderator)
    requires Mint(url, Some(opts), c, now).error.None?
    ensures Mint(url, Some(opts), c, now).claims.o == Some(true)
  {
  }

  /** Minting again from the claims a successful call produced changes nothing. */
  lemma MintIdempotent(url: RoomURL, opts: Option<MeetingOptions>, c: Claims, now: int)
    requires Mint(url, opts, c, now).error.None?
    ensures Mint(url, opts, Mint(url, opts, c, now).claims, now) == Mint(url, opts, c, now)
  {
    var c5 := Mint(url, opts, c, now).claims;
    MintKeepsTruthyClaims(url, opts, c, now);
    MintDefaults(url, opts, c, now);
    assert FillRoomName(c5, url) == Success(c5);
    assert FillDomain(c5, opts) == Success(c5);
    assert FillExpiry(c5, opts, now) == Success(c5);
    assert FillOwnerAndIssuedAt(c5, now) == c5;
    assert ApplyOptions(c5, opts) == Success(c5);
  }

  /** A payload that already sets every claim truthily (and `o` at all) comes
      back unchanged when no options are passed. */
  lemma PrebuiltPayloadUnchanged(url: RoomURL, c: Claims, now: int)
    requires StrTruthy(c.r) && StrTruthy(c.d) && NumTruthy(c.exp) && NumTruthy(c.iat) && c.o.Some?
    ensures Mint(url, None, c, now) == Minted(c, None)
  {
    assert FillRoomName(c, url) == Success(c);
    assert FillDomain(c, None) == Success(c);
    assert FillExpiry(c, None, now) == Success(c);
    assert c.o == Some(c.o.value);
    if !c.o.value {
      assert c.o == Some(false);
      assert c.(o := Some(false)) == c;
    } else {
      assert BoolTruthy(c.o);
    }
    assert FillOwnerAndIssuedAt(c, now) == c;
    assert ApplyOptions(c, None) == Success(c);
  }

  /** `data` of up to 1024 characters is echoed as `otcd`; a longer one is refused. */
  lemma DataLengthBoundary(url: RoomURL, opts: MeetingOptions, c: Claims, now: int)
    requires !RoomURLUnusable(c, url) && !DomainMissing(c, Some(opts)) && !ExpireTimeInvalid(c, Some(opts))
    requires StrTruthy(opts.data)
    ensures var m := Mint(url, Some(opts), c, now);
      && (|opts.data.value| <= MaxTokenDataLength ==> m.error.None? && m.claims.otcd == opts.data)
      && (|opts.data.value| > MaxTokenDataLength ==> m.error == Some(DataTooLong))
  {
  }

  /** An `expireTime` of 0 is falsy: it is not refused, and the default expiry stands. */
  lemma ZeroExpireTimeTakesDefault(url: RoomURL, opts: MeetingOptions, c: Claims, now: int)
    requires opts.expireTime == Some(0) && !NumTruthy(c.exp)
    ensures !ExpireTimeInvalid(c, Some(opts))
    ensures Mint(url, Some(opts), c, now).error.None? ==>
              Mint(url, Some(opts), c, now).claims.exp == Some(now + DefaultTokenLifetime)
  {
  }

  /** A negative `expireTime` within the Date range is refused. */
  lemma NegativeExpireTimeRefused(url: RoomURL, opts: MeetingOptions, c: Claims, now: int)
    requires opts.expireTime.Some? && -MaxTimeValue <= opts.expireTime.value < 0
    requires !RoomURLUnusable(c, url) && !DomainMissing(c, Some(opts)) && !NumTruthy(c.exp)
    ensures Mint(url, Some(opts), c, now).error == Some(InvalidExpireTime(now + DefaultTokenLifetime))
  {
  }

  /** A negative `expireTime` beyond the Date range makes `getTime()` NaN, so
      the check lets it through and it becomes the token's expiry. */
  lemma FarPastExpireTimeAccepted(pathname: string, v: int, now: int)
    requires v < -MaxTimeValue
    ensures var opts := MeetingOptions(None, None, Some(v), None, Some("some-domain-id"));
            Mint(Parsed(pathname), Some(opts), NoClaims, now).error.None? &&
            Mint(Parsed(pathname), Some(opts), NoClaims, now).claims.exp == Some(v)
  {
  }

  /** Decoding a signed token gives back the claims that were signed. */
  lemma DecodeSignRoundTrip(c: Claims, apiKey: string)
    ensures Decode(Sign(c, apiKey)) == c
  {
  }

  // The scenarios of src/tests/daily.test.ts, for the room URL
  // https://mydomain.daily.co/some-room and a frozen clock `now`

  const TestRoomURL: RoomURL := Parsed("/some-room")
  const TestDomainID: string := "some-domain-id"

  function DomainOnly(): MeetingOptions
  {
    MeetingOptions(None, None, None, None, Some(TestDomainID))
  }

  lemma RoomNameOfTestURL()
    ensures RoomName("/some-room") == "some-room"
  {
  }

  lemma DefaultTimestampScenario(now: int)
    ensures Mint(TestRoomURL, Some(DomainOnly()), NoClaims, now) ==
            Minted(Claims(Some("some-room"), Some(TestDomainID), Some(now + 3600), Some(false), Some(now),
                          None, None, None), None)
  {
  }

  lemma ExplicitExpiryAndRoleScenario(now: int, wantExp: int)
    requires 0 < wantExp
    ensures var opts := DomainOnly().(expireTime := Some(wantExp), role := Some(Moderator));
            Mint(TestRoomURL, Some(opts), NoClaims, now) ==
            Minted(Claims(Some("some-room"), Some(TestDomainID), Some(wantExp), Some(true), Some(now),
                          None, None, None), None)
  {
  }

  lemma CustomDataScenario(now: int)
    ensures var data := "somekey=somevalue;someotherkey=someothervalue;";
            Mint(TestRoomURL, Some(DomainOnly().(data := Some(data))), NoClaims, now) ==
            Minted(Claims(Some("some-room"), Some(TestDomainID), Some(now + 3600), Some(false), Some(now),
                          Some(data), None, None), None)
  {
  }

  lemma PrebuiltPayloadScenario(now: int)
    ensures var payload := Claims(Some("some-room"), Some(TestDomainID), Some(now + 3600), Some(false), Some(now),
                                  Some("somekey=somevalue;someotherkey=someothervalue;"), Some("123"), None);
            Mint(TestRoomURL, None, payload, now) == Minted(payload, None)
  {
  }

  lemma MissingDomainScenario(now: int)
    ensures Mint(TestRoomURL, None, NoClaims.(r := Some("some-room")), now).error == Some(MissingDomainID)
  {
  }

  lemma DomainFromOptionsScenario(now: int)
    ensures Mint(TestRoomURL, Some(DomainOnly()), NoClaims.(r := Some("some-room")), now) ==
            Minted(Claims(Some("some-room"), Some(TestDomainID), Some(now + 3600), Some(false), Some(now),
                          None, None, None), None)
  {
  }
}
