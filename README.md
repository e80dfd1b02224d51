# Token and session translation of a legacy video-API adapter, in Dafny

This project models the core of an adapter that lets code written against a
legacy real-time video session API (OpenTok) drive the Daily video backend.
The core has two parts:

- `src/daily.ts`:
  - `createRoom` builds the room-creation request body and keeps the room data of a good response.
  - `getDomainID` extracts the account's domain ID from the account-info response.
  - `getMeetingToken` fills a token claim set and signs it with the API key.
  - `getRoomName` gives the room URL's pathname with its first `/` removed.
- `src/index.ts`: the class `OpenTokClass`.
  - It keeps a read-only API key and a cached `domainID`, which starts as `""`.
  - `getDomainID` writes the cache.
  - `generateToken` refuses to mint while the cache is empty; otherwise it forces the cached ID into the token options.
  - `createSession` maps a room to a routed, manually archived session.
  - Every other legacy method throws "Method not implemented.".

Files:

- `wrappers.dfy`: module `Wrappers`, with `Option` and `Result`.
- `daily.dfy`: module `Daily`.
  - The claim filling is the pure function `Mint`. It is composed of one step function per block of `getMeetingToken`.
  - `Mint` returns the claims a call leaves in its payload object, and the error, if any.
  - `GetMeetingToken` is the imperative method. It works on a `TokenPayload` object, which may belong to the caller, and is proved equal to `Mint`. This includes the claims a failing call has already written into the caller's object.
- `daily_properties.dfy`: module `DailyProperties`. It holds the lemmas about `Mint`: precedence, errors, defaults, idempotence, boundaries, and the scenarios of `src/tests/daily.test.ts`.
- `opentok_adapter.dfy`: module `OpenTokAdapter`. It holds the class `OpenTokClass` with its methods, and the default-export factory `OpenTok`.

Modelling choices:

- JavaScript truthiness is written out for each kind of field:
  - a string is falsy when it is absent or `""`;
  - a number is falsy when it is absent or `0`;
  - a boolean is falsy when it is absent or `false`.
- The clock is the parameter `now`, in whole seconds.
- An HTTP response is a parameter. The methods return the request the code would send.
- `new URL(roomURL)` is the input `RoomURL`. It is either `Malformed` (the constructor throws) or the parsed pathname. The URL is only parsed when the payload has no truthy `r`.
- The expiry check `new Date(v).getTime() <= 0` is modelled with the Date range of ±8.64e15. Outside that range the time value is NaN, and the comparison is false. So an `expireTime` below -8.64e15 passes the check and becomes `exp` (`FarPastExpireTimeAccepted`).
- The "invalid expire time" error reports the default expiry (`now + 3600`), not the rejected value. The code interpolates `exp` before it is overwritten.
- Signing is symbolic. A `Token` carries the claim set and the secret. `Decode` returns the claims, as `jwt.decode` does in the tests.

Behaviour of the code the model keeps:

- An `expireTime` of `0` is falsy. It takes the default expiry `now + 3600` and raises no error (`src/daily.ts:143-157`).
- `data` is echoed verbatim as `otcd`. The claims `u` and `ud` are never written; they are only carried over from a caller's payload (`src/daily.ts:166-173`).
- The domain comes from the payload's `d` or from `opts.domainID`, and nowhere else (`src/daily.ts:135-142`).
- The default lifetime is 3600 s (`src/daily.ts:144`).
- The comment at `src/daily.ts:129-130` says the payload's properties take priority over the options, but two claims do not. Truthy `data` replaces the payload's own `otcd` (`PayloadOtcdOverwritten`). The moderator role replaces the payload's `o: false` with `true` (`PayloadOwnerFalseOverwritten`).
- The factory `OpenTok(apiKey, domainID, env)` passes `domainID` into the constructor's ignored secret parameter (`src/index.ts:273-275`). A new adapter therefore always starts with `domainID == ""`.

## Model

| member | source | states |
|---|---|---|
| `Daily.CreateRoom` | src/daily.ts:47-88 | The request is a POST to `/rooms/` with a bearer header. Its properties have `start_audio_off` and `start_video_off` false, and `sfu_switchover` is present (as 0.5) exactly when `forceSFU` is set. The call yields the room data iff the status is 200 with a body. A transport error is wrapped with its cause; any other failure is the plain room-creation error. |
| `Daily.GetDomainID` | src/daily.ts:96-115 | Succeeds iff the status is 200 with a body, returning its `domain_id` verbatim. Every failure, transport or status, is a domain-ID error, and a transport error keeps its cause. |
| `Daily.ReplaceFirst` | src/daily.ts:92 | String `replace` with a one-character pattern. Without the character the string is unchanged. With it, exactly one character goes, and a leading occurrence is the one removed. |
| `Daily.ReplaceFirstAt` | src/daily.ts:92 | Every character before the first occurrence stays in place, and every character after it moves up by one. Only the first occurrence is removed. |
| `Daily.RoomName` | src/daily.ts:90-94 | A pathname starting with `/` gives the rest of the pathname. A pathname without `/` is unchanged. Otherwise exactly one `/` is dropped. |
| `Daily.FillRoomNameIn` | src/daily.ts:131-134 | Writes `r` from the URL when the payload's `r` is falsy. If the URL cannot be parsed, it throws and leaves the payload as it was. |
| `Daily.FillDomainIn` | src/daily.ts:135-142 | Writes `d` from `opts.domainID` when the payload's `d` is falsy. It throws the missing-domain error when the options are absent or their domain ID is falsy. |
| `Daily.FillExpiryIn` | src/daily.ts:143-157 | When `exp` is falsy, writes the default `now + 3600` or a truthy `expireTime`. It throws when that value's Date time is `<= 0`. |
| `Daily.FillOwnerAndIssuedAtIn` | src/daily.ts:158-163 | A falsy `o` becomes `false` and a falsy `iat` becomes `now`. Truthy values stay. |
| `Daily.ApplyOptionsIn` | src/daily.ts:165-180 | With options: truthy `data` over 1024 characters throws. Otherwise it is stored as `otcd`, and the moderator role sets `o = true`. |
| `Daily.GetMeetingToken` | src/daily.ts:120-192 | The result is the signed claims of `Mint`, or `Mint`'s error, starting from the caller's payload or from `{}`. A caller's payload object ends up holding exactly `Mint`'s claims, including the writes made before a failure. |
| `Daily.TokenPayload.Empty` | src/daily.ts:127 | A fresh payload has no claims. |
| `Daily.TokenPayload.Of` | src/daily.ts:124 | A caller-built payload holds the given claims. |
| `DailyProperties.MintKeepsTruthyClaims` | src/daily.ts:129-163 | A truthy `r`, `d`, `exp`, `iat` or `o` of the incoming payload is never overwritten, on success or failure. `u` and `ud` are only carried through. |
| `DailyProperties.MintErrors` | src/daily.ts:131-173 | Each error is raised iff its own check fails and all earlier checks passed. The checks run in order: URL, domain, expiry, data length. No error is raised iff all four checks pass. |
| `DailyProperties.MintDefaults` | src/daily.ts:131-179 | On success, for each of `r`, `d`, `exp` and `iat` that the payload does not set truthily: `r` is the room name, `d` is `opts.domainID`, `exp` is `expireTime` when truthy and otherwise `now + 3600`, and `iat` is `now`. The resulting `d` is never empty. In every case `o` is the payload's truthy `o` or the moderator role, and `otcd` is truthy `data` or the payload's own value. |
| `DailyProperties.MintFailureLeavesEarlierWrites` | src/daily.ts:127-173 | Gives the exact payload a failure leaves behind. A URL failure changes nothing. A missing domain leaves only `r` written. An invalid expiry leaves `r` and `d` written and `exp` untouched. A data-length failure leaves `r`, `d`, `exp`, `o` and `iat` as the earlier blocks wrote them. `otcd` is never written, and `o` and `iat` change only on the data-length failure. |
| `DailyProperties.PayloadOtcdOverwritten` | src/daily.ts:129-173 | Despite the comment that payload properties take priority, on success a truthy `data` replaces a truthy `otcd` already in the payload. |
| `DailyProperties.PayloadOwnerFalseOverwritten` | src/daily.ts:158-179 | On success, the moderator role replaces the payload's `o: false` with `true`. |
| `DailyProperties.MintIdempotent` | src/daily.ts:129-179 | Minting again from a successful call's claims, with the same inputs, gives the same claims. |
| `DailyProperties.PrebuiltPayloadUnchanged` | src/daily.ts:129-163 | A payload with truthy `r`, `d`, `exp`, `iat` and any `o` comes back unchanged when no options are given. |
| `DailyProperties.DataLengthBoundary` | src/daily.ts:166-173 | Once the earlier checks pass, `data` of at most 1024 characters is echoed as `otcd`, and longer `data` fails with the data-length error. |
| `DailyProperties.ZeroExpireTimeTakesDefault` | src/daily.ts:143-157 | `expireTime = 0` is never refused, and a successful call then has the default expiry. |
| `DailyProperties.NegativeExpireTimeRefused` | src/daily.ts:147-153 | A negative `expireTime` inside the Date range is refused, with the default expiry in the error. |
| `DailyProperties.FarPastExpireTimeAccepted` | src/daily.ts:147-155 | An `expireTime` below -8.64e15 passes the check and becomes `exp`. |
| `DailyProperties.DecodeSignRoundTrip` | src/daily.ts:182-185 | Decoding a signed token gives back the signed claims. |
| `DailyProperties.RoomNameOfTestURL` | src/tests/daily.test.ts:5-8 | The pathname `/some-room` gives the room `some-room`. |
| `DailyProperties.DefaultTimestampScenario` | src/tests/daily.test.ts:11-32 | With only a domain ID, the claims are `{r, d, exp: now+3600, o: false, iat: now}`. |
| `DailyProperties.ExplicitExpiryAndRoleScenario` | src/tests/daily.test.ts:33-58 | A positive `expireTime` and the moderator role give `exp = expireTime` and `o = true`. The other claims are unchanged. |
| `DailyProperties.CustomDataScenario` | src/tests/daily.test.ts:60-84 | `data` is echoed verbatim as `otcd`. |
| `DailyProperties.PrebuiltPayloadScenario` | src/tests/daily.test.ts:86-111 | A complete payload, including `otcd` and `ud`, comes back unchanged without options. |
| `DailyProperties.MissingDomainScenario` | src/tests/daily.test.ts:114-126 | A payload without `d` and no options fails with the missing-domain error. |
| `DailyProperties.DomainFromOptionsScenario` | src/tests/daily.test.ts:128-153 | A payload with only `r`, plus options with a domain ID, gives the full default claim set. |
| `OpenTokAdapter.WithDomain` | src/index.ts:266-269 | The options passed on carry the cached domain ID. Every other field of the caller's options passes through unchanged, and absent options give only the domain ID. |
| `OpenTokAdapter.OpenTokClass.constructor` | src/index.ts:41-49 | A new adapter keeps the API key and has `domainID == ""`. `apiKey` is a `const`, so nothing can change it afterwards. |
| `OpenTokAdapter.OpenTokClass.Unsupported` | src/index.ts:24-26 | Every stubbed legacy operation fails with "Method not implemented." and has an empty frame, so it changes no state. |
| `OpenTokAdapter.OpenTokClass.GetDomainID` | src/index.ts:233-239 | The lookup uses the stored API key. On success the cache holds the resolved ID and that ID is returned. On failure the cache is unchanged. No other field can change. |
| `OpenTokAdapter.OpenTokClass.CreateSession` | src/index.ts:241-257 | On success the session is `{sessionId: room.url, routed, manual, ot: this}`, whatever options were passed. The room request never forces the SFU topology, and a failure is wrapped as a session-creation error. |
| `OpenTokAdapter.OpenTokClass.GenerateToken` | src/index.ts:259-270 | With an empty cache the call fails with the missing-domain-ID error. Otherwise the result is `getMeetingToken` on a fresh payload with the cached ID forced into the options. A minted token's `d` is always the cached ID, and the missing-domain error of `getMeetingToken` cannot occur. |
| `OpenTokAdapter.OpenTok` | src/index.ts:273-275 | The factory returns a fresh adapter with the given API key and an empty `domainID`, whatever domain ID was passed. |
| `OpenTokAdapter.ResolveBeforeMinting` | src/index.ts:233-270 | A client of a fresh adapter is refused a token before `getDomainID`. After the lookup resolves a non-empty ID, the token is minted, carries that ID as `d` and is signed with the API key. An empty resolved ID leaves the adapter refusing. |

## Left out

- HTTP is not performed. Axios and its own handling of non-2xx statuses are not modelled. The response is a parameter, and its body is `None` exactly when the code's `!res.data` holds.
- An account-info body without `domain_id` is not modelled. The code would resolve to `undefined` in that case.
- `JSON.stringify` and `jwt.sign` are not modelled: signing is symbolic. The signing failure "failed to create self-signed JWT" is therefore not modelled, and neither is the key order of the serialised payload.
- WHATWG URL parsing is not modelled. The model receives the parse outcome, meaning the pathname or a parse failure.
- Numbers are unbounded integers. Fractional values, NaN, Infinity and the loss of precision above 2^53 are not modelled, and neither is the `Date` truncation of fractional `expireTime`.
- `data` length is counted in characters. JavaScript counts UTF-16 code units.
- Errors are constructors named after their messages. The message text, including the `toString` of a wrapped cause, is not modelled.
- Promises, callbacks and the race between `getDomainID` and `generateToken` are not modelled. Calls are sequential, and `createSession` returns the value it would pass to its callback.
- The factory's `env` argument is not modelled, because the code never uses it.
- The stub methods' arguments are not modelled. Every stub ignores them.
- The generated declarations under `dist/` and the build configuration are not part of this model.
