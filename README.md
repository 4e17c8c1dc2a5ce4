# SkyArmenia request rules, modelled in Dafny

SkyArmenia is a SvelteKit flight-search site. This project models its deterministic request-to-response rules and proves properties of them:

- the common connector contract (`types.ts`) as datatypes with the well-formedness rules its comments state;
- the two mock airline connectors, FlyOne and Blackstone, which each build one offer from a search request;
- the `/api/search` handler, which normalises the query string, validates it in a fixed order and answers with a stub flight list;
- the language store and dictionary lookup with English fallback;
- the login, register, signup and auth-login form actions, and the check-email endpoint;
- the sitemap and the www-to-apex redirect.

Every handler is a total function from its inputs to a record of the response (status, body fields, redirect location). Calls into the authentication service and the database are not modelled. Their replies (an error message, whether a user or session came back, whether the data was truthy) are parameters. Each form action is split in two:

- a `...Request`/`...Call` function gives the exact call the action would make, or `None` when a check fails first;
- the action function maps the reply to the result.

When no call is made, the reply cannot matter: `LoginPage.NoCallNoEffect` and `SignupPage.NoCallNoEffect` prove it as lemmas, and the ensures of `RegisterPage.Register`, `AuthLoginPage.SignIn` and `CheckEmail.Check` state the result of the no-call case without the reply.

The two connectors build the same object with different constants. `MockProvider.Offers` models that construction once, over a `Schedule` record of the constants. `FlyOneProvider.Search` and `BlackstoneProvider.Search` pin down each connector's concrete id, times, durations and price.

Money is an integer throughout. The connectors price in cents. The `Money` declaration's comment in `types.ts` speaks of units. The model keeps the integers each file uses.

The model follows the code:

- The search handler does not call the connectors, and no aggregation engine exists. `AggregatedSearchResponse` appears only as a well-formedness predicate with lemmas.
- `trip` is any non-empty string: it is echoed verbatim, and only `'round'` needs a return date. It defaults to `'round'` only when absent or empty.
- `children`, `infants` and `cabin` are never read by the handler.

Modules: `Text` (string helpers), `ProviderTypes`, `MockProvider`, `FlyOneProvider`, `BlackstoneProvider`, `SearchEndpoint`, `I18n`, `Kit` (form-action results), `LoginPage`, `RegisterPage`, `SignupPage`, `AuthLoginPage`, `CheckEmail`, `Sitemap`, `WwwRedirect`.

## Model

| member | source | states |
|---|---|---|
| Text.OrDefault | src/routes/api/search/+server.ts:12-16 | `v \|\| d`: a present non-empty value is kept, anything else becomes the default |
| Text.ToUpper | src/routes/api/search/+server.ts:12-13 | upper-casing keeps the length, maps each character, and leaves no lower-case ASCII letter |
| Text.ToLower | src/routes/login/+page.server.ts:52 | lower-casing keeps the length, maps each character, and leaves no upper-case ASCII letter |
| Text.ToUpperIdempotent | src/routes/api/search/+server.ts:12-13 | upper-casing twice is upper-casing once |
| Text.TrimStart | src/routes/login/+page.server.ts:52 | the result is a suffix, only white space was dropped, and it does not start with white space |
| Text.TrimEnd | src/routes/login/+page.server.ts:52 | the result is a prefix, only white space was dropped, and it does not end with white space |
| Text.Trim | src/routes/login/+page.server.ts:52 | a trimmed string neither starts nor ends with white space |
| Text.TrimIsSlice | src/routes/login/+page.server.ts:52 | the trimmed string is a slice of the input with only white space on either side |
| Text.TrimIdempotent | src/routes/login/+page.server.ts:52 | trimming twice is trimming once |
| Text.TrimEmptyIffAllSpace | src/routes/login/+page.server.ts:52-57 | a field trims to empty exactly when it is all white space, so such a field counts as missing |
| Text.ContainsAt | src/routes/login/+page.server.ts:66-72 | an occurrence at any position makes the pattern test succeed |
| Text.ContainsSuffix | src/routes/login/+page.server.ts:66 | a text that contains `a + b` contains `b` |
| Text.ContainsChar | src/routes/api/auth/check-email/+server.ts:10 | `includes('@')` holds exactly when `@` is a character of the string |
| Text.NatToString | src/routes/api/search/+server.ts:61 | a count is written as non-empty decimal digits with no leading zero |
| Text.NatToStringValue | src/routes/api/search/+server.ts:61 | reading back the written digits of `n` gives `n` |
| Text.DigitPrefix | src/routes/api/search/+server.ts:7 | the longest leading run of digits: a prefix made of digits and followed by a non-digit or the end |
| ProviderTypes.ParseProviderId | src/lib/providers/types.ts:10 | a name that parses to a provider is that provider's name |
| ProviderTypes.ProviderIdNames | src/lib/providers/types.ts:10 | the provider names are exactly `flyone` and `blackstone`, and each reads back as its provider |
| ProviderTypes.ParseTripType | src/lib/providers/types.ts:11 | a name that parses to a trip type is that type's name |
| ProviderTypes.TripTypeNames | src/lib/providers/types.ts:11 | the trip types are exactly `oneway` and `round`, and each reads back |
| ProviderTypes.PassengerMix.WellFormed | src/lib/providers/types.ts:19 | a passenger mix has at least one adult (no contract: the predicate is the rule) |
| ProviderTypes.SearchRequest.WellFormed | src/lib/providers/types.ts:25-34 | a well-formed request has a valid passenger mix and, for a round trip, a return date (no contract: the predicate is the rule) |
| ProviderTypes.Itinerary.WellFormed | src/lib/providers/types.ts:55-57 | an itinerary has one or more segments (no contract: the predicate is the rule) |
| ProviderTypes.ProviderBatchResult.WellFormed | src/lib/providers/types.ts:94-99 | a batch whose connector failed carries no offers (no contract: the predicate is the rule) |
| ProviderTypes.AggregatedSearchResponse.WellFormedFor | src/lib/providers/types.ts:121-127 | one well-formed batch per provider queried, in order, and `totalOffers` is their offer count (no contract: the predicate is the rule) |
| ProviderTypes.OfferCount | src/lib/providers/types.ts:121-127 | the total is zero exactly when no batch has an offer |
| ProviderTypes.OfferCountCoversEachBatch | src/lib/providers/types.ts:121-127 | each provider's offers are included in the aggregated total |
| ProviderTypes.OfferCountAllFailed | src/lib/providers/types.ts:94-99 | when every connector failed (and so returned no offers), the total is zero |
| MockProvider.MinutesBetween | src/lib/providers/flyone.ts:4-8 | the result is never negative; from -30 s on, it is the difference rounded to the nearest minute, halves rounded up; below that it is 0 |
| MockProvider.MinutesBetweenShift | src/lib/providers/blackstone.ts:4-8 | only the difference of the instants matters, so the epoch offset of a shared date cancels |
| MockProvider.MinutesBetweenWhole | src/lib/providers/flyone.ts:7 | instants exactly k minutes apart give k |
| MockProvider.TwoDigits | src/lib/providers/flyone.ts:18-19 | a clock field is two decimal digits that denote the hour or minute |
| MockProvider.SumDurations | src/lib/providers/flyone.ts:44 | a one-segment leg totals that segment's minutes; with no negative segment the total is non-negative and at least each segment |
| MockProvider.SameDayMinutes | src/lib/providers/flyone.ts:17-29 | a forward same-day leg lasts exactly its clock difference in minutes; a backward one lasts 0 |
| MockProvider.DirectLeg | src/lib/providers/flyone.ts:21-31 | a built leg is consistent: at least one segment, total equal to the segment sum, no negative duration, and it flies from `from` to `to`; `DirectLegShape` gives its exact one-segment form |
| MockProvider.DirectLegShape | src/lib/providers/blackstone.ts:17-30 | a direct leg spelled out from its clock texts and its duration |
| MockProvider.OfferIdRoundTrip | src/lib/providers/flyone.ts:34 | with three-letter codes, the id gives back the origin, destination and depart date it was made from |
| MockProvider.OfferIdInjective | src/lib/providers/blackstone.ts:33 | with three-letter codes, two ids are equal exactly when their routes and dates are, so repeated searches give the same id |
| MockProvider.Offers | src/lib/providers/flyone.ts:13-74 | the offer list of either connector; see the bullets after the table |
| MockProvider.OffersIgnorePassengers | src/lib/providers/flyone.ts:33-45 | requests with the same route, trip and dates get the same id, price and legs, whatever the passengers, bags or cabin |
| FlyOneProvider.Search | src/lib/providers/flyone.ts:10-75 | see the bullets after the table |
| BlackstoneProvider.Search | src/lib/providers/blackstone.ts:10-73 | see the bullets after the table |
| SearchEndpoint.ParseInt | src/routes/api/search/+server.ts:7 | a negative parse needs a `-` in the text; its value is fixed by `ParseIntReads` and `ParseIntNoDigits` |
| SearchEndpoint.ReadSigned | src/routes/api/search/+server.ts:7 | after the white space, a negative number can only come from a leading `-` |
| SearchEndpoint.ReadDigits | src/routes/api/search/+server.ts:7 | the leading digits read as a number that is never negative |
| SearchEndpoint.ParseIntReads | src/routes/api/search/+server.ts:7 | white space, an optional sign, digits, then a non-digit or the end: the result is the digits' value, negated after `-` |
| SearchEndpoint.ParseIntNoDigits | src/routes/api/search/+server.ts:7 | with no digit after the white space and the sign, the result is NaN |
| SearchEndpoint.ParseIntDigits | src/routes/api/search/+server.ts:7 | a plain run of digits parses to the number it denotes |
| SearchEndpoint.ToInt | src/routes/api/search/+server.ts:6-9 | see the bullets after the table |
| SearchEndpoint.ToIntReads | src/routes/api/search/+server.ts:6-9 | text starting with a number gives its digits (`7px` gives 7, `-0` gives 0); after a `-` with a non-zero value it gives the default |
| SearchEndpoint.ToIntNoDigits | src/routes/api/search/+server.ts:6-9 | text with no number in front gives the default |
| SearchEndpoint.ToIntExamples | src/routes/api/search/+server.ts:6-9 | `-5` gives the default, ` 7px` gives 7, and `x` gives the default |
| SearchEndpoint.ToIntReadsBack | src/routes/api/search/+server.ts:6-9 | the decimal form of a count reads back as that count, whatever the default |
| SearchEndpoint.IataAcceptsEitherCase | src/routes/api/search/+server.ts:12-13 | after upper-casing, a code passes `^[A-Z]{3}$` (line 21) exactly when it is three ASCII letters of either case |
| SearchEndpoint.Normalize | src/routes/api/search/+server.ts:12-18 | see the bullets after the table |
| SearchEndpoint.StubResults | src/routes/api/search/+server.ts:32-57 | one FlyOne stub (two for `round`) with distinct ids, no bags, EUR prices; the first flies origin to destination on the depart date, the second back on the return date |
| SearchEndpoint.Get | src/routes/api/search/+server.ts:11-69 | see the bullets after the table |
| SearchEndpoint.NormalizeEcho | src/routes/api/search/+server.ts:59-62 | an echoed normalised query normalises to itself |
| SearchEndpoint.EchoReplays | src/routes/api/search/+server.ts:59-62 | sending back the echoed query of a successful response reproduces that response, so normalisation is stable |
| SearchEndpoint.UnreadParametersIgnored | src/routes/api/search/+server.ts:11-18 | any parameter other than the seven it reads (children, infants, cabin, ...) leaves the response unchanged |
| I18n.ParseLang | src/lib/i18n.ts:7 | a code that parses names the language it parses to |
| I18n.LangCodes | src/lib/i18n.ts:7-8 | every language is listed and its code reads back; only `en`, `es`, `ru`, `hy` read as languages |
| I18n.WithFallback | src/lib/i18n.ts:264-271 | see the bullets after the table |
| I18n.Dictionary | src/lib/i18n.ts:69-257 | every language's table has the same keys, and no text is empty |
| I18n.Translate | src/lib/i18n.ts:282-284 | `$i18n[key]`: the current language's text, else the English text, else the key |
| I18n.TranslateEnglish | src/lib/i18n.ts:274-284 | in English, a key gives its English text, or itself when English lacks it |
| I18n.KnownKeysTranslate | src/lib/i18n.ts:69-257 | every dictionary has the English keys, so a key English knows is always shown in the current language |
| I18n.UnknownKeysEcho | src/lib/i18n.ts:269 | a key no dictionary has is shown as itself |
| I18n.Prefix2 | src/lib/i18n.ts:27 | `slice(0, 2)` is the first two characters, or the whole string when shorter |
| I18n.PickInitial | src/lib/i18n.ts:13-35 | see the bullets after the table |
| I18n.NavigatorDefaultsToEnglish | src/lib/i18n.ts:27-28 | with no usable stored or URL choice, a browser reporting no language gives English, not the `es` fallback |
| I18n.NavigatorRegionalTag | src/lib/i18n.ts:27-28 | a regional browser tag such as `ru-RU` picks its language by the two-letter prefix |
| I18n.LangStore.constructor | src/lib/i18n.ts:41 | the store starts in Spanish before any detection |
| I18n.LangStore.DetectInitial | src/lib/i18n.ts:44-46 | in a browser the store becomes the detected language; elsewhere it is unchanged |
| I18n.LangStore.SetLang | src/lib/i18n.ts:49-62 | see the bullets after the table |
| I18n.LangStore.Text | src/lib/i18n.ts:282-284 | a known key shows the current language's text |
| Kit.NormalizeEmail | src/routes/login/+page.server.ts:52 | the typed text trimmed and then lower-cased; so it has no surrounding white space and no upper-case letter |
| Kit.NormalizeEmailCore | src/routes/login/+page.server.ts:52 | the normalised email is a run of the typed text, lower-cased letter by letter, with only white space dropped on either side |
| Kit.NormalizeEmailIdempotent | src/routes/auth/register/+page.server.ts:13 | normalising an already normalised email changes nothing |
| LoginPage.GetLangFrom | src/routes/login/+page.server.ts:40-46 | the lower-cased `?lang=` if it names a table, else the lower-cased cookie if it does, else Spanish |
| LoginPage.QueryBeatsCookie | src/routes/login/+page.server.ts:41-42 | a query value that lower-cases to a supported code, in any mix of case, wins whatever the cookie says |
| LoginPage.BadCredentialsSimplified | src/routes/login/+page.server.ts:66 | the credentials test is exactly "contains `credentials` or `invalid email or password`": its first alternative is subsumed |
| LoginPage.Message | src/routes/login/+page.server.ts:6-35 | the table `T`: five messages in each of the four languages (no contract: the table is data) |
| LoginPage.StatusOf | src/routes/login/+page.server.ts:67-76 | the status is 429 exactly for the rate-limit message, otherwise 400 |
| LoginPage.Classify | src/routes/login/+page.server.ts:63-76 | see the bullets after the table |
| LoginPage.SignInCall | src/routes/login/+page.server.ts:52-61 | sign-in is called exactly when both fields are non-empty, with the normalised email and the password as typed |
| LoginPage.Login | src/routes/login/+page.server.ts:50-86 | see the bullets after the table |
| LoginPage.NoCallNoEffect | src/routes/login/+page.server.ts:57-59 | when the fields are missing, the result does not depend on the sign-in reply: no call was made |
| RegisterPage.Rejection | src/routes/auth/register/+page.server.ts:17-25 | see the bullets after the table |
| RegisterPage.SignUpRequest | src/routes/auth/register/+page.server.ts:27-33 | `signUp` is called exactly when every check passes, with the normalised email, a confirmed password of at least 6 characters, and `origin + '/auth/callback'` |
| RegisterPage.Register | src/routes/auth/register/+page.server.ts:11-46 | see the bullets after the table |
| RegisterPage.ShortBeforeMismatch | src/routes/auth/register/+page.server.ts:20-25 | a short password is reported whatever the confirmation says |
| SignupPage.EmailRedirectTo | src/routes/signup/+page.server.ts:49-52 | a confirmation link exists exactly when the site URL is a non-empty string, and it is that URL plus `/auth/callback` |
| SignupPage.SignupRequest | src/routes/signup/+page.server.ts:28-61 | `signUp` is called exactly when name, email and password are non-empty and the password has at least 6 characters; it receives the trimmed email (not lower-cased), the password, the name and the link |
| SignupPage.Signup | src/routes/signup/+page.server.ts:26-72 | see the bullets after the table |
| SignupPage.NoCallNoEffect | src/routes/signup/+page.server.ts:33-46 | when a check fails, the result does not depend on the sign-up reply |
| Kit.SignedOutOnly | src/routes/auth/login/+page.server.ts:5-11 | a session is redirected home with 303, and only a session; `/auth/register` has the same `load` (src/routes/auth/register/+page.server.ts:5-8), modelled by the same function |
| AuthLoginPage.SignInRequest | src/routes/auth/login/+page.server.ts:16-29 | sign-in is called exactly when both fields are non-empty, with the normalised email and the password as typed |
| AuthLoginPage.SignIn | src/routes/auth/login/+page.server.ts:14-40 | see the bullets after the table |
| CheckEmail.RpcArgument | src/routes/api/auth/check-email/+server.ts:8-24 | the rpc is called exactly when the normalised email is non-empty and contains `@`, and it receives exactly that email |
| CheckEmail.Check | src/routes/api/auth/check-email/+server.ts:7-31 | see the bullets after the table |
| Sitemap.StripTrailingSlashes | src/routes/sitemap.xml/+server.ts:5 | the result is a prefix, everything removed was `/`, and it does not end with `/` |
| Sitemap.StripIdempotent | src/routes/sitemap.xml/+server.ts:5 | stripping twice is stripping once |
| Sitemap.Base | src/routes/sitemap.xml/+server.ts:5 | the base never ends with `/`; it is the stripped site URL when one is set and non-empty, else `https://skyarmenia.com` |
| Sitemap.Entries | src/routes/sitemap.xml/+server.ts:6-16 | one entry per page, in order, each `<url><loc>` + base + path + `</loc></url>` |
| Sitemap.NewlineIndex | src/routes/sitemap.xml/+server.ts:17 | not source behaviour: the first-newline search of the split the model uses as the inverse of the `join('\n')`; the position of the first newline, or the length when there is none |
| Sitemap.SplitJoin | src/routes/sitemap.xml/+server.ts:17 | splitting newline-joined lines gives them back when no line holds a newline |
| Sitemap.NewlineAfter | src/routes/sitemap.xml/+server.ts:17 | not source behaviour, a step of the inverse split: the first newline of `head + '\n' + rest` is the one after `head` |
| Sitemap.UrlLinesAreEntries | src/routes/sitemap.xml/+server.ts:6-17 | with a base holding no newline, the body lines are exactly the six entries in order |
| Sitemap.Get | src/routes/sitemap.xml/+server.ts:4-27 | the document is the XML declaration, the sitemaps.org 0.9 `urlset` opening, the entry lines and the closing tag, joined by newlines, served as `application/xml` |
| Sitemap.JoinAppend | src/routes/sitemap.xml/+server.ts:17-22 | joining a list with one more line puts that line after a newline, as the template does after `${urls}` |
| Sitemap.BodyIsJoin | src/routes/sitemap.xml/+server.ts:19-22 | the document is the newline-join of the declaration, the opening tag, the entries and the closing tag |
| Sitemap.DocumentLines | src/routes/sitemap.xml/+server.ts:15-22 | with a base holding no newline, the document's lines are exactly the declaration, the opening tag, the six entries in order and the closing tag |
| Sitemap.DefaultSite | src/routes/sitemap.xml/+server.ts:5-16 | with no site URL, or an empty one, every entry sits on `https://skyarmenia.com`, the first being the bare site |
| WwwRedirect.Get | src/routes/www-redirect/+server.ts:3-10 | see the bullets after the table |
| WwwRedirect.CanonicalHostStays | src/routes/www-redirect/+server.ts:5-9 | the bare domain is not redirected, so the redirect cannot loop |

Contracts too long for the table:

- `MockProvider.Offers` (either connector, over its constants):
  - no offer when origin, destination or depart is empty, and otherwise exactly one;
  - the offer has the provider's id `<provider>-<origin>-<destination>-<depart>` and the fixed EUR price in cents;
  - the cabin is the requested one, or economy;
  - `bagsIncluded` is the requested bags capped at 1 (absent counts as 0);
  - the outbound leg is consistent and flies origin to destination;
  - a return leg exists exactly when the trip is round and a non-empty return date is given; it is consistent and flies destination to origin.
- `FlyOneProvider.Search`:
  - no offer for an incomplete request, otherwise one;
  - id `flyone-<origin>-<destination>-<depart>`, 19900 EUR cents, cabin defaulting to economy, `min(1, bags ?? 0)` bags;
  - outbound: one `5F 701` segment from depart+`T09:00:00Z` to depart+`T13:30:00Z`, 270 minutes, leg total 270;
  - return exactly when round with a return date: one `5F 702` segment destination to origin, `T15:30:00Z` to `T20:00:00Z`, 270 minutes.
- `BlackstoneProvider.Search`:
  - no offer for an incomplete request, otherwise one;
  - id `blackstone-<origin>-<destination>-<depart>`, 18900 EUR cents, cabin defaulting to economy, `min(1, bags ?? 0)` bags;
  - outbound: one `BS 401` segment from `T11:10:00Z` to `T15:50:00Z`, 280 minutes;
  - return exactly when round with a return date: one `BS 402` segment destination to origin, `T17:45:00Z` to `T22:20:00Z`, 275 minutes.
- `SearchEndpoint.ToInt`:
  - an absent or empty value gives the default;
  - when `parseInt` gives a number of 0 or more, that number;
  - when it gives NaN or a negative number, the default;
  - a plain run of digits gives the number it denotes.
- `SearchEndpoint.Normalize`:
  - origin and destination default to `BCN`/`EVN` when absent or empty, and are otherwise the upper-cased value;
  - both are non-empty;
  - depart and return are the raw values, empty when absent;
  - trip is the given non-empty value verbatim, else `round`;
  - adults and bags are `toInt` of their parameters with defaults 1 and 0: non-negative, 1 and 0 when absent.
- `SearchEndpoint.Get`:
  - validation runs in order: codes not matching `^[A-Z]{3}$` give 400 `Invalid IATA code(s)` before any date check; then an empty depart gives 400; then `round` with an empty return gives 400;
  - success happens exactly when all three checks pass;
  - a 400 sets no headers; a 200 carries `content-type: application/json` and `cache-control: no-store`;
  - on success: `ok`, the query echoes the normalised values, the results are exactly `StubResults` of that query (so their ids, prices, airline and bags reach the caller), and `meta.count` is the number of results;
  - there are 2 results exactly when trip is `round`, else 1;
  - the first result runs origin to destination on the depart date; the second runs destination to origin on the return date.
- `I18n.WithFallback`:
  - the result is a value of the current dictionary, of the fallback, or the key;
  - the current entry wins, then the fallback entry, then the key itself.
- `I18n.PickInitial`:
  - a supported stored value wins;
  - else, in a browser, a supported `?lang=`;
  - else, in a browser, the first two letters of the browser language (`en` when it has none) when they name a language, and Spanish when they do not;
  - without a browser the result is Spanish;
  - the result is always Spanish or one of the candidates: the stored value, the URL value, or the first two letters of the browser language (`en` when it has none).
- `I18n.LangStore.SetLang`:
  - an unsupported code changes nothing;
  - a supported code becomes the language;
  - in a browser whose storage accepts the write, the code is stored and put in `?lang=`, so the next detection picks the same language whatever the browser language;
  - otherwise the stored value and URL stay as they were.
- `LoginPage.Classify`, tested in this order on the lower-cased message:
  - a credentials phrase gives invalid credentials;
  - else a not-confirmed phrase gives email not confirmed;
  - else `rate`/`too many` gives rate limited;
  - else generic.
- `LoginPage.Login`:
  - empty fields give 400 `required_both` in the chosen language;
  - an upstream error gives its class's message, with 429 exactly for the rate-limit class and 400 otherwise;
  - no error and no session gives 400 generic;
  - no error with a session gives, and is the only thing that gives, a 303 to `/`;
  - every failure echoes the normalised email.
- `RegisterPage.Rejection`:
  - any empty field is reported first;
  - then a password shorter than 6;
  - then a mismatch;
  - no error exactly when all three pass.
- `RegisterPage.Register`:
  - a failed check gives 400 with its message;
  - a `signUp` error gives 400 with the upstream message;
  - every failure echoes the email;
  - a redirect (303) happens exactly after a successful `signUp`: to `/auth/login?verify=1` exactly when a user but no session came back, otherwise to `/`.
- `SignupPage.Signup`:
  - missing fields give 400 first;
  - then a short password gives 400;
  - then an upstream error gives 400 with its message;
  - failures echo name and email;
  - `{ sent: true }` is returned exactly when `signUp` was called and did not fail;
  - it never redirects.
- `AuthLoginPage.SignIn`:
  - missing fields give 400 `Email y contraseña son obligatorios.` with the email echoed;
  - an upstream error gives 400 with its message verbatim;
  - otherwise, and only then, a 303 to `/`.
- `CheckEmail.Check`:
  - a rejected email gives 400 `invalid_email`;
  - an rpc error gives 500 with its message;
  - `ok` holds exactly when the rpc was called and answered, and then the status is 200 and `exists` is the truthiness of the data;
  - every failure reports `exists: false`.
- `WwwRedirect.Get`:
  - a redirect happens exactly for the host `www.skyarmenia.com`;
  - it is a 308 (section 15.4.9 of RFC 9110) whose location is `https://skyarmenia.com` followed by the original path and query;
  - any other host gives 204.

## Left out

- Aggregation engine: no file calls the connectors. `/api/search` returns a stub list, so there is no fan-out, timing or failure isolation to model. `AggregatedSearchResponse` and `ProviderBatchResult` are stated only as predicates with lemmas.
- Connector failure: the mock connectors cannot fail. `search` is a total function returning a sequence, and an incomplete request gives the empty sequence.
- Supabase: `signInWithPassword`, `signUp`, `rpc('email_exists')`, sessions and cookies are foreign calls. Their replies are parameters. The session and cookie plumbing files, `logout`, `auth/callback`, the diagnostics endpoints, the favicon script and the browser test are not part of this model.
- Dates: timestamps are not parsed. Both stamps of a leg share one date, so the date's epoch offset cancels (`MockProvider.MinutesBetweenShift`). A malformed date makes `minutesBetween` NaN in JavaScript; that path is not modelled.
- `SearchEndpoint.ToInt`: JavaScript numbers are floats, and the model uses unbounded integers. Digit strings beyond 2^53 lose precision in the original and very long ones become `Infinity`, which falls back to the default. `'-0'` parses to 0 in both.
- Character handling: case mapping is ASCII-only. White space for `trim` and `parseInt` is the ASCII set plus U+00A0, U+FEFF, U+2028 and U+2029; the other Zs space characters are not included. `.length` counts characters, not UTF-16 code units. Regular expressions are modelled as substring tests and character classes.
- Key membership: `q in T` in the login page and `prop in target` in the fallback lookup also accept prototype keys such as `constructor`. The model uses own-key membership only.
- Query strings: a parameter given twice is read by its first value; the model's query is a map with one value per name.
- Form values: `form.get` can return a file, which `String(...)` turns into `[object File]`. Only string fields are modelled.
- Browser faults in i18n: the `try/catch` in `pickInitial` (an exception while reading storage or the URL gives `'es'`) is not modelled. In `setLang`, a failing `localStorage.setItem` is modelled by a flag that skips both writes. A `history.replaceState` failure after a successful storage write is not modelled.
- Dictionaries: three keys per language stand for the full tables. In the source all four tables have the same 36 keys.
- Responses: the model keeps the headers the handlers set (`cache-control` and `content-type` on the search reply, `content-type` on the sitemap, `location` on the redirect). Headers the runtime adds by default, such as the `text/plain` type of a 400 search reply, are not modelled; the JSON serialisation and the `Response` objects are records, not bytes.
