# Dynamic-DNS update worker, modelled in Dafny

The worker in `js/src/index.js` is a Cloudflare Worker. Routers and DDNS agents call it with dyndns2, duckdns or ydns query conventions to say "this hostname now has this IP". The worker then makes the account's A or AAAA records match.

The model covers the whole decision logic of that file:

- **Gate** (`gate.dfy`): `requireHttps`; `parseBasicAuth` (close to HTTP Basic as in section 2 of RFC 7617: the scheme word before the space is not checked, so any scheme is decoded as Basic; split at the first colon, control characters refused); the routing of `handleRequest` (204 for `/favicon.ico` and `/robots.txt`, 404 for other paths and for anonymous requests, 401 `badauth`); the `token` password fallback and the exact credential comparison.
- **Normalizer** (`normalizer.dfy`): the `||` chains that pick the hostname list and the IP from the three dialects, the comma split, the trim and the `proxied` presence flag.
- **Domain** (`domain.dfy`): the root-domain regular expression `/.*?([^.]+\.[^.]+)$/`, modelled the way a backtracking engine runs it and proved to keep the last two labels.
- **Provider** (`provider.dfy`): the `Cloudflare` client as a class over a fake provider. The provider holds the account's zones, a record sequence that `createRecord` appends to and `updateRecord` rewrites in place, and a log of every API call. A set of call positions says which calls the provider answers with `success: false`. Each method is proved equal to a pure reply function.
- **Engine** (`engine.dfy`): `informAPI`. The method `Engine.InformApi` keeps the loop and its zone cache and is proved to compute `Engine.Reconcile`, a left fold over the hostnames that stops at the first failure. The lemmas about `Reconcile` state:
  - one `findZone` per distinct root domain;
  - a single record type per batch;
  - create versus update;
  - abort on the first failure with no rollback;
  - what a successful batch leaves in the provider.
- **Handler** (`handler.dfy`): `handleRequest` and `fetch`, composing the parts above. A `catch` maps exceptions to 400 or 500 responses.
- **Shared pieces**: `types.dfy` holds the values and `text.dfy` the JavaScript string built-ins (`indexOf`, `split`, `trim`, `endsWith`).

Inputs that the host computes are taken as given:

- the parsed URL (protocol, path, query);
- the request headers, with lower-case names;
- the result of `atob`.

Each query parameter maps to its first value, which is what `searchParams.get` and `has` return. `Option.None` stands for JavaScript's `undefined` or `null` and `Some("")` for the empty string. The exceptions are `Failure` values:

- `BadRequest` is `BadRequestException`;
- `ApiError` is `CloudflareApiException`;
- `HostError` is a `TypeError` or `DOMException` thrown by the host.

## Model

| member | source | states |
|---|---|---|
| Text.IndexOf | js/src/index.js:113 | -1 exactly when the character is absent, otherwise the position of its first occurrence |
| Text.EndsWith | js/src/index.js:133 | `pathname.endsWith("/update")`, defined by its body: the last characters of the string are the suffix |
| Text.HasControl | js/src/index.js:115 | `/[\0-\x1F\x7F]/.test(decoded)`, defined by its body: some character is U+0000 to U+001F or U+007F |
| Text.Split | js/src/index.js:163 | `split(",")` gives at least one piece, no piece holds the separator, and joining the pieces gives the input back |
| Text.SplitOfJoin | js/src/index.js:163 | splitting a joined comma-free list gives the list back, so the hostname list is exactly the comma-separated parts |
| Text.Trim | js/src/index.js:176 | `ip.trim()` is the part between leading and trailing whitespace and neither starts nor ends with whitespace |
| Text.TrimIdempotent | js/src/index.js:176 | trimming a trimmed IP changes nothing |
| Domain.LazyScan | js/src/index.js:195 | the lazy `.*?` grown one character at a time, never across a line terminator, until the rest is a label pair; its stop lies within the input; characterised by Domain.LazyScanStopsFirst |
| Domain.Search | js/src/index.js:195 | the engine trying each start position in turn; the match lies within the input; characterised by Domain.SearchFindsLabelPair |
| Domain.RootDomain | js/src/index.js:195 | the `replace`: the match is replaced by its group, and without a match the hostname stays; characterised by Domain.RootDomainEndsWithLabelPair, Domain.RootDomainIsLastTwoLabels and Domain.RootDomainAcrossLineTerminator |
| Domain.LazyScanStopsFirst | js/src/index.js:195 | the lazy `.*?` stops at the first position from which the rest is `label.label`, crossing no line terminator |
| Domain.SearchFindsLabelPair | js/src/index.js:195 | the regex's match starts at a position where the lazy scan succeeds, and its group is a label pair running to the end |
| Domain.RootDomainEndsWithLabelPair | js/src/index.js:195 | the replacement leaves the hostname unchanged or ends with a label pair of the hostname |
| Domain.RootStartUnique | js/src/index.js:195 | a hostname has at most one "last two labels" |
| Domain.RootDomainIsLastTwoLabels | js/src/index.js:195 | on a hostname without line terminators the root domain is its last two labels when it ends in `label.label`, and the hostname itself otherwise |
| Domain.RootDomainAcrossLineTerminator | js/src/index.js:195 | `a\nb.c.d` becomes `a\nc.d`: a line terminator stops the lazy `.*?`, so the match starts after it and the text in front of it stays |
| Gate.RequireHttps | js/src/index.js:96-103 | passes exactly when the protocol is `https:` and `x-forwarded-proto` is exactly `https`; otherwise the HTTPS bad request |
| Gate.ParseBasicAuth | js/src/index.js:105-122 | no header gives no credentials; an `atob` failure is a host error; no colon or a control character is a bad request; otherwise the username has no colon and `username + ":" + password` is the decoded text |
| Gate.EffectivePassword | js/src/index.js:143-145 | the Basic password when non-empty, the `token` parameter otherwise |
| Gate.Matches | js/src/index.js:147 | the negation of the 401 test, defined by its body: strict equality of the user (`undefined` equals `undefined`) and of a configured password; characterised by Gate.AdmittedIffCredentialsMatch |
| Gate.Admit | js/src/index.js:125-157 | admission implies HTTPS, a path ending in `/update`, a credential present, well-formed Basic credentials and an exact match with the configuration; the gate's own responses are 204, 401 or 404, never 200 |
| Gate.PlainHttpIsBadRequest | js/src/index.js:126-131 | plain HTTP is a bad request before any routing, even for `/favicon.ico` |
| Gate.SpecialPathsNoContent | js/src/index.js:129-131 | over HTTPS, `/favicon.ico` and `/robots.txt` get 204 with a null body whatever the credentials |
| Gate.UnknownOrAnonymousIsNotFound | js/src/index.js:133-141 | a path not ending in `/update`, or no `Authorization` header and no `token`, gets the same 404 `Not Found.` |
| Gate.MismatchIsUnauthorized | js/src/index.js:143-157 | well-formed Basic credentials that do not match, with no `token`, get 401 `badauth` with `WWW-Authenticate: Basic` |
| Gate.AdmittedIffCredentialsMatch | js/src/index.js:143-147 | a request reaching the comparison is admitted exactly when the Basic username and the effective password equal the configured ones |
| Gate.TokenOnlyClientAdmitted | js/src/index.js:143-147 | a duckdns-style client with only a `token` equal to the configured password, and no configured user, is admitted |
| Gate.TokenOnlyClientRefusedWhenUserSet | js/src/index.js:143-157 | with a user configured, a request with only a `token` gets 401 `badauth` whatever the token, since its username is `undefined` |
| Normalizer.FirstNonEmpty | js/src/index.js:162-166 | none exactly when every alias is blank; otherwise a non-empty alias preceded only by blank ones |
| Normalizer.JsOr | js/src/index.js:162 | JavaScript's `a \|\| b` on a string or `null`, defined by its body: `a` when it is a non-empty string, `b` otherwise |
| Normalizer.OrChain | js/src/index.js:162-166 | a chain of `\|\|` grouped to the left, defined by its body; characterised by Normalizer.OrChainIsFirstNonEmpty |
| Normalizer.OrChainIsFirstNonEmpty | js/src/index.js:162-166 | a chain of JavaScript `or` operators yields the first non-empty value, or the last value when there is none |
| Normalizer.Normalize | js/src/index.js:162-173 | a bad request exactly when no hostname alias is non-empty and `domains` is absent, or no IP source is non-empty; otherwise the hostnames rejoin to the chosen alias, hold no comma and are at least one, the IP is the trimmed first source, and `proxied` is the presence of the key |
| Provider.FirstZoneNamed | js/src/index.js:27-30 | `result[0]` of the zone query: none exactly when no zone has the name, otherwise the earliest zone with it |
| Provider.RecordsNamed | js/src/index.js:35-37 | the record query returns exactly the zone's records with the name, and is empty exactly when there are none |
| Provider.FirstOfType | js/src/index.js:40 | `filter(...)[0]`: none exactly when no record has the type, otherwise the earliest record of the type |
| Provider.FirstOfTypeAt | js/src/index.js:40 | the first record of the type is the one a scan from the front stops at |
| Provider.FirstMatch | js/src/index.js:33-40 | the record found is in the store, in the zone, with the name and the type |
| Provider.FilterThenFirst | js/src/index.js:33-40 | filtering by name on the provider and then by type in the client finds the store's first record matching all three |
| Provider.Rewrite | js/src/index.js:64-82 | a PATCH keeps every record's id, zone, name and type, gives the target the new content and flag, and leaves the others as they were |
| Provider.FindZoneReply | js/src/index.js:24-31 | logs one zone query; succeeds exactly when the provider accepts and a zone has the name, with the first such zone; otherwise `Failed to find zone '<name>'` |
| Provider.FindRecordReply | js/src/index.js:33-41 | logs one record query; fails exactly on rejection or when the zone has no record with the name; otherwise resolves to the first record of the type, or to `undefined` when none has the type |
| Provider.CreateRecordReply | js/src/index.js:43-62 | logs one POST with the type, content and flag; on success appends a record with a fresh id, otherwise changes no record |
| Provider.UpdateRecordReply | js/src/index.js:64-83 | `undefined` throws a TypeError before any call; otherwise logs one PATCH and on success rewrites the record in place, keeping its name and type |
| Provider.CreateKeepsWellFormed | js/src/index.js:43-62 | creating keeps record ids distinct and below the next id |
| Provider.UpdateKeepsWellFormed | js/src/index.js:64-83 | updating keeps record ids distinct and below the next id |
| Provider.UpdateRewritesOnlyTarget | js/src/index.js:64-83 | a successful update changes exactly the record found and no other |
| Provider.Cloudflare.constructor | js/src/index.js:18-22 | the client has the API base URL and the token, over the given provider state |
| Provider.Cloudflare.FindZone | js/src/index.js:24-31 | the reply and the new provider state are those of `FindZoneReply` |
| Provider.Cloudflare.FindRecord | js/src/index.js:33-41 | the reply (after a scan loop for the first record of the type) and the new state are those of `FindRecordReply` |
| Provider.Cloudflare.CreateRecord | js/src/index.js:43-62 | the reply and the new state are those of `CreateRecordReply` |
| Provider.Cloudflare.UpdateRecord | js/src/index.js:64-83 | the reply and the new state are those of `UpdateRecordReply` |
| Engine.RecordType | js/src/index.js:189 | the type is `A` exactly when the IP contains a dot and `AAAA` exactly when it does not |
| Engine.ZoneStep | js/src/index.js:197-201 | a cached root is reused with no call; an uncached one costs one `findZone` |
| Engine.RecordStep | js/src/index.js:202-208 | a record lookup always comes first, and at most one write follows it, of the batch's type, IP and flag; zones are untouched |
| Engine.ReconcileHost | js/src/index.js:193-209 | success implies the zone was found and is now cached; a failed zone lookup ends the iteration with only that call made |
| Engine.RecordStepCalls | js/src/index.js:202-208 | the record calls of a hostname look up no zone and write only the batch's type, IP and flag |
| Engine.HostZoneLookups | js/src/index.js:195-201 | one hostname calls `findZone` exactly when its root domain is not cached yet |
| Engine.HostWrites | js/src/index.js:202-208 | one hostname writes only records of the batch's type, with the IP and the flag |
| Engine.HostKeepsWellFormed | js/src/index.js:193-209 | one hostname's work keeps record ids distinct |
| Engine.HostStep | js/src/index.js:193-209 | the loop body as a step over the cache and the provider state, defined by its body |
| Engine.Fold | js/src/index.js:193-209 | the loop as a left fold that stops at the first failure, defined by its body; characterised by Engine.FoldSnoc, Engine.FailureIsFinal and Engine.FirstFailureAborts |
| Engine.Reconcile | js/src/index.js:187-210 | `informAPI` as a function of the provider state, defined by its body; Engine.InformApi is proved to compute it and the lemmas below are about it |
| Engine.FoldSnoc | js/src/index.js:193 | after a successful prefix, one more hostname is one more iteration |
| Engine.FailureIsFinal | js/src/index.js:193-209 | once the batch has failed, later hostnames change nothing |
| Engine.FirstZoneFailureEndsBatch | js/src/index.js:197-199 | a failed zone lookup for the first hostname ends the batch with that one `findZone` call and an empty cache |
| Engine.FirstFailureAborts | js/src/index.js:193-209 | a failed batch is the successful work on a prefix, which stays, followed by the failing work on one hostname; no later hostname is touched |
| Engine.FoldFrame | js/src/index.js:193-209 | a batch of steps that only append calls and keep ids distinct does the same |
| Engine.HostStepKeepsFrame | js/src/index.js:193-209 | the engine's iteration only appends calls and keeps ids distinct |
| Engine.ReconcileFrame | js/src/index.js:193-209 | a batch never changes the zones or the failure schedule, only appends calls, and keeps ids distinct |
| Engine.Roots | js/src/index.js:195 | one root domain per hostname |
| Engine.RootsElementwise | js/src/index.js:195 | the root at each position is the root domain of the hostname at that position |
| Engine.FirstOccurrencesMembers | js/src/index.js:197-199 | the distinct roots hold exactly the roots of the batch |
| Engine.FirstOccurrencesDistinct | js/src/index.js:197-199 | no root occurs twice among the distinct roots |
| Engine.FirstOccurrencesSnoc | js/src/index.js:197-199 | a root is a new first occurrence exactly when it has not been seen |
| Engine.FoldCachedRoots | js/src/index.js:191-201 | after a successful batch the cache holds exactly the batch's root domains |
| Engine.LookupsStayPrefix | js/src/index.js:197-199 | lookups that are a prefix of the distinct roots stay one when a hostname is added |
| Engine.LookupsAfterStep | js/src/index.js:195-201 | after lookups of all distinct roots so far, with exactly those roots cached, one more hostname brings the lookups to the distinct roots of the longer batch |
| Engine.FoldZoneLookups | js/src/index.js:191-201 | the zone lookups of a batch are a prefix of its distinct roots in order of first occurrence, and all of them on success |
| Engine.HostStepLooksUpUncached | js/src/index.js:195-201 | the engine's iteration looks up only an uncached root and caches it |
| Engine.ZoneLookupOncePerRoot | js/src/index.js:191-201 | `findZone` is called at most once per distinct root domain, in order of first occurrence: never twice for one root, every root on success, and the cache then holds exactly the roots |
| Engine.FoldWrites | js/src/index.js:202-208 | a batch of steps that write only one type, content and flag writes only those |
| Engine.HostStepWritesOnly | js/src/index.js:189-208 | the engine's iteration writes only the batch's type, IP and flag |
| Engine.OneRecordTypePerBatch | js/src/index.js:189-208 | every create and update of a batch uses the one type chosen from the IP, the IP as content and the requested flag |
| Engine.CreateOrUpdate | js/src/index.js:202-208 | a record of the name and type is updated (PATCH, no POST); no record of the name, or a refused lookup, leads to a create (POST, no PATCH); records of the name but none of the type give a TypeError after the lookup alone |
| Engine.RewriteResolves | js/src/index.js:64-82 | after a PATCH the store has a record with the updated record's zone, name and type and the new content and flag |
| Engine.RewriteKeepsResolves | js/src/index.js:64-82 | a PATCH to an IP and flag keeps every record that already had that IP and flag |
| Engine.RecordStepResolves | js/src/index.js:202-208 | a successful create or update leaves a record of the hostname in the zone with the batch's type, the IP and the flag, and keeps every earlier such record |
| Engine.FoldResolves | js/src/index.js:193-209 | after a successful batch every hostname has a record of the type with the IP and the flag in the zone cached for its root |
| Engine.FoldCacheFaithful | js/src/index.js:197-201 | after a successful batch each cached zone is the account's first zone of that name |
| Engine.HostResolves | js/src/index.js:193-209 | a successful iteration grows the cache, leaves a record of the hostname with the type, IP and flag in its root's zone, keeps every earlier such record, and caches only zones `findZone` returns |
| Engine.HostStepResolvesEach | js/src/index.js:193-209 | the engine's iteration leaves a record of each hostname with the type, IP and flag and keeps the cache faithful |
| Engine.SuccessfulBatchResolves | js/src/index.js:193-209 | after a successful batch every hostname has a record of the batch's type with the IP and the flag in its root's zone, and the cache is faithful |
| Engine.Upsert | js/src/index.js:202-208 | `findRecord(...).then(update, create)` has the outcome and the new provider state of `RecordStep` |
| Engine.InformHost | js/src/index.js:194-208 | one iteration, with the zone taken from the `Map` or fetched and stored in it, has the outcome, cache and provider state of `ReconcileHost` |
| Engine.InformApi | js/src/index.js:187-210 | the loop with its `Map` of zones has the outcome and leaves the provider state of `Reconcile`, the batch that all the lemmas above are about |
| Handler.Prepare | js/src/index.js:126-173 | an update is run exactly when the gate admits and the normaliser succeeds, and it is exactly the normaliser's update (hostnames, trimmed IP, flag); admitted but missing parameters is the bad request; the gate's own responses and exceptions pass through unchanged |
| Handler.ErrorResponse | js/src/index.js:214-227 | 400 exactly for a bad request and 500 otherwise; `Bad Request`, `Internal Server Error` or `statusText: null`; plain-text, no-store headers |
| Handler.AfterDecision | js/src/index.js:175-184 | an update runs the batch and answers `good` on success, defined by its body; Handler.Conclude is proved to compute it |
| Handler.Handle | js/src/index.js:125-185 | `handleRequest` as a function, defined by its body; Handler.HandleRequest is proved to compute it |
| Handler.Serve | js/src/index.js:212-229 | `fetch` as a function, defined by its body; Handler.Fetch is proved to compute it and the Handler lemmas are about it |
| Handler.HandleRequest | js/src/index.js:125-185 | a fresh client runs `informAPI`; the result and the provider state are those of `Handle`, and record ids stay distinct |
| Handler.Conclude | js/src/index.js:175-184 | a decision to update runs `informAPI` on a fresh client and answers `good` on success; other decisions make no call; the result is that of `AfterDecision` |
| Handler.Fetch | js/src/index.js:212-229 | the response and the provider state are those of `Serve`, with every exception turned into an error response |
| Handler.PlainHttpGets400 | js/src/index.js:126 | plain HTTP gets 400 and makes no provider call |
| Handler.UnadmittedTouchesNothing | js/src/index.js:129-157 | a request the gate does not admit makes no provider call and never gets 200 |
| Handler.MissingParametersGets400 | js/src/index.js:168-170 | an admitted request with no usable hostname or IP gets 400 and makes no provider call |
| Handler.ZoneFailureGives500 | js/src/index.js:197-199 | when the first hostname's zone lookup fails, the response is 500 and the provider has seen only that `findZone` call |
| Handler.GoodIffBatchSucceeds | js/src/index.js:176-184 | the response is 200 exactly when the request was admitted and normalised and the whole batch succeeded |
| Handler.BatchResolvesInFirstZone | js/src/index.js:193-209 | after a successful batch every hostname has a record of the type with the IP and the flag in the account's first zone named after its root |
| Handler.GoodMeansResolved | js/src/index.js:176-184 | a 200 means the request was admitted and every hostname named has a record of the batch's type with the IP and the flag in its root's first zone |

## Behaviour as coded

The model follows the code where the code and the documented design differ.

- The hostname and IP aliases are chosen by JavaScript's `||`: the first non-empty value wins, not the first present one.
  - `domains=` present but empty, with no other non-empty alias, gives the hostname list `[""]`. The update then proceeds.
  - An empty `hostname=` or `host=` with no other alias is a bad request.
  - The `hostnames.length === 0` test never fires, because `split` always returns at least one piece.
  - An IP of whitespace only passes the emptiness test and is trimmed to the empty string.
- A name that has records, but none of the batch's type, makes `findRecord` resolve to `undefined`. `updateRecord` then throws a `TypeError` before any request, and the response is 500 with `statusText: null`. The documented design would create a record here.
- A `findRecord` refused by the provider leads to a create, like a name with no records. It is not reported as a failure.
- The error response body is the error's stack text, not a reason: neither exception class sets the `reason` property that `fetch` reads first.
- The root domain comes from a regular expression. A hostname that does not end in `label.label` (for example `localhost` or `a.b.`) is looked up unchanged.
  - `.` does not match a line terminator, so the text before the last line terminator stays: `a\nb.c.d` becomes `a\nc.d` (`Domain.RootDomainAcrossLineTerminator`).
- Only the first record of the name and the type is updated (line 40). A second record of the same name and type keeps its old content, so after a 200 the name can carry both the new and the old IP. The lemmas promise a record with the IP, not that it is the only one.
- Whenever a user is configured, a token-only (duckdns-style) client always gets 401: without an `Authorization` header the username is `undefined`, which never equals the configured user (`Gate.TokenOnlyClientRefusedWhenUserSet`). The documented design promises token-only support.
- The scheme word of the `Authorization` header is not checked (line 111): `Bearer dXNlcjpwYXNz` is decoded as Basic credentials.

## Left out

- HTTP plumbing (`_fetchWithToken`, `fetch`, `response.json()`, URL building, the bearer header; lines 85-93) is not modelled. A fake provider with a call log takes its place, and a set of log positions decides which calls the provider refuses.
- `atob`, `new URL`, `authorization.split(" ")` and header-name case folding are host library calls. Their results are inputs of `Gate.Request`. Repeated query keys are represented by their first value.
- Strings are sequences of Unicode scalar values, while JavaScript strings are UTF-16 code units. A supplementary character is one `char` here and two code units there, and a lone surrogate cannot be represented. No modelled decision depends on string lengths in code units.
- The text of the stack trace in error bodies cannot be modelled, so it is the opaque `Diagnostic` body. The `Content-Length` header of error responses is omitted because it is the stack's length.
- The `errors` list that `CloudflareApiException` carries is not modelled, and neither is `console.error`.
- `async`/`await` is modelled as sequential calls, which is the order the awaits enforce.
- Record ids are natural numbers handed out by the fake provider, not Cloudflare's strings. Fields of a record other than id, zone, name, type, content and `proxied` are not modelled.
- Provider.Cloudflare.FindZone: requires the provider's record ids to be distinct. The real provider keeps that property on its own; the source code does not check it.
- Provider.Cloudflare.constructor: requires distinct record ids for the same reason.
- Provider.Cloudflare.FindRecord: requires distinct record ids for the same reason.
- Provider.Cloudflare.CreateRecord: requires distinct record ids for the same reason.
- Provider.Cloudflare.UpdateRecord: requires distinct record ids for the same reason.
- Engine.Upsert: requires distinct record ids for the same reason.
- Engine.InformHost: requires distinct record ids for the same reason.
- Engine.InformApi: requires distinct record ids for the same reason.
- Handler.HandleRequest: requires distinct record ids for the same reason.
- Handler.Fetch: requires distinct record ids for the same reason.
- Handler.Conclude: requires distinct record ids for the same reason.
- Domain.RootDomainIsLastTwoLabels: proved only for hostnames without line terminators. `Domain.RootDomain` itself models every input, including how `.` refuses to cross a line terminator.
- python/src/lib/cloudflare.py and python/src/entry.py are not part of this model. They are an unfinished stub and a web-framework wrapper with no decision logic.
