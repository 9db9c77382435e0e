# FF-Agent alarm app: a Dafny model of its core

This project models the core of the alarm web app of a volunteer fire brigade.
The app triggers alarms on the FF-Agent dispatch service and shows the incident
and the roster of the crew. The model covers four parts:

- **The place resolver** (`PlaceRepository`). It builds two case-insensitive
  indices from the ordered place dataset: an exact index over every name and
  alias, and a prefix index over the keys of places flagged `isPrefix`.
  `findPlace` first tries an exact key, then takes the first prefix key, in
  insertion order, that begins the lower-cased input.
- **The server** (`api/index.js`).
  - The start-up configuration check.
  - `sendFfAgentRequest`: it checks the key first, then signs the serialised
    body behind the endpoint's tokens with HMAC-SHA-256, assembles the
    headers and maps the upstream outcome to a status.
  - `getPeople`, which picks the roster query from the incident state.
  - The `/people`, `/call` and `/passwordcheck` gates.
- **The browser's request builders** (`ApiService.js`). These include the
  backup transform, which forces `keyword` to "TEST".
- **The alarm page** (`components/index.js`):
  - the alarm object the page assembles;
  - the primary and backup flow;
  - the alarm-button condition and the dropdown filter;
  - roster normalisation and person badges;
  - the poll timer.

Modules:

| file | module | models |
|---|---|---|
| wrappers.dfy | Wrappers | `Option`, `Result` |
| text.dfy | Text | `toLowerCase`, `startsWith`, `includes`, `substring`, `trim` |
| assoc.dfy | AssocList | a JavaScript `Map` or plain object as an insertion-ordered list of entries |
| json.dfy | Json | parsed JSON values, property access, JavaScript truthiness, and the serialiser and HMAC primitives |
| http.dfy | Http | fetch outcomes, requests and route replies |
| places.dfy | Places | `PlaceRepository` (a class) and the functions that specify it |
| place_properties.dfy | PlaceProperties | what `findPlace` promises |
| place_examples.dfy | PlaceExamples | cases from `PlaceRepository.test.js` |
| server.dfy | Server | `api/index.js` |
| api_service.dfy | ApiService | `ApiService.js` |
| client.dfy | Client | the expression-only logic of `components/index.js` |
| alarm_page.dfy | Page | the page state of `components/index.js` and its handlers (a class) |

Modelling choices:

- **Lower-casing** maps ASCII A-Z, the Latin-1 capitals U+00C0-U+00DE
  (except the multiplication sign) and the Cyrillic capitals U+0400-U+042F
  to their small letters. Every other character is left unchanged.
- **`Map` objects.** The two indices are association lists that follow the
  semantics of `Map.set`. Setting an existing key replaces its value in
  place, so for a repeated key the value is the last writer's, while the scan
  order is the order of first insertion.
- **`JSON.stringify` and HMAC-SHA-256** are the two fields of a
  `Primitives` value. The model never inspects them, and it proves only how
  they are used.
- **The network is a parameter.** The services upstream of the server are
  function parameters (`Request -> Outcome`, `Request -> WidgetResponse`).
  So are the browser's `fetch` replies.
- **Effects.** Each server operation returns a record of what it sent, what
  it signed and what it replied. The page records the requests it sends in
  `outbox` and the alerts it shows in `alerts`.
- **Places.** A place carries both `isPrefix` and `asPrefix`, modelled as
  written:
  - the indices read `isPrefix` (components/PlaceRepository.js:19);
  - the alarm object reads `asPrefix` (components/index.js:146);
  - the dataset flags prefix places with `isPrefix`.
- **JSON objects** are lists of properties in order. Property access reads
  the first property of that name. A parsed object never repeats a name,
  because `JSON.parse` keeps only the last one, so the model does not
  depend on this choice.
- **Incident state.** The comment at api/index.js:183 speaks of "no error
  field", but the code tests the truthiness of `callData?.error`. The model
  follows the code: null data, a missing `error` and a falsy `error` all
  count as an active call.

## Model

| member | source | states |
|---|---|---|
| Text.LowerChar | components/PlaceRepository.js:37 | a capital becomes a different character that is no capital, ASCII capitals become ASCII small letters, and every other character is kept |
| Text.Lower | components/PlaceRepository.js:37 | lower-casing keeps the length and maps every character on its own |
| Text.StartsWith | components/PlaceRepository.js:48 | `s.startsWith(p)` holds exactly when `p` is no longer than `s` and agrees with it position by position |
| Text.Includes | components/index.js:69 | every text contains "", no text contains a longer one, and a text contains each of its prefixes |
| Text.Trim | components/index.js:134 | the result neither starts nor ends with white space, and it is the piece of the input between two all-blank ends |
| Text.LowerIdempotent | components/PlaceRepository.js:11-12 | lower-casing a lower-cased key changes nothing, so the stored keys are already in lookup form |
| Text.SubstringFrom | components/index.js:144 | `substring(start)` gives the rest of the string behind `start`, or "" past its end |
| Text.TrimEmptyIffBlank | components/index.js:68 | `trim()` gives "" exactly when the text is all white space |
| AssocList.Get | components/PlaceRepository.js:40 | `get` is undefined exactly when the key is absent, and otherwise returns a value stored under that key |
| AssocList.Set | components/PlaceRepository.js:15-16 | `set` keeps the key order when the key exists, and appends the key otherwise |
| AssocList.SetGet | components/PlaceRepository.js:15-16 | after `set(k, v)`, `get(k)` is `v` and every other key keeps its value |
| AssocList.GetEntry | components/PlaceRepository.js:40 | with distinct keys, `get` finds the value of every entry |
| AssocList.SetFresh | api/index.js:111-112 | `set` on a key that is not present appends the entry at the end |
| AssocList.SetIdempotent | components/ApiService.js:33 | setting the same key to the same value twice equals setting it once |
| AssocList.SetUnchanged | components/ApiService.js:33 | setting a key to the value it already holds changes nothing |
| AssocList.SetAllGet | components/PlaceRepository.js:10-23 | after a run of `set`s, a key written by the run has the value of its last write, and any other key keeps its old value |
| AssocList.SetAllKeys | components/PlaceRepository.js:10-23 | a run of `set`s keeps the keys distinct; the key set is the old keys plus the written ones |
| AssocList.SetAllKeysFirsts | components/PlaceRepository.js:10-23 | the key order after a run of `set`s is the order in which each key was first written |
| AssocList.SetAllOrder | components/PlaceRepository.js:47 | for two keys of the built map, the one met first in iteration is the one first written |
| AssocList.SetAllEntries | components/PlaceRepository.js:20-21 | every entry of the built map is an old entry or one of the written entries |
| AssocList.LastValue | components/PlaceRepository.js:15-16 | the last value written for a key, or nothing exactly when the key was never written |
| AssocList.Firsts | components/PlaceRepository.js:47 | the distinct keys in order of first occurrence, each key of the input exactly once |
| Json.Field | api/index.js:184 | property access on a value that is not an object is undefined |
| Json.Truthy | api/index.js:184 | a value is falsy exactly when it is undefined, null, false, 0 or "" |
| Places.PlaceEntries | components/PlaceRepository.js:11-16 | a place's keys are its lower-cased name, then its lower-cased aliases, each mapped to the place |
| Places.Lookup | components/PlaceRepository.js:36-54 | an exact key is answered from the exact index; otherwise null exactly when no prefix key begins the key, and else a place stored under a prefix key that begins it |
| Places.ResolvePlace | components/PlaceRepository.js:36-54 | `findPlace` returns only places of the dataset, found either under the lower-cased input itself or, for a prefix place, under one of its own keys that begins the input |
| Places.LookupFromDataset | components/PlaceRepository.js:9-23 | both indices hold only places of the dataset, each under one of its own keys |
| Places.EntriesFrom | components/PlaceRepository.js:11-16 | every exact entry is a key of a place of the dataset, mapped to that place |
| Places.FirstPrefixMatch | components/PlaceRepository.js:47-51 | the first entry, in index order, whose key begins the input, or nothing exactly when no key does |
| Places.LastOwner | components/PlaceRepository.js:15-16 | the last place in the dataset that owns a key, or nothing exactly when no place does |
| Places.EntriesSnoc | components/PlaceRepository.js:19-22 | each place adds its entries to the exact index, and to the prefix index only when it is a prefix place |
| Places.ExactIndexStep | components/PlaceRepository.js:9-15 | loading one more place gives the exact index with that place's name and aliases set over the index loaded so far |
| Places.PrefixIndexStep | components/PlaceRepository.js:17-21 | loading one more place extends the prefix index by its name and aliases when it is a prefix place and leaves it unchanged otherwise |
| Places.PlaceRepository.constructor | components/PlaceRepository.js:3-28 | keeps the dataset and builds both indices, so the repository's invariant holds |
| Places.PlaceRepository.SetAllEntriesOf | components/PlaceRepository.js:15-16 | setting a place's name and then each alias equals setting its entries in order |
| Places.PlaceRepository.SetAliases | components/PlaceRepository.js:11-15 | once the name is set, setting each lower-cased alias in order yields the place's full run of entries |
| Places.PlaceRepository.FindPlace | components/PlaceRepository.js:36-54 | returns an exact hit, or else the place of the first matching prefix key, or else null; on a valid repository it equals `ResolvePlace`; it changes nothing |
| Places.PlaceRepository.GetAllPlaceNames | components/PlaceRepository.js:56-58 | returns the dataset unchanged and in order |
| PlaceProperties.EntriesLastValue | components/PlaceRepository.js:15-16 | a key is in the exact entries exactly when some place owns it, and its last value is the last owner |
| PlaceProperties.ExactIndexLastWriterWins | components/PlaceRepository.js:15-16 | on a repeated key, the exact index holds the place inserted last |
| Places.PrefixEntriesFrom | components/PlaceRepository.js:19-22 | every prefix entry belongs to a prefix place and is one of its keys |
| PlaceProperties.PrefixEntriesKeys | components/PlaceRepository.js:19-22 | a key is a prefix key exactly when a prefix place owns it |
| PlaceProperties.PrefixIndexOnlyPrefixPlaces | components/PlaceRepository.js:19-22 | the prefix index holds only keys of places whose `isPrefix` is true |
| PlaceProperties.PrefixIndexKeys | components/PlaceRepository.js:19-22 | the prefix index's keys are exactly the keys of prefix places |
| PlaceProperties.ResolveExactKey | components/PlaceRepository.js:40-43 | an input whose lower-cased form is an exact key gives that key's place, and the prefix index is not consulted |
| PlaceProperties.ResolveOwnKey | components/PlaceRepository.js:11-16 | if no other place shares the key, a place's name or alias, in any letter case, finds that place |
| PlaceProperties.NonPrefixPlaceOnlyByExactKey | components/PlaceRepository.js:19-22 | a place that is not a prefix place is returned only on an exact key |
| PlaceProperties.ResolveEarliestPrefix | components/PlaceRepository.js:47-51 | with no exact key, the result is the place of the earliest-inserted prefix key that begins the input |
| PlaceProperties.EarliestPrefixPosition | components/PlaceRepository.js:47-51 | the prefix scan stops at the matching key whose first insertion came earliest |
| PlaceProperties.ResolveNoneIff | components/PlaceRepository.js:53 | null exactly when the input is no exact key and no prefix key begins it |
| PlaceProperties.EmptyPrefixKeyMatchesEverything | components/PlaceRepository.js:47-48 | a prefix place with an empty alias makes every lookup succeed |
| PlaceProperties.ResolveIgnoresCase | components/PlaceRepository.js:37 | `findPlace(s)` equals `findPlace(s.toLowerCase())` |
| PlaceExamples.FindsAliasIgnoringCase | components/PlaceRepository.test.js:55-65 | on the test dataset, an alias in capitals finds its place |
| PlaceExamples.NoPrefixMatchForPlainPlace | components/PlaceRepository.test.js:90-93 | on the test dataset, "Mensa-Extra" finds nothing because Mensa is not a prefix place |
| PlaceExamples.FindsByPrefix | components/PlaceRepository.test.js:73-77 | on the test dataset, "c5-xyz" finds C5 |
| PlaceExamples.FindsByAliasPrefix | components/PlaceRepository.test.js:95-99 | on the test dataset, "TH1-abc" finds Turnhalle 1 through its alias |
| PlaceExamples.FixtureOwnerless | components/PlaceRepository.test.js:2-31 | a key that is none of the six names and aliases of the test dataset belongs to no place |
| PlaceExamples.PrefixKeyWins | components/PlaceRepository.test.js:73-99 | on the test dataset, "c5-xyz" and "TH1-abc" are answered by the value last stored under "c5" and "th1" |
| PlaceExamples.FixtureLastPrefixValues | components/PlaceRepository.test.js:2-31 | on the test dataset, the prefix index stores C5 under "c5" and Turnhalle 1 under "th1" |
| PlaceExamples.FixturePrefixEntries | components/PlaceRepository.test.js:2-31 | on the test dataset, the prefix index receives "c5", "turnhalle 1" and "th1", in that order |
| Server.ConfigFrom | api/index.js:12-23 | each credential is the value of its environment variable (unset reads as empty); the configuration is complete exactly when every required variable is set and non-empty; `DEBUG` is on exactly when the variable is the text "true" |
| Server.LoadConfig | api/index.js:26-41 | start-up succeeds exactly when every required variable is set and non-empty; otherwise the error names the first missing one |
| Server.SendFfAgentRequest | api/index.js:73-135 | a wrong key gets 401 with nothing signed or sent; otherwise the message is the endpoint's tokens followed by the body with no separator, the body sent is exactly the string signed, the headers are the tokens then Content-Type and `hmac`, `hmac` is the HMAC of the message under the API key, and ok/not-ok/thrown map to 200/that status/500 |
| Server.AddSignatureHeaders | api/index.js:111-112 | on token headers without either name, the content type and then the signature are appended after the tokens |
| Server.TokenHeaderNames | api/index.js:111-112 | Content-Type and `hmac` are new headers, so they are added after the tokens and not over one of them |
| Server.SignedHeadersRead | api/index.js:98-112 | every header name occurs once, and each header reads back its token, the content type or the signature |
| Server.SignedMessageDeterminesBody | api/index.js:96-104 | for a fixed endpoint and configuration, the signed message determines the body |
| Server.WidgetRequest | api/index.js:147-158 | a POST to the widget base URL followed by the endpoint's name and `?displayToken=` with the display token; the body is the endpoint's serialised options; the headers are the JSON accept list, the UTF-8 JSON content type and the organisation-token cookie, in that order |
| Server.WidgetUrlsDistinct | api/index.js:149 | two different widget endpoints are asked at different URLs |
| Server.FetchWidgetData | api/index.js:147-165 | succeeds exactly when the widget service answers ok, with its data; a non-ok answer is an error |
| Server.GetPeople | api/index.js:181-189 | asks for the incident state first, then for the team status when no truthy `error` is present, else for availability; a failed first query ends the fetch |
| Server.CallActive | api/index.js:184 | null data, an object without `error` and a falsy `error` count as an active call; a non-empty error text does not |
| Server.PeopleRoute | api/index.js:231-242 | a wrong key gets 403 before any query; a failed query gets 500 with the error object; with the right key and a successful query, 200 with the JSON of exactly what `getPeople` returned |
| Server.CallRoute | api/index.js:244-255 | a wrong key gets 403 before any query; a failed query gets 500 with the error object; with the right key and a successful query, 200 with the JSON of exactly the incident data the widget service returned |
| Server.PasswordCheck | api/index.js:222-229 | the redirect carrying the key is returned exactly when `psw` strictly equals the password; otherwise 403 |
| ApiService.JsonPost | components/ApiService.js:19-23 | a POST to the keyed URL with the JSON content type and the serialised payload as body |
| ApiService.TriggerAlarm | components/ApiService.js:17-24 | the alarm object, serialised unchanged, to `/triggerAlarm?securitykey=<key>` |
| ApiService.BackupPayload | components/ApiService.js:33 | the backup object has the alarm object's keys, with `keyword` added at the end when it was absent |
| ApiService.TriggerBackupAlarm | components/ApiService.js:32-40 | the backup object, serialised, to the same URL as the primary |
| ApiService.SendPushMessage | components/ApiService.js:48-55 | the push payload, serialised unchanged, to `/pushMessage?securitykey=<key>` |
| ApiService.FetchFFAgentData | components/ApiService.js:62-76 | yields the `/call` and `/people` results paired, exactly when both arrive; any failure is passed on |
| ApiService.BackupPayloadFields | components/ApiService.js:33 | the backup object has keyword "TEST" and every other property unchanged |
| ApiService.BackupPayloadIdempotent | components/ApiService.js:33 | applying the backup transform twice equals applying it once |
| ApiService.BackupSharesTarget | components/ApiService.js:19-23 | primary and backup share URL, method and headers; only the body differs, and not at all when the keyword already is "TEST" |
| ApiService.ReadJson | components/ApiService.js:66-67 | `r.json()` succeeds exactly on the JSON replies of `/call` and `/people`, and yields the value the server sent |
| ApiService.FetchNeedsKey | components/ApiService.js:65-70 | end to end, the browser gets data exactly when the key the server reads back from the query is its own; it then gets the incident data and the roster the server fetched, or the server's error object for a failed query |
| Client.AlarmData | components/index.js:145-154 | the alarm object has the properties object, type, keyword, message, details, lat and lng, in that order |
| Client.FullDetails | components/index.js:143-144 | with details `d` and place description `p`: `d`, the two-bar separator and `p` when both are present, `p` when `d` is empty, `d` when `p` is missing or empty |
| Client.Keyword | components/index.js:148 | "TEST" in debug mode whatever the leader switch says; otherwise "FR", with " + K" exactly when the leader switch is on |
| Client.AlarmObject | components/index.js:146 | the selected place's name, unless no place is selected or it has `asPrefix`, when it is the typed text |
| Client.AlarmDataRead | components/index.js:144-152 | the keys are distinct; `object` is the place name unless no place is selected or the place has `asPrefix`, in which case it is the typed text; `type` and `message` are the typed alarm type and description; keyword and details read back; lat and lng are the place's coordinates, null when it has none or no place is selected |
| Client.SubmitEnabled | components/index.js:133-135 | the form allows an alarm exactly when the place text is not blank or the place has a latitude other than 0 |
| Client.FilterPlaces | components/index.js:67-70 | a blank filter lists every place; otherwise the places whose lower-cased name contains the lower-cased filter |
| Client.Matching | components/index.js:69 | every place of the result matches and comes from the dataset, and every matching place of the dataset is in the result |
| Client.MatchingIsSubsequence | components/index.js:69 | the filtered list is taken from the dataset at strictly increasing positions that include every matching position, so it is exactly the matching places, in order, each as often as the dataset holds it |
| Client.MatchingStep | components/index.js:69 | the positions of the matches of all but the last place extend to positions of the matches of the whole dataset |
| Client.CoversSnoc | components/index.js:69 | the positions covering the matches of all but the last place, plus the last position when it matches, cover every match |
| Client.EmbeddingSnoc | components/index.js:69 | keeping the last place extends the embedding by its position |
| Client.EmbeddingWiden | components/index.js:69 | an embedding into all but the last place is one into the whole dataset |
| Client.Spread | components/index.js:281-285 | spreading an array gives its items |
| Client.ShowList | components/index.js:290-295 | the list is shown exactly when every person's item can be created, and is left emptied otherwise |
| Client.NormalizeRoster | components/index.js:265-296 | null, or a value with keys whose `persons` is missing or neither array nor object, leaves the list emptied; a value with no own keys shows the placeholder; a `persons` object without `absent`, or with a group that is neither array nor string, leaves it emptied; with an `absent` group the list is available, then absent, then unavailable, each in its own order; an array roster is used as is; either list is shown only when every person's item can be created, and is otherwise left emptied; every listed person has a badge |
| Client.NullPersonClearsList | components/index.js:286-309 | a roster `[null]` is assigned to `persons`, but creating the null person's item throws, so the list stays emptied |
| Client.Renderable | components/index.js:298-330 | `createPersonItem` completes exactly for a person that is not null and whose `skills` are missing, null, or an array without null entries; such a person has a badge |
| Client.AssignedPersons | components/index.js:280-288 | a listed roster is exactly what `persons` holds; an array roster is assigned as it is, an object roster without `absent` too; with `absent` the three groups are assigned concatenated, or nothing when one cannot be spread; no keys, or a missing or non-container `persons`, assigns nothing; whatever is assigned is an array or an object |
| Client.Classify | components/index.js:303-312 | null throws; otherwise the icon is non-empty exactly for the three known statuses, which map through the table; any other status gets no icon, and `available === false` gives rejected, `available === true` with a date that is not null gives requested, and all else gives accepted |
| Page.AlarmFlow | components/index.js:158-181 | a backup is sent exactly after a not-ok primary, never after a thrown error, and it carries the alarm object with keyword "TEST"; the page resets exactly when the primary went through or the backup's success alert is shown; a not-ok backup adds no alert |
| Page.AlarmPage.constructor | components/index.js:54-139 | the page starts with no place, an empty form, the roster panel as the page's markup has it, `persons` undefined, no overlay, no timer and nothing sent, and the initial `checkForm` disables the alarm button |
| Page.AlarmPage.CheckForm | components/index.js:133-135 | the button is disabled exactly when the form does not allow an alarm; nothing else changes |
| Page.AlarmPage.OnPlaceInput | components/index.js:115-137 | typing keeps the text and makes the resolved place the selection; the button then reflects the new text and place; nothing else changes |
| Page.AlarmPage.OnTypeInput | components/index.js:138 | typing into the type field keeps the text and re-evaluates the button on the unchanged place text and place |
| Page.AlarmPage.DropdownEntries | components/index.js:63-70 | while the map is shown the dropdown is left untouched; otherwise it lists the filtered dataset |
| Page.AlarmPage.SetPeopleList | components/index.js:265-296 | the panel shows the normalised roster; `persons` takes the value the code assigns, including when the code fails afterwards, and is otherwise kept; a listed roster is what `persons` holds |
| Page.AlarmPage.UpdateFFAgentData | components/index.js:256-263 | both reads go out; roster and `persons` change only when both replies arrived, and then as `setPeopleList` sets them |
| Page.AlarmPage.ResetUI | components/index.js:213-226 | the form is emptied, the selection dropped, the overlay hidden and the data refreshed, with roster and `persons` as after the refresh; the alarm button keeps its state |
| Page.AlarmPage.SendBackupAlarm | components/index.js:171-181 | an ok backup resets the page, refreshes roster and `persons` and confirms; a thrown error alerts; a not-ok backup changes nothing more |
| Page.AlarmPage.SendAlarm | components/index.js:141-169 | the alarm object assembled from the form and the selection is sent; the requests, alerts and reset follow the outcomes as `AlarmFlow` states; after a reset roster and `persons` are as after the refresh; without a reset the overlay stays shown and roster and `persons` are unchanged |
| Page.AlarmPage.Dispatch | components/index.js:158-168 | the primary goes out; ok resets; not-ok alerts and hands over to the backup; a thrown error only alerts; after a reset roster and `persons` are as after the refresh, and otherwise unchanged |
| Page.AlarmPage.StartInterval | components/index.js:240-245 | with a timer armed, nothing happens; otherwise one immediate refresh, with roster and `persons` as after it, then the timer is armed |
| Page.AlarmPage.StopInterval | components/index.js:247-250 | afterwards no timer is armed, whether one was armed before or not |

## Left out

- components/MapService.js is not part of this model. Its state lives in Leaflet objects. The map-selection callback (components/index.js:32-46) is left out with it. A place picked on the map by hand would be a place with no aliases, no prefix flags and no description.
  Whether the map is on screen (the `display` style of the map element) is therefore a parameter of `Page.AlarmPage.DropdownEntries`.
- esbuild.config.js is not part of this model. It is bundler configuration.
- The PKCS#12 certificate, TLS and the `https.Agent` (api/index.js:46-61) are left out. They are foreign cryptography and I/O.
- The internals of HMAC-SHA-256 and `JSON.stringify` are left out. They are the opaque fields of `Primitives`.
- The JSON parse that the server applies to request bodies is left out.
- Express wiring, static files and the `/` route (api/index.js:137-143, 191-220) are left out.
- The failure to load `node-fetch` is left out. `SendFfAgentRequest` maps only the outcome of the fetch itself to 500.
- DOM rendering is left out: element creation, chips, `setAlarmInfo`, icons and headline markup beyond the headline text.
- Page.AlarmPage.UpdateFFAgentData assumes that `setAlarmInfo` completes. If it threw, the roster would not be updated.
- `handleSendPushMessage` and `resetPush` are left out. Only the push request (`ApiService.SendPushMessage`) is modelled.
- Timing is left out: the 10-second cadence of the timer, `Promise.all` parallelism and async interleaving. The timer is modelled only as present or absent.
- Page.AlarmPage.SendAlarm takes the outcomes of the primary and the backup as inputs. It does not model their timing.
- Text.Lower: lower-cases only ASCII, Latin-1 and basic Cyrillic capitals. Greek (whose final sigma depends on context), U+0130 and other characters whose lower case changes the length, and all other scripts are kept unchanged, because full Unicode `toLowerCase` is outside the model.
- Json.Truthy: numbers are never NaN, so NaN's falsiness is not modelled.
- Client.Classify: looks up the status table only for string statuses. A status that names a prototype property of a plain object (for example "constructor"), and a non-string status that JavaScript converts to one of the table's keys, are not modelled.
- Client.Spread: treats every value other than an array or a string as throwing. It does not model other iterables, which JSON cannot produce.
- ApiService.BackupPayload: is defined on the alarm object's properties, the only kind of value its caller passes. Spreading a non-object is not modelled.
- ApiService.ReadJson: treats every text reply of `/call` and `/people` as unparsable. The only text reply those routes send is "Forbidden".
- A `securitykey` query parameter given more than once (an array in Express) is not modelled. The key is a single optional string.
- `debugLog` and console logging are left out.
- Client.Matching: its own contract states membership in both directions only; the order and the multiplicity of the result are stated by `Client.MatchingIsSubsequence`.
- ApiService.FetchNeedsKey: the browser writes the key into the query string without encoding it, and the server reads back what query parsing makes of it. That parsing (`+`, `&`, `#` and `%XX` escapes) is the `decode` parameter of `ApiService.ServerReads`; it is not modelled concretely.
- Page.AlarmPage.OnPlaceInput: the map side effects of the place listener (marker selection and reset, icons) are left out with components/MapService.js.
