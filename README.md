# Sweepstakes front end — a verified model

This project models the logic of a React front end for running sweepstakes
on AO, a decentralised compute network. A creator connects a browser wallet,
types a list of entrants, registers the sweepstakes (paying for it), pulls
winners and reads back the pull history. An admin page can bulk-delete
sweepstakes. Every remote operation goes through an SDK whose code is not
part of this model. Each call into the SDK or into the browser wallet is a
parameter of the method that makes it. The parameter holds what the call
resolved to, or that it threw and with which message (`Js.Reply`).

The modules follow the source files:

- `EntrantsParser` (EntrantsForm.tsx): the entrants text parser. The text is
  split into lines, and a line holding a comma is split on commas. Every piece
  is trimmed, blank pieces are dropped, and a `Set` keeps the first occurrence
  of each name. `ParseInput` is the imperative loop. It is proved equal to the
  function `Parse`, and the properties are proved about `Parse`: shape of the
  names, no duplicates, first-occurrence order, blank input, the round trip
  through the form's `join('\n')` re-display, and idempotence.
- `SweepstakesContext` (SweepstakesContext.tsx): the session provider as a
  class. `Snapshot()` gathers all of its state as one value. Each method's
  contract gives the whole new state on every path: each guard failure,
  resolved-truthy, resolved-falsy and thrown. A ghost log of SDK calls shows
  which paths make no remote call. `Valid()` says two things: only a session
  with a client is paid, and the selected id is the id of the stored record.
  Every method preserves it.
- `WalletContext` (WalletContext.tsx): the three-field wallet state machine.
- `SweepstakesAdmin` (SweepstakesAdmin.tsx): selection toggling, field
  defaults and description truncation, and the cache-fill loop (proved
  against the function `Filled`). It also holds the delete loop's counting,
  proved against `SuccessCount`, and the admin page state as a class.
- `PullsHistory` (PullsHistory.tsx): the case-tolerant property reader
  (a loop proved against `Lookup`), the non-array guard, pull numbering and
  list keys.
- `CreatorProfile` and `Header`: the address shortening, avatar URL, display
  name and wallet-button expressions.
- `Js` and `JsString`: JavaScript values and the string methods the code
  relies on (`trim`, `split`, `join`, `slice`, `startsWith`, case conversion,
  number rendering), with their own lemmas.

The parser in EntrantsForm.tsx splits only on newlines and commas, and
de-duplicates (line 48). `EntrantsParser.CommaFreeLine` shows that a line with a semicolon
but no comma stays one entrant. `EntrantsParser.RepeatedNameKeptOnce` shows
that in the text a, b, a the repeated name is kept once.

## Model

| member | source | states |
|---|---|---|
| Js.ErrorText | src/context/SweepstakesContext.tsx:135 | A thrown `Error`'s message is stored; anything else thrown stores the method's fallback text. |
| JsString.TrimProperties | src/components/Sweepstakes/EntrantsForm/EntrantsForm.tsx:35-36 | `trim` returns a string with no whitespace at either end, made only of the input's characters, and empty exactly when the input is all whitespace. |
| JsString.TrimIdempotent | src/components/Sweepstakes/EntrantsForm/EntrantsForm.tsx:40 | Trimming twice is trimming once. |
| JsString.Split | src/components/Sweepstakes/EntrantsForm/EntrantsForm.tsx:25 | `split` on one character gives at least one piece, no piece holds the separator, and joining the pieces with it gives back the input. |
| JsString.SplitJoin | src/components/Sweepstakes/EntrantsForm/EntrantsForm.tsx:17-25 | Splitting the join of a non-empty list of parts gives back the parts when no part holds the separator. The empty list is excluded because its join "" splits to [""]. The form guards that case at line 16. |
| JsString.SliceFront | src/components/Header/Header.tsx:41 | `slice(0, n)` is a prefix of length min(n, length). |
| JsString.SliceBack | src/components/Header/Header.tsx:41 | `slice(-n)` for n > 0 is a suffix of length min(n, length). |
| JsString.DecimalString | src/components/Sweepstakes/SweepstakesAdmin.tsx:146 | A count renders as a non-empty run of decimal digits with no leading zero, and the digits denote the count. |
| EntrantsParser.ParseInput | src/components/Sweepstakes/EntrantsForm/EntrantsForm.tsx:23-49 | The loop over lines and the `Set` pass return exactly `Parse(text)`. |
| EntrantsParser.PushLine | src/components/Sweepstakes/EntrantsForm/EntrantsForm.tsx:30-45 | One line pushes its trimmed non-blank comma pieces, or its own trim when it has no comma and is not blank. |
| EntrantsParser.DistinctInOrder | src/components/Sweepstakes/EntrantsForm/EntrantsForm.tsx:48 | The `Set` pass returns the first occurrence of each name, in order. |
| EntrantsParser.DedupElements | src/components/Sweepstakes/EntrantsForm/EntrantsForm.tsx:48 | The `Set` pass keeps exactly the input's elements, each once. |
| EntrantsParser.DedupFirstOccurrenceOrder | src/components/Sweepstakes/EntrantsForm/EntrantsForm.tsx:48 | The survivors are ordered by where each first occurs in the input. |
| EntrantsParser.DedupOfDistinct | src/components/Sweepstakes/EntrantsForm/EntrantsForm.tsx:48 | A list without duplicates passes the `Set` unchanged. |
| EntrantsParser.ParseYieldsEntrants | src/components/Sweepstakes/EntrantsForm/EntrantsForm.tsx:25-43 | Every returned entrant is non-empty, its own trim, and holds no comma or newline. |
| EntrantsParser.ParseKeepsFirstOccurrences | src/components/Sweepstakes/EntrantsForm/EntrantsForm.tsx:30-48 | The result has no duplicates and holds exactly the names the lines contribute. Each name sits at its first occurrence, in line order and then left to right. |
| EntrantsParser.CommaFreeLine | src/components/Sweepstakes/EntrantsForm/EntrantsForm.tsx:39-43 | A one-line text without a comma yields its trim, internal spaces and semicolons kept, or nothing when blank. |
| EntrantsParser.BlankText | src/components/Sweepstakes/EntrantsForm/EntrantsForm.tsx:25-48 | Text made only of whitespace, commas and newlines, empty text included, yields no entrants. |
| EntrantsParser.RoundTrip | src/components/Sweepstakes/EntrantsForm/EntrantsForm.tsx:17-49 | Parsing the newline-join of distinct entrant names gives back the same list, which is how the form re-displays entrants. |
| EntrantsParser.RepeatedNameKeptOnce | src/components/Sweepstakes/EntrantsForm/EntrantsForm.tsx:48 | For any two distinct entrant names a and b, the text "a\nb\na" parses to [a, b]. The general first-occurrence rule is `EntrantsParser.ParseKeepsFirstOccurrences`. |
| EntrantsParser.ParseIdempotent | src/components/Sweepstakes/EntrantsForm/EntrantsForm.tsx:17-49 | Parsing the re-displayed result of a parse gives back that result. |
| WalletContext.WalletProvider.constructor | src/context/WalletContext.tsx:33-35 | A new provider has no address and is neither connected nor connecting. |
| WalletContext.WalletProvider.AdoptActiveAddress | src/context/WalletContext.tsx:40-46 | A non-empty active address from a present wallet is adopted and marks the session connected. Otherwise nothing changes. |
| WalletContext.WalletProvider.CheckConnection | src/context/WalletContext.tsx:39-51 | The mount check connects only on a non-empty active address. A missing wallet, a throw or an empty address change nothing. |
| WalletContext.WalletProvider.HandleWalletLoaded | src/context/WalletContext.tsx:79-91 | The wallet-loaded handler behaves like the mount check. |
| WalletContext.WalletProvider.HandleWalletSwitch | src/context/WalletContext.tsx:71-77 | A switch event sets only the address, to what the event carries. A missing detail changes nothing. The connected flag is never touched. |
| WalletContext.WalletProvider.BeginConnect | src/context/WalletContext.tsx:93-99 | Without the wallet `connect` changes nothing. With it, the session is marked connecting. |
| WalletContext.WalletProvider.FinishConnect | src/context/WalletContext.tsx:100-108 | A resolved address is adopted and connects, a throw leaves both fields alone, and connecting ends false either way. |
| WalletContext.WalletProvider.Connect | src/context/WalletContext.tsx:93-109 | No wallet: no change. Otherwise connecting ends false, success sets the address and connects, and failure keeps address and connection. |
| WalletContext.WalletProvider.Disconnect | src/context/WalletContext.tsx:111-114 | The address becomes null and the session disconnected. |
| SweepstakesContext.Provider.constructor | src/context/SweepstakesContext.tsx:86-99 | The initial hook values. |
| SweepstakesContext.Provider.InitClient | src/context/SweepstakesContext.tsx:103-138 | No connected wallet or no address: reset client, paid flag, user id, pulls, entrants and error. Otherwise a client and the user id are set and the listing loaded, or a throw sets the error. Loading ends false. |
| SweepstakesContext.Provider.LoadAllSweepstakes | src/context/SweepstakesContext.tsx:160-171 | With a client and a user id the fixed listing is loaded and loading ends false. Otherwise nothing changes. |
| SweepstakesContext.Provider.CheckOwnershipStatus | src/context/SweepstakesContext.tsx:218-230 | The session owns the sweepstakes iff the owners call resolves to an array holding the user id. A throw gives false. |
| SweepstakesContext.Provider.LoadSweepstakesEntrants | src/context/SweepstakesContext.tsx:232-244 | Entrants become the array the SDK returns, and [] for anything else or a throw. |
| SweepstakesContext.Provider.LoadSweepstakesPulls | src/context/SweepstakesContext.tsx:246-258 | Pulls become the reply's pulls, and [] otherwise. |
| SweepstakesContext.Provider.Select | src/context/SweepstakesContext.tsx:185-203 | The paid flag becomes the ownership answer. The fixed record for the id is stored, selected and unlocked. |
| SweepstakesContext.Provider.GetSweepstakesById | src/context/SweepstakesContext.tsx:173-216 | Without a client: error, no call, false. Otherwise ownership, selection, entrants and pulls are loaded in that order, loading ends false, and the result is true. |
| SweepstakesContext.Provider.RegisterSweepstakes | src/context/SweepstakesContext.tsx:261-307 | Client first, then non-empty entrants, each failure with its own error and no SDK call. A truthy answer returns an "sw-" id, selects it and marks the session paid. A falsy answer or a throw returns null with an error. Loading ends false. |
| SweepstakesContext.Provider.UpdateEntrants | src/context/SweepstakesContext.tsx:309-348 | Client, then selection, then a non-empty list, the list falling back to the context's entrants. A given list becomes the entrants whenever the call resolves. A throw keeps them and sets an error. |
| SweepstakesContext.Provider.AddEntrant | src/context/SweepstakesContext.tsx:350-381 | A blank-after-trim name is refused. Entrants grow by the trimmed name only on a truthy answer and are otherwise unchanged. |
| SweepstakesContext.Provider.PullWinner | src/context/SweepstakesContext.tsx:383-412 | Refused without client and selection, then without payment. A truthy answer reloads the pulls. A throw sets an error. Loading ends false. |
| SweepstakesContext.Provider.RefreshPulls | src/context/SweepstakesContext.tsx:414-425 | With client and selection the pulls are reloaded and loading ends false. Otherwise nothing changes. |
| SweepstakesContext.Provider.LoadEntrants | src/context/SweepstakesContext.tsx:427-438 | With client and selection the entrants are reloaded and loading ends false. Otherwise nothing changes. |
| SweepstakesContext.DisconnectWallet | src/context/SweepstakesContext.tsx:102-141 | A wallet disconnect followed by the provider's effect resets the session and makes no SDK call. |
| SweepstakesAdmin.Remove | src/components/Sweepstakes/SweepstakesAdmin.tsx:115 | The filtered list holds no copy of the id and every other element of the list. |
| SweepstakesAdmin.RemoveCounts | src/components/Sweepstakes/SweepstakesAdmin.tsx:115 | Filtering keeps every other id as many times as before. |
| SweepstakesAdmin.RemoveNoDuplicates | src/components/Sweepstakes/SweepstakesAdmin.tsx:115 | Filtering a duplicate-free list leaves it duplicate-free. |
| SweepstakesAdmin.Toggle | src/components/Sweepstakes/SweepstakesAdmin.tsx:113-117 | Toggling flips whether the id is selected and no other id's membership. |
| SweepstakesAdmin.ToggleKeepsOthersInOrder | src/components/Sweepstakes/SweepstakesAdmin.tsx:113-117 | Apart from the toggled id, the selection is the same sequence as before. |
| SweepstakesAdmin.ToggleNoDuplicates | src/components/Sweepstakes/SweepstakesAdmin.tsx:113-117 | Toggling preserves having no duplicates. |
| SweepstakesAdmin.ToggleTwice | src/components/Sweepstakes/SweepstakesAdmin.tsx:113-117 | Toggling an absent id twice restores the selection. |
| SweepstakesAdmin.OrDefault | src/components/Sweepstakes/SweepstakesAdmin.tsx:61-63 | A missing or blank field takes the default. Otherwise the field's trim is used, which is non-empty and trimmed. |
| SweepstakesAdmin.Truncate | src/components/Sweepstakes/SweepstakesAdmin.tsx:83 | Over 100 characters: the first 97 plus "...", exactly 100. Otherwise unchanged, so never over 100. |
| SweepstakesAdmin.EntryFor | src/components/Sweepstakes/SweepstakesAdmin.tsx:47-103 | A throw caches the error entry. Missing or unparsable details cache the defaults. Parsed details cache the defaulted, trimmed and truncated fields. Every entry is loaded and valid. |
| SweepstakesAdmin.FilledKeepsLoaded | src/components/Sweepstakes/SweepstakesAdmin.tsx:44 | An entry already loaded when the loop starts is skipped and stays as it was. |
| SweepstakesAdmin.FilledLoadsListed | src/components/Sweepstakes/SweepstakesAdmin.tsx:79-103 | Every listed id ends cached and loaded, whether its fetch resolved or threw. |
| SweepstakesAdmin.FilledKeys | src/components/Sweepstakes/SweepstakesAdmin.tsx:79-103 | The fill adds exactly the listed ids to the cache's keys. |
| SweepstakesAdmin.FilledEntries | src/components/Sweepstakes/SweepstakesAdmin.tsx:79-103 | Every entry is an old one or a freshly loaded one with a description of at most 100 characters. |
| SweepstakesAdmin.FilledKeepsDescriptionsShort | src/components/Sweepstakes/SweepstakesAdmin.tsx:83 | A cache whose descriptions are at most 100 characters stays so. |
| SweepstakesAdmin.SuccessCount | src/components/Sweepstakes/SweepstakesAdmin.tsx:134-143 | The success count is at most the number of ids, zero iff every deletion threw, and full iff none did. |
| SweepstakesAdmin.CountDeletions | src/components/Sweepstakes/SweepstakesAdmin.tsx:131-143 | The loop's successes are the resolved deletions, and successes plus failures equal the number of selected ids. |
| SweepstakesAdmin.AdminPage.constructor | src/components/Sweepstakes/SweepstakesAdmin.tsx:16-29 | The page starts with nothing selected, not deleting, no messages and an empty cache. |
| SweepstakesAdmin.AdminPage.ToggleSelection | src/components/Sweepstakes/SweepstakesAdmin.tsx:112-118 | The selection becomes its toggle and stays duplicate-free. Nothing else changes. |
| SweepstakesAdmin.AdminPage.LoadSweepstakesDetails | src/components/Sweepstakes/SweepstakesAdmin.tsx:38-106 | Without a client nothing changes. Otherwise the cache becomes `Filled` of the old cache, and its descriptions stay at most 100 characters. |
| SweepstakesAdmin.AdminPage.HandleDeleteSelected | src/components/Sweepstakes/SweepstakesAdmin.tsx:121-159 | Without a client or a selection nothing changes. Otherwise any success is reported, clears the selection and requests a reload, any failure is reported as the error, and deleting ends false. |
| PullsHistory.FirstPresentIndex | src/components/Sweepstakes/PullsHistory/PullsHistory.tsx:17-21 | The index found is that of the first candidate key the object has, or past the end when it has none. |
| PullsHistory.Lookup | src/components/Sweepstakes/PullsHistory/PullsHistory.tsx:6-24 | A missing object gives the fallback, and so does one with no candidate key. Otherwise the value under the first present candidate is returned: exact, lowercase, UPPERCASE, first-upper, then first-lower. |
| PullsHistory.GetProperty | src/components/Sweepstakes/PullsHistory/PullsHistory.tsx:6-24 | The early-return loop returns exactly `Lookup`, with 'Unknown' as the default fallback. |
| PullsHistory.PascalCaseFallback | src/components/Sweepstakes/PullsHistory/PullsHistory.tsx:13 | A record with only "PullId" is read by the key "pullId". |
| PullsHistory.Rows | src/components/Sweepstakes/PullsHistory/PullsHistory.tsx:40-67 | A non-array gives no rows. Rows are numbered from the length down to 1, strictly decreasing. Each row's pull id, timestamp, winner and entrants count are what `getProperty` reads from the pull at that index. An item is keyed by its index exactly when its pull id is 'Unknown', and by the id otherwise. |
| PullsHistory.PullNumbersCoverOneToLength | src/components/Sweepstakes/PullsHistory/PullsHistory.tsx:67 | Every number from 1 to the length labels some row. |
| CreatorProfile.FormatAddress | src/components/Profile/CreatorProfile.tsx:73-77 | Empty gives 'Unknown' and 12 characters or fewer come back unchanged. Longer addresses become the first 6 characters, "..." and the last 4, exactly 13. Never empty, never longer than a non-empty input. |
| CreatorProfile.ProfileImageUrl | src/components/Profile/CreatorProfile.tsx:80-89 | A missing id gives the default avatar and an "http" id is kept. Anything else goes on the Arweave gateway, so every result is the default or an "http" URL. |
| CreatorProfile.ProfileImageUrlIdempotent | src/components/Profile/CreatorProfile.tsx:83-88 | Resolving an already resolved URL other than the default changes nothing. |
| CreatorProfile.DisplayName | src/components/Profile/CreatorProfile.tsx:70 | The name if truthy, else the handle if truthy, else the formatted address. Never empty. |
| Header.FormatAddress | src/components/Header/Header.tsx:39-42 | Missing or empty gives "". Otherwise the first min(4, n) characters, "..." and the last min(4, n): 11 characters from length 4 on. |
| Header.ButtonLabel | src/components/Header/Header.tsx:81-83 | 'Connecting...' while connecting, else the formatted address when connected, else 'Connect Wallet'. The label is empty exactly when the session is connected with no address. |
| Header.ClickHandlerFor | src/components/Header/Header.tsx:78 | A click runs the disconnect handler iff the session is connected. |

## Left out

- The sweepstakes SDK, the wallet extension and the profile service are not part of this model. Their calls are parameters holding what each resolved to or that it threw.
- The SDK call log records which operation was called, not its arguments beyond the entrants list. The target id `currentSweepstakesId || userId` is a render-time value.
- Asynchrony and React are not modelled: each method runs to completion with nothing interleaved, and state setters take effect at once. Stale closures and effect scheduling are out too. One exception is kept because it is the plain sequential meaning of the loop: the admin cache loop decides what to skip on the cache as it was when the loop started.
- SweepstakesContext.Provider.GetSweepstakesById: its catch branch, with the message "Failed to load sweepstakes with ID", is not modelled. Every call inside the try catches its own errors, so the branch cannot be reached.
- SweepstakesAdmin.AdminPage.HandleDeleteSelected: its outer catch at SweepstakesAdmin.tsx:154-155 is not modelled. Each deletion call has its own catch, so the branch cannot be reached.
- SweepstakesContext.Provider.LoadSweepstakesPulls: the provider holds `pulls` as an array of records. A truthy non-array `response.pulls` would be stored unchanged by the source, and that case is not modelled. The list's non-array guard (`PullsHistory.PullsArray`) is modelled on its own input type.
- SweepstakesContext.Provider.RegisterSweepstakes: the random id suffix is an arbitrary string parameter.
- SweepstakesContext.Provider.InitClient: only the wallet address is used as the user id, so the `getCallingWalletAddress` fallback is not modelled (the address is always present on that path). The explicit-config and auto-configured client factories are one parameter.
- The hard-coded listing and the fixed sweepstakes record are constants. No SDK listing is modelled.
- The plain state setters the provider exposes (entrant text, pull details, sweepstakes details) and `getCreatorProfile` are not modelled.
- JSON parsing is not modelled: details arrive as a parsed record with optional string fields, or as unparsable. SweepstakesAdmin.EntryFor: a non-string field makes `.trim()` throw after the earlier fields were assigned, and that case is not modelled.
- Date and locale formatting: the admin end date is a parameter, so the catch fallback at SweepstakesAdmin.tsx:69-71 is not modelled. The pull list's date column is not modelled.
- PullsHistory.Lookup: `key in obj` also finds properties inherited from `Object.prototype`. Only own properties are modelled. None of the keys the list reads is such a name.
- Property values in pull records are strings or integers only.
- JsString: lengths and indices count Unicode code points, not UTF-16 code units. Case conversion covers ASCII letters only.
- Rendering, routing, notifications, the 5-second message reset and the presentational components are not modelled. No pull-polling routine exists in these files, so none is modelled.
- `WalletContext` has no invariant tying `isConnected` to `address`. A switch event without an address leaves a connected session with no address, and `Header.ButtonLabel` shows the button label is then empty.
