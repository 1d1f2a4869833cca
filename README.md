# Pixelpulse kiosk and admin table: a Dafny model

This project models the two pieces of decision logic in the Pixelpulse arcade front end.

- **The kiosk game page** (`gameroomkiosk/pages/index.js`), module `Kiosk`. Players are admitted by tapping wristbands. When the guard sees the current player list, at most five players are admitted and no wristband id is admitted twice. The handler that the effect at lines 120-152 registers sees only the empty initial list, so it would admit every tap (see "## Findings"; as written, the return at line 52 keeps that effect from running). The module also covers the reaction to the game-status poll, the Start button's `disabled` value and label, the zero defaults for high scores, the default variant, and the precondition of the start action. The page's state is the class `Kiosk.Session`. Its methods are the state updates the page makes. The rules they follow are pure functions and lemmas.
- **The admin table component** (`admin/src/components/CustomTable.js`), module `CustomTable`. `Render` classifies a cell value in the source's order:
  1. a PNG data-URI prefix gives a signature link;
  2. text longer than 100 characters is truncated;
  3. text that contains a tag is rendered as markup;
  4. anything else is shown as it is.

  The module also covers the modal that shows a cell's full content (class `CustomTable.TableModal`) and the go-to-page index mapping.

Module `Js` models the JavaScript values the code tests: undefined, null, booleans, numbers, NaN, strings and objects. It also defines truthiness for them. Module `Options` holds `Option`.

## How the source is read

- **Two lists in one scan.** `fetchPlayerInfo` checks a scan against the `playersData` its closure captured. The append at line 174 works on `prevPlayers`, which is the list when the lookup answers. The model gives the guard its own list (`seen`) and appends to the session's current `players`. `Kiosk.ScansKeepAdmissible` proves the bound of five and the distinct ids when each guard sees the current list. `Kiosk.StaleGuardBreaksBound` exhibits lists for which different guard and append lists store a sixth player or a repeated id.
- **The registered handler's guard always reads `[]`.** `fetchPlayerInfo` is reached only through `window.receiveMessageFromWPF`. That handler is registered once, by an effect with an empty dependency list (lines 120-152). It therefore keeps the first render's `fetchPlayerInfo`, whose `playersData` is the initial `[]` (line 9). Every tap passes the guard at lines 156-163. `Kiosk.MountedScanAll` models scans through that handler.
- **Player rows.** A player row is a JSON object (`map<string, Value>`). `{...data, wristbandTranID}` is `Tag`: it copies every field of the summary and sets `wristbandTranID`, replacing any value of that field already in the summary.
- **Wristband ids** are assumed to be strings: lines 142-145 do not show the type of the `message` the WPF host passes. JavaScript `===` on strings is then Dafny `==`. Numeric ids would compare the same way under `===` (by value), except NaN, which equals nothing.
- **Shape of the game data.** At line 79 the page stores the whole game response as `gameData`. Lines 80-81 read that response as an array (`data[0].variants`). Lines 96 and 199 read `gameData` as a single record (`gameData.IpAddress`, `gameData.LocalPort`). The model takes `DefaultVariant` over the response as a sequence of records. It takes the poll guard and `StartAction` over one game record, given as a parameter.
- **The return at line 52.** The early `return` in `GameDetails` makes lines 67-328 unreachable. The functions after it are modelled as written. Nothing is claimed about whether they run.
- **Status and the enabled flag.** A non-"Running" status does not re-enable Start, even when players are admitted. The code only ever clears the flag on "Running" (lines 102-104) and never sets it on another status. The model follows the code. `Kiosk.RunningThenFinishedKeepsStartDisabled` shows the consequence: Start stays disabled after "Finished" until another wristband is admitted.
- **The markup test.** The markup test is the regular expression `/<\/?[a-z][\s\S]*>/i`. `TagTest` searches for it position by position. `LooksLikeMarkup` is its reference reading: some `<`, optionally `/`, an ASCII letter, and a later `>`. `TagTestCorrect` proves the two agree. Without the `u` flag, case-insensitive `[a-z]` matches only ASCII letters.

## Model

| member | source | states |
|---|---|---|
| `Js.OrZero` | gameroomkiosk/pages/index.js:131-133 | `v \|\| 0` keeps a truthy value and turns undefined, null, false, 0, NaN and "" into 0 |
| `Js.OrZeroSettles` | gameroomkiosk/pages/index.js:131-133 | defaulting twice changes nothing; a defaulted value is truthy or 0, never undefined/null/NaN/"" |
| `Kiosk.Tag` | gameroomkiosk/pages/index.js:174 | the stored row carries the scanned id under `wristbandTranID` and keeps every other field of the summary |
| `Kiosk.AnyTagged` | gameroomkiosk/pages/index.js:156 | the `some` test is true exactly when some row of the list carries the id |
| `Kiosk.Admit` | gameroomkiosk/pages/index.js:156-163 | a scan is refused as a duplicate iff its id is in the checked list; otherwise refused as full iff that list has 5 or more rows; otherwise admitted |
| `Kiosk.ScanList` | gameroomkiosk/pages/index.js:156-180 | a refused scan or a failed lookup leaves the current list unchanged; an admitted one appends exactly one tagged row at the end, earlier rows unchanged and in order |
| `Kiosk.DuplicateScanRejected` | gameroomkiosk/pages/index.js:156-159 | a scan whose id is in the checked list is refused and the list is unchanged |
| `Kiosk.FullListRejects` | gameroomkiosk/pages/index.js:160-163 | once the checked list has 5 rows every scan is refused and the list is unchanged |
| `Kiosk.ScanKeepsAdmissible` | gameroomkiosk/pages/index.js:156-179 | when guard and append see the same list, a scan keeps it at most 5 long with distinct ids |
| `Kiosk.ScansKeepAdmissible` | gameroomkiosk/pages/index.js:154-186 | any run of scans whose guards see the current list keeps at most 5 players with distinct ids |
| `Kiosk.ScansOnlyAppend` | gameroomkiosk/pages/index.js:173-179 | scans only append: the earlier list is a prefix of the later one, growing by at most one row per scan |
| `Kiosk.StaleGuardStillAppends` | gameroomkiosk/pages/index.js:156-174 | once the guard's list admits the id, the append happens whatever the current list holds |
| `Kiosk.StaleGuardBreaksBound` | gameroomkiosk/pages/index.js:156-174 | with different guard and append lists, a sixth player or a repeated id can be stored |
| `Kiosk.ScanAll` | gameroomkiosk/pages/index.js:154-180 | scans one after another with each guard reading the current list; `ScansKeepAdmissible` and `ScansOnlyAppend` state what it keeps |
| `Kiosk.MountedScanAll` | gameroomkiosk/pages/index.js:142-180 | scans through the handler registered on mount, whose guard always reads the initial empty list; `MountedHandlerStoresEveryTap` states that it refuses nothing |
| `Kiosk.MountedHandlerStoresEveryTap` | gameroomkiosk/pages/index.js:142-174 | through the handler registered on mount, whose guard reads the initial empty list, every tap whose lookup answers appends a row with its id, so nothing is refused |
| `Kiosk.MountedHandlerAdmitsRepeatAndSixth` | gameroomkiosk/pages/index.js:142-174 | through that handler two taps of "W1" store two rows with the same id, and six distinct taps store six players |
| `Kiosk.StartDisabled` | gameroomkiosk/pages/index.js:313 | the Start button's `disabled` expression: not enabled, no selected variant, or status "Running"; its properties are stated by `WaitLabelMeansDisabled`, `NoPlayerNoStart` and `Session.OnGameStatus` |
| `Kiosk.StartText` | gameroomkiosk/pages/index.js:315 | the Start button's label; `WaitLabelMeansDisabled` states when it is the wait message |
| `Kiosk.Reachable` | gameroomkiosk/pages/index.js:96 | the game record has a truthy IP address and port; shared by the poll guard and the start precondition (`StartableIsPollable`) |
| `Kiosk.PollsStatus` | gameroomkiosk/pages/index.js:94-96 | a status fetch happens once a card is scanned and the game is reachable; `NoPlayerNoStart` states that none happens before a player is admitted |
| `Kiosk.WaitLabelMeansDisabled` | gameroomkiosk/pages/index.js:313-315 | the label is the wait message iff the status is "Running", and then Start is disabled |
| `Kiosk.HighScoresOf` | gameroomkiosk/pages/index.js:130-134 | each shown score is the response's value when truthy and 0 when missing or falsy; the 360-day slot takes the all-time value |
| `Kiosk.EmptyScoresShowZero` | gameroomkiosk/pages/index.js:10-134 | a response without scores shows the initial zeros; no shown score is ever undefined, null, NaN or "" |
| `Kiosk.DefaultVariant` | gameroomkiosk/pages/index.js:80-82 | a first record with at least one variant selects its first variant; otherwise the selection stays |
| `Kiosk.DefaultVariantOffered` | gameroomkiosk/pages/index.js:80-82 | when the first record has a variant, the lookup selects a variant, and it is one of the first record's variants |
| `Kiosk.StartAction` | gameroomkiosk/pages/index.js:199-239 | a start request is sent iff variant, game code, game data, IP address and port are all present, with the variant's name, the game code, address and port as its arguments |
| `Kiosk.StartableIsPollable` | gameroomkiosk/pages/index.js:94-199 | a game the Start handler can start is reachable by the status poll once a card is scanned |
| `Kiosk.NoPlayerNoStart` | gameroomkiosk/pages/index.js:173-178 | while no player is admitted, Start is disabled and no status poll runs |
| `Kiosk.Session.constructor` | gameroomkiosk/pages/index.js:9-15 | the state on mount: no players, both flags down, empty status, no variant, zero scores, modal closed |
| `Kiosk.Session.AppendPlayer` | gameroomkiosk/pages/index.js:173-180 | appends the tagged row, raises start-enabled and card-scanned, changes nothing else |
| `Kiosk.Session.FetchPlayerInfo` | gameroomkiosk/pages/index.js:154-186 | the guard reads the given list; refusals and failed lookups change nothing; an admitted lookup appends to the current list and raises both flags; with guard list equal to the current list the bound and distinct ids are preserved |
| `Kiosk.Session.StartIsDisabled` | gameroomkiosk/pages/index.js:313 | the `disabled` expression on the session's state; `Session.OnGameStatus` and `RunningThenFinishedKeepsStartDisabled` state when it holds |
| `Kiosk.Session.OnGameStatus` | gameroomkiosk/pages/index.js:100-104 | the status is recorded; "Running" clears the enabled flag and disables Start; any other status leaves the flag unchanged |
| `Kiosk.Session.OnHighScores` | gameroomkiosk/pages/index.js:130-134 | the shown scores become the defaulted response |
| `Kiosk.Session.OnGameLoaded` | gameroomkiosk/pages/index.js:80-82 | the selected variant becomes the default variant of the response |
| `Kiosk.Session.SelectVariant` | gameroomkiosk/pages/index.js:188-191 | clicking a variant selects it and opens the instructions modal |
| `Kiosk.Session.CloseModal` | gameroomkiosk/pages/index.js:193-195 | closes the instructions modal |
| `Kiosk.RunningThenFinishedKeepsStartDisabled` | gameroomkiosk/pages/index.js:100-104 | after "Running" then "Finished", Start stays disabled although a player is admitted |
| `Kiosk.SameWristbandTwice` | gameroomkiosk/pages/index.js:156-179 | when the guard sees the current list, tapping one wristband twice admits one player and refuses the second tap as a duplicate |
| `CustomTable.TagTest` | admin/src/components/CustomTable.js:64 | the regular expression's test, searched position by position; `TagTestCorrect` states what it finds |
| `CustomTable.TagTestCorrect` | admin/src/components/CustomTable.js:64 | the regular expression's search finds a tag iff some `<`, optional `/`, ASCII letter and later `>` occur in the text |
| `CustomTable.Render` | admin/src/components/CustomTable.js:48-71 | signature iff a string with the image prefix; truncated to exactly its first 100 characters iff a non-image string over 100 long; markup iff a non-image string of at most 100 with a tag; otherwise the value unchanged |
| `CustomTable.SignatureFirst` | admin/src/components/CustomTable.js:49-53 | text with the image prefix is a signature whatever its length or tags |
| `CustomTable.LengthBeforeMarkup` | admin/src/components/CustomTable.js:55-66 | long non-image text containing tags is truncated, not rendered as markup |
| `CustomTable.LinkTarget` | admin/src/components/CustomTable.js:52-60 | the content the "View Signature" and "View More" links pass to `handleViewMore`; `LinkOpensMatchingModal` states it is the full cell text |
| `CustomTable.LinkOpensMatchingModal` | admin/src/components/CustomTable.js:158 | a cell's link opens the full content, and the modal shows an image iff the cell was a signature |
| `CustomTable.ModalFor` | admin/src/components/CustomTable.js:158 | the modal body for its content; `LinkOpensMatchingModal` and `TableModal.HandleViewMore` state when it is the image |
| `CustomTable.DisplayedPage` | admin/src/components/CustomTable.js:127-134 | the page number shown for an index; `GotoPageRoundTrip` states it inverts the go-to-page mapping |
| `CustomTable.GotoPageIndex` | admin/src/components/CustomTable.js:136 | an empty entry goes to index 0, page n to index n - 1 |
| `CustomTable.GotoPageRoundTrip` | admin/src/components/CustomTable.js:127-136 | the page number shown for the index an entry selects is the entered number; the first page shows as 1 |
| `CustomTable.PageSizeOptionsShape` | admin/src/components/CustomTable.js:37-146 | the initial page size 10 is the first offered size; the offered sizes are 10, 20, 30, 40, 50 |
| `CustomTable.TableModal.constructor` | admin/src/components/CustomTable.js:7-8 | the modal starts closed with empty content, which would render as HTML |
| `CustomTable.TableModal.Shows` | admin/src/components/CustomTable.js:158 | the modal body chosen from the stored content; `TableModal.HandleViewMore` states it is the image exactly for image-prefixed content |
| `CustomTable.TableModal.HandleViewMore` | admin/src/components/CustomTable.js:43-46 | the modal holds the given content and opens, showing an image iff the content has the image prefix |
| `CustomTable.TableModal.Close` | admin/src/components/CustomTable.js:162-168 | closing the modal keeps its content |

## Findings

| source | as written | input that shows it | evidently intended | confidence | as-written member | corrected member |
|---|---|---|---|---|---|---|
| gameroomkiosk/pages/index.js:142-163 | the WPF handler is registered once on mount, so its `fetchPlayerInfo` guard always reads the initial empty `playersData` and refuses nothing | two taps of wristband "W1" whose lookups answer (or six distinct taps) | the guard reads the current player list, so a repeated id and a sixth player are refused | not executed; the code after the return at line 52 is unreachable as written | `Kiosk.MountedScanAll` / `Kiosk.MountedHandlerStoresEveryTap` | `Kiosk.ScanAll` / `Kiosk.ScansKeepAdmissible` |

`Kiosk.MountedHandlerAdmitsRepeatAndSixth` gives the concrete inputs. The corrected behaviour is `Kiosk.ScanAll`, where each guard sees the current list. `Kiosk.Session.FetchPlayerInfo` preserves the bound when it is given the current list.

## Left out

- The WebSocket connection, `alert(1)` and the send-message button (index.js lines 21-63) are socket I/O whose messages are only logged.
- All `fetch` calls, URL construction with `encodeURIComponent`, JSON parsing, logging and `setError` are left out. A lookup's answer is a parameter, `None` when it failed. A failed lookup changes no modelled state.
- The 1-second `setInterval` of the status poll, its cleanup, and the unused `checkGameStatus` with its 10-second reload are timers and browser effects. `checkGameStatus` is never called. The poll's guard is the predicate `PollsStatus`.
- The global `window.receiveMessageFromWPF` registration and React's effect and stale-closure semantics are framework behaviour. Only their consequence is kept: the guard and the append may see different lists.
- The loading, error and no-data views, the JSX rendering, the CSS modules, `dangerouslySetInnerHTML` and `react-modal` are presentation.
- react-table's pagination and sorting are library behaviour that cannot be seen here. This includes what `gotoPage` and `setPageSize` do with an index or size, such as the index -1 that an entry of "0" produces. Only the index mapping, the initial state and the offered sizes are modelled.
- `CustomTable.GotoPageIndex` models the entered value as an integer or empty. Non-integer entries are left out.
- `CustomTable.Render` counts length in Dafny characters, which are Unicode scalar values. JavaScript's `length` and `substring` count UTF-16 code units, so the two differ on text outside the Basic Multilingual Plane.
- Numbers are reals with NaN kept separately. Floating-point rounding and the sign of zero are left out.
- `Kiosk.DefaultVariant` and `Kiosk.StartAction` take the game response and the game record as independent parameters. In the source they are one value (line 79). A response shaped as the array that lines 80-81 need has no `IpAddress` or `LocalPort`, which lines 96 and 199 read. So as written, no response both selects a default variant and lets Start send a request. The model does not capture this coupling.
- `rest/models/WristbandTran.js` is a column list and an association, with no behaviour to model.
