# Sonos Kids Controller: player control, in Dafny

This project models the player-control logic of the Sonos Kids Controller.
That app is a kiosk-style controller. A card reader types a card's digits and
Enter, and the app then tells a networked Sonos player, through
node-sonos-http-api, what to play. The model has three parts:

- **The player service** (`Player`, src/app/player.service.ts):
  - it resolves a media reference to a provider-specific command path;
  - it keeps saved play states in one stored map;
  - it memoises the device configuration;
  - it builds the request URL under the first room;
  - it chains commands: `clearqueue` → play, and for a restore play → `trackseek/n` → `timeseek/s`;
  - it saves in two phases: at once with track 1 / time 0, then refined from the state poll.
- **The player page** (`Pages`, src/app/player/player.page.ts): it picks what
  to play from the navigation state, restores or starts playback on enter,
  pauses on leave, toggles play/pause and forwards the transport buttons.
- **The key buffer** (`App`, src/app/app.component.ts): digits collect in
  `uuid`, any other key empties it, and Enter opens the player for the media
  found under the buffer. The buffer is emptied only on a match.

Two helper modules make the paths exact:

- `Uri` is `encodeURIComponent` of section 15.1.3.4 of ECMA-262 5.1, with full
  UTF-8, and its inverse `decodeURIComponent` (section 15.1.3.2).
- `Numbers` is the decimal rendering of an integral number and its parser.

The inverses are how the contracts read: a path "carries" an id when the id
decodes back out of the path.

HTTP is a log. `sent` lists every URL in the order it was issued. `pending`
holds the requests not yet answered, each with the continuation (`Then`) the
source passes as `onComplete`:

- `Complete(i, answer)` is the device answering request `i`; it runs that continuation.
- `Fail(i)` is a failed request. There is no error handler, so the continuation never runs.

Because the next command of a chain is issued only by `Complete`, no step can
go out before the previous one is answered. `LoadAndAnswer` and
`SaveAndAnswer` derive the end-to-end order from the method contracts alone.

Behaviour of the code that the model keeps:

- **No retry and no error normalisation.** `sendRequest` has neither.
- **`say` always uses `de-de`.** It ignores the configured TTS settings.
- **`loadPlayState` of an absent slot dereferences `undefined`.** It is a
  precondition.
- **The refined save stores `currentPlayingMedia` at answer time.** It does
  not store the media of the save time (player.service.ts:145). The two differ
  only when `playMedia` runs between the save and the poll's answer.
  `Complete` states this. `SaveAndAnswer` shows that the media is kept when
  nothing else plays in between.
- **An unknown media type resolves to no path.** JavaScript then sends the path
  `"undefined"`, for example for the page's initial `{type: ''}`. The model
  sends the same.
- **Empty `rooms` puts `"undefined"` in the URL.** `rooms[0]` is undefined and
  JavaScript concatenates it as text. With a room, the URL is exactly
  `http://server:port/rooms[0]/path`.
- **`!media.id` is also true for `""`.** A library entry with an empty id takes
  its title. A Spotify entry with an empty id is searched for. A missing id,
  title or artist is encoded as `"undefined"`.

## Model

| member | source | states |
|---|---|---|
| Uri.Encode | src/app/player.service.ts:97-116 | an encoded component holds only unreserved characters and '%', so it never adds '/', ':' or '"' to a path |
| Uri.DecodeEncode | src/app/player.service.ts:95-128 | decodeURIComponent(encodeURIComponent(s)) == s for every string, non-ASCII included |
| Uri.EncodeInjective | src/app/player.service.ts:95-128 | distinct texts give distinct encoded segments, so distinct ids give distinct paths |
| Numbers.NatToString | src/app/player.service.ts:80-90 | a number renders as digits only, with a leading zero exactly when it is 0 |
| Numbers.ParseIntToString | src/app/player.service.ts:80-90 | every integer reads back from its rendering, sign included |
| Numbers.IntToString | src/app/player.service.ts:80-90 | the rendering of an integral number in `'trackseek/' + n`: at least one character, with a leading '-' exactly when the number is negative |
| Numbers.IntToStringInjective | src/app/player.service.ts:80-90 | distinct integers render as distinct strings |
| Player.Store | src/app/player.service.ts:44-50 | after the write, the slot state.id holds state, every other slot is unchanged, an existing slot is overwritten, and every record stays under its own id |
| Player.PlayerService.constructor | src/app/player.service.ts:30-35 | no configuration cached, no current media, nothing sent; the stored map is what the storage held, empty when there is no record |
| Player.PlayerService.GetSavedPlayState | src/app/player.service.ts:37-42 | the result is present exactly when the slot is stored (never a failure for a missing slot), and is then the record under that id |
| Player.PlayerService.SetSavedPlayState | src/app/player.service.ts:44-50 | the stored map becomes Store(old map, state); nothing else changes |
| Player.ConfigUrl | src/app/player.service.ts:57 | the endpoint is '../api/sonos' if and only if the build is a production build, otherwise the localhost one |
| Player.PlayerService.GetConfig | src/app/player.service.ts:52-66 | the first call fetches once from ConfigUrl(production); later calls return the cached value and fetch nothing |
| Player.RequestUrl | src/app/player.service.ts:158-163 | with at least one room the URL is exactly "http://" + server + ":" + port + "/" + rooms[0] + "/" + path; the path is the URL's suffix after the base |
| Player.RequestUrlInjective | src/app/player.service.ts:160-161 | on one device, distinct command paths give distinct URLs |
| Player.PlayerService.SendRequest | src/app/player.service.ts:158-163 | exactly one URL is issued, with its continuation pending; the configuration is loaded at most once |
| Player.PlayerService.GetState | src/app/player.service.ts:68-70 | issues exactly `state` |
| Player.PlayerService.GetQueue | src/app/player.service.ts:72-74 | issues exactly `queue` |
| Player.PlayerCmd.Path | src/app/player.service.ts:9-18 | each command's path is its enum string, and the device reads the command back from it, so no two commands share a path |
| Player.PlayerService.SendCmd | src/app/player.service.ts:76-78 | issues exactly the command's path (play, pause, playpause, previous, next, volume/+5, volume/-5, clearqueue) |
| Player.NumberPath | src/app/player.service.ts:80-90 | `trackseek/`, `timeseek/` and `sleep/` paths carry their number: it reads back from the rest of the path |
| Player.PlayerService.SendTrackseekCmd | src/app/player.service.ts:80-82 | issues exactly `trackseek/` + n |
| Player.PlayerService.SendTimeseekCmd | src/app/player.service.ts:84-86 | issues exactly `timeseek/` + s |
| Player.PlayerService.SendSleepCmd | src/app/player.service.ts:88-90 | issues exactly `sleep/` + s |
| Player.SayPath | src/app/player.service.ts:127-130 | the path is `say/` + one segment + `/de-de`, and the segment has no '/' and decodes back to the text |
| Player.PlayerService.Say | src/app/player.service.ts:127-130 | issues exactly SayPath(text), with the hardcoded language |
| Player.Resolve | src/app/player.service.ts:95-120 | a path exists exactly for the four provider kinds; only a library entry without a (truthy) id changes, and it takes its title as id |
| Player.ResolveTarget | src/app/player.service.ts:95-120 | each play path reads back as what the source means: Apple Music / Amazon Music album by id, library album by id (title when absent), Spotify album by id whenever it has one, else a Spotify search by artist and title |
| Player.SpotifyPrefersId | src/app/player.service.ts:111-119 | a Spotify entry with an id uses the id path and never a musicsearch path |
| Player.ResolveIdempotent | src/app/player.service.ts:104-108 | resolving the updated media again changes nothing: the id write persists and happens once |
| Player.PlayerService.PlayMedia | src/app/player.service.ts:92-125 | the updated media becomes current; only clearqueue is issued, and the play path is its continuation, followed by onComplete |
| Player.LoadChainOrder | src/app/player.service.ts:152-156 | after clearqueue, a restore issues exactly three commands in order: a play path that parses, trackseek to the saved track, timeseek to the saved time |
| Player.PlayerService.SavePlayState | src/app/player.service.ts:132-150 | without current media nothing changes; otherwise the slot holds {id, current media, 1, 0} at once and a state poll is pending that refines the same slot |
| Player.PlayerService.LoadPlayState | src/app/player.service.ts:152-156 | plays the saved media (clearqueue first), with the track seek and then the time seek chained on the answers |
| Player.PlayerService.Complete | src/app/player.service.ts:142-156 | an answer removes its request and runs its continuation and nothing more: either the next request of the chain, or the slot rewritten with the polled trackNo/elapsedTime and the current media |
| Player.PlayerService.Fail | src/app/player.service.ts:161 | a failed request is dropped and its chain stops; nothing else is issued or stored |
| Player.LoadAndAnswer | src/app/player.service.ts:152-156 | if the device answers in turn, a restore sends exactly clearqueue, the play path, trackseek and timeseek, in that order |
| Player.SaveAndAnswer | src/app/player.service.ts:132-150 | a save is readable at once as track 1, time 0; after the poll's answer it holds the polled track and time with the same media; other slots are untouched |
| Pages.ChosenMedia | src/app/player/player.page.ts:28-34 | the passed media wins; without one, a saved slot id selects that slot's media |
| Pages.PlayerPage.constructor | src/app/player/player.page.ts:14-37 | playing starts true; an externally controlled navigation sets the flag and the extern placeholder and leaves the slot id unset; otherwise media and slot id are taken over |
| Pages.PlayerPage.IonViewWillEnter | src/app/player/player.page.ts:47-55 | externally controlled: no command; with a slot id: loadPlayState of it and no playMedia; otherwise with media: playMedia of it, with the updated media kept |
| Pages.PlayerPage.IonViewWillLeave | src/app/player/player.page.ts:57-59 | sends pause exactly when not externally controlled |
| Pages.PlayerPage.VolUp | src/app/player/player.page.ts:61-63 | sends exactly volume/+5 and changes no field of the page |
| Pages.PlayerPage.VolDown | src/app/player/player.page.ts:65-67 | sends exactly volume/-5 and changes no field of the page |
| Pages.PlayerPage.SkipPrev | src/app/player/player.page.ts:69-71 | sends exactly previous and changes no field of the page |
| Pages.PlayerPage.SkipNext | src/app/player/player.page.ts:73-75 | sends exactly next and changes no field of the page |
| Pages.PlayerPage.PlayPause | src/app/player/player.page.ts:77-85 | flips playing and sends exactly one command: pause when it was playing, play when it was not |
| Pages.PlayerPage.SavePlayState | src/app/player/player.page.ts:87-89 | has the service's savePlayState effect on the given slot |
| App.KeyStep | src/app/app.component.ts:43-77 | a digit appends exactly itself; another non-Enter key empties the buffer; Enter with a match empties it and navigates with that media and the extern flag; Enter without a match leaves it unchanged; only Enter with a match navigates |
| App.EnterNeverAppends | src/app/app.component.ts:43-60 | after Enter the buffer is either unchanged or empty |
| App.TypedStaysDigits | src/app/app.component.ts:61-77 | a buffer of digits stays all digits under any sequence of keys |
| App.TypedWithoutEnter | src/app/app.component.ts:61-77 | without Enter the buffer is exactly the digits typed since the last other key, after the old buffer if no other key came |
| App.AppComponent.constructor | src/app/app.component.ts:19 | the buffer starts empty, no navigation issued |
| App.AppComponent.KeyEvent | src/app/app.component.ts:39-81 | the buffer and the navigation log change as KeyStep says, and the buffer stays all digits |

## Left out

- HttpClient and rxjs. The `publishReplay`/`refCount` sharing, subscription
  lifetimes and the order of answers in time are not modelled. The
  configuration endpoint's answer is the constant `endpoint`, read when the
  first request needs it. Concurrent first callers and config-fetch failures
  are not modelled.
- Player.PlayerService.GetConfig: does not model a failed or late
  configuration fetch, because the fetch is a foreign HTTP call. It is modelled
  as always answering `endpoint`.
- HTTP errors: `Fail` drops the request. Error objects and console logging are
  not modelled. The source has no retry and no error normalisation.
- `isExternControlled` (called at app.component.ts:44) is not defined in the
  modelled source. Its answer is an input of `KeyEvent`.
- `mediaService.getMediaFromUuid` and `publishCachedMedia` are foreign calls.
  The lookup is an input function. The source reads `uuid` when
  `isExternControlled` calls back (app.component.ts:45) and empties it when the
  lookup answers (line 47). `KeyEvent` does both at the Enter key, so keys typed
  while those answers are outstanding are not modelled.
- `router.navigate` is kept as a log of the navigation states. The page's
  `queryParams` subscription is modelled as running once in the constructor.
- `ngOnInit` and the `cover` field (artwork lookup), the splash screen and the
  status bar: UI and foreign calls.
- The TTS settings of the configuration: `say` never reads them.
- `window.localStorage` and JSON: the stored record is the map field `saved`.
  The constructor takes what the storage held, which is the empty map when there
  is no record. That record is taken to be one this code wrote, so every state
  sits under its own id (the constructor's `SlotsKeyed` precondition), as the
  only write (player.service.ts:48) keeps it. JavaScript property-name quirks of the parsed record
  (`__proto__`, `constructor`) are not modelled.
- Numbers.IntToString: models integral values only. Fractions, NaN and the
  exponent form JavaScript uses from 1e21 are not modelled, because track
  numbers and seconds are integral in practice.
- Uri.Encode: does not model the URIError thrown on a lone UTF-16 surrogate,
  because Dafny strings hold only Unicode scalar values.
- Player.PlayerService.PlayMedia: the in-place `media.id = media.title` is
  modelled by returning the updated media. The page stores it back. Other
  holders of the same object are not modelled.
- The `id = 'default'` default arguments (player.service.ts:37, 132 and 152, player.page.ts:87): callers pass the slot explicitly, and `Player.DefaultSlot` is the value a call without an argument uses.
- Player.PlayerService.LoadPlayState: an absent slot is a precondition. The
  source would dereference `undefined`.
- src/app/sonos-api.ts: it holds only type declarations. Its config fields and
  `trackNo`/`elapsedTime` are the datatypes here.
- ChromeSnippet.js is DOM scraping for a browser console and is not part of
  this model. The media entity and its service (media.ts, media.service.ts)
  are not part of this model either. `Media` has only the fields the core reads.
