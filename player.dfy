/**
 * The player service (src/app/player.service.ts): it turns media references
 * into command paths of the Sonos HTTP API, keeps saved play states under one
 * storage record, memoises the device configuration and chains commands so
 * that each one is issued only when the previous one has been answered.
 *
 * The HTTP side is a log: `sent` holds every URL in the order it was issued and
 * `pending` the requests that have been issued but not answered, each with the
 * continuation to run when its answer arrives (method Complete).
 */
module Player {
  import opened Wrappers
  import Uri
  import Numbers

  // ---------------------------------------------------------------------------
  // Entities

  /** Device configuration served by the API (src/app/sonos-api.ts); tts is not read by this core. */
  datatype SonosApiConfig = SonosApiConfig(server: string, port: string, rooms: seq<string>)

  /** The two fields of the polled player state that the service reads. */
  datatype SonosApiState = SonosApiState(trackNo: int, elapsedTime: int)

  /** The fixed command a path names, as the device reads it; None for any other path. */
  function CmdOfPath(p: string): Option<PlayerCmd> {
    if p == "play" then Some(Play)
    else if p == "pause" then Some(Pause)
    else if p == "playpause" then Some(PlayPause)
    else if p == "previous" then Some(Previous)
    else if p == "next" then Some(Next)
    else if p == "volume/+5" then Some(VolumeUp)
    else if p == "volume/-5" then Some(VolumeDown)
    else if p == "clearqueue" then Some(ClearQueue)
    else None
  }

  /** A media reference; `kind` is the source's `type` string, the other fields may be absent. */
  datatype Media = Media(kind: string, id: Option<string>, title: Option<string>, artist: Option<string>)

  /** A saved play state; its `id` is the slot it is stored under. */
  datatype SaveState = SaveState(id: string, media: Media, trackNo: int, elapsedTime: int)

  /** The fixed commands (enum PlayerCmds). */
  datatype PlayerCmd = Play | Pause | PlayPause | Previous | Next | VolumeUp | VolumeDown | ClearQueue
  {
    /** The enum's string; the device reads the command back from it, so no two commands share a path. */
    function Path(): (p: string)
      ensures CmdOfPath(p) == Some(this)
    {
      match this
      case Play => "play"
      case Pause => "pause"
      case PlayPause => "playpause"
      case Previous => "previous"
      case Next => "next"
      case VolumeUp => "volume/+5"
      case VolumeDown => "volume/-5"
      case ClearQueue => "clearqueue"
    }
  }

  /** What runs when a request is answered: nothing, another request, or the refinement of a saved state. */
  datatype Then = Nothing | Send(path: string, next: Then) | RefineSave(slot: string)

  /** An issued request that has not been answered yet. */
  datatype Request = Request(url: string, onAnswer: Then)

  /** JavaScript truthiness of an optional string: present and not empty. */
  predicate Truthy(o: Option<string>) {
    o.Some? && o.value != ""
  }

  /** How JavaScript renders an optional string in concatenation and in encodeURIComponent. */
  function JsText(o: Option<string>): string {
    if o.Some? then o.value else "undefined"
  }

  predicate HasPrefix(s: string, p: string) {
    |p| <= |s| && s[..|p|] == p
  }

  // ---------------------------------------------------------------------------
  // Saved play states

  function Lookup(store: map<string, SaveState>, id: string): Option<SaveState> {
    if id in store then Some(store[id]) else None
  }

  /** Every stored record sits under its own id. */
  ghost predicate SlotsKeyed(store: map<string, SaveState>) {
    forall k :: k in store ==> store[k].id == k
  }

  /** The read-modify-write of setSavedPlayState on the stored map. */
  function Store(store: map<string, SaveState>, state: SaveState): (r: map<string, SaveState>)
    ensures Lookup(r, state.id) == Some(state)
    ensures forall id :: id != state.id ==> Lookup(r, id) == Lookup(store, id)
    ensures r.Keys == store.Keys + {state.id}
    ensures SlotsKeyed(store) ==> SlotsKeyed(r)
  {
    store[state.id := state]
  }

  /** The slot `getSavedPlayState`, `savePlayState` and `loadPlayState` use when called without one. */
  const DefaultSlot := "default"

  // ---------------------------------------------------------------------------
  // Configuration and request URLs

  const ProductionConfigUrl := "../api/sonos"
  const DevelopmentConfigUrl := "http://localhost:8200/api/sonos"

  /** The configuration endpoint: the reverse-proxy path exactly in a production build. */
  function ConfigUrl(production: bool): (url: string)
    ensures (url == ProductionConfigUrl) == production
    ensures !production ==> url == DevelopmentConfigUrl
  {
    if production then ProductionConfigUrl else DevelopmentConfigUrl
  }

  /** `config.rooms[0]` as it lands in a string: "undefined" when there is no room. */
  function FirstRoom(rooms: seq<string>): string {
    if |rooms| > 0 then rooms[0] else "undefined"
  }

  function BaseUrl(config: SonosApiConfig): string {
    "http://" + config.server + ":" + config.port + "/" + FirstRoom(config.rooms) + "/"
  }

  /** The URL sendRequest issues: the command path under the first room of the device. */
  function RequestUrl(config: SonosApiConfig, path: string): (url: string)
    ensures |config.rooms| > 0 ==>
      url == "http://" + config.server + ":" + config.port + "/" + config.rooms[0] + "/" + path
    ensures HasPrefix(url, BaseUrl(config)) && url[|BaseUrl(config)|..] == path
  {
    BaseUrl(config) + path
  }

  /** One device, one URL per command path. */
  lemma RequestUrlInjective(config: SonosApiConfig, p: string, q: string)
    requires RequestUrl(config, p) == RequestUrl(config, q)
    ensures p == q
  {
    assert RequestUrl(config, p)[|BaseUrl(config)|..] == p;
  }

  /** The three parts of pre + mid + post can be read back by position. */
  lemma Enclosed(pre: string, mid: string, post: string)
    ensures var p := pre + mid + post;
      && |p| == |pre| + |mid| + |post| && HasPrefix(p, pre)
      && p[|pre|..|p| - |post|] == mid && p[|p| - |post|..] == post
  {
    var p := pre + mid + post;
    assert p[..|pre|] == pre;
    assert p[|pre|..|p| - |post|] == mid;
    assert p[|p| - |post|..] == post;
  }

  // ---------------------------------------------------------------------------
  // Transport paths

  const TrackseekPrefix := "trackseek/"
  const TimeseekPrefix := "timeseek/"
  const SleepPrefix := "sleep/"
  const SayPrefix := "say/"
  const SayLanguage := "/de-de"

  /** `prefix + n`: the device reads n back from the rest of the path. */
  function NumberPath(prefix: string, n: int): (p: string)
    ensures HasPrefix(p, prefix) && Numbers.ParseInt(p[|prefix|..]) == Some(n)
  {
    Numbers.ParseIntToString(n);
    assert (prefix + Numbers.IntToString(n))[|prefix|..] == Numbers.IntToString(n);
    prefix + Numbers.IntToString(n)
  }

  function TrackseekPath(trackNo: int): string {
    NumberPath(TrackseekPrefix, trackNo)
  }

  function TimeseekPath(seconds: int): string {
    NumberPath(TimeseekPrefix, seconds)
  }

  function SleepPath(seconds: int): string {
    NumberPath(SleepPrefix, seconds)
  }

  /** The text-to-speech path; the text is one path segment and decodes back to itself. */
  function SayPath(text: string): (p: string)
    ensures HasPrefix(p, SayPrefix) && |p| >= |SayPrefix| + |SayLanguage|
    ensures p[|p| - |SayLanguage|..] == SayLanguage
    ensures var segment := p[|SayPrefix|..|p| - |SayLanguage|];
      Uri.Decode(segment) == Some(text) && '/' !in segment
  {
    var e := Uri.Encode(text);
    Uri.DecodeEncode(text);
    EncodingAvoids(text, '/');
    Enclosed(SayPrefix, e, SayLanguage);
    SayPrefix + e + SayLanguage
  }

  // ---------------------------------------------------------------------------
  // Media resolution

  const AppleMusicPrefix := "applemusic/now/album:"
  const AmazonMusicPrefix := "amazonmusic/now/album:"
  const LibraryPrefix := "musicsearch/library/album/"
  const SpotifyAlbumPrefix := "spotify/now/spotify:album:"
  const SpotifySearchPrefix := "musicsearch/spotify/album/artist:\""
  const SpotifySearchMiddle := "\" album:\""
  const SearchPrefix := "musicsearch/"

  predicate IsProviderKind(kind: string) {
    kind == "applemusic" || kind == "amazonmusic" || kind == "library" || kind == "spotify"
  }

  /** The media after playMedia's write and the command path it plays (None for an unknown kind). */
  datatype Resolution = Resolution(media: Media, path: Option<string>)

  /** `artist:"<artist>" album:"<title>"` after the search prefix, both fields encoded. */
  function SearchQuery(artist: string, title: string): string {
    Uri.Encode(artist) + SpotifySearchMiddle + Uri.Encode(title) + "\""
  }

  /** The switch of playMedia; a library entry without an id takes its title as id. */
  function Resolve(m: Media): (r: Resolution)
    ensures r.path.Some? <==> IsProviderKind(m.kind)
    ensures r.media.kind == m.kind && r.media.title == m.title && r.media.artist == m.artist
    ensures r.media.id == if m.kind == "library" && !Truthy(m.id) then m.title else m.id
  {
    if m.kind == "applemusic" then
      Resolution(m, Some(AppleMusicPrefix + Uri.Encode(JsText(m.id))))
    else if m.kind == "amazonmusic" then
      Resolution(m, Some(AmazonMusicPrefix + Uri.Encode(JsText(m.id))))
    else if m.kind == "library" then
      var m' := if !Truthy(m.id) then m.(id := m.title) else m;
      Resolution(m', Some(LibraryPrefix + Uri.Encode(JsText(m'.id))))
    else if m.kind == "spotify" then
      if Truthy(m.id) then
        Resolution(m, Some(SpotifyAlbumPrefix + Uri.Encode(m.id.value)))
      else
        Resolution(m, Some(SpotifySearchPrefix + SearchQuery(JsText(m.artist), JsText(m.title))))
    else
      Resolution(m, None)
  }

  /** What a play path asks the device for, as the device reads the path. */
  datatype PlayTarget =
    | AppleMusicAlbum(id: string)
    | AmazonMusicAlbum(id: string)
    | LibraryAlbum(id: string)
    | SpotifyAlbum(id: string)
    | SpotifySearch(artist: string, title: string)

  function IndexOf(s: string, c: char): (r: Option<nat>)
    ensures r.Some? ==> r.value < |s| && s[r.value] == c && c !in s[..r.value]
    ensures r.None? ==> c !in s
  {
    if s == [] then None
    else if s[0] == c then Some(0)
    else match IndexOf(s[1..], c)
      case Some(k) => assert s[..k + 1] == [s[0]] + s[1..][..k]; Some(k + 1)
      case None => None
  }

  /** The artist and title quoted in the rest of a Spotify search path. */
  function ParseSearch(rest: string): Option<PlayTarget> {
    match IndexOf(rest, '"')
    case None => None
    case Some(j) =>
      var tail := rest[j..];
      if HasPrefix(tail, SpotifySearchMiddle) && |tail| > |SpotifySearchMiddle| && tail[|tail| - 1] == '"' then
        match (Uri.Decode(rest[..j]), Uri.Decode(tail[|SpotifySearchMiddle|..|tail| - 1]))
        case (Some(artist), Some(title)) => Some(SpotifySearch(artist, title))
        case _ => None
      else None
  }

  function DecodeAfter(p: string, prefix: string): Option<string>
    requires HasPrefix(p, prefix)
  {
    Uri.Decode(p[|prefix|..])
  }

  /** Reads a play path back into the album or search it stands for. */
  function ParsePlayPath(p: string): Option<PlayTarget> {
    if HasPrefix(p, AppleMusicPrefix) then
      match DecodeAfter(p, AppleMusicPrefix) case Some(id) => Some(AppleMusicAlbum(id)) case None => None
    else if HasPrefix(p, AmazonMusicPrefix) then
      match DecodeAfter(p, AmazonMusicPrefix) case Some(id) => Some(AmazonMusicAlbum(id)) case None => None
    else if HasPrefix(p, LibraryPrefix) then
      match DecodeAfter(p, LibraryPrefix) case Some(id) => Some(LibraryAlbum(id)) case None => None
    else if HasPrefix(p, SpotifyAlbumPrefix) then
      match DecodeAfter(p, SpotifyAlbumPrefix) case Some(id) => Some(SpotifyAlbum(id)) case None => None
    else if HasPrefix(p, SpotifySearchPrefix) then
      ParseSearch(p[|SpotifySearchPrefix|..])
    else None
  }

  /** Two prefixes that differ at position i cannot both start s. */
  lemma PrefixesExclude(s: string, p: string, q: string, i: nat)
    requires HasPrefix(s, q) && i < |p| && i < |q| && p[i] != q[i]
    ensures !HasPrefix(s, p)
  {
    assert s[i] == q[i];
  }

  lemma PrefixThenDecodes(prefix: string, text: string)
    ensures HasPrefix(prefix + Uri.Encode(text), prefix)
    ensures DecodeAfter(prefix + Uri.Encode(text), prefix) == Some(text)
  {
    Uri.DecodeEncode(text);
    assert (prefix + Uri.Encode(text))[|prefix|..] == Uri.Encode(text);
  }

  /** Encoded text never holds a character outside the encoder's alphabet, such as '/' or a double quote. */
  lemma EncodingAvoids(text: string, c: char)
    requires !Uri.IsEncodedChar(c)
    ensures c !in Uri.Encode(text)
  {
    var e := Uri.Encode(text);
    forall i | 0 <= i < |e| ensures e[i] != c {
      assert Uri.IsEncodedChar(e[i]);
    }
  }

  lemma {:induction false} IndexOfFirst(a: string, b: string, c: char)
    requires c !in a && |b| > 0 && b[0] == c
    ensures IndexOf(a + b, c) == Some(|a|)
  {
    if a == [] {
      assert a + b == b;
    } else {
      IndexOfFirst(a[1..], b, c);
      assert (a + b)[1..] == a[1..] + b;
    }
  }

  /** The layout of a search query: the artist field ends at the first quote, the title field sits between the middle and the closing quote. */
  lemma SearchLayout(a: string, t: string)
    requires '"' !in a
    ensures var rest := a + SpotifySearchMiddle + t + "\"";
      var tail := rest[|a|..];
      && IndexOf(rest, '"') == Some(|a|)
      && rest[..|a|] == a
      && HasPrefix(tail, SpotifySearchMiddle) && |tail| > |SpotifySearchMiddle| && tail[|tail| - 1] == '"'
      && tail[|SpotifySearchMiddle|..|tail| - 1] == t
  {
    var tail := SpotifySearchMiddle + t + "\"";
    var rest := a + tail;
    assert rest == a + SpotifySearchMiddle + t + "\"";
    IndexOfFirst(a, tail, '"');
    assert rest[..|a|] == a && rest[|a|..] == tail;
    Enclosed(SpotifySearchMiddle, t, "\"");
  }

  lemma ParseSearchPath(artist: string, title: string)
    ensures ParseSearch(SearchQuery(artist, title)) == Some(SpotifySearch(artist, title))
  {
    var a, t := Uri.Encode(artist), Uri.Encode(title);
    EncodingAvoids(artist, '"');
    SearchLayout(a, t);
    var rest := SearchQuery(artist, title);
    assert rest == a + SpotifySearchMiddle + t + "\"";
    Uri.DecodeEncode(artist);
    Uri.DecodeEncode(title);
    assert Uri.Decode(rest[..|a|]) == Some(artist);
  }

  lemma ResolveAlbumTarget(m: Media)
    requires m.kind == "applemusic" || m.kind == "amazonmusic" || m.kind == "library"
    ensures ParsePlayPath(Resolve(m).path.value) ==
        if m.kind == "applemusic" then Some(AppleMusicAlbum(JsText(m.id)))
        else if m.kind == "amazonmusic" then Some(AmazonMusicAlbum(JsText(m.id)))
        else Some(LibraryAlbum(JsText(Resolve(m).media.id)))
  {
    var r := Resolve(m);
    var p := r.path.value;
    if m.kind == "applemusic" {
      PrefixThenDecodes(AppleMusicPrefix, JsText(m.id));
    } else if m.kind == "amazonmusic" {
      PrefixThenDecodes(AmazonMusicPrefix, JsText(m.id));
      PrefixesExclude(p, AppleMusicPrefix, AmazonMusicPrefix, 1);
    } else {
      PrefixThenDecodes(LibraryPrefix, JsText(r.media.id));
      PrefixesExclude(p, AppleMusicPrefix, LibraryPrefix, 0);
      PrefixesExclude(p, AmazonMusicPrefix, LibraryPrefix, 0);
    }
  }

  lemma ResolveSpotifyAlbumTarget(m: Media)
    requires m.kind == "spotify" && Truthy(m.id)
    ensures ParsePlayPath(Resolve(m).path.value) == Some(SpotifyAlbum(m.id.value))
  {
    var p := Resolve(m).path.value;
    PrefixThenDecodes(SpotifyAlbumPrefix, m.id.value);
    PrefixesExclude(p, AppleMusicPrefix, SpotifyAlbumPrefix, 0);
    PrefixesExclude(p, AmazonMusicPrefix, SpotifyAlbumPrefix, 0);
    PrefixesExclude(p, LibraryPrefix, SpotifyAlbumPrefix, 0);
  }

  lemma ResolveSpotifySearchTarget(m: Media)
    requires m.kind == "spotify" && !Truthy(m.id)
    ensures ParsePlayPath(Resolve(m).path.value) == Some(SpotifySearch(JsText(m.artist), JsText(m.title)))
  {
    var p := Resolve(m).path.value;
    var rest := SearchQuery(JsText(m.artist), JsText(m.title));
    assert HasPrefix(p, SpotifySearchPrefix) && p[|SpotifySearchPrefix|..] == rest;
    PrefixesExclude(p, AppleMusicPrefix, SpotifySearchPrefix, 0);
    PrefixesExclude(p, AmazonMusicPrefix, SpotifySearchPrefix, 0);
    PrefixesExclude(p, LibraryPrefix, SpotifySearchPrefix, 12);
    PrefixesExclude(p, SpotifyAlbumPrefix, SpotifySearchPrefix, 0);
    ParseSearchPath(JsText(m.artist), JsText(m.title));
  }

  /**
   * The play path of every supported kind reads back as the album or search the
   * source means: Apple Music and Amazon Music by id, the library by id (its
   * title when it has none), Spotify by id whenever it has one, otherwise by
   * artist and title.
   */
  lemma ResolveTarget(m: Media)
    requires IsProviderKind(m.kind)
    ensures var r := Resolve(m);
      ParsePlayPath(r.path.value) ==
        if m.kind == "applemusic" then Some(AppleMusicAlbum(JsText(m.id)))
        else if m.kind == "amazonmusic" then Some(AmazonMusicAlbum(JsText(m.id)))
        else if m.kind == "library" then Some(LibraryAlbum(JsText(r.media.id)))
        else if Truthy(m.id) then Some(SpotifyAlbum(m.id.value))
        else Some(SpotifySearch(JsText(m.artist), JsText(m.title)))
  {
    if m.kind != "spotify" {
      ResolveAlbumTarget(m);
    } else if Truthy(m.id) {
      ResolveSpotifyAlbumTarget(m);
    } else {
      ResolveSpotifySearchTarget(m);
    }
  }

  /** A Spotify entry with an id is played by that id and never searched for. */
  lemma SpotifyPrefersId(m: Media)
    requires m.kind == "spotify" && Truthy(m.id)
    ensures Resolve(m).path == Some(SpotifyAlbumPrefix + Uri.Encode(m.id.value))
    ensures !HasPrefix(Resolve(m).path.value, SearchPrefix)
  {
    PrefixesExclude(Resolve(m).path.value, SearchPrefix, SpotifyAlbumPrefix, 0);
  }

  /** Resolving again finds nothing left to fill in: the library write happens once. */
  lemma ResolveIdempotent(m: Media)
    ensures Resolve(Resolve(m).media) == Resolve(m)
  {
  }

  // ---------------------------------------------------------------------------
  // Command chains

  /** Whether a continuation ends by refining a saved state. */
  predicate Refines(t: Then) {
    match t
    case Nothing => false
    case Send(_, next) => Refines(next)
    case RefineSave(_) => true
  }

  /** The paths a continuation issues, in order, when every request in it is answered. */
  function Chain(t: Then): seq<string> {
    match t
    case Nothing => []
    case Send(p, next) => [p] + Chain(next)
    case RefineSave(_) => []
  }

  /** What playMedia leaves to do once the queue is cleared: play the path, then onComplete. */
  function AfterClear(media: Media, onComplete: Then): Then {
    Send(JsText(Resolve(media).path), onComplete)
  }

  /** What loadPlayState runs once the album plays: seek the track, then the time. */
  function SeekChain(state: SaveState): Then {
    Send(TrackseekPath(state.trackNo), Send(TimeseekPath(state.elapsedTime), Nothing))
  }

  /**
   * After clearqueue, loadPlayState issues exactly three commands, in this
   * order: the play path, the track seek, the time seek.
   */
  lemma LoadChainOrder(state: SaveState)
    requires IsProviderKind(state.media.kind)
    ensures var chain := Chain(AfterClear(state.media, SeekChain(state)));
      && |chain| == 3
      && ParsePlayPath(chain[0]).Some?
      && HasPrefix(chain[1], TrackseekPrefix) && Numbers.ParseInt(chain[1][|TrackseekPrefix|..]) == Some(state.trackNo)
      && HasPrefix(chain[2], TimeseekPrefix) && Numbers.ParseInt(chain[2][|TimeseekPrefix|..]) == Some(state.elapsedTime)
  {
    ResolveTarget(state.media);
    var play := Resolve(state.media).path;
    assert ParsePlayPath(JsText(play)).Some?;
    ChainOfThree(JsText(play), TrackseekPath(state.trackNo), TimeseekPath(state.elapsedTime));
  }

  lemma ChainOfThree(a: string, b: string, c: string)
    ensures Chain(Send(a, Send(b, Send(c, Nothing)))) == [a, b, c]
  {
    assert Chain(Send(c, Nothing)) == [c];
    assert Chain(Send(b, Send(c, Nothing))) == [b, c];
  }

  // ---------------------------------------------------------------------------
  // The service

  class PlayerService {
    /** environment.production: which configuration endpoint is used. */
    const production: bool
    /** The configuration the endpoint answers with. */
    const endpoint: SonosApiConfig

    /** The memoised configuration (None until getConfig first runs). */
    var config: Option<SonosApiConfig>
    /** URLs of the configuration fetches issued so far. */
    var configFetches: seq<string>
    var currentPlayingMedia: Option<Media>
    /** The map kept under the storage key 'SavedPlayState'; no record reads as the empty map. */
    var saved: map<string, SaveState>
    /** Every command URL issued, in order. */
    var sent: seq<string>
    /** Issued requests not yet answered, with their continuations. */
    var pending: seq<Request>

    ghost predicate Valid()
      reads this
    {
      && (config.None? ==> configFetches == [])
      && (config.Some? ==> config.value == endpoint && configFetches == [ConfigUrl(production)])
      && SlotsKeyed(saved)
      && (currentPlayingMedia.None? ==> forall k :: 0 <= k < |pending| ==> !Refines(pending[k].onAnswer))
    }

    /** The configuration is loaded, fetched at most once since the previous state. */
    twostate predicate ConfigLoaded()
      reads this
    {
      && config == Some(endpoint)
      && configFetches == if old(config).Some? then old(configFetches) else old(configFetches) + [ConfigUrl(production)]
    }

    /** Exactly one request for path was issued, with continuation onComplete; the store and the current media are unchanged. */
    twostate predicate IssuedOne(path: string, onComplete: Then)
      reads this
    {
      && ConfigLoaded()
      && sent == old(sent) + [RequestUrl(endpoint, path)]
      && pending == old(pending) + [Request(RequestUrl(endpoint, path), onComplete)]
      && saved == old(saved)
      && currentPlayingMedia == old(currentPlayingMedia)
    }

    /**
     * playMedia's effect: media, with the library write applied, is current,
     * and only clearqueue is issued; its answer issues the play path, whose
     * answer runs onComplete.
     */
    twostate predicate PlayedMedia(media: Media, onComplete: Then)
      reads this
    {
      && currentPlayingMedia == Some(Resolve(media).media)
      && ConfigLoaded() && saved == old(saved)
      && sent == old(sent) + [RequestUrl(endpoint, ClearQueue.Path())]
      && pending == old(pending) + [Request(RequestUrl(endpoint, ClearQueue.Path()), AfterClear(media, onComplete))]
    }

    /**
     * savePlayState's effect: nothing without current media; otherwise the slot
     * holds the current media at track 1, time 0, and a state poll is pending
     * whose answer refines that slot.
     */
    twostate predicate SavedPlayState(id: string)
      reads this
    {
      if old(currentPlayingMedia).None? then
        && config == old(config) && configFetches == old(configFetches)
        && currentPlayingMedia == old(currentPlayingMedia) && saved == old(saved)
        && sent == old(sent) && pending == old(pending)
      else
        && saved == Store(old(saved), SaveState(id, old(currentPlayingMedia).value, 1, 0))
        && currentPlayingMedia == old(currentPlayingMedia)
        && ConfigLoaded()
        && sent == old(sent) + [RequestUrl(endpoint, "state")]
        && pending == old(pending) + [Request(RequestUrl(endpoint, "state"), RefineSave(id))]
    }

    /** loadPlayState's effect: playMedia of the saved media, continued by the track and time seeks. */
    twostate predicate LoadedPlayState(id: string)
      reads this
    {
      id in old(saved) && PlayedMedia(old(saved)[id].media, SeekChain(old(saved)[id]))
    }

    constructor (production: bool, endpoint: SonosApiConfig, stored: map<string, SaveState>)
      requires SlotsKeyed(stored)
      ensures Valid()
      ensures this.production == production && this.endpoint == endpoint
      ensures config.None? && configFetches == [] && currentPlayingMedia.None?
      ensures saved == stored && sent == [] && pending == []
    {
      this.production := production;
      this.endpoint := endpoint;
      config := None;
      configFetches := [];
      currentPlayingMedia := None;
      saved := stored;
      sent := [];
      pending := [];
    }

    /** getSavedPlayState: the record stored under id, absent when there is none. */
    method GetSavedPlayState(id: string) returns (r: Option<SaveState>)
      requires Valid()
      ensures r.Some? <==> id in saved
      ensures r.Some? ==> r.value == saved[id] && r.value.id == id
    {
      r := Lookup(saved, id);
    }

    /** setSavedPlayState: overwrites the slot state.id and keeps every other slot. */
    method SetSavedPlayState(state: SaveState)
      requires Valid()
      modifies this
      ensures Valid()
      ensures saved == Store(old(saved), state)
      ensures config == old(config) && configFetches == old(configFetches)
      ensures currentPlayingMedia == old(currentPlayingMedia)
      ensures sent == old(sent) && pending == old(pending)
    {
      saved := Store(saved, state);
    }

    /** getConfig: fetches once, from the endpoint the build selects, then answers from the cache. */
    method GetConfig() returns (c: SonosApiConfig)
      requires Valid()
      modifies this
      ensures Valid() && ConfigLoaded() && c == endpoint
      ensures old(config).Some? ==> c == old(config).value
      ensures currentPlayingMedia == old(currentPlayingMedia) && saved == old(saved)
      ensures sent == old(sent) && pending == old(pending)
    {
      if config.None? {
        configFetches := configFetches + [ConfigUrl(production)];
        config := Some(endpoint);
      }
      c := config.value;
    }

    /** sendRequest: issues base URL + path; onComplete runs when the answer arrives. */
    method SendRequest(path: string, onComplete: Then)
      requires Valid()
      requires currentPlayingMedia.None? ==> !Refines(onComplete)
      modifies this
      ensures Valid() && IssuedOne(path, onComplete)
    {
      var cfg := GetConfig();
      var url := RequestUrl(cfg, path);
      sent := sent + [url];
      pending := pending + [Request(url, onComplete)];
    }

    method GetState(onComplete: Then)
      requires Valid()
      requires currentPlayingMedia.None? ==> !Refines(onComplete)
      modifies this
      ensures Valid() && IssuedOne("state", onComplete)
    {
      SendRequest("state", onComplete);
    }

    method GetQueue(onComplete: Then)
      requires Valid()
      requires currentPlayingMedia.None? ==> !Refines(onComplete)
      modifies this
      ensures Valid() && IssuedOne("queue", onComplete)
    {
      SendRequest("queue", onComplete);
    }

    method SendCmd(cmd: PlayerCmd, onComplete: Then)
      requires Valid()
      requires currentPlayingMedia.None? ==> !Refines(onComplete)
      modifies this
      ensures Valid() && IssuedOne(cmd.Path(), onComplete)
    {
      SendRequest(cmd.Path(), onComplete);
    }

    method SendTrackseekCmd(trackNumber: int, onComplete: Then)
      requires Valid()
      requires currentPlayingMedia.None? ==> !Refines(onComplete)
      modifies this
      ensures Valid() && IssuedOne(TrackseekPath(trackNumber), onComplete)
    {
      SendRequest(TrackseekPath(trackNumber), onComplete);
    }

    method SendTimeseekCmd(seconds: int, onComplete: Then)
      requires Valid()
      requires currentPlayingMedia.None? ==> !Refines(onComplete)
      modifies this
      ensures Valid() && IssuedOne(TimeseekPath(seconds), onComplete)
    {
      SendRequest(TimeseekPath(seconds), onComplete);
    }

    method SendSleepCmd(seconds: int, onComplete: Then)
      requires Valid()
      requires currentPlayingMedia.None? ==> !Refines(onComplete)
      modifies this
      ensures Valid() && IssuedOne(SleepPath(seconds), onComplete)
    {
      SendRequest(SleepPath(seconds), onComplete);
    }

    /**
     * playMedia: records the (possibly updated) media as current and issues
     * clearqueue; the play path is issued only from clearqueue's answer.
     * Returns the media as the write to media.id left it.
     */
    method PlayMedia(media: Media, onComplete: Then) returns (updated: Media)
      requires Valid()
      modifies this
      ensures Valid()
      ensures updated == Resolve(media).media && PlayedMedia(media, onComplete)
    {
      var r := Resolve(media);
      updated := r.media;
      currentPlayingMedia := Some(updated);
      SendCmd(ClearQueue, Send(JsText(r.path), onComplete));
    }

    /** say: speaks text in German; the configured TTS language is not consulted. */
    method Say(text: string)
      requires Valid()
      modifies this
      ensures Valid() && IssuedOne(SayPath(text), Nothing)
    {
      SendRequest(SayPath(text), Nothing);
    }

    /**
     * savePlayState: without current media nothing happens. Otherwise the slot
     * is written at once with track 1 and time 0, and a state poll is issued
     * whose answer refines the same slot (see Complete).
     */
    method SavePlayState(id: string)
      requires Valid()
      modifies this
      ensures Valid()
      ensures SavedPlayState(id)
    {
      if currentPlayingMedia.None? {
        return;
      }
      SetSavedPlayState(SaveState(id, currentPlayingMedia.value, 1, 0));
      GetState(RefineSave(id));
    }

    /**
     * loadPlayState: plays the saved media (clearqueue first), then from the
     * answers seeks the saved track and the saved time. The slot must exist.
     */
    method LoadPlayState(id: string)
      requires Valid()
      requires id in saved
      modifies this
      ensures Valid()
      ensures LoadedPlayState(id)
    {
      var state := GetSavedPlayState(id);
      var _ := PlayMedia(state.value.media, SeekChain(state.value));
    }

    /**
     * The device answers request i: the request leaves `pending` and its
     * continuation runs — it issues the next request of its chain, or
     * refines the saved slot with the polled track and time.
     */
    method Complete(i: nat, answer: SonosApiState)
      requires Valid()
      requires i < |pending|
      modifies this
      ensures Valid()
      ensures currentPlayingMedia == old(currentPlayingMedia)
      ensures var rest := old(pending[..i] + pending[i + 1..]);
        match old(pending[i].onAnswer)
        case Nothing =>
          && config == old(config) && configFetches == old(configFetches)
          && saved == old(saved) && sent == old(sent) && pending == rest
        case Send(p, next) =>
          && ConfigLoaded() && saved == old(saved)
          && sent == old(sent) + [RequestUrl(endpoint, p)]
          && pending == rest + [Request(RequestUrl(endpoint, p), next)]
        case RefineSave(slot) =>
          && config == old(config) && configFetches == old(configFetches)
          && saved == Store(old(saved), SaveState(slot, old(currentPlayingMedia).value, answer.trackNo, answer.elapsedTime))
          && sent == old(sent) && pending == rest
    {
      var request := pending[i];
      pending := pending[..i] + pending[i + 1..];
      match request.onAnswer
      case Nothing =>
      case Send(p, next) =>
        SendRequest(p, next);
      case RefineSave(slot) =>
        SetSavedPlayState(SaveState(slot, currentPlayingMedia.value, answer.trackNo, answer.elapsedTime));
    }

    /** Request i fails: there is no error handler, so its continuation never runs and its chain stops. */
    method Fail(i: nat)
      requires Valid()
      requires i < |pending|
      modifies this
      ensures Valid()
      ensures pending == old(pending[..i] + pending[i + 1..])
      ensures config == old(config) && configFetches == old(configFetches)
      ensures currentPlayingMedia == old(currentPlayingMedia) && saved == old(saved) && sent == old(sent)
    {
      pending := pending[..i] + pending[i + 1..];
    }
  }

  // ---------------------------------------------------------------------------
  // Two runs against a device that answers every request in turn

  /**
   * loadPlayState followed by the device answering each request as it comes:
   * exactly clearqueue, the play path, the track seek and the time seek go
   * out, in that order, and nothing is left waiting.
   */
  method LoadAndAnswer(service: PlayerService, id: string, answer: SonosApiState)
    requires service.Valid() && id in service.saved && service.pending == []
    modifies service
    ensures service.Valid() && service.pending == [] && service.saved == old(service.saved)
    ensures var state := old(service.saved)[id];
      service.sent == old(service.sent) + [
        RequestUrl(service.endpoint, ClearQueue.Path()),
        RequestUrl(service.endpoint, JsText(Resolve(state.media).path)),
        RequestUrl(service.endpoint, TrackseekPath(state.trackNo)),
        RequestUrl(service.endpoint, TimeseekPath(state.elapsedTime))]
  {
    var state := service.saved[id];
    var play, track, time := JsText(Resolve(state.media).path), TrackseekPath(state.trackNo), TimeseekPath(state.elapsedTime);
    service.LoadPlayState(id);
    assert service.pending == [Request(RequestUrl(service.endpoint, ClearQueue.Path()), Send(play, SeekChain(state)))];
    assert SeekChain(state) == Send(track, Send(time, Nothing));
    AnswerChain(service, answer, play, track, time);
  }

  /** The device answers a pending request continued by three commands, and each of those in turn. */
  method AnswerChain(service: PlayerService, answer: SonosApiState, a: string, b: string, c: string)
    requires service.Valid() && |service.pending| == 1
    requires service.pending[0].onAnswer == Send(a, Send(b, Send(c, Nothing)))
    modifies service
    ensures service.Valid() && service.saved == old(service.saved) && service.pending == []
    ensures service.sent == old(service.sent) + [RequestUrl(service.endpoint, a), RequestUrl(service.endpoint, b), RequestUrl(service.endpoint, c)]
  {
    assert !Refines(Send(c, Nothing));
    AnswerSend(service, answer, a, Send(b, Send(c, Nothing)));
    AnswerSend(service, answer, b, Send(c, Nothing));
    AnswerSend(service, answer, c, Nothing);
    AnswerLast(service, answer);
  }

  /** The device answers the only pending request, whose continuation issues nothing. */
  method AnswerLast(service: PlayerService, answer: SonosApiState)
    requires service.Valid() && |service.pending| == 1 && service.pending[0].onAnswer == Nothing
    modifies service
    ensures service.Valid() && service.saved == old(service.saved)
    ensures service.sent == old(service.sent) && service.pending == []
  {
    service.Complete(0, answer);
  }

  /** The device answers the only pending request, whose continuation issues path and then waits for next. */
  method AnswerSend(service: PlayerService, answer: SonosApiState, path: string, next: Then)
    requires service.Valid() && |service.pending| == 1
    requires service.pending[0].onAnswer == Send(path, next) && !Refines(next)
    modifies service
    ensures service.Valid() && service.saved == old(service.saved)
    ensures service.sent == old(service.sent) + [RequestUrl(service.endpoint, path)]
    ensures service.pending == [Request(RequestUrl(service.endpoint, path), next)]
  {
    service.Complete(0, answer);
  }

  /**
   * savePlayState followed by the answer to its state poll: right after the
   * save the slot holds track 1 at time 0; after the answer it holds the
   * polled track and time, with the same media.
   */
  method SaveAndAnswer(service: PlayerService, id: string, answer: SonosApiState) returns (early: Option<SaveState>)
    requires service.Valid() && service.currentPlayingMedia.Some? && service.pending == []
    modifies service
    ensures service.Valid() && service.pending == []
    ensures var media := old(service.currentPlayingMedia).value;
      && early == Some(SaveState(id, media, 1, 0))
      && Lookup(service.saved, id) == Some(SaveState(id, media, answer.trackNo, answer.elapsedTime))
      && forall slot :: slot != id ==> Lookup(service.saved, slot) == Lookup(old(service.saved), slot)
  {
    service.SavePlayState(id);
    early := service.GetSavedPlayState(id);
    service.Complete(0, answer);
  }
}
