/**
 * The player page (src/app/player/player.page.ts): it picks what to play from
 * the navigation state it is opened with, starts or restores playback when it
 * is entered, pauses when it is left, and forwards the transport buttons.
 */
module Pages {
  import opened Wrappers
  import Player

  /** The state a navigation to the player page carries; absent fields are None or false. */
  datatype NavState = NavState(isExternControlled: bool, media: Option<Player.Media>, loadSavedPlayStateId: Option<string>)

  /** The page's initial `{ type: '' }`. */
  const BlankMedia := Player.Media("", None, None, None)
  /** The placeholder `{ title: '', type: 'extern' }` shown while something else drives the player. */
  const ExternMedia := Player.Media("extern", None, Some(""), None)

  /** `getSavedPlayState(id)?.media`. */
  function SavedMedia(store: map<string, Player.SaveState>, id: string): Option<Player.Media> {
    match Player.Lookup(store, id)
    case Some(state) => Some(state.media)
    case None => None
  }

  /** The media the constructor settles on for a non-external navigation. */
  function ChosenMedia(nav: NavState, store: map<string, Player.SaveState>): (m: Option<Player.Media>)
    ensures nav.media.Some? ==> m == nav.media
    ensures nav.media.None? && Player.Truthy(nav.loadSavedPlayStateId) && nav.loadSavedPlayStateId.value in store
      ==> m == Some(store[nav.loadSavedPlayStateId.value].media)
    ensures m.Some? ==> nav.media.Some? || (Player.Truthy(nav.loadSavedPlayStateId) && nav.loadSavedPlayStateId.value in store)
  {
    if Player.Truthy(nav.loadSavedPlayStateId) && nav.media.None?
    then SavedMedia(store, nav.loadSavedPlayStateId.value)
    else nav.media
  }

  class PlayerPage {
    const service: Player.PlayerService
    var media: Option<Player.Media>
    var playing: bool
    var loadSavedPlayStateId: Option<string>
    var isExternControlled: bool

    ghost predicate Valid()
      reads this, service
    {
      service.Valid()
    }

    /** Whether entering the page restores a saved slot. */
    predicate LoadsSlot()
      reads this
    {
      !isExternControlled && Player.Truthy(loadSavedPlayStateId)
    }

    /**
     * The state selection of the constructor: an externally controlled
     * navigation shows the placeholder and ignores the rest; otherwise the
     * media and the slot id are taken over, the slot's media standing in
     * when no media was passed.
     */
    constructor (service: Player.PlayerService, nav: Option<NavState>)
      requires service.Valid()
      ensures Valid() && this.service == service && playing
      ensures nav.None? ==>
        media == Some(BlankMedia) && loadSavedPlayStateId.None? && !isExternControlled
      ensures nav.Some? && nav.value.isExternControlled ==>
        isExternControlled && media == Some(ExternMedia) && loadSavedPlayStateId.None?
      ensures nav.Some? && !nav.value.isExternControlled ==>
        && !isExternControlled
        && loadSavedPlayStateId == nav.value.loadSavedPlayStateId
        && media == ChosenMedia(nav.value, service.saved)
    {
      var extern, slot, chosen := false, None, Some(BlankMedia);
      if nav.Some? {
        if nav.value.isExternControlled {
          extern := true;
          chosen := Some(ExternMedia);
        } else {
          chosen := nav.value.media;
          slot := nav.value.loadSavedPlayStateId;
          if Player.Truthy(slot) && chosen.None? && !extern {
            var state := service.GetSavedPlayState(slot.value);
            chosen := if state.Some? then Some(state.value.media) else None;
          }
        }
      }
      this.service := service;
      playing := true;
      isExternControlled := extern;
      loadSavedPlayStateId := slot;
      media := chosen;
    }

    /**
     * ionViewWillEnter: nothing when externally controlled; otherwise restore
     * the saved slot if there is one, else play the page's media if any.
     */
    method IonViewWillEnter()
      requires Valid()
      requires LoadsSlot() ==> loadSavedPlayStateId.value in service.saved
      modifies this, service
      ensures Valid()
      ensures playing == old(playing) && isExternControlled == old(isExternControlled)
      ensures loadSavedPlayStateId == old(loadSavedPlayStateId)
      ensures isExternControlled ==> media == old(media) && unchanged(service)
      ensures LoadsSlot() ==> media == old(media) && service.LoadedPlayState(loadSavedPlayStateId.value)
      ensures !isExternControlled && !LoadsSlot() && old(media).Some? ==>
        media == Some(Player.Resolve(old(media).value).media) && service.PlayedMedia(old(media).value, Player.Nothing)
      ensures !isExternControlled && !LoadsSlot() && old(media).None? ==> media == old(media) && unchanged(service)
    {
      if !isExternControlled {
        if Player.Truthy(loadSavedPlayStateId) {
          service.LoadPlayState(loadSavedPlayStateId.value);
        } else if media.Some? {
          var updated := service.PlayMedia(media.value, Player.Nothing);
          media := Some(updated);
        }
      }
    }

    /** ionViewWillLeave: pause, unless something else drives the player. */
    method IonViewWillLeave()
      requires Valid()
      modifies service
      ensures Valid()
      ensures !isExternControlled ==> service.IssuedOne(Player.PlayerCmd.Pause.Path(), Player.Nothing)
      ensures isExternControlled ==> unchanged(service)
    {
      if !isExternControlled {
        service.SendCmd(Player.PlayerCmd.Pause, Player.Nothing);
      }
    }

    method VolUp()
      requires Valid()
      modifies service
      ensures Valid() && service.IssuedOne(Player.PlayerCmd.VolumeUp.Path(), Player.Nothing)
    {
      service.SendCmd(Player.PlayerCmd.VolumeUp, Player.Nothing);
    }

    method VolDown()
      requires Valid()
      modifies service
      ensures Valid() && service.IssuedOne(Player.PlayerCmd.VolumeDown.Path(), Player.Nothing)
    {
      service.SendCmd(Player.PlayerCmd.VolumeDown, Player.Nothing);
    }

    method SkipPrev()
      requires Valid()
      modifies service
      ensures Valid() && service.IssuedOne(Player.PlayerCmd.Previous.Path(), Player.Nothing)
    {
      service.SendCmd(Player.PlayerCmd.Previous, Player.Nothing);
    }

    method SkipNext()
      requires Valid()
      modifies service
      ensures Valid() && service.IssuedOne(Player.PlayerCmd.Next.Path(), Player.Nothing)
    {
      service.SendCmd(Player.PlayerCmd.Next, Player.Nothing);
    }

    /** playPause: flips `playing` and sends pause when it was playing, play when it was not. */
    method PlayPause()
      requires Valid()
      modifies this`playing, service
      ensures Valid()
      ensures playing == !old(playing)
      ensures service.IssuedOne(if old(playing) then Player.PlayerCmd.Pause.Path() else Player.PlayerCmd.Play.Path(), Player.Nothing)
    {
      if playing {
        playing := false;
        service.SendCmd(Player.PlayerCmd.Pause, Player.Nothing);
      } else {
        playing := true;
        service.SendCmd(Player.PlayerCmd.Play, Player.Nothing);
      }
    }

    /** savePlayState: forwards to the service, in the slot given (the no-argument call passes Player.DefaultSlot). */
    method SavePlayState(id: string)
      requires Valid()
      modifies service
      ensures Valid() && service.SavedPlayState(id)
    {
      service.SavePlayState(id);
    }
  }
}
