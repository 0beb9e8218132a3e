/**
 * The key capture of the app shell (src/app/app.component.ts): a card reader
 * that types like a keyboard enters a card's digits followed by Enter; the
 * digits collect in `uuid`, and Enter opens the player for the media with
 * that uuid.
 */
module App {
  import opened Wrappers
  import Numbers
  import Player
  import Pages

  const EnterKey := "Enter"

  /** The keys '0' to '9'. */
  predicate IsDigitKey(key: string) {
    |key| == 1 && Numbers.IsDigit(key[0])
  }

  /** The buffer after one key, and the navigation that key triggers, if any. */
  datatype KeyOutcome = KeyOutcome(uuid: string, navigation: Option<Pages.NavState>)

  /**
   * keyEvent on the buffer. `lookup` is the media service's lookup by uuid and
   * `isExternControlled` the player's answer, both taken as inputs.
   */
  function KeyStep(uuid: string, key: string, isExternControlled: bool, lookup: string -> Option<Player.Media>): (r: KeyOutcome)
    ensures IsDigitKey(key) ==> r == KeyOutcome(uuid + key, None)
    ensures key != EnterKey && !IsDigitKey(key) ==> r == KeyOutcome("", None)
    ensures key == EnterKey && lookup(uuid).Some? ==>
      r == KeyOutcome("", Some(Pages.NavState(isExternControlled, lookup(uuid), None)))
    ensures key == EnterKey && lookup(uuid).None? ==> r == KeyOutcome(uuid, None)
    ensures r.navigation.Some? <==> key == EnterKey && lookup(uuid).Some?
  {
    if key == EnterKey then
      match lookup(uuid)
      case Some(media) => KeyOutcome("", Some(Pages.NavState(isExternControlled, Some(media), None)))
      case None => KeyOutcome(uuid, None)
    else if IsDigitKey(key) then KeyOutcome(uuid + key, None)
    else KeyOutcome("", None)
  }

  /** Enter never lengthens the buffer. */
  lemma EnterNeverAppends(uuid: string, isExternControlled: bool, lookup: string -> Option<Player.Media>)
    ensures KeyStep(uuid, EnterKey, isExternControlled, lookup).uuid in {uuid, ""}
  {
  }

  /** The buffer after a run of keys. */
  function Typed(uuid: string, keys: seq<string>, isExternControlled: bool, lookup: string -> Option<Player.Media>): string
    decreases |keys|
  {
    if keys == [] then uuid
    else KeyStep(Typed(uuid, keys[..|keys| - 1], isExternControlled, lookup), keys[|keys| - 1], isExternControlled, lookup).uuid
  }

  predicate AllDigitKeys(keys: seq<string>) {
    forall i :: 0 <= i < |keys| ==> IsDigitKey(keys[i])
  }

  /** The digits typed since the last key that was not a digit. */
  function TrailingDigits(keys: seq<string>): string
    decreases |keys|
  {
    if keys == [] || !IsDigitKey(keys[|keys| - 1]) then ""
    else TrailingDigits(keys[..|keys| - 1]) + keys[|keys| - 1]
  }

  /** Typing never puts anything but digits into a buffer of digits. */
  lemma {:induction false} TypedStaysDigits(uuid: string, keys: seq<string>, isExternControlled: bool, lookup: string -> Option<Player.Media>)
    requires Numbers.AllDigits(uuid)
    ensures Numbers.AllDigits(Typed(uuid, keys, isExternControlled, lookup))
  {
    if keys != [] {
      var before := Typed(uuid, keys[..|keys| - 1], isExternControlled, lookup);
      TypedStaysDigits(uuid, keys[..|keys| - 1], isExternControlled, lookup);
      var key := keys[|keys| - 1];
      if IsDigitKey(key) {
        var after := before + key;
        assert forall i :: 0 <= i < |after| ==> Numbers.IsDigit(after[i]) by {
          forall i | 0 <= i < |after| ensures Numbers.IsDigit(after[i]) {
            if i < |before| { assert after[i] == before[i]; } else { assert after[i] == key[0]; }
          }
        }
      }
    }
  }

  /** A run of keys is all digits exactly when its first part is and its last key is a digit. */
  lemma AllDigitKeysSnoc(init: seq<string>, key: string)
    ensures AllDigitKeys(init + [key]) == (AllDigitKeys(init) && IsDigitKey(key))
  {
    var keys := init + [key];
    assert keys[|init|] == key;
    if AllDigitKeys(init) && IsDigitKey(key) {
      forall i | 0 <= i < |keys| ensures IsDigitKey(keys[i]) {
        if i < |init| { assert keys[i] == init[i]; }
      }
    }
    if AllDigitKeys(keys) {
      forall i | 0 <= i < |init| ensures IsDigitKey(init[i]) {
        assert init[i] == keys[i];
      }
    }
  }

  /**
   * Without Enter, the buffer holds exactly the digits typed since the last
   * other key; when every key was a digit, they follow what it held before.
   */
  lemma {:induction false} TypedWithoutEnter(uuid: string, keys: seq<string>, isExternControlled: bool, lookup: string -> Option<Player.Media>)
    requires forall i :: 0 <= i < |keys| ==> keys[i] != EnterKey
    ensures Typed(uuid, keys, isExternControlled, lookup)
         == (if AllDigitKeys(keys) then uuid else "") + TrailingDigits(keys)
  {
    if keys != [] {
      var init := keys[..|keys| - 1];
      var key := keys[|keys| - 1];
      assert keys == init + [key];
      TypedWithoutEnter(uuid, init, isExternControlled, lookup);
      AllDigitKeysSnoc(init, key);
      var before := Typed(uuid, init, isExternControlled, lookup);
      assert key != EnterKey;
      if IsDigitKey(key) {
        var head := if AllDigitKeys(init) then uuid else "";
        assert KeyStep(before, key, isExternControlled, lookup).uuid == before + key;
        assert TrailingDigits(keys) == TrailingDigits(init) + key;
        assert (head + TrailingDigits(init)) + key == head + (TrailingDigits(init) + key);
      } else {
        assert KeyStep(before, key, isExternControlled, lookup).uuid == "";
      }
    }
  }

  class AppComponent {
    var uuid: string
    /** The navigations to '/player' issued so far, with the state they carry. */
    var navigations: seq<Pages.NavState>

    ghost predicate Valid()
      reads this
    {
      Numbers.AllDigits(uuid)
    }

    constructor ()
      ensures Valid() && uuid == "" && navigations == []
    {
      uuid := "";
      navigations := [];
    }

    /**
     * keyup: a digit is appended, Enter opens the player for the media found
     * under the buffer (emptying it), any other key empties the buffer.
     */
    method KeyEvent(key: string, isExternControlled: bool, lookup: string -> Option<Player.Media>)
      requires Valid()
      modifies this
      ensures Valid()
      ensures var r := KeyStep(old(uuid), key, isExternControlled, lookup);
        && uuid == r.uuid
        && navigations == old(navigations) + (if r.navigation.Some? then [r.navigation.value] else [])
    {
      if key == EnterKey {
        var media := lookup(uuid);
        if media.Some? {
          uuid := "";
          navigations := navigations + [Pages.NavState(isExternControlled, media, None)];
        }
      } else if IsDigitKey(key) {
        uuid := uuid + key;
        assert forall i :: 0 <= i < |uuid| ==> Numbers.IsDigit(uuid[i]) by {
          forall i | 0 <= i < |uuid| ensures Numbers.IsDigit(uuid[i]) {
            if i < |old(uuid)| { assert uuid[i] == old(uuid)[i]; }
          }
        }
      } else {
        uuid := "";
      }
    }
  }
}
