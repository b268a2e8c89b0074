/** Verse-by-verse audio playback: the active verse, the playing flag, the
    chapter's verse list and the source loaded into the single audio element
    (App.tsx:30, 36, 65), with the transitions that change them. */
module Playback {
  import opened Types

  /** The global number of the active verse; `activeAyah?.number` is
      `undefined` when no verse is active. */
  function ActiveNumber(active: Option<Ayah>): Option<int> {
    match active
    case Some(a) => Some(a.number)
    case None => None
  }

  /** `a.number === key`: never true when the key is `undefined`. */
  predicate HasNumber(a: Ayah, key: Option<int>) {
    key.Some? && a.number == key.value
  }

  /** `verses.findIndex(a => a.number === key)`: the first position holding the
      key, or -1 when there is none. */
  function FindIndex(verses: seq<Ayah>, key: Option<int>): (r: int)
    ensures -1 <= r < |verses|
    ensures r == -1 <==> forall k :: 0 <= k < |verses| ==> !HasNumber(verses[k], key)
    ensures r >= 0 ==> HasNumber(verses[r], key) && forall k :: 0 <= k < r ==> !HasNumber(verses[k], key)
    decreases |verses|
  {
    if |verses| == 0 then -1
    else if HasNumber(verses[0], key) then 0
    else
      var i := FindIndex(verses[1..], key);
      if i == -1 then -1 else i + 1
  }

  /** Verse numbers are unique across the text, so within a chapter the search
      finds the very position a verse sits at. */
  lemma FindIndexOfUniqueNumber(verses: seq<Ayah>, i: int)
    requires 0 <= i < |verses|
    requires forall j, k :: 0 <= j < k < |verses| ==> verses[j].number != verses[k].number
    ensures FindIndex(verses, Some(verses[i].number)) == i
  {
    var r := FindIndex(verses, Some(verses[i].number));
    assert r != -1 by {
      assert HasNumber(verses[i], Some(verses[i].number));
    }
  }

  /** Whether the audio element must load a new source: only while a verse is
      active and playing, and only when its locator differs from the loaded one. */
  predicate NeedsReload(src: string, active: Option<Ayah>, playing: bool) {
    active.Some? && playing && src != active.value.audio
  }

  class Player {
    var verses: seq<Ayah>      // surahContent
    var active: Option<Ayah>   // activeAyah
    var playing: bool          // isPlaying
    var src: string            // audioRef.current.src
    ghost var loads: nat       // how many times a new source has been loaded

    /** A fresh element has no source and nothing is active. */
    constructor ()
      ensures verses == [] && active == None && !playing && src == "" && loads == 0
    {
      verses, active, playing, src := [], None, false, "";
      loads := 0;
    }

    /** `togglePlay`: pauses when the given verse is the active one (same global
        number) and audio is playing; otherwise makes it active and plays. */
    method TogglePlay(ayah: Ayah)
      modifies this
      ensures verses == old(verses) && src == old(src) && loads == old(loads)
      ensures HasNumber(ayah, ActiveNumber(old(active))) && old(playing) ==>
                active == old(active) && !playing
      ensures !(HasNumber(ayah, ActiveNumber(old(active))) && old(playing)) ==>
                active == Some(ayah) && playing
    {
      if active.Some? && active.value.number == ayah.number && playing {
        playing := false;
      } else {
        active := Some(ayah);
        playing := true;
      }
    }

    /** Clicking a verse in the text selects it and pauses. */
    method SelectVerse(ayah: Ayah)
      modifies this
      ensures verses == old(verses) && src == old(src) && loads == old(loads)
      ensures active == Some(ayah) && !playing
    {
      active := Some(ayah);
      playing := false;
    }

    /** Making a verse active without touching playback, as the study tools do. */
    method SetActive(ayah: Ayah)
      modifies this
      ensures verses == old(verses) && src == old(src) && loads == old(loads)
      ensures active == Some(ayah) && playing == old(playing)
    {
      active := Some(ayah);
    }

    /** The 'ended' handler: finds the active verse by its global number in
        the chapter and moves to the next verse when it is found and is not the
        last; otherwise playback stops and the active verse stays. */
    method AudioEnded()
      modifies this
      ensures verses == old(verses) && src == old(src) && loads == old(loads)
      ensures var i := FindIndex(verses, ActiveNumber(old(active)));
              if i != -1 && i < |verses| - 1
              then active == Some(verses[i + 1]) && playing == old(playing)
              else active == old(active) && !playing
    {
      var i := FindIndex(verses, ActiveNumber(active));
      if i != -1 && i < |verses| - 1 {
        active := Some(verses[i + 1]);
      } else {
        playing := false;
      }
    }

    /** The effect run after the active verse or the playing flag changes:
        while a verse is active and playing, the element is pointed at its
        audio, loading it only when the locator differs from the loaded one. */
    method SyncAudio()
      modifies this
      ensures verses == old(verses) && active == old(active) && playing == old(playing)
      ensures NeedsReload(old(src), active, playing) ==> src == active.value.audio && loads == old(loads) + 1
      ensures !NeedsReload(old(src), active, playing) ==> src == old(src) && loads == old(loads)
      ensures !NeedsReload(src, active, playing)
    {
      if active.Some? && playing {
        if src != active.value.audio {
          src := active.value.audio;
          loads := loads + 1;
        }
      }
    }

    /** The element refused to play: the playing flag is cleared. */
    method PlayRejected()
      modifies this
      ensures verses == old(verses) && active == old(active) && src == old(src) && loads == old(loads)
      ensures !playing
    {
      playing := false;
    }

    /** Opening a chapter first clears the active verse and stops the audio. */
    method StopForLoad()
      modifies this
      ensures verses == old(verses) && src == old(src) && loads == old(loads)
      ensures active == None && !playing
    {
      active := None;
      playing := false;
    }

    /** The chapter's verses arrived and become the list playback walks through. */
    method ContentLoaded(ayahs: seq<Ayah>)
      modifies this
      ensures active == old(active) && playing == old(playing) && src == old(src) && loads == old(loads)
      ensures verses == ayahs
    {
      verses := ayahs;
    }
  }

  /** Playing through a five-verse chapter: when the third verse ends the fourth
      becomes active and keeps playing; when the last one ends playback stops
      and the last verse stays active. */
  method PlayThroughChapter(vs: seq<Ayah>)
    returns (afterThird: Option<Ayah>, playingAfterThird: bool, afterLast: Option<Ayah>, playingAfterLast: bool)
    requires |vs| == 5
    requires forall j, k :: 0 <= j < k < |vs| ==> vs[j].number != vs[k].number
    ensures afterThird == Some(vs[3]) && playingAfterThird
    ensures afterLast == Some(vs[4]) && !playingAfterLast
  {
    var player := new Player();
    player.ContentLoaded(vs);
    player.TogglePlay(vs[2]);
    player.SyncAudio();
    FindIndexOfUniqueNumber(vs, 2);
    player.AudioEnded();
    afterThird, playingAfterThird := player.active, player.playing;
    player.TogglePlay(vs[4]);
    FindIndexOfUniqueNumber(vs, 4);
    player.AudioEnded();
    afterLast, playingAfterLast := player.active, player.playing;
  }
}
