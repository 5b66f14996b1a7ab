// The interaction controller of the greeting page: the component's state
// (its useState and useRef values) as the fields of a class, each event
// handler and each delayed callback as a method.
//
// A callback handed to setTimeout or setInterval is recorded, in the field
// for its kind, when it is scheduled; the method that models the callback
// may be called later, once per pending entry, and consumes that entry.
// Time itself is not modelled, only which callbacks are still pending.
module Interaction {
  import opened Sections
  import opened Butterflies

  /** Scroll offset, in pixels, above which the floating hearts appear. */
  const ScrollThreshold: int := 100
  /** Volume is kept in hundredths: the fade-in adds 0.05 per tick up to 0.7. */
  const FadeStep: int := 5
  const FadeCeiling: int := 70
  /** Volume of a fresh audio element (1.0). */
  const DefaultVolume: int := 100

  function Min(a: int, b: int): int
  {
    if a < b then a else b
  }

  /**
   * Butterfly ids are handed out in increasing order and never reused, and
   * the pending removals are exactly the live butterflies' ids, in order:
   * every live butterfly has exactly one, and nothing else has one.
   */
  ghost predicate ButterfliesTracked(bs: seq<Butterfly>, counter: nat, expiries: seq<nat>)
  {
    && IncreasingIds(bs)
    && IdsBelow(bs, counter)
    && expiries == Ids(bs)
  }

  /**
   * A transition is in flight exactly while its 1200 ms callback is pending,
   * there is at most one, and its 400 ms callback is pending only with it.
   */
  ghost predicate TransitionTracked(isTransitioning: bool, pageTurns: multiset<Section>, ends: nat)
  {
    && ends == (if isTransitioning then 1 else 0)
    && |pageTurns| <= ends
  }

  /**
   * Playback is only scheduled once the popup is gone, by its one dismissing
   * click, which runs the handler at most twice; each scheduled start is
   * still pending or has started at most one fade-in, and the volume is in range.
   */
  ghost predicate MusicTracked(showPopup: bool, volume: int, starts: nat, scheduled: nat, fades: multiset<nat>)
  {
    && (showPopup ==> scheduled == 0)
    && scheduled <= 2
    && |fades| + starts <= scheduled
    && 0 <= volume <= DefaultVolume
  }

  class App {
    var isPlaying: bool
    var showFloatingHearts: bool
    var showPopup: bool
    var currentSection: Section
    var isTransitioning: bool
    var butterflies: seq<Butterfly>
    /** The butterfly id counter (a ref, not state). */
    var nextButterflyId: nat
    /** Whether the audio element ref is set. */
    const hasAudio: bool
    /** The audio element's volume, in hundredths. */
    var volume: int
    /** Pending 400 ms navigation callbacks, by target section. */
    ghost var pendingPageTurns: multiset<Section>
    /** Pending 1200 ms navigation callbacks. */
    ghost var pendingTransitionEnds: nat
    /** Pending 4000 ms removals, by butterfly id, in the order they were scheduled. */
    ghost var pendingExpiries: seq<nat>
    /** Pending 300 ms playback starts. */
    ghost var pendingMusicStarts: nat
    /** Playback starts scheduled so far, pending or already run. */
    ghost var scheduledMusicStarts: nat
    /** Running 100 ms fade-in intervals, by the volume each has accumulated. */
    ghost var fadeIntervals: multiset<nat>
    /** Play and pause requests sent to the audio element. */
    ghost var playRequests: nat
    ghost var pauseRequests: nat

    ghost predicate Valid()
      reads this
    {
      && ButterfliesTracked(butterflies, nextButterflyId, pendingExpiries)
      && TransitionTracked(isTransitioning, pendingPageTurns, pendingTransitionEnds)
      && MusicTracked(showPopup, volume, pendingMusicStarts, scheduledMusicStarts, fadeIntervals)
    }

    /** The component's initial state; `hasAudio` says whether the audio element is mounted. */
    constructor (hasAudio: bool)
      ensures Valid()
      ensures !isPlaying && !showFloatingHearts && showPopup
      ensures currentSection == Hero && !isTransitioning
      ensures butterflies == [] && nextButterflyId == 0
      ensures this.hasAudio == hasAudio && volume == DefaultVolume
      ensures pendingPageTurns == multiset{} && pendingTransitionEnds == 0
      ensures pendingExpiries == [] && pendingMusicStarts == 0 && scheduledMusicStarts == 0
      ensures fadeIntervals == multiset{}
      ensures playRequests == 0 && pauseRequests == 0
    {
      isPlaying := false;
      showFloatingHearts := false;
      showPopup := true;
      currentSection := Hero;
      isTransitioning := false;
      butterflies := [];
      nextButterflyId := 0;
      this.hasAudio := hasAudio;
      volume := DefaultVolume;
      pendingPageTurns := multiset{};
      pendingTransitionEnds := 0;
      pendingExpiries := [];
      pendingMusicStarts := 0;
      scheduledMusicStarts := 0;
      fadeIntervals := multiset{};
      playRequests := 0;
      pauseRequests := 0;
    }

    /** Window scroll: a one-way latch on the floating hearts. */
    method Scroll(scrollY: int)
      requires Valid()
      modifies this`showFloatingHearts
      ensures Valid()
      ensures showFloatingHearts == (old(showFloatingHearts) || scrollY > ScrollThreshold)
    {
      if scrollY > ScrollThreshold {
        showFloatingHearts := true;
      }
    }

    /**
     * A click on the popup overlay, outside its content: the handler hides the
     * popup and schedules playback 300 ms later. The popup is only rendered
     * while `showPopup` holds, so only a visible popup can be clicked.
     */
    method PopupClick()
      requires Valid() && showPopup
      modifies this`showPopup, this`pendingMusicStarts, this`scheduledMusicStarts
      ensures Valid()
      ensures !showPopup
      ensures pendingMusicStarts == 1 && scheduledMusicStarts == 1
    {
      showPopup := false;
      pendingMusicStarts := pendingMusicStarts + 1;
      scheduledMusicStarts := scheduledMusicStarts + 1;
    }

    /**
     * A click on the popup content: the content and the overlay beneath it both
     * carry the handler, so the bubbling click runs it twice.
     */
    method PopupContentClick()
      requires Valid() && showPopup
      modifies this`showPopup, this`pendingMusicStarts, this`scheduledMusicStarts
      ensures Valid()
      ensures !showPopup
      ensures pendingMusicStarts == 2 && scheduledMusicStarts == 2
    {
      // The content's own handler.
      showPopup := false;
      pendingMusicStarts := pendingMusicStarts + 1;
      scheduledMusicStarts := scheduledMusicStarts + 1;
      // The overlay's handler, as the same click bubbles up before the popup is re-rendered away.
      showPopup := false;
      pendingMusicStarts := pendingMusicStarts + 1;
      scheduledMusicStarts := scheduledMusicStarts + 1;
    }

    /**
     * The 300 ms callback after the popup: with an audio element, it mutes it,
     * requests playback, sets `isPlaying` whatever the outcome of that request,
     * and starts a fade-in interval.
     */
    method StartMusicCallback()
      requires Valid() && pendingMusicStarts > 0
      modifies this`pendingMusicStarts, this`fadeIntervals, this`volume, this`isPlaying, this`playRequests
      ensures Valid()
      ensures pendingMusicStarts == old(pendingMusicStarts) - 1
      ensures hasAudio ==> volume == 0 && isPlaying && playRequests == old(playRequests) + 1
      ensures hasAudio ==> fadeIntervals == old(fadeIntervals) + multiset{0}
      ensures !hasAudio ==> volume == old(volume) && isPlaying == old(isPlaying)
      ensures !hasAudio ==> playRequests == old(playRequests) && fadeIntervals == old(fadeIntervals)
    {
      pendingMusicStarts := pendingMusicStarts - 1;
      if hasAudio {
        volume := 0;
        playRequests := playRequests + 1;
        isPlaying := true;
        fadeIntervals := fadeIntervals + multiset{0};
      }
    }

    /**
     * One tick of a fade-in interval whose accumulator is `acc`: below the
     * ceiling it raises the accumulator by one step and applies it to the audio
     * element capped at the ceiling; otherwise the interval clears itself.
     */
    method FadeInTick(acc: nat)
      requires Valid() && acc in fadeIntervals
      modifies this`fadeIntervals, this`volume
      ensures Valid()
      ensures acc < FadeCeiling ==> fadeIntervals == old(fadeIntervals) - multiset{acc} + multiset{acc + FadeStep}
      ensures acc < FadeCeiling ==> volume == if hasAudio then Min(acc + FadeStep, FadeCeiling) else old(volume)
      ensures acc < FadeCeiling && hasAudio ==> volume <= FadeCeiling
      ensures FadeCeiling <= acc ==> fadeIntervals == old(fadeIntervals) - multiset{acc} && volume == old(volume)
    {
      if acc < FadeCeiling {
        var next := acc + FadeStep;
        fadeIntervals := fadeIntervals - multiset{acc} + multiset{next};
        if hasAudio {
          volume := Min(next, FadeCeiling);
        }
      } else {
        fadeIntervals := fadeIntervals - multiset{acc};
      }
    }

    /**
     * The music button: with an audio element, pauses or requests playback and
     * flips `isPlaying` whatever the outcome of the request; otherwise nothing.
     */
    method ToggleMusic()
      requires Valid()
      modifies this`isPlaying, this`playRequests, this`pauseRequests
      ensures Valid()
      ensures isPlaying == (old(isPlaying) != hasAudio)
      ensures pauseRequests == old(pauseRequests) + (if hasAudio && old(isPlaying) then 1 else 0)
      ensures playRequests == old(playRequests) + (if hasAudio && !old(isPlaying) then 1 else 0)
    {
      if hasAudio {
        if isPlaying {
          pauseRequests := pauseRequests + 1;
        } else {
          playRequests := playRequests + 1;
        }
        isPlaying := !isPlaying;
      }
    }

    /**
     * Starts a page-turn transition to `section` unless one is in flight:
     * raises `isTransitioning` and schedules the 400 ms and 1200 ms callbacks.
     */
    method NavigateToSection(section: Section)
      requires Valid()
      modifies this`isTransitioning, this`pendingPageTurns, this`pendingTransitionEnds
      ensures Valid()
      ensures isTransitioning && currentSection == old(currentSection)
      ensures old(isTransitioning) ==>
        pendingPageTurns == old(pendingPageTurns) && pendingTransitionEnds == old(pendingTransitionEnds)
      ensures !old(isTransitioning) ==>
        pendingPageTurns == old(pendingPageTurns) + multiset{section} && pendingTransitionEnds == 1
    {
      if isTransitioning {
        return;
      }
      isTransitioning := true;
      pendingPageTurns := pendingPageTurns + multiset{section};
      pendingTransitionEnds := pendingTransitionEnds + 1;
    }

    /** The 400 ms navigation callback: shows the target section, mid-transition. */
    method TurnPageCallback(section: Section)
      requires Valid() && section in pendingPageTurns
      modifies this`currentSection, this`pendingPageTurns
      ensures Valid()
      ensures currentSection == section && isTransitioning
      ensures pendingPageTurns == old(pendingPageTurns) - multiset{section}
    {
      currentSection := section;
      pendingPageTurns := pendingPageTurns - multiset{section};
    }

    /**
     * The 1200 ms navigation callback: ends the transition. Both callbacks of a
     * navigation are scheduled together, so the 400 ms one has already run.
     */
    method EndTransitionCallback()
      requires Valid() && pendingTransitionEnds > 0 && |pendingPageTurns| == 0
      modifies this`isTransitioning, this`pendingTransitionEnds
      ensures Valid()
      ensures !isTransitioning && pendingTransitionEnds == 0
    {
      isTransitioning := false;
      pendingTransitionEnds := pendingTransitionEnds - 1;
    }

    /**
     * A click anywhere in the document at (`x`, `y`), with `random` the draw of
     * `Math.random()`: unless the popup is showing or the target is inside a
     * button, spawns a butterfly with the next id and schedules its removal.
     */
    method DocumentClick(targetIsButton: bool, x: int, y: int, random: real)
      requires Valid() && 0.0 <= random < 1.0
      modifies this`butterflies, this`nextButterflyId, this`pendingExpiries
      ensures Valid()
      ensures old(showPopup) || targetIsButton ==>
        && butterflies == old(butterflies)
        && nextButterflyId == old(nextButterflyId)
        && pendingExpiries == old(pendingExpiries)
      ensures !old(showPopup) && !targetIsButton ==>
        && nextButterflyId == old(nextButterflyId) + 1
        && butterflies == old(butterflies) + [Butterfly(old(nextButterflyId), x, y, ButterflyKind(random))]
        && pendingExpiries == old(pendingExpiries) + [old(nextButterflyId)]
    {
      if showPopup || targetIsButton {
        return;
      }
      var b := Butterfly(nextButterflyId, x, y, ButterflyKind(random));
      nextButterflyId := nextButterflyId + 1;
      AppendFreshKeepsIncreasing(butterflies, b.id, b);
      assert Ids(butterflies + [b]) == Ids(butterflies) + [b.id];
      butterflies := butterflies + [b];
      pendingExpiries := pendingExpiries + [b.id];
    }

    /** The 4000 ms callback of butterfly `id`: removes it, keeping the others in order. */
    method ExpireButterflyCallback(id: nat)
      requires Valid() && id in pendingExpiries
      modifies this`butterflies, this`pendingExpiries
      ensures Valid()
      ensures butterflies == WithoutId(old(butterflies), id)
      ensures !HasId(butterflies, id) && |butterflies| == |old(butterflies)| - 1
      ensures id !in pendingExpiries && |pendingExpiries| == |old(pendingExpiries)| - 1
    {
      ghost var i :| 0 <= i < |butterflies| && butterflies[i].id == id;
      WithoutIdAt(butterflies, i);
      WithoutIdKeepsIncreasing(butterflies, id);
      IdsBelowWithout(butterflies, id, nextButterflyId);
      ExpiredIdGone(butterflies, i);
      butterflies := WithoutId(butterflies, id);
      pendingExpiries := pendingExpiries[..i] + pendingExpiries[i + 1..];
    }
  }

  /** Removing the entry at position `i` removes its id from the ids, and from nowhere else. */
  lemma ExpiredIdGone(bs: seq<Butterfly>, i: nat)
    requires IncreasingIds(bs) && i < |bs|
    ensures !HasId(bs[..i] + bs[i + 1..], bs[i].id)
    ensures Ids(bs[..i] + bs[i + 1..]) == Ids(bs)[..i] + Ids(bs)[i + 1..]
    ensures bs[i].id !in Ids(bs)[..i] + Ids(bs)[i + 1..]
  {
  }

  lemma IdsBelowWithout(bs: seq<Butterfly>, id: nat, bound: nat)
    requires IdsBelow(bs, bound)
    ensures IdsBelow(WithoutId(bs, id), bound)
  {
  }
}
