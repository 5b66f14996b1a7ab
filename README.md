# Greeting page interaction controller, in Dafny

This project models the interaction state machine of the single-page greeting
site's `App` component: the five page sections and the "Next" lookup, the
guarded two-phase page-turn navigation, the butterflies spawned by document
clicks and removed 4000 ms later, the scroll latch that shows the floating
hearts, and the popup that gates background music (with its 300 ms delayed
start and its volume fade-in), plus the music toggle.

Files:

- `wrappers.dfy`: `Option`, for the source's `Section | null`.
- `sections.dfy`: the `Section` enumeration, its display order, `IndexOf`
  (array `indexOf`) and `GetNextSection`, with the proof that it is the
  successor function of the order and is `None` exactly at `Forever`.
- `butterflies.dfy`: the `Butterfly` record, the random variant draw, and
  `WithoutId` (the filter run when a butterfly expires) with its lemmas:
  exact membership, order preservation, no-op when the id is absent, and
  removal of exactly one entry when ids are increasing.
- `app.dfy`: class `App`, whose fields are the component's state values and
  refs. Each event handler and each delayed callback is a method. A callback
  handed to `setTimeout`/`setInterval` is recorded, when scheduled, in a ghost
  field for its kind; its method may be called once per pending entry and
  consumes it. `Valid()` is kept by every method. It says that butterfly ids
  are strictly increasing and below the counter. It says that the pending
  removals are exactly the live butterflies' ids, so every live butterfly has
  exactly one. It says that a transition is in flight exactly while its
  1200 ms callback is pending, that at most one is, and that its 400 ms
  callback is pending only while it is. It says that playback is scheduled
  only once the popup is gone, and at most twice in a session, since the
  popup is rendered only while shown and so is dismissed by a single click.

Two behaviours of the code that the model keeps as written:

- `isPlaying` is set to true whether or not the play request succeeds
  (`App.tsx:76-79`, `App.tsx:102-106`); a rejected request is only logged.
- The popup content and the overlay beneath it both carry the click handler
  (`App.tsx:173-174`), so one click on the content runs it twice. That
  schedules two delayed starts, so two play requests and two fade-in
  intervals. Nothing in the model promises a single one. It promises at
  most two delayed starts and at most two fade-ins per session, counting
  both pending and running ones. Play requests are not bounded, since each
  toggle of the music button adds one.

## Model

| member | source | states |
|---|---|---|
| `Sections.IndexOf` | src/frontend/src/App.tsx:131 | the result is the first position of the section in the array, or -1 exactly when it is absent |
| `Sections.IndexOfDistinct` | src/frontend/src/App.tsx:130-131 | in an array without repetitions, `indexOf` of the element at position i is i |
| `Sections.GetNextSection` | src/frontend/src/App.tsx:129-133 | `getNextSection` is null exactly for `forever`, and otherwise returns the section one place later in the order hero, story, special, letter, forever |
| `Sections.NextSectionWalk` | src/frontend/src/App.tsx:129-133 | the order has no repeated section, so for the k-th section the next one is the (k+1)-th, or null for the last |
| `Butterflies.ButterflyKind` | src/frontend/src/App.tsx:55 | `Math.floor(Math.random() * 3)` is one of the 3 variants 0, 1, 2 |
| `Butterflies.ButterflyKindRange` | src/frontend/src/App.tsx:55 | in real arithmetic, variant k is drawn exactly when the random number lies in [k/3, (k+1)/3) |
| `Butterflies.WithoutId` | src/frontend/src/App.tsx:62 | the filtered list is no longer than the original and holds no butterfly with the removed id |
| `Butterflies.WithoutIdMembers` | src/frontend/src/App.tsx:62 | a butterfly survives the filter exactly when it was in the list and its id differs |
| `Butterflies.WithoutIdAppend` | src/frontend/src/App.tsx:62 | the filter distributes over concatenation, so the survivors keep their relative order |
| `Butterflies.WithoutIdAbsent` | src/frontend/src/App.tsx:61-63 | removing an id that no butterfly carries leaves the list unchanged |
| `Butterflies.WithoutIdSplice` | src/frontend/src/App.tsx:61-63 | when no other entry carries the id at position i, the filter yields the entries before and after it, in order |
| `Butterflies.WithoutIdAt` | src/frontend/src/App.tsx:61-63 | with increasing ids, expiring the id at position i removes exactly that entry and keeps the rest in order |
| `Butterflies.WithoutIdKeepsIncreasing` | src/frontend/src/App.tsx:61-63 | expiry keeps the ids of the list strictly increasing |
| `Butterflies.AppendFreshKeepsIncreasing` | src/frontend/src/App.tsx:51-58 | appending a butterfly whose id is the counter keeps ids strictly increasing and below the incremented counter |
| `Interaction.ExpiredIdGone` | src/frontend/src/App.tsx:61-63 | with increasing ids, dropping the entry at position i leaves no butterfly with its id, and the ids of the rest are the old ids without that position |
| `Interaction.App.constructor` | src/frontend/src/App.tsx:15-22 | initial state: not playing, no hearts, popup shown, section hero, not transitioning, no butterflies, counter 0, nothing scheduled |
| `Interaction.App.Scroll` | src/frontend/src/App.tsx:33-37 | the hearts flag becomes its old value or `scrollY > 100`, so it is a latch that never returns to false; nothing else changes |
| `Interaction.App.PopupClick` | src/frontend/src/App.tsx:70-73 | only a visible popup can be clicked (it is rendered only while shown); the click hides it and schedules the one and only 300 ms playback start, and the popup never reappears |
| `Interaction.App.PopupContentClick` | src/frontend/src/App.tsx:172-174 | only a visible popup can be clicked; a click on its content runs the handler twice, so exactly two playback starts are scheduled, and never more in a session |
| `Interaction.App.StartMusicCallback` | src/frontend/src/App.tsx:73-83 | with an audio element: volume 0, one play request, `isPlaying` true whatever the play outcome, one fade-in interval started; without one: only the timer is consumed |
| `Interaction.App.FadeInTick` | src/frontend/src/App.tsx:83-92 | below 0.7 the accumulator grows by 0.05 and the applied volume is min(accumulator, 0.7), never above 0.7; at or above 0.7 the interval clears itself and the volume is untouched |
| `Interaction.App.ToggleMusic` | src/frontend/src/App.tsx:97-108 | with an audio element, `isPlaying` flips exactly once per call and one pause (if playing) or play request is sent; without one nothing changes |
| `Interaction.App.NavigateToSection` | src/frontend/src/App.tsx:110-127 | while a transition is in flight nothing changes and nothing is scheduled; otherwise the flag rises, the section is unchanged, and the 400 ms and 1200 ms callbacks are scheduled |
| `Interaction.App.TurnPageCallback` | src/frontend/src/App.tsx:116-122 | the section becomes the target while the transition is still in flight |
| `Interaction.App.EndTransitionCallback` | src/frontend/src/App.tsx:124-126 | the transition flag falls and no transition remains in flight |
| `Interaction.App.DocumentClick` | src/frontend/src/App.tsx:45-63 | with the popup showing or a button targeted nothing changes; otherwise exactly one butterfly with the old counter as id, the click's coordinates and a variant in 0..2 is appended, the counter grows by 1 and its removal is scheduled; ids stay strictly increasing |
| `Interaction.App.ExpireButterflyCallback` | src/frontend/src/App.tsx:61-63 | removes exactly the one butterfly with that id, keeps the others in order, and consumes its pending removal; ids stay strictly increasing |

## Left out

- Rendering (markup, styles, images, petals and hearts placement, footer) is not modelled.
- `scrollIntoView` and the section element refs are not modelled; the 400 ms callback only changes the current section.
- Adding and removing event listeners, and the unmount cleanup, are not modelled; handlers are methods a caller invokes.
- The audio element is reduced to its volume and two ghost counters of play and pause requests; the play promise is not modelled, because its rejection handler only logs.
- Time is not modelled: a pending callback may be run at any later point. The one ordering the model assumes is that a navigation's 400 ms callback runs before its 1200 ms callback (`EndTransitionCallback` requires no pending 400 ms callback).
- `Math.random` is a parameter in [0, 1); the random draw is not modelled as a distribution.
- Butterflies.ButterflyKindRange: the product `Math.random() * 3` is computed on reals, not IEEE doubles; in the source the doubles nearest 1/3 and 2/3 (0.3333333333333333 and 0.6666666666666666) round up to 1 and 2 and so land in the next variant, which the real-number statement does not capture. The bound `k < 3` holds in both.
- The stale closure over `showPopup` in the document click listener is not modelled: `DocumentClick` reads the current state. So the document-level delivery of the click that dismisses the popup is left to the caller.
- FadeInTick: volumes are integer hundredths, so the floating-point accumulation of 0.05 is not modelled and no tick count is claimed; a fresh audio element's volume 1.0 is 100.
- Butterfly ids are unbounded naturals; the 2^53 limit of a JavaScript number is not modelled.
- Click coordinates are integers; `clientX`/`clientY` are JavaScript numbers.
