# Scroll snap and image lightbox, modelled in Dafny

The page script `script.js` wires two independent controllers into a page:

- **Scroll snap.** It tracks the scroll direction and offset. After the user has stopped scrolling for 150 ms (a trailing debounce), it picks the most visible section. If that section's top is more than 20 px from the viewport top, it requests a smooth scroll aligning the two. A latch (`isScrolling`) then suppresses all scroll handling until an 800 ms timer clears it.
- **Lightbox.** A click on a gallery thumbnail shows the image enlarged in a modal, marks the modal `active` and sets the body's `overflow` to `hidden`. A click on the backdrop itself, a click on the enlarged image, or Escape while the modal is active closes it and sets `overflow` back to `''`.

The model is in `scroll_snap.dfy` (module `ScrollSnap`) and `lightbox.dfy` (module `Lightbox`). Each controller is a class whose fields are the variables the event handlers update. Each handler is a method whose contract gives the whole new state.

- Layout reads become parameters of the operations: a section's bounding rectangle is an integer `Rect(top, height)` with `top` relative to the viewport, and the window height and scroll offset are integers.
- Timers are handles drawn from a counter, `nextTimer`, and stay pending until an explicit fire event (`FireDebounce`, `FireLatchClear`). `clearTimeout` removes a handle from the pending set.
- The `scrollIntoView` call is recorded as a `ScrollRequest(section, targetY)` appended to `scrollRequests`.
- The modal's `classList` is a `set<string>`, and "active" means that the `active` class is in it.

What is proved:
- Section selection is an argmax with the first section winning ties, and it returns `None` exactly when nothing is visible.
- The visible height is the overlap of the section's span with the viewport's span.
- The snap threshold compares `|rect.top|`.
- The scroll controller keeps an invariant (`Controller.Valid`):
  - at most one debounce timer is pending, and it is the one the latest unlatched scroll scheduled;
  - no debounce timer is pending while latched;
  - the latch is set exactly while one latch-clearing timer is pending;
  - timer handles are never reused.
- A settled page (a viewport-tall section aligned at the top) is never snapped again.

## Model

| member | source | states |
|---|---|---|
| `ScrollSnap.VisibleHeight` | script.js:21-24 | the visible height equals the overlap of the section's span `[top, top+height)` with the viewport `[0, windowHeight)`; it is at least 0 and at most the section height and the window height (when they are non-negative); it is positive exactly when the section has positive height and crosses the viewport |
| `ScrollSnap.GetCurrentSection` | script.js:8-33 | returns `None` exactly when every section's visible height is 0 (including no sections); otherwise the index of a visible section strictly more visible than every earlier one and at least as visible as every later one |
| `ScrollSnap.CurrentSectionExists` | script.js:13-32 | whenever some section is visible, a section satisfying the selection rule exists |
| `ScrollSnap.CurrentSectionUnique` | script.js:26-29 | at most one section satisfies the selection rule, so the selection is determined |
| `ScrollSnap.DistanceFromTop` | script.js:44-46 | `|scrollY - (scrollY + rect.top)|` is `|rect.top|`, whatever the scroll offset |
| `ScrollSnap.AlignedSectionIsCurrent` | script.js:40-49 | for viewport-tall sections stacked one below the other, the section whose top is at the viewport top is the current one and lies within the 20 px threshold, so snapping again changes nothing |
| `ScrollSnap.Controller.constructor` | script.js:4-5 | latch clear, direction 0, last offset the initial offset, no timer scheduled, no scroll requested |
| `ScrollSnap.Controller.SnapToSection` | script.js:36-61 | changes nothing when latched or when no section is visible; for the current section `k`: if `|rect.top| > 20`, sets the latch, requests a scroll to section `k` at document offset `scrollY + rect.top`, and schedules exactly one latch-clearing timer; otherwise changes nothing |
| `ScrollSnap.Controller.TrackDirection` | script.js:65-71 | when latched, direction and last offset are unchanged; otherwise direction is 1 if the new offset exceeds the last one and -1 otherwise (ties give -1), and the last offset becomes the new one |
| `ScrollSnap.Controller.ScheduleSnap` | script.js:75-82 | when latched, the debounce timer is untouched; otherwise the pending debounce timer is cancelled and a fresh one scheduled, which becomes the only one pending |
| `ScrollSnap.Controller.OnScroll` | script.js:63-82 | a scroll event while latched changes nothing; an unlatched one updates direction and last offset and leaves exactly one debounce pending, the new one |
| `ScrollSnap.Controller.FireDebounce` | script.js:79-81 | the pending debounce timer fires, after which none is pending, and the snap routine runs with the outcome stated for `SnapToSection` |
| `ScrollSnap.Controller.FireLatchClear` | script.js:57-59 | the pending latch-clearing timer fires: the latch is cleared and no latch timer is left pending |
| `ScrollSnap.SnapCycle` | script.js:36-82 | in a concrete run, three scroll events leave one debounce pending, its firing snaps back to the first section (offset 0), scrolls during the snap are ignored, and one latch clear restores the unlatched state |
| `Lightbox.Controller.constructor` | script.js:85-88 | the modal's classes, the image source and the body overflow are those of the loaded page |
| `Lightbox.Controller.OpenLightbox` | script.js:90-94 | the image source becomes `src`, `active` is added to the modal's classes (the others are kept), the body overflow becomes `hidden` |
| `Lightbox.Controller.CloseLightbox` | script.js:96-99 | `active` is removed from the modal's classes, the body overflow becomes `''`, the image is untouched; closing an already closed lightbox changes nothing |
| `Lightbox.Controller.OnThumbnailClick` | script.js:102-107 | a thumbnail click opens the lightbox on that thumbnail's source |
| `Lightbox.Controller.OnOverlayClick` | script.js:110-114 | closes the lightbox when the backdrop itself is the click target and changes nothing otherwise |
| `Lightbox.Controller.OnImageClick` | script.js:117-120 | a click on the enlarged image closes the lightbox |
| `Lightbox.Controller.OnKeyDown` | script.js:123-127 | Escape closes the lightbox only while it is active; any other key, and Escape while closed, change nothing |
| `Lightbox.DismissalScenario` | script.js:101-127 | opening on `src` and dismissing by backdrop click, image click or Escape all end in the same state: closed, overflow `''`, image `src`, other modal classes kept |

## Left out

- Geometry is integral. The browser reports fractional pixels as floating point; the logic only compares, adds, takes `min`, `max` and `abs`, so integers capture the decisions, not the rounding.
- Querying the DOM (`querySelectorAll`, `getElementById`, `querySelector`) and `getBoundingClientRect` are not modelled: the sections' rectangles, the window height and the scroll offset are inputs. The snap routine takes one snapshot of the rectangles, as the synchronous handler sees one layout.
- `window.scrollY || window.pageYOffset` is one scroll offset parameter; the two name the same value.
- The smooth-scroll animation of `scrollIntoView`, and its clamping to the document's bounds, are not modelled; only the request is recorded.
- Timer delays (150 ms, 800 ms) and the clock are not modelled. Which pending timer fires, and when, is the caller's choice of event; the `requires` of the fire events says only that the timer is pending.
- `SnapToSection` requires that no debounce timer be pending: in the script it is only called from the debounce timer's callback, after that timer has fired.
- `viewportMiddle`, `sectionTop` and `sectionBottom` in `getCurrentSection` are never used and are not modelled. `scrollDirection` is written but never read; it is kept as a field.
- Event bubbling, `stopPropagation` on the thumbnail and image clicks, and the `passive` listener option are not modelled; each click is an event delivered to the handler it targets.
- The CSS effect of the `active` class and of `overflow: hidden` is not modelled; the model states the class set and the style value.
- A page without the lightbox elements makes the script throw when it installs the backdrop handler; the model assumes the elements exist.
- Closing sets the body overflow to `''` rather than restoring whatever value it had before opening. The model follows the code; the two agree when the page starts with no inline overflow.
