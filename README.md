# Scrollytelling section: a Dafny model

This project models the logic of the section component of a one-page report site, `components/InfoSection.tsx`. The component renders a list of content items. Each item has a title, a description and some screenshots.

It has two layouts, chosen by window width:

- **Compact layout** (width below 768): every item is rendered as a `MobileItem`, one after the other. Each `MobileItem` has its own screenshot carousel and its own drag-scrollable device frame.
- **Wide layout**: one tall container, `items.length * 150vh` high, with a sticky panel. As the page scrolls through the container, a scroll handler maps the scrolled distance to an *active item index*. A single device frame shows the active item's screenshots. There is one carousel index per item and one mouse drag-scroll gesture. An effect scrolls the frame back to its top whenever the active index, the carousel array or the layout changes.

The model has one module per concern:

- `Carousel`: clamped previous/next steps, the disabled rule of the arrows and the counter, and sequences of presses.
- `ScrollMapper`: the scroll-to-active-index mapping, as `real` arithmetic with `.Floor`.
- `DragScroll`: the drag arithmetic, `saved - (y - startY) * 1.5`.
- `Layout`: the 768 breakpoint, and a `ScrollFrame` class that stands for the scrollable DOM element.
- `MobileItemView.MobileItem` and `InfoSectionView.InfoSection`: classes whose fields are the components' React state. Their methods are the event handlers, which update that state step by step.

DOM reads become parameters or fields:

- The pointer's `pageY` is a parameter. For a touch event it is the first touch's value.
- The container's `getBoundingClientRect()` is an `Option<Rect>` parameter of `HandleScroll`. `None` means the container is not mounted.
- `window.innerWidth` and `window.innerHeight` are parameters.
- The frame element is a nullable `ScrollFrame` field. `null` is the `if (!container) return` case.

Source behaviour worth noting:

- In the wide layout, when a new active index is written, the frame that gets reset is the one registered for the *new* index. The inline ref callback (components/InfoSection.tsx:253) runs again on every commit and registers the single frame element under the current index.
- The reset effect also runs when the carousel array changes. The arrow handlers always build a fresh array (components/InfoSection.tsx:161, 170), so every wide arrow press that reaches its handler resets the frame's scroll offset. At a bound the arrow is disabled (lines 288, 298), so the browser never calls the handler there. The model's handler methods can still be called at a bound, and then they reset the frame although no index changes.
- The wide drag gesture handles mouse events only (lines 254-257). Only the compact frame also handles touch events.
- On mount the reset effect runs once with the initial wide layout, before the layout chosen from the window width takes effect. So a mounted frame starts at offset 0 even in a narrow window.

A defect in the source's wiring: `InfoSection` destructures `items` from its props (components/InfoSection.tsx:105), and imports a `ContentItem` type (line 3). `SectionData` in types.ts:2-8 declares neither. `App.tsx` passes each section's `images` at the top level. So `items` is undefined as written, and `items.map` at line 109 would fail. The model therefore takes the section's `items` as an explicit parameter of the `InfoSection` constructor.

## Model

| member | source | states |
|---|---|---|
| `Carousel.PrevDisabled` | components/InfoSection.tsx:84 | the "previous" arrow is disabled exactly when there is no earlier image |
| `Carousel.NextDisabled` | components/InfoSection.tsx:94 | the "next" arrow is disabled exactly when there is no later image |
| `Carousel.Prev` | components/InfoSection.tsx:83-84 | "previous" moves at most one step back and never below 0; it leaves the index unchanged exactly when the arrow is disabled (index 0) |
| `Carousel.Next` | components/InfoSection.tsx:93-94 | "next" moves at most one step forward and never past `count - 1`; it leaves the index unchanged exactly when the arrow is disabled (last image) |
| `Carousel.Position` | components/InfoSection.tsx:89-91 | the counter shows `idx + 1` of `count`, within `1..count`; it shows 1 exactly when "previous" is disabled and the total exactly when "next" is disabled |
| `Carousel.Step` | components/InfoSection.tsx:82-98 | one button press keeps a valid image index valid |
| `Carousel.Run` | components/InfoSection.tsx:6 | any sequence of presses from a valid index (the initial 0) ends on a valid image index |
| `Carousel.RunAppend` | components/InfoSection.tsx:83-93 | presses compose: running `a + b` is running `b` after `a` |
| `Carousel.RunForward` | components/InfoSection.tsx:93 | `k` presses of "next" from `idx` give `min(idx + k, count - 1)` |
| `Carousel.RunBack` | components/InfoSection.tsx:83 | `m` presses of "previous" from `idx` give `max(idx - m, 0)` |
| `Carousel.ForwardThenBack` | components/InfoSection.tsx:6-93 | from the initial 0, `k` nexts then `m` previous give `max(min(k, count - 1) - m, 0)` |
| `ScrollMapper.InUpdateRange` | components/InfoSection.tsx:134 | the index is written exactly while the container's top edge is above the viewport's top and its bottom edge is below it |
| `ScrollMapper.Progress` | components/InfoSection.tsx:135-136 | the progress is positive, and after scaling by the scrollable height it is the scrolled distance `abs(top)` |
| `ScrollMapper.ActiveIndex` | components/InfoSection.tsx:137-140 | the index lies in `[0, n-1]`; it is the floor of `progress * n` unless that exceeds `n - 1`, in which case it is `n - 1` |
| `ScrollMapper.ScrollUpdate` | components/InfoSection.tsx:129-142 | a valid index stays valid; in the compact layout, with no container, or with the container not partly scrolled past (`top >= 0` or `abs(top) >= height`), the previous index is kept, with no reset and no clamp |
| `ScrollMapper.ProgressMonotone` | components/InfoSection.tsx:135-136 | a larger scrolled distance never gives a smaller progress |
| `ScrollMapper.ActiveIndexMonotone` | components/InfoSection.tsx:134-140 | within the update range, a larger `abs(top)` never gives a smaller active index |
| `ScrollMapper.ActiveIndexSlice` | components/InfoSection.tsx:134-140 | the index is `k` exactly when the scrolled distance lies in the k-th of `n` equal slices of `height - windowHeight`; the last item also takes everything beyond |
| `ScrollMapper.ThreeItemExample` | components/InfoSection.tsx:134-141 | for 3 items, 450 tall in a 100 window: at top 0 the index is kept; halfway it is 1; near and past the end of the range it is 2; once the container is scrolled past, or in the compact layout, the old index is kept |
| `Layout.IsMobile` | components/InfoSection.tsx:119 | the compact layout is chosen exactly when `innerWidth < 768` |
| `Layout.BreakpointIsOnlySwitch` | components/InfoSection.tsx:119 | the layout is monotone in the width and switches only between 767 (compact) and 768 (wide) |
| `Layout.ScrollFrame.constructor` | components/InfoSection.tsx:7 | the scrollable frame element behind `scrollRef` and `scrollContainerRefs`, with its given `offsetTop` and `scrollTop` |
| `Content.HasImages` | components/InfoSection.tsx:171 | every item has at least one screenshot, stated as a condition on each member of the list; the carousels rely on it unchecked |
| `DragScroll.PointerY` | components/InfoSection.tsx:17 | the pointer's position relative to the frame, which with the frame's `offsetTop` gives back `pageY` |
| `DragScroll.DragOffset` | components/InfoSection.tsx:26-28 | the written offset equals the saved one when the pointer is back at its start; it is smaller exactly when the pointer moved down, and larger exactly when it moved up |
| `DragScroll.DragInPageCoordinates` | components/InfoSection.tsx:17-28 | with the frame's `offsetTop` unchanged, the move writes `saved - 1.5 * (p1 - p0)` in page coordinates |
| `MobileItemView.MobileItem.constructor` | components/InfoSection.tsx:5-10 | a mounted item starts on image 0, with no gesture, and with its press history empty |
| `MobileItemView.MobileItem.Counter` | components/InfoSection.tsx:89-91 | the compact counter shows `subIdx + 1` of the item's image count, and agrees with both arrows' disabled flags |
| `MobileItemView.MobileItem.ShowPrev` | components/InfoSection.tsx:82-84 | `subIdx` becomes `Prev(subIdx)`; the invariant "`subIdx` is `Run` of the presses since mount" is kept |
| `MobileItemView.MobileItem.ShowNext` | components/InfoSection.tsx:92-94 | `subIdx` becomes `Next(subIdx, len)`; the same invariant is kept |
| `MobileItemView.MobileItem.HandleDragStart` | components/InfoSection.tsx:12-19 | with the frame mounted, the gesture starts and saves the pointer's position relative to the frame and the frame's scroll offset; otherwise nothing changes |
| `MobileItemView.MobileItem.HandleDragMove` | components/InfoSection.tsx:21-29 | without a gesture nothing changes; during one, the frame's offset becomes `DragOffset` of the saved state |
| `MobileItemView.MobileItem.StopDragging` | components/InfoSection.tsx:31 | the gesture ends |
| `MobileItemView.DragGesture` | components/InfoSection.tsx:12-31 | a start at `p0` and a move to `p1` set the offset to `S - 1.5 * (p1 - p0)`; after the stop, a move changes nothing |
| `InfoSectionView.InitialSlots` | components/InfoSection.tsx:109 | one zero per item, which is a valid index for every item |
| `InfoSectionView.PrevSlot` | components/InfoSection.tsx:158-165 | only the active slot changes, to `Prev` of its value; the length, all other slots and bounds are kept |
| `InfoSectionView.NextSlot` | components/InfoSection.tsx:167-175 | only the active slot changes, to `Next` within the active item's images; the length, all other slots and bounds are kept |
| `InfoSectionView.SlotNoOpIffDisabled` | components/InfoSection.tsx:286-299 | a wide arrow leaves the whole array unchanged exactly when that arrow is disabled |
| `InfoSectionView.InfoSection.constructor` | components/InfoSection.tsx:105-156 | initial state: item 0 active, all carousels at 0, wide layout, no gesture; the reset effect's first run leaves a mounted frame at offset 0 |
| `InfoSectionView.InfoSection.CurrentSubImageIndex` | components/InfoSection.tsx:198-199 | the active item's carousel index is a valid image index of the active item |
| `InfoSectionView.InfoSection.Counter` | components/InfoSection.tsx:288-298 | the wide counter, in `1..len`, agrees with both arrows' disabled flags |
| `InfoSectionView.InfoSection.ResetInnerScroll` | components/InfoSection.tsx:150-156 | in the wide layout the mounted frame is scrolled to 0; in the compact layout it is left alone |
| `InfoSectionView.InfoSection.CheckMobile` | components/InfoSection.tsx:117-124 | `isMobile` becomes `innerWidth < 768`; a switch to the wide layout resets the frame, and nothing else changes |
| `InfoSectionView.InfoSection.HandleScroll` | components/InfoSection.tsx:127-147 | the active index becomes `ScrollUpdate` of the old one, so it stays in bounds; the frame is reset exactly when the index changed; the carousel array is untouched |
| `InfoSectionView.InfoSection.HandlePrevSubImage` | components/InfoSection.tsx:158-165 | the array becomes `PrevSlot`; in the wide layout the frame is reset; all bounds are kept |
| `InfoSectionView.InfoSection.HandleNextSubImage` | components/InfoSection.tsx:167-175 | the array becomes `NextSlot`; in the wide layout the frame is reset; all bounds are kept |
| `InfoSectionView.InfoSection.OnMouseDown` | components/InfoSection.tsx:177-184 | in the wide layout with the frame mounted, the gesture starts with the pointer and offset saved; otherwise nothing changes |
| `InfoSectionView.InfoSection.OnMouseMove` | components/InfoSection.tsx:186-194 | in the compact layout or without a gesture the offset is unchanged; otherwise it becomes `DragOffset` of the saved state |
| `InfoSectionView.InfoSection.StopDragging` | components/InfoSection.tsx:196 | the gesture ends |
| `InfoSectionView.ThreeItemScenario` | components/InfoSection.tsx:127-175 | with image counts 2, 3 and 1, scrolling to 66% selects item 1; its counter reads 1/3, then 2/3, then 3/3 with "next" disabled |

## Left out

- Rendering: JSX, Tailwind classes, opacity and scale transitions, and the inline `<style>` blocks (components/InfoSection.tsx:33-102, 201-310). These are presentation only.
- Listener registration and cleanup: the `addEventListener` and `removeEventListener` calls in the effects. Each handler is a method that is called with explicit inputs.
- React scheduling: the model applies each `setState` immediately, one event at a time. React's bail-out on an unchanged value is modelled: an unchanged active index or layout does not re-run the reset effect.
- `InfoSection.HandlePrevSubImage` and `InfoSection.HandleNextSubImage`: the `disabled` attribute of the arrows (lines 288, 298) is modelled only as the predicates `Carousel.PrevDisabled` and `Carousel.NextDisabled`. Nothing stops a caller from running a handler at a bound, where the model resets the frame but the browser would never run the handler.
- The link between `InfoSection` and its compact-layout `MobileItem`s is not modelled. In the source, switching to the compact layout mounts fresh items, each starting at image 0, while `subImageIndices` keeps the wide layout's indices.
- `e.stopPropagation()` and `e.preventDefault()`: these only affect the event, not any modelled state.
- The browser's own clamping of `scrollTop` to the scrollable range, and native wheel or touch scrolling. The written offset is modelled unclamped. Native scrolling is the environment writing `ScrollFrame.scrollTop` between calls.
- The ref array `scrollContainerRefs` and its ref callback (components/InfoSection.tsx:253). The model keeps one nullable frame for the active item, `InfoSection.viewport`.
- IEEE-754 behaviour: rounding, NaN, Infinity and division by zero. Positions are `real`. In the update range, `HandleScroll` requires `height > windowHeight`. The source never checks it; it holds because the container is `items.length * 150vh` tall.
- Section props wiring: `App.tsx`, `types.ts` and the `SectionData` props are not modelled, because the wiring is ill-typed as written (see above). The section heading text is not modelled either.
- `components/Header.tsx` is not part of this model. It is a one-line scroll-threshold style toggle.
- `services/gemini.ts` is not part of this model. It is a single call to an external AI service with a fixed fallback string.
