# Portfolio page script: a verified model of its state machines

`main.js` drives a one-page portfolio: a particle background on a canvas, a
navigation bar that hides while scrolling down, number counters and a radar
chart that animate once when scrolled into view, a tooltip on the radar's
labels and dots, and a typewriter in the hero section. This project models
the parts of that script that hold logic worth stating, and proves what they
promise:

- `typewriter.dfy` (`Typewriter`): the `tick` closure. It types a phrase one
  character per tick, holds it, deletes it, and moves on to the next phrase
  cyclically, choosing each delay. `Step` is the pure transition. The class
  `Typewriter` keeps the closure's four variables and the displayed text as
  fields, and `Tick` is proved to perform `Step`.
- `nav.dfy` (`Nav`): `updateNav` and the scroll listener's `ticking` gate.
  The host's frame queue is the count `scheduled` of pending callbacks.
- `one_shot.dfy` (`OneShot`): the "animate once" guard that the intersection
  observers of the counters and the radar share, and the counters' gate.
- `radar_layout.dfy` (`RadarLayout`): the level table, vertex radii, the
  left/right/centre split for labels and for the tooltip, and the tooltip's
  offset.
- `radar_tooltip.dfy` (`RadarTooltip`): `showTooltip`, `hideTooltip`, the
  level-mark loop, and the label, dot and document listeners.
- `radar_entrance.dfy` (`RadarEntrance`): the one-shot move of the polygon
  and the ten dots from the centre to their targets.
- `particles.dfy` (`Particles`): `Particle.update` (repel, damping, move,
  wrap-around), the hidden-document frame gate, and the `drawConnections`
  pair loop.

Trigonometry, square roots and `Math.random` are not modelled. Vertex
coordinates, distances and random draws are inputs. Timers, frame requests,
observers and listeners become method calls, one per callback invocation.

Five behaviours of `main.js` worth noting:

- Clicking a label while the tooltip is visible hides it, even when the
  tooltip shows another domain. It does not switch to the clicked domain
  (main.js:552-559).
- The wrap-around lands in the closed range [0, width]. A negative
  coordinate becomes exactly `width`, not a point inside the canvas
  (main.js:48-51).
- A resize changes only the canvas size. Particles keep their positions,
  possibly off the new canvas, until the next visible frame wraps them
  (main.js:107-109).
- The particle count is decided once at load from the viewport width and
  does not follow later resizes (main.js:10-11).
- A click on a roadmap bar that opens a case stops propagation, so it never
  reaches the document's listener and leaves the radar tooltip as it is
  (main.js:766-770).

## Model

| member | source | states |
|---|---|---|
| Typewriter.Slice | main.js:953 | `slice(0, end)` returns a prefix of the phrase: the first `end` characters, the whole phrase past its end, and a count from the back for a negative end |
| Typewriter.DelayFor | main.js:968 | the delay is positive; it is the pending pause if there is one, otherwise 35 ms exactly when deleting and 60 ms when typing |
| Typewriter.Step | main.js:948-969 | one tick keeps the phrase index in range, always leaves `pauseTimer` at 0, and displays a prefix of the current phrase |
| Typewriter.InitialInv | main.js:938-941 | the start state (phrase 0, nothing typed, typing) satisfies the typewriter invariant when every phrase is non-empty |
| Typewriter.PagePhrases | main.js:932-941 | the page has four phrases, none empty, so its typewriter starts inside the invariant |
| Typewriter.StepKeepsInv | main.js:948-966 | every tick keeps `0 <= charIdx <= length`, `deleting ==> charIdx >= 1`, `!deleting ==> charIdx < length`, and the text shown is the first `charIdx` characters of the current phrase |
| Typewriter.TypedLastChar | main.js:951-957 | typing the last character starts deleting, shows the whole phrase, and waits 2200 ms |
| Typewriter.DeletedLastChar | main.js:958-965 | deleting the last character shows nothing, moves to the next phrase modulo the number of phrases, starts typing, and waits 400 ms |
| Typewriter.MidPhrase | main.js:951-968 | any other tick moves the cursor one place in its direction and waits 35 ms when deleting, 60 ms when typing |
| Typewriter.Run | main.js:970 | ticks that reschedule themselves keep the phrase index in range |
| Typewriter.RunAdd | main.js:970 | `a + b` ticks reach the state of `b` ticks after `a` ticks, with the delays added |
| Typewriter.TypingRun | main.js:951-953 | typing `k` characters short of the end takes `60 * k` ms |
| Typewriter.DeletingRun | main.js:958-960 | deleting `k` characters while more remain takes `35 * k` ms |
| Typewriter.TypingHalf | main.js:951-957 | typing a whole phrase of length L takes L ticks and `60(L-1) + 2200` ms, and ends with the phrase shown and deleting |
| Typewriter.DeletingHalf | main.js:958-965 | deleting a whole phrase of length L takes L ticks and `35(L-1) + 400` ms, and ends at the start of the next phrase |
| Typewriter.PhraseCycle | main.js:948-971 | a phrase of length L takes 2L ticks and `60(L-1) + 2200 + 35(L-1) + 400` ms, and ends at the start of the next phrase |
| Typewriter.Typewriter.constructor | main.js:938-941 | the closure starts at phrase 0 with nothing typed and not deleting |
| Typewriter.Typewriter.Tick | main.js:948-971 | the fields, text and delay after a tick are exactly what `Step` gives, and the invariant is kept |
| Nav.HideRule | main.js:200 | the bar is never hidden at a scroll position of 100 px or less, nor when the page did not move down |
| Nav.Start | main.js:194-195 | at load the bar is shown, nothing is pending, the gate holds, and the last position is the page's scroll position |
| Nav.Next | main.js:197-215 | one event schedules at most one more update |
| Nav.NextKeepsGate | main.js:197-215 | an update is pending exactly when `ticking` is set; a scroll while ticking changes nothing; a frame hides the bar iff the page moved down and is past 100 px, then records the position and clears `ticking` |
| Nav.AtMostOnePending | main.js:210-215 | after any sequence of scrolls and frames from a gated state, at most one update is pending |
| Nav.ScrollBurst | main.js:197-215 | any number of scroll events before a frame lead to one update, which applies the rule to the latest position |
| Nav.NavBar.constructor | main.js:193-195 | the bar starts shown, not ticking, with nothing pending, at the page's scroll position |
| Nav.NavBar.OnScroll | main.js:210-215 | the scroll listener performs `Next(Scroll)` and keeps the gate |
| Nav.NavBar.UpdateNav | main.js:197-208 | the bar is hidden iff the position is greater than the last one and greater than 100; the gate is kept and nothing stays pending |
| Nav.NavBar.OnFrame | main.js:212 | a frame runs the pending update if there is one, as `Next(Frame)` |
| OneShot.Deliver | main.js:291-297 | one batch runs the animation at most once, and a batch that finds the flag set neither runs it nor clears the flag |
| OneShot.DeliverOnce | main.js:290-297 | the animation runs exactly when the flag was clear and some entry intersects, and the flag ends set exactly when it was set or some entry intersects |
| OneShot.DeliverAllOnce | main.js:290-297 | over any number of batches the animation runs at most once in total, and never once the flag is set |
| OneShot.CounterGate.constructor | main.js:263 | the counters start unanimated |
| OneShot.CounterGate.OnEntries | main.js:290-297 | the callback leaves `countersAnimated` and the number of starts as `Deliver` says, and starts nothing once the counters are animated |
| RadarLayout.TargetRadius | main.js:472 | the vertex radius `level / 10 * 190` lies in [0, 190]; it is 0 exactly at level 0 and 190 exactly at level 10 |
| RadarLayout.TargetRadiusMonotone | main.js:472 | a higher level puts the vertex strictly further out |
| RadarLayout.LevelsInRange | main.js:371-381 | there are ten levels, each between 0 and 10 |
| RadarLayout.PageRadii | main.js:471-474 | every domain of the page has its vertex strictly away from the centre and at most 190 out |
| RadarLayout.LabelAlign | main.js:451-459 | a label ends at its point iff `x < 230`, starts there iff `x > 270`, and is centred iff `230 <= x <= 270`; a centred label sits above iff `y < 250` |
| RadarLayout.TooltipSide | main.js:526-535 | the tooltip goes right of the vertex iff `x > 270`, left of it iff `x < 230`, and on it iff `230 <= x <= 270` |
| RadarLayout.SidesAgree | main.js:451-459 | the tooltip's test order (right test first) gives the same three-way split as the label's |
| RadarLayout.BandEdgesCentred | main.js:451-459 | the band's boundary values 230 and 270 are centred in both rules |
| RadarLayout.TooltipPlacement | main.js:526-536 | the tooltip's top is 20 px above the vertex, and it sets its left edge unless the vertex is left of the band |
| RadarLayout.TooltipClearsVertex | main.js:526-535 | right of the band the tooltip starts 16 px right of the vertex, left of it the tooltip ends 16 px left of it, and in the band it starts at the vertex |
| RadarTooltip.BuildLevelMarks | main.js:508-512 | the row has ten marks, and mark `j` is filled iff `j < level` |
| RadarTooltip.FilledCount | main.js:508-512 | such a row has `level` filled marks, clamped to [0, 10] |
| RadarTooltip.OnClick | main.js:552-569 | a click on a label shows its domain iff the tooltip was hidden and otherwise hides it; a click stopped by a case bar leaves the tooltip as it is; a click on a dot or elsewhere reaches the document and hides the tooltip |
| RadarTooltip.OnEvent | main.js:549-569 | from a state showing one of the ten domains, any event the page delivers shows one of the ten domains or hides |
| RadarTooltip.LabelClickToggles | main.js:552-559 | a label click hides a visible tooltip whatever domain it shows, and shows the label's domain when hidden |
| RadarTooltip.ClickNeverSwitches | main.js:552-569 | a click shows domain `k` from hidden only on label `k`, and leaves a domain shown only when it was `k` already and a case bar stopped the click |
| RadarTooltip.HoverShows | main.js:549-566 | entering a label or dot of the radar shows its domain, leaving it hides |
| RadarTooltip.ReplayLast | main.js:549-569 | replaying events is replaying all but the last, then the last |
| RadarTooltip.ShownByLastEvent | main.js:549-569 | after any events the tooltip shows `k` iff the last event was a hover on label or dot `k`, a click on label `k` while hidden, or a click stopped by a case bar while `k` was shown |
| RadarTooltip.OneActiveWhenVisible | main.js:538-545 | in a coherent state exactly one label is active when the tooltip is visible and none when it is hidden |
| RadarTooltip.Tooltip.constructor | main.js:498 | the tooltip starts hidden with no active label |
| RadarTooltip.Tooltip.ShowTooltip | main.js:503-541 | the tooltip becomes visible for domain `i` with label `i` the only active label, ten level marks filled below the level, and the placement for vertex `i` |
| RadarTooltip.Tooltip.HideTooltip | main.js:543-546 | the tooltip becomes invisible with no active label |
| RadarTooltip.PlaceFor | main.js:517-535 | the vertex is scaled by the wrapper's width over 500 and offset into the radar box; the tooltip's top is 20 px above it, and it starts 16 px right of a vertex right of the band, ends 16 px left of one left of the band, and starts at one in the band |
| RadarTooltip.Tooltip.Handle | main.js:549-569 | delivering an event changes the tooltip as `OnEvent` says, with the label's and the case bar's `stopPropagation`; an event that runs `showTooltip` fills ten marks below the domain's level and places the tooltip at the domain's vertex, any other event leaves the content and placement as they were, and exactly one label is active when visible, none when hidden |
| RadarEntrance.Collapsed | main.js:465-468 | the collapsed polygon has ten vertices, all at (250, 250) |
| RadarEntrance.Chart.constructor | main.js:420-468 | the polygon and all ten dots start at the centre, not animated, observed |
| RadarEntrance.Chart.Animate | main.js:481-490 | the polygon and every dot move to their targets, the flag is set, and observing stops |
| RadarEntrance.Chart.OnEntries | main.js:478-493 | the flag ends as `Deliver` says; once it is set the polygon and dots are at their targets and the observer has stopped; a batch that does not fire, and every batch after the entrance, leaves the polygon, the dots and the observer as they were |
| Particles.ParticleCount | main.js:10-11 | the page creates 30 particles exactly when the viewport is narrower than 768 px, and 60 otherwise |
| Particles.Wrap | main.js:48-51 | the coordinate ends in [0, bound]; an in-range one is kept, a negative one becomes exactly the bound, and one past the bound becomes 0 |
| Particles.Impulse | main.js:36-40 | outside `0 < dist < 100` the pointer gives no push |
| Particles.Velocity | main.js:36-43 | outside the band the new velocity is the old one times 0.99 |
| Particles.Step | main.js:32-52 | after an update the particle is on the canvas, in the closed range |
| Particles.NoRepelOutsideBand | main.js:36-43 | outside `0 < dist < 100` the velocity is only damped by 0.99 |
| Particles.RepelPushesAway | main.js:36-40 | inside the band the velocity change points away from the pointer |
| Particles.RepelExactlyInBand | main.js:36-43 | with the true distance, the pointer changes the velocity beyond damping iff `0 < dist < 100` |
| Particles.DampedIsPower | main.js:42-43 | `k` dampings multiply a velocity by 0.99^k |
| Particles.StepsOnlyDamp | main.js:36-43 | updates all outside the band only damp each velocity component, once per update, so by 0.99^k after `k` of them |
| Particles.LineOpacity | main.js:76 | a line's opacity is at most 0.15 for a non-negative distance and positive below 120 px |
| Particles.OpacityFades | main.js:76 | opacity falls strictly as the distance grows, from 0.15 at distance 0 to 0 at 120 px |
| Particles.RowLines | main.js:71-76 | row `i` up to `j` draws at most one line per particle `i < b < j` |
| Particles.AllLines | main.js:70-76 | the rows below `i` draw at most one line per particle in each row |
| Particles.DrawConnections | main.js:69-86 | the nested pair loop produces exactly `AllLines` |
| Particles.RowGood | main.js:71-76 | every line of row `i` joins `i` to a later particle closer than 120 px, with the opacity for that distance |
| Particles.RowIn | main.js:71-72 | every line of row `i` starts at `i` and ends before the inner bound |
| Particles.RowSorted | main.js:71 | row `i` lists its lines in increasing `j` |
| Particles.RowComplete | main.js:71-76 | row `i` holds the line, with its opacity, of every later particle closer than 120 px |
| Particles.AllGoodLines | main.js:70-76 | every line of the rows visited so far is good |
| Particles.AllBelow | main.js:70-71 | every line of the rows visited so far starts in one of them |
| Particles.AllSorted | main.js:70-71 | lines come in strict pair order |
| Particles.AllComplete | main.js:70-76 | the rows visited so far hold the line of every close pair starting in them |
| Particles.ConnectionsCorrect | main.js:69-86 | every line drawn joins a pair `a < b` closer than 120 px with opacity `(1 - dist/120) * 0.15`; every such pair gets that line; and lines come in strict pair order, so no pair is drawn twice |
| Particles.VisibleOpacity | main.js:75-76 | with non-negative distances every line drawn has an opacity in (0, 0.15] |
| Particles.Scale | main.js:24-25 | a draw in [0, 1) scaled to a canvas dimension lands on the canvas, strictly inside a non-empty one |
| Particles.Particle.constructor | main.js:23-30 | a new particle is on the canvas with velocity in [-0.2, 0.2), radius in [1, 3) and opacity in [0.1, 0.4) |
| Particles.Particle.Update | main.js:32-52 | the update mutates the fields exactly as `Step` says |
| Particles.Field.constructor | main.js:10-67 | the canvas takes the viewport size, the pointer starts at (-1000, -1000), and 30 particles (narrower than 768 px) or 60 are created on the canvas |
| Particles.Field.OnMouseMove | main.js:111-114 | the pointer takes the event's coordinates |
| Particles.Field.OnResize | main.js:107-109 | only the canvas size changes |
| Particles.Field.MeasuredNonNegative | main.js:74 | a distance measured between two particles is never negative |
| Particles.Field.Frame | main.js:89-101 | a hidden document changes no particle and draws nothing; otherwise every particle is updated by `Step` and ends on the canvas, the lines drawn are `AllLines` (good, complete, in pair order), and with measured distances each opacity is in (0, 0.15] |

## Left out

- Canvas drawing, SVG and DOM element creation, class-list and style strings, and the modal templates. These are rendering with no logic beyond what the model states.
- `Math.cos`, `Math.sin`, `Math.sqrt` and `toFixed`. Vertex coordinates and distances are inputs, tied to positions by `IsDistance` where that matters.
- `Math.random` in the particle constructor. The six draws are inputs in [0, 1).
- `requestAnimationFrame`, `setTimeout`, `IntersectionObserver` and event dispatch. Each callback invocation is a method call, and the frame queue of the nav bar is a pending count.
- The counters' easing animation, the custom cursor, card tilt, magnetic buttons, the scroll progress bar, the reveal observer and the modals. They are floating-point animation and timing.
- The static text of the domains, business cases, theses and phrases. Only the phrases and the domains' levels are kept as data.
- `unobserve` on the counters' observer. It only stops further callbacks, and the flag already makes them change nothing.
- Particles.Field.Frame: the pair distances are inputs; only the opacity bound assumes them measured (`Measured`) from the particles' updated positions.
- Floating point, throughout `particles.dfy` (and the reals of `radar_layout.dfy`): every quantity is an exact real, while the page computes in IEEE doubles, and rounding is not captured.
- Particles.DampedIsPower: 0.99^k is exact over the reals; in doubles the damped velocity only approximates it.
- Particles.RepelExactlyInBand: over the reals a push inside the band always changes the velocity beyond damping; in doubles a push smaller than half an ulp of the velocity is lost.
- Typewriter.Slice: phrases are sequences of characters, while JavaScript's `slice` counts UTF-16 code units; the page's phrases have no characters outside the Basic Multilingual Plane, so the two agree on them.
- The first tick's 1500 ms start delay (main.js:974). It is a single timer before the cycle; the model starts at the first tick.
