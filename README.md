# NovaDine.AI site logic, modelled in Dafny

The site is a marketing page for a restaurant-AI product. Apart from its
markup it holds three small pieces of logic, each modelled here in the form
the code has:

- **The waitlist form** (`src/app/waitlist/page.tsx`, module `Waitlist` in
  `waitlist.dfy`). The checkbox handler toggles an option in one of two
  lists and caps `expectations` at two choices. The submit button has an
  enable rule. The webhook body maps each form field to a fixed Turkish
  label and joins the two lists with `", "`. The submit flow drives the
  `isSubmitting` / `isSuccess` flags. The handler and the body builder are
  pure functions with lemmas. The page state is the class `WaitlistPage`,
  with the methods `CheckboxChange` and `Submit`.
- **The ROI estimator** (`src/app/page.tsx`, module `Roi` in `roi.dfy`).
  It is a pure function of the eight-field `roi` record, over exact reals.
- **The banner animations** (`src/components/Banner.tsx`, module `Banner`
  in `banner.dfy`). A count-up counter starts once, the first time it
  intersects the viewport. Each animation frame it adds
  `max(1, target/120)` to a running value and shows its floor, until it
  settles on the rounded target. The particle field moves every particle
  by its velocity and reverses a velocity component when the particle is
  outside the canvas on that axis. The counter is the class `Counter`
  (`OnIntersect`, `Tick`). The particle field is the class `ParticleField`,
  which updates an `array<Particle>` in place (`Step`, `Resize`). Each
  method is specified by pure functions (`Shown`, `SettleTick`, `Advance`,
  `StepAll`), and the properties are proved as lemmas about those
  functions.

`jsmath.dfy` (module `JsMath`) gives `Math.floor`, `Math.round` and
`Math.max` over reals. `Math.round(x)` is `floor(x + 1/2)`, which is
JavaScript's rule for every `x`. It also has a ceiling, `Ceil`, which the site
never calls; the proofs use it for ⌈target⌉. `wrappers.dfy`
holds an `Option` type.

Three behaviours of the code are worth stating outright:

- A resize that shrinks the canvas can leave a particle beyond an edge by
  more than its speed. That particle then flips its velocity on every frame
  and never comes back (`StrandedOscillates`, `StrandedForever`). Particles
  that stay within one step of the canvas keep doing so
  (`AdvanceKeepsInFlight`).
- A counter's final display is `Math.round(target)`, which can be above a
  fractional target (`FractionalOvershoot`: a target of 2.5 ends on 3). The
  display only rises when the target is non-negative: a negative
  `data-target` goes from the initial 0 straight down to its rounded value
  (`NegativeTargetDrops`).
- `canvas.height` is an integer attribute, so `Math.max(540, innerHeight * 0.9)`
  is truncated when it is stored, and the bounce check compares against that
  integer. `CanvasHeight` models the truncation.

## Model

| member | source | states |
|---|---|---|
| `Waitlist.Without` | src/app/waitlist/page.tsx:61 | The filtered list holds exactly the elements other than `v`, each as often as before, and none of `v`. Its length drops by the number of occurrences of `v`. |
| `Waitlist.Toggled` | src/app/waitlist/page.tsx:60-62 | Defines the proposed new list: the value filtered out if it is present, otherwise appended at the end. |
| `Waitlist.Toggle` | src/app/waitlist/page.tsx:57-70 | A toggle changes only the named list and leaves every text field and the other list as they were. `aiFeatures` is always toggled, with no cap. An expectations update that would leave more than 2 entries returns the previous state. |
| `Waitlist.WithoutConcat` | src/app/waitlist/page.tsx:61 | Filtering distributes over concatenation, so the items that stay keep their order. |
| `Waitlist.WithoutAbsent` | src/app/waitlist/page.tsx:61 | Filtering out a value that is absent returns the list unchanged. |
| `Waitlist.WithoutKeepsDistinct` | src/app/waitlist/page.tsx:61 | Filtering keeps a duplicate-free list duplicate-free. |
| `Waitlist.ToggleRemoves` | src/app/waitlist/page.tsx:60-67 | Toggling a chosen value removes every occurrence of it. Starting within the cap, such a removal is never rejected. |
| `Waitlist.ToggleAppends` | src/app/waitlist/page.tsx:62-69 | Toggling an absent value appends it at the end after the existing items, in order, whenever the cap allows it. |
| `Waitlist.CheckboxDisabled` | src/app/waitlist/page.tsx:273 | Defines when an expectations checkbox is disabled: two are already chosen and this option is not one of them. |
| `Waitlist.ToggleKeepsCap` | src/app/waitlist/page.tsx:64-67 | Starting from at most 2 expectations, every toggle keeps at most 2. An expectations toggle is rejected (the state is returned unchanged) exactly when its checkbox is disabled by the rule at line 273. |
| `Waitlist.ToggleTwice` | src/app/waitlist/page.tsx:60-69 | If the value is absent and the cap allows it, toggling it twice returns the original form. |
| `Waitlist.ToggleKeepsDistinct` | src/app/waitlist/page.tsx:60-62 | A toggle keeps the toggled list duplicate-free. |
| `Waitlist.SubmitDisabled` | src/app/waitlist/page.tsx:318 | Defines the submit button's `disabled` attribute: a submission is in progress, or `expectations` or `aiFeatures` is empty. |
| `Waitlist.Join` | src/app/waitlist/page.tsx:91-92 | The joined string is as long as all the items plus one separator between each pair, and empty for no items. |
| `Waitlist.JoinAppend` | src/app/waitlist/page.tsx:91-92 | Joining a non-empty list with one more item appends the separator and that item. |
| `Waitlist.Lookup` | src/app/waitlist/page.tsx:84-96 | A key is found exactly when some entry of the body has it. |
| `Waitlist.BuildPayload` | src/app/waitlist/page.tsx:84-96 | The body has exactly the eleven fixed keys, in the source's order, whatever the form holds. |
| `Waitlist.LookupAt` | src/app/waitlist/page.tsx:84-96 | In a body with distinct keys, looking up an entry's key gives that entry's value. |
| `Waitlist.PayloadFields` | src/app/waitlist/page.tsx:84-96 | Each label maps to its own form field. The two list fields are joined with `", "`. `submittedAt` is the given timestamp and `formMode` is `"production"`. |
| `Waitlist.SubmitGuard` | src/app/waitlist/page.tsx:318 | With nothing being submitted, the button is disabled on the fresh form, enabled after one choice in each list, and disabled again when the only expectation is unchecked. |
| `Waitlist.SubmitEnabledPayload` | src/app/waitlist/page.tsx:318 | When the submit button is enabled (not submitting, both lists non-empty) and every chosen item is a non-empty string, both joined list entries of the body are non-empty. Every option the page offers is a non-empty string, so the item condition always holds on the page. |
| `Waitlist.PayloadAfterAppend` | src/app/waitlist/page.tsx:62 | After an accepted append to a non-empty list, that list's body entry is the old entry followed by `", "` and the new value. |
| `Waitlist.AlertFor` | src/app/waitlist/page.tsx:99-110 | An alert is shown exactly when the response is not ok. A non-ok status gets the retry message, a thrown error gets the connection message, and the two messages differ. |
| `Waitlist.WaitlistPage.constructor` | src/app/waitlist/page.tsx:16-28 | The page starts not submitting, not successful, with an empty form, within the cap. |
| `Waitlist.WaitlistPage.CheckboxChange` | src/app/waitlist/page.tsx:57-71 | The form becomes the toggled form, the cap invariant is kept, and the flags are untouched. |
| `Waitlist.WaitlistPage.Submit` | src/app/waitlist/page.tsx:73-113 | The form is never modified. The body sent is built from that form. Afterwards `isSubmitting` is false. `isSuccess` is set only on an ok response. The alert matches the outcome. |
| `Roi.Payback` | src/app/page.tsx:96 | There is no payback (0) exactly when savings are not positive. Otherwise the payback is at least 7 days. Above 7 it is within half a day of `aiMonthly / savings * 30`, and it is exactly 7 only when that exact payback is below 7.5, so it is max(7, round(exact)). |
| `Roi.Estimate` | src/app/page.tsx:91-104 | The licence cost is the fee. `paybackDays` is 0 exactly when the net savings are not positive, and at least 7 otherwise. |
| `Roi.EstimateBalance` | src/app/page.tsx:92-95 | The staff cost is the wage times the staff hours (8 per waiter per shift). The upsell is covers × ticket × lift. Net savings are staff cost − licence + upsell. |
| `Roi.LicenceFeeShift` | src/app/page.tsx:93-95 | Raising the licence fee by d, all else fixed, lowers net savings by exactly d and changes neither the staff cost nor the upsell. |
| `Roi.NonNegativeInputs` | src/app/page.tsx:92-96 | On non-negative inputs the staff cost, licence cost, upsell and payback are all non-negative. |
| `Roi.PaybackApproximatesExact` | src/app/page.tsx:96 | With positive savings, the payback is either 7 with the exact payback below 7.5, or above 7 and the exact payback rounded to the nearest day. |
| `Roi.PaybackMonotone` | src/app/page.tsx:96 | For a fixed non-negative fee, larger positive savings never lengthen the payback. |
| `Roi.PaybackScaling` | src/app/page.tsx:96 | The payback depends only on the ratio of fee to savings. |
| `Roi.StaffCostScaling` | src/app/page.tsx:92 | Scaling the wage by k scales the staff cost by k. |
| `Roi.UpsellScaling` | src/app/page.tsx:94 | Scaling the ticket by k scales the upsell by k. |
| `Roi.SavingsScaling` | src/app/page.tsx:95 | Scaling wage, fee and ticket by k scales the net savings by k. |
| `Roi.CurrencyScaling` | src/app/page.tsx:91-104 | The estimator is currency-agnostic. Scaling every money input by k > 0 scales every amount by k and keeps the payback. |
| `Roi.DefaultScenario` | src/app/page.tsx:80-104 | On the default record the results are staff cost 20160, licence 799, upsell 32400, net savings 51761 and payback 7 days. |
| `Roi.ZeroScenario` | src/app/page.tsx:91-104 | On the all-zero record every amount is 0 and the payback is 0. |
| `JsMath.Floor` | src/components/Banner.tsx:109 | `Math.floor`: the greatest integer not above x. |
| `JsMath.Round` | src/app/page.tsx:96 | `Math.round`: the integer within half of x, a half going up. |
| `JsMath.Max` | src/components/Banner.tsx:37 | `Math.max` of two reals: at least both, and equal to one of them. The same call gives the counter step at Banner.tsx:103. |
| `JsMath.MaxInt` | src/app/page.tsx:96 | `Math.max(7, …)` on whole days: at least both, and equal to one of them. The integer form keeps the payback an integer without converting back from a real. |
| `JsMath.RoundUnique` | src/components/Banner.tsx:107 | Only one integer satisfies the rounding characterisation. |
| `JsMath.RoundMonotone` | src/app/page.tsx:96 | Rounding is monotone. |
| `Banner.CounterStep` | src/components/Banner.tsx:103 | The step is the larger of 1 and target/120: at least both, and equal to one of them. |
| `Banner.TargetOf` | src/components/Banner.tsx:101 | Defines the counter's target: the `data-target` number, or 0 when the attribute is missing. |
| `Banner.ValueAfter` | src/components/Banner.tsx:102-105 | Defines the running value after k ticks: it starts at 0 and each tick adds one step. |
| `Banner.SettleTick` | src/components/Banner.tsx:103-112 | The settling tick is the first tick (at least 1) whose running value reaches the target. Every earlier tick is below the target. |
| `Banner.NextTick` | src/components/Banner.tsx:105-106 | A tick adds one step, and the value reaches the target on that tick exactly when it is the settling tick. |
| `Banner.Shown` | src/components/Banner.tsx:106-109 | Defines the display after k ticks: 0 before the first, the floor of the running value while below the target, the rounded target from the tick that reaches it. |
| `Banner.SettleWithinFrames` | src/components/Banner.tsx:103-112 | Every counter settles within 120 ticks, and one whose target is at least 120 takes exactly 120. |
| `Banner.SettleBound` | src/components/Banner.tsx:103-112 | Since the step is at least 1, a counter settles within max(1, ⌈target⌉) ticks. |
| `Banner.ShownBeforeSettle` | src/components/Banner.tsx:108-110 | Every display before settling is the floor of the running value, at least 1 and strictly below the target. |
| `Banner.ShownAtSettle` | src/components/Banner.tsx:106-107 | The settling tick shows exactly `Math.round(target)`. |
| `Banner.ShownMonotone` | src/components/Banner.tsx:104-109 | For a non-negative target the display never decreases from tick to tick, including the final settle. |
| `Banner.ZeroTarget` | src/components/Banner.tsx:101-107 | A target of 0 (also the fallback for a missing `data-target`) settles on the first tick, showing 0. |
| `Banner.NegativeTargetDrops` | src/components/Banner.tsx:103-107 | A target of −5 settles on the first tick, and the display drops from 0 to −5. |
| `Banner.FractionalOvershoot` | src/components/Banner.tsx:106-107 | A target of 2.5 settles on the third tick showing 3, above the target. |
| `Banner.ShippedCounters` | src/components/Banner.tsx:8-13 | The four banner counters (500, 65, 8, 98) settle after 120, 65, 8 and 98 ticks, each on its own target. |
| `Banner.Counter.constructor` | src/components/Banner.tsx:185-192 | An element starts showing 0, not animated, with nothing scheduled, and its target is the `data-target` number or 0. |
| `Banner.Counter.OnIntersect` | src/components/Banner.tsx:96-100 | A non-intersecting entry, or an element that is already animated, changes nothing. Otherwise the flag is set and the first tick is scheduled from value 0. |
| `Banner.Counter.Tick` | src/components/Banner.tsx:104-112 | One tick: the display is the specified display after one more tick. While still scheduled it is below the target. On stopping it is the rounded target. For a non-negative target it never decreases. |
| `Banner.RunCounter` | src/components/Banner.tsx:110-113 | Driving a started counter frame by frame terminates after exactly `SettleTick` frames, showing the rounded target. That is at most max(1, ⌈target⌉) frames and at most 120, and exactly 120 for a target of at least 120. |
| `Banner.OnIntersections` | src/components/Banner.tsx:95-115 | Over a batch of entries, an element ends up animated exactly when it was before or some entry for it intersects. An element the batch starts has its first tick scheduled from tick 0, showing 0. An animated element, and one with no intersecting entry, is left untouched. |
| `Banner.CanvasHeight` | src/components/Banner.tsx:37 | The canvas height is at least 540, and it is the integer part of max(540, 0.9 × innerHeight). |
| `Banner.Spawned` | src/components/Banner.tsx:42-49 | Defines the ranges `Math.random` spawns a particle in: x in [0, width), or x = 0 when the width is 0; y inside the canvas; radius in [1, 4); each velocity component in [−0.25, 0.25); opacity in [0.2, 0.8). |
| `Banner.AxisStep` | src/components/Banner.tsx:55-57 | Defines one axis of a frame: add the velocity, then negate it if the new coordinate is outside [0, bound]. |
| `Banner.Advance` | src/components/Banner.tsx:55-57 | Defines one particle's frame: `AxisStep` on x against the width and on y against the height, with radius and opacity kept. |
| `Banner.StepAll` | src/components/Banner.tsx:54-57 | Defines one frame over the whole field: every particle advanced independently, with the number of particles kept. |
| `Banner.AdvanceBounces` | src/components/Banner.tsx:55-57 | A frame adds the velocity to the position. A non-zero velocity component is negated exactly when the new coordinate is outside [0, bound]. Speeds, radius and opacity are kept. |
| `Banner.NearStep` | src/components/Banner.tsx:55-57 | On one axis, a coordinate inside the bounds or one step from them stays so after a frame. |
| `Banner.AdvanceKeepsInFlight` | src/components/Banner.tsx:54-57 | While the canvas keeps its size, a particle that is near the canvas stays near it. |
| `Banner.InFlightBounds` | src/components/Banner.tsx:55-57 | A particle near the canvas is never further outside it than one frame's velocity on that axis. |
| `Banner.SpawnedInFlight` | src/components/Banner.tsx:42-49 | A freshly spawned particle is near the canvas. |
| `Banner.ZeroWidthSpawn` | src/components/Banner.tsx:36-43 | A window with no width still spawns particles: one at x = 0 is in the spawn ranges and near the canvas. |
| `Banner.StrandedOscillates` | src/components/Banner.tsx:56-57 | A coordinate beyond the far edge by more than its speed stays beyond it and is back where it started after two frames. |
| `Banner.StrandedForever` | src/components/Banner.tsx:56-57 | Such a stranded coordinate is beyond the edge after any number of frames. |
| `Banner.ParticleField.constructor` | src/components/Banner.tsx:34-49 | The canvas is sized from the window and holds the 50 spawned particles, all near the canvas. |
| `Banner.ParticleField.Resize` | src/components/Banner.tsx:34-38 | A resize sets the width to the window width and the height to `CanvasHeight`, and moves no particle. |
| `Banner.ParticleField.Step` | src/components/Banner.tsx:54-57 | The array is updated in place to `StepAll` of its old contents with the current bounds, and the near-the-canvas invariant is kept. |

## Left out

- The `fetch` to the webhook URL, `alert`, `console.error`, the 3-second `setTimeout` redirect with `router.push`, and `new Date().toISOString()` are I/O and clock. The response is the parameter `response` (ok, not ok, or a thrown error) and the timestamp is the string parameter `submittedAt`. `JSON.stringify` is modelled as the ordered key/value list it serialises.
- The `required` attributes on the contact, business-name and phone inputs and on the three selects (the browser's gate before `handleSubmit` runs) are not modelled. `Submit` accepts any form, which covers every form the browser lets through.
- The text and select `onChange` handlers only copy one value into one field. They are not modelled; a text field cannot affect the expectations cap.
- `Waitlist.WaitlistPage.Submit` does not model the render between `setIsSubmitting(true)` and the `finally`. The intermediate `isSubmitting == true` is not observable in the model.
- `requestAnimationFrame`, `IntersectionObserver`, the resize and scroll listeners and the effect cleanups are host scheduling. They are replaced by explicit calls to `Tick`, `OnIntersect`/`OnIntersections`, `Step` and `Resize`. `RunCounter` plays the role of the frame loop.
- `Number(el.dataset.target)` on a non-numeric string (NaN) is not modelled. The attribute is either missing (giving 0) or a number. With NaN the step `Math.max(1, NaN)` is NaN and `value >= target` is never true, so `tick` shows "NaN" and reschedules itself on every frame forever (Banner.tsx:103-110). `RunCounter` terminates only because `TargetOf` cannot produce NaN. The shipped targets are static numbers, so this never happens on the site.
- `Math.random` particle initialisation is nondeterministic. The constructor takes the spawned particles as a parameter, constrained to the ranges the source draws from. Canvas drawing (`clearRect`, `arc`, `globalAlpha`) and the parallax transform are presentation.
- IEEE-754 floating point is not modelled: every number is an exact real (0.12 is exact here, but not in JavaScript). The canvas attributes' unsigned 32-bit wrap-around is not modelled, only truncation.
- `Banner.CanvasHeight`: does not model the wrap-around of the 32-bit canvas attribute for windows taller than 2^32 pixels, because no real window is that tall.
- React rendering, JSX, framer-motion, recharts, `Intl.NumberFormat`, the text-splitting helper, the static tables, the layout, the lint configuration and the Next.js configuration have no logic to model.
- The ROI record is never changed on the page (`setRoi` is never called). The estimator is still modelled as a total function of any record.
