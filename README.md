# Clinic site: carousel, scroll and form-validation logic, modelled in Dafny

This project models the logic inside two files of a clinic marketing site:

- `app/static/js/main.js`, the browser script. It covers:
  - the hero carousel (a wrapping slide index, with one active slide and one active dot);
  - the services and doctors carousels (a clamped pixel offset of a strip of cards, sized by a breakpoint table);
  - the testimonials carousel (an unchecked `goToSlide` and a wrapping `nextSlide`);
  - the swipe recogniser that drives the services and doctors strips;
  - the arrow-key binding of the hero;
  - the navbar's scroll threshold and the active-nav-link selector;
  - the stats counter's pin-and-stop step and its display format.
- `app/main.py`, the server. It covers:
  - the name/specialty validator `validar_nombre_apellido`;
  - the row mapping `map_rows_to_medicos`;
  - the loop that turns validation errors into messages.

The script's objects update their fields in place, so they are Dafny classes. The `active` classes of slides, dots and nav links are `array<bool>` flags, and the `forEach` loops over them are `while` loops. Reading an element past the end of a NodeList gives `undefined`, and touching its `classList` throws a TypeError. A method reports that as `ok == false`, and its contract states the partial state the loop left behind. The Python functions are pure, so they are Dafny functions with lemmas.

Modules: `Wrappers` (Option, Result), `Indicators` (the clearing and marking shared by the hero and the testimonials), `Hero`, `Track` (services and doctors: one class built with either width table), `Testimonials`, `Swipe`, `ScrollEffects`, `Stats`, `Letters` (case mapping), `Validation`, `Rows`, `ErrorMessages`.

Three points where the code differs from a natural reading of it:

- `move(1)` adds `cardWidth`, so it moves toward 0. Four doctor cards at 1024px reach -350 with `move(-1)`, not with `move(1)`. This is `Track.FourDoctorsScenario`.
- The offset is not always `<= 0`. With fewer cards than fit, `move` pins the strip at `(visibleCards - cards) * cardWidth > 0`. This is `Track.MovedWithTooFewCards` and `Track.TwoServicesScenario`.
- The testimonials `goToSlide` does not clamp its index. An out-of-range index clears every slide and every dot that has a slide, then throws. This is `Indicators.ShownOutOfRangeClearsAll`.

## Model

| member | source | states |
|---|---|---|
| Indicators.Cleared | app/static/js/main.js:23-26 | the clearing `forEach` completes exactly when there is a dot for every slide, and then every slide and the first `|slides|` dots are cleared and later dots are untouched; otherwise slides `0..|dots|` and every dot are cleared, later slides are untouched, and it throws |
| Indicators.Activated | app/static/js/main.js:27-28 | marking index `i` succeeds exactly when slide `i` and dot `i` exist |
| Indicators.Shown | app/static/js/main.js:22-29 | clear-then-mark succeeds exactly when every slide has a dot and the index is in range |
| Indicators.ShownMarksExactlyOne | app/static/js/main.js:22-28 | after a successful update only the slide and the dot at the index are active (count 1); dots past the last slide are untouched |
| Indicators.ShownOutOfRangeClearsAll | app/static/js/main.js:178-185 | an unchecked out-of-range index leaves no slide active and reports the throw |
| Indicators.ShownWithoutSlides | app/static/js/main.js:31-33 | with no slides an update changes nothing and throws |
| Indicators.ClearActive | app/static/js/main.js:179-182 | the loop over the flag arrays leaves exactly the state `Cleared` describes |
| Indicators.ActivateAt | app/static/js/main.js:184-185 | setting the flags leaves exactly the state `Activated` describes |
| Indicators.TruncRem | app/static/js/main.js:32 | JavaScript `%`: `a == q * n + r` with the quotient truncated toward zero, so `r` takes the sign of `a` and `|r| < n` |
| Hero.NextIndex | app/static/js/main.js:31-32 | from an index in range, +1 and -1 stay in [0, n) and wrap at the ends |
| Hero.AdvancedWrapsOnce | app/static/js/main.js:43-46 | k ≤ n auto-play steps add k to the index and wrap once past the end |
| Hero.ChangeSlideCycle | app/static/js/main.js:31-32 | n calls of `changeSlide(1)` return to the start index, and no fewer do |
| Hero.KeyDirection | app/static/js/main.js:366-378 | outside INPUT/TEXTAREA, ArrowLeft gives -1 and ArrowRight +1; any other key, or a key typed in a field, gives nothing |
| Hero.HeroCarousel.constructor | app/static/js/main.js:10-15 | index 0, the markup's marks, no timer |
| Hero.HeroCarousel.Init | app/static/js/main.js:17-20 | starts auto-play and leaves the index alone |
| Hero.HeroCarousel.UpdateSlide | app/static/js/main.js:22-29 | the new marks are `Shown` of the old marks at `currentSlide` |
| Hero.HeroCarousel.ChangeSlide | app/static/js/main.js:31-35 | the index becomes `NextIndex`, the marks become `Shown` at it, and the timer (re)starts only when nothing threw |
| Hero.HeroCarousel.GoToSlide | app/static/js/main.js:37-41 | stores the index unchecked, shows it, and (re)starts the timer only on success |
| Hero.HeroCarousel.OnKeydown | app/static/js/main.js:366-378 | an ignored key changes nothing; an arrow key is `ChangeSlide` with its direction: the index wraps (unchanged with no slides), the marks are `Shown` at it, and the timer (re)starts only on success |
| Hero.ArrowRightRoundTrip | app/static/js/main.js:370-376 | on a hero with a dot per slide, n presses of ArrowRight visit 1, 2, …, n-1, 0, with exactly one slide active each time |
| Track.Breakpoint | app/static/js/main.js:87-99 | 1 card below 768px, 2 cards below 1024px, 3 cards from 1024px on, each with the table's width |
| Track.BreakpointMonotone | app/static/js/main.js:133-145 | a wider window never shows fewer cards |
| Track.MovedInRange | app/static/js/main.js:101-104 | with cards ≥ visible, any move ends in [-(cards - visible) * width, 0] |
| Track.MovedWithTooFewCards | app/static/js/main.js:147-150 | with cards < visible, any move ends at `(visible - cards) * width`, which is positive |
| Track.MoveDirections | app/static/js/main.js:101-104 | from an offset in range, `move(1)` goes one card toward 0 and `move(-1)` one card toward `maxPosition` |
| Track.MaxPosition | app/static/js/main.js:102 | with cards ≥ visible `maxPosition ≤ 0`; with fewer cards than fit it is at least one card width to the right |
| Track.Moved | app/static/js/main.js:101-104 | the clamped offset is never below `maxPosition`, is `maxPosition`, 0 or the raw step, takes the raw step when it lies in [maxPosition, 0], is 0 for a step past 0 and `maxPosition` for a step below it, is pinned at `maxPosition` when that is positive, and is ≤ 0 whenever `maxPosition` is |
| Track.MovingBackReachesLastCard | app/static/js/main.js:147-150 | k calls of `move(-1)` from 0 reach `max(-k * width, maxPosition)` and then stay there |
| Track.MovingForwardStaysAtStart | app/static/js/main.js:147-150 | `move(1)` from 0 stays at 0 |
| Track.TrackCarousel.constructor | app/static/js/main.js:73-78 | offset 0, no card list, 3 cards of the wide width |
| Track.TrackCarousel.UpdateVisibleCards | app/static/js/main.js:133-145 | sets (visibleCards, cardWidth) from `Breakpoint` and does not re-clamp the offset |
| Track.TrackCarousel.Init | app/static/js/main.js:126-131 | without a container nothing is set; otherwise the cards are counted and sized |
| Track.TrackCarousel.Move | app/static/js/main.js:147-152 | throws while `cards` is null; otherwise the offset becomes `Moved(...)`, which is inside the range or pinned by too few cards |
| Track.FourDoctorsScenario | app/static/js/main.js:119-150 | 4 doctors at 1024px: `move(-1)` twice gives -350 then -350; `move(1)` twice gives 0 then 0 |
| Track.TwoServicesScenario | app/static/js/main.js:73-106 | 2 services on a desktop window: a move either way puts the strip at +380 |
| Testimonials.NextSlideIndex | app/static/js/main.js:189-191 | from an index in range the next index wraps to 0 after the last slide |
| Testimonials.TestimonialsCarousel.constructor | app/static/js/main.js:165-170 | index 0, the markup's marks, no timer |
| Testimonials.TestimonialsCarousel.Init | app/static/js/main.js:172-176 | a no-op with zero slides; otherwise starts auto-play |
| Testimonials.TestimonialsCarousel.GoToSlide | app/static/js/main.js:178-187 | clears, then stores the unchecked index only if the clearing completed, then marks it; the timer (re)starts only on success |
| Testimonials.TestimonialsCarousel.NextSlide | app/static/js/main.js:189-192 | `goToSlide((currentSlide + 1) % n)`: the index advances only if the clearing loop completed and is otherwise unchanged; the marks are `Shown` at the next index, and the timer (re)starts only on success |
| Testimonials.AutoPlayStep | app/static/js/main.js:189-197 | on well-formed markup one auto-play step moves to the following slide with wrap-around, and exactly one slide and one dot are active |
| Swipe.SwipeDirection | app/static/js/main.js:339-345 | a callback argument exists exactly when abs(dx) > 50: -1 for a right swipe, +1 for a left swipe |
| Swipe.SwipeRecognizer.constructor | app/static/js/main.js:311-313 | starts at (0, 0), not dragging |
| Swipe.SwipeRecognizer.TouchStart | app/static/js/main.js:315-319 | records the start point and begins dragging |
| Swipe.SwipeRecognizer.TouchMove | app/static/js/main.js:321-331 | suppresses scrolling exactly while dragging with abs(dx) > abs(dy) |
| Swipe.SwipeRecognizer.TouchEnd | app/static/js/main.js:333-348 | calls `move` at most once, with `SwipeDirection(dx)`, only after a touchstart; dragging ends unless `move` threw |
| Swipe.SwipeLeftOnDoctors | app/static/js/main.js:352-360 | a 60px left swipe calls `move(1)` once; a second touchend without a touchstart calls nothing |
| ScrollEffects.NavbarLookFor | app/static/js/main.js:224-233 | the scrolled look is used exactly when `scrollY > 100` |
| ScrollEffects.NavbarThreshold | app/static/js/main.js:226 | 100 is not scrolled and 101 is; scrolling further never reverts the look |
| ScrollEffects.ActiveId | app/static/js/main.js:262-268 | the `current` the loop leaves is `""` or the id of some reached section |
| ScrollEffects.ActiveIdIsLastReached | app/static/js/main.js:262-270 | the active id is the last section in document order with `scrollY >= offsetTop - 200`, or `""` if there is none |
| ScrollEffects.ActiveSectionId | app/static/js/main.js:263-270 | the loop computes `ActiveId` |
| ScrollEffects.Highlighted | app/static/js/main.js:272-277 | a link is active exactly when its href is `"#" + current` |
| ScrollEffects.NothingReachedHighlightsBareHash | app/static/js/main.js:263-277 | when no section is reached, only links whose href is `"#"` become active |
| ScrollEffects.NavLinks.constructor | app/static/js/main.js:260 | one flag per nav link |
| ScrollEffects.NavLinks.UpdateActiveNavLink | app/static/js/main.js:262-278 | the link flags become `Highlighted(hrefs, ActiveId(sections, scrollY))` |
| Stats.Decimal | app/static/js/main.js:399-403 | the number rendered as text is never empty |
| Stats.DecimalRoundTrip | app/static/js/main.js:399-403 | the rendered digits are digits and read back as the number |
| Stats.Format | app/static/js/main.js:396-404 | suffix `K+` if target ≥ 1000, `%` if target == 98, else `+`; the number is floor(current/1000) or floor(current) |
| Stats.DisplayNeverExceedsFinal | app/static/js/main.js:389-404 | while 0 ≤ current ≤ target, the shown number is between 0 and the final number, with the final suffix |
| Stats.FinalTexts | app/static/js/main.js:421-424 | the four stats end on "25K+", "50+", "20+" and "98%" |
| Stats.ValueAfter | app/static/js/main.js:389-394 | with a non-negative increment and target the counter stays in [0, target], and an increment at least the target reaches it on the first tick |
| Stats.ValueAfterTicks | app/static/js/main.js:389-394 | after k ticks the counter reads min(k * increment, target) |
| Stats.DefaultDurationTicks | app/static/js/main.js:384-394 | with the default 2000ms, a positive target is reached on exactly the 125th tick |
| Stats.Counter.constructor | app/static/js/main.js:384-388 | starts at 0 with increment `target / (duration / 16)` |
| Stats.Counter.Tick | app/static/js/main.js:389-407 | adds the increment, pins to the target and stops once it is reached, never exceeds the target, and shows `Format` |
| Stats.StatsSection.constructor | app/static/js/main.js:412 | `statsAnimated` starts false |
| Stats.StatsSection.OnIntersection | app/static/js/main.js:414-419 | the counters start on the first intersection only |
| Letters.ToUpper | app/main.py:44 | maps each admitted letter to its capital and leaves capitals alone |
| Letters.ToLower | app/main.py:44 | maps each admitted letter to its small form and leaves small letters alone |
| Letters.CasePairs | app/main.py:44 | each small letter of `abc…záéíóúñü` is raised to the capital at the same place in `ABC…ZÁÉÍÓÚÑÜ`, and each capital lowered to its own small letter |
| Letters.LettersListed | app/main.py:41 | the small and the capital letters are exactly those of the two alphabets |
| Letters.CaseRoundTrip | app/main.py:44 | upper and lower case are inverse on the admitted letters |
| Validation.IsSpace | app/main.py:29-32 | Python's whitespace set: it holds space, tab, newline and carriage return, and no admitted letter is whitespace |
| Validation.AllAllowed | app/main.py:41 | every character of an admitted text is either a letter or whitespace, never both |
| Validation.Strip | app/main.py:29-32 | the stripped text is the slice that starts after the leading whitespace, is followed only by whitespace, is empty exactly when the input is all whitespace, and otherwise starts and ends with non-whitespace |
| Validation.StripUnchanged | app/main.py:32 | text without outer whitespace strips to itself |
| Validation.Title | app/main.py:44 | title-casing keeps the length |
| Validation.TitleShape | app/main.py:44 | title-casing keeps whitespace in place and each letter up to case, and every word starts with a capital followed by small letters |
| Validation.TitleIdempotent | app/main.py:44 | title-cased text is a fixed point, so title-casing twice equals title-casing once |
| Validation.ValidateName | app/main.py:27-44 | each error is reported exactly when the earlier checks pass and its own fails (empty, then shorter than 2, then longer than 50, then the character class); success gives a title-cased value of length 2..50 |
| Validation.ValidatedKeepsText | app/main.py:32-44 | the accepted value is the stripped input with the same whitespace and the same letters up to case |
| Validation.ValidateIdempotent | app/main.py:27-44 | validating an accepted value again accepts it unchanged |
| Rows.MapRowsToMedicos | app/main.py:81-94 | one record per row, in order: `id_medico`→`id`, `nombre`→`nombre`, `especialidad`→`especilidad`, `correo_interno`→`email` |
| Rows.MapRowsRoundTrip | app/main.py:86-93 | the renaming is invertible in both directions |
| Rows.MapRowsAppend | app/main.py:86-94 | mapping a concatenation is concatenating the mappings, so order is kept |
| ErrorMessages.FieldOf | app/main.py:158 | the first element of the location, or `campo` when the location is empty |
| ErrorMessages.FormatError | app/main.py:158-160 | the entry is the capitalised field, then `: `, then the untouched message |
| ErrorMessages.Capitalize | app/main.py:160 | the first character is raised and the others are lowered |
| ErrorMessages.FormatErrorParts | app/main.py:155-160 | an entry is the capitalised field, then ": ", then the untouched message; an empty location gives "Campo" |
| ErrorMessages.FormatErrors | app/main.py:254-258 | one entry per error, in order, each `FormatError` of its error |

## Left out

- DOM effects are left out: the `transform`, `background` and `top` strings, `scrollIntoView`, and the `IntersectionObserver` that adds `animate-in`. The model keeps the state behind them: the marks, the offset and the navbar's look.
- Timers are left out. Auto-play is reduced to a started flag and a count of restarts, and the 6000ms and 5000ms delays are not modelled. The caller of `ChangeSlide(1)` and `NextSlide` stands in for the timer.
- Hero.HeroCarousel.ChangeSlide: with zero slides the source stores NaN in `currentSlide` before `updateSlide` throws. The model keeps the old index. With an empty slide list every later use of the index throws anyway.
- Testimonials.TestimonialsCarousel.NextSlide requires at least one slide. Its only caller is the auto-play timer, and `init` starts that timer only when there are slides.
- `scrollY` and touch coordinates are integers here; the browser reports them as fractional values.
- Multi-touch (`touches[0]` only) and the passive-listener options are left out.
- The counter uses exact reals, not IEEE doubles. With floating point, the stop can come one tick later than the 125th.
- A page with more than four `.stat-number` elements gets an undefined target for the extra ones. This is not modelled.
- The smooth-scroll anchor handler has no logic beyond DOM calls, and is not modelled.
- `app/database.py` is not part of this model. It is MySQL I/O only. Rows are records with the four columns of its SELECT, so the `KeyError` of a missing column cannot occur here.
- Pydantic behaviour is not modelled. This covers the type coercions of `ClienteDB`, the `EmailStr` check, and the "Value error, " prefix pydantic adds to a validator's message. `ValidateName` returns the raised message itself.
- The FastAPI endpoints, templates, redirects and `HTTPException` are not modelled. So are the endpoints' mismatched `especialidad=` keyword and `.especialidad` reads.
- Letters.ToUpper, Letters.ToLower: cover only ASCII and á é í ó ú ñ ü. This is exact for every value the validator accepts, and for the ASCII field names that `capitalize` receives. Python maps the rest of Unicode as well.
- Validation.Title: takes only text of admitted characters, which is all it ever receives after the character check. Python's `title` also handles other characters.
- ErrorMessages.FormatErrors: the first location element is taken as already rendered by `str`.
