# Poster engine model

A Dafny model of the poster engine of `script.js`. The engine turns a line of text into a black-and-white SVG poster. The poster's height grows with the text. Its layout is drawn from one of four randomised "recipes":
- Vertical Power Stack;
- Massive Shape Background;
- Multiply Column;
- Grid Rhythm.

Each recipe fits, distorts and duplicates text runs and places shapes from a catalog. A post-pass then resolves places where text overlaps a shape. Finally a small footer label is added.

The model is functional:
- **Scene.** The SVG child list is a `Scene`, a sequence of elements in paint order. The first element painted is the lowest.
- **Transforms.** A transform attribute is a sequence of typed operations (`Transforms.Op`). Every edit the engine makes only appends to it.
- **Randomness.** `rnd()` becomes an `Entropy`, the sequence of values successive calls return. Every operation reads its rolls from an explicit position and reports the next unused one. Where the number of rolls decides what later rolls mean, the contract states it: one per helper call, one or five for a distortion, one or two for an optional duplication, five for a backdrop (none, one or six for the Vertical Stack backdrop step), none, one or two for the sidebar, and one per crossing pair in the overlap pass, which also names the roll each pair reads. The steps that place one run or one shape state only that they use at least one roll, and `StackLines` that it does not go back; the other recipe loops and the whole recipes say nothing about the count. A poster's `used` count is the one the overlap pass reports.
- **Measurement.** `getBBox` becomes `Env.measure`, an arbitrary function from element to an optional box.
- **Arithmetic.** Arithmetic is exact on reals. `Math.round(x)` is `floor(x + 1/2)`, and 1.45 is the exact 29/20.

Modules follow the source:
- `Rand` holds the random helpers.
- `PosterHeight` holds the height rule.
- `Geometry` holds the intersection.
- `Transforms` holds fitting and distortion.
- `Scene` holds text creation, shape placement and duplication.
- `Words` holds word splitting and case.
- `Engine` holds what the recipes share.
- `VerticalStack`, `MassShape`, `MultiplyColumn` and `GridRhythm` are the four recipes.
- `Overlap` is the overlap pass.
- `Compose` is `compose`.

Behaviour of the code as written that the model keeps:
- **A roll can be exactly 1.** `rnd()` divides a 32-bit word by 2^32 - 1. In that case `rndInt(a, b)` gives `b + 1` and `pick` gives `undefined`.
- **Backdrop shapes are buried.** A backdrop is moved to the very front of the child list, ahead of the opaque white background rectangle that covers the canvas. It is therefore painted underneath that rectangle.
- **Bare numbers as transforms.** `pick([0, 90])` handed over as a transform string gives either no attribute or the bare attribute `"90"`, not a rotation.
- **The grid never outlines its shapes.** The outline branch needs a scale above 0.5, and the scale is drawn below 0.36.

## Model

| member | source | states |
|---|---|---|
| JsNumbers.JsRound | script.js:43 | `Math.round` lands within half a unit of its argument, halves going up |
| Rand.RollOf | script.js:25-29 | a roll is exactly 1 if and only if the random word is 2^32 - 1; every other word gives a roll below 1 |
| Rand.Slot | script.js:32 | `floor(r * n)` is the slot whose unit interval holds `r * n`; it is below `n` for a roll below 1 and equals `n` for the roll 1 |
| Rand.SlotIff | script.js:32 | a draw lands in slot k of n exactly when it lies in [k/n, (k+1)/n) |
| Rand.RndInt | script.js:30 | for a roll below 1 the result lies in [a, b]; the roll 1 yields b + 1, outside the range |
| Rand.RndIntCovers | script.js:30 | every integer of [a, b] is produced by some draw |
| Rand.RndRange | script.js:31 | for a roll below 1 the result lies in the half-open range from a toward b; roll 0 gives a, roll 1 gives b |
| Rand.RangeBounds | script.js:31 | `r * (b - a) + a` lies in the half-open range between a and b for every draw below 1 |
| Rand.Pick | script.js:32 | `pick` yields an element of the array exactly when the array is non-empty and the roll is below 1; the element is a member of the array |
| Rand.PickCovers | script.js:32 | every element of a non-empty array is picked by some draw |
| Rand.Choose | script.js:32 | on a non-empty array with a draw below 1, `pick` always yields a member |
| PosterHeight.ComputeHeightMm | script.js:41-45 | the height is at least 150 mm and equals the integer formula 150 + (29n + 10) div 20 for a text of n characters |
| PosterHeight.RoundedGrowth | script.js:43 | `Math.round(n * 1.45)` equals (29n + 10) div 20 |
| PosterHeight.MaxIsRedundant | script.js:44 | the `Math.max` with the minimum never changes the result |
| PosterHeight.HeightMonotone | script.js:41-45 | a longer text never gives a shorter poster |
| Geometry.IntersectRect | script.js:73-79 | the intersection exists exactly when both boxes exist and overlap with positive extent on both axes; it has positive width and height and lies inside both boxes |
| Geometry.IntersectSymmetric | script.js:73-79 | the intersection does not depend on argument order |
| Geometry.IntersectIsCommonPart | script.js:73-79 | a point is in the intersection if and only if it is in both boxes; with no intersection no point is strictly inside both |
| Geometry.IntersectExample | script.js:73-79 | text box (0, 0, 100, 20) and shape box (50, 10, 100, 20) intersect in (50, 10, 50, 10) |
| Scene.AddText | script.js:82-96 | `addText` appends one new black run with exactly the given content, position, size, anchor, weight and transform (none for an empty string) after everything already there, which does not move |
| Transforms.BareTransform | script.js:92 | the number 0 sets no transform attribute; any other number n gives exactly the one bare, non-transform entry n |
| Transforms.FitTextToWidth | script.js:99-113 | unchanged when the box is missing, already fits, or horizontal scaling is disallowed; otherwise the old transform is a prefix followed by one horizontal-only squeeze with `sx * width == maxWidth`, and 0 < sx < 1 for a positive budget |
| Transforms.SqueezeAnchorsLeftEdge | script.js:107-110 | the appended squeeze keeps the box's left edge in place and moves its right edge to `x + maxWidth`, at every height |
| Transforms.ApplyDistortion | script.js:116-148 | a first roll below 0.45 uses one roll and changes nothing; otherwise five rolls are used before the box is measured; a missing box changes nothing; otherwise four operations about the box centre are appended, with skew, scaleX and scaleY in the ranges of the tier chosen by the second roll |
| Transforms.DistortionFixesCentre | script.js:141-143 | the appended operations leave the box centre fixed, whatever the skew angle |
| Transforms.DefaultDistortionKeepsOrientation | script.js:120-137 | with the limits 3.5, 0.25 and 18 that every caller passes, scaleY is at least 1, scaleX at least 0.25 and the skew within [-18, 18) |
| Scene.OutlineWidth | script.js:178 | the outline width is at least 1 and at least 2 units after scaling |
| Scene.ShapeFrom | script.js:174-184 | the clone is translated, rotated and uniformly scaled in that order; filled mode paints every descendant black with no stroke; outlined mode gives no fill and a black stroke at least 1 wide |
| Scene.PlaceShape | script.js:174-184 | the placed shape is appended last and nothing before it changes |
| Scene.InsertFront | script.js:270 | the element becomes the first child and everything else follows unchanged |
| Scene.DuplicateWithAlternation | script.js:151-171 | no copies without a box; otherwise exactly `copies` copies in order, copy i black when i is even and white when odd, each identical to the base except for one appended translation by its offset |
| Scene.AppendRuns | script.js:167 | the copies come after everything already there, in order |
| Scene.OffsetsAlternate | script.js:163-164 | for a step of at least 1, even copies move right and down and odd copies left and up |
| Scene.FourCopiesOfStepSix | script.js:151-171 | four copies with step 6 are black, white, black, white with dx 6, -12, 18, -24 and dy 3, -6, 9, -12 |
| Scene.Whiten | script.js:222 | every descendant gets white fill and stroke; the structure, transform and stroke widths are kept |
| Scene.WhitenIdempotent | script.js:222 | whitening a shape twice is whitening it once |
| Words.SplitIsWordsBetweenGaps | script.js:192 | for every input, the text is its words with white-space gaps between them (non-empty between two words, possibly empty at either end), and splitting returns exactly those words, in order |
| Words.Decompose | script.js:192 | every text can be taken apart into blank gaps and the words between them, which weave back into the text |
| Words.SplitWeave | script.js:192 | any text built from words and blank gaps, non-empty between two words, splits into exactly those words |
| Words.SplitYieldsWords | script.js:192 | every piece the split yields is non-empty and free of white space |
| Words.NoWordsIffBlank | script.js:192-193 | the input has no words if and only if it consists of white space only |
| Words.SplitJoin | script.js:192 | splitting words joined by single spaces gives the words back |
| Words.HelloWorld | script.js:192 | "HELLO WORLD" splits into HELLO and WORLD |
| Words.Upper | script.js:343 | upper-casing keeps the length and every character that is not a lower-case ASCII letter, and turns each lower-case letter into the capital at the same place in the alphabet |
| Words.Lower | script.js:343 | lower-casing keeps the length and every character that is not a capital ASCII letter, and turns each capital into the small letter at the same place in the alphabet |
| Words.CaseRoundTrip | script.js:343 | each case change is idempotent, and each one undoes the other |
| Words.CaseKeepsWord | script.js:343 | changing case keeps a word a word |
| Engine.Fit | script.js:99-113 | fitting a run only changes its transform, and never when horizontal scaling is off |
| Engine.Distort | script.js:116-148 | distorting a run only extends its transform, using one or five rolls |
| Engine.MaybeDuplicate | script.js:254-257 | one roll when it is not above the threshold, two when it is; copies appear only when the roll is above the threshold and the run measures, and then at least one (at most `maxCopies`); copy `k` is the run with only its fill (black for even `k`, white for odd) and one appended offset translation changed |
| Engine.PlaceBackdrop | script.js:262-272 | the backdrop is inserted as the first child and five rolls are used |
| Engine.BackdropChain | script.js:262-272 | appending before and after a front insertion keeps the backdrop first and the rest in order |
| Engine.PlacedAround | script.js:243-272 | runs placed before a backdrop step and runs placed after it all stand in the final scene, in order, the earlier ones one position further on when the backdrop went to the front |
| VerticalStack.StackLine | script.js:244-258 | one line gives one heavy, start-anchored run of its word, appended after what was there, before any copies of it |
| VerticalStack.StackLines | script.js:243-259 | one heavy run per line, each with its line's word, standing in the scene in the order of the lines, after what was there |
| VerticalStack.RhythmRow | script.js:280-282 | one rhythm row is the first word at the small size and weight 700, upright or with the bare `90` transform, appended before its copies |
| VerticalStack.RhythmRows | script.js:278-282 | exactly `count` runs of the repeated word at the small size, each upright or with the bare `90` transform, standing in the scene in order after what was there |
| VerticalStack.StackBackdrop | script.js:262-272 | a backdrop is placed exactly when there is a catalog and the roll exceeds 0.2, and it goes to the front of the child list; no roll without a catalog, one when the roll says no, six when it says yes |
| VerticalStack.Rhythm | script.js:275-284 | the rhythm band appears exactly when there is a second word and the roll exceeds 0.3, and then holds the number of runs the next roll gives, 3 to 8, all of the first word, standing in the scene in order; otherwise nothing is added |
| VerticalStack.Run | script.js:236-285 | min(4, words) lines carrying the first words in order; a backdrop only with a catalog, placed first; 0 or 3 to 8 rhythm runs of the first word; the lines and then the rhythm runs stand in the final scene in that order, after what was there and the backdrop |
| MassShape.Backbone | script.js:290-298 | a backdrop is placed exactly when the catalog is non-empty, as the first child |
| MassShape.Headline | script.js:300-309 | the headline run holds the given words, centred and heavy, and is appended last |
| MassShape.Echo | script.js:314-316 | an echo is a lighter, centred copy of the headline's words appended before its own copies |
| MassShape.Echoes | script.js:312-317 | exactly `count` echoes of the headline text, standing in the scene in order after what was there |
| MassShape.ColumnPiece | script.js:323-330 | a column shape is solid black and uniformly scaled by 0.08 to 0.6, appended last |
| MassShape.Column | script.js:321-331 | exactly `count` column shapes with a catalog, standing in the scene in order; without one the loop breaks at once, placing nothing and using no roll |
| MassShape.Run | script.js:288-332 | the headline is the first one or two words, centred and heavy; 1 to 4 echoes of it; 1 to 4 small solid shapes scaled 0.08 to 0.6 with a catalog, none without; headline, echoes and shapes stand in the final scene in that order, after the backdrop |
| MultiplyColumn.RowCount | script.js:337 | the column has max(6, floor(h / 40)) rows |
| MultiplyColumn.Row | script.js:341-353 | a row holds the given text at the given size and weight 800 and is appended before its copies |
| MultiplyColumn.Rows | script.js:340-353 | exactly the row count of runs, even rows upper case and odd rows lower case, standing in the scene in order after what was there |
| MultiplyColumn.Sidebar | script.js:356-363 | with a second word, a roll above 0.3 adds the sidebar and nothing else does; it carries the remaining words joined by spaces, centred and heavy, its first operation a 90-degree turn about its own anchor; it uses two rolls, one when the roll says no, none with a single word |
| MultiplyColumn.RoundedInside | script.js:372-373 | a rounded position drawn between the paddings stays between them |
| MultiplyColumn.Sprinkled | script.js:370-377 | a sprinkled shape is centred on a rounded point inside the padded canvas, turned 0, 90 or 270 degrees, solid black, and appended last |
| MultiplyColumn.Sprinkles | script.js:367-378 | exactly `count` sprinkled shapes with a catalog, standing in the scene in order; without one the loop breaks at once, placing nothing and using no roll |
| MultiplyColumn.Run | script.js:335-379 | the rows spell the first word in alternating case; the sidebar holds the other words; 2 to 6 sprinkled solid shapes centred on whole pixels inside the padded canvas with a catalog, none without; rows, sidebar and shapes stand in the final scene in that order |
| GridRhythm.StrokeBranchDead | script.js:404-408 | a grid shape's scale never exceeds 0.5, so the outline branch is never taken |
| GridRhythm.GridCell | script.js:399-414 | the cell is a shape exactly when its third roll exceeds 0.5 and there is a catalog, and is then solid black; otherwise it is a text cell holding one of the input words, upright or with the bare `90` transform |
| GridRhythm.Cells | script.js:397-416 | exactly two cells per row; every text cell holds an input word and every shape cell is solid black; the cells stand in the scene in order after what was there |
| GridRhythm.Run | script.js:382-417 | the headline is the first one to three words; 3 to 7 grid rows of exactly two cells; every text cell holds an input word and every shape cell is solid black; the headline and then the cells stand in the final scene in that order |
| Overlap.Collect | script.js:206-207 | the hits are exactly the elements of the kind that measure to a box, with their boxes, in document order |
| Overlap.Classify | script.js:213-223 | exactly one outcome per roll: above 0.66 a mask, in (0.33, 0.66] a white text, at most 0.33 a white shape |
| Overlap.Resolve | script.js:211-222 | one roll per crossing pair: above 0.66 the mask over the overlap is appended (or, without `placeWhiteMask`, the pass throws and nothing changes); in (0.33, 0.66] exactly the text's fill turns white; otherwise exactly the shape's descendants turn white in fill and stroke; nothing else changes |
| Overlap.PassKeepsLayout | script.js:206-225 | the pass keeps every element in place, only turning texts white or shapes white, and appends only masks of positive area |
| Overlap.PassAccount | script.js:206-225 | one roll per crossing (text, group) pair; the corrected pass never throws; as written nothing is appended; no crossing pair means no change; an element in no crossing pair is left as it was even when other pairs cross, so elements that are not measurable texts or top-level groups are never touched |
| Overlap.PassShows | script.js:206-225 | in a pass that runs to its end, every crossing pair's outcome is in the final scene, for the roll that pair reads: the mask over the overlap among the appended elements (with the mask defined), or the text white, or every descendant of the group white -- whatever later pairs did |
| Overlap.CrossingsTouchable | script.js:206-207 | only measurable texts and measurable top-level groups take part in a crossing pair |
| Overlap.TextsAccount | script.js:206-225 | the same accounting for the outer loop over texts, from any state: an element in no crossing pair of these texts and shapes is left as it was |
| Overlap.ShapesAccount | script.js:210-224 | the same accounting for one text against the shapes: only the text and the shapes it crosses can change |
| Overlap.ShapesShowAt | script.js:207-222 | the inner loop over the shapes leaves the outcome of each crossing pair, for the roll after the pairs before it |
| Overlap.TextsShowAt | script.js:206-223 | the outer loop over the texts leaves the outcome of each crossing pair, for the roll after every crossing pair before it |
| Overlap.ShowsForward | script.js:206-223 | what a pair left is never undone by later pairs: a white text stays white, a white shape stays white, an appended mask stays |
| Overlap.PassAgree | script.js:206-225 | whenever the pass as written finishes, it produced exactly what the corrected pass produces |
| Overlap.ExampleHits | script.js:206-207 | on a canvas holding one text measuring (0, 0, 100, 20) and one top-level group measuring (50, 10, 100, 20), exactly that text and that group are collected |
| Overlap.MaskRollAsWritten | script.js:213-216 | on that canvas with every roll 0.9, the pass as written uses one roll and throws, leaving the scene as it was |
| Overlap.MaskRollCorrected | script.js:213-216 | on the same input the corrected pass appends one white mask over (50, 10, 50, 10) and finishes |
| Overlap.MaskRollExample | script.js:213-219 | with that overlap and a roll of 0.9, the pass as written throws while the corrected pass appends the mask |
| Compose.ChooseRecipe | script.js:201-202 | the recipe is one of the six slots |
| Compose.RecipeOdds | script.js:201-202 | Vertical Stack and Mass Shape each own two sixths of the draws, Multiply Column and Grid Rhythm one sixth each, at the stated positions |
| Compose.RunRecipe | script.js:203 | the chosen recipe runs and its output carries everything that recipe promises (its runs and shapes, their counts and places in the scene); only Vertical Stack and Mass Shape place a backdrop, only with a catalog, and always first |
| Compose.Finish | script.js:205-228 | the poster starts with exactly what the overlap pass left and reports the rolls the pass used; it is finished exactly when the pass did not throw, and only the version without `placeWhiteMask` can throw; when finished the footer with the first two words is the last element, otherwise the poster has no more elements than the recipe made |
| Compose.FinishAgree | script.js:216 | as written, a finished poster equals the corrected one, and a thrown one has fewer elements: no mask and no footer |
| Compose.Compose | script.js:187-229 | the recipe is chosen exactly when the text has words; no words gives exactly the background and the placeholder with no roll used; otherwise the recipe comes from the first roll and runs on the background canvas from the second roll on, its output carrying everything that recipe promises; the poster is the scene it left after the overlap pass and the footer; only Vertical Stack and Mass Shape leave a backdrop, only with a catalog, Mass Shape always with one; with the mask defined the poster finishes with the footer last; the background is painted first or right after the backdrop shape, which it then covers |
| Compose.FooterWords | script.js:228 | the footer of any text splits back into its first two words, or its only word |
| Compose.FooterAdded | script.js:228 | the footer label is the run `addText` appends for the first two words, nine pixels tall, six pixels above the bottom edge |
| Compose.FooterExamples | script.js:228 | the footer of "HELLO WORLD" is "HELLO WORLD", and of three words it is the first two |

## Left out

- DOM and layout plumbing is not modelled because it is I/O and timing: element lookups, `setPaperHeight` with `requestAnimationFrame`, SVG namespace creation, `getShapes` cloning, `scheduleRender` throttling, event wiring, the character counter and printing. The canvas size and the shape catalog are inputs (`Engine.Env`).
- `crypto.getRandomValues` becomes an explicit entropy sequence. Its frequencies are statistical claims and are not contracts.
- Recipes, the overlap pass and `compose` read draws strictly below 1. The roll of exactly 1 (one chance in 2^32 per call) appears only in the `Rand` helpers, where its effects are stated: `b + 1` from `rndInt` and `undefined` from `pick`.
- `getBBox` becomes an arbitrary function of the element. Real text metrics are not modelled, so nothing is claimed about fitting twice.
- The overlap pass treats shape templates as flat lists of descendants. A `<text>` nested inside a catalog shape, which `querySelectorAll('text')` would also find, is not represented.
- IEEE-754 rounding is not modelled; all arithmetic is on exact reals.
- Transform strings are typed operations, so formatting is not modelled, including the leading space before a clone's offset.
- The geometry of a white mask is taken to be exactly the intersection rectangle, because `placeWhiteMask` has no body in the file.
- Recipe pixel constants (sizes, jitter, positions) are carried through but only counts, contents, case and shape styles are stated about them.
- `async`/`await` is not modelled. A recipe runs to completion before the pass.
- Engine.Env: the canvas is assumed to be at least 32 pixels wide and tall, so that no fitting budget and no range between the paddings is negative. The printed poster is 80 mm wide and at least 150 mm tall, far above that.
- Transforms.FitTextToWidth: requires a non-negative budget. A negative one would flip the text or divide by zero, and every call site passes a non-negative budget on such a canvas.
- Scene.PlaceShape: requires a positive scale. A zero scale would give an infinite stroke width; every caller draws its scale from a positive range.
- PosterHeight.ComputeHeightMm: counts Dafny characters, whereas JavaScript's `length` counts UTF-16 code units. The two differ for characters outside the Basic Multilingual Plane.
- Words.Upper: maps ASCII letters only; `toUpperCase` also maps other scripts and can change the length (ß becomes SS).
- Words.Lower: maps ASCII letters only; `toLowerCase` also maps other scripts.

## Findings

| source | as written | input that shows it | evidently intended | confidence | as-written member | corrected member |
|---|---|---|---|---|---|---|
| script.js:216 | `placeWhiteMask(svg, inter)` is called but defined nowhere, so the first crossing pair whose roll exceeds 0.66 throws; `compose` then rejects and never adds the rest of the pass or the footer label | a text measuring (0, 0, 100, 20) and a top-level group measuring (50, 10, 100, 20), with overlap roll 0.9 | a white mask over the intersection rectangle, after which the pass continues and the footer is added | not executed; high (the name has no definition anywhere in the file) | Compose.FinishAgree, shown by Overlap.MaskRollExample | Compose.Compose |
