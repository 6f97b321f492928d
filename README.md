# Wall alignment: picture spacing and nail positions

A Dafny model of the arithmetic behind the wall alignment tool. Given a wall
length, a picture width and a number of pictures, the tool spaces the pictures
evenly (the same gap at both ends and between neighbours) and derives, for each
picture, the nail position: the distance from the wall's start to the picture's
centre.

- `types.dfy`, module `Types`: the `Measurements` record (three gaps) and an
  `Option` type standing for the `Measurements | null` result.
- `app.dfy`, module `App`: the spacing calculation as a function, the nail
  position loop as a method proved against a closed form, the recomputation
  that combines them, and lemmas on fill, order and bounds.
- `scenarios.dfy`, module `Scenarios`: worked examples whose results follow
  from the contract of `App.Recompute` alone.

Lengths are exact `real` numbers and the picture count is an `int`.

## Model

| member | source | states |
|---|---|---|
| `App.CalculateSpacing` | src/App.tsx:14-30 | no pictures (count <= 0) gives "does not fit"; total picture width above the wall length gives "does not fit"; otherwise the result exists, its three gaps are equal and non-negative, and margins, pictures and inner gaps add up exactly to the wall length |
| `App.NailPositions` | src/App.tsx:35-40 | the nail list has `imageCount` entries (none for a non-positive count) and entry `i` is `wallToFirst + imageWidth/2 + i*(imageWidth + betweenImages)` |
| `App.CalculateNailPositions` | src/App.tsx:32-46 | the cursor loop yields exactly the closed-form nail list, and neighbouring nails are one picture width plus one gap apart |
| `App.Recompute` | src/App.tsx:48-50 | no nails when the pictures do not fit; otherwise `imageCount` nails in closed form, the last nail plus half a picture plus the right margin equals the wall length, and for non-negative widths every nail lies within `[0, wallLength]` |
| `App.ExactFitHasZeroGaps` | src/App.tsx:17-28 | pictures whose total width equals the wall length fit, with all three gaps zero |
| `App.NailsNonDecreasing` | src/App.tsx:38-40 | with non-negative width and gap, a later nail is never before an earlier one |
| `App.NailsIncreasing` | src/App.tsx:38-40 | with positive width plus gap, a later nail is strictly after an earlier one |
| `App.LastNailMeetsWallEnd` | src/App.tsx:22-40 | for a layout that fits, the last nail plus half a picture plus the right margin lands exactly on the wall's end |
| `App.NailWithinWall` | src/App.tsx:22-40 | for a layout that fits and a non-negative width, every nail lies between the wall's start and its end |
| `Scenarios.ScenarioInitialState` | src/App.tsx:9-12 | the initial inputs (wall 200, width 30, three pictures) give gaps of 27.5 and nails at 42.5, 100 and 157.5 |
| `Scenarios.ScenarioExactFit` | src/App.tsx:17-28 | wall 90 with three pictures 30 wide gives zero gaps and nails at 15, 45 and 75 |
| `Scenarios.ScenarioOverflow` | src/App.tsx:18-20 | wall 50 with three pictures 30 wide does not fit and yields no nails |
| `Scenarios.ScenarioNoImages` | src/App.tsx:15 | zero pictures never fit, for any wall and width, and yield no nails |

Nails are strictly increasing only when width plus gap is positive. With
zero-width pictures on a zero-length wall every gap is zero and all nails
coincide, so non-negative width and gap alone give only non-decreasing order.

The spacing calculation is a function of its three inputs, so two calls with
the same inputs give the same measurements; no lemma is needed for that.

## Left out

- Rendering (src/App.tsx:52-141 and the components under src/components/): percentage widths, one-decimal formatting and form fields are presentation only.
- Input parsing with `Number(...)` and the `min` hints of the form fields; the model takes the numbers as given, and properties that need a non-negative width say so in their `requires`.
- React state and memoisation (`useState`, `useCallback` and their dependency lists); the inputs are plain parameters and `App.Recompute` stands for one re-render.
- `imageHeight` is stored but never used in any computation.
- The callback signatures of `WallAlignmentProps` in src/types.ts are UI wiring.
- IEEE-754 rounding of JavaScript numbers: lengths are exact reals, so "fills the wall" is exact equality rather than equality within a tolerance.
- Non-integer picture counts: the count is an `int`; JavaScript would run the loop `ceil(imageCount)` times for a fractional count.
