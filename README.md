# GED Math Visualized — a verified model of its core

GED Math Visualized is a single-page study app for the GED maths test. A
learner picks one of four topics (Number Operations, Algebra Fundamentals,
Geometry, Data & Statistics), then one of its three lessons. The lesson shows
an interactive widget and a "Mark as Complete" button, and a progress ring in
the header counts completed lessons. This project models the app's logic in
Dafny and proves what that logic promises.

- `content.dfy` (`Content`): the static `topics` table (4 topics of 3
  lessons) and the content registry `getLessonContent`. The registry maps a
  lesson's content key to one of five widgets, or to the "coming soon"
  placeholder.
- `navigation.dfy` (`Navigation`): the `GEDMathApp` controller, a class
  with three fields:
  - `selectedTopic`;
  - `selectedLesson`;
  - the `completedLessons` set.

  Its handlers are the logo, a topic card, "Back to Topics", a lesson row,
  "Back to …" and `markComplete`. The module also holds the rule choosing
  which screen is shown, the per-topic completion counts and the progress
  percentage.
- `fractions.dfy` (`Fractions`): the fraction lesson's numerator and
  denominator sliders, a class whose denominator handler pulls the numerator
  down with it.
- `equations.dfy` (`Equations`): the worked solution of 2x + 5 = 13. This is
  a step cursor (a class) moved by "Previous Step" and "Next Step", plus
  the rule deciding which steps, highlights and annotations are drawn.
- `linear.dfy` (`Linear`): the linear-function lesson. It covers:
  - the loop that marks points at x = -4, -2, 0, 2, 4 when they fall inside
    the plane;
  - the drawn line;
  - the rising/falling caption.
- `pythagorean.dfy` (`Pythagorean`): the integer squares line
  a² + b² = c², and the note that 3-4-5 is a Pythagorean triple.
- `statistics.dfy` (`Statistics`): mean, median and mode of the lesson's
  data set. The mode is computed as the source computes it: a frequency map
  built in a loop, its largest value, then the keys that reach it.
- `plane.dfy` (`CoordinatePlane`): the affine maps `xScale`/`yScale` from
  logical coordinates to the 400 × 400 drawing, and the integer grid lines.
- `animation.dfy` (`Animation`): the counting animation's progress and its
  cubic ease-out curve.
- `wrappers.dfy` (`Wrappers`): `Option`, which stands for JavaScript's
  `null` and for the NaN of an empty data set.

## Model

| member | source | states |
|---|---|---|
| Content.AllLessons | app.jsx:217-310 | a lesson is in the flattened catalogue exactly when some topic lists it |
| Content.TotalIsFlattenedLength | app.jsx:844 | the `totalLessons` fold equals the number of lessons in the flattened catalogue |
| Content.CatalogueIdsDistinct | app.jsx:217-310 | the four topic ids are pairwise distinct, and so are all twelve lesson ids |
| Content.CatalogueShape | app.jsx:217-310 | 4 topics, each with 3 lessons; `totalLessons` is 12; there are 12 distinct lesson ids |
| Content.DistinctIdsCount | app.jsx:845 | a lesson list with pairwise distinct ids has exactly as many ids as lessons |
| Content.LessonContent | app.jsx:816-836 | the placeholder is returned exactly for keys outside the five registered ones; a real widget is returned only for its own key |
| Content.ContentKeyRoundTrip | app.jsx:817-821 | each of the five widgets is returned for the key it is registered under |
| Content.CatalogueWidgets | app.jsx:816-836 | which lessons get which widget: fractions, solving, linear, pythagorean and mean get theirs; the other seven show the placeholder |
| Navigation.FindTopic | app.jsx:1086 | the result is the first topic with the id; it is absent exactly when no topic has that id |
| Navigation.TopicLessons | app.jsx:1086 | the listed lessons are catalogue lessons; an unknown topic id lists none |
| Navigation.TopicListsOwnLessons | app.jsx:1086 | when topic ids are distinct, a topic's own id lists exactly that topic's lessons |
| Navigation.CatalogueTopicLessons | app.jsx:1086 | each catalogue topic's id lists exactly its own lessons |
| Navigation.ScreenOf | app.jsx:961-1186 | lesson screen iff a lesson is selected; else lesson list iff a topic is selected; else topic grid. The widget is the registry's for the lesson's key; the mark button shows iff the lesson is not yet complete |
| Navigation.WithCompleted | app.jsx:847-851 | marking only adds: the old set is kept, the only new id is the selected lesson's, and with no lesson selected nothing changes |
| Navigation.WithCompletedIdempotent | app.jsx:847-851 | marking twice is the same as marking once, and adds at most one id |
| Navigation.CountCompleted | app.jsx:987 | the topic card's count is at most the lesson count; it equals it iff every lesson is complete, and is 0 iff none is |
| Navigation.CountCompletedIsIntersection | app.jsx:987 | for lessons with distinct ids, the count is the size of completed ∩ lesson ids |
| Navigation.TopicCountsAddUp | app.jsx:953-987 | when only catalogue ids are complete, the four card counts add up to the header's `completedLessons.size` |
| Navigation.CompletedAtMostTwelve | app.jsx:842-845 | at most the twelve catalogue ids can be complete; there are 12 exactly when all of them are |
| Navigation.ProgressBounds | app.jsx:844-845 | progress is in [0, 100], and is 100 exactly when every catalogue lesson is complete |
| Navigation.ProgressTwoOfTwelve | app.jsx:845 | any two completed lessons give 2/12 of 100 |
| Navigation.GedMathApp.constructor | app.jsx:840-842 | the app opens on the topic grid with nothing selected and nothing complete |
| Navigation.GedMathApp.ClickLogo | app.jsx:916 | clears both selections (topic grid) and keeps the completion set |
| Navigation.GedMathApp.ClickTopic | app.jsx:991 | from the grid, selects the topic and shows its lesson list |
| Navigation.GedMathApp.BackToTopics | app.jsx:1068 | from a lesson list, clears the topic and shows the grid |
| Navigation.GedMathApp.ClickLesson | app.jsx:1086-1093 | a lesson of the selected topic's list becomes the selected lesson; its lesson screen shows |
| Navigation.GedMathApp.BackFromLesson | app.jsx:1151 | clears only the lesson, landing on the same topic's lesson list |
| Navigation.GedMathApp.MarkComplete | app.jsx:847-851 | the completion set becomes `WithCompleted` of the old set and selection; both selections unchanged; invariant kept |
| Fractions.NumeratorAfter | app.jsx:366-370 | the new numerator is the old one or the new denominator, whichever is smaller |
| Fractions.DenominatorKeepsFraction | app.jsx:350-371 | moving the denominator within [1, 12] keeps 0 ≤ numerator ≤ denominator; the numerator changes only when it exceeded the new denominator |
| Fractions.FractionsLesson.constructor | app.jsx:315-316 | the lesson opens on 3/4 |
| Fractions.FractionsLesson.SetNumerator | app.jsx:350-355 | a value in [0, denom] becomes the numerator; the denominator is unchanged |
| Fractions.FractionsLesson.SetDenominator | app.jsx:362-371 | sets the denominator and makes the numerator `NumeratorAfter`; the invariant is kept |
| Equations.PreviousStep | app.jsx:428 | never below 0; one step back from any step ≥ 1 |
| Equations.NextStep | app.jsx:445 | never above the last step; one step forward before it |
| Equations.CursorStaysInRange | app.jsx:428-446 | from any step, both buttons stay in range and move by at most one; each stands still only at its own end |
| Equations.StepViews | app.jsx:161-185 | a step is revealed iff its index ≤ the cursor and golden iff it equals the cursor. Its annotation is drawn iff it is non-empty and the step is revealed |
| Equations.RevealedCountIsPrefix | app.jsx:166 | with the cursor at s, exactly s + 1 steps are revealed |
| Equations.NextRevealsOneStep | app.jsx:176-185 | "Next Step" below the end reveals one more step, together with its hidden annotation |
| Equations.EquationsLesson.constructor | app.jsx:388-396 | the lesson opens on the first of the five steps |
| Equations.EquationsLesson.Previous | app.jsx:428 | the cursor becomes `PreviousStep`; the invariant is kept |
| Equations.EquationsLesson.Next | app.jsx:445 | the cursor becomes `NextStep`; the invariant is kept |
| Linear.SamplePoints | app.jsx:474-479 | every emitted point is a sampled x on the line inside the plane; every such point is emitted; x strictly increases |
| Linear.LineEndpoints | app.jsx:472 | the drawn line runs from x = -5 to x = 5 with both ends on y = slope·x + intercept |
| Linear.CaptionsMatchLine | app.jsx:560-562 | "rises"/"falls"/"horizontal" hold iff the right end is higher/lower/level; the line crosses x = 0 at the intercept |
| Linear.PointsOnLine | app.jsx:472-479 | each marked point is collinear with the drawn line |
| Pythagorean.Squares | app.jsx:652 | the line shows a·a, b·b and their sum a·a + b·b; c² exceeds each square whose other leg is non-zero |
| Pythagorean.SquaresInSliderRange | app.jsx:659-678 | with legs in [1, 8], c² lies in [2, 128] |
| Pythagorean.TripleNoteIsTriple | app.jsx:683-692 | whenever the triple note shows, c² = 25 and the hypotenuse is whole |
| Pythagorean.UnitLegs | app.jsx:573-683 | for legs 1 and 1, c² = 2, no integer c exists, and no note shows |
| Pythagorean.NoteOmitsSixEightTen | app.jsx:683 | the note is no test for whole hypotenuses: 6-8-10 is whole and gets no note |
| Statistics.SumBounds | app.jsx:705 | data within [lo, hi] sum to between lo·n and hi·n |
| Statistics.Mean | app.jsx:705 | the mean exists iff the data are non-empty, and mean × n equals the sum |
| Statistics.MeanWithinBounds | app.jsx:705 | the mean lies within any bounds of the data |
| Statistics.Insert | app.jsx:704 | inserting into a sorted list keeps it sorted and adds exactly one occurrence of the value |
| Statistics.SortAscending | app.jsx:704 | the sorted copy is ascending and a permutation of the data |
| Statistics.SortedPermutationUnique | app.jsx:704 | two ascending permutations of the same data are equal, so the median does not depend on the sort used |
| Statistics.Median | app.jsx:706-708 | the median exists iff the data are non-empty |
| Statistics.MiddleSplits | app.jsx:706-708 | in sorted data, the first half lies at or below the middle value(s) and the second half at or above |
| Statistics.MedianSplitsSorted | app.jsx:706-708 | the median is ≥ each value of the sorted lower half and ≤ each value of the upper half |
| Statistics.MedianSplitsData | app.jsx:706-708 | at least half of the data (with multiplicity) lies at or below the median, and at least half at or above |
| Statistics.MedianOfSortedEven | app.jsx:706-707 | for already-sorted data of even length, the median is the average of the two middle entries |
| Statistics.SortedDataSortsToItself | app.jsx:704 | sorting sorted data changes nothing |
| Statistics.Modes | app.jsx:710-713 | every mode is a value of the data |
| Statistics.ModesNonEmpty | app.jsx:712-713 | non-empty data have at least one mode |
| Statistics.Frequencies | app.jsx:710-711 | the map's keys are exactly the data values, each mapped to its number of occurrences |
| Statistics.MaxFrequency | app.jsx:712 | the result bounds every frequency and, for a non-empty map, is one of them |
| Statistics.ComputeMode | app.jsx:710-713 | the keys whose frequency equals the largest are exactly the values no other value outnumbers |
| Statistics.SampleMean | app.jsx:702-705 | the lesson's data have mean 5 |
| Statistics.SampleMedian | app.jsx:702-708 | the lesson's data have median 4.5 |
| Statistics.SampleMode | app.jsx:702-713 | the lesson's data have the single mode 4 |
| CoordinatePlane.XScaleRoundTrip | app.jsx:47 | for a non-degenerate range, `xScale` is invertible: pixels map back to the exact logical x and vice versa |
| CoordinatePlane.YScaleRoundTrip | app.jsx:48 | likewise for `yScale` |
| CoordinatePlane.ScaleEndpoints | app.jsx:43-48 | the range's ends map to the padding: x to 40 and 360, y to 360 (bottom) and 40 (top) |
| CoordinatePlane.ScaleMonotone | app.jsx:47-48 | for lo < hi, `xScale` is strictly increasing and `yScale` strictly decreasing |
| CoordinatePlane.ScaleInsidePlot | app.jsx:43-48 | values inside the range are drawn inside the padded area |
| CoordinatePlane.DefaultOriginCentred | app.jsx:42-48 | with the default [-5, 5] ranges the origin is at the drawing's centre (200, 200) |
| CoordinatePlane.GridValues | app.jsx:53-57 | the grid has hi - lo + 1 consecutive integers from lo (none for a reversed range); v is a grid line iff lo ≤ v ≤ hi |
| CoordinatePlane.GridInsidePlot | app.jsx:53-59 | every grid line lies inside the padded area, and the highlighted axis line is drawn iff 0 is in range |
| CoordinatePlane.DefaultGrid | app.jsx:42-57 | the default planes draw the lines -5 through 5 |
| Animation.ProgressBounds | app.jsx:30-33 | from the first frame on, progress is in [0, 1]; it is 1 and frames stop exactly once the duration has passed |
| Animation.EasedEndpoints | app.jsx:31 | the ease-out curve maps 0 to 0 and 1 to 1 |
| Animation.EasedBounds | app.jsx:31 | on [0, 1] the curve stays in [0, 1] and is never behind linear progress |
| Animation.EasedIncreasing | app.jsx:31 | the curve is strictly increasing on [0, 1] |
| Animation.DisplayedBetween | app.jsx:32 | the displayed value runs from the start value to the target and never leaves the interval between them |
| Animation.FrameBetween | app.jsx:30-32 | every frame displays a value between the start value and the target |
| Animation.FinalFrame | app.jsx:30-33 | once the duration has passed, the target itself is displayed and no further frame is requested |

## Left out

- Rendering: SVG, styles, colours, icons, keyframes and layout. Topic icons
  and colours are not kept in `Topic`, and the reveal rule models which
  steps are highlighted rather than their opacity values.
- React hook semantics: state updates happen in their own render, and
  `AnimatedNumber`'s and `FractionVisual`'s `useEffect`,
  `requestAnimationFrame` and `setTimeout` scheduling is not modelled. Time
  enters `Animation` as the elapsed milliseconds, a parameter.
- Floating point: the coordinate maps, the mean, the median, the slope and the easing curve are exact `real`
  arithmetic, so rounding of IEEE doubles is not modelled.
- `Math.sqrt` and `toFixed` for the hypotenuse, `Math.round` for the
  fraction percentage and the animated number, the progress ring's π
  geometry, the chart's bar heights and `maxVal`: display only. The
  Pythagorean model keeps c² and states when c is a whole number.
- Navigation.GedMathApp.ClickTopic, ClickLesson, BackToTopics and BackFromLesson:
  their `requires` stand for the screens on which those buttons exist. The
  source attaches them to elements that only render there.
- Fractions.FractionsLesson.SetNumerator and SetDenominator: the values come
  from range inputs. The browser keeps those values within the inputs'
  `min`/`max`, so the handlers require the slider domain.
- The linear and Pythagorean sliders' state (slope, intercept, legs) enters
  as parameters of the functions, not as a class. These handlers only store
  the slider value, so there is no update rule to model.
- Statistics.ComputeMode: the mode is a set. The order that
  `Object.entries` gives its keys, and the detour through string keys and
  `Number(k)`, are not modelled.
- Statistics.MaxFrequency: for an empty map the source's `Math.max` gives
  -Infinity, while the model gives 0. Either way the resulting mode list is
  empty.
- Statistics.Mean and Median: the empty data set gives NaN in the source
  and `None` here. The lesson's data are fixed and never empty.
- CoordinatePlane.XScale and YScale: a degenerate range (lo = hi) divides by
  zero in the source. The model requires lo ≠ hi.
- Animation.Progress: a zero duration gives NaN or Infinity in the source.
  The model requires a positive duration, and the app only uses the default
  1000 ms.
- Equations.SolutionSteps: the fourth step is written with the division sign "÷". The source file's text shows that sign mis-encoded (as "√∑"); the model uses the character that rendering intends.
- The header's "x/12 lessons" text and the topic cards' "completed" counts
  are modelled as numbers. Their string formatting is not.
