# Globe, search and quiz logic of "Un monde sans frontière"

The page `script.js` drives an interactive 3D globe with country markers, a
country search box and a five-question culture quiz. Around the rendering and
DOM calls sits a small amount of exact logic, modelled here in Dafny:

- `getFlagEmoji` (module `Flag`): a two-letter country code becomes two Unicode
  regional-indicator symbols; proved invertible up to case.
- `loadCountries` (module `Countries`): the parsed directory records are folded
  into the name-keyed `countryData` object. Records without non-zero capital
  coordinates are dropped, later records overwrite earlier ones, and keys keep
  their first insertion order. A failed fetch gives a one-entry fallback table.
  `AddCountries` is the `forEach` loop, proved equal to the fold `BuildTable`;
  `LoadCountries` chooses between it and the fallback.
- The search box (module `Search`): lower-case, trim, close the list under two
  UTF-16 units, otherwise list the matching keys in table order, ten at most,
  or a "no country found" line.
- The quiz (module `Quiz`): class `QuizSession` holds `currentQuestion`, `score`
  and `answered`. Its invariant is that the score never exceeds the number of
  questions answered. The module also has the rounding percentage and the
  three result tiers. `Valid()` does not bound the score by the denominator's
  chain up to the question count: after the last "next" the state is
  (5, score, true), whose denominator is 6, so the bound by the number of
  questions is stated by `UpdateScore` only while a question is shown.
- Pointer and rotation flags (module `Globe`): class `GlobeControls` holds
  `mouseDown`, `isAutoRotating`, the last pointer position and the target and
  current rotations. Its invariant states that drag deltas telescope. Pure
  lemmas cover easing and whole drags.

Module `JsText` gives the JavaScript string operations these use
(`toLowerCase`, `trim`, `length`, `includes`, `join`); `Wrappers` gives `Option`.

Three behaviours of the code are easy to misread:
a record is dropped not only when its capital coordinates are missing but also
when either of them is exactly 0 (`|| null`); the stored `culture` is the
languages string, identical to `langues`, while the fallback entry has
different texts for the two; and `selectAnswer` is guarded only by `answered`.

## Model

| member | source | states |
|---|---|---|
| Flag.FlagEmoji | script.js:11-18 | one code point per input code unit |
| Flag.DecodeFlag | script.js:11-18 | subtracting 0x1F1E6 - 65 from every output code point gives back the upper-cased code, for every input |
| Flag.FlagInRange | script.js:11-18 | every output lies in U+1F1E6..U+1F1FF if and only if the code consists of letters A-Z in either case |
| Flag.FlagInjective | script.js:11-18 | two codes give the same flag if and only if they are equal after upper-casing |
| Flag.FlagOfFrance | script.js:55 | the fallback's flag is exactly `getFlagEmoji("FR")`, and "fr" gives the same flag |
| JsText.Lower | script.js:528 | lower-casing keeps the length |
| JsText.LowerIdempotent | script.js:528 | lower-casing twice is lower-casing once, and no upper-case ASCII letter remains |
| JsText.TrimStartShape | script.js:528 | the leading trim removes exactly a prefix of white space and stops at a non-space |
| JsText.TrimEndShape | script.js:528 | the trailing trim removes exactly a suffix of white space and stops at a non-space |
| JsText.TrimShape | script.js:528 | `trim` returns a slice s[i..j] with only white space outside it, neither starting nor ending with white space |
| JsText.Trim | script.js:528 | `trim` never lengthens a string, and its result neither starts nor ends with white space |
| JsText.Utf16Length | script.js:530 | a string's `length` counts one or two UTF-16 units per character |
| JsText.Utf16LengthAscii | script.js:530 | for characters of the Basic Multilingual Plane `length` is the character count |
| JsText.ContainsIff | script.js:536 | `includes` holds if and only if the query occurs at some index |
| JsText.Contains | script.js:536 | `includes` fails for a query longer than the string and holds for the empty query |
| JsText.ContainsNeedsFirst | script.js:536 | a string lacking the query's first character does not include the query |
| JsText.Join | script.js:35 | `join` of no parts is ""; otherwise the result starts with the first part and its length is the parts' total plus one separator between each pair of neighbours |
| Countries.Put | script.js:37 | property assignment keeps the table well-formed: a new key goes last, an existing key keeps its place and gets the new value |
| Countries.MakeCountry | script.js:28-45 | a record is kept if and only if both capital coordinates are present and non-zero; a kept record is positioned at (`latlng[0]`, `latlng[1]`), has `culture == langues` (the joined languages or "Multiple"), the three placeholder monuments, the name "flag name", the region description, and the localised population or "N/A" for a missing or zero one |
| Countries.Coordinate | script.js:30-31 | a coordinate is present if and only if the record has that entry of `latlng` and it is non-zero (the `or null` fallback treats a falsy 0 as missing); a present one is that entry |
| Countries.LanguagesText | script.js:35 | no `languages` object gives "Multiple"; an empty one gives ""; otherwise the text starts with the first language and is as long as the languages joined with ", " |
| Countries.DescriptionText | script.js:40 | the description starts with "A vibrant nation in " and the region, ends with the fixed tail, and has " (subregion)" between them exactly when the subregion is non-empty |
| Countries.PopulationText | script.js:43 | a missing or zero population gives "N/A", any other the `toLocaleString` text |
| Countries.AddCountry | script.js:27-45 | one `forEach` step keeps the table well-formed |
| Countries.BuildTable | script.js:26-46 | the folded table is well-formed: each key listed once, and the keys are exactly the stored names |
| Countries.LoadCountries | script.js:21-64 | a parsed directory gives exactly the fold of its records; a failed fetch gives the fallback table; the result is always a well-formed table |
| Countries.AddCountries | script.js:26-45 | the `forEach` loop, started from an empty object, builds exactly the fold `BuildTable` of the records |
| Countries.Fallback | script.js:52-63 | the fallback is a well-formed table whose only key is "France", and unlike fetched records its `culture` differs from its `langues` |
| Countries.FallbackShape | script.js:52-63 | the fallback is a well-formed one-entry table keyed "France" whose name carries exactly the flag `getFlagEmoji` gives for "FR" |
| Countries.BuildTableKeys | script.js:30-37 | a name is a key if and only if some record with that name has both coordinates present and non-zero |
| Countries.BuildTableLastWins | script.js:27-37 | the stored value for a name is the one made from the last kept record with that name |
| Countries.BuildTableRecords | script.js:35-44 | every stored record has `culture == langues`, the three placeholder monuments and non-zero coordinates |
| Countries.BuildTableOrder | script.js:26-46 | the keys are the kept names in order of first occurrence; an overwrite does not move a key |
| Countries.ShowCountryInfo | script.js:226-228 | for names that are not `Object.prototype` members: a key of the table shows its stored record; any other name leaves the panel as it was |
| Search.Search | script.js:527-568 | the list closes if and only if the normalised query has fewer than two UTF-16 units; a result list has one to ten entries, each a table key that includes the query |
| Search.Matches | script.js:535-536 | the filter is no longer than the key list and keeps only keys whose lower-cased form includes the query |
| Search.Take | script.js:537 | `slice(0, n)` keeps the first min(n, length) elements |
| Search.MatchesExact | script.js:535-536 | the filter keeps exactly the keys whose lower-cased form includes the query, in their original order |
| Search.SearchClosedIff | script.js:528-533 | the list is closed if and only if the trimmed, lower-cased query has fewer than two UTF-16 units |
| Search.SearchNotFoundIff | script.js:535-568 | "no country found" shows if and only if the query is long enough and no key includes it |
| Search.SearchResults | script.js:535-553 | a result list is the first min(10, n) of the n matches, every item is a key of the table that includes the query, and clicking it shows that country (for names that survive the `data-country` attribute unchanged) |
| Search.LowerExamples | script.js:528 | lower-casing maps "  FRA " to "  fra " and "France" to "france" and leaves "fra" unchanged |
| Search.TrimExamples | script.js:528 | trimming turns "  fra " into "fra" and leaves queries without blanks unchanged |
| Search.TrimUnpadded | script.js:528 | a string that neither starts nor ends with white space is unchanged by `trim` |
| Search.NormalizeExamples | script.js:528 | "  FRA " normalises to "fra"; "F" is one unit long |
| Search.KeyMatchesExample | script.js:535-536 | "France" includes "fra" once lower-cased, "Germany" does not, neither includes "xyz" |
| Search.MatchesExample | script.js:535-537 | filtering [France, Germany] by "fra" gives [France], by "xyz" nothing |
| Search.SearchExample | script.js:528-568 | "fra" lists France only, "F" closes the list, "xyz" shows "no country found" |
| Quiz.QuizDataWellFormed | script.js:283-309 | five questions, each correct index names one of its options |
| Quiz.Percentage | script.js:370 | the percentage is the integer nearest to 100 * score / total, halves up, and lies in 0..100 when 0 <= score <= total |
| Quiz.NearestPercent | script.js:370 | the rounding bounds behind `Math.round` |
| Quiz.PercentageMonotone | script.js:370 | a higher score never gives a lower percentage |
| Quiz.ResultOf | script.js:368-384 | the final screen shows score out of 5 at 20 percent per correct answer, with the tier of that percentage |
| Quiz.TierOf | script.js:373-379 | the top tier if and only if the percentage is at least 80, the middle one if and only if it is 60 to 79, the lowest if and only if it is below 60 |
| Quiz.TierFiveQuestions | script.js:373-379 | with five questions 4-5 correct is the top tier, 3 the middle one, 0-2 the lowest |
| Quiz.QuizSession.Denominator | script.js:365 | the displayed denominator is the question index, plus one exactly when the current question is answered |
| Quiz.QuizSession.constructor | script.js:311-313 | the quiz starts at question 0, score 0, unanswered, satisfying the score invariant |
| Quiz.QuizSession.LoadQuestion | script.js:315-333 | shows the current question, clears `answered`, keeps index and score, and shows score/index |
| Quiz.QuizSession.SelectAnswer | script.js:335-352 | a second answer is ignored; a first answer sets `answered` and adds one exactly when it is the correct index; the index never changes; the score invariant holds |
| Quiz.QuizSession.NextQuestion | script.js:354-362 | the index advances by one; below the question count the next question is armed, otherwise the final result is shown; the score invariant holds |
| Quiz.QuizSession.UpdateScore | script.js:364-366 | while a question is shown, the displayed score is at most the displayed denominator, which is at most the number of questions |
| Quiz.QuizSession.ShowQuizResult | script.js:368-388 | top tier if and only if the percentage is at least 80, middle if and only if 60 to 79, lowest otherwise |
| Quiz.QuizSession.RestartQuiz | script.js:390-403 | back to question 0, score 0, unanswered, with the first question shown |
| Quiz.CorrectCount | script.js:344-346 | the number of correct answers lies between 0 and the number of answers |
| Quiz.CorrectCountAll | script.js:344-346 | the count equals the number of answers if and only if every answer is correct |
| Quiz.PlayQuiz | script.js:335-362 | answering every question and pressing "next" after each ends with a result whose score is the number of correct answers |
| Quiz.PlayQuizExamples | script.js:368-379 | five correct answers give 5/5, 100% and the top tier; one correct gives 20% and the lowest tier |
| Globe.AutoRotates | script.js:247 | holding the button or switching auto-rotation off stops the spin; with it on and the button up, the frame spins |
| Globe.Ease | script.js:250-251 | an easing frame shrinks the distance to the target to 95% and never passes the target |
| Globe.EaseFramesGap | script.js:249-251 | after n easing frames the distance to a fixed target is 0.95^n of the initial distance |
| Globe.EaseFramesNoOvershoot | script.js:249-251 | easing toward a fixed target stays between the start and the target for any number of frames |
| Globe.DragTelescopes | script.js:175-185 | over a drag, the per-move deltas sum to 0.01 times (last pointer x minus mousedown x) |
| Globe.GlobeControls.constructor | script.js:3-6 | auto-rotation on, no button held, pointer and targets at zero |
| Globe.GlobeControls.MouseDown | script.js:164-169 | sets `mouseDown`, clears `isAutoRotating`, records the pointer; targets unchanged |
| Globe.GlobeControls.MouseUp | script.js:171-173 | clears `mouseDown` only; auto-rotation stays off |
| Globe.GlobeControls.MouseMove | script.js:175-185 | while the button is held, adds 0.01 times the pointer delta to the targets (x to yaw, y to pitch) and keeps them equal to 0.01 times the displacement since mousedown; otherwise changes nothing |
| Globe.GlobeControls.Animate | script.js:244-252 | a frame auto-rotates the yaw by 0.005 exactly when `isAutoRotating && !mouseDown`, otherwise eases both angles toward the targets |
| Globe.GlobeControls.ResetGlobe | script.js:258-264 | zeroes both targets; turns auto-rotation on when the camera exists, and otherwise (the call throws at `camera.position.set`) leaves the flag as it was; `mouseDown` is unchanged |
| Globe.GlobeControls.ToggleAutoRotation | script.js:266-270 | flips `isAutoRotating` and gives the button the matching caption |

## Left out

- The Three.js scene, camera, renderer, globe texture, markers, ray-cast hover and click hit-testing (script.js:68-136, 147-156, 187-222): calls into a rendering library. The hover cursor and marker highlight are not modelled.
- The marker projection from latitude and longitude (script.js:140-145): floating-point trigonometry.
- Floating-point arithmetic: rotations, targets, coordinates and percentages are exact reals or integers. `Globe.Ease`, `Globe.GlobeControls.MouseMove` and `Quiz.Percentage` ignore IEEE double rounding. For five questions no rounding error can change the rounded percentage. NaN coordinates are not modelled.
- `fetch`, `await` and the DOM-ready and IntersectionObserver start-up (script.js:21-24, 433-465, 471-498, 580-584): network I/O and scheduling. `Countries.LoadCountries` receives the parsed record list, or None for a failed fetch or parse.
- Search.SearchResults: a clicked result's key goes through the `data-country` HTML attribute (script.js:541, 550) and comes back unchanged only for names without `"` and without character references such as `&amp;`; the model takes the key back as written. Country names from the directory have neither.
- Countries.LoadCountries: an exception inside the `forEach` (a record without `cca2`, or a kept record without `name`; a record without `name` and without coordinates is skipped before the name is read) also leads to the fallback table. In the model every record has these fields, so this path is not represented.
- Countries.MakeCountry: an absent `region` would print "undefined" in the description; the model takes `region` as always present, and an absent subregion as the empty string (both are falsy).
- `toLocaleString` (script.js:43): locale-dependent. It is the parameter `localize`; a missing or zero population gives "N/A".
- JsText.Lower: maps only ASCII letters; JavaScript's full Unicode case mapping (for example "Côte d'Ivoire") is not modelled.
- Flag.UpperUnit: maps only ASCII letters. Country codes are ASCII; a non-ASCII `toUpperCase` that changes the length is not modelled.
- `includes` is modelled over Unicode scalar values rather than UTF-16 code units; for well-formed strings the two agree. `length` is counted in UTF-16 units (`JsText.Utf16Length`).
- Countries.ShowCountryInfo, Countries.Put: `countryData` is a plain object, so names of `Object.prototype` members ("constructor", "toString", "__proto__" and the like) behave differently: a lookup of such a name that is not a key finds the inherited member, overwrites the panel's name and description and then throws, and assigning `countryData["__proto__"]` changes the prototype instead of adding a key. The model treats every name as an ordinary key; the page itself only looks up keys taken from the table.
- Countries.Put: JavaScript lists integer-like property names before all others. The table uses plain insertion order, which is what country names get.
- All DOM writes: the country panel's HTML and scrolling, the quiz markup, marking options correct or incorrect, showing the "next" button, the search result HTML, closing the list on an outside click (script.js:229-240, 317-330, 340-350, 381-400, 539-576), and the navbar, smooth scroll, floating emoji, injected CSS and resize handler (script.js:273-280, 405-431, 471-495, 500-520).
- The globe recentring after a search result click (script.js:555-562): once the globe has been initialised, its second line reads an undeclared `lon`, so the handler throws a ReferenceError after the panel is shown and the box is cleared; before that the guarded block is skipped. In both cases the targets never change. Only the panel lookup (`Countries.ShowCountryInfo`, `Search.SearchResults`) is modelled.
- Resetting the camera position and hiding the panel in `resetGlobe` (script.js:261-262): rendering and DOM calls. Whether the camera exists is the parameter `cameraReady` of `Globe.GlobeControls.ResetGlobe`: it is set only by `initGlobe` (script.js:73), which runs once the map section is visible and fails when Three.js is missing (script.js:438-455). Without it the call throws after zeroing the targets and leaves `isAutoRotating` unchanged. The panel element is taken to exist.
- The message strings of the result tiers (script.js:374-378): DOM text; the tier itself is modelled.
- `console.log` and `console.error` (script.js:48, 50, 447).
