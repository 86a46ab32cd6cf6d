# SayAgain caption fit policy, in Dafny

SayAgain is a React Native app. It shows live speech-to-text captions over a camera viewfinder. The app's only real logic is on the camera screen:

- **Caption fit policy.** The speech engine's latest partial results are joined with single spaces. If the joined line reaches the character budget for the current orientation, only its trailing characters are kept. The budget is 30 in either portrait orientation and 70 in every other state, including the unset initial state.
- **Language label lookup.** The screen shows the display label for the language tag it was opened with. It takes the label from a table that matches the home screen's picker.

Files:

- `wrappers.dfy` (module `Wrappers`): an `Option` type. It stands for the `null` orientation state and for a failed table lookup.
- `text.dfy` (module `JsText`): the two JavaScript string operations the policy uses, `Array.prototype.join` and one-argument `String.prototype.slice`. Each `char` stands for one UTF-16 code unit, which is what JavaScript's `length` and `slice` count. A surrogate code unit is encoded as some other non-space `char`, which the model never inspects.
- `caption.dfy` (module `Caption`): the orientation datatype and the budget. `FitCaption` joins the fragments and `FitLine` fits the joined line, following the screen's branches. The file also holds lemmas about both.
- `languages.dfy` (module `Languages`): both language tables and the lookup as an `Option`. In JavaScript, reading `.label` of `undefined` throws; here that case returns `None`.

The truncation keeps `budget - 1` characters, exactly as the code does with `slice(-29)` and `slice(-69)`. The model does not change that off-by-one.

## Model

| member | source | states |
|---|---|---|
| JsText.Join | SayAgain/screens/CameraScreen.js:88 | Joining no fragments gives "". Otherwise the length is the total fragment length plus one separator per gap, the text starts with the first fragment and it ends with the last fragment. |
| JsText.JoinSnoc | SayAgain/screens/CameraScreen.js:88 | Appending a fragment to a non-empty array adds exactly the separator and that fragment to the end of the join. |
| JsText.JoinEmptyIff | SayAgain/screens/CameraScreen.js:88-89 | With a non-empty separator, the join is empty exactly when there are no fragments or there is a single empty fragment. |
| JsText.Slice | SayAgain/screens/CameraScreen.js:92 | `slice(start)` always gives a suffix of the string. With a negative start it has min(-start, length) characters; with a non-negative start it has max(length - start, 0). |
| Caption.Limit | SayAgain/screens/CameraScreen.js:90-99 | The budget is positive. It is 30 exactly when the orientation is portrait-up or portrait-down (the portrait test `IsPortrait` of line 90), and 70 otherwise, including the unset state. |
| Caption.FitCaption | SayAgain/screens/CameraScreen.js:87-102 | The caption is shorter than the budget and is always a suffix of the space-joined fragments. A join shorter than the budget is returned unchanged. A longer join yields exactly its last budget - 1 characters. |
| Caption.FitLine | SayAgain/screens/CameraScreen.js:89-101 | The fitted line is shorter than the budget and is a suffix of its input. An input shorter than the budget, the empty line included, is returned unchanged. A longer input yields exactly its last budget - 1 characters. |
| Caption.TrailingFit | SayAgain/screens/CameraScreen.js:91-92 | On a line longer than `keep`, `slice(-keep)` returns exactly the last `keep` characters. |
| Caption.FitLineIsLongestFittingSuffix | SayAgain/screens/CameraScreen.js:89-101 | Among the suffixes of the line that are shorter than the budget, the fitted line is the longest, and it is the only one of its length. |
| Caption.PortraitCaptionBound | SayAgain/screens/CameraScreen.js:90-94 | In either portrait orientation the caption has fewer than 30 characters. |
| Caption.OtherCaptionBound | SayAgain/screens/CameraScreen.js:95-99 | In every other orientation state, including unset and landscape, the caption has fewer than 70 characters. |
| Caption.EmptyCaption | SayAgain/screens/CameraScreen.js:88-101 | An empty fragment list, or one that joins to "", gives the empty caption without failing. |
| Caption.FitCaptionIdempotent | SayAgain/screens/CameraScreen.js:88-101 | Feeding a fitted caption back in as the only fragment, under the same orientation, returns it unchanged. |
| Caption.InitialCaptionIsListening | SayAgain/screens/CameraScreen.js:35-41 | The initial partial results `['Listening...']` render as "Listening..." in every orientation state, including the initial unset one. |
| Caption.ShortLandscapeCaption | SayAgain/screens/CameraScreen.js:95-101 | In landscape, ["Hello", "world"] is shown whole as "Hello world". |
| Caption.LongPortraitCaption | SayAgain/screens/CameraScreen.js:90-93 | In portrait, a 61-character sentence is cut to its last 29 characters. |
| Languages.FindLabel | SayAgain/screens/CameraScreen.js:110 | The lookup fails exactly when no entry has the tag. Otherwise it returns the label of the first entry whose tag matches. |
| Languages.LanguageLabel | SayAgain/screens/CameraScreen.js:110 | The camera screen's lookup has no label exactly when no entry of its table carries the tag. Otherwise the label belongs to a table entry with that tag. |
| Languages.FindLabelOfEntry | SayAgain/screens/CameraScreen.js:110 | In a table with no repeated tags, looking up an entry's tag returns that entry's label. |
| Languages.CameraTagsDistinct | SayAgain/screens/CameraScreen.js:7-27 | No two entries of the camera screen's table share a tag. |
| Languages.PickerTagsHaveLabels | SayAgain/screens/HomeScreen.js:21-41 | Every tag the home screen's picker can deliver has a label on the camera screen, and it is the same label the picker showed. |
| Languages.UnlistedTagHasNoLabel | SayAgain/screens/CameraScreen.js:110 | A tag missing from the table, such as "en-IN", has no label; this is the case where the screen would throw. |

## Left out

- Permission requests and checks on the home screen (`request`, `check`, alerts, opening settings): asynchronous operating-system calls. Their only decision is "microphone and speech recognition both granted".
- The speech-recognition session (`Voice.start`, `stop`, `destroy`, listener wiring): third-party calls with no visible logic. The partial results they deliver are an input to `FitCaption`.
- Orientation sensing, locking and listeners: device I/O. Only the orientation value passed to the fit policy is modelled.
- Camera rendering and camera permission: platform services.
- Layout sizes, such as a width of 80 % of the screen, and the text view's own tail ellipsis: floating-point pixel arithmetic done by the renderer.
- Navigation, the splash timer and its redirect: router configuration and timers with no algorithmic content.
- Style sheets and the JSX trees: presentation only.
- Orientation: the state is `null` or one of the five `expo-screen-orientation` values. Portrait-up and portrait-down get a budget of 30, and every other state gets 70.
- Budgets: they are the fixed constants 30 and 70 of SayAgain/screens/CameraScreen.js:91 and :96. They are not configurable.
- Surrogate code units: Dafny's `char` cannot hold a lone UTF-16 surrogate, so an astral character, such as an emoji, or one half of it cut off by `slice(-29)`, is encoded as some other non-space `char`. The proofs never inspect a character other than the space separator, so they hold under this encoding.
