# Reader view: controller and page/extension message bridge

A Dafny model of the two pieces of logic in a browser "reader view"
extension:

- **The reader controller** (`src/App.js`, module `ReaderApp`). The React
  component owns one state record: title, content, faded content, wrapper
  width, reader-view flag, theme, font size, line height, font weight,
  popup flag, speed-reading flag and error. Activation turns the
  extractor's result into either the article (with the `Untitled` and
  `No content found` fallbacks) or the error state. It then asks settings
  storage for the four saved settings and merges them field by field. A
  stored value wins only when it is numeric. The user operations change
  the record; five of them write a setting. Rendering picks the error
  panel, then the reader page, then nothing.
  The class `ReaderApp.App` holds the record and a log of the calls it
  makes on storage. Each user-operation method is proved to follow the
  pure transition `ReaderApp.Step`: the component's `setState` updater
  plus the value handed to the `save*` call. Activation follows
  `Activated` and the storage callback follows `Merged`. The lemmas are
  stated about these functions and `Render`.
- **The message bridge** (`extension/content.js`, module `MessageBridge`).
  Page scripts cannot reach extension storage, so the content script
  injects a client into the page. The client numbers each request with a
  pre-incremented counter. It keeps a table of pending callbacks and routes
  each `READER_RESPONSE` back by id. The content script answers each known
  request action with exactly one response that carries the request's id.
  `runtime.getURL` must return synchronously, so it busy-waits up to 100 ms
  for its own answer. Classes `PageClient` and `ContentScript` hold the two
  halves' state. The method `AwaitResponse` is the bounded wait, taken
  over a parameter that says what would be delivered at each millisecond.

Consequences the proofs make explicit:

- `increaseFontSize`, `decreaseFontSize` and `editLineHeight` save the
  value they read from `this.state` right after queuing the update, and
  that is the value before the change. So the stored font size and line
  height are always one step behind the screen (`RunPersistence`). A
  reader opened later gets the theme and font weight back exactly, but
  not a font size or line height written during the session
  (`ReopenedReaderSettings`).
- The `getURL` wait never yields to the event loop, so its answer cannot
  arrive during the wait. In that situation the call returns `''` and
  leaves its listener attached until the answer arrives later
  (`BlockedWaitReturnsEmpty`, `PageClient.GetURL`, `PageClient.OnMessage`).
  Only if an answer were delivered within the budget would the resolved
  URL come back (`GetURLRoundTrip`).
- `get` stores its callback even when none was passed. Such an entry is
  never removed, because the response listener deletes an entry only when
  its callback is truthy (`Route`, `PageClient.Get`).

Other behaviour of the code the model keeps:

- The popup and speed-reading toggles save nothing.
- The faded content is recomputed each time the fade is switched on and
  dropped when it is switched off.
- The error panel shows only when the error message is truthy, so an
  empty message shows nothing (`ShowsError`).
- The settings merge accepts any numeric stored font weight, not just 400
  or 600.
- A `storage.get` with `null` or no keys answers with everything stored,
  and a `storage.set` of something other than an object writes nothing and
  gets no answer, because the storage API throws. Likewise a
  `runtime.getURL` without a path gets no answer (`Reply`).

Line height is kept in tenths of an em (the default 1.6 is `16`).

## Model

| member | source | states |
|---|---|---|
| `ReaderApp.App.constructor` | src/App.js:12-25 | A new controller starts with theme 0, font size 18, line height 1.6, weight 400, reader view on, popup and speed reading off, no error, no faded content, and an empty storage log |
| `ReaderApp.Activated` | src/App.js:38-85 | With an article, title and content take the article's values or, when those are empty, `Untitled` and `No content found`; nothing else changes. Otherwise the error becomes the failure message and reader view turns off |
| `ReaderApp.App.ComponentWillMount` | src/App.js:27-86 | Activation sets the state as `Activated` says. Settings are requested with the four keys only after a successful extraction and only when storage is reachable |
| `ReaderApp.Merged` | src/App.js:58-70 | Absent data changes nothing. Otherwise each of theme, size, line height and weight takes the stored value exactly when it is numeric and keeps its value otherwise. No other field changes |
| `ReaderApp.App.OnSettingsLoaded` | src/App.js:56-74 | The storage callback replaces the state with the merge of the current state and the data |
| `ReaderApp.Step` | src/App.js:117-213 | No user operation touches title, content, error or wrapper width. Only closing turns reader view off. Exactly the font, theme, weight and line-height operations write a setting |
| `ReaderApp.FontStepsCancel` | src/App.js:127-141 | Increase and decrease change the font size by exactly +1 and -1 and undo each other. Both save the size from before the change |
| `ReaderApp.ThemeSelection` | src/App.js:147-152 | Selecting theme i sets exactly the theme to i and saves i. Selecting it again leaves the state unchanged |
| `ReaderApp.FontWeightToggle` | src/App.js:204-213 | 600 goes to 400 and anything else to 600. The new weight is saved. Toggling twice from 400 or 600 restores the state |
| `ReaderApp.LineHeightStepsCancel` | src/App.js:167-179 | Line height moves by exactly one tenth up or down, and the two undo each other in either order. Both save the value from before the change |
| `ReaderApp.PresentationTogglesUndo` | src/App.js:155-198 | Popup, speed-reading and stop-word toggles save nothing and undo themselves. The stop-word toggle switches between no faded text and the fade of the content |
| `ReaderApp.ExtendPersists` | src/App.js:127-213 | One more user operation keeps this relation: the last theme and weight written equal the state's, and the last font size and line height written are one step behind |
| `ReaderApp.RunPersistence` | src/App.js:127-213 | After any run of user operations, the last theme and weight written equal the state's. The last font size and line height written differ from the state's by exactly one step. With no write, the field is unchanged |
| `ReaderApp.ReopenedReaderSettings` | src/App.js:54-70 | A reader that loads the writes of an earlier session started from defaults gets that session's theme and weight back. It does not get back a font size or line height that was written during the session, even one moved up and back down |
| `ReaderApp.Render` | src/App.js:271-425 | An error with a non-empty message shows the error panel whatever the reader-view flag. Otherwise reader view off shows nothing. Otherwise the page shows the title, the faded text if any (else the content), theme 1 as yellow, themes above 1 as dark, the rest white, the wrapper width as the maximum width, and the current typography |
| `ReaderApp.FailedActivationShowsError` | src/App.js:79-86 | A failed activation with a message renders the error panel with that message |
| `ReaderApp.ActivatedArticleShown` | src/App.js:38-48 | A fresh reader with an extracted article renders it with its fallbacks, the white theme, size 18, line height 1.6 and weight 400 |
| `ReaderApp.BlankStaysBlank` | src/App.js:288-424 | Once nothing is rendered, no user operation and no late settings response brings the reader back |
| `ReaderApp.CloseHidesReader` | src/App.js:117-120 | After closing, nothing is rendered unless an error panel is showing |
| `ReaderApp.App.SaveSetting` | src/App.js:219-269 | A save appends exactly one write of that key and value when storage is reachable and nothing otherwise. The state is untouched |
| `ReaderApp.App.CloseReader` | src/App.js:117-125 | Reader view turns off, the page-style release is recorded, and nothing is saved |
| `ReaderApp.App.IncreaseFontSize` | src/App.js:127-133 | State and storage log follow `Step`: size +1, and the pre-change size is saved |
| `ReaderApp.App.DecreaseFontSize` | src/App.js:135-141 | State and storage log follow `Step`: size -1, and the pre-change size is saved |
| `ReaderApp.App.ToggleTheme` | src/App.js:147-152 | State and storage log follow `Step`: the theme becomes the argument, and the argument is saved |
| `ReaderApp.App.TogglePopup` | src/App.js:155-159 | The popup flag flips and nothing is saved |
| `ReaderApp.App.EditLineHeight` | src/App.js:167-179 | State and storage log follow `Step`: one tenth up or down, and the pre-change value is saved |
| `ReaderApp.App.ToggleSpeedReading` | src/App.js:181-187 | The speed-reading flag flips and nothing is saved |
| `ReaderApp.App.ToggleStopWordFade` | src/App.js:192-198 | The faded content becomes the fade of the content when absent, and is dropped otherwise. Nothing is saved |
| `ReaderApp.App.ToggleFontWeight` | src/App.js:204-213 | State and storage log follow `Step`: 600 to 400, else 600, and the new weight is saved |
| `MessageBridge.Reply` | extension/content.js:5-36 | Exactly one response is posted for a request from this window with a known action, except a `storage.set` whose data is not an object or a `runtime.getURL` without a path; none otherwise. It carries the request's id. For `storage.get` it holds exactly the stored entries among the requested keys, or all of storage when no keys were given; for `storage.set` `{success: true}`; for `runtime.getURL` the resolved URL |
| `MessageBridge.GetWithoutKeysReturnsAll` | extension/content.js:11-18 | A `storage.get` with no keys is answered with everything stored |
| `MessageBridge.PathlessGetURLRejected` | extension/content.js:27-34 | A `runtime.getURL` request without a path is not answered |
| `MessageBridge.NonObjectSetRejected` | extension/content.js:19-26 | A `storage.set` of something other than an object writes nothing and is not answered |
| `MessageBridge.StorageAfter` | extension/content.js:19-20 | Only a `storage.set` from this window whose data is an object writes storage: it sets its own keys and leaves every other entry as it was |
| `MessageBridge.ContentScript.OnMessage` | extension/content.js:5-36 | Storage and the posted messages change exactly as `StorageAfter` and `Reply` say |
| `MessageBridge.SetThenGet` | extension/content.js:12-26 | A value written through `storage.set` is returned by a later `storage.get` of its key |
| `MessageBridge.Route` | extension/content.js:102-111 | An answer from this window whose id has a stored callback removes that entry and runs that callback once with the data. Otherwise nothing changes |
| `MessageBridge.RepeatedResponseIgnored` | extension/content.js:104-109 | A second answer with an id already routed runs nothing |
| `MessageBridge.DeliveriesFromTable` | extension/content.js:105-108 | Every callback run over a sequence of events is the one stored in the table for its id |
| `MessageBridge.RoutedIdsDistinct` | extension/content.js:105-108 | Over a sequence of events, no id has its callback run twice |
| `MessageBridge.RoutedIdsLeaveTable` | extension/content.js:105-107 | Over a sequence of events, exactly the ids whose callbacks ran leave the table |
| `MessageBridge.CallbacksRunAtMostOnce` | extension/content.js:102-111 | Over any sequence of events, each pending callback runs at most once and it is the one stored for its id. Exactly the ids that ran leave the table |
| `MessageBridge.AwaitResponse` | extension/content.js:78-97 | The wait returns the data of the first answer for its id delivered within the budget, or `''` if none. The listener stays attached exactly when nothing was captured |
| `MessageBridge.NothingArrives` | extension/content.js:93-96 | With nothing delivered during the wait, no answer is captured |
| `MessageBridge.FirstAnswerAt` | extension/content.js:79-85 | The wait captures the first answer for its id: one delivered at tick t, with no earlier answer for that id, is the one taken |
| `MessageBridge.BlockedWaitReturnsEmpty` | extension/content.js:92-97 | Since the wait does not yield, `getURL` returns `''` |
| `MessageBridge.GetURLRoundTrip` | extension/content.js:74-97 | If the content script's answer to a `getURL` request were delivered within 100 ms ahead of any other answer for that id, the call would return the resolved URL |
| `MessageBridge.PageClient.constructor` | extension/content.js:42-43 | The counter starts at 0, the pending table is empty, and nothing has been posted or run |
| `MessageBridge.PageClient.Get` | extension/content.js:49-59 | Get pre-increments the counter and uses the new id, which is above every earlier id and absent from the table. It stores the given callback (even none) under the id and posts one `storage.get` request with the keys |
| `MessageBridge.PageClient.Set` | extension/content.js:60-70 | Set does the same, but stores a callback only when one was given. It posts one `storage.set` request with the data |
| `MessageBridge.PageClient.GetURL` | extension/content.js:74-98 | GetURL takes a new id and posts one `runtime.getURL` request. It leaves the pending table alone and returns what the wait captured. Its listener stays attached when nothing was captured |
| `MessageBridge.PageClient.OnMessage` | extension/content.js:79-111 | The response listener routes the event as `Route` says and records the callback run. An attached `getURL` listener for the answer's id detaches. The client invariant is kept, so over the client's whole life, with requests interleaved, no id has its callback run twice and a run id is gone from the table |
| `MessageBridge.GetAnsweredThroughHandler` | extension/content.js:11-18 | A `get` request answered by the content script runs its callback with the stored entries for its keys. The table returns to what it was before the request |
| `MessageBridge.PostedIdsIncrease` | extension/content.js:50-51 | Posted request ids strictly increase, so no id is reused |

## Left out

- Article extraction (`Readability`, with conditional cleaning switched off) is not part of this model. Its result is an input to activation: an article, `null`, or a thrown message.
- `fadeStopWords` is not part of this model. It is the parameter `fade` of the controller.
- JSX markup, `ReactHtmlParser`, the `Popup` component, CSS class strings other than the theme choice, and the icon URLs looked up during render are left out. They are presentation, not state.
- The page-body style changes in `componentDidMount`, `componentWillUnmount` and `closeReader` are DOM side effects. Closing records them only as the ghost flag `pageStylesReleased`.
- Line height is floating point in the source. Here it is integer tenths, so rounding drift after many steps is not modelled.
- JavaScript's `isNaN` coercion (strings of digits, `null`, booleans) is left out. A stored setting is just numeric or not numeric.
- Settings storage, `browser.runtime.getURL`, `window.postMessage` and `Date.now` are browser calls. Storage is a map. URL resolution prefixes the extension's base URL. Posting appends to a log. Time is the iteration count of the wait, one iteration per millisecond.
- The content script's storage callbacks are asynchronous in the source. Here the answer is posted at once, so the order between answers to different requests is not modelled.
- The order of delivery on the shared channel is not modelled. Events reach the handlers one at a time, in whatever order a caller of `OnMessage` chooses.
- React's scheduling is only partly modelled: an updater runs once, right when its method runs. Batching of several updates and double invocation in strict mode are left out.
- Exceptions thrown by storage calls inside `componentWillMount` and the `save*` methods (the `catch` blocks) are not modelled, apart from the extractor's exception.
- Injection of the client script into the page, `extension/background.js` (script and style injection on a toolbar click) and `scripts/build.js` (bundling and packaging) are plumbing with no state to model.
- Console logging is left out.
- `MessageBridge.Reply`: `storage.get` keys are modelled as a list of names or absent, and a `runtime.getURL` path as a string or absent. A single key as a string, an object of defaults, and a path of another type (on which the URL API throws and nothing is posted) are not modelled.
- `MessageBridge.PageClient.GetURL`: a delivery during the wait, which cannot happen because the wait never yields, is shown to the new listener only. The pending table and the other listeners are not updated by it.
- `ReaderApp.RunPersistence`: it covers runs in which storage is reachable. Settings loaded during the run are not among the operations.
