/**
 * The reader controller of src/App.js: the component's state record, its
 * activation from the extracted article, the merge of saved settings, the
 * user operations with the settings writes they fire, and the choice of
 * what is rendered.
 *
 * Line height is kept in tenths of an em (the source adds and subtracts 0.1
 * on a float), so the default 1.6 is 16 here.
 */
module ReaderApp {
  import opened Wrappers

  /** The component's `state` record. */
  datatype ReaderState = ReaderState(
    title: string,
    content: string,
    contentWithoutStop: Option<string>,
    wrapperWidth: int,
    readerView: bool,
    theme: int,
    sizeFont: int,
    lineHeight: int,
    fontWeight: int,
    popupMenu: bool,
    speedReading: bool,
    error: Option<string>)

  /** The record the component is created with. */
  const Initial: ReaderState :=
    ReaderState("", "", None, 800, true, 0, 18, 16, 400, false, false, None)

  // ---------------------------------------------------------------------
  // Activation

  /** What the article extractor gives back; its heuristic is not modelled. */
  datatype Article = Article(title: string, content: string)

  /**
   * The outcome of running the extractor on a clone of the page with
   * conditional cleaning switched off: an article, `null`, or an exception
   * carrying a message.
   */
  datatype Extraction = Extracted(article: Article) | NoArticle | Threw(message: string)

  const NullArticleMessage := "Readability parser returned null - could not extract article"
  const UntitledFallback := "Untitled"
  const NoContentFallback := "No content found"

  /** The keys requested from settings storage right after a successful activation. */
  const SettingsKeys: seq<string> := ["theme", "sizeFont", "lineHeight", "fontWeight"]

  /** JavaScript's `a || b` on strings: the empty string is falsy. */
  function OrElse(a: string, b: string): string {
    if a != "" then a else b
  }

  /** The message the catch block stores for an extraction that did not give an article. */
  function FailureMessage(x: Extraction): string
    requires !x.Extracted?
  {
    if x.NoArticle? then NullArticleMessage else x.message
  }

  /** The state after activation: the article with its fallbacks, or the error state. */
  function Activated(s: ReaderState, x: Extraction): (r: ReaderState)
    ensures x.Extracted? ==>
      && r.title != "" && r.content != ""
      && (x.article.title != "" ==> r.title == x.article.title)
      && (x.article.title == "" ==> r.title == UntitledFallback)
      && (x.article.content != "" ==> r.content == x.article.content)
      && (x.article.content == "" ==> r.content == NoContentFallback)
      && r == s.(title := r.title, content := r.content)
    ensures !x.Extracted? ==>
      && r.error == Some(FailureMessage(x))
      && !r.readerView
      && r == s.(error := r.error, readerView := false)
  {
    match x
    case Extracted(a) =>
      s.(title := OrElse(a.title, UntitledFallback), content := OrElse(a.content, NoContentFallback))
    case _ =>
      s.(error := Some(FailureMessage(x)), readerView := false)
  }

  // ---------------------------------------------------------------------
  // Saved settings

  /** A stored setting as the merge sees it: a number, or anything `isNaN` accepts. */
  datatype Stored = Numeric(value: int) | NotNumeric

  /** The object storage hands back for the four settings keys. */
  datatype SavedSettings = SavedSettings(theme: Stored, sizeFont: Stored, lineHeight: Stored, fontWeight: Stored)

  /** The value one field takes in the merge. */
  function Pick(stored: Stored, current: int): int {
    if stored.NotNumeric? then current else stored.value
  }

  /** `stored` wins over `before` exactly when it is numeric. */
  predicate Adopts(stored: Stored, before: int, after: int) {
    (stored.Numeric? ==> after == stored.value) && (stored.NotNumeric? ==> after == before)
  }

  /**
   * The state after the storage callback: with no data nothing changes,
   * otherwise each of the four settings takes the stored value only when it
   * is numeric, and no other field is touched.
   */
  function Merged(s: ReaderState, data: Option<SavedSettings>): (r: ReaderState)
    ensures data.None? ==> r == s
    ensures data.Some? ==>
      && Adopts(data.value.theme, s.theme, r.theme)
      && Adopts(data.value.sizeFont, s.sizeFont, r.sizeFont)
      && Adopts(data.value.lineHeight, s.lineHeight, r.lineHeight)
      && Adopts(data.value.fontWeight, s.fontWeight, r.fontWeight)
    ensures r == s.(theme := r.theme, sizeFont := r.sizeFont, lineHeight := r.lineHeight, fontWeight := r.fontWeight)
  {
    match data
    case None => s
    case Some(d) =>
      s.(theme := Pick(d.theme, s.theme),
         sizeFont := Pick(d.sizeFont, s.sizeFont),
         lineHeight := Pick(d.lineHeight, s.lineHeight),
         fontWeight := Pick(d.fontWeight, s.fontWeight))
  }

  // ---------------------------------------------------------------------
  // User operations

  datatype Setting = Theme | SizeFont | LineHeight | FontWeight

  /** One settings write: the key and the value handed to storage. */
  datatype Save = Save(key: Setting, value: int)

  /** The calls the controller makes on settings storage, in order. */
  datatype StorageCall = LoadSettings(keys: seq<string>) | StoreSetting(save: Save)

  datatype UserOp =
    | IncreaseFont
    | DecreaseFont
    | SelectTheme(index: int)
    | ToggleWeight
    | EditLineHeight(up: bool)
    | TogglePopup
    | ToggleSpeed
    | ToggleStopWords
    | Close

  /** The record after an operation, and the settings write it fires, if any. */
  datatype Transition = Transition(next: ReaderState, save: Option<Save>)

  /** The weight `toggleFontWeight` moves to: 600 goes to 400, anything else to 600. */
  function ToggledWeight(w: int): int {
    if w == 600 then 400 else 600
  }

  /**
   * One user operation. Font size and line height write the value read from
   * `this.state` right after the update was queued, which is the value before
   * the change; font weight writes the value its updater computes; theme
   * writes its argument. No operation touches the article or the error.
   */
  function Step(s: ReaderState, op: UserOp, fade: string -> string): (t: Transition)
    ensures t.next.title == s.title && t.next.content == s.content
    ensures t.next.error == s.error && t.next.wrapperWidth == s.wrapperWidth
    ensures t.next.readerView == (s.readerView && !op.Close?)
    ensures t.save.Some? <==> op.IncreaseFont? || op.DecreaseFont? || op.SelectTheme? || op.ToggleWeight? || op.EditLineHeight?
  {
    match op
    case IncreaseFont =>
      Transition(s.(sizeFont := s.sizeFont + 1), Some(Save(SizeFont, s.sizeFont)))
    case DecreaseFont =>
      Transition(s.(sizeFont := s.sizeFont - 1), Some(Save(SizeFont, s.sizeFont)))
    case SelectTheme(i) =>
      Transition(s.(theme := i), Some(Save(Theme, i)))
    case ToggleWeight =>
      var w := ToggledWeight(s.fontWeight);
      Transition(s.(fontWeight := w), Some(Save(FontWeight, w)))
    case EditLineHeight(up) =>
      Transition(s.(lineHeight := if up then s.lineHeight + 1 else s.lineHeight - 1),
                 Some(Save(LineHeight, s.lineHeight)))
    case TogglePopup =>
      Transition(s.(popupMenu := !s.popupMenu), None)
    case ToggleSpeed =>
      Transition(s.(speedReading := !s.speedReading), None)
    case ToggleStopWords =>
      Transition(s.(contentWithoutStop := if s.contentWithoutStop.None? then Some(fade(s.content)) else None), None)
    case Close =>
      Transition(s.(readerView := false), None)
  }

  lemma FontStepsCancel(s: ReaderState, fade: string -> string)
    ensures Step(Step(s, IncreaseFont, fade).next, DecreaseFont, fade).next == s
    ensures Step(Step(s, DecreaseFont, fade).next, IncreaseFont, fade).next == s
    ensures Step(s, IncreaseFont, fade).next.sizeFont == s.sizeFont + 1
    ensures Step(s, DecreaseFont, fade).next.sizeFont == s.sizeFont - 1
    ensures Step(s, IncreaseFont, fade).save == Some(Save(SizeFont, s.sizeFont))
    ensures Step(s, DecreaseFont, fade).save == Some(Save(SizeFont, s.sizeFont))
  {
  }

  lemma FontWeightToggle(s: ReaderState, fade: string -> string)
    ensures var t := Step(s, ToggleWeight, fade);
      && t.next.fontWeight == (if s.fontWeight == 600 then 400 else 600)
      && t.save == Some(Save(FontWeight, t.next.fontWeight))
      && t.next == s.(fontWeight := t.next.fontWeight)
    ensures s.fontWeight == 400 || s.fontWeight == 600 ==>
      Step(Step(s, ToggleWeight, fade).next, ToggleWeight, fade).next == s
  {
  }

  lemma ThemeSelection(s: ReaderState, i: int, fade: string -> string)
    ensures var t := Step(s, SelectTheme(i), fade);
      && t.next == s.(theme := i)
      && t.save == Some(Save(Theme, i))
      && Step(t.next, SelectTheme(i), fade).next == t.next
  {
  }

  lemma LineHeightStepsCancel(s: ReaderState, fade: string -> string)
    ensures Step(Step(s, EditLineHeight(true), fade).next, EditLineHeight(false), fade).next == s
    ensures Step(Step(s, EditLineHeight(false), fade).next, EditLineHeight(true), fade).next == s
    ensures Step(s, EditLineHeight(true), fade).next.lineHeight == s.lineHeight + 1
    ensures Step(s, EditLineHeight(false), fade).next.lineHeight == s.lineHeight - 1
    ensures Step(s, EditLineHeight(true), fade).save == Some(Save(LineHeight, s.lineHeight))
    ensures Step(s, EditLineHeight(false), fade).save == Some(Save(LineHeight, s.lineHeight))
  {
  }

  /**
   * The popup, speed-reading and stop-word toggles write nothing and undo
   * themselves; the stop-word one needs the faded text to be absent or to
   * be the fade of the current content, as it is whenever it was set by
   * this toggle.
   */
  lemma PresentationTogglesUndo(s: ReaderState, fade: string -> string)
    ensures Step(s, TogglePopup, fade).save.None? && Step(s, ToggleSpeed, fade).save.None?
    ensures Step(s, ToggleStopWords, fade).save.None?
    ensures Step(Step(s, TogglePopup, fade).next, TogglePopup, fade).next == s
    ensures Step(Step(s, ToggleSpeed, fade).next, ToggleSpeed, fade).next == s
    ensures Step(s, ToggleStopWords, fade).next.contentWithoutStop ==
      (if s.contentWithoutStop.None? then Some(fade(s.content)) else None)
    ensures s.contentWithoutStop.None? || s.contentWithoutStop == Some(fade(s.content)) ==>
      Step(Step(s, ToggleStopWords, fade).next, ToggleStopWords, fade).next == s
  {
  }

  // ---------------------------------------------------------------------
  // Persistence across sessions

  /** The outcome of a run of user operations: the final record and the writes fired. */
  datatype Session = Session(final: ReaderState, saves: seq<Save>)

  /** The session after one more operation. */
  function Extend(prior: Session, op: UserOp, fade: string -> string): Session {
    var t := Step(prior.final, op, fade);
    Session(t.next, prior.saves + (if t.save.Some? then [t.save.value] else []))
  }

  function Run(s: ReaderState, ops: seq<UserOp>, fade: string -> string): Session
    decreases |ops|
  {
    if ops == [] then Session(s, [])
    else Extend(Run(s, ops[..|ops| - 1], fade), ops[|ops| - 1], fade)
  }

  /** The last value written for `key`, which is what storage then holds for it. */
  function LastSaved(saves: seq<Save>, key: Setting): Option<int>
    decreases |saves|
  {
    if saves == [] then None
    else if saves[|saves| - 1].key == key then Some(saves[|saves| - 1].value)
    else LastSaved(saves[..|saves| - 1], key)
  }

  lemma LastSavedAppend(saves: seq<Save>, extra: seq<Save>, key: Setting)
    requires |extra| <= 1
    ensures LastSaved(saves + extra, key) ==
      if extra != [] && extra[0].key == key then Some(extra[0].value) else LastSaved(saves, key)
  {
    if extra == [] {
      assert saves + extra == saves;
    } else {
      assert (saves + extra)[..|saves + extra| - 1] == saves;
    }
  }

  /** For theme and font weight, the last write is the value in the state. */
  predicate SavedExactly(key: Setting, saves: seq<Save>, start: int, final: int) {
    match LastSaved(saves, key)
    case None => final == start
    case Some(v) => final == v
  }

  /** For font size and line height, the last write is one step behind the state. */
  predicate SavedOneStepBehind(key: Setting, saves: seq<Save>, start: int, final: int) {
    match LastSaved(saves, key)
    case None => final == start
    case Some(v) => final == v + 1 || final == v - 1
  }

  /** How the writes of a session started from `start` relate to its final record. */
  predicate Persisted(start: ReaderState, r: Session) {
    && SavedExactly(Theme, r.saves, start.theme, r.final.theme)
    && SavedExactly(FontWeight, r.saves, start.fontWeight, r.final.fontWeight)
    && SavedOneStepBehind(SizeFont, r.saves, start.sizeFont, r.final.sizeFont)
    && SavedOneStepBehind(LineHeight, r.saves, start.lineHeight, r.final.lineHeight)
  }

  lemma ExtendPersists(start: ReaderState, prior: Session, op: UserOp, fade: string -> string)
    requires Persisted(start, prior)
    ensures Persisted(start, Extend(prior, op, fade))
  {
    var t := Step(prior.final, op, fade);
    var extra := if t.save.Some? then [t.save.value] else [];
    LastSavedAppend(prior.saves, extra, Theme);
    LastSavedAppend(prior.saves, extra, FontWeight);
    LastSavedAppend(prior.saves, extra, SizeFont);
    LastSavedAppend(prior.saves, extra, LineHeight);
  }

  lemma {:induction false} RunPersistence(s: ReaderState, ops: seq<UserOp>, fade: string -> string)
    ensures Persisted(s, Run(s, ops, fade))
    decreases |ops|
  {
    if ops != [] {
      RunPersistence(s, ops[..|ops| - 1], fade);
      ExtendPersists(s, Run(s, ops[..|ops| - 1], fade), ops[|ops| - 1], fade);
    }
  }

  /** What a later reader loads from storage after the writes of a session. */
  function StoredAfter(saves: seq<Save>, key: Setting): Stored {
    match LastSaved(saves, key)
    case None => NotNumeric
    case Some(v) => Numeric(v)
  }

  function SettingsAfter(saves: seq<Save>): SavedSettings {
    SavedSettings(StoredAfter(saves, Theme), StoredAfter(saves, SizeFont),
                  StoredAfter(saves, LineHeight), StoredAfter(saves, FontWeight))
  }

  /**
   * A reader opened after a session that started from the defaults gets the
   * theme and font weight back as they were, but not a changed font size or
   * line height: those were written one step late.
   */
  lemma ReopenedReaderSettings(ops: seq<UserOp>, fade: string -> string)
    ensures var r := Run(Initial, ops, fade);
      var reopened := Merged(Initial, Some(SettingsAfter(r.saves)));
      && reopened.theme == r.final.theme
      && reopened.fontWeight == r.final.fontWeight
      && (LastSaved(r.saves, SizeFont).Some? ==> reopened.sizeFont != r.final.sizeFont)
      && (LastSaved(r.saves, LineHeight).Some? ==> reopened.lineHeight != r.final.lineHeight)
  {
    RunPersistence(Initial, ops, fade);
  }

  // ---------------------------------------------------------------------
  // Rendering

  datatype ThemeClass = ThemeWhite | ThemeYellow | ThemeDark

  /** Theme 1 is yellow, any other positive theme dark, anything else white. */
  function ThemeClassOf(theme: int): ThemeClass {
    if theme > 0 then (if theme == 1 then ThemeYellow else ThemeDark) else ThemeWhite
  }

  /** What `render` returns, reduced to the data it shows. */
  datatype View =
    | ErrorPanel(message: string)
    | ReaderPage(theme: ThemeClass, speedReading: bool, maxWidth: int, title: string, body: string,
                 fontSize: int, lineHeight: int, fontWeight: int, popupOpen: bool, stopWordsActive: bool)
    | Blank

  /** `if (this.state.error)`: a missing or empty message is falsy. */
  predicate ShowsError(s: ReaderState) {
    s.error.Some? && s.error.value != ""
  }

  /**
   * The error panel has priority, then the reader page, then nothing. The
   * page shows the faded text when there is one, the content otherwise.
   */
  function Render(s: ReaderState): (v: View)
    ensures v.ErrorPanel? <==> ShowsError(s)
    ensures v.ErrorPanel? ==> v.message == s.error.value
    ensures v.Blank? <==> !ShowsError(s) && !s.readerView
    ensures v.ReaderPage? ==>
      && v.body == (if s.contentWithoutStop.Some? then s.contentWithoutStop.value else s.content)
      && v.title == s.title && v.maxWidth == s.wrapperWidth
      && (v.theme == ThemeWhite <==> s.theme <= 0)
      && (v.theme == ThemeYellow <==> s.theme == 1)
      && (v.theme == ThemeDark <==> s.theme >= 2)
      && v.fontSize == s.sizeFont && v.lineHeight == s.lineHeight && v.fontWeight == s.fontWeight
      && v.popupOpen == s.popupMenu && v.speedReading == s.speedReading
      && v.stopWordsActive == s.contentWithoutStop.Some?
  {
    if ShowsError(s) then ErrorPanel(s.error.value)
    else if s.readerView then
      ReaderPage(ThemeClassOf(s.theme), s.speedReading, s.wrapperWidth, s.title,
                 match s.contentWithoutStop case Some(faded) => faded case None => s.content,
                 s.sizeFont, s.lineHeight, s.fontWeight, s.popupMenu, s.contentWithoutStop.Some?)
    else Blank
  }

  /** A failed activation with a message shows that message, from any earlier record. */
  lemma FailedActivationShowsError(s: ReaderState, x: Extraction)
    requires !x.Extracted? && FailureMessage(x) != ""
    ensures Render(Activated(s, x)) == ErrorPanel(FailureMessage(x))
  {
  }

  /** A fresh reader that extracted an article shows it with the default typography. */
  lemma ActivatedArticleShown(a: Article)
    ensures var v := Render(Activated(Initial, Extracted(a)));
      && v.ReaderPage?
      && v.title == OrElse(a.title, UntitledFallback)
      && v.body == OrElse(a.content, NoContentFallback)
      && v.theme == ThemeWhite && v.fontSize == 18 && v.lineHeight == 16 && v.fontWeight == 400
  {
  }

  /**
   * Once nothing is rendered, no user operation and no late settings
   * response brings the reader back.
   */
  lemma BlankStaysBlank(s: ReaderState, op: UserOp, fade: string -> string, data: Option<SavedSettings>)
    requires Render(s).Blank?
    ensures Render(Step(s, op, fade).next).Blank?
    ensures Render(Merged(s, data)).Blank?
  {
  }

  /** Closing hides the reader unless an error panel is showing. */
  lemma CloseHidesReader(s: ReaderState, fade: string -> string)
    ensures Render(Step(s, Close, fade).next) == (if ShowsError(s) then ErrorPanel(s.error.value) else Blank)
  {
  }

  // ---------------------------------------------------------------------
  // The component

  /**
   * The `App` component: its state record, the log of calls it makes on
   * settings storage, whether that storage is reachable from the page, and
   * the stop-word fader it uses.
   */
  class App {
    var state: ReaderState
    var storageCalls: seq<StorageCall>
    /** Set once the reader has removed its style override from the page body. */
    ghost var pageStylesReleased: bool
    const storageAvailable: bool
    const fade: string -> string

    /** The writes a transition leaves in the log: none when storage is unreachable. */
    function Written(save: Option<Save>): seq<StorageCall> {
      if storageAvailable && save.Some? then [StoreSetting(save.value)] else []
    }

    constructor (storageAvailable: bool, fade: string -> string)
      ensures state == Initial
      ensures state.theme == 0 && state.sizeFont == 18 && state.lineHeight == 16 && state.fontWeight == 400
      ensures state.readerView && !state.popupMenu && !state.speedReading
      ensures state.error.None? && state.contentWithoutStop.None?
      ensures storageCalls == [] && !pageStylesReleased
      ensures this.storageAvailable == storageAvailable && this.fade == fade
    {
      state := Initial;
      storageCalls := [];
      pageStylesReleased := false;
      this.storageAvailable := storageAvailable;
      this.fade := fade;
    }

    /** `saveTheme`, `saveFont`, `saveLineHeight` and `saveFontWeight`. */
    method SaveSetting(key: Setting, value: int)
      modifies this
      ensures storageCalls == old(storageCalls) + Written(Some(Save(key, value)))
      ensures state == old(state) && pageStylesReleased == old(pageStylesReleased)
    {
      if storageAvailable {
        storageCalls := storageCalls + [StoreSetting(Save(key, value))];
      }
    }

    /**
     * `componentWillMount`: show the article or the error, and on success
     * ask storage for the saved settings.
     */
    method ComponentWillMount(x: Extraction)
      modifies this
      ensures state == Activated(old(state), x)
      ensures storageCalls == old(storageCalls) + (if x.Extracted? && storageAvailable then [LoadSettings(SettingsKeys)] else [])
      ensures pageStylesReleased == old(pageStylesReleased)
    {
      if x.NoArticle? || x.Threw? {
        state := state.(error := Some(FailureMessage(x)), readerView := false);
        return;
      }
      state := state.(title := OrElse(x.article.title, UntitledFallback),
                      content := OrElse(x.article.content, NoContentFallback));
      if storageAvailable {
        storageCalls := storageCalls + [LoadSettings(SettingsKeys)];
      }
    }

    /** The storage callback; it may arrive at any time, even after closing. */
    method OnSettingsLoaded(data: Option<SavedSettings>)
      modifies this
      ensures state == Merged(old(state), data)
      ensures storageCalls == old(storageCalls) && pageStylesReleased == old(pageStylesReleased)
    {
      if data.Some? {
        var d := data.value;
        state := state.(theme := Pick(d.theme, state.theme),
                        sizeFont := Pick(d.sizeFont, state.sizeFont),
                        lineHeight := Pick(d.lineHeight, state.lineHeight),
                        fontWeight := Pick(d.fontWeight, state.fontWeight));
      }
    }

    method CloseReader()
      modifies this
      ensures state == Step(old(state), Close, fade).next
      ensures storageCalls == old(storageCalls) && pageStylesReleased
    {
      state := state.(readerView := false);
      pageStylesReleased := true;
    }

    method IncreaseFontSize()
      modifies this
      ensures var t := Step(old(state), IncreaseFont, fade);
        state == t.next && storageCalls == old(storageCalls) + Written(t.save)
      ensures pageStylesReleased == old(pageStylesReleased)
    {
      var current := state;  // what `this.state` still holds after the update is queued
      state := state.(sizeFont := state.sizeFont + 1);
      SaveSetting(SizeFont, current.sizeFont);
    }

    method DecreaseFontSize()
      modifies this
      ensures var t := Step(old(state), DecreaseFont, fade);
        state == t.next && storageCalls == old(storageCalls) + Written(t.save)
      ensures pageStylesReleased == old(pageStylesReleased)
    {
      var current := state;
      state := state.(sizeFont := state.sizeFont - 1);
      SaveSetting(SizeFont, current.sizeFont);
    }

    method ToggleTheme(themeIndex: int)
      modifies this
      ensures var t := Step(old(state), SelectTheme(themeIndex), fade);
        state == t.next && storageCalls == old(storageCalls) + Written(t.save)
      ensures pageStylesReleased == old(pageStylesReleased)
    {
      state := state.(theme := themeIndex);
      SaveSetting(Theme, themeIndex);
    }

    method TogglePopup()
      modifies this
      ensures state == Step(old(state), UserOp.TogglePopup, fade).next
      ensures storageCalls == old(storageCalls) && pageStylesReleased == old(pageStylesReleased)
    {
      state := state.(popupMenu := !state.popupMenu);
    }

    method EditLineHeight(up: bool)
      modifies this
      ensures var t := Step(old(state), UserOp.EditLineHeight(up), fade);
        state == t.next && storageCalls == old(storageCalls) + Written(t.save)
      ensures pageStylesReleased == old(pageStylesReleased)
    {
      var current := state;
      if up {
        state := state.(lineHeight := state.lineHeight + 1);
      } else {
        state := state.(lineHeight := state.lineHeight - 1);
      }
      SaveSetting(LineHeight, current.lineHeight);
    }

    method ToggleSpeedReading()
      modifies this
      ensures state == Step(old(state), ToggleSpeed, fade).next
      ensures storageCalls == old(storageCalls) && pageStylesReleased == old(pageStylesReleased)
    {
      state := state.(speedReading := !state.speedReading);
    }

    method ToggleStopWordFade()
      modifies this
      ensures state == Step(old(state), ToggleStopWords, fade).next
      ensures storageCalls == old(storageCalls) && pageStylesReleased == old(pageStylesReleased)
    {
      if state.contentWithoutStop.None? {
        state := state.(contentWithoutStop := Some(fade(state.content)));
      } else {
        state := state.(contentWithoutStop := None);
      }
    }

    method ToggleFontWeight()
      modifies this
      ensures var t := Step(old(state), ToggleWeight, fade);
        state == t.next && storageCalls == old(storageCalls) + Written(t.save)
      ensures pageStylesReleased == old(pageStylesReleased)
    {
      var weight := ToggledWeight(state.fontWeight);
      SaveSetting(FontWeight, weight);
      state := state.(fontWeight := weight);
    }
  }
}
