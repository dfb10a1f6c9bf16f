/** The terminal interface (internal/tui/app.go): a three-mode state machine
    driven by key presses and by the messages its commands send back, a
    cursor over the result list, the scroll offset that keeps the cursor
    visible, the choice of the status and help lines, and `truncate`.

    Each handler is first given as a function from the interface's fields
    (`Ui`) and the audio session to the new fields, the audio step taken and
    the command returned (`Outcome`); the class `AppModel` performs the same
    changes in place and is proved to end where the function says. Styles,
    layout and the widgets' own behaviour are not modelled: the text input's
    editing is an `Editor` parameter and the viewport's scrolling answer is
    carried by the message it handles. */
module Tui {
  import opened Common
  import opened Text
  import opened YouTube
  import opened Audio
  import Search
  import Playlist

  /** `State`. */
  datatype State = StateNormal | StateSearchInput | StateLoading

  /** The errors the interface shows. */
  datatype AppError =
    | NoSongSelected                                 // "no song selected"
    | PlaybackFailed(playError: PlayError)           // `PlayStream`'s error
    | SearchRequestFailed(searchError: CatalogError)  // "search failed: ..."

  /** The messages `Update` handles. `ViewportMsg` stands for every other
      message, which goes to the results viewport; `yOffset` is where the
      viewport's own handling of it leaves the offset. */
  datatype Msg =
    | WindowSize(width: int, height: int)
    | Key(key: string)
    | SearchComplete(results: seq<SearchResult>)
    | SearchError(error: AppError)
    | SongLoadComplete
    | SongLoadError(error: AppError)
    | ViewportMsg(yOffset: int)

  /** The commands the handlers return; the last two are the widgets' own. */
  datatype Command =
    | NoCommand
    | Quit
    | Blink
    | PlaySelectedSong
    | PerformSearch(query: string)
    | InputCommand
    | ViewportCommand

  /** How the text input edits its value on a key press. */
  type Editor = (string, string) -> string

  /** The interface's fields: the `Model` struct without the widgets, with
      the text input's value and focus and the viewport's offset and visible
      line count in their place. */
  datatype Ui = Ui(
    state: State,
    searchResults: seq<SearchResult>,
    selected: int,
    selectedItem: Option<SearchResult>,
    isLoadingSong: bool,
    width: int,
    height: int,
    err: Option<AppError>,
    inputValue: string,
    inputFocused: bool,
    yOffset: int,
    visible: int)

  /** What a handler does: the new fields, the audio step it took and the
      command it returns. */
  datatype Outcome = Outcome(ui: Ui, audio: Step, cmd: Command)

  /** The audio step of a handler that does not touch the service. */
  function Idle(a: Session): Step {
    Step(a, [])
  }

  /** The cursor is on a result: the guard of enter and space. */
  predicate CursorValid(ui: Ui) {
    |ui.searchResults| > 0 && ui.selected >= 0 && ui.selected < |ui.searchResults|
  }

  /** The cursor invariant: on a result, or at 0 when there are none. */
  predicate SelectionOk(ui: Ui) {
    0 <= ui.selected && (ui.selected < |ui.searchResults| || ui.selected == 0)
  }

  // ---------------------------------------------------------------------
  // Scrolling

  /** Each result takes two lines of the viewport. */
  const LinesPerItem := 2

  /** The scroll part of `updateResultsViewport`: scroll up to the selected
      item's first line when it is above the view, scroll down to its last
      line when that is below the view, else keep the offset. */
  function KeepVisible(selected: int, yOffset: int, visible: int): int {
    var start := selected * LinesPerItem;
    var end := start + LinesPerItem - 1;
    if start < yOffset then start
    else if end >= yOffset + visible then end - visible + 1
    else yOffset
  }

  /** The adjusted view shows the selected item when there is room: with two
      lines or more both its lines are in view. With one visible line, an
      item at or below the offset ends with its last line at the top; with
      none (a negative count included), such an item puts the offset at or
      past both its lines. An item above the view is scrolled to its first
      line. An item already in view does not scroll. */
  lemma KeepVisibleShowsSelection(selected: int, yOffset: int, visible: int)
    ensures var y := KeepVisible(selected, yOffset, visible);
            var start := selected * 2;
            && (visible >= 2 ==> y <= start && start + 1 < y + visible)
            && (visible < 2 && start >= yOffset && start + 1 >= yOffset + visible ==> y == start + 2 - visible)
            && (visible == 1 && start >= yOffset ==> y == start + 1)
            && (visible <= 0 && start >= yOffset ==> y >= start + 2)
            && (start < yOffset ==> y == start)
            && (yOffset <= start && start + 1 < yOffset + visible ==> y == yOffset)
  {
  }

  /** The fields after `updateResultsViewport`. */
  function Scrolled(ui: Ui): Ui {
    ui.(yOffset := KeepVisible(ui.selected, ui.yOffset, ui.visible))
  }

  // ---------------------------------------------------------------------
  // Key handlers

  /** The keys of `handleNormalKeys` that move or use the cursor. */
  predicate CursorKeyName(key: string) {
    key == "up" || key == "k" || key == "down" || key == "j" || key == "enter"
  }

  /** Up and down move the cursor while that keeps it on a result, then
      scroll; enter selects the item under the cursor and starts loading it. */
  function CursorKey(ui: Ui, key: string): (Ui, Command)
    requires CursorKeyName(key)
  {
    if key == "up" || key == "k" then
      if ui.selected > 0 then (Scrolled(ui.(selected := ui.selected - 1)), NoCommand)
      else (ui, NoCommand)
    else if key == "down" || key == "j" then
      if ui.selected < |ui.searchResults| - 1 then (Scrolled(ui.(selected := ui.selected + 1)), NoCommand)
      else (ui, NoCommand)
    else if CursorValid(ui) then
      (ui.(selectedItem := Some(ui.searchResults[ui.selected]), isLoadingSong := true), PlaySelectedSong)
    else (ui, NoCommand)
  }

  /** `handleNormalKeys`. */
  function NormalKey(ui: Ui, a: Session, key: string): Outcome {
    if key == "q" || key == "ctrl+c" then Outcome(ui, Teardown(a), Quit)
    else if key == "/" || key == "s" then
      Outcome(ui.(state := StateSearchInput, inputValue := "", inputFocused := true), Idle(a), Blink)
    else if CursorKeyName(key) then
      var (u, c) := CursorKey(ui, key);
      Outcome(u, Idle(a), c)
    else if key == " " then SpaceKey(ui, a)
    else if key == "x" then Outcome(ui, Teardown(a), NoCommand)
    else Outcome(ui, Idle(a), NoCommand)
  }

  /** The space key of `handleNormalKeys`. */
  function SpaceKey(ui: Ui, a: Session): Outcome {
    if a.isPlaying then Outcome(ui, PauseStep(a), NoCommand)
    else if ui.selectedItem.Some? then
      if a.currentSong == ui.selectedItem.value.url then Outcome(ui, PlayStep(a), NoCommand)
      else Outcome(ui.(isLoadingSong := true), Idle(a), PlaySelectedSong)
    else if CursorValid(ui) then
      Outcome(ui.(selectedItem := Some(ui.searchResults[ui.selected]), isLoadingSong := true), Idle(a), PlaySelectedSong)
    else Outcome(ui, Idle(a), NoCommand)
  }

  /** `handleSearchInputKeys`. */
  function SearchInputKey(ui: Ui, key: string, edit: Editor): (Ui, Command) {
    if key == "ctrl+c" then (ui, Quit)
    else if key == "esc" then (ui.(state := StateNormal, inputFocused := false), NoCommand)
    else if key == "enter" then
      if TrimSpace(ui.inputValue) == "" then (ui.(state := StateNormal, inputFocused := false), NoCommand)
      else (ui.(state := StateLoading, inputFocused := false), PerformSearch(ui.inputValue))
    else (ui.(inputValue := edit(ui.inputValue, key)), InputCommand)
  }

  /** `handleLoadingKeys`: only ctrl+c does anything. */
  function LoadingKey(key: string): Command {
    if key == "ctrl+c" then Quit else NoCommand
  }

  /** A key press goes to the handler of the current mode. */
  function KeyStep(ui: Ui, a: Session, key: string, edit: Editor): Outcome {
    match ui.state
    case StateNormal => NormalKey(ui, a, key)
    case StateSearchInput =>
      var (u, c) := SearchInputKey(ui, key, edit);
      Outcome(u, Idle(a), c)
    case StateLoading => Outcome(ui, Idle(a), LoadingKey(key))
  }

  /** `Update`. */
  function UpdateStep(ui: Ui, a: Session, msg: Msg, edit: Editor): Outcome {
    match msg
    case Key(key) => KeyStep(ui, a, key, edit)
    case _ =>
      var (u, c) := MessageStep(ui, msg);
      Outcome(u, Idle(a), c)
  }

  /** The messages other than key presses: none of them touches the audio. */
  function MessageStep(ui: Ui, msg: Msg): (Ui, Command)
    requires !msg.Key?
  {
    match msg
    case WindowSize(w, h) =>
      (Scrolled(ui.(width := w, height := h, yOffset := 0, visible := h - 6 - 2)), NoCommand)
    case SearchComplete(results) =>
      (Scrolled(ui.(state := StateNormal, searchResults := results, selected := 0)), NoCommand)
    case SearchError(e) => (ui.(state := StateNormal, err := Some(e)), NoCommand)
    case SongLoadComplete => (ui.(isLoadingSong := false), NoCommand)
    case SongLoadError(e) => (ui.(isLoadingSong := false, err := Some(e)), NoCommand)
    case ViewportMsg(y) => (ui.(yOffset := y), ViewportCommand)
  }


  // ---------------------------------------------------------------------
  // Properties of the handlers

  /** Up and down move the cursor by one within the list, and do nothing at
      its ends. */
  lemma Navigation(ui: Ui, a: Session)
    requires SelectionOk(ui)
    ensures var o := NormalKey(ui, a, "up");
            && (ui.selected == 0 ==> o == Outcome(ui, Idle(a), NoCommand))
            && (ui.selected > 0 ==> o.ui.selected == ui.selected - 1)
    ensures var o := NormalKey(ui, a, "down");
            && (ui.selected >= |ui.searchResults| - 1 ==> o == Outcome(ui, Idle(a), NoCommand))
            && (ui.selected < |ui.searchResults| - 1 ==> o.ui.selected == ui.selected + 1)
    ensures NormalKey(ui, a, "k") == NormalKey(ui, a, "up")
    ensures NormalKey(ui, a, "j") == NormalKey(ui, a, "down")
  {
  }

  /** Every handler keeps the cursor invariant. */
  lemma UpdateKeepsSelection(ui: Ui, a: Session, msg: Msg, edit: Editor)
    requires SelectionOk(ui)
    ensures SelectionOk(UpdateStep(ui, a, msg, edit).ui)
  {
  }

  /** Enter in normal mode selects the cursor's item and starts loading it
      exactly when the cursor is on a result, and otherwise does nothing. */
  lemma EnterSelects(ui: Ui, a: Session)
    ensures var o := NormalKey(ui, a, "enter");
            && (CursorValid(ui) <==> o.cmd == PlaySelectedSong)
            && (CursorValid(ui) ==> o.ui.selectedItem == Some(ui.searchResults[ui.selected]) && o.ui.isLoadingSong)
            && (!CursorValid(ui) ==> o == Outcome(ui, Idle(a), NoCommand))
  {
  }

  /** The space key pauses what is playing; otherwise it resumes the selected
      song if it is the current one, and otherwise loads the selected song,
      selecting the cursor's item first if none is selected. */
  lemma SpaceRules(ui: Ui, a: Session)
    ensures var o := NormalKey(ui, a, " ");
            && (a.isPlaying ==> o == Outcome(ui, PauseStep(a), NoCommand))
            && (!a.isPlaying && ui.selectedItem.Some? && a.currentSong == ui.selectedItem.value.url ==>
                  o == Outcome(ui, PlayStep(a), NoCommand))
            && (!a.isPlaying && ui.selectedItem.Some? && a.currentSong != ui.selectedItem.value.url ==>
                  o.cmd == PlaySelectedSong && o.ui == ui.(isLoadingSong := true))
            && (!a.isPlaying && ui.selectedItem.None? && CursorValid(ui) ==>
                  o.cmd == PlaySelectedSong && o.ui.selectedItem == Some(ui.searchResults[ui.selected]))
            && (!a.isPlaying && ui.selectedItem.None? && !CursorValid(ui) ==> o == Outcome(ui, Idle(a), NoCommand))
  {
  }

  /** When space resumes, the audio service really is paused on that song, so
      `Play` takes effect: a consistent session whose current song is a
      non-empty URL and which is not playing has a paused player. */
  lemma SpaceResumesPausedSong(ui: Ui, a: Session)
    requires Consistent(a)
    requires !a.isPlaying && ui.selectedItem.Some? && ui.selectedItem.value.url != ""
    requires a.currentSong == ui.selectedItem.value.url
    ensures NormalKey(ui, a, " ").audio.after.isPlaying
    ensures NormalKey(ui, a, " ").audio.calls == [PlayPlayer(a.player.value)]
  {
  }

  /** Mode transitions: '/' and 's' open the search input with an empty,
      focused query; esc and enter on a blank query return to normal mode;
      enter on any other query starts the search and shows the loading mode;
      a finished or failed search returns to normal mode, a finished one with
      the cursor at the top. */
  lemma ModeTransitions(ui: Ui, a: Session, edit: Editor, results: seq<SearchResult>, e: AppError)
    ensures ui.state == StateNormal ==>
              var o := UpdateStep(ui, a, Key("/"), edit);
              o.ui.state == StateSearchInput && o.ui.inputValue == "" && o.ui.inputFocused && o.cmd == Blink
    ensures ui.state == StateNormal ==> UpdateStep(ui, a, Key("s"), edit) == UpdateStep(ui, a, Key("/"), edit)
    ensures ui.state == StateSearchInput ==>
              UpdateStep(ui, a, Key("esc"), edit).ui.state == StateNormal
    ensures ui.state == StateSearchInput ==>
              var o := UpdateStep(ui, a, Key("enter"), edit);
              && (AllSpace(ui.inputValue) ==> o.ui.state == StateNormal && o.cmd == NoCommand)
              && (!AllSpace(ui.inputValue) ==> o.ui.state == StateLoading && o.cmd == PerformSearch(ui.inputValue))
    ensures UpdateStep(ui, a, SearchComplete(results), edit).ui.state == StateNormal
    ensures UpdateStep(ui, a, SearchComplete(results), edit).ui.selected == 0
    ensures UpdateStep(ui, a, SearchComplete(results), edit).ui.searchResults == results
    ensures UpdateStep(ui, a, SearchError(e), edit).ui.state == StateNormal
    ensures UpdateStep(ui, a, SearchError(e), edit).ui.err == Some(e)
  {
  }

  /** In loading mode every key but ctrl+c is ignored, and ctrl+c quits. */
  lemma LoadingIgnoresKeys(ui: Ui, a: Session, edit: Editor, key: string)
    requires ui.state == StateLoading
    ensures key != "ctrl+c" ==> UpdateStep(ui, a, Key(key), edit) == Outcome(ui, Idle(a), NoCommand)
    ensures key == "ctrl+c" ==> UpdateStep(ui, a, Key(key), edit) == Outcome(ui, Idle(a), Quit)
  {
  }

  /** Quitting stops the audio in normal mode; the other modes quit on ctrl+c
      without touching it. */
  lemma QuitStopsAudio(ui: Ui, a: Session, edit: Editor)
    ensures ui.state == StateNormal ==> UpdateStep(ui, a, Key("q"), edit) == Outcome(ui, Teardown(a), Quit)
    ensures ui.state == StateNormal ==> UpdateStep(ui, a, Key("ctrl+c"), edit) == Outcome(ui, Teardown(a), Quit)
    ensures ui.state != StateNormal ==> UpdateStep(ui, a, Key("ctrl+c"), edit) == Outcome(ui, Idle(a), Quit)
  {
  }

  // ---------------------------------------------------------------------
  // The view

  /** `truncate(s, max)`: `s` if it fits, else its first `max - 3` characters
      and "...". Go slices `s[:max-3]`, which panics for a long `s` when
      `max < 3`; callers use 40 and 100. */
  function Truncate(s: string, max: int): (r: string)
    requires |s| <= max || max >= 3
    ensures |s| <= max ==> r == s
    ensures |s| > max ==> |r| == max && r[..max - 3] == s[..max - 3] && r[max - 3..] == "..."
  {
    if |s| <= max then s else s[..max - 3] + "..."
  }

  /** A truncated string fits, and truncating it again changes nothing. */
  lemma TruncateFits(s: string, max: int)
    requires max >= 3
    ensures |Truncate(s, max)| <= max
    ensures Truncate(Truncate(s, max), max) == Truncate(s, max)
  {
  }

  /** The status line of the player panel. */
  datatype Status = LoadingStatus | NowPlaying | PausedStatus | Stopped

  /** The status priority: loading, then playing, then paused (the selected
      item is the current song), then stopped. */
  function StatusOf(isLoadingSong: bool, a: Session, selectedItem: Option<SearchResult>): Status {
    if isLoadingSong then LoadingStatus
    else if a.isPlaying then NowPlaying
    else if selectedItem.Some? && a.currentSong == selectedItem.value.url then PausedStatus
    else Stopped
  }

  /** "PAUSED" is shown for a selected item with a real URL exactly when the
      audio service is paused on it. */
  lemma PausedStatusMeansPaused(isLoadingSong: bool, a: Session, item: SearchResult)
    requires Consistent(a) && item.url != "" && !isLoadingSong
    ensures StatusOf(isLoadingSong, a, Some(item)) == PausedStatus <==> a.isPaused && a.currentSong == item.url
  {
  }

  /** The help line. */
  datatype Help =
    | ErrorHelp(error: AppError)
    | LoadingSongHelp
    | PlayingHelp
    | ResumeHelp
    | ToggleHelp
    | EmptyListHelp
    | SearchingHelp
    | NoHelp

  /** A pending error replaces the help text; otherwise the help depends on
      the mode, the loading flag, the list and the transport. */
  function HelpOf(ui: Ui, a: Session): Help {
    if ui.err.Some? then ErrorHelp(ui.err.value)
    else match ui.state
      case StateNormal =>
        if ui.isLoadingSong then LoadingSongHelp
        else if |ui.searchResults| > 0 then
          if a.isPlaying then PlayingHelp
          else if ui.selectedItem.Some? && a.currentSong == ui.selectedItem.value.url then ResumeHelp
          else ToggleHelp
        else EmptyListHelp
      case StateLoading => SearchingHelp
      case StateSearchInput => NoHelp
  }

  /** The help line of normal mode agrees with the status line: loading,
      playing, paused and stopped each come with their own help text. */
  lemma StatusAgreesWithHelp(ui: Ui, a: Session)
    requires ui.state == StateNormal && ui.err.None? && |ui.searchResults| > 0
    ensures var status := StatusOf(ui.isLoadingSong, a, ui.selectedItem);
            && (HelpOf(ui, a) == LoadingSongHelp <==> status == LoadingStatus)
            && (HelpOf(ui, a) == PlayingHelp <==> status == NowPlaying)
            && (HelpOf(ui, a) == ResumeHelp <==> status == PausedStatus)
            && (HelpOf(ui, a) == ToggleHelp <==> status == Stopped)
  {
  }

  /** The player panel's details of the selected item. */
  datatype ItemPanel = ItemPanel(
    title: string,
    channelTitle: string,
    videoId: string,
    description: string,
    duration: string,
    thumbnailUrl: string,
    url: string)

  function PanelOf(item: SearchResult): (p: ItemPanel)
    ensures |p.description| <= 100
    ensures |item.description| <= 100 ==> p.description == item.description
    ensures |item.description| > 100 ==> p.description == item.description[..97] + "..."
    ensures && p.title == item.title && p.channelTitle == item.channelTitle && p.videoId == item.videoId
            && p.duration == item.duration && p.thumbnailUrl == item.thumbnailUrl && p.url == item.url
  {
    ItemPanel(item.title, item.channelTitle, item.videoId, Truncate(item.description, 100),
              item.duration, item.thumbnailUrl, item.url)
  }

  /** What `View` shows. */
  datatype Screen =
    | Splash                                  // "Loading..." before the first size
    | SearchModal(input: string)
    | MainView(hasResults: bool, status: Status, panel: Option<ItemPanel>, help: Help)

  function ScreenOf(ui: Ui, a: Session): Screen {
    if ui.width == 0 then Splash
    else if ui.state == StateSearchInput then SearchModal(ui.inputValue)
    else
      MainView(|ui.searchResults| > 0, StatusOf(ui.isLoadingSong, a, ui.selectedItem),
               if ui.selectedItem.Some? then Some(PanelOf(ui.selectedItem.value)) else None,
               HelpOf(ui, a))
  }

  /** The fields after `View`: a sized view consumes the pending error. */
  function AfterView(ui: Ui): Ui {
    if ui.width == 0 then ui else ui.(err := None)
  }

  /** A pending error is shown by the first sized view of the main screen and
      not by the next one, which shows the ordinary help again. */
  lemma ErrorShownOnce(ui: Ui, a: Session, e: AppError)
    requires ui.width != 0 && ui.state != StateSearchInput && ui.err == Some(e)
    ensures ScreenOf(ui, a).help == ErrorHelp(e)
    ensures AfterView(ui).err.None?
    ensures ScreenOf(AfterView(ui), a).help == HelpOf(ui.(err := None), a)
    ensures !ScreenOf(AfterView(ui), a).help.ErrorHelp?
  {
  }

  // ---------------------------------------------------------------------
  // The application object

  /** The playlist `NewApp` loads at start. */
  const InitialPlaylist := "PLdavpelzZMWVhADtPAMJWzGrT0OKVpDAp"

  /** `AppModel`: the interface's fields, updated in place, and the audio
      service it drives. */
  class AppModel {
    var state: State
    var searchResults: seq<SearchResult>
    var selected: int
    var selectedItem: Option<SearchResult>
    var isLoadingSong: bool
    var width: int
    var height: int
    var err: Option<AppError>
    var inputValue: string
    var inputFocused: bool
    var yOffset: int
    var visible: int
    const audio: AudioService

    /** The fields as one `Ui` value. */
    function Snap(): Ui
      reads this
    {
      Ui(state, searchResults, selected, selectedItem, isLoadingSong, width, height, err,
         inputValue, inputFocused, yOffset, visible)
    }

    ghost predicate Valid()
      reads this, audio
    {
      audio.Valid() && SelectionOk(Snap())
    }

    /** The model `NewApp` returns, once the initial results are known. */
    constructor (initialResults: seq<SearchResult>)
      ensures Valid() && fresh(audio)
      ensures Snap() == Ui(StateNormal, initialResults, 0, None, false, 0, 0, None, "", true, 0, 0)
      ensures audio.Snapshot() == Initial() && audio.calls == []
    {
      state, searchResults, selected, selectedItem := StateNormal, initialResults, 0, None;
      isLoadingSong, width, height, err := false, 0, 0, None;
      inputValue, inputFocused, yOffset, visible := "", true, 0, 0;
      audio := new AudioService();
    }

    /** The scroll part of `updateResultsViewport`. */
    method UpdateResultsViewport()
      modifies this
      ensures Snap() == Scrolled(old(Snap()))
    {
      var start := selected * LinesPerItem;
      var end := start + LinesPerItem - 1;
      if start < yOffset {
        yOffset := start;
      } else if end >= yOffset + visible {
        yOffset := end - visible + 1;
      }
    }

    /** The up, down and enter cases of `handleNormalKeys`. */
    method HandleCursorKeys(key: string) returns (cmd: Command)
      requires CursorKeyName(key) && SelectionOk(Snap())
      modifies this
      ensures SelectionOk(Snap())
      ensures (Snap(), cmd) == CursorKey(old(Snap()), key)
    {
      cmd := NoCommand;
      if key == "up" || key == "k" {
        if selected > 0 {
          selected := selected - 1;
          UpdateResultsViewport();
        }
      } else if key == "down" || key == "j" {
        if selected < |searchResults| - 1 {
          selected := selected + 1;
          UpdateResultsViewport();
        }
      } else if |searchResults| > 0 && selected >= 0 && selected < |searchResults| {
        selectedItem := Some(searchResults[selected]);
        isLoadingSong := true;
        cmd := PlaySelectedSong;
      }
    }

    /** `handleNormalKeys`. */
    method HandleNormalKeys(key: string) returns (cmd: Command)
      requires Valid()
      modifies this, audio
      ensures Valid()
      ensures var o := NormalKey(old(Snap()), old(audio.Snapshot()), key);
              && Snap() == o.ui && cmd == o.cmd
              && audio.Snapshot() == o.audio.after && audio.calls == old(audio.calls) + o.audio.calls
    {
      cmd := NoCommand;
      if key == "q" || key == "ctrl+c" {
        audio.Stop();
        cmd := Quit;
      } else if key == "/" || key == "s" {
        state := StateSearchInput;
        inputValue := "";
        inputFocused := true;
        cmd := Blink;
      } else if CursorKeyName(key) {
        cmd := HandleCursorKeys(key);
      } else if key == " " {
        cmd := HandleSpace();
      } else if key == "x" {
        audio.Stop();
      }
    }

    /** The space key of `handleNormalKeys`. */
    method HandleSpace() returns (cmd: Command)
      requires Valid()
      modifies this, audio
      ensures Valid()
      ensures var o := SpaceKey(old(Snap()), old(audio.Snapshot()));
              && Snap() == o.ui && cmd == o.cmd
              && audio.Snapshot() == o.audio.after && audio.calls == old(audio.calls) + o.audio.calls
    {
      cmd := NoCommand;
      var playing := audio.IsPlaying();
      if playing {
        audio.Pause();
      } else if selectedItem.Some? {
        var song := audio.GetCurrentSong();
        if song == selectedItem.value.url {
          audio.Play();
        } else {
          isLoadingSong := true;
          cmd := PlaySelectedSong;
        }
      } else if |searchResults| > 0 && selected >= 0 && selected < |searchResults| {
        selectedItem := Some(searchResults[selected]);
        isLoadingSong := true;
        cmd := PlaySelectedSong;
      }
    }

    /** `handleSearchInputKeys`; `edit` is the text input's own editing. */
    method HandleSearchInputKeys(key: string, edit: Editor) returns (cmd: Command)
      modifies this
      ensures (Snap(), cmd) == SearchInputKey(old(Snap()), key, edit)
    {
      if key == "ctrl+c" {
        cmd := Quit;
      } else if key == "esc" {
        state := StateNormal;
        inputFocused := false;
        cmd := NoCommand;
      } else if key == "enter" {
        var query := inputValue;
        if TrimSpace(query) == "" {
          state := StateNormal;
          inputFocused := false;
          cmd := NoCommand;
        } else {
          state := StateLoading;
          inputFocused := false;
          cmd := PerformSearch(query);
        }
      } else {
        inputValue := edit(inputValue, key);
        cmd := InputCommand;
      }
    }

    /** `handleLoadingKeys`. */
    method HandleLoadingKeys(key: string) returns (cmd: Command)
      ensures cmd == LoadingKey(key)
      ensures key == "ctrl+c" <==> cmd == Quit
      ensures cmd == Quit || cmd == NoCommand
    {
      if key == "ctrl+c" {
        return Quit;
      }
      return NoCommand;
    }

    /** The `tea.KeyMsg` case of `Update`: dispatch on the mode. */
    method HandleKey(key: string, edit: Editor) returns (cmd: Command)
      requires Valid()
      modifies this, audio
      ensures Valid()
      ensures var o := KeyStep(old(Snap()), old(audio.Snapshot()), key, edit);
              && Snap() == o.ui && cmd == o.cmd
              && audio.Snapshot() == o.audio.after && audio.calls == old(audio.calls) + o.audio.calls
    {
      match state {
        case StateNormal =>
          cmd := HandleNormalKeys(key);
        case StateSearchInput =>
          cmd := HandleSearchInputKeys(key, edit);
        case StateLoading =>
          cmd := HandleLoadingKeys(key);
      }
    }

    /** `Update`. */
    method Update(msg: Msg, edit: Editor) returns (cmd: Command)
      requires Valid()
      modifies this, audio
      ensures Valid()
      ensures var o := UpdateStep(old(Snap()), old(audio.Snapshot()), msg, edit);
              && Snap() == o.ui && cmd == o.cmd
              && audio.Snapshot() == o.audio.after && audio.calls == old(audio.calls) + o.audio.calls
    {
      if msg.Key? {
        cmd := HandleKey(msg.key, edit);
      } else {
        cmd := HandleMessage(msg);
      }
    }

    /** The cases of `Update` other than `tea.KeyMsg`. */
    method HandleMessage(msg: Msg) returns (cmd: Command)
      requires !msg.Key? && SelectionOk(Snap())
      modifies this
      ensures SelectionOk(Snap())
      ensures (Snap(), cmd) == MessageStep(old(Snap()), msg)
    {
      cmd := NoCommand;
      match msg {
        case WindowSize(w, h) =>
          width := w;
          height := h;
          yOffset := 0;
          visible := h - 6 - 2;
          UpdateResultsViewport();
        case SearchComplete(results) =>
          state := StateNormal;
          searchResults := results;
          selected := 0;
          UpdateResultsViewport();
        case SearchError(e) =>
          state := StateNormal;
          err := Some(e);
        case SongLoadComplete =>
          isLoadingSong := false;
        case SongLoadError(e) =>
          isLoadingSong := false;
          err := Some(e);
        case ViewportMsg(y) =>
          yOffset := y;
          cmd := ViewportCommand;
      }
    }

    /** `View`: what is shown, and the pending error consumed. */
    method View() returns (screen: Screen)
      modifies this
      ensures screen == ScreenOf(old(Snap()), audio.Snapshot())
      ensures Snap() == AfterView(old(Snap()))
    {
      if width == 0 {
        return Splash;
      }
      var playing := audio.IsPlaying();
      var song := audio.GetCurrentSong();
      var status: Status;
      if isLoadingSong {
        status := LoadingStatus;
      } else if playing {
        status := NowPlaying;
      } else if selectedItem.Some? && song == selectedItem.value.url {
        status := PausedStatus;
      } else {
        status := Stopped;
      }
      var panel := if selectedItem.Some? then Some(PanelOf(selectedItem.value)) else None;
      var help := NoHelp;
      match state {
        case StateNormal =>
          if isLoadingSong {
            help := LoadingSongHelp;
          } else if |searchResults| > 0 {
            if playing {
              help := PlayingHelp;
            } else if selectedItem.Some? && song == selectedItem.value.url {
              help := ResumeHelp;
            } else {
              help := ToggleHelp;
            }
          } else {
            help := EmptyListHelp;
          }
        case StateLoading =>
          help := SearchingHelp;
        case StateSearchInput =>
      }
      if err.Some? {
        help := ErrorHelp(err.value);
        err := None;
      }
      if state == StateSearchInput {
        return SearchModal(inputValue);
      }
      return MainView(|searchResults| > 0, status, panel, help);
    }

    /** The command `playSelectedSong` returns, run: play the selected item's
        URL and report how it went. */
    method RunPlaySelectedSong(env: Environment) returns (msg: Msg)
      requires Valid()
      modifies audio
      ensures Valid()
      ensures selectedItem.None? ==>
                && msg == SongLoadError(NoSongSelected)
                && audio.Snapshot() == old(audio.Snapshot())
                && audio.calls == old(audio.calls)
      ensures selectedItem.Some? ==>
                var (step, e) := Load(old(audio.Snapshot()), selectedItem.value.url, env);
                && audio.Snapshot() == step.after && audio.calls == old(audio.calls) + step.calls
                && msg == (if e.Some? then SongLoadError(PlaybackFailed(e.value)) else SongLoadComplete)
    {
      if selectedItem.None? {
        return SongLoadError(NoSongSelected);
      }
      var e := audio.PlayStream(selectedItem.value.url, env);
      if e.Some? {
        return SongLoadError(PlaybackFailed(e.value));
      }
      return SongLoadComplete;
    }
  }

  /** The command `performSearch(query)` returns, run: a search service with
      ten results per page, and its results or its error, wrapped. */
  method RunPerformSearch(query: string, searchApi: SearchApi, videosApi: VideosApi) returns (msg: Msg)
    ensures var call := SearchCall(["id", "snippet"], query, 10, "relevance", "moderate", "any", "any", "video");
            && (searchApi(call).Failure? ==> msg == SearchError(SearchRequestFailed(SearchFailed(searchApi(call).error))))
            && (searchApi(call).Success? ==> msg == SearchComplete(Search.Shaped(searchApi(call).value.items, videosApi)))
  {
    var service := Search.NewSearchService(10);
    Search.DefaultSearchCall(10, query);
    var response := Search.Search(service, query, searchApi, videosApi);
    if response.Failure? {
      return SearchError(SearchRequestFailed(response.error));
    }
    return SearchComplete(response.value.results);
  }

  /** `NewApp`: every usable item of every page of the initial playlist,
      fetched a hundred per request, as the result list; a playlist error
      ends the program (`log.Fatalf`), which is `None` here. */
  method NewApp(pages: seq<Result<PlaylistPage, ApiError>>, videosApi: VideosApi)
    returns (app: Option<AppModel>, calls: seq<PlaylistItemsCall>)
    requires Playlist.FinitePages(pages)
    ensures |calls| == Playlist.EndIndex(pages) + 1
    ensures forall j :: 0 <= j < |calls| ==> calls[j] == Playlist.PageCall(InitialPlaylist, 100, Playlist.TokenFor(pages, j))
    ensures Playlist.Paginate(pages, videosApi, []).Failure? <==> app.None?
    ensures app.Some? ==>
              && app.value.Valid() && fresh(app.value) && fresh(app.value.audio)
              && app.value.Snap().state == StateNormal
              && app.value.Snap().searchResults == Playlist.Paginate(pages, videosApi, []).value
              && app.value.Snap().selected == 0 && app.value.Snap().selectedItem.None?
              && app.value.audio.Snapshot() == Initial()
  {
    var initialResults;
    initialResults, calls := Playlist.GetPlaylistItems(InitialPlaylist, 100, pages, videosApi);
    if initialResults.Failure? {
      return None, calls;
    }
    var m := new AppModel(initialResults.value);
    return Some(m), calls;
  }
}
