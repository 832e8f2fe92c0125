/**
 * The view state of the profile's Taste tab (both TasteScreen overloads):
 * the loved/hated selector, the shared collapse flag that windows the
 * feedback list to its first five rows, the separate collapse flag of the
 * pins list, the load-more toggles, the single `dropdownItemIndex` that
 * decides which row's menu is open, and the calls the screen makes into the
 * view models, recorded in order as effects.
 */
module TasteTab {
  import opened Wrappers

  // ---------------------------------------------------------------------------
  // What the screen is given
  // ---------------------------------------------------------------------------

  datatype MbidMapping = MbidMapping(recordingMbid: string)

  datatype TrackMetadata = TrackMetadata(trackName: string, artistName: string, mbidMapping: Option<MbidMapping>)

  /** The argument handed to the social actions: a wrapper of nullable track metadata. */
  datatype Metadata = Metadata(trackMetadata: Option<TrackMetadata>)

  datatype Feedback = Feedback(trackMetadata: Option<TrackMetadata>)

  datatype FeedbackPage = FeedbackPage(count: int, feedback: seq<Feedback>)

  datatype PinnedRecording = PinnedRecording(trackMetadata: Option<TrackMetadata>, blurbContent: Option<string>)

  datatype PinsPage = PinsPage(count: int, pinnedRecordings: seq<PinnedRecording>)

  /** The Taste tab's part of the profile state: every page may be absent. */
  datatype TasteTabUiState = TasteTabUiState(
    lovedSongs: Option<FeedbackPage>,
    hatedSongs: Option<FeedbackPage>,
    pins: Option<PinsPage>)

  // ---------------------------------------------------------------------------
  // The screen's own state and what it does
  // ---------------------------------------------------------------------------

  datatype LovedHated = Loved | Hated

  datatype DialogKind = PersonalRecommendationDialog | ReviewDialog | PinDialog

  /** A dialog activated from a row's menu, for the row at `index`. */
  datatype ActiveDialog = ActiveDialog(kind: DialogKind, index: int)

  /** A call the screen makes outside itself. */
  datatype Effect =
    | PlayListen(track: TrackMetadata)
    | Recommend(metadata: Metadata)
    | PinRecording(metadata: Metadata, blurbContent: string)
    | ReviewRecording(metadata: Metadata, entityType: string, blurbContent: string, rating: Option<int>, locale: string)
    | RecommendToUsers(metadata: Metadata, users: seq<string>, blurbContent: string)
    | OpenUri(uri: string)

  datatype ViewState = ViewState(
    lovedHated: LovedHated,
    lovedHatedCollapsed: bool,
    pinsCollapsed: bool,
    dropdownItemIndex: Option<int>,
    activeDialog: Option<ActiveDialog>,
    effects: seq<Effect>)

  /** The callbacks the screen reacts to. */
  datatype UiEvent =
    | LovedClicked
    | HatedClicked
    | FeedbackLoadMoreClicked
    | PinsLoadMoreClicked
    | DropdownIconClicked(index: int)
    | MenuDismissed
    | RecommendClicked(metadata: Metadata)
    | PersonallyRecommendClicked(index: int)
    | ReviewClicked(index: int)
    | PinClicked(index: int)
    | OpenInMusicBrainzClicked(metadata: Metadata)
    | RowClicked(track: Option<TrackMetadata>)
    | PinSubmitted(metadata: Metadata, blurbContent: string)
    | ReviewSubmitted(metadata: Metadata, entityType: string, blurbContent: string, rating: Option<int>, locale: string)
    | PersonalRecommendationSubmitted(metadata: Metadata, users: seq<string>, blurbContent: string)
    | DialogDeactivated

  const CollapsedRows := 5

  const MusicBrainzRecordingPrefix := "https://musicbrainz.org/recording/"

  /** Loved is selected, both lists are collapsed and no menu is open. */
  const InitialState := ViewState(Loved, true, true, None, None, [])

  /** The actions of a row's menu, each of which closes the menu. */
  predicate IsMenuAction(e: UiEvent) {
    e.MenuDismissed? || e.RecommendClicked? || e.PersonallyRecommendClicked? || e.ReviewClicked?
    || e.PinClicked? || e.OpenInMusicBrainzClicked? || e.PinSubmitted?
  }

  predicate OpensDialog(e: UiEvent) {
    e.PersonallyRecommendClicked? || e.ReviewClicked? || e.PinClicked?
  }

  /** The events that call into a view model or the URI handler. */
  predicate CallsOut(e: UiEvent) {
    e.RecommendClicked? || e.OpenInMusicBrainzClicked? || (e.RowClicked? && e.track.Some?)
    || e.PinSubmitted? || e.ReviewSubmitted? || e.PersonalRecommendationSubmitted?
  }

  /** The row at `index`, a feedback row or a pin row alike, has its menu expanded. */
  function MenuExpanded(s: ViewState, index: int): (expanded: bool)
    ensures expanded <==> s.dropdownItemIndex.Some? && s.dropdownItemIndex.value == index
    ensures expanded ==> forall j :: j != index ==> s.dropdownItemIndex != Some(j)
  {
    s.dropdownItemIndex == Some(index)
  }

  /**
   * The MusicBrainz recording page of the metadata's recording MBID. When the
   * track metadata or its MBID mapping is absent, the string template renders
   * the word "null" in place of the MBID.
   */
  function RecordingUri(m: Metadata): (uri: string)
    ensures MusicBrainzRecordingPrefix <= uri
    ensures m.trackMetadata.Some? && m.trackMetadata.value.mbidMapping.Some? ==>
      uri == MusicBrainzRecordingPrefix + m.trackMetadata.value.mbidMapping.value.recordingMbid
    ensures m.trackMetadata.None? ==> uri == MusicBrainzRecordingPrefix + "null"
    ensures m.trackMetadata.Some? && m.trackMetadata.value.mbidMapping.None? ==>
      uri == MusicBrainzRecordingPrefix + "null"
  {
    MusicBrainzRecordingPrefix +
      match m.trackMetadata
      case Some(TrackMetadata(_, _, Some(mapping))) => mapping.recordingMbid
      case _ => "null"
  }

  /** The state after one callback. */
  function Apply(s: ViewState, e: UiEvent): (r: ViewState)
    ensures e.LovedClicked? ==> r.lovedHated == Loved
    ensures e.HatedClicked? ==> r.lovedHated == Hated
    ensures !e.LovedClicked? && !e.HatedClicked? ==> r.lovedHated == s.lovedHated
    ensures r.lovedHatedCollapsed != s.lovedHatedCollapsed <==> e.FeedbackLoadMoreClicked?
    ensures r.pinsCollapsed != s.pinsCollapsed <==> e.PinsLoadMoreClicked?
    ensures e.DropdownIconClicked? ==> r.dropdownItemIndex == Some(e.index)
    ensures IsMenuAction(e) ==> r.dropdownItemIndex == None
    ensures !e.DropdownIconClicked? && !IsMenuAction(e) ==> r.dropdownItemIndex == s.dropdownItemIndex
    ensures e.PersonallyRecommendClicked? ==> r.activeDialog == Some(ActiveDialog(PersonalRecommendationDialog, e.index))
    ensures e.ReviewClicked? ==> r.activeDialog == Some(ActiveDialog(ReviewDialog, e.index))
    ensures e.PinClicked? ==> r.activeDialog == Some(ActiveDialog(PinDialog, e.index))
    ensures e.DialogDeactivated? ==> r.activeDialog == None
    ensures !OpensDialog(e) && !e.DialogDeactivated? ==> r.activeDialog == s.activeDialog
    ensures s.effects <= r.effects
    ensures CallsOut(e) <==> |r.effects| == |s.effects| + 1
    ensures !CallsOut(e) <==> r.effects == s.effects
    ensures e.RowClicked? && e.track.Some? ==> r.effects[|s.effects|] == PlayListen(e.track.value)
    ensures e.RecommendClicked? ==> r.effects[|s.effects|] == Recommend(e.metadata)
    ensures e.OpenInMusicBrainzClicked? ==> r.effects[|s.effects|] == OpenUri(RecordingUri(e.metadata))
    ensures e.PinSubmitted? ==> r.effects[|s.effects|] == PinRecording(e.metadata, e.blurbContent)
    ensures e.ReviewSubmitted? ==>
      r.effects[|s.effects|] == ReviewRecording(e.metadata, e.entityType, e.blurbContent, e.rating, e.locale)
    ensures e.PersonalRecommendationSubmitted? ==>
      r.effects[|s.effects|] == RecommendToUsers(e.metadata, e.users, e.blurbContent)
  {
    match e
    case LovedClicked => s.(lovedHated := Loved)
    case HatedClicked => s.(lovedHated := Hated)
    case FeedbackLoadMoreClicked => s.(lovedHatedCollapsed := !s.lovedHatedCollapsed)
    case PinsLoadMoreClicked => s.(pinsCollapsed := !s.pinsCollapsed)
    case DropdownIconClicked(index) => s.(dropdownItemIndex := Some(index))
    case MenuDismissed => s.(dropdownItemIndex := None)
    case RecommendClicked(m) => s.(effects := s.effects + [Recommend(m)], dropdownItemIndex := None)
    case PersonallyRecommendClicked(index) =>
      s.(activeDialog := Some(ActiveDialog(PersonalRecommendationDialog, index)), dropdownItemIndex := None)
    case ReviewClicked(index) => s.(activeDialog := Some(ActiveDialog(ReviewDialog, index)), dropdownItemIndex := None)
    case PinClicked(index) => s.(activeDialog := Some(ActiveDialog(PinDialog, index)), dropdownItemIndex := None)
    case OpenInMusicBrainzClicked(m) => s.(effects := s.effects + [OpenUri(RecordingUri(m))], dropdownItemIndex := None)
    case RowClicked(track) =>
      if track.Some? then s.(effects := s.effects + [PlayListen(track.value)]) else s
    case PinSubmitted(m, blurb) => s.(effects := s.effects + [PinRecording(m, blurb)], dropdownItemIndex := None)
    case ReviewSubmitted(m, entityType, blurb, rating, locale) =>
      s.(effects := s.effects + [ReviewRecording(m, entityType, blurb, rating, locale)])
    case PersonalRecommendationSubmitted(m, users, blurb) =>
      s.(effects := s.effects + [RecommendToUsers(m, users, blurb)])
    case DialogDeactivated => s.(activeDialog := None)
  }

  /** The state after a run of callbacks, first to last. */
  function ApplyAll(s: ViewState, events: seq<UiEvent>): ViewState
    decreases events
  {
    if events == [] then s else ApplyAll(Apply(s, events[0]), events[1..])
  }

  function FeedbackLoadMoreClicks(events: seq<UiEvent>): nat {
    if events == [] then 0
    else (if events[0].FeedbackLoadMoreClicked? then 1 else 0) + FeedbackLoadMoreClicks(events[1..])
  }

  // ---------------------------------------------------------------------------
  // What is drawn
  // ---------------------------------------------------------------------------

  /** The first five entries when collapsed, the whole list otherwise. */
  function Window<T>(items: seq<T>, collapsed: bool): (rows: seq<T>)
    ensures rows <= items
    ensures |rows| == if collapsed && |items| > CollapsedRows then CollapsedRows else |items|
  {
    if collapsed && |items| > CollapsedRows then items[..CollapsedRows] else items
  }

  function SelectedPage(ui: TasteTabUiState, choice: LovedHated): Option<FeedbackPage> {
    if choice == Loved then ui.lovedSongs else ui.hatedSongs
  }

  /** The page's feedback list, or the empty list when the page is absent. */
  function FeedbackOf(page: Option<FeedbackPage>): seq<Feedback> {
    if page.Some? then page.value.feedback else []
  }

  function PinsOf(pins: Option<PinsPage>): seq<PinnedRecording> {
    if pins.Some? then pins.value.pinnedRecordings else []
  }

  /** The page's count, or zero when the page is absent. */
  function CountOf(page: Option<FeedbackPage>): int {
    if page.Some? then page.value.count else 0
  }

  function PinCount(pins: Option<PinsPage>): int {
    if pins.Some? then pins.value.count else 0
  }

  /** The feedback rows drawn: a window on the selected list, empty when it is absent. */
  function VisibleFeedback(ui: TasteTabUiState, s: ViewState): (rows: seq<Feedback>)
    ensures rows <= FeedbackOf(SelectedPage(ui, s.lovedHated))
    ensures SelectedPage(ui, s.lovedHated).None? ==> rows == []
    ensures |rows| == if s.lovedHatedCollapsed && |FeedbackOf(SelectedPage(ui, s.lovedHated))| > CollapsedRows
      then CollapsedRows else |FeedbackOf(SelectedPage(ui, s.lovedHated))|
    ensures !s.lovedHatedCollapsed ==> rows == FeedbackOf(SelectedPage(ui, s.lovedHated))
    ensures |FeedbackOf(SelectedPage(ui, s.lovedHated))| <= CollapsedRows ==>
      rows == FeedbackOf(SelectedPage(ui, s.lovedHated))
  {
    Window(FeedbackOf(SelectedPage(ui, s.lovedHated)), s.lovedHatedCollapsed)
  }

  /** The pin rows drawn: a window on the pins with their own flag, empty when absent. */
  function VisiblePins(ui: TasteTabUiState, s: ViewState): (rows: seq<PinnedRecording>)
    ensures rows <= PinsOf(ui.pins)
    ensures ui.pins.None? ==> rows == []
    ensures |rows| == if s.pinsCollapsed && |PinsOf(ui.pins)| > CollapsedRows then CollapsedRows else |PinsOf(ui.pins)|
    ensures !s.pinsCollapsed ==> rows == PinsOf(ui.pins)
    ensures |PinsOf(ui.pins)| <= CollapsedRows ==> rows == PinsOf(ui.pins)
  {
    Window(PinsOf(ui.pins), s.pinsCollapsed)
  }

  /**
   * The shared load-more toggle is shown when either list counts more than
   * five; when it is hidden and the counts cover the lists, neither list has
   * more rows than the collapsed window.
   */
  function ShowFeedbackLoadMore(ui: TasteTabUiState): (show: bool)
    ensures show <==> CountOf(ui.lovedSongs) > CollapsedRows || CountOf(ui.hatedSongs) > CollapsedRows
    ensures !show && CountCovers(ui) ==>
      |FeedbackOf(ui.lovedSongs)| <= CollapsedRows && |FeedbackOf(ui.hatedSongs)| <= CollapsedRows
  {
    CountOf(ui.lovedSongs) > CollapsedRows || CountOf(ui.hatedSongs) > CollapsedRows
  }

  /** The pins' toggle is shown when the pins count more than five; when hidden, the window holds every pin. */
  function ShowPinsLoadMore(ui: TasteTabUiState): (show: bool)
    ensures show <==> PinCount(ui.pins) > CollapsedRows
    ensures !show && CountCovers(ui) ==> |PinsOf(ui.pins)| <= CollapsedRows
  {
    PinCount(ui.pins) > CollapsedRows
  }

  /** A page whose list holds no more entries than its count says. */
  predicate CountCovers(ui: TasteTabUiState) {
    |FeedbackOf(ui.lovedSongs)| <= CountOf(ui.lovedSongs)
    && |FeedbackOf(ui.hatedSongs)| <= CountOf(ui.hatedSongs)
    && |PinsOf(ui.pins)| <= PinCount(ui.pins)
  }

  // ---------------------------------------------------------------------------
  // Properties of the view state
  // ---------------------------------------------------------------------------

  /** Initially the first (at most five) loved rows and pins are drawn, and no menu is open. */
  lemma InitialView(ui: TasteTabUiState)
    ensures VisibleFeedback(ui, InitialState) <= FeedbackOf(ui.lovedSongs)
    ensures |VisibleFeedback(ui, InitialState)|
        == if |FeedbackOf(ui.lovedSongs)| > CollapsedRows then CollapsedRows else |FeedbackOf(ui.lovedSongs)|
    ensures |VisiblePins(ui, InitialState)| == if |PinsOf(ui.pins)| > CollapsedRows then CollapsedRows else |PinsOf(ui.pins)|
    ensures forall i :: !MenuExpanded(InitialState, i)
  {
  }

  /** Without a load-more toggle nothing is hidden, as long as the counts cover the lists. */
  lemma NothingHiddenWithoutToggle(ui: TasteTabUiState, s: ViewState)
    requires CountCovers(ui)
    ensures !ShowFeedbackLoadMore(ui) ==> VisibleFeedback(ui, s) == FeedbackOf(SelectedPage(ui, s.lovedHated))
    ensures !ShowPinsLoadMore(ui) ==> VisiblePins(ui, s) == PinsOf(ui.pins)
  {
  }

  /** Each load-more toggle undoes itself. */
  lemma ToggleTwiceRestores(s: ViewState)
    ensures Apply(Apply(s, FeedbackLoadMoreClicked), FeedbackLoadMoreClicked) == s
    ensures Apply(Apply(s, PinsLoadMoreClicked), PinsLoadMoreClicked) == s
  {
  }

  /** Choosing loved or hated twice is the same as choosing it once. */
  lemma SelectionIdempotent(s: ViewState)
    ensures Apply(Apply(s, LovedClicked), LovedClicked) == Apply(s, LovedClicked)
    ensures Apply(Apply(s, HatedClicked), HatedClicked) == Apply(s, HatedClicked)
  {
  }

  /**
   * Opening a menu expands exactly that index; since feedback rows and pin
   * rows share the index space, it expands the feedback row and the pin row
   * at that index alike.
   */
  lemma AtMostOneIndexOpen(s: ViewState, index: int)
    ensures forall i, j :: MenuExpanded(s, i) && MenuExpanded(s, j) ==> i == j
    ensures forall j :: MenuExpanded(Apply(s, DropdownIconClicked(index)), j) <==> j == index
  {
  }

  lemma {:induction false} ApplyAllAppend(s: ViewState, events: seq<UiEvent>, e: UiEvent)
    ensures ApplyAll(s, events + [e]) == Apply(ApplyAll(s, events), e)
    decreases events
  {
    if events != [] {
      assert (events + [e])[1..] == events[1..] + [e];
      ApplyAllAppend(Apply(s, events[0]), events[1..], e);
    }
  }

  /** After any run of callbacks that ends in a menu action, no menu is open. */
  lemma {:induction false} MenuActionCloses(s: ViewState, events: seq<UiEvent>, e: UiEvent)
    requires IsMenuAction(e)
    ensures forall i :: !MenuExpanded(ApplyAll(s, events + [e]), i)
  {
    ApplyAllAppend(s, events, e);
  }

  /** The feedback list is collapsed after a run exactly when it started so and was toggled an even number of times. */
  lemma {:induction false} CollapseParity(s: ViewState, events: seq<UiEvent>)
    ensures ApplyAll(s, events).lovedHatedCollapsed
        == (s.lovedHatedCollapsed == (FeedbackLoadMoreClicks(events) % 2 == 0))
    decreases events
  {
    if events != [] {
      CollapseParity(Apply(s, events[0]), events[1..]);
    }
  }

  /** A menu that is open after a run, and was not open before it, was opened by a click on its icon. */
  lemma {:induction false} OpenMenuWasClicked(s: ViewState, events: seq<UiEvent>, index: int)
    requires !MenuExpanded(s, index)
    requires MenuExpanded(ApplyAll(s, events), index)
    ensures DropdownIconClicked(index) in events
    decreases events
  {
    if events != [] && events[0] != DropdownIconClicked(index) {
      OpenMenuWasClicked(Apply(s, events[0]), events[1..], index);
    }
  }

  /**
   * The screen asks to play a track only for a tapped row whose track
   * metadata is present: every new PlayListen effect of a run comes from such
   * a tap. Earlier effects are kept.
   */
  lemma {:induction false} PlaysComeFromRows(s: ViewState, events: seq<UiEvent>, track: TrackMetadata)
    ensures s.effects <= ApplyAll(s, events).effects
    ensures PlayListen(track) in ApplyAll(s, events).effects && PlayListen(track) !in s.effects ==>
      RowClicked(Some(track)) in events
    decreases events
  {
    if events != [] {
      var next := Apply(s, events[0]);
      PlaysComeFromRows(next, events[1..], track);
      if PlayListen(track) in next.effects && PlayListen(track) !in s.effects {
        assert next.effects == s.effects + [next.effects[|s.effects|]];
      }
    }
  }

  // ---------------------------------------------------------------------------
  // The screen's mutable state
  // ---------------------------------------------------------------------------

  /** The `MutableState` holders of both TasteScreen overloads and the record of outgoing calls. */
  class TasteScreenState {
    var lovedHated: LovedHated
    var lovedHatedCollapsed: bool
    var pinsCollapsed: bool
    var dropdownItemIndex: Option<int>
    var activeDialog: Option<ActiveDialog>
    var effects: seq<Effect>

    function State(): ViewState
      reads this
    {
      ViewState(lovedHated, lovedHatedCollapsed, pinsCollapsed, dropdownItemIndex, activeDialog, effects)
    }

    constructor ()
      ensures State() == InitialState
    {
      lovedHated := Loved;
      lovedHatedCollapsed := true;
      pinsCollapsed := true;
      dropdownItemIndex := None;
      activeDialog := None;
      effects := [];
    }

    /** Run the callback for `e`, overwriting the state holders it touches. */
    method Handle(e: UiEvent)
      modifies this
      ensures State() == Apply(old(State()), e)
    {
      match e {
        case LovedClicked =>
          lovedHated := Loved;
        case HatedClicked =>
          lovedHated := Hated;
        case FeedbackLoadMoreClicked =>
          lovedHatedCollapsed := !lovedHatedCollapsed;
        case PinsLoadMoreClicked =>
          pinsCollapsed := !pinsCollapsed;
        case DropdownIconClicked(index) =>
          dropdownItemIndex := Some(index);
        case MenuDismissed =>
          dropdownItemIndex := None;
        case RecommendClicked(m) =>
          effects := effects + [Recommend(m)];
          dropdownItemIndex := None;
        case PersonallyRecommendClicked(index) =>
          activeDialog := Some(ActiveDialog(PersonalRecommendationDialog, index));
          dropdownItemIndex := None;
        case ReviewClicked(index) =>
          activeDialog := Some(ActiveDialog(ReviewDialog, index));
          dropdownItemIndex := None;
        case PinClicked(index) =>
          activeDialog := Some(ActiveDialog(PinDialog, index));
          dropdownItemIndex := None;
        case OpenInMusicBrainzClicked(m) =>
          effects := effects + [OpenUri(RecordingUri(m))];
          dropdownItemIndex := None;
        case RowClicked(track) =>
          if track.Some? {
            effects := effects + [PlayListen(track.value)];
          }
        case PinSubmitted(m, blurb) =>
          effects := effects + [PinRecording(m, blurb)];
          dropdownItemIndex := None;
        case ReviewSubmitted(m, entityType, blurb, rating, locale) =>
          effects := effects + [ReviewRecording(m, entityType, blurb, rating, locale)];
        case PersonalRecommendationSubmitted(m, users, blurb) =>
          effects := effects + [RecommendToUsers(m, users, blurb)];
        case DialogDeactivated =>
          activeDialog := None;
      }
    }
  }
}
