/**
 * The screen's state and its transitions: each user action or service outcome maps one
 * `KwsUiState` to the next. Detections are kept newest first, at most 20 of them.
 */
module ViewModel {
  import opened Wrappers

  /** A Kotlin `Int`. */
  newtype int32 = x: int | -0x8000_0000 <= x < 0x8000_0000

  const MaxInt32: int32 := 0x7FFF_FFFF
  const MinInt32: int32 := -0x8000_0000

  /** `x + 1` on a Kotlin `Int`, which wraps from the largest value to the smallest. */
  function Inc32(x: int32): (r: int32)
    ensures x < MaxInt32 ==> r as int == x as int + 1
    ensures x == MaxInt32 ==> r == MinInt32
  {
    if x == MaxInt32 then MinInt32 else x + 1
  }

  /** How many detections the history keeps. */
  const HistoryLimit: nat := 20

  const DefaultKeyword: string := "x iǎo ān x iǎo ān"
  const DefaultThreshold: real := 0.25
  const NotInitializedMessage: string := "服务未初始化"
  const InitializeFailedPrefix: string := "初始化失败: "
  const ThresholdFailedPrefix: string := "设置阈值失败: "

  /** A detection: the keyword and the wall-clock time, in milliseconds, when it was reported. */
  datatype DetectionRecord = DetectionRecord(keyword: string, timestamp: int)

  datatype KwsUiState = KwsUiState(
    isInitialized: bool,
    isInitializing: bool,
    isListening: bool,
    currentKeyword: string,
    threshold: real,
    lastDetectedKeyword: Option<string>,
    detectionCount: int32,
    detectionHistory: seq<DetectionRecord>,
    errorMessage: Option<string>,
    showWakeupDialog: bool,
    aecEnabled: bool,
    nsEnabled: bool)

  function DefaultUiState(): KwsUiState
  {
    KwsUiState(false, false, false, DefaultKeyword, DefaultThreshold, None, 0, [], None, false, true, true)
  }

  /** What holds of every reachable state: the history is capped and never longer than the count. */
  predicate HistoryInvariant(s: KwsUiState)
  {
    0 <= s.detectionCount as int && |s.detectionHistory| <= HistoryLimit && |s.detectionHistory| <= s.detectionCount as int
  }

  /**
   * initializeService: on success the state is initialised and shows the service's AEC/NS
   * switches; on failure it shows the error. Either way initialisation is over and an
   * earlier error is replaced.
   */
  function Initialized(s: KwsUiState, outcome: Outcome, aecEnabled: bool, nsEnabled: bool): (r: KwsUiState)
    ensures !r.isInitializing
    ensures outcome.Done? ==> r.isInitialized && r.errorMessage == None && r.aecEnabled == aecEnabled && r.nsEnabled == nsEnabled
    ensures outcome.Done? ==> r.(isInitialized := s.isInitialized, isInitializing := s.isInitializing, errorMessage := s.errorMessage,
                                 aecEnabled := s.aecEnabled, nsEnabled := s.nsEnabled) == s
    ensures outcome.Threw? ==> r.errorMessage == Some(InitializeFailedPrefix + outcome.message)
    ensures outcome.Threw? ==> r.(isInitializing := s.isInitializing, errorMessage := s.errorMessage) == s
  {
    var started := s.(isInitializing := true, errorMessage := None);
    match outcome
    case Done => started.(isInitialized := true, isInitializing := false, aecEnabled := aecEnabled, nsEnabled := nsEnabled)
    case Threw(m) => started.(isInitializing := false, errorMessage := Some(InitializeFailedPrefix + m))
  }

  /** startListening: before initialisation only the error is set; afterwards listening is shown and the error cleared. */
  function ListeningStarted(s: KwsUiState): (r: KwsUiState)
    ensures !s.isInitialized ==> r.errorMessage == Some(NotInitializedMessage) && r.(errorMessage := s.errorMessage) == s
    ensures s.isInitialized ==> r.isListening && r.errorMessage == None
    ensures s.isInitialized ==> r.(isListening := s.isListening, errorMessage := s.errorMessage) == s
  {
    if !s.isInitialized then s.(errorMessage := Some(NotInitializedMessage))
    else s.(isListening := true, errorMessage := None)
  }

  /** stopListening: only the listening flag changes. */
  function ListeningStopped(s: KwsUiState): (r: KwsUiState)
    ensures !r.isListening && r.(isListening := s.isListening) == s
  {
    s.(isListening := false)
  }

  /**
   * onKeywordDetected: the new record goes first, the oldest is dropped when more than 20
   * remain, the count goes up by one (as a Kotlin `Int`), and the keyword and dialog show.
   */
  function KeywordDetected(s: KwsUiState, keyword: string, timestamp: int): (r: KwsUiState)
    ensures r.detectionCount == Inc32(s.detectionCount)
    ensures r.lastDetectedKeyword == Some(keyword) && r.showWakeupDialog
    ensures r.detectionHistory != [] && r.detectionHistory[0] == DetectionRecord(keyword, timestamp)
    ensures r.detectionHistory[1..] <= s.detectionHistory
    ensures |r.detectionHistory| == if |s.detectionHistory| + 1 > HistoryLimit then |s.detectionHistory| else |s.detectionHistory| + 1
    ensures r.(detectionCount := s.detectionCount, lastDetectedKeyword := s.lastDetectedKeyword,
               detectionHistory := s.detectionHistory, showWakeupDialog := s.showWakeupDialog) == s
  {
    var history := [DetectionRecord(keyword, timestamp)] + s.detectionHistory;
    var kept := if |history| > HistoryLimit then history[..|history| - 1] else history;
    s.(lastDetectedKeyword := Some(keyword), detectionCount := Inc32(s.detectionCount),
       detectionHistory := kept, showWakeupDialog := true)
  }

  /** On a reachable state the history after a detection is the newest 20 of all detections, newest first. */
  lemma KeywordDetectedKeepsNewest(s: KwsUiState, keyword: string, timestamp: int)
    requires HistoryInvariant(s)
    ensures var all := [DetectionRecord(keyword, timestamp)] + s.detectionHistory;
      KeywordDetected(s, keyword, timestamp).detectionHistory == all[..if |all| <= HistoryLimit then |all| else HistoryLimit]
  {
    var all := [DetectionRecord(keyword, timestamp)] + s.detectionHistory;
    if |all| > HistoryLimit {
      assert |all| == HistoryLimit + 1;
    }
  }

  /** clearError: only the error message changes. */
  function ErrorCleared(s: KwsUiState): (r: KwsUiState)
    ensures r.errorMessage == None && r.(errorMessage := s.errorMessage) == s
  {
    s.(errorMessage := None)
  }

  /** clearHistory: the history and count return to empty and zero and the last keyword is cleared; nothing else changes. */
  function HistoryCleared(s: KwsUiState): (r: KwsUiState)
    ensures r.detectionHistory == [] && r.detectionCount == 0 && r.lastDetectedKeyword == None
    ensures r.(detectionHistory := s.detectionHistory, detectionCount := s.detectionCount, lastDetectedKeyword := s.lastDetectedKeyword) == s
  {
    s.(detectionHistory := [], detectionCount := 0, lastDetectedKeyword := None)
  }

  /** setKeywords: the service never lets an exception out, so the keyword is always shown and the error cleared. */
  function KeywordsSet(s: KwsUiState, keywords: string): (r: KwsUiState)
    ensures r.currentKeyword == keywords && r.errorMessage == None
    ensures r.(currentKeyword := s.currentKeyword, errorMessage := s.errorMessage) == s
  {
    s.(currentKeyword := keywords, errorMessage := None)
  }

  /**
   * setThreshold: on success the new threshold shows; on failure the old one stays and the
   * error shows. Either way the reinitialisation is over.
   */
  function ThresholdSet(s: KwsUiState, threshold: real, outcome: Outcome): (r: KwsUiState)
    ensures !r.isInitializing
    ensures outcome.Done? ==> r.threshold == threshold && r.errorMessage == None
    ensures outcome.Threw? ==> r.threshold == s.threshold && r.errorMessage == Some(ThresholdFailedPrefix + outcome.message)
    ensures r.(threshold := s.threshold, isInitializing := s.isInitializing, errorMessage := s.errorMessage) == s
  {
    var started := s.(isInitializing := true, errorMessage := None);
    match outcome
    case Done => started.(threshold := threshold, isInitializing := false)
    case Threw(m) => started.(isInitializing := false, errorMessage := Some(ThresholdFailedPrefix + m))
  }

  /** dismissWakeupDialog: only the dialog flag changes. */
  function WakeupDialogDismissed(s: KwsUiState): (r: KwsUiState)
    ensures !r.showWakeupDialog && r.(showWakeupDialog := s.showWakeupDialog) == s
  {
    s.(showWakeupDialog := false)
  }

  /** setAecEnabled: only the AEC switch changes. */
  function AecSet(s: KwsUiState, enabled: bool): (r: KwsUiState)
    ensures r.aecEnabled == enabled && r.(aecEnabled := s.aecEnabled) == s
  {
    s.(aecEnabled := enabled)
  }

  /** setNsEnabled: only the NS switch changes. */
  function NsSet(s: KwsUiState, enabled: bool): (r: KwsUiState)
    ensures r.nsEnabled == enabled && r.(nsEnabled := s.nsEnabled) == s
  {
    s.(nsEnabled := enabled)
  }

  /** Everything that can happen to the screen state. */
  datatype UiEvent =
    | InitializeService(outcome: Outcome, aecEnabled: bool, nsEnabled: bool)
    | StartListening
    | StopListening
    | Detection(keyword: string, timestamp: int)
    | ClearError
    | ClearHistory
    | SetKeywords(keywords: string)
    | SetThreshold(threshold: real, outcome: Outcome)
    | DismissWakeupDialog
    | SetAecEnabled(enabled: bool)
    | SetNsEnabled(enabled: bool)

  function Apply(s: KwsUiState, e: UiEvent): KwsUiState
  {
    match e
    case InitializeService(o, aec, ns) => Initialized(s, o, aec, ns)
    case StartListening => ListeningStarted(s)
    case StopListening => ListeningStopped(s)
    case Detection(k, t) => KeywordDetected(s, k, t)
    case ClearError => ErrorCleared(s)
    case ClearHistory => HistoryCleared(s)
    case SetKeywords(k) => KeywordsSet(s, k)
    case SetThreshold(th, o) => ThresholdSet(s, th, o)
    case DismissWakeupDialog => WakeupDialogDismissed(s)
    case SetAecEnabled(b) => AecSet(s, b)
    case SetNsEnabled(b) => NsSet(s, b)
  }

  /** The state after the events, in order. */
  function Run(s: KwsUiState, events: seq<UiEvent>): KwsUiState
    decreases |events|
  {
    if events == [] then s else Run(Apply(s, events[0]), events[1..])
  }

  /** One event keeps the invariant and raises the count by at most one, unless the count would wrap. */
  lemma ApplyKeepsInvariant(s: KwsUiState, e: UiEvent)
    requires HistoryInvariant(s) && s.detectionCount < MaxInt32
    ensures HistoryInvariant(Apply(s, e))
    ensures Apply(s, e).detectionCount as int <= s.detectionCount as int + 1
  {
  }

  /**
   * Starting from any state that satisfies the invariant (the defaults do), the history
   * stays at most 20 long and never longer than the count, as long as fewer events occur
   * than it takes the count to wrap.
   */
  lemma {:induction false} RunKeepsInvariant(s: KwsUiState, events: seq<UiEvent>)
    requires HistoryInvariant(s) && s.detectionCount as int + |events| <= MaxInt32 as int
    ensures HistoryInvariant(Run(s, events))
    ensures Run(s, events).detectionCount as int <= s.detectionCount as int + |events|
    decreases |events|
  {
    if events != [] {
      ApplyKeepsInvariant(s, events[0]);
      RunKeepsInvariant(Apply(s, events[0]), events[1..]);
    }
  }

  /** The invariant in every state reachable from the defaults by fewer than 2^31 events. */
  lemma ReachableStatesKeepInvariant(events: seq<UiEvent>)
    requires |events| <= MaxInt32 as int
    ensures HistoryInvariant(Run(DefaultUiState(), events))
  {
    RunKeepsInvariant(DefaultUiState(), events);
  }

  /**
   * The view-model: its only state is the current screen state, which every action
   * overwrites. The two coroutine actions write it twice, first to show that the service
   * is busy and then with the outcome.
   */
  class KwsViewModel {
    var uiState: KwsUiState

    constructor ()
      ensures uiState == DefaultUiState()
    {
      uiState := DefaultUiState();
    }

    method InitializeService(outcome: Outcome, aecEnabled: bool, nsEnabled: bool)
      modifies this
      ensures uiState == Initialized(old(uiState), outcome, aecEnabled, nsEnabled)
    {
      uiState := uiState.(isInitializing := true, errorMessage := None);
      match outcome
      case Done =>
        uiState := uiState.(isInitialized := true, isInitializing := false, aecEnabled := aecEnabled, nsEnabled := nsEnabled);
      case Threw(m) =>
        uiState := uiState.(isInitializing := false, errorMessage := Some(InitializeFailedPrefix + m));
    }

    method StartListening()
      modifies this
      ensures uiState == ListeningStarted(old(uiState))
    {
      uiState := ListeningStarted(uiState);
    }

    method StopListening()
      modifies this
      ensures uiState == ListeningStopped(old(uiState))
    {
      uiState := ListeningStopped(uiState);
    }

    /** onKeywordDetected, editing a copy of the history as a list: insert at 0, then drop the last past 20. */
    method OnKeywordDetected(keyword: string, timestamp: int)
      modifies this
      ensures uiState == KeywordDetected(old(uiState), keyword, timestamp)
    {
      var history := uiState.detectionHistory;
      history := [DetectionRecord(keyword, timestamp)] + history;
      if |history| > HistoryLimit {
        history := history[..|history| - 1];
      }
      uiState := uiState.(lastDetectedKeyword := Some(keyword), detectionCount := Inc32(uiState.detectionCount),
                          detectionHistory := history, showWakeupDialog := true);
    }

    method ClearError()
      modifies this
      ensures uiState == ErrorCleared(old(uiState))
    {
      uiState := ErrorCleared(uiState);
    }

    method ClearHistory()
      modifies this
      ensures uiState == HistoryCleared(old(uiState))
    {
      uiState := HistoryCleared(uiState);
    }

    method SetKeywords(keywords: string)
      modifies this
      ensures uiState == KeywordsSet(old(uiState), keywords)
    {
      uiState := KeywordsSet(uiState, keywords);
    }

    method SetThreshold(threshold: real, outcome: Outcome)
      modifies this
      ensures uiState == ThresholdSet(old(uiState), threshold, outcome)
    {
      uiState := uiState.(isInitializing := true, errorMessage := None);
      match outcome
      case Done =>
        uiState := uiState.(threshold := threshold, isInitializing := false);
      case Threw(m) =>
        uiState := uiState.(isInitializing := false, errorMessage := Some(ThresholdFailedPrefix + m));
    }

    method DismissWakeupDialog()
      modifies this
      ensures uiState == WakeupDialogDismissed(old(uiState))
    {
      uiState := WakeupDialogDismissed(uiState);
    }

    method SetAecEnabled(enabled: bool)
      modifies this
      ensures uiState == AecSet(old(uiState), enabled)
    {
      uiState := AecSet(uiState, enabled);
    }

    method SetNsEnabled(enabled: bool)
      modifies this
      ensures uiState == NsSet(old(uiState), enabled)
    {
      uiState := NsSet(uiState, enabled);
    }
  }
}
