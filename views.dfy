/**
 * The three views of the mini-app as objects whose fields are the React
 * state of the component, driven by one method per event: the effect that
 * runs after the first render, a response the host delivers to a
 * subscription, the timer firing, and the effect's cleanup on unmount. Each
 * class also has `Render`, the screen the current state draws.
 *
 * Calls made to the host bridge are recorded, in order, in a ghost log.
 */
module Views {
  import opened Wrappers
  import opened JsText
  import opened Previews
  import opened Context

  const RESPONSE_TIMEOUT_MS: nat := 3000

  const LEARN_CONTENT_READ := "learn.content.read"
  const LEARN_CONTENT_RESPONSE := "learn.content.response"
  const LEARN_PROGRESS_READ := "learn.progress.read"
  const LEARN_PROGRESS_RESPONSE := "learn.progress.response"
  const STUDIO_LESSON_READ := "studio.lesson.read"
  const STUDIO_LESSON_RESPONSE := "studio.lesson.response"

  const LEARN_REQUEST_FAILED := "Failed to load lesson content"
  const LEARN_TIMED_OUT := "Timeout waiting for lesson content. Responders may not be active."
  const LEARN_LOADING := "Loading lesson content..."
  const STUDIO_REQUEST_FAILED := "Failed to load lesson data"
  const STUDIO_TIMED_OUT := "Timeout waiting for lesson data. Responders may not be active."
  const STUDIO_LOADING := "Loading lesson draft..."
  const EDITOR_LOAD_FAILED := "Failed to load editor content"

  /** The payload of `learn.content.response`. */
  datatype LearnContent = LearnContent(
    lessonId: string, title: string, content: string, paneConfigs: Option<seq<PaneConfig>>)

  /** The payload of `learn.progress.response`; its free-form `data` record is never read. */
  datatype LearnProgress = LearnProgress(lessonId: string, completed: bool, completedAt: Option<string>)

  /** The payload of `studio.lesson.response`. */
  datatype StudioLesson = StudioLesson(
    lessonId: string, title: string, content: string, paneConfigs: Option<seq<PaneConfig>>, isDraft: bool)

  /** What a view draws: the values shown, without markup or styling. */
  datatype Screen =
    | LoadingScreen(notice: string)
    | ErrorScreen(message: string)
    | ProjectsScreen(characters: nat, lines: nat, preview: string, everUpdated: bool)
    | LearnScreen(title: string, completed: bool, completedAt: Option<string>,
                  contentPreview: Option<string>, panes: nat, enrollment: Option<string>)
    | StudioScreen(title: string, draft: bool, stats: Stats, panes: nat,
                   courseSlug: Option<string>, previewMode: bool)

  /** A call the view makes on the host bridge or the timer. */
  datatype BridgeCall =
    | Subscribe(topic: string)
    | Unsubscribe(topic: string)
    | Emit(topic: string, lessonId: Option<string>)
    | StartTimer(delayMs: nat)
    | ClearTimer

  /** How the two `emit` calls of the learn view's effect go. */
  datatype LearnEmitOutcome = BothSent | ContentReadThrows | ProgressReadThrows

  /**
   * The bridge calls of one run of the learn view's effect, in order. Both
   * responses are subscribed to before anything is emitted; an `emit` that
   * throws ends the `try` block, so a failing content request means the
   * progress request is never made; the timer is started either way.
   */
  function LearnEffectCalls(lessonId: Option<string>, outcome: LearnEmitOutcome): (calls: seq<BridgeCall>)
    ensures |calls| >= 4
    ensures calls[..2] == [Subscribe(LEARN_CONTENT_RESPONSE), Subscribe(LEARN_PROGRESS_RESPONSE)]
    ensures forall i, j :: 0 <= i < j < |calls| ==> !(calls[i].Emit? && calls[j].Subscribe?)
    ensures Emit(LEARN_CONTENT_READ, lessonId) in calls
    ensures Emit(LEARN_PROGRESS_READ, lessonId) in calls <==> outcome != ContentReadThrows
    ensures calls[|calls| - 1] == StartTimer(RESPONSE_TIMEOUT_MS)
  {
    [Subscribe(LEARN_CONTENT_RESPONSE), Subscribe(LEARN_PROGRESS_RESPONSE), Emit(LEARN_CONTENT_READ, lessonId)]
    + (if outcome == ContentReadThrows then [] else [Emit(LEARN_PROGRESS_READ, lessonId)])
    + [StartTimer(RESPONSE_TIMEOUT_MS)]
  }

  /**
   * The bridge calls of one run of the studio view's effect: the subscription,
   * the request (made even when it throws) and the timer.
   */
  function StudioEffectCalls(lessonId: Option<string>): (calls: seq<BridgeCall>)
    ensures |calls| == 3
    ensures calls[0] == Subscribe(STUDIO_LESSON_RESPONSE)
    ensures forall i, j :: 0 <= i < j < |calls| ==> !(calls[i].Emit? && calls[j].Subscribe?)
    ensures Emit(STUDIO_LESSON_READ, lessonId) in calls
    ensures calls[|calls| - 1] == StartTimer(RESPONSE_TIMEOUT_MS)
  {
    [Subscribe(STUDIO_LESSON_RESPONSE), Emit(STUDIO_LESSON_READ, lessonId), StartTimer(RESPONSE_TIMEOUT_MS)]
  }

  /** The bridge calls of the learn view's cleanup: both unsubscribes, then the timer is cleared. */
  const LEARN_CLEANUP_CALLS := [Unsubscribe(LEARN_CONTENT_RESPONSE), Unsubscribe(LEARN_PROGRESS_RESPONSE), ClearTimer]
  const STUDIO_CLEANUP_CALLS := [Unsubscribe(STUDIO_LESSON_RESPONSE), ClearTimer]

  // ---------------------------------------------------------------------------
  // LearnView
  // ---------------------------------------------------------------------------

  class LearnView {
    // React state
    var loading: bool
    var error: Option<string>
    var lessonContent: Option<LearnContent>
    var progress: Option<LearnProgress>
    // the effect in force: its two handlers and its timer
    var subscribed: bool
    var timerPending: bool
    /** The `loading` of the render in which the effect ran, as the timer's closure sees it. */
    var loadingSeenByTimer: bool
    ghost var bridgeLog: seq<BridgeCall>

    ghost predicate Valid()
      reads this
    {
      && (timerPending ==> subscribed)
      && (loading ==> error.None? && lessonContent.None?)
      && (error.Some? ==> error.value == LEARN_REQUEST_FAILED || error.value == LEARN_TIMED_OUT)
    }

    /** The state of the first render: loading, no error, nothing received, no effect yet. */
    constructor ()
      ensures Valid()
      ensures loading && error.None? && lessonContent.None? && progress.None?
      ensures !subscribed && !timerPending && bridgeLog == []
    {
      loading, error, lessonContent, progress := true, None, None, None;
      subscribed, timerPending, loadingSeenByTimer := false, false, true;
      bridgeLog := [];
    }

    /**
     * The effect: subscribe to both responses, request content and progress,
     * then start the timer. A throwing request sets the error and ends loading
     * at once. The timer's closure keeps the `loading` this effect started with.
     */
    method RunEffect(lessonId: Option<string>, outcome: LearnEmitOutcome)
      requires Valid() && !subscribed
      modifies this
      ensures Valid() && subscribed && timerPending
      ensures loadingSeenByTimer == old(loading)
      ensures outcome == BothSent ==> loading == old(loading) && error == old(error)
      ensures outcome != BothSent ==> !loading && error == Some(LEARN_REQUEST_FAILED)
      ensures lessonContent == old(lessonContent) && progress == old(progress)
      ensures bridgeLog == old(bridgeLog) + LearnEffectCalls(lessonId, outcome)
    {
      var seen := loading;
      subscribed := true;
      if outcome != BothSent {
        error := Some(LEARN_REQUEST_FAILED);
        loading := false;
      }
      timerPending, loadingSeenByTimer := true, seen;
      bridgeLog := bridgeLog + LearnEffectCalls(lessonId, outcome);
    }

    /** `learn.content.response` arrives: while subscribed, the payload is stored as is and loading ends. */
    method ContentResponse(payload: LearnContent)
      requires Valid()
      modifies this
      ensures Valid()
      ensures old(subscribed) ==> lessonContent == Some(payload) && !loading
      ensures !old(subscribed) ==> lessonContent == old(lessonContent) && loading == old(loading)
      ensures error == old(error) && progress == old(progress)
      ensures subscribed == old(subscribed) && timerPending == old(timerPending)
      ensures loadingSeenByTimer == old(loadingSeenByTimer) && bridgeLog == old(bridgeLog)
    {
      if subscribed {
        lessonContent := Some(payload);
        loading := false;
      }
    }

    /** `learn.progress.response` arrives: while subscribed, the progress is stored; loading is untouched. */
    method ProgressResponse(payload: LearnProgress)
      requires Valid()
      modifies this
      ensures Valid()
      ensures progress == if old(subscribed) then Some(payload) else old(progress)
      ensures loading == old(loading) && error == old(error) && lessonContent == old(lessonContent)
      ensures subscribed == old(subscribed) && timerPending == old(timerPending)
      ensures loadingSeenByTimer == old(loadingSeenByTimer) && bridgeLog == old(bridgeLog)
    {
      if subscribed {
        progress := Some(payload);
      }
    }

    /**
     * The 3000 ms timer fires. It tests the `loading` its closure captured, not
     * the current one, so when the effect started while loading it sets the
     * timeout error even after the content has arrived. A cleared timer never fires.
     */
    method TimeoutFires()
      requires Valid()
      modifies this
      ensures Valid() && !timerPending
      ensures old(timerPending) ==> subscribed
      ensures old(timerPending) && old(loadingSeenByTimer) ==> !loading && error == Some(LEARN_TIMED_OUT)
      ensures !(old(timerPending) && old(loadingSeenByTimer)) ==> loading == old(loading) && error == old(error)
      ensures lessonContent == old(lessonContent) && progress == old(progress)
      ensures subscribed == old(subscribed) && loadingSeenByTimer == old(loadingSeenByTimer)
      ensures bridgeLog == old(bridgeLog)
    {
      if timerPending {
        timerPending := false;
        if loadingSeenByTimer {
          error := Some(LEARN_TIMED_OUT);
          loading := false;
        }
      }
    }

    /** The effect's cleanup: both handlers are unsubscribed and the timer is cleared. */
    method Cleanup()
      requires Valid() && subscribed
      modifies this
      ensures Valid() && !subscribed && !timerPending
      ensures loading == old(loading) && error == old(error)
      ensures lessonContent == old(lessonContent) && progress == old(progress)
      ensures loadingSeenByTimer == old(loadingSeenByTimer)
      ensures bridgeLog == old(bridgeLog) + LEARN_CLEANUP_CALLS
    {
      subscribed, timerPending := false, false;
      bridgeLog := bridgeLog + LEARN_CLEANUP_CALLS;
    }

    /** The screen: the loading notice while loading, even if an error is set; then the error; then the lesson. */
    function Render(context: RuntimeContext): (r: Screen)
      reads this
      ensures loading ==> r == LoadingScreen(LEARN_LOADING)
      ensures !loading && Truthy(error) ==> r == ErrorScreen(error.value)
      ensures !loading && !Truthy(error) ==> r.LearnScreen?
      ensures r.LearnScreen? ==>
                && (lessonContent.Some? ==> r.title == DisplayTitle(Some(lessonContent.value.title), context.lessonSlug))
                && (lessonContent.None? ==> r.title == DisplayTitle(None, context.lessonSlug))
                && (lessonContent.Some? <==> r.contentPreview.Some?)
                && (lessonContent.Some? ==> r.contentPreview.value == ContentPreview(lessonContent.value.content, LESSON_PREVIEW_LENGTH))
                && r.completed == (progress.Some? && progress.value.completed)
                && (r.completedAt.Some? <==> progress.Some? && Truthy(progress.value.completedAt))
                && (r.completedAt.Some? ==> r.completedAt == progress.value.completedAt)
                && r.panes == PaneCount(if lessonContent.Some? then lessonContent.value.paneConfigs else None)
                && r.enrollment == EnrollmentDisplay(context.enrollmentId)
    {
      if loading then LoadingScreen(LEARN_LOADING)
      else if Truthy(error) then ErrorScreen(error.value)
      else
        var title := if lessonContent.Some? then Some(lessonContent.value.title) else None;
        var panes := if lessonContent.Some? then lessonContent.value.paneConfigs else None;
        LearnScreen(
          DisplayTitle(title, context.lessonSlug),
          progress.Some? && progress.value.completed,
          if progress.Some? && Truthy(progress.value.completedAt) then progress.value.completedAt else None,
          if lessonContent.Some? then Some(ContentPreview(lessonContent.value.content, LESSON_PREVIEW_LENGTH)) else None,
          PaneCount(panes),
          EnrollmentDisplay(context.enrollmentId))
    }

    /**
     * In every reachable state the loading notice hides no error and no content response, and
     * an error on screen is one of the view's two messages.
     */
    lemma ScreenInvariant(context: RuntimeContext)
      requires Valid()
      ensures Render(context).LoadingScreen? ==> error.None? && lessonContent.None?
      ensures Render(context).ErrorScreen? ==>
                Render(context).message == LEARN_REQUEST_FAILED || Render(context).message == LEARN_TIMED_OUT
    {
    }
  }

  // ---------------------------------------------------------------------------
  // StudioView
  // ---------------------------------------------------------------------------

  class StudioView {
    var loading: bool
    var error: Option<string>
    var lessonData: Option<StudioLesson>
    var subscribed: bool
    var timerPending: bool
    /** The `loading` of the render in which the effect ran, as the timer's closure sees it. */
    var loadingSeenByTimer: bool
    ghost var bridgeLog: seq<BridgeCall>

    ghost predicate Valid()
      reads this
    {
      && (timerPending ==> subscribed)
      && (loading ==> error.None? && lessonData.None?)
      && (error.Some? ==> error.value == STUDIO_REQUEST_FAILED || error.value == STUDIO_TIMED_OUT)
    }

    constructor ()
      ensures Valid()
      ensures loading && error.None? && lessonData.None?
      ensures !subscribed && !timerPending && bridgeLog == []
    {
      loading, error, lessonData := true, None, None;
      subscribed, timerPending, loadingSeenByTimer := false, false, true;
      bridgeLog := [];
    }

    /** The effect: subscribe, request the lesson, start the timer; a throwing request fails at once. */
    method RunEffect(lessonId: Option<string>, emitThrows: bool)
      requires Valid() && !subscribed
      modifies this
      ensures Valid() && subscribed && timerPending
      ensures loadingSeenByTimer == old(loading)
      ensures !emitThrows ==> loading == old(loading) && error == old(error)
      ensures emitThrows ==> !loading && error == Some(STUDIO_REQUEST_FAILED)
      ensures lessonData == old(lessonData)
      ensures bridgeLog == old(bridgeLog) + StudioEffectCalls(lessonId)
    {
      var seen := loading;
      subscribed := true;
      if emitThrows {
        error := Some(STUDIO_REQUEST_FAILED);
        loading := false;
      }
      timerPending, loadingSeenByTimer := true, seen;
      bridgeLog := bridgeLog + StudioEffectCalls(lessonId);
    }

    /** `studio.lesson.response` arrives: while subscribed, the payload is stored as is and loading ends. */
    method LessonResponse(payload: StudioLesson)
      requires Valid()
      modifies this
      ensures Valid()
      ensures old(subscribed) ==> lessonData == Some(payload) && !loading
      ensures !old(subscribed) ==> lessonData == old(lessonData) && loading == old(loading)
      ensures error == old(error)
      ensures subscribed == old(subscribed) && timerPending == old(timerPending)
      ensures loadingSeenByTimer == old(loadingSeenByTimer) && bridgeLog == old(bridgeLog)
    {
      if subscribed {
        lessonData := Some(payload);
        loading := false;
      }
    }

    /** The timer fires and tests the captured `loading`, as in the learn view. */
    method TimeoutFires()
      requires Valid()
      modifies this
      ensures Valid() && !timerPending
      ensures old(timerPending) ==> subscribed
      ensures old(timerPending) && old(loadingSeenByTimer) ==> !loading && error == Some(STUDIO_TIMED_OUT)
      ensures !(old(timerPending) && old(loadingSeenByTimer)) ==> loading == old(loading) && error == old(error)
      ensures lessonData == old(lessonData)
      ensures subscribed == old(subscribed) && loadingSeenByTimer == old(loadingSeenByTimer)
      ensures bridgeLog == old(bridgeLog)
    {
      if timerPending {
        timerPending := false;
        if loadingSeenByTimer {
          error := Some(STUDIO_TIMED_OUT);
          loading := false;
        }
      }
    }

    method Cleanup()
      requires Valid() && subscribed
      modifies this
      ensures Valid() && !subscribed && !timerPending
      ensures loading == old(loading) && error == old(error) && lessonData == old(lessonData)
      ensures loadingSeenByTimer == old(loadingSeenByTimer)
      ensures bridgeLog == old(bridgeLog) + STUDIO_CLEANUP_CALLS
    {
      subscribed, timerPending := false, false;
      bridgeLog := bridgeLog + STUDIO_CLEANUP_CALLS;
    }

    /** Loading first, then the error, then the draft; missing lesson data counts as empty content. */
    function Render(context: RuntimeContext): (r: Screen)
      reads this
      ensures loading ==> r == LoadingScreen(STUDIO_LOADING)
      ensures !loading && Truthy(error) ==> r == ErrorScreen(error.value)
      ensures !loading && !Truthy(error) ==> r.StudioScreen?
      ensures r.StudioScreen? && lessonData.None? ==> r.stats == Stats(0, 0) && r.panes == 0 && !r.draft
      ensures r.StudioScreen? && lessonData.Some? ==>
                && r.stats.chars == |lessonData.value.content|
                && r.stats.words == RunCount(lessonData.value.content)
                && r.draft == lessonData.value.isDraft
                && r.title == DisplayTitle(Some(lessonData.value.title), context.lessonSlug)
                && r.panes == PaneCount(lessonData.value.paneConfigs)
      ensures r.StudioScreen? && lessonData.None? ==> r.title == DisplayTitle(None, context.lessonSlug)
      ensures r.StudioScreen? ==>
                && r.courseSlug == (if Truthy(context.courseSlug) then context.courseSlug else None)
                && r.previewMode == (context.isPreview == Some(true))
    {
      if loading then LoadingScreen(STUDIO_LOADING)
      else if Truthy(error) then ErrorScreen(error.value)
      else
        var title := if lessonData.Some? then Some(lessonData.value.title) else None;
        var content := if lessonData.Some? then lessonData.value.content else "";
        var panes := if lessonData.Some? then lessonData.value.paneConfigs else None;
        StudioScreen(
          DisplayTitle(title, context.lessonSlug),
          lessonData.Some? && lessonData.value.isDraft,
          ContentStats(content),
          PaneCount(panes),
          if Truthy(context.courseSlug) then context.courseSlug else None,
          context.isPreview == Some(true))
    }

    /**
     * In every reachable state the loading notice hides nothing received, and
     * an error on screen is one of the view's two messages.
     */
    lemma ScreenInvariant(context: RuntimeContext)
      requires Valid()
      ensures Render(context).LoadingScreen? ==> error.None? && lessonData.None?
      ensures Render(context).ErrorScreen? ==>
                Render(context).message == STUDIO_REQUEST_FAILED || Render(context).message == STUDIO_TIMED_OUT
    {
    }
  }

  // ---------------------------------------------------------------------------
  // ProjectsView
  // ---------------------------------------------------------------------------

  /**
   * The projects view: the editor text, whether it was ever received, and an
   * error. The initial fetch and the change subscription are events here.
   */
  class ProjectsView {
    var content: string
    var everUpdated: bool
    var error: Option<string>
    var mounted: bool

    ghost predicate Valid()
      reads this
    {
      error.Some? ==> error.value == EDITOR_LOAD_FAILED
    }

    constructor ()
      ensures Valid()
      ensures content == "" && !everUpdated && error.None? && !mounted
    {
      content, everUpdated, error, mounted := "", false, None, false;
    }

    /** The effect: the initial fetch is started and the change handler registered. */
    method Mount()
      requires Valid() && !mounted
      modifies this
      ensures Valid() && mounted
      ensures content == old(content) && everUpdated == old(everUpdated) && error == old(error)
    {
      mounted := true;
    }

    /** The initial fetch resolves, or the editor reports a change: the text replaces the shown one. */
    method ContentReceived(text: string)
      requires Valid()
      modifies this
      ensures Valid()
      ensures old(mounted) ==> content == text && everUpdated
      ensures !old(mounted) ==> content == old(content) && everUpdated == old(everUpdated)
      ensures error == old(error) && mounted == old(mounted)
    {
      if mounted {
        content, everUpdated := text, true;
      }
    }

    /** The initial fetch rejects. */
    method InitialFetchFailed()
      requires Valid()
      modifies this
      ensures Valid()
      ensures error == if old(mounted) then Some(EDITOR_LOAD_FAILED) else old(error)
      ensures content == old(content) && everUpdated == old(everUpdated) && mounted == old(mounted)
    {
      if mounted {
        error := Some(EDITOR_LOAD_FAILED);
      }
    }

    /** The cleanup unsubscribes the change handler. */
    method Unmount()
      requires Valid() && mounted
      modifies this
      ensures Valid() && !mounted
      ensures content == old(content) && everUpdated == old(everUpdated) && error == old(error)
    {
      mounted := false;
    }

    /** The error if there is one, else the statistics and preview of the editor text. */
    function Render(): (r: Screen)
      reads this
      ensures Truthy(error) ==> r == ErrorScreen(error.value)
      ensures !Truthy(error) ==> r.ProjectsScreen?
      ensures r.ProjectsScreen? ==>
                && r.characters == |content|
                && r.lines == (if content == "" then 0 else CountChar(content, '\n') + 1)
                && r.preview == GetPreview(content, EDITOR_PREVIEW_LENGTH)
                && r.everUpdated == everUpdated
    {
      if Truthy(error) then ErrorScreen(error.value)
      else ProjectsScreen(|content|, LineCount(content), GetPreview(content, EDITOR_PREVIEW_LENGTH), everUpdated)
    }

    /** In every reachable state an error on screen is the failed-fetch message. */
    lemma ScreenInvariant()
      requires Valid()
      ensures Render().ErrorScreen? ==> Render().message == EDITOR_LOAD_FAILED
    {
    }
  }
}
