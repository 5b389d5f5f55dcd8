/**
 * Timelines of events for the views, each from a freshly mounted component,
 * with the screen the user ends up seeing. They follow from the contracts of
 * the event methods alone.
 */
module Scenarios {
  import opened Wrappers
  import opened Previews
  import opened Context
  import opened Views

  /** The content response arrives and the view unmounts before the timer: the lesson is shown from the payload as received. */
  method LearnLoadsContent(context: RuntimeContext, payload: LearnContent) returns (stored: Option<LearnContent>, screen: Screen)
    ensures stored == Some(payload)
    ensures screen.LearnScreen?
    ensures screen.contentPreview == Some(ContentPreview(payload.content, LESSON_PREVIEW_LENGTH))
    ensures screen.title == DisplayTitle(Some(payload.title), context.lessonSlug)
  {
    var view := new LearnView();
    view.RunEffect(context.lessonId, BothSent);
    view.ContentResponse(payload);
    view.Cleanup();
    stored := view.lessonContent;
    screen := view.Render(context);
  }

  /**
   * The timer's closure saw `loading` as true, so when it fires after the
   * content arrived, the lesson on screen is replaced by the timeout error.
   */
  method LearnTimeoutOverridesContent(context: RuntimeContext, payload: LearnContent) returns (before: Screen, after: Screen)
    ensures before.LearnScreen?
    ensures after == ErrorScreen(LEARN_TIMED_OUT)
  {
    var view := new LearnView();
    view.RunEffect(context.lessonId, BothSent);
    view.ContentResponse(payload);
    before := view.Render(context);
    view.TimeoutFires();
    after := view.Render(context);
  }

  /** A request that throws shows the request error straight away, without waiting for the timer. */
  method LearnRequestFailureIsImmediate(context: RuntimeContext, outcome: LearnEmitOutcome) returns (screen: Screen)
    requires outcome != BothSent
    ensures screen == ErrorScreen(LEARN_REQUEST_FAILED)
  {
    var view := new LearnView();
    view.RunEffect(context.lessonId, outcome);
    screen := view.Render(context);
  }

  /** The timer still fires after a failed request, and its message replaces the request error. */
  method LearnRequestFailureThenTimeout(context: RuntimeContext, outcome: LearnEmitOutcome) returns (screen: Screen)
    requires outcome != BothSent
    ensures screen == ErrorScreen(LEARN_TIMED_OUT)
  {
    var view := new LearnView();
    view.RunEffect(context.lessonId, outcome);
    view.TimeoutFires();
    screen := view.Render(context);
  }

  /** A response after the timeout is still stored, but the error stays on screen. */
  method LearnLateResponse(context: RuntimeContext, payload: LearnContent) returns (stored: Option<LearnContent>, screen: Screen)
    ensures stored == Some(payload)
    ensures screen == ErrorScreen(LEARN_TIMED_OUT)
  {
    var view := new LearnView();
    view.RunEffect(context.lessonId, BothSent);
    view.TimeoutFires();
    view.ContentResponse(payload);
    stored := view.lessonContent;
    screen := view.Render(context);
  }

  /** The progress response alone does not end loading. */
  method LearnProgressOnly(context: RuntimeContext, progress: LearnProgress) returns (screen: Screen)
    ensures screen == LoadingScreen(LEARN_LOADING)
  {
    var view := new LearnView();
    view.RunEffect(context.lessonId, BothSent);
    view.ProgressResponse(progress);
    screen := view.Render(context);
  }

  /** After cleanup, responses and the cleared timer change nothing. */
  method LearnEventsAfterCleanup(context: RuntimeContext, payload: LearnContent, progress: LearnProgress)
    returns (stored: Option<LearnContent>, screen: Screen)
    ensures stored.None?
    ensures screen == LoadingScreen(LEARN_LOADING)
  {
    var view := new LearnView();
    view.RunEffect(context.lessonId, BothSent);
    view.Cleanup();
    view.ContentResponse(payload);
    view.ProgressResponse(progress);
    view.TimeoutFires();
    stored := view.lessonContent;
    screen := view.Render(context);
  }

  /**
   * When the lesson changes after the content has loaded, the effect runs
   * again in a render where `loading` is false: its timer then sets no error.
   */
  method LearnRerunAfterLoad(context: RuntimeContext, nextLessonId: Option<string>, payload: LearnContent)
    returns (screen: Screen)
    ensures screen.LearnScreen?
  {
    var view := new LearnView();
    view.RunEffect(context.lessonId, BothSent);
    view.ContentResponse(payload);
    view.Cleanup();
    view.RunEffect(nextLessonId, BothSent);
    view.TimeoutFires();
    screen := view.Render(context);
  }

  /** No studio response within the timeout: the timeout error. */
  method StudioNoResponse(context: RuntimeContext) returns (screen: Screen)
    ensures screen == ErrorScreen(STUDIO_TIMED_OUT)
  {
    var view := new StudioView();
    view.RunEffect(context.lessonId, false);
    view.TimeoutFires();
    screen := view.Render(context);
  }

  /** The studio response arrives before unmount: the draft's statistics are those of its content. */
  method StudioLoadsDraft(context: RuntimeContext, payload: StudioLesson) returns (stored: Option<StudioLesson>, screen: Screen)
    ensures stored == Some(payload)
    ensures screen.StudioScreen?
    ensures screen.stats == ContentStats(payload.content)
    ensures screen.draft == payload.isDraft
    ensures screen.panes == PaneCount(payload.paneConfigs)
  {
    var view := new StudioView();
    view.RunEffect(context.lessonId, false);
    view.LessonResponse(payload);
    view.Cleanup();
    stored := view.lessonData;
    screen := view.Render(context);
  }

  /** As in the learn view, the timer replaces a loaded draft with the timeout error. */
  method StudioTimeoutOverridesDraft(context: RuntimeContext, payload: StudioLesson) returns (before: Screen, after: Screen)
    ensures before.StudioScreen?
    ensures after == ErrorScreen(STUDIO_TIMED_OUT)
  {
    var view := new StudioView();
    view.RunEffect(context.lessonId, false);
    view.LessonResponse(payload);
    before := view.Render(context);
    view.TimeoutFires();
    after := view.Render(context);
  }

  /** A throwing studio request shows its error at once. */
  method StudioRequestFailureIsImmediate(context: RuntimeContext) returns (screen: Screen)
    ensures screen == ErrorScreen(STUDIO_REQUEST_FAILED)
  {
    var view := new StudioView();
    view.RunEffect(context.lessonId, true);
    screen := view.Render(context);
  }

  /** Once the initial fetch has failed, later editor changes are stored but the error stays on screen. */
  method ProjectsFailureHidesEdits(edited: string) returns (screen: Screen)
    ensures screen == ErrorScreen(EDITOR_LOAD_FAILED)
  {
    var view := new ProjectsView();
    view.Mount();
    view.InitialFetchFailed();
    view.ContentReceived(edited);
    screen := view.Render();
  }

  /** The last text received is the one measured and previewed. */
  method ProjectsShowsLatestText(initial: string, edited: string) returns (screen: Screen)
    ensures screen.ProjectsScreen?
    ensures screen.characters == |edited| && screen.everUpdated
    ensures screen.lines == LineCount(edited)
    ensures screen.preview == GetPreview(edited, EDITOR_PREVIEW_LENGTH)
  {
    var view := new ProjectsView();
    view.Mount();
    view.ContentReceived(initial);
    view.ContentReceived(edited);
    screen := view.Render();
  }

  /** Before anything arrives the projects view shows zero characters, zero lines and the empty placeholder. */
  method ProjectsBeforeContent() returns (screen: Screen)
    ensures screen == ProjectsScreen(0, 0, EMPTY_PREVIEW, false)
  {
    var view := new ProjectsView();
    view.Mount();
    screen := view.Render();
  }
}
