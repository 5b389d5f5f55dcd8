/**
 * The runtime context the host hands to the mini-app, the choice of view it
 * drives, and the fallbacks the views display when a field is missing.
 */
module Context {
  import opened Wrappers

  /**
   * The host's description of where the mini-app runs. `contextType` is one
   * of "projects", "studio" and "learn" by declaration, but nothing checks
   * that at run time, so any string can arrive.
   */
  datatype RuntimeContext = RuntimeContext(
    contextType: string,
    projectId: Option<string>,
    workspaceId: Option<string>,
    courseId: Option<string>,
    courseSlug: Option<string>,
    lessonId: Option<string>,
    lessonSlug: Option<string>,
    isPreview: Option<bool>,
    isDraft: Option<bool>,
    enrollmentId: Option<string>)

  /** An entry of a lesson's pane configuration list; its contents are never read. */
  datatype PaneConfig = PaneConfig(json: string)

  /** The literal `{ type: 'projects' }`. */
  const DEFAULT_CONTEXT := RuntimeContext("projects", None, None, None, None, None, None, None, None, None)
  const UNKNOWN_TITLE := "Unknown"
  /** How many characters of the enrollment identifier are shown. */
  const ENROLLMENT_PREFIX_LENGTH: nat := 8

  /** JavaScript truthiness of an optional string: present and not empty. */
  predicate Truthy(s: Option<string>) {
    s.Some? && s.value != ""
  }

  /**
   * `bridge.useMiniAppContext?.() || { type: 'projects' }`. `provided` is
   * `None` when the accessor is missing or returns a falsy value; an object
   * is truthy whatever its fields hold.
   */
  function ResolveContext(provided: Option<RuntimeContext>): (ctx: RuntimeContext)
    ensures provided.Some? ==> ctx == provided.value
    ensures provided.None? ==> ctx.contextType == "projects" && ctx.lessonId.None? && ctx.enrollmentId.None?
  {
    if provided.Some? then provided.value else DEFAULT_CONTEXT
  }

  /** The view `HelloTenantApp` renders: the projects view takes no context. */
  datatype View = Projects | Learn(context: RuntimeContext) | Studio(context: RuntimeContext)

  /** `renderContextView`: a switch on the context type with the projects view as default. */
  function SelectView(ctx: RuntimeContext): (v: View)
    ensures v.Learn? <==> ctx.contextType == "learn"
    ensures v.Studio? <==> ctx.contextType == "studio"
    ensures v.Projects? <==> ctx.contextType != "learn" && ctx.contextType != "studio"
    ensures !v.Projects? ==> v.context == ctx
  {
    match ctx.contextType
    case "learn" => Learn(ctx)
    case "studio" => Studio(ctx)
    case _ => Projects
  }

  /** The view of `HelloTenantApp` from what the context accessor yielded. */
  function AppView(provided: Option<RuntimeContext>): (v: View)
    ensures provided.None? ==> v == Projects
    ensures provided.Some? ==> v == SelectView(provided.value)
  {
    SelectView(ResolveContext(provided))
  }

  /**
   * `data?.title || context.lessonSlug || 'Unknown'`: the first truthy of
   * the response's title and the lesson slug, never blank.
   */
  function DisplayTitle(payloadTitle: Option<string>, lessonSlug: Option<string>): (r: string)
    ensures r != []
    ensures Truthy(payloadTitle) ==> r == payloadTitle.value
    ensures !Truthy(payloadTitle) && Truthy(lessonSlug) ==> r == lessonSlug.value
    ensures !Truthy(payloadTitle) && !Truthy(lessonSlug) ==> r == UNKNOWN_TITLE
  {
    if Truthy(payloadTitle) then payloadTitle.value
    else if Truthy(lessonSlug) then lessonSlug.value
    else UNKNOWN_TITLE
  }

  /** `data?.paneConfigs?.length ?? 0`. */
  function PaneCount(paneConfigs: Option<seq<PaneConfig>>): (n: nat)
    ensures paneConfigs.Some? ==> n == |paneConfigs.value|
    ensures paneConfigs.None? ==> n == 0
  {
    match paneConfigs
    case Some(panes) => |panes|
    case None => 0
  }

  /**
   * `context.enrollmentId && context.enrollmentId.slice(0, 8)`: shown only
   * for a truthy identifier, as its first eight characters.
   */
  function EnrollmentDisplay(enrollmentId: Option<string>): (r: Option<string>)
    ensures r.Some? <==> Truthy(enrollmentId)
    ensures r.Some? ==> r.value <= enrollmentId.value
    ensures r.Some? ==> |r.value| == if |enrollmentId.value| < ENROLLMENT_PREFIX_LENGTH
                                     then |enrollmentId.value| else ENROLLMENT_PREFIX_LENGTH
  {
    if !Truthy(enrollmentId) then None
    else
      var id := enrollmentId.value;
      Some(if |id| < ENROLLMENT_PREFIX_LENGTH then id else id[..ENROLLMENT_PREFIX_LENGTH])
  }
}
