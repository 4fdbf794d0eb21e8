/**
 * The `useAIWidget` hook: per page, it records a page visit, asks the
 * personalisation service for a widget directive and holds the answer in
 * `widgetConfig`, with `loading` and `error` beside it.
 */
module AIWidget {
  import opened Wrappers
  import opened Effects

  /** One call-to-action entry; `caption` is the source's `label` (a reserved word here). */
  datatype CTAAction = CTAAction(caption: string, action: string)

  /**
   * A decoded widget directive. The hook does not validate what it decodes, so
   * `componentType` and `priority` are whatever strings the payload held;
   * `None` in `position` and `icon` means the key was absent.
   */
  datatype WidgetConfig = WidgetConfig(
    componentType: string,
    title: string,
    body: string,
    ctaList: seq<CTAAction>,
    priority: string,
    position: Option<string>,
    icon: Option<string>)

  /** What `aiAPI.getWidget` resolves to: a string, or an already decoded value (`None` is JSON null). */
  datatype WidgetResponse = Text(raw: string) | Decoded(config: Option<WidgetConfig>)

  /** What `JSON.parse` does with a string: a value (`None` is JSON null), or a SyntaxError. */
  datatype JsonParse = Parsed(value: Option<WidgetConfig>) | SyntaxError

  /** The hook's three state variables at one moment. */
  datatype Snapshot = Snapshot(widgetConfig: Option<WidgetConfig>, loading: bool, error: Option<string>)

  /** How a fetch that got past its two guards ends: the stored config, the error, and what it emitted. */
  datatype FetchEnd = FetchEnd(config: Option<WidgetConfig>, error: Option<string>, effects: seq<Effect>)

  const NoWidgetLog := "No AI widget for this page"
  const FetchFailedLog := "Failed to fetch AI widget:"

  /**
   * The try/catch/finally of `fetchAIWidget` once it has started: the tracking
   * call is awaited first, and only if it resolves is the widget requested.
   */
  function FetchSettled(page: string, track: Reply<()>, widget: Reply<WidgetResponse>,
                        parse: string -> JsonParse): (r: FetchEnd)
    // the visit is always tracked first; the widget is requested iff tracking resolved
    ensures |r.effects| >= 1 && r.effects[0] == Request(TrackPageVisit(page))
    ensures Request(GetWidget(page)) in r.effects <==> track.Ok?
    // an error is recorded exactly when one of the two calls threw, and then there is no config
    ensures r.error.Some? <==> track.Err? || widget.Err?
    ensures track.Err? ==> r.config.None? && r.error == Some(track.failure.message)
    ensures track.Ok? && widget.Err? ==> r.config.None? && r.error == Some(widget.failure.message)
    // a non-string answer is stored as it is
    ensures track.Ok? && widget.Ok? && widget.value.Decoded? ==> r.config == widget.value.config
    // a string answer is decoded without validation; one that does not decode gives no config and no error
    ensures track.Ok? && widget.Ok? && widget.value.Text? ==>
      r.config == (match parse(widget.value.raw) case Parsed(v) => v case SyntaxError => None)
  {
    var tracked := [Request(TrackPageVisit(page))];
    match track
    case Err(f) => FetchEnd(None, Some(f.message), tracked + [Console(FetchFailedLog)])
    case Ok(_) =>
      var requested := tracked + [Request(GetWidget(page))];
      match widget
      case Err(f) => FetchEnd(None, Some(f.message), requested + [Console(FetchFailedLog)])
      case Ok(Decoded(c)) => FetchEnd(c, None, requested)
      case Ok(Text(raw)) =>
        match parse(raw)
        case Parsed(v) => FetchEnd(v, None, requested)
        case SyntaxError => FetchEnd(None, None, requested + [Console(NoWidgetLog)])
  }

  /** What `handleCTAAction` emits for one token: a console line, then the acknowledgement toast. */
  function CTAEffects(action: string): (r: seq<Effect>)
    ensures |r| == 2 && r[1] == Toast("Action Received", Some("Processing: " + action), false)
    ensures forall e :: e in r ==> !e.Navigate? && !e.Request?
  {
    [Console("AI Widget CTA clicked: " + action), Toast("Action Received", Some("Processing: " + action), false)]
  }

  class WidgetHook {
    const currentPage: string
    var widgetConfig: Option<WidgetConfig>
    var loading: bool
    var error: Option<string>
    /** The hook's state as seen by a render during each await of a fetch. */
    ghost var pending: seq<Snapshot>

    function State(): Snapshot
      reads this
    {
      Snapshot(widgetConfig, loading, error)
    }

    constructor (currentPage: string)
      ensures this.currentPage == currentPage
      ensures widgetConfig.None? && !loading && error.None? && pending == []
    {
      this.currentPage := currentPage;
      widgetConfig, loading, error := None, false, None;
      pending := [];
    }

    /**
     * `fetchAIWidget` (also `refetch`): nothing at all happens on an empty page
     * name or without a credential; otherwise loading is on and error cleared
     * while the calls are out, and every ending turns loading off.
     */
    method FetchAIWidget(token: Option<string>, track: Reply<()>, widget: Reply<WidgetResponse>,
                         parse: string -> JsonParse, env: Env)
      modifies this, env
      ensures currentPage == "" || !HasToken(token) ==> unchanged(this) && unchanged(env)
      ensures currentPage != "" && HasToken(token) ==>
        var e := FetchSettled(currentPage, track, widget, parse);
        var waiting := Snapshot(old(widgetConfig), true, None);
        && widgetConfig == e.config && error == e.error && !loading
        && env.trace == old(env.trace) + e.effects
        && pending == old(pending) + [waiting] + (if track.Ok? then [waiting] else [])
    {
      if currentPage == "" {
        return;
      }
      if !HasToken(token) {
        return;
      }
      loading := true;
      error := None;
      pending := pending + [State()];
      env.Emit(Request(TrackPageVisit(currentPage)));
      match track {
        case Err(f) =>
          env.Emit(Console(FetchFailedLog));
          error := Some(f.message);
          widgetConfig := None;
        case Ok(_) =>
          pending := pending + [State()];
          env.Emit(Request(GetWidget(currentPage)));
          match widget {
            case Err(f) =>
              env.Emit(Console(FetchFailedLog));
              error := Some(f.message);
              widgetConfig := None;
            case Ok(Decoded(c)) =>
              widgetConfig := c;
            case Ok(Text(raw)) =>
              match parse(raw) {
                case Parsed(v) =>
                  widgetConfig := v;
                case SyntaxError =>
                  env.Emit(Console(NoWidgetLog));
                  widgetConfig := None;
              }
          }
      }
      loading := false;
    }

    /** `dismissWidget`: from any state the config is gone; nothing else changes. */
    method DismissWidget()
      modifies this`widgetConfig
      ensures widgetConfig.None?
    {
      widgetConfig := None;
    }

    /** `handleCTAAction`: acknowledge, dismiss, and hand the token back unchanged, whatever it is. */
    method HandleCTAAction(action: string, env: Env) returns (r: string)
      modifies this`widgetConfig, env
      ensures r == action && widgetConfig.None?
      ensures env.trace == old(env.trace) + CTAEffects(action)
    {
      env.Emit(Console("AI Widget CTA clicked: " + action));
      env.Emit(Toast("Action Received", Some("Processing: " + action), false));
      DismissWidget();
      r := action;
    }
  }

  /**
   * Dismissing twice is the same as dismissing once, and so is acting on any
   * token after a dismiss: `once`, `twice` and `acted` are the hook's state
   * after each step.
   */
  method DismissIsIdempotent(hook: WidgetHook, action: string, env: Env)
      returns (once: Snapshot, twice: Snapshot, acted: Snapshot)
    modifies hook, env
    ensures once == old(hook.State()).(widgetConfig := None)
    ensures twice == once && acted == once && hook.State() == once
    ensures hook.pending == old(hook.pending)
    ensures env.trace == old(env.trace) + CTAEffects(action)
  {
    hook.DismissWidget();
    once := hook.State();
    hook.DismissWidget();
    twice := hook.State();
    var _ := hook.HandleCTAAction(action, env);
    acted := hook.State();
  }
}
