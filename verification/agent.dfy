/** counter_strike/agent.py: the agent's settings, the arbitration between the
    aiming model and the gameplay model, the action decision, and the
    iteration loop of `run_agent`. Model calls are futures whose outcomes are
    given; the screenshot, the mouse-movement planner and the action's
    rendering of tool calls are parameters. */
module Agent {
  import opened Py
  import opened Futures
  import Json
  import Aiming
  import Tools
  import Controls
  import ImageLogging

  // ---------------------------------------------------------------------
  // AgentSettings

  /** The two aiming prompts of counter_strike/prompts.py, by name. */
  datatype AimingPrompt = TAimingPrompt | CTAimingPrompt

  datatype AgentSettings = AgentSettings(
    openRouterKeyName: string,
    aimingPrompt: AimingPrompt,
    teamChoice: string,
    skinChoice: string)

  /** `AgentSettings(side, open_router_api_key_name)`: `"CT"` and `"T"` pick
      the team, skin and prompt of that side; any other side raises
      `ValueError`. */
  function NewAgentSettings(side: string, keyName: string): (r: Outcome<AgentSettings>)
    ensures r.Raised? <==> side != "CT" && side != "T"
    ensures r.Raised? ==> r.error == ValueError
    ensures r.Returned? ==> r.value.openRouterKeyName == keyName && SideOf(r.value) == side
  {
    if side == "CT" then Returned(AgentSettings(keyName, CTAimingPrompt, "2", "3"))
    else if side == "T" then Returned(AgentSettings(keyName, TAimingPrompt, "1", "4"))
    else Raised(ValueError)
  }

  /** The side the settings were made for, read off the team choice. */
  function SideOf(settings: AgentSettings): string {
    if settings.teamChoice == "2" then "CT" else "T"
  }

  /** The settings of each side: CT is team "2", skin "3" with the CT
      prompt; T is team "1", skin "4" with the T prompt. The two sides share
      no choice. */
  lemma SideSettings(keyName: string)
    ensures var ct := NewAgentSettings("CT", keyName).value;
            ct.teamChoice == "2" && ct.skinChoice == "3" && ct.aimingPrompt == CTAimingPrompt
    ensures var t := NewAgentSettings("T", keyName).value;
            t.teamChoice == "1" && t.skinChoice == "4" && t.aimingPrompt == TAimingPrompt
    ensures NewAgentSettings("CT", keyName).value.teamChoice != NewAgentSettings("T", keyName).value.teamChoice
    ensures NewAgentSettings("CT", keyName).value.skinChoice != NewAgentSettings("T", keyName).value.skinChoice
  {
  }

  /** Settings made for two sides are equal only when the sides are. */
  lemma SettingsInjective(side1: string, side2: string, keyName: string)
    requires NewAgentSettings(side1, keyName).Returned? && NewAgentSettings(side2, keyName).Returned?
    requires NewAgentSettings(side1, keyName) == NewAgentSettings(side2, keyName)
    ensures side1 == side2
  {
    assert SideOf(NewAgentSettings(side1, keyName).value) == side1;
  }

  // ---------------------------------------------------------------------
  // Arbitration: process_models_concurrently

  /** The part of the gameplay model's reply the agent uses: the third
      component, its tool calls (possibly `None`). */
  datatype GameplayReply = GameplayReply(toolCalls: Option<seq<Tools.ToolCall>>)

  /** What the arbitration does, in program order. */
  datatype Event =
    | AwaitAiming                         // future_aiming.result()
    | ParsedAiming(coords: Option<Point>) // aiming_model.parse_point_json(...)
    | CheckGameplay                       // future_gameplay.done()
    | CancelGameplay                      // future_gameplay.cancel()
    | PollGameplay                        // future_gameplay.result(timeout=0.01)
    | AwaitGameplay                       // future_gameplay.result()
    | Shutdown                            // leaving the executor's `with` block

  predicate TouchesGameplay(e: Event) {
    e.CheckGameplay? || e.CancelGameplay? || e.PollGameplay? || e.AwaitGameplay?
  }

  /** The timeout with which a finished gameplay future is read. */
  const PollTimeout: real := 0.01

  datatype GameplayOutput = GameplayOutput(toolCalls: Option<seq<Tools.ToolCall>>, time: real)

  datatype Handled = Handled(events: seq<Event>, gameplay: Future<GameplayReply>, outcome: Outcome<GameplayOutput>)

  /** A finished gameplay call whose exception the poll does not swallow:
      only `TimeoutError` and `CancelledError` are caught. */
  predicate FailsLoudly(g: Future<GameplayReply>) {
    && g.status == Finished && g.eventual.Raised?
    && g.eventual.error != TimeoutError && g.eventual.error != CancelledError
  }

  /** `handle_gameplay_model_response(future_gameplay, coords_found)`. With
      coordinates, the gameplay result is discarded: a call not yet done is
      cancelled (which only succeeds while it is pending) and a finished one
      is polled for its exception. Without, the agent blocks for the
      gameplay result and takes its tool calls. */
  function HandleGameplayResponse(gameplay: Future<GameplayReply>, coordsFound: bool): (h: Handled)
    ensures coordsFound ==> (h.outcome.Raised? <==> FailsLoudly(gameplay))
    ensures coordsFound && h.outcome.Returned? ==> h.outcome.value == GameplayOutput(None, 0.0)
    ensures coordsFound ==> h.gameplay.status == (if gameplay.status == Pending then Cancelled else gameplay.status)
    ensures !coordsFound ==> (h.outcome.Returned? <==> gameplay.status != Cancelled && gameplay.eventual.Returned?)
    ensures !coordsFound && h.outcome.Returned? ==>
              h.outcome.value == GameplayOutput(gameplay.eventual.value.toolCalls, Waited(gameplay))
    ensures !coordsFound && h.outcome.Raised? ==>
              h.outcome.error == (if gameplay.status == Cancelled then CancelledError else gameplay.eventual.error)
    ensures h.gameplay.eventual == gameplay.eventual
    ensures |h.events| > 0 && forall k :: 0 <= k < |h.events| ==> TouchesGameplay(h.events[k])
    ensures coordsFound ==> h.events == [CheckGameplay, if Done(gameplay) then PollGameplay else CancelGameplay]
    ensures coordsFound ==> AwaitGameplay !in h.events
    ensures !coordsFound ==> h.events == [AwaitGameplay]
  {
    if coordsFound then
      if !Done(gameplay) then
        Handled([CheckGameplay, CancelGameplay], Cancel(gameplay).0, Returned(GameplayOutput(None, 0.0)))
      else
        match Result(gameplay, Some(PollTimeout))
        case Raised(e) =>
          if e == TimeoutError || e == CancelledError
          then Handled([CheckGameplay, PollGameplay], gameplay, Returned(GameplayOutput(None, 0.0)))
          else Handled([CheckGameplay, PollGameplay], gameplay, Raised(e))
        case Returned(_) => Handled([CheckGameplay, PollGameplay], gameplay, Returned(GameplayOutput(None, 0.0)))
    else
      match Result(gameplay, None)
      case Raised(e) => Handled([AwaitGameplay], Settled(gameplay), Raised(e))
      case Returned(reply) =>
        Handled([AwaitGameplay], Settled(gameplay), Returned(GameplayOutput(reply.toolCalls, Waited(gameplay))))
  }

  /** The tuple `process_models_concurrently` returns. */
  datatype Arbitration = Arbitration(
    coords: Option<Point>,
    toolCalls: Option<seq<Tools.ToolCall>>,
    aimingTime: real,
    gameplayTime: real)

  datatype Processed = Processed(events: seq<Event>, gameplay: Future<GameplayReply>, outcome: Outcome<Arbitration>)

  /** `process_models_concurrently` with both calls already submitted. The
      aiming result is awaited and parsed before anything is done with the
      gameplay future; an exception from either escapes after the executor
      has shut down, and the shutdown waits for a gameplay call that is
      still pending or running. */
  function ProcessModels(aiming: Future<Aiming.Reply>, gameplay: Future<GameplayReply>, decode: Json.Decoder): (p: Processed)
    ensures |p.events| >= 2 && p.events[0] == AwaitAiming && p.events[|p.events| - 1] == Shutdown
    ensures forall k :: 0 <= k < |p.events| && TouchesGameplay(p.events[k]) ==> 2 <= k && p.events[1].ParsedAiming?
    ensures Done(p.gameplay) && p.gameplay.eventual == gameplay.eventual
    ensures Result(aiming, None).Raised? ==> p.outcome == Raised(Result(aiming, None).error) && |p.events| == 2
    ensures Result(aiming, None).Returned? ==>
              var coords := Aiming.ParsePointJson(Result(aiming, None).value, decode);
              && p.events[1] == ParsedAiming(coords)
              && (p.outcome.Returned? ==> p.outcome.value.coords == coords && p.outcome.value.aimingTime == Waited(aiming))
  {
    match Result(aiming, None)
    case Raised(e) => Processed([AwaitAiming, Shutdown], Settled(gameplay), Raised(e))
    case Returned(reply) =>
      var coords := Aiming.ParsePointJson(reply, decode);
      var h := HandleGameplayResponse(gameplay, coords.Some?);
      var events := [AwaitAiming, ParsedAiming(coords)] + h.events + [Shutdown];
      assert forall k :: 2 <= k < |events| - 1 ==> events[k] == h.events[k - 2];
      var outcome :=
        match h.outcome
        case Raised(e) => Raised(e)
        case Returned(out) => Returned(Arbitration(coords, out.toolCalls, Waited(aiming), out.time));
      Processed(events, Settled(h.gameplay), outcome)
  }

  /** The aiming future delivered a point. */
  predicate FoundPoint(aiming: Future<Aiming.Reply>, decode: Json.Decoder) {
    Result(aiming, None).Returned? && Aiming.ParsePointJson(Result(aiming, None).value, decode).Some?
  }

  /** A found point discards the gameplay result: whatever the gameplay
      future holds, short of an exception the poll does not swallow, the
      arbitration returns the point, no tool calls and a zero gameplay
      time. */
  lemma FoundPointDiscardsGameplay(aiming: Future<Aiming.Reply>, gameplay: Future<GameplayReply>, decode: Json.Decoder)
    requires FoundPoint(aiming, decode) && !FailsLoudly(gameplay)
    ensures ProcessModels(aiming, gameplay, decode).outcome ==
            Returned(Arbitration(Aiming.ParsePointJson(Result(aiming, None).value, decode), None, Waited(aiming), 0.0))
  {
  }

  /** With a found point, two gameplay futures that do not fail loudly give
      the same arbitration: the gameplay reply has no say. */
  lemma FoundPointIgnoresGameplay(aiming: Future<Aiming.Reply>, g1: Future<GameplayReply>, g2: Future<GameplayReply>, decode: Json.Decoder)
    requires FoundPoint(aiming, decode) && !FailsLoudly(g1) && !FailsLoudly(g2)
    ensures ProcessModels(aiming, g1, decode).outcome == ProcessModels(aiming, g2, decode).outcome
  {
    FoundPointDiscardsGameplay(aiming, g1, decode);
    FoundPointDiscardsGameplay(aiming, g2, decode);
  }

  /** Without a point, the arbitration's tool calls are those of the
      gameplay reply, and its exception escapes. */
  lemma MissingPointUsesGameplay(aiming: Future<Aiming.Reply>, gameplay: Future<GameplayReply>, decode: Json.Decoder)
    requires Result(aiming, None).Returned? && !FoundPoint(aiming, decode)
    ensures Result(gameplay, None).Returned? ==>
              ProcessModels(aiming, gameplay, decode).outcome ==
              Returned(Arbitration(None, gameplay.eventual.value.toolCalls, Waited(aiming), Waited(gameplay)))
    ensures Result(gameplay, None).Raised? ==>
              ProcessModels(aiming, gameplay, decode).outcome == Raised(Result(gameplay, None).error)
  {
  }

  // ---------------------------------------------------------------------
  // decide_and_act

  /** The action of one iteration. */
  datatype Label = AimAndShoot | ToolCallsLabel(calls: seq<Tools.ToolCall>) | NoAction

  /** Python truthiness of the tool calls: `None` and `[]` are false. */
  predicate Truthy(toolCalls: Option<seq<Tools.ToolCall>>) {
    toolCalls.Some? && |toolCalls.value| > 0
  }

  /** The branch `decide_and_act` takes: a point wins over tool calls,
      which win over doing nothing. */
  function Choose(coords: Option<Point>, toolCalls: Option<seq<Tools.ToolCall>>): (l: Label)
    ensures l.AimAndShoot? <==> coords.Some?
    ensures l.ToolCallsLabel? <==> coords.None? && Truthy(toolCalls)
    ensures l.NoAction? <==> coords.None? && !Truthy(toolCalls)
    ensures l.ToolCallsLabel? ==> Some(l.calls) == toolCalls
  {
    if coords.Some? then AimAndShoot
    else if Truthy(toolCalls) then ToolCallsLabel(toolCalls.value)
    else NoAction
  }

  const AimAndShootText: string := "Aim & Shoot"
  const ToolCallsPrefix: string := "Tool Calls: "
  const NoActionText: string := "No Action"

  /** The string `decide_and_act` returns; `render` is Python's `str()` of
      the list of tool calls. */
  function LabelText(l: Label, render: seq<Tools.ToolCall> -> string): string {
    match l
    case AimAndShoot => AimAndShootText
    case ToolCallsLabel(calls) => ToolCallsPrefix + render(calls)
    case NoAction => NoActionText
  }

  /** The three kinds of action read differently, so the returned string
      tells which branch was taken. */
  lemma LabelTextsDistinct(l1: Label, l2: Label, render: seq<Tools.ToolCall> -> string)
    requires LabelText(l1, render) == LabelText(l2, render)
    ensures l1.AimAndShoot? == l2.AimAndShoot? && l1.NoAction? == l2.NoAction? && l1.ToolCallsLabel? == l2.ToolCallsLabel?
  {
  }

  /** The world the agent acts in, as far as the model is concerned. */
  datatype Env = Env(
    decode: Json.Decoder,                      // json.loads
    plan: Point -> seq<Point>,                 // get_mouse_movements
    tools: Tools.Toolbox,                      // the gameplay model's tools
    render: seq<Tools.ToolCall> -> string)     // str() of a list of tool calls

  /** What one call of `decide_and_act` does: its action, the string it
      returns or the exception that escapes, the desktop commands and the
      tool calls that ran to completion (a known tool that raised is not
      among them). */
  datatype Decision = Decision(action: Label, outcome: Outcome<string>, commands: seq<Controls.Command>, completed: seq<Tools.ToolCall>)

  /** `decide_and_act`. A point is aimed at along the planned movements and
      shot at with the default three bursts; tool calls are dispatched by
      the gameplay model's `_handle_tool_calls`, whose exception escapes. */
  function DecideAndAct(coords: Option<Point>, toolCalls: Option<seq<Tools.ToolCall>>, env: Env): (d: Decision)
    ensures d.action == Choose(coords, toolCalls)
    ensures d.outcome.Returned? ==> d.outcome.value == LabelText(d.action, env.render)
    ensures coords.Some? ==>
              && d.outcome.Returned? && d.completed == []
              && d.commands == Controls.Aim(env.plan(coords.value)) + Controls.Shoot(Controls.DefaultBursts)
    ensures coords.None? ==> d.commands == []
    ensures d.action.ToolCallsLabel? ==>
              var calls := d.action.calls;
              var f := Tools.FirstFailure(calls, env.tools, env.decode);
              && d.completed == Tools.Known(calls[..f], env.tools)
              && (d.outcome.Returned? <==> f == |calls|)
              && (d.outcome.Raised? ==> d.outcome.error == Tools.StepOf(calls[f], env.tools, env.decode).error)
    ensures d.action.NoAction? ==> d.outcome.Returned? && d.completed == []
  {
    var action := Choose(coords, toolCalls);
    match action
    case AimAndShoot =>
      Decision(action, Returned(AimAndShootText),
               Controls.Aim(env.plan(coords.value)) + Controls.Shoot(Controls.DefaultBursts), [])
    case ToolCallsLabel(calls) =>
      var f := Tools.FirstFailure(calls, env.tools, env.decode);
      var outcome := if f == |calls| then Returned(LabelText(action, env.render))
                     else Raised(Tools.StepOf(calls[f], env.tools, env.decode).error);
      Decision(action, outcome, [], Tools.Known(calls[..f], env.tools))
    case NoAction => Decision(action, Returned(NoActionText), [], [])
  }

  /** `decide_and_act` run with the dispatch loop of llms/models.py. */
  method Act(coords: Option<Point>, toolCalls: Option<seq<Tools.ToolCall>>, env: Env) returns (d: Decision)
    ensures d == DecideAndAct(coords, toolCalls, env)
  {
    var action := Choose(coords, toolCalls);
    match action {
      case AimAndShoot =>
        d := Decision(action, Returned(AimAndShootText),
                      Controls.Aim(env.plan(coords.value)) + Controls.Shoot(Controls.DefaultBursts), []);
      case ToolCallsLabel(calls) =>
        var result, completed := Tools.HandleToolCallsDiscarding(calls, env.tools, env.decode);
        var outcome := if result.Returned? then Returned(LabelText(action, env.render)) else Raised(result.error);
        d := Decision(action, outcome, [], completed);
      case NoAction =>
        d := Decision(action, Returned(NoActionText), [], []);
    }
  }

  // ---------------------------------------------------------------------
  // run_agent

  /** What the outside world supplies to one iteration: the clock reading
      for the screenshot name and the two submitted model calls. */
  datatype IterationInput = IterationInput(
    stamp: string,
    aiming: Future<Aiming.Reply>,
    gameplay: Future<GameplayReply>)

  /** The phases of an iteration, tagged with the iteration's index. */
  datatype Phase =
    | Captured(iteration: nat, screenshotPath: string)
    | Arbitrated(iteration: nat, processed: Processed)
    | Decided(iteration: nat, decision: Decision)

  /** The directory `run_agent` logs under. */
  const LogBase: string := "images"

  /** Where the screenshot taken at `stamp` is logged. */
  function ShotPath(sessionDir: string, stamp: string): string {
    ImageLogging.Join(sessionDir, ImageLogging.FileName(ImageLogging.Screenshot, stamp))
  }

  /** The phases iteration `i` goes through in the session directory
      `sessionDir`: capture, arbitrate, and decide unless the arbitration
      raised. */
  function IterationPhases(i: nat, input: IterationInput, sessionDir: string, env: Env): (phases: seq<Phase>)
    ensures |phases| == 2 || |phases| == 3
    ensures phases[0].Captured? && phases[1].Arbitrated? && (|phases| == 3 ==> phases[2].Decided?)
    ensures |phases| == 2 <==> phases[1].processed.outcome.Raised?
    ensures phases[0].iteration == i && phases[1].iteration == i && (|phases| == 3 ==> phases[2].iteration == i)
  {
    var p := ProcessModels(input.aiming, input.gameplay, env.decode);
    match p.outcome
    case Raised(_) => [Captured(i, ShotPath(sessionDir, input.stamp)), Arbitrated(i, p)]
    case Returned(a) =>
      [Captured(i, ShotPath(sessionDir, input.stamp)), Arbitrated(i, p), Decided(i, DecideAndAct(a.coords, a.toolCalls, env))]
  }

  /** `runs[i] == expected(i)` for every recorded `i`. */
  predicate Follows<T(==)>(runs: seq<T>, expected: nat -> T) {
    forall i :: 0 <= i < |runs| ==> runs[i] == expected(i)
  }

  /** Recording the next expected entry keeps the runs in step. */
  lemma FollowsExtends<T>(runs: seq<T>, latest: T, expected: nat -> T)
    requires Follows(runs, expected) && latest == expected(|runs|)
    ensures Follows(runs + [latest], expected)
  {
    var all := runs + [latest];
    forall i | 0 <= i < |all|
      ensures all[i] == expected(i)
    {
      if i < |runs| {
        assert all[i] == runs[i];
      }
    }
  }

  /** The phases of every iteration of a run in the session directory
      `sessionDir`. */
  function Expected(inputs: nat -> IterationInput, sessionDir: string, env: Env): nat -> seq<Phase> {
    (i: nat) => IterationPhases(i, inputs(i), sessionDir, env)
  }

  /** The iteration ran to its end without an exception. */
  predicate Completed(phases: seq<Phase>) {
    |phases| == 3 && phases[2].Decided? && phases[2].decision.outcome.Returned?
  }

  /** The exception with which an iteration ended. */
  predicate EndedWith(phases: seq<Phase>, e: Exception) {
    || (|phases| == 2 && phases[1].Arbitrated? && phases[1].processed.outcome == Raised(e))
    || (|phases| == 3 && phases[2].Decided? && phases[2].decision.outcome == Raised(e))
  }

  /** One pass of the `run_agent` loop: a new screenshot path, the
      arbitration, and the action unless the arbitration raised. */
  method Iterate(i: nat, input: IterationInput, logger: ImageLogging.LogSettings, env: Env)
    returns (phases: seq<Phase>, next: ImageLogging.LogSettings, failure: Option<Exception>)
    ensures phases == IterationPhases(i, input, logger.sessionLogDir, env)
    ensures failure.None? <==> Completed(phases)
    ensures failure.Some? ==> EndedWith(phases, failure.value)
    ensures next == ImageLogging.GenerateNewPaths(logger, input.stamp).0
  {
    var generated := ImageLogging.GenerateNewPaths(logger, input.stamp);
    next := generated.0;
    var captured := Captured(i, generated.1);
    var p := ProcessModels(input.aiming, input.gameplay, env.decode);
    if p.outcome.Raised? {
      phases := [captured, Arbitrated(i, p)];
      failure := Some(p.outcome.error);
    } else {
      var a := p.outcome.value;
      var d := Act(a.coords, a.toolCalls, env);
      phases := [captured, Arbitrated(i, p), Decided(i, d)];
      failure := if d.outcome.Raised? then Some(d.outcome.error) else None;
    }
  }

  /** The logger of the session `sessionStamp` once the last iteration, if
      there was one, generated its paths at `last`. */
  function LoggerAt(sessionStamp: string, last: Option<string>): (s: ImageLogging.LogSettings)
    ensures s.sessionTimestamp == sessionStamp && s.sessionLogDir == ImageLogging.Join(LogBase, sessionStamp)
    ensures last.None? <==> ImageLogging.GetScreenshotPath(s).None?
    ensures last.Some? ==> ImageLogging.GetScreenshotPath(s) == Some(ShotPath(s.sessionLogDir, last.value))
  {
    var initial := ImageLogging.NewLogSettings(LogBase, sessionStamp);
    if last.None? then initial else ImageLogging.GenerateNewPaths(initial, last.value).0
  }

  /** The stamp of the last of the first `count` iterations. */
  function LastStamp(inputs: nat -> IterationInput, count: nat): Option<string> {
    if count == 0 then None else Some(inputs(count - 1).stamp)
  }

  /** A generation overwrites whatever earlier iterations left: the logger
      depends on the session and the latest stamp only. */
  lemma LoggerOverwritten(sessionStamp: string, last: Option<string>, stamp: string)
    ensures ImageLogging.GenerateNewPaths(LoggerAt(sessionStamp, last), stamp).0 == LoggerAt(sessionStamp, Some(stamp))
  {
    if last.Some? {
      ImageLogging.GenerationOverwrites(ImageLogging.NewLogSettings(LogBase, sessionStamp), last.value, stamp);
    }
  }

  /** Every recorded iteration ran to its end. */
  predicate AllCompleted(runs: seq<seq<Phase>>) {
    forall i :: 0 <= i < |runs| ==> Completed(runs[i])
  }

  /** The state the `run_agent` loop keeps between iterations: the phases
      recorded so far are the expected ones, and the logger holds the paths
      of the latest iteration. */
  predicate InStep(runs: seq<seq<Phase>>, logger: ImageLogging.LogSettings, inputs: nat -> IterationInput, sessionStamp: string, env: Env) {
    && Follows(runs, Expected(inputs, ImageLogging.Join(LogBase, sessionStamp), env))
    && logger == LoggerAt(sessionStamp, LastStamp(inputs, |runs|))
  }

  /** Runs the next iteration and records its phases. */
  method Advance(runs: seq<seq<Phase>>, logger: ImageLogging.LogSettings, inputs: nat -> IterationInput, sessionStamp: string, env: Env)
    returns (runs': seq<seq<Phase>>, logger': ImageLogging.LogSettings, failure: Option<Exception>)
    requires InStep(runs, logger, inputs, sessionStamp, env) && AllCompleted(runs)
    ensures InStep(runs', logger', inputs, sessionStamp, env)
    ensures |runs'| == |runs| + 1 && runs'[..|runs|] == runs
    ensures failure.None? <==> AllCompleted(runs')
    ensures failure.Some? ==> EndedWith(runs'[|runs|], failure.value)
  {
    var latest;
    latest, logger', failure := Iterate(|runs|, inputs(|runs|), logger, env);
    runs' := runs + [latest];
    FollowsExtends(runs, latest, Expected(inputs, ImageLogging.Join(LogBase, sessionStamp), env));
    LoggerOverwritten(sessionStamp, LastStamp(inputs, |runs|), inputs(|runs|).stamp);
    assert runs'[..|runs|] == runs;
    assert runs'[|runs|] == latest;
  }

  /** `run_agent(iterations=n)`: the iterations of `range(n)` in order, each
      capturing a screenshot path, arbitrating between the models and
      acting. The first exception ends the run. The image logger is made
      once for the session and only its current paths change. `runs[i]`
      holds the phases of iteration `i`. */
  method RunAgent(iterations: int, sessionStamp: string, inputs: nat -> IterationInput, env: Env)
    returns (result: Outcome<()>, runs: seq<seq<Phase>>, logger: ImageLogging.LogSettings)
    ensures InStep(runs, logger, inputs, sessionStamp, env)
    ensures result.Returned? ==> |runs| == Controls.Passes(iterations) && AllCompleted(runs)
    ensures result.Raised? ==>
              && 0 < |runs| <= Controls.Passes(iterations)
              && AllCompleted(runs[..|runs| - 1])
              && EndedWith(runs[|runs| - 1], result.error)
  {
    logger := ImageLogging.NewLogSettings(LogBase, sessionStamp);
    runs := [];
    assert logger == LoggerAt(sessionStamp, None);
    var n := Controls.Passes(iterations);
    while |runs| < n
      invariant |runs| <= n
      invariant InStep(runs, logger, inputs, sessionStamp, env) && AllCompleted(runs)
      decreases n - |runs|
    {
      var failure;
      ghost var before := runs;
      runs, logger, failure := Advance(runs, logger, inputs, sessionStamp, env);
      if failure.Some? {
        assert runs[..|runs| - 1] == before;
        return Raised(failure.value), runs, logger;
      }
    }
    result := Returned(());
  }
}
