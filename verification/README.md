# counter-strike-in-e2b: the agent's decision layer in Dafny

The repository runs a Counter-Strike bot inside an E2B desktop sandbox. Each
iteration of its loop names a screenshot file. It then asks two language
models at once:

- an **aiming model**, which replies with a head position as JSON;
- a **gameplay model**, which replies with tool calls.

A found point wins over the tool calls. The bot then aims and shoots, runs
the tool calls, or does nothing.

This project models that decision layer with immutable datatypes and pure
functions, plus a few methods with loops. It covers:

- `Aiming` (llms/models.py): the aiming model's whitelist and its fallback
  list, and `parse_point_json`. The parser uses a Python `str.strip` model in
  `PyText`, and `int()` and `str()` on integers in `PyInt`. It reads decoded
  JSON values through `Json`: `dict.get`, `int()` of a value, and truncation
  of floats.
- `Tools` (llms/models.py and llm.py): both versions of `_handle_tool_calls`,
  over a given map from tool names to tools. Each tool is a fixed function
  of its arguments.
- `Memory` (llms/models.py): `MemoryManager`.
- `Controls` (counter_strike/controls.py): `aim` and `shoot`, as the lists of
  desktop commands they issue.
- `ImageLogging` (counter_strike/image_logging.py): the session directory and
  the per-iteration screenshot paths. Timestamps are parameters.
- `Futures`: the parts of `concurrent.futures.Future` the agent uses, in
  CPython's semantics:
  - `done()`;
  - `cancel()`, which returns `True` for a pending call (cancelling it) and
    for an already cancelled one, and `False` for a running or finished one;
  - `result(timeout)`;
  - the executor's waiting shutdown.
- `Agent` (counter_strike/agent.py):
  - the side settings;
  - `handle_gameplay_model_response` and `process_models_concurrently`, run
    in program order over abstract futures;
  - `decide_and_act`;
  - the `run_agent` loop.

The agent's behaviour, as the code has it:

- **Exceptions end the run.** `run_agent` catches nothing. These all end the
  whole run:
  - an exception from the aiming call;
  - an exception from the gameplay call when no point was found;
  - an exception from a dispatched tool, including a tool call whose
    arguments are not JSON.

  `RunAgent` stops at the first such exception and reports it.
- **Discarding the gameplay reply does not save time when it is running.**
  `cancel()` does nothing to a call that is already running. Leaving the
  executor's `with` block waits for that call to finish. So a found point
  discards the gameplay reply, but the time is saved only when the gameplay
  call has not started.
- **Some gameplay exceptions escape even after a point is found.** After a
  point is found, `done()` decides the race (counter_strike/agent.py:58). A
  gameplay call that is already done is polled with `result(timeout=0.01)`,
  and only `TimeoutError` and `CancelledError` are swallowed. So a call that
  finished with any other exception by then makes that exception escape,
  even though a point was found (`FailsLoudly`).
- **The models.py dispatcher returns nothing.** The `_handle_tool_calls` of
  llms/models.py runs the tools but never collects their responses: the
  `append` is commented out. It always returns `[]`. The llm.py version
  returns one record per call whose tool ran and returned.
- **Unknown tools still have their arguments decoded.** Both dispatchers
  decode the arguments before they check the tool name. A call naming an
  unknown tool with malformed arguments therefore still raises
  `JSONDecodeError`.

## Model

| member | source | states |
|---|---|---|
| PyText.Strip | llms/models.py:231 | `str.strip`: the result neither starts nor ends with a stripped character |
| PyText.StripRemovesPadding | llms/models.py:231 | what `strip` leaves is an infix of the input, and everything removed before and after it is a stripped character |
| PyText.StripUnique | llms/models.py:231 | whatever stripped-character padding surrounds a core without such ends, stripping returns exactly that core |
| PyText.StripIdempotent | llms/models.py:231 | stripping twice with the same characters equals stripping once |
| PyInt.ParseInt | llms/models.py:243-246 | `int(s)` on a string: a successful parse means `s` holds a digit and nothing but digits, underscores, signs and whitespace, and a plain run of digits parses to its decimal value |
| PyInt.ParseNumeral | llms/models.py:243-246 | once the whitespace is stripped, an accepted numeral may carry a sign only in front, followed directly by a digit; it ends with a digit and has a digit after every underscore and none at its start, so `_1`, `+_1`, `1_` and `1__0` are rejected |
| PyInt.SplitParses | llms/models.py:243-246 | a sign or nothing followed by grouped digits parses to the digits' value with the underscores dropped, negated after a minus: `+7`, `007` and `1_000` give 7, 7 and 1000 |
| PyInt.ParseIntExactly | llms/models.py:243-246 | `int(s)` succeeds if and only if `s` is whitespace, an optional sign, grouped digits and whitespace, in that order, and then gives the number they denote |
| PyInt.ParseStr | llms/models.py:243-246 | `int(str(n)) == n` for every integer `n` |
| PyInt.ParsePadded | llms/models.py:243-246 | `int()` ignores whitespace around a numeral |
| Json.Truncate | llms/models.py:243-246 | `int()` of a float rounds toward zero: the result is within one of the value, on the side of zero |
| Json.IntOf | llms/models.py:243-246 | `int()` on a decoded value: an int is kept; `True` and `False` give 1 and 0; a finite float is truncated toward zero; NaN raises `ValueError` and an infinity `OverflowError`; a string converts exactly when `int()` parses it, to that value, and raises `ValueError` otherwise; `None`, a list or a dict raise `TypeError` |
| Json.IntOfRejectsNonNumeral | llms/models.py:243-246 | a string holding a character that is neither whitespace nor part of a numeral (`"12px"`, `"3.5"`) raises `ValueError` |
| Json.Get | llms/models.py:236-238 | `d.get(key, default)` raises `AttributeError` exactly when `d` is not a dict, and otherwise returns the entry or the default |
| Json.IntOfStr | llms/models.py:243-246 | a decoded string written by `str(n)` converts back to `n` |
| Aiming.Without | llms/models.py:182 | the comprehension keeps exactly the entries different from the model, and never lengthens the list |
| Aiming.NewAimingModel | llms/models.py:172-187 | raises `ValueError` exactly for a model outside the allowed list. Otherwise it keeps the model and temperature, and the fallbacks are the default order minus the model: 3 entries if the model was in it, 4 if not |
| Aiming.FallbackOrder | llms/models.py:149-153 | the fallback list is the default order with the chosen model cut out where it stood, so relative order is kept |
| Aiming.GeminiFallsBackToQwen | llms/models.py:255-268 | a Gemini model gets all four Qwen models as fallbacks, none of which the Gemini class accepts, and no temperature |
| Aiming.QwenDefaultConstruction | llms/models.py:172-187 | `AimingModel()` succeeds with the default model, which falls back to the other three models of the default order, in order |
| Aiming.GeminiDefaultConstruction | llms/models.py:264-267 | `GeminiAimingModel()` succeeds with its default model, which falls back to all four models of the default order |
| Aiming.ParsePointJson | llms/models.py:218-252 | `parse_point_json` never raises. It gives `None` exactly when the `try` body raises, and otherwise the unique point whose `x` and `y` the decoded data holds as `int()`-convertible values |
| Aiming.MissingCoordinateGivesNone | llms/models.py:236-241 | no `point`, or a `point` whose `x` or `y` is missing or `None`, gives `None` |
| Aiming.DataSkipsDecoding | llms/models.py:230-234 | a reply that is not a `str` is never cleaned or decoded, and a `str` is cleaned and decoded however it arrives |
| Aiming.TextDecodesCleaned | llms/models.py:230-232 | a text reply is decoded exactly once, after cleaning |
| Aiming.CleanCutsNoise | llms/models.py:231 | the cleaning only cuts whitespace, backticks and the letters `j`, `s`, `o`, `n` from the two ends, and leaves no whitespace at either end |
| Aiming.CleanOrder | llms/models.py:231 | the four strips run in order: text that starts with a backtick keeps it when it follows a `json` prefix, because backticks are stripped before the letters |
| Aiming.CleanUnfences | llms/models.py:231 | a JSON object is left as it is, and the same object inside a Markdown `json` code block comes out unwrapped |
| Aiming.PointDataDenotes | llms/models.py:236-246 | `{"point": {"x": str(x), "y": str(y)}}` holds the point `(x, y)` |
| Aiming.DocumentedExample | llms/models.py:155-160 | the documented example `{"point": {"x": "500", "y": "452"}}` parses to `(500, 452)` as text, inside a fenced `json` block, or already decoded |
| Aiming.ObjectParses | llms/models.py:230-246 | a JSON object whose decoded data names a point parses to that point as text, as a `str` value, fenced as a Markdown `json` block, or already decoded |
| Tools.StepOf | llm.py:99-103 | one loop pass: the arguments are decoded first, and a call is skipped exactly when they decode and the name is unknown |
| Tools.FirstFailure | llm.py:98-110 | the position of the first call whose pass raises: every earlier pass succeeds |
| Tools.HandleToolCalls | llm.py:86-112 | runs the known tools in call order until one raises, whose exception escapes. Otherwise it returns one record per known call, with role `tool`, the call's id and name, and the tool's response |
| Tools.HandleToolCallsDiscarding | llms/models.py:61-90 | the same dispatch, which returns `[]` whenever it returns |
| Tools.KnownSplits | llm.py:98-110 | the dispatched calls keep the order of the input: filtering distributes over concatenation |
| Tools.KnownMembers | llm.py:102 | a call is dispatched exactly when its name is an available tool |
| Tools.EmptyCallsGiveNoRecords | llm.py:96-112 | no calls, no records |
| Tools.UnknownToolStillDecoded | llm.py:100-102 | an unknown tool with undecodable arguments still raises |
| Memory.NewMemoryManager | llms/models.py:289-293 | a new manager's stored prompt has the `system` role |
| Memory.GetMemoryAsMessages | llms/models.py:296-298 | the stored system prompt is among the messages, and every message is that prompt |
| Memory.NewManagerMessages | llms/models.py:288-298 | a new manager's memory is exactly one system message carrying the fixed instruction, so a system prompt is always included |
| Controls.Aim | counter_strike/controls.py:5-8 | one mouse move per movement, in list order, carrying its coordinates |
| Controls.AimRoundTrip | counter_strike/controls.py:5-8 | reading the moves back out of `aim`'s commands gives the movements |
| Controls.Shoot | counter_strike/controls.py:10-16 | five commands per pass of `range(clicks)`, each pass click, wait 200, click, wait 200, click; no passes for `clicks <= 0` |
| Controls.ShootCounts | counter_strike/controls.py:10-16 | `3 * clicks` clicks, `2 * clicks` waits of 200 ms, and nothing else |
| Controls.ShootShape | counter_strike/controls.py:11-16 | a non-empty volley starts and ends with a click and never has two waits in a row |
| Controls.ShootDefaults | counter_strike/controls.py:10 | the default three bursts give 9 clicks and 6 waits |
| ImageLogging.Join | counter_strike/image_logging.py:11 | `os.path.join`: an absolute part replaces the directory; otherwise the result is the directory, then one `/` unless the directory is empty or already ends with one, then the part |
| ImageLogging.JoinedAtUnique | counter_strike/image_logging.py:11 | that description of a joined path fixes every character of it |
| ImageLogging.FileNameRoundTrip | counter_strike/image_logging.py:23-27 | a file name reads back as a kind and stamp exactly when it is `screenshot_<ts>.jpg` or `screenshot_annotated_<ts>.jpg` of that stamp |
| ImageLogging.NewLogSettings | counter_strike/image_logging.py:5-15 | before any generation both getters return `None` |
| ImageLogging.SessionDirNamedByStamp | counter_strike/image_logging.py:10-11 | the session directory is the session stamp joined to the base path, with the separator rule of `os.path.join`, and its last component is the stamp |
| ImageLogging.GenerateNewPaths | counter_strike/image_logging.py:20-30 | the returned path is what `get_screenshot_path` returns afterwards, the annotated path is set too, and the session is unchanged |
| ImageLogging.GenerationKeepsConsistent | counter_strike/image_logging.py:5-30 | a new logger, and every logger after a generation, has both paths unset or naming the two images of one stamp inside the session directory |
| ImageLogging.GeneratedPathsShareStamp | counter_strike/image_logging.py:21-28 | the screenshot and the annotated image carry the same stamp, and each is its file name joined to the session directory |
| ImageLogging.GenerationOverwrites | counter_strike/image_logging.py:20-30 | a new generation overwrites both current paths: only the last stamp matters |
| ImageLogging.DistinctStampsDistinctPaths | counter_strike/image_logging.py:21-24 | different stamps give different screenshot paths |
| Futures.Cancel | counter_strike/agent.py:58-59 | `cancel()` succeeds exactly on a call that is not running or finished, and then leaves it cancelled |
| Futures.Result | counter_strike/agent.py:62-64 | `result()` raises `CancelledError` for a cancelled call, and otherwise gives the call's outcome or a `TimeoutError` |
| Futures.Settled | counter_strike/agent.py:79-86 | leaving the executor's `with` block leaves the gameplay call done, with its outcome unchanged |
| Futures.CancelIdempotent | counter_strike/agent.py:58-59 | a second `cancel()` changes nothing |
| Futures.ResultAfterCancel | counter_strike/agent.py:58-67 | a cancelled call yields `CancelledError`, and one too late to cancel still yields its own outcome |
| Agent.NewAgentSettings | counter_strike/agent.py:17-37 | raises `ValueError` exactly for a side other than `CT` and `T`, keeps the key name, and the settings identify their side |
| Agent.SideSettings | counter_strike/agent.py:28-35 | CT gets team 2, skin 3 and the CT prompt; T gets team 1, skin 4 and the T prompt |
| Agent.SettingsInjective | counter_strike/agent.py:17-37 | equal settings come from equal sides |
| Agent.HandleGameplayResponse | counter_strike/agent.py:53-71 | with a point, the result is `(None, 0)`: a call not yet done is cancelled, and a finished one raises only an exception other than timeout or cancellation. Without a point, it gives the gameplay reply's tool calls or its exception. The gameplay future is touched exactly as `done()` then `cancel()` or the poll with a point, and one blocking `result()` without |
| Agent.ProcessModels | counter_strike/agent.py:74-86 | the aiming result is awaited and parsed before anything touches the gameplay future, the executor shuts down last, and an aiming exception escapes |
| Agent.FoundPointDiscardsGameplay | counter_strike/agent.py:57-64 | a found point gives no tool calls and zero gameplay time, whatever the gameplay future holds short of a loud failure |
| Agent.FoundPointIgnoresGameplay | counter_strike/agent.py:83-84 | with a found point, two gameplay futures that do not fail loudly give the same arbitration |
| Agent.MissingPointUsesGameplay | counter_strike/agent.py:65-71 | without a point, the tool calls are the third component of the gameplay reply, and its exception escapes |
| Agent.Choose | counter_strike/agent.py:123-139 | a point wins, then non-empty tool calls, then no action: exactly one branch applies |
| Agent.LabelTextsDistinct | counter_strike/agent.py:127-139 | the three returned strings tell the branches apart |
| Agent.DecideAndAct | counter_strike/agent.py:89-139 | a point gives aim-then-three-bursts and `Aim & Shoot`. Tool calls are dispatched with their exception escaping; otherwise `No Action`. No desktop command is issued without a point |
| Agent.Act | counter_strike/agent.py:102-111 | running the models.py dispatch loop yields exactly the decision `DecideAndAct` describes |
| Agent.IterationPhases | counter_strike/agent.py:152-163 | an iteration captures, arbitrates, and decides unless the arbitration raised |
| Agent.Iterate | counter_strike/agent.py:148-163 | one loop pass generates the new paths for the iteration's stamp and performs the iteration's phases, reporting the exception that ended it, if any |
| Agent.LoggerAt | counter_strike/agent.py:146-152 | the logger of a session keeps the session's stamp and directory, and its screenshot path is unset before the first iteration and the last iteration's screenshot after it |
| Agent.LoggerOverwritten | counter_strike/image_logging.py:20-30 | a generation leaves the logger determined by the session and the new stamp only |
| Agent.Advance | counter_strike/agent.py:148-163 | one more iteration is recorded as expected, the logger moves to its stamp, and the run stays complete exactly when the new iteration raised nothing |
| Agent.RunAgent | counter_strike/agent.py:141-167 | `range(iterations)` iterations in order, each as `IterationPhases` describes. All complete when nothing raises, and the first exception ends the run after the earlier iterations completed. The one logger keeps its session, and its current path is the last iteration's screenshot |

Some functions model source code but have no row of their own. The rows
of the members whose contracts state their properties cover them:

- `Aiming.Clean`, the strip chain of llms/models.py:231: `CleanCutsNoise`,
  `CleanOrder`, `CleanUnfences` and `TextDecodesCleaned`.
- `Aiming.DecodedData` and `Aiming.TryParse`, the `try` body of
  llms/models.py:230-246: `ParsePointJson`, `DataSkipsDecoding` and
  `TextDecodesCleaned`.
- `Aiming.PointOf`, llms/models.py:236-246: `ParsePointJson`, through the
  independent `Denotes`, and `MissingCoordinateGivesNone`.
- `ImageLogging.FileName`, counter_strike/image_logging.py:23 and 27:
  `FileNameRoundTrip` and `DistinctStampsDistinctPaths`.
- `ImageLogging.GetScreenshotPath` and `ImageLogging.GetAnnotatedPath`,
  counter_strike/image_logging.py:32-36: `NewLogSettings`, `GenerateNewPaths`
  and `Agent.LoggerAt`.
- `Tools.Record`, the record of llm.py:105-110: `HandleToolCalls`.
- `Futures.Done`, counter_strike/agent.py:58: `Futures.Result`, `Futures.Settled` and
  `Agent.HandleGameplayResponse`.
- `Agent.LabelText`, the strings of agent.py:127, 134 and 139:
  `LabelTextsDistinct` and `DecideAndAct`.

## Left out

- Network calls: every `complete` method, the OpenAI, OpenRouter and Groq clients, and environment lookups. The outcome of each model call is an input (a `Future`).
- JSON decoding itself. `json.loads` is a parameter (`Json.Decoder`); only the cleaning before it and the checks after it are modelled.
- Threads, real cancellation and `perf_counter`. The futures are abstract states, and elapsed times are the given waiting times.
- Screenshots, `draw_point`, `get_screenshot_message`, image compression and `os.makedirs` are I/O. The clock readings are parameters, and failures of these steps are not modelled.
- `get_mouse_movements` and `draw_point` are imported by counter_strike/agent.py but not defined in the source. The planner is a parameter (`Env.plan`).
- `OpenRouterGameplayModel` is not part of this model. Its reply is reduced to its third component, the tool calls. Its `_handle_tool_calls` is taken to be the one of llms/models.py.
- Python's `str()` of a list of tool-call objects, used in the `Tool Calls: …` label, is a parameter (`Env.render`).
- The prompt texts of counter_strike/prompts.py are names only (`AimingPrompt`).
- The `wait_on_start` argument of `AgentSettings` is accepted and never stored, so nothing of it is modelled.
- The `print` calls and logging output.
- Tool side effects and changing tool behaviour. A tool (`Tools.Tool`) is a pure function of its arguments, fixed for the whole run. The real tools act on the desktop, and one could succeed on a call and then raise on an equal later call, in the same reply or a later iteration. The model cannot represent such a tool, so `RunAgent`'s "the first exception ends the run" covers only runs whose tools answer equal calls alike.
- The `system_message` argument of `AimingModel.__init__`, a prompt dict stored unchanged and only sent by `complete`, is not modelled.
- The default `open_router_api_key_name` of `AgentSettings` is not a separate constant: the key name is a parameter of `NewAgentSettings`, and any name is kept.
- The `llm.py` constructor, which refers to undefined names. `_handle_tool_calls` takes the tools map as a parameter instead.
- PyInt.ParseInt: accepts ASCII digits only. Python's `int()` also accepts other Unicode decimal digits, and limits conversions to 4300 digits.
- ImageLogging.GeneratedPathsShareStamp: assumes the stamp has the `%Y%m%d_%H%M%S` shape (`IsStamp`), which `datetime.now().strftime` gives for four-digit years.
- ImageLogging.GenerationKeepsConsistent: assumes the stamp has the `%Y%m%d_%H%M%S` shape (`IsStamp`), as above.
