/**
 * ai_engine/app.py: process_prompt and the process globals it keeps between
 * requests (the conversation history, the area cache with its timestamp and
 * the last entities acted upon). Everything process_prompt fetches from
 * outside the process arrives in a World value; the language model, the
 * search, numexpr, json.loads and difflib are function-typed parts of it.
 */
module App {
  import opened Wrappers
  import opened Strings
  import opened Json
  import opened Utils
  import opened HaHelpers
  import opened ToolHelpers

  // ---------------------------------------------------------------------
  // Constants and values
  // ---------------------------------------------------------------------

  /** MAX_HISTORY */
  const MaxHistory: nat := 10

  /** AREA_CACHE_EXPIRATION, in seconds */
  const AreaCacheExpiration: int := 300

  const EmptyPrompt := "Error: Prompt cannot be empty."
  const NoDeviceList := "Error: Could not get device list."
  const Unexpected := "An unexpected error occurred: "
  const CommandFailed := "failed to execute a command due to: "
  const NothingDone := "I wasn't able to complete that request."

  /** One entry of CONVERSATION_HISTORY. */
  datatype Turn = Turn(role: string, content: string)

  /** LAST_ENTITY_CONTEXT once it has been set: the ids acted upon and when. */
  datatype EntityContext = EntityContext(entityIds: seq<Value>, timestamp: int)

  /** The globals as one value. */
  datatype Globals = Globals(history: seq<Turn>, areaCache: Value, lastCacheUpdate: int,
                             context: Option<EntityContext>)

  /** The environment: CUSTOM_MODEL, DEFAULT_MODEL and whether HA_API_TOKEN is set. */
  datatype Config = Config(customModel: string, defaultModel: string, hasToken: bool)

  /** What one call of process_prompt reads from outside the process. */
  datatype World = World(
    states: seq<State>,                                // get_ha_states()
    now: int,                                          // time.time() at the cache check
    finished: int,                                     // time.time() when the context is recorded
    areaData: Value,                                   // get_ha_area_data()
    memories: string,                                  // retrieve_memories(prompt)
    parse: string -> Option<Value>,                    // json.loads
    closeMatch: (string, seq<string>) -> Option<string>, // difflib.get_close_matches(n=1, cutoff=0.6)
    search: Value -> Search,                           // the DuckDuckGo search
    evaluate: string -> Result<string>,                // numexpr.evaluate(...).item() and str()
    ollama: (Prompt, string) -> OllamaReply,           // call_ollama(prompt, model)
    listing: set<string> -> seq<string>)               // the iteration order of a Python set

  // ---------------------------------------------------------------------
  // History
  // ---------------------------------------------------------------------

  /** Append a turn, then keep only the last MaxHistory turns. */
  function Remember(history: seq<Turn>, turn: Turn): (r: seq<Turn>)
    ensures |r| == if |history| + 1 > MaxHistory then MaxHistory else |history| + 1
    ensures r[|r| - 1] == turn
    ensures exists k :: 0 <= k <= |history| && r == (history + [turn])[k..]
  {
    var h := history + [turn];
    if |h| > MaxHistory then
      assert h == (history + [turn])[0..];
      h[|h| - MaxHistory..]
    else
      assert h == (history + [turn])[0..];
      h
  }

  // ---------------------------------------------------------------------
  // The entity map
  // ---------------------------------------------------------------------

  /** The friendly name stored for an id: the first entry with that id. */
  function NameOf(entities: EntityMap, id: string): (r: Option<string>)
    ensures r.Some? <==> id in Ids(entities)
  {
    if entities == [] then None
    else
      assert Ids(entities) == [entities[0].0] + Ids(entities[1..]);
      if entities[0].0 == id then Some(entities[0].1) else NameOf(entities[1..], id)
  }

  /** all_entities[id] = name: an existing id keeps its place and takes the new name; a new id goes last. */
  function Put(entities: EntityMap, id: string, name: string): EntityMap {
    if entities == [] then [(id, name)]
    else if entities[0].0 == id then [(id, name)] + entities[1..]
    else [entities[0]] + Put(entities[1..], id, name)
  }

  /** all_entities[id] = name: an existing id keeps its place and takes the new name, a new id goes
      last, and every other id keeps its name. */
  lemma {:induction false} PutFacts(entities: EntityMap, id: string, name: string)
    ensures var r := Put(entities, id, name);
            && Ids(r) == (if id in Ids(entities) then Ids(entities) else Ids(entities) + [id])
            && NameOf(r, id) == Some(name)
            && forall k :: k != id ==> NameOf(r, k) == NameOf(entities, k)
    decreases |entities|
  {
    var r := Put(entities, id, name);
    if entities == [] {
      assert Ids([(id, name)]) == [id];
    } else {
      assert Ids(entities) == [entities[0].0] + Ids(entities[1..]);
      assert r[1..] == (if entities[0].0 == id then entities[1..] else Put(entities[1..], id, name));
      assert Ids(r) == [r[0].0] + Ids(r[1..]);
      if entities[0].0 != id {
        PutFacts(entities[1..], id, name);
        forall k | k != id ensures NameOf(r, k) == NameOf(entities, k) {
          if k != entities[0].0 {
            assert NameOf(r, k) == NameOf(r[1..], k);
          }
        }
      }
    }
  }

  /** s["attributes"].get("friendly_name", s["entity_id"]), as the text the f-strings print. */
  function StateName(s: State): (r: string)
    ensures Lookup(s.attributes, "friendly_name").None? ==> r == s.entityId
    ensures Lookup(s.attributes, "friendly_name").Some? && Lookup(s.attributes, "friendly_name").value.Str? ==>
              r == Lookup(s.attributes, "friendly_name").value.s
  {
    match Lookup(s.attributes, "friendly_name")
    case Some(v) => PyStr(v)
    case None => s.entityId
  }

  /** all_entities: the dict comprehension over the snapshot, in snapshot order. */
  function AllEntities(states: seq<State>): EntityMap
    decreases |states|
  {
    if states == [] then []
    else
      var n := |states| - 1;
      Put(AllEntities(states[..n]), states[n].entityId, StateName(states[n]))
  }

  /** Reference reading of the comprehension: the name given by the last state with the id. */
  function LastName(states: seq<State>, id: string): (r: Option<string>)
    ensures r.Some? <==> exists k :: 0 <= k < |states| && states[k].entityId == id
    decreases |states|
  {
    if states == [] then None
    else
      var n := |states| - 1;
      if states[n].entityId == id then Some(StateName(states[n]))
      else
        var r := LastName(states[..n], id);
        assert forall k :: 0 <= k < n ==> states[..n][k] == states[k];
        r
  }

  /** The map built in snapshot order gives every id the name of its last state, and holds no other id. */
  lemma AllEntitiesNames(states: seq<State>, id: string)
    ensures NameOf(AllEntities(states), id) == LastName(states, id)
    ensures id in Ids(AllEntities(states)) <==> exists k :: 0 <= k < |states| && states[k].entityId == id
  {
    AllEntitiesLastName(states, id);
  }

  lemma {:induction false} AllEntitiesLastName(states: seq<State>, id: string)
    ensures NameOf(AllEntities(states), id) == LastName(states, id)
    decreases |states|
  {
    if states != [] {
      var n := |states| - 1;
      var prev := AllEntities(states[..n]);
      var s := states[n];
      AllEntitiesLastName(states[..n], id);
      PutFacts(prev, s.entityId, StateName(s));
      assert AllEntities(states) == Put(prev, s.entityId, StateName(s));
    }
  }

  /** all_entities.get(id, id) */
  function FriendlyName(entities: EntityMap, id: string): string {
    match NameOf(entities, id)
    case Some(name) => name
    case None => id
  }

  // ---------------------------------------------------------------------
  // One command
  // ---------------------------------------------------------------------

  /** What one pass of the loop leaves behind: the value of `action` if the pass
      assigned it, the entity ids it recorded as acted upon, and a success or a
      failure clause. */
  datatype Step = Step(action: Option<Value>, acted: seq<Value>, outcome: Result<string>)

  function Failed(message: string): Result<string> {
    Err(CommandFailed + message)
  }

  /** The entity id the task acts on: the model's own one if it is a known id,
      else the matcher's correction; Err holds the failure clause. */
  function Resolve(entityId: Value, prompt: string, entities: EntityMap,
                   closeMatch: (string, seq<string>) -> Option<string>): (r: Result<string>)
    ensures entityId.Str? && entityId.s in Ids(entities) ==> r == Ok(entityId.s)
    ensures entityId.Arr? || entityId.Obj? ==> r == Failed("unhashable type: '" + TypeName(entityId) + "'")
  {
    if entityId.Arr? || entityId.Obj? then Failed("unhashable type: '" + TypeName(entityId) + "'")
    else if entityId.Str? && entityId.s in Ids(entities) then Ok(entityId.s)
    else if Truthy(entityId) && !entityId.Str? then Failed("'" + TypeName(entityId) + "' object is not iterable")
    else
      var m := BestEntity(prompt, entities, CorrectionTarget(entityId), closeMatch);
      if m.id.Some? && m.id.value != "" then Ok(m.id.value)
      else Err("could not find a matching device for '" + PyStr(entityId) + "'")
  }

  /**
   * The other outcomes: a truthy number or bool reaches difflib, which cannot
   * iterate it; a string that is not a key, or a falsy scalar, is handed to the
   * matcher, and its non-empty id is taken, else the device is reported missing.
   */
  lemma ResolveOutcomes(entityId: Value, prompt: string, entities: EntityMap,
                        closeMatch: (string, seq<string>) -> Option<string>)
    ensures var r := Resolve(entityId, prompt, entities, closeMatch);
            && (!entityId.Str? && !entityId.Arr? && !entityId.Obj? && Truthy(entityId) ==>
                  r == Failed("'" + TypeName(entityId) + "' object is not iterable"))
            && (!entityId.Arr? && !entityId.Obj? && !(entityId.Str? && entityId.s in Ids(entities)) &&
                (entityId.Str? || !Truthy(entityId)) ==>
                  var m := BestEntity(prompt, entities, CorrectionTarget(entityId), closeMatch);
                  && (m.id.Some? && m.id.value != "" ==> r == Ok(m.id.value))
                  && (m.id.None? || m.id.value == "" ==>
                        r == Err("could not find a matching device for '" + PyStr(entityId) + "'")))
  {
    var r := Resolve(entityId, prompt, entities, closeMatch);
    if !entityId.Str? && !entityId.Arr? && !entityId.Obj? && Truthy(entityId) {
      assert r == Failed("'" + TypeName(entityId) + "' object is not iterable");
    } else if !entityId.Arr? && !entityId.Obj? && !(entityId.Str? && entityId.s in Ids(entities)) &&
              (entityId.Str? || !Truthy(entityId)) {
      var m := BestEntity(prompt, entities, CorrectionTarget(entityId), closeMatch);
      assert r == (if m.id.Some? && m.id.value != "" then Ok(m.id.value)
                   else Err("could not find a matching device for '" + PyStr(entityId) + "'"));
    }
  }

  /** The target_text find_best_matching_entity receives; "" stands for a falsy one, which selects extraction mode. */
  function CorrectionTarget(entityId: Value): string {
    if entityId.Str? then entityId.s else ""
  }

  /** When difflib answers with one of the candidates it was given, a resolved id is a key of all_entities. */
  lemma ResolvedIsKey(entityId: Value, prompt: string, entities: EntityMap,
                      closeMatch: (string, seq<string>) -> Option<string>)
    requires PicksCandidate(closeMatch, CorrectionTarget(entityId), Candidates(entities))
    ensures Resolve(entityId, prompt, entities, closeMatch).Ok? ==>
              Resolve(entityId, prompt, entities, closeMatch).value in Ids(entities)
  {
    BestEntityIsKey(prompt, entities, CorrectionTarget(entityId), closeMatch);
  }

  /** The ids expand_ha_groups returns, as the list the payload carries. */
  function IdList(ids: seq<string>): Value {
    Arr(seq(|ids|, i requires 0 <= i < |ids| => Str(ids[i])))
  }

  /** "executed <action> on the <name>": the part of the service after its last dot, underscores read as spaces. */
  function Executed(service: string, name: string): string {
    "executed " + ReplaceChar(AfterLast(service, '.'), '_', ' ') + " on the " + name
  }

  /** The execute_task branch once the service is known to be truthy. */
  function TaskOutcome(command: Value, entityId: Value, service: Value, prompt: string,
                       entities: EntityMap, hasToken: bool, w: World): Result<string>
    requires command.Obj?
  {
    match Resolve(entityId, prompt, entities, w.closeMatch)
    case Err(clause) => Err(clause)
    case Ok(id) =>
      match Expand(Str(id), w.states, MaxDepth)
      case Err(e) => Failed(e)
      case Ok(expanded) =>
        Reported(service, FriendlyName(entities, id),
                 CallHomeAssistantApi(hasToken, service, IdList(w.listing(expanded)), Get(command, "parameters")))
  }

  /** The clause once the service has been called: whatever the call returned, unless it raised. */
  function Reported(service: Value, name: string, call: ApiOutcome): Result<string> {
    match call
    case Raised(e) => Failed(e)
    case _ =>
      if !service.Str? then Failed("'" + TypeName(service) + "' object has no attribute 'split'")
      else Ok(Executed(service.s, name))
  }

  /** One pass of the command loop. */
  function Command(command: Value, prompt: string, model: string, entities: EntityMap,
                   hasToken: bool, w: World): Step
  {
    if !command.Obj? then Step(None, [], Failed("'" + TypeName(command) + "' object has no attribute 'get'"))
    else
      var action := Get(command, "action");
      if !Truthy(action) then Step(Some(action), [], Failed("Action not found in command."))
      else if action == Str("web_search") then
        var query := Get(command, "query");
        if !Truthy(query) then Step(Some(action), [], Failed("Web search action requires a query."))
        else Step(Some(action), [], Ok(HandleWebSearch(query, model, w.search, w.ollama)))
      else if action == Str("calculator") then
        var expression := Get(command, "expression");
        if !Truthy(expression) then Step(Some(action), [], Failed("Calculator action requires an expression."))
        else
          match w.ollama(CalculatorRequest(prompt, PerformCalculation(expression, w.evaluate)), model)
          case Failure(e) => Step(Some(action), [], Failed(e))
          case Answer(text) => Step(Some(action), [], Ok(Strip(text)))
      else if action == Str("execute_task") then
        var entityId := Get(command, "entity_id");
        var service := Get(command, "service");
        if !Truthy(service) then Step(Some(action), [], Failed("Service not found in command."))
        else
          Step(Some(action), if Truthy(entityId) then [entityId] else [],
               TaskOutcome(command, entityId, service, prompt, entities, hasToken, w))
      else Step(Some(action), [], Failed("Unknown action '" + PyStr(action) + "' in command."))
  }

  /** The model's own entity id is recorded as acted upon whenever the task gets past the
      service check, whether or not it then resolves. */
  lemma ActedBeforeResolving(command: Value, prompt: string, model: string, entities: EntityMap,
                             hasToken: bool, w: World)
    requires command.Obj? && Get(command, "action") == Str("execute_task")
    requires Truthy(Get(command, "service")) && Truthy(Get(command, "entity_id"))
    ensures Command(command, prompt, model, entities, hasToken, w).acted == [Get(command, "entity_id")]
  {
  }

  /** A task whose unknown id no correction can resolve fails with the device clause and no request. */
  lemma UnresolvedDevice(command: Value, prompt: string, model: string, entities: EntityMap,
                         hasToken: bool, w: World)
    requires command.Obj? && Get(command, "action") == Str("execute_task")
    requires Truthy(Get(command, "service"))
    requires Get(command, "entity_id").Str? && Get(command, "entity_id").s !in Ids(entities)
    requires BestEntity(prompt, entities, Get(command, "entity_id").s, w.closeMatch).id.None?
    ensures Command(command, prompt, model, entities, hasToken, w).outcome ==
              Err("could not find a matching device for '" + Get(command, "entity_id").s + "'")
  {
  }

  /** A task on a known id whose service passes the checks reports the friendly name, whatever
      the request then returns. */
  lemma KnownEntityExecuted(command: Value, prompt: string, model: string, entities: EntityMap,
                            hasToken: bool, w: World, id: string, service: string)
    requires command.Obj? && Get(command, "action") == Str("execute_task")
    requires Get(command, "entity_id") == Str(id) && id in Ids(entities) && id != ""
    requires Get(command, "service") == Str(service) && service != ""
    requires Expand(Str(id), w.states, MaxDepth).Ok?
    requires !CallHomeAssistantApi(hasToken, Str(service), IdList(w.listing(Expand(Str(id), w.states, MaxDepth).value)),
                                   Get(command, "parameters")).Raised?
    ensures Command(command, prompt, model, entities, hasToken, w) ==
              Step(Some(Str("execute_task")), [Str(id)], Ok(Executed(service, FriendlyName(entities, id))))
  {
  }

  // ---------------------------------------------------------------------
  // The loop and the summary
  // ---------------------------------------------------------------------

  /** The loop's running state: the last value of `action`, and the three lists. */
  datatype Tally = Tally(action: Option<Value>, successes: seq<string>, failures: seq<string>, acted: seq<Value>)

  /** Add one pass to the tally. */
  function Record(t: Tally, s: Step): Tally {
    Tally(if s.action.Some? then s.action else t.action,
          if s.outcome.Ok? then t.successes + [s.outcome.value] else t.successes,
          if s.outcome.Err? then t.failures + [s.outcome.error] else t.failures,
          t.acted + s.acted)
  }

  /** The loop over the commands, in order. */
  function RunAll(commands: seq<Value>, prompt: string, model: string, entities: EntityMap,
                  hasToken: bool, w: World): Tally
    decreases |commands|
  {
    if commands == [] then Tally(None, [], [], [])
    else
      var n := |commands| - 1;
      Record(RunAll(commands[..n], prompt, model, entities, hasToken, w),
             Command(commands[n], prompt, model, entities, hasToken, w))
  }

  /** The loop never stops early: every command leaves exactly one clause, a success or a failure. */
  lemma {:induction false} EveryCommandAccounted(commands: seq<Value>, prompt: string, model: string,
                                                 entities: EntityMap, hasToken: bool, w: World)
    ensures var t := RunAll(commands, prompt, model, entities, hasToken, w);
            |t.successes| + |t.failures| == |commands|
    decreases |commands|
  {
    if commands != [] {
      EveryCommandAccounted(commands[..|commands| - 1], prompt, model, entities, hasToken, w);
    }
  }

  /** The tool action that hands back its own answer. */
  predicate AnswersItself(action: Option<Value>) {
    action == Some(Str("web_search")) || action == Some(Str("calculator"))
  }

  /** The final summary message. */
  function Summary(t: Tally): (r: string)
    ensures r != ""
  {
    var message :=
      if |t.successes| == 1 && AnswersItself(t.action) then t.successes[0]
      else
        (if t.successes != [] then "Okay, I've " + Join(", and ", t.successes) + "." else "")
        + (if t.failures != [] then " However, I " + Join(", and ", t.failures) + "." else "");
    if message == "" then NothingDone else message
  }

  /** Failures alone give a summary that starts with a space, then "However, I ". */
  lemma OnlyFailures(t: Tally)
    requires t.successes == [] && t.failures != []
    ensures Summary(t) == " However, I " + Join(", and ", t.failures) + "."
    ensures Summary(t)[..12] == " However, I "
  {
    assert "" + " However, I " + Join(", and ", t.failures) + "." == " However, I " + Join(", and ", t.failures) + ".";
  }

  /** Successes, with or without failures, read "Okay, I've ..." unless a single tool answer stands alone. */
  lemma WithSuccesses(t: Tally)
    requires t.successes != [] && !(|t.successes| == 1 && AnswersItself(t.action))
    ensures Summary(t) == "Okay, I've " + Join(", and ", t.successes) + "."
                          + (if t.failures != [] then " However, I " + Join(", and ", t.failures) + "." else "")
  {
  }

  /** A lone success returned by a tool action; any failures beside it are not reported. */
  lemma ToolAnswerStandsAlone(t: Tally)
    requires |t.successes| == 1 && AnswersItself(t.action) && t.successes[0] != ""
    ensures Summary(t) == t.successes[0]
  {
  }

  /** With no clause at all, or a lone tool answer that is empty, the summary is the fixed apology; failures
      beside that empty answer are not reported. */
  lemma NoClausesApologises(t: Tally)
    requires (t.failures == [] && t.successes == []) ||
             (|t.successes| == 1 && AnswersItself(t.action) && t.successes[0] == "")
    ensures Summary(t) == NothingDone
  {
  }

  /** A search that answers, then a command that is not an object: the answer comes back alone and the
      failure is not reported, because the failed pass leaves `action` as it was. */
  lemma SearchThenMalformed(query: Value, bad: Value, prompt: string, model: string, entities: EntityMap,
                            hasToken: bool, w: World)
    requires Truthy(query) && !bad.Obj?
    requires HandleWebSearch(query, model, w.search, w.ollama) != ""
    ensures var command := Obj([("action", Str("web_search")), ("query", query)]);
            var t := RunAll([command, bad], prompt, model, entities, hasToken, w);
            |t.failures| == 1 && Summary(t) == HandleWebSearch(query, model, w.search, w.ollama)
  {
    var command := Obj([("action", Str("web_search")), ("query", query)]);
    assert Get(command, "query") == query by {
      assert "action" != "query" by { assert "action"[0] != "query"[0]; }
      assert Lookup(command.fields, "query") == Lookup(command.fields[1..], "query");
    }
    var first := Command(command, prompt, model, entities, hasToken, w);
    assert first == Step(Some(Str("web_search")), [], Ok(HandleWebSearch(query, model, w.search, w.ollama)));
    RunAllSnoc([], command, prompt, model, entities, hasToken, w);
    RunAllSnoc([command], bad, prompt, model, entities, hasToken, w);
    assert [] + [command] == [command];
    assert [command] + [bad] == [command, bad];
  }

  /** One more command adds its pass to the tally of those before it. */
  lemma RunAllSnoc(commands: seq<Value>, c: Value, prompt: string, model: string, entities: EntityMap,
                   hasToken: bool, w: World)
    ensures RunAll(commands + [c], prompt, model, entities, hasToken, w) ==
              Record(RunAll(commands, prompt, model, entities, hasToken, w),
                     Command(c, prompt, model, entities, hasToken, w))
  {
    assert (commands + [c])[..|commands|] == commands;
  }

  // ---------------------------------------------------------------------
  // The cycle
  // ---------------------------------------------------------------------

  /** model_override or CUSTOM_MODEL or DEFAULT_MODEL: the first non-empty choice, else the default. */
  function ModelToUse(modelOverride: string, config: Config): (r: string)
    ensures r in [modelOverride, config.customModel, config.defaultModel]
    ensures r == "" <==> modelOverride == "" && config.customModel == "" && config.defaultModel == ""
    ensures r != modelOverride ==> modelOverride == ""
    ensures r != modelOverride && r != config.customModel ==> config.customModel == ""
  {
    if modelOverride != "" then modelOverride
    else if config.customModel != "" then config.customModel
    else config.defaultModel
  }

  /** The area cache is refetched when it is empty or older than the expiry. */
  predicate Stale(g: Globals, now: int) {
    !Truthy(g.areaCache) || now - g.lastCacheUpdate > AreaCacheExpiration
  }

  /** The cache after the check. */
  function Refreshed(g: Globals, w: World): Globals {
    if Stale(g, w.now) then g.(areaCache := w.areaData, lastCacheUpdate := w.now) else g
  }

  /** The commands once the model has planned them. */
  function Dispatched(g: Globals, prompt: string, model: string, commands: seq<Value>, config: Config,
                      w: World): (string, Globals)
  {
    var t := RunAll(commands, prompt, model, AllEntities(w.states), config.hasToken, w);
    var g2 := if t.acted != [] then g.(context := Some(EntityContext(t.acted, w.finished))) else g;
    var reply := Summary(t);
    (reply, g2.(history := g2.history + [Turn("assistant", reply)]))
  }

  /** One call of process_prompt: its reply and the globals afterwards. */
  function Cycle(g: Globals, config: Config, prompt: string, modelOverride: string, w: World): (string, Globals) {
    if IsBlank(prompt) then (EmptyPrompt, g)
    else Checked(g.(history := Remember(g.history, Turn("user", prompt))), config, prompt,
                 ModelToUse(modelOverride, config), w)
  }

  /** After the user's turn is recorded: the device check and the cache. */
  function Checked(g: Globals, config: Config, prompt: string, model: string, w: World): (string, Globals) {
    if w.states == [] then (NoDeviceList, g)
    else Planned(Refreshed(g, w), config, prompt, model, w)
  }

  /** The planning call: the prompt with the entity map, the (refreshed) area cache and the memories. */
  function PlanReply(g: Globals, prompt: string, model: string, w: World): OllamaReply {
    w.ollama(ToolRequest(prompt, AllEntities(w.states), g.areaCache, w.memories), model)
  }

  /** After the cache check: the model's plan, answered directly when it holds no command. */
  function Planned(g: Globals, config: Config, prompt: string, model: string, w: World): (string, Globals) {
    match PlanReply(g, prompt, model, w)
    case Failure(e) => (Unexpected + e, g)
    case Answer(text) =>
      var commands := ExtractJsonCommands(text, w.parse);
      if commands == [] then
        match w.ollama(DirectRequest(prompt), model)
        case Failure(e) => (Unexpected + e, g)
        case Answer(answer) => (answer, g)
      else Dispatched(g, prompt, model, commands, config, w)
  }

  /** A blank prompt is refused and nothing changes. */
  lemma BlankPromptChangesNothing(g: Globals, config: Config, prompt: string, modelOverride: string, w: World)
    requires IsBlank(prompt)
    ensures Cycle(g, config, prompt, modelOverride, w) == (EmptyPrompt, g)
  {
  }

  /** The history holds at most MaxHistory + 1 turns between calls: the user's turn goes in with the cut,
      the assistant's after it without. */
  lemma HistoryBounded(g: Globals, config: Config, prompt: string, modelOverride: string, w: World)
    requires |g.history| <= MaxHistory + 1
    ensures |Cycle(g, config, prompt, modelOverride, w).1.history| <= MaxHistory + 1
  {
    if !IsBlank(prompt) {
      UserTurnRecorded(g, config, prompt, modelOverride, w);
    }
  }

  /** Otherwise the user's turn is recorded, last or just before the assistant's reply. */
  lemma UserTurnRecorded(g: Globals, config: Config, prompt: string, modelOverride: string, w: World)
    requires !IsBlank(prompt)
    ensures var (reply, g') := Cycle(g, config, prompt, modelOverride, w);
            var recorded := Remember(g.history, Turn("user", prompt));
            g'.history == recorded || g'.history == recorded + [Turn("assistant", reply)]
  {
    var g1 := g.(history := Remember(g.history, Turn("user", prompt)));
    if w.states != [] {
      PlannedEffect(Refreshed(g1, w), config, prompt, ModelToUse(modelOverride, config), w);
    }
  }

  /** Without states the user's turn is kept and nothing else changes. */
  lemma NoStatesRecordsOnlyTheTurn(g: Globals, config: Config, prompt: string, modelOverride: string, w: World)
    requires !IsBlank(prompt) && w.states == []
    ensures Cycle(g, config, prompt, modelOverride, w) ==
              (NoDeviceList, g.(history := Remember(g.history, Turn("user", prompt))))
  {
  }

  /** Past the device check the cache is refetched exactly when it is stale, and its timestamp moves with it. */
  lemma CacheRefreshedIffStale(g: Globals, config: Config, prompt: string, modelOverride: string, w: World)
    requires !IsBlank(prompt) && w.states != []
    ensures var g' := Cycle(g, config, prompt, modelOverride, w).1;
            g'.areaCache == (if Stale(g, w.now) then w.areaData else g.areaCache) &&
            g'.lastCacheUpdate == (if Stale(g, w.now) then w.now else g.lastCacheUpdate)
  {
    var g1 := g.(history := Remember(g.history, Turn("user", prompt)));
    PlannedEffect(Refreshed(g1, w), config, prompt, ModelToUse(modelOverride, config), w);
  }

  /** After the cache check only the history and the entity context can change: the history by the
      assistant's reply at most. */
  lemma PlannedEffect(g: Globals, config: Config, prompt: string, model: string, w: World)
    ensures var (reply, g') := Planned(g, config, prompt, model, w);
            && g'.areaCache == g.areaCache && g'.lastCacheUpdate == g.lastCacheUpdate
            && (g'.history == g.history || g'.history == g.history + [Turn("assistant", reply)])
  {
    match PlanReply(g, prompt, model, w)
    case Failure(_) =>
    case Answer(text) =>
      var commands := ExtractJsonCommands(text, w.parse);
      if commands != [] {
        DispatchedEffect(g, prompt, model, commands, config, w);
      }
  }

  /** Running the commands answers with the summary, appends it as the assistant's turn and records
      the acted entities, if any, as the context. */
  lemma DispatchedEffect(g: Globals, prompt: string, model: string, commands: seq<Value>, config: Config, w: World)
    ensures var (reply, g') := Dispatched(g, prompt, model, commands, config, w);
            var t := RunAll(commands, prompt, model, AllEntities(w.states), config.hasToken, w);
            && reply == Summary(t)
            && g' == Globals(g.history + [Turn("assistant", reply)], g.areaCache, g.lastCacheUpdate,
                             if t.acted != [] then Some(EntityContext(t.acted, w.finished)) else g.context)
  {
  }

  /** With no commands planned, the direct answer comes back as it is and no assistant turn is added. */
  lemma DirectAnswer(g: Globals, config: Config, prompt: string, modelOverride: string, w: World, answer: string)
    requires !IsBlank(prompt) && w.states != []
    requires var model := ModelToUse(modelOverride, config);
             var plan := PlanReply(Refreshed(g, w), prompt, model, w);
             plan.Answer? && ExtractJsonCommands(plan.text, w.parse) == [] &&
             w.ollama(DirectRequest(prompt), model) == Answer(answer)
    ensures Cycle(g, config, prompt, modelOverride, w) ==
              (answer, Refreshed(g.(history := Remember(g.history, Turn("user", prompt))), w))
  {
  }

  /** A planning call that raises gives the unexpected-error reply; the user's turn and the cache are kept. */
  lemma PlanFailure(g: Globals, config: Config, prompt: string, modelOverride: string, w: World, e: string)
    requires !IsBlank(prompt) && w.states != []
    requires PlanReply(Refreshed(g, w), prompt, ModelToUse(modelOverride, config), w) == Failure(e)
    ensures Cycle(g, config, prompt, modelOverride, w) ==
              (Unexpected + e, Refreshed(g.(history := Remember(g.history, Turn("user", prompt))), w))
  {
  }

  /** So does a direct-answer call that raises after a plan without commands. */
  lemma DirectFailure(g: Globals, config: Config, prompt: string, modelOverride: string, w: World, e: string)
    requires !IsBlank(prompt) && w.states != []
    requires var model := ModelToUse(modelOverride, config);
             var plan := PlanReply(Refreshed(g, w), prompt, model, w);
             plan.Answer? && ExtractJsonCommands(plan.text, w.parse) == [] &&
             w.ollama(DirectRequest(prompt), model) == Failure(e)
    ensures Cycle(g, config, prompt, modelOverride, w) ==
              (Unexpected + e, Refreshed(g.(history := Remember(g.history, Turn("user", prompt))), w))
  {
  }

  /** The entity context changes only when some command recorded an entity, and then holds exactly those. */
  lemma ContextOnlyWhenActed(g: Globals, config: Config, prompt: string, modelOverride: string, w: World)
    ensures var g' := Cycle(g, config, prompt, modelOverride, w).1;
            g'.context == g.context ||
            (!IsBlank(prompt) && w.states != [] &&
             var plan := PlanReply(Refreshed(g, w), prompt, ModelToUse(modelOverride, config), w);
             plan.Answer? &&
             var commands := ExtractJsonCommands(plan.text, w.parse);
             var t := RunAll(commands, prompt, ModelToUse(modelOverride, config), AllEntities(w.states),
                             config.hasToken, w);
             commands != [] && t.acted != [] && g'.context == Some(EntityContext(t.acted, w.finished)))
  {
    if !IsBlank(prompt) && w.states != [] {
      var model := ModelToUse(modelOverride, config);
      var g2 := Refreshed(g.(history := Remember(g.history, Turn("user", prompt))), w);
      assert g2.context == g.context;
      assert Cycle(g, config, prompt, modelOverride, w) == Planned(g2, config, prompt, model, w);
      var plan := PlanReply(g2, prompt, model, w);
      assert plan == PlanReply(Refreshed(g, w), prompt, model, w);
      if plan.Answer? && ExtractJsonCommands(plan.text, w.parse) != [] {
        DispatchedEffect(g2, prompt, model, ExtractJsonCommands(plan.text, w.parse), config, w);
      }
    }
  }

  // ---------------------------------------------------------------------
  // The process
  // ---------------------------------------------------------------------

  /** The process with its globals. */
  class Engine {
    var history: seq<Turn>
    var areaCache: Value
    var lastCacheUpdate: int
    var lastEntityContext: Option<EntityContext>
    const config: Config

    /** The globals as one value. */
    function Snapshot(): Globals
      reads this
    {
      Globals(history, areaCache, lastCacheUpdate, lastEntityContext)
    }

    predicate Valid()
      reads this
    {
      |history| <= MaxHistory + 1
    }

    /** The globals at start-up: no history, an empty cache stamped 0, no context. */
    constructor(config: Config)
      ensures Valid()
      ensures this.config == config
      ensures Snapshot() == Globals([], Obj([]), 0, None)
    {
      this.config := config;
      history := [];
      areaCache := Obj([]);
      lastCacheUpdate := 0;
      lastEntityContext := None;
    }

    /** process_prompt */
    method ProcessPrompt(prompt: string, modelOverride: string, w: World) returns (reply: string)
      requires Valid()
      modifies this
      ensures Valid()
      ensures (reply, Snapshot()) == Cycle(old(Snapshot()), config, prompt, modelOverride, w)
    {
      ghost var g0 := Snapshot();
      HistoryBounded(g0, config, prompt, modelOverride, w);
      if IsBlank(prompt) {
        return EmptyPrompt;
      }
      history := history + [Turn("user", prompt)];
      if |history| > MaxHistory {
        history := history[|history| - MaxHistory..];
      }
      ghost var g1 := Snapshot();
      assert g1 == g0.(history := Remember(g0.history, Turn("user", prompt)));
      var model := ModelToUse(modelOverride, config);
      assert Cycle(g0, config, prompt, modelOverride, w) == Checked(g1, config, prompt, model, w);
      if w.states == [] {
        return NoDeviceList;
      }
      if !Truthy(areaCache) || w.now - lastCacheUpdate > AreaCacheExpiration {
        areaCache := w.areaData;
        lastCacheUpdate := w.now;
      }
      assert Snapshot() == Refreshed(g1, w);
      reply := Plan(prompt, model, w);
    }

    /** The part of process_prompt after the cache check. */
    method Plan(prompt: string, model: string, w: World) returns (reply: string)
      modifies this
      ensures (reply, Snapshot()) == Planned(old(Snapshot()), config, prompt, model, w)
    {
      var ollamaResponse := w.ollama(ToolRequest(prompt, AllEntities(w.states), areaCache, w.memories), model);
      if ollamaResponse.Failure? {
        return Unexpected + ollamaResponse.message;
      }
      var commands := ExtractJsonCommands(ollamaResponse.text, w.parse);
      if commands == [] {
        var direct := w.ollama(DirectRequest(prompt), model);
        if direct.Failure? {
          return Unexpected + direct.message;
        }
        return direct.text;
      }
      reply := Dispatch(prompt, model, commands, w);
    }

    /** The part of process_prompt that runs the commands and answers with the summary. */
    method Dispatch(prompt: string, model: string, commands: seq<Value>, w: World) returns (reply: string)
      modifies this
      ensures (reply, Snapshot()) == Dispatched(old(Snapshot()), prompt, model, commands, config, w)
    {
      var allEntities := AllEntities(w.states);
      var t := RunCommands(commands, prompt, model, allEntities, config.hasToken, w);
      if t.acted != [] {
        lastEntityContext := Some(EntityContext(t.acted, w.finished));
      }
      reply := Summary(t);
      history := history + [Turn("assistant", reply)];
    }
  }

  /** The command loop as the source runs it: no pass stops it. */
  method RunCommands(commands: seq<Value>, prompt: string, model: string, entities: EntityMap,
                     hasToken: bool, w: World) returns (t: Tally)
    ensures t == RunAll(commands, prompt, model, entities, hasToken, w)
  {
    var action: Option<Value> := None;
    var successes: seq<string> := [];
    var failures: seq<string> := [];
    var acted: seq<Value> := [];
    for i := 0 to |commands|
      invariant Tally(action, successes, failures, acted) == RunAll(commands[..i], prompt, model, entities, hasToken, w)
    {
      assert commands[..i + 1][..i] == commands[..i];
      var step := RunCommand(commands[i], prompt, model, entities, hasToken, w);
      if step.action.Some? {
        action := step.action;
      }
      if step.outcome.Ok? {
        successes := successes + [step.outcome.value];
      } else {
        failures := failures + [step.outcome.error];
      }
      acted := acted + step.acted;
    }
    assert commands[..|commands|] == commands;
    t := Tally(action, successes, failures, acted);
  }

  /** The body of the command loop as the source runs it. */
  method RunCommand(command: Value, prompt: string, model: string, entities: EntityMap,
                    hasToken: bool, w: World) returns (step: Step)
    ensures step == Command(command, prompt, model, entities, hasToken, w)
  {
    if !command.Obj? {
      return Step(None, [], Failed("'" + TypeName(command) + "' object has no attribute 'get'"));
    }
    var action := Get(command, "action");
    if !Truthy(action) {
      return Step(Some(action), [], Failed("Action not found in command."));
    }
    if action == Str("web_search") {
      var query := Get(command, "query");
      if !Truthy(query) {
        return Step(Some(action), [], Failed("Web search action requires a query."));
      }
      return Step(Some(action), [], Ok(HandleWebSearch(query, model, w.search, w.ollama)));
    } else if action == Str("calculator") {
      var expression := Get(command, "expression");
      if !Truthy(expression) {
        return Step(Some(action), [], Failed("Calculator action requires an expression."));
      }
      var calcResult := PerformCalculation(expression, w.evaluate);
      var answer := w.ollama(CalculatorRequest(prompt, calcResult), model);
      if answer.Failure? {
        return Step(Some(action), [], Failed(answer.message));
      }
      return Step(Some(action), [], Ok(Strip(answer.text)));
    } else if action == Str("execute_task") {
      var entityId := Get(command, "entity_id");
      var service := Get(command, "service");
      if !Truthy(service) {
        return Step(Some(action), [], Failed("Service not found in command."));
      }
      var acted := if Truthy(entityId) then [entityId] else [];
      var outcome := ExecuteTask(command, entityId, service, prompt, entities, hasToken, w);
      return Step(Some(action), acted, outcome);
    }
    return Step(Some(action), [], Failed("Unknown action '" + PyStr(action) + "' in command."));
  }

  /** The membership test and, when it fails, the self-correction. */
  method ResolveEntity(entityId: Value, prompt: string, entities: EntityMap,
                       closeMatch: (string, seq<string>) -> Option<string>) returns (r: Result<string>)
    ensures r == Resolve(entityId, prompt, entities, closeMatch)
  {
    if entityId.Arr? || entityId.Obj? {
      return Failed("unhashable type: '" + TypeName(entityId) + "'");
    }
    if entityId.Str? && entityId.s in Ids(entities) {
      return Ok(entityId.s);
    }
    if Truthy(entityId) && !entityId.Str? {
      return Failed("'" + TypeName(entityId) + "' object is not iterable");
    }
    var target := CorrectionTarget(entityId);
    var corrected := FindBestMatchingEntity(prompt, entities, target, closeMatch);
    if corrected.id.None? || corrected.id.value == "" {
      return Err("could not find a matching device for '" + PyStr(entityId) + "'");
    }
    return Ok(corrected.id.value);
  }

  /** The execute_task branch past the service check: correction, group expansion, the call, the clause. */
  method ExecuteTask(command: Value, entityId: Value, service: Value, prompt: string, entities: EntityMap,
                     hasToken: bool, w: World) returns (outcome: Result<string>)
    requires command.Obj?
    ensures outcome == TaskOutcome(command, entityId, service, prompt, entities, hasToken, w)
  {
    var resolved := ResolveEntity(entityId, prompt, entities, w.closeMatch);
    if resolved.Err? {
      return Err(resolved.error);
    }
    var id := resolved.value;
    var expanded := ExpandHaGroups(Str(id), w.states, MaxDepth);
    if expanded.Err? {
      return Failed(expanded.error);
    }
    var call := CallHomeAssistantApi(hasToken, service, IdList(w.listing(expanded.value)), Get(command, "parameters"));
    assert TaskOutcome(command, entityId, service, prompt, entities, hasToken, w) ==
           Reported(service, FriendlyName(entities, id), call);
    if call.Raised? {
      return Failed(call.message);
    }
    if !service.Str? {
      return Failed("'" + TypeName(service) + "' object has no attribute 'split'");
    }
    return Ok(Executed(service.s, FriendlyName(entities, id)));
  }
}
