/** The agent: a conversation session (its turn log and the episode it
    saves), the table of active sessions, the routing of the model's tool
    calls, and what the streaming loop does with each response from the
    live model. The live model is represented by the sequence of responses
    it sends; the audio sent to it and the asynchronous tasks are not part
    of this model. */
module Agent {
  import opened Common
  import opened Ranking
  import opened MemoryModel
  import opened Database
  import opened ManageMemory

  /** One entry of `conversation_turns`. */
  datatype Turn = Turn(speaker: string, text: string, timestamp: int)

  /** The minutes `save_episode` records: `(now - started_at).seconds // 60`.
      `timedelta.seconds` is the seconds part below one day, so the count
      starts again every 24 hours (times are in whole seconds). */
  function DurationMinutes(startedAt: int, now: int): (m: int)
    ensures 0 <= m < 1440
    ensures 0 <= now - startedAt < 86400 ==> m == (now - startedAt) / 60
    ensures m == ((now - startedAt) % 86400) / 60
  {
    ((now - startedAt) % 86400) / 60
  }

  /** `list(some_set)`: the elements of a set, each once, in no fixed order. */
  method ListOf(s: set<string>) returns (r: seq<string>)
    ensures |r| == |s|
    ensures forall x :: x in r <==> x in s
  {
    r := [];
    var rest := s;
    while rest != {}
      invariant rest <= s
      invariant |r| + |rest| == |s|
      invariant forall x :: x in r <==> x in s && x !in rest
      decreases rest
    {
      var x :| x in rest;
      r := r + [x];
      rest := rest - {x};
    }
  }

  /** `EmpatIASession` */
  class Session {
    const userId: string
    const sessionId: string
    const startedAt: int
    var conversationTurns: seq<Turn>
    var keyTopics: set<string>

    /** `session_id or str(uuid.uuid4())`; `generatedId` is the fresh uuid. */
    constructor(userId: string, sessionId: Option<string>, generatedId: string, now: int)
      ensures this.userId == userId
      ensures this.sessionId == (if Truthy(sessionId) then sessionId.value else generatedId)
      ensures startedAt == now && conversationTurns == [] && keyTopics == {}
    {
      this.userId := userId;
      this.sessionId := if Truthy(sessionId) then sessionId.value else generatedId;
      startedAt := now;
      conversationTurns := [];
      keyTopics := {};
    }

    /** `add_turn` */
    method AddTurn(speaker: string, text: string, now: int)
      modifies this
      ensures conversationTurns == old(conversationTurns) + [Turn(speaker, text, now)]
      ensures keyTopics == old(keyTopics)
    {
      conversationTurns := conversationTurns + [Turn(speaker, text, now)];
    }

    /** `get_context`: the profile and the three most recent episodes. */
    method GetContext(store: MemoryStore) returns (profile: UserProfile, recent: seq<EpisodeSummary>)
      modifies store
      ensures (store.State(), profile) == MemoryModel.GetUserProfile(old(store.State()), userId)
      ensures recent == RecentEpisodes(store.State(), userId, 3)
    {
      profile := store.GetUserProfile(userId);
      recent := store.GetRecentEpisodes(userId, 3);
    }

    /** `save_episode`: one episode for this session, ended now. */
    method SaveEpisode(store: MemoryStore, summary: string, emotionalTone: string, now: int)
      modifies store
      ensures store.memories == old(store.memories)
      ensures store.profiles == EnsureUser(old(store.State()), userId, None).profiles
      ensures |store.episodes| == |old(store.episodes)| + 1
      ensures store.episodes[..|old(store.episodes)|] == old(store.episodes)
      ensures var e := store.episodes[|store.episodes| - 1];
        && e.userId == userId && e.sessionId == sessionId
        && e.summary == summary && e.emotionalTone == emotionalTone
        && e.startedAt == startedAt && e.endedAt == now
        && e.durationMinutes == DurationMinutes(startedAt, now)
        && |e.keyTopics| == |keyTopics| && (forall t :: t in e.keyTopics <==> t in keyTopics)
    {
      var duration := DurationMinutes(startedAt, now);
      var topics := ListOf(keyTopics);
      var _ := store.SaveEpisode(userId, sessionId, summary, topics, emotionalTone, startedAt, duration, None, now);
    }
  }

  // --------------------------------------------------------------- tool routing

  /** `GoogleSearchInput` */
  datatype GoogleSearchInput = GoogleSearchInput(query: string, numResults: Option<int>)

  /** `GoogleSearchInput(**fields)`: `query` required, `num_results` defaults
      to 5 and, when not null, lies in 1..10. */
  function ParseSearchInput(fields: map<string, Json>): (r: Result<GoogleSearchInput, ValidationError>)
    ensures r.Ok? <==>
      && "query" in fields && fields["query"].JStr?
      && ("num_results" in fields ==> fields["num_results"].JNull? || fields["num_results"].JInt?)
      && ("num_results" in fields && fields["num_results"].JInt? ==> 1 <= fields["num_results"].i <= 10)
    ensures r.Ok? ==> r.value.query == fields["query"].s
    ensures r.Ok? && "num_results" !in fields ==> r.value.numResults == Some(5)
  {
    match RequiredString(fields, "query")
    case Err(e) => Err(e)
    case Ok(q) =>
      match OptionalInt(fields, "num_results", Some(5))
      case Err(e) => Err(e)
      case Ok(n) =>
        if n.Some? && !(1 <= n.value <= 10) then Err(OutOfRange("num_results"))
        else Ok(GoogleSearchInput(q, n))
  }

  datatype SearchSource = SearchSource(title: string, uri: string)

  /** What the search tool answers; always carries a `success` key. */
  datatype SearchAnswer =
    | Grounded(query: string, result: string, sources: seq<SearchSource>)
    | SearchFailed(query: string, error: string)

  /** The arguments of a tool call: a dict, or some other value. */
  datatype ToolArgs = DictArgs(fields: map<string, Json>) | OtherArgs(value: Json)

  /** What `_execute_tool` answers. */
  datatype ToolResponse =
    | MemoryResponse(result: ToolResult)
    | SearchResponse(answer: SearchAnswer)
    /** `{"success": False, "error": "Parâmetros inválidos"}` */
    | InvalidParameters
    /** `{"success": False, "error": str(e)}` for a rejected argument set */
    | Raised(error: ValidationError)
    /** `{"error": "Tool desconhecida: <name>"}`, with no `success` key */
    | UnknownTool(name: string)
  {
    /** The `success` entry, if the answer has one. */
    function Success(): Option<bool> {
      match this
      case MemoryResponse(r) => Some(r.Success())
      case SearchResponse(a) => Some(a.Grounded?)
      case InvalidParameters => Some(false)
      case Raised(_) => Some(false)
      case UnknownTool(_) => None
    }
  }

  const InvalidParametersMessage := "Parâmetros inválidos"

  function UnknownToolMessage(name: string): string {
    "Tool desconhecida: " + name
  }

  /** `_execute_tool` on the database `db`; `search` is the grounded search. */
  function ExecuteToolOn(db: Db, name: string, args: ToolArgs, user: string, sim: (string, string) -> int,
                         search: GoogleSearchInput -> SearchAnswer): (r: (Db, ToolResponse))
    ensures r.1.Success().None? <==> name != "manage_memory" && name != "google_search"
    ensures r.1.UnknownTool? ==> r.1.name == name
    ensures name != "manage_memory" || !args.DictArgs? ==> r.0 == db
    ensures (name == "manage_memory" || name == "google_search") && args.OtherArgs? ==> r.1 == InvalidParameters
    ensures name == "manage_memory" && args.DictArgs? ==>
      match ParseInput(args.fields)
      case Ok(p) => r == (ExecuteOn(db, p, user, sim).0, MemoryResponse(ExecuteOn(db, p, user, sim).1))
      case Err(e) => r == (db, Raised(e))
  {
    if name == "manage_memory" then
      match args
      case OtherArgs(_) => (db, InvalidParameters)
      case DictArgs(fields) =>
        match ParseInput(fields)
        case Err(e) => (db, Raised(e))
        case Ok(p) =>
          var (d, res) := ExecuteOn(db, p, user, sim);
          (d, MemoryResponse(res))
    else if name == "google_search" then
      match args
      case OtherArgs(_) => (db, InvalidParameters)
      case DictArgs(fields) =>
        match ParseSearchInput(fields)
        case Err(e) => (db, Raised(e))
        case Ok(q) => (db, SearchResponse(search(q)))
    else (db, UnknownTool(name))
  }

  // ------------------------------------------------------------ live responses

  /** A part of the model's turn: audio bytes and/or text. */
  datatype Part = Part(inlineData: Option<Bytes>, text: Option<string>)

  datatype ServerContent = ServerContent(modelTurn: Option<seq<Part>>, turnComplete: bool, interrupted: bool)

  /** A function call; `args` None stands for missing or empty arguments. */
  datatype FunctionCall = FunctionCall(name: Option<string>, args: Option<map<string, Json>>)

  datatype LiveResponse = LiveResponse(serverContent: Option<ServerContent>, toolCall: Option<seq<FunctionCall>>)

  /** What `send_tool_response` sends back for one call. */
  datatype FunctionResponse = FunctionResponse(name: string, response: ToolResponse)

  function PartsOf(r: LiveResponse): seq<Part> {
    if r.serverContent.Some? && r.serverContent.value.modelTurn.Some? then r.serverContent.value.modelTurn.value
    else []
  }

  function CallsOf(r: LiveResponse): seq<FunctionCall> {
    if r.toolCall.Some? then r.toolCall.value else []
  }

  predicate CompletesTurn(r: LiveResponse) {
    r.serverContent.Some? && r.serverContent.value.turnComplete
  }

  /** The audio a part yields: its bytes, when there are any. */
  function AudioOfPart(p: Part): seq<Bytes> {
    if p.inlineData.Some? && |p.inlineData.value| > 0 then [p.inlineData.value] else []
  }

  /** The text a part adds to the log: its text, when it is not empty. */
  function TextOfPart(p: Part): seq<string> {
    if Truthy(p.text) then [p.text.value] else []
  }

  function AudioOfParts(ps: seq<Part>): seq<Bytes> {
    if ps == [] then [] else AudioOfParts(ps[..|ps| - 1]) + AudioOfPart(ps[|ps| - 1])
  }

  function TextsOfParts(ps: seq<Part>): seq<string> {
    if ps == [] then [] else TextsOfParts(ps[..|ps| - 1]) + TextOfPart(ps[|ps| - 1])
  }

  /** All audio yielded for a sequence of responses, in arrival order. */
  function AudioOf(rs: seq<LiveResponse>): seq<Bytes> {
    if rs == [] then [] else AudioOf(rs[..|rs| - 1]) + AudioOfParts(PartsOf(rs[|rs| - 1]))
  }

  /** All texts logged for a sequence of responses, in arrival order. */
  function TextsOf(rs: seq<LiveResponse>): seq<string> {
    if rs == [] then [] else TextsOf(rs[..|rs| - 1]) + TextsOfParts(PartsOf(rs[|rs| - 1]))
  }

  /** All function calls of a sequence of responses, in arrival order. */
  function CallsIn(rs: seq<LiveResponse>): seq<FunctionCall> {
    if rs == [] then [] else CallsIn(rs[..|rs| - 1]) + CallsOf(rs[|rs| - 1])
  }

  function TurnsCompleted(rs: seq<LiveResponse>): nat {
    if rs == [] then 0 else TurnsCompleted(rs[..|rs| - 1]) + (if CompletesTurn(rs[|rs| - 1]) then 1 else 0)
  }

  function AssistantTurns(texts: seq<string>, now: int): seq<Turn> {
    seq(|texts|, i requires 0 <= i < |texts| => Turn("assistant", texts[i], now))
  }

  lemma AssistantTurnsAppend(a: seq<string>, b: seq<string>, now: int)
    ensures AssistantTurns(a + b, now) == AssistantTurns(a, now) + AssistantTurns(b, now)
  {
  }

  predicate Named(c: FunctionCall) {
    Truthy(c.name)
  }

  /** One call: skipped when it has no name; otherwise executed on the
      database as the previous calls left it, and its answer sent. */
  function RunCall(state: (Db, seq<FunctionResponse>), c: FunctionCall, user: string, sim: (string, string) -> int,
                   search: GoogleSearchInput -> SearchAnswer): (Db, seq<FunctionResponse>) {
    if !Named(c) then state
    else
      var (d, res) := ExecuteToolOn(state.0, c.name.value, DictArgs(c.args.GetOr(map[])), user, sim, search);
      (d, state.1 + [FunctionResponse(c.name.value, res)])
  }

  /** The calls run one at a time, in order. */
  function RunCalls(db: Db, calls: seq<FunctionCall>, user: string, sim: (string, string) -> int,
                    search: GoogleSearchInput -> SearchAnswer): (Db, seq<FunctionResponse>) {
    if calls == [] then (db, [])
    else RunCall(RunCalls(db, calls[..|calls| - 1], user, sim, search), calls[|calls| - 1], user, sim, search)
  }

  /** Tool calls write only the memory table and the profiles: the memories
      they leave depend on the memories they start from alone, and the
      episode log is kept. */
  lemma {:induction false} RunCallsSeeOnlyMemories(d1: Db, d2: Db, calls: seq<FunctionCall>, user: string,
                                                  sim: (string, string) -> int, search: GoogleSearchInput -> SearchAnswer)
    requires d1.memories == d2.memories
    ensures RunCalls(d1, calls, user, sim, search).0.memories == RunCalls(d2, calls, user, sim, search).0.memories
    ensures RunCalls(d1, calls, user, sim, search).0.episodes == d1.episodes
    decreases |calls|
  {
    if calls != [] {
      var init, c := calls[..|calls| - 1], calls[|calls| - 1];
      RunCallsSeeOnlyMemories(d1, d2, init, user, sim, search);
      var s1, s2 := RunCalls(d1, init, user, sim, search), RunCalls(d2, init, user, sim, search);
      if Named(c) && c.name.value == "manage_memory" {
        var fields := c.args.GetOr(map[]);
        match ParseInput(fields)
        case Ok(p) => ExecuteOnSeesOnlyMemories(s1.0, s2.0, p, user, sim);
        case Err(_) =>
      }
    }
  }

  /** Running two batches one after the other is running them together. */
  lemma {:induction false} RunCallsAppend(db: Db, a: seq<FunctionCall>, b: seq<FunctionCall>, user: string,
                                         sim: (string, string) -> int, search: GoogleSearchInput -> SearchAnswer)
    ensures var (d1, s1) := RunCalls(db, a, user, sim, search);
      var (d2, s2) := RunCalls(d1, b, user, sim, search);
      RunCalls(db, a + b, user, sim, search) == (d2, s1 + s2)
  {
    var (d1, s1) := RunCalls(db, a, user, sim, search);
    if b != [] {
      var init, c := b[..|b| - 1], b[|b| - 1];
      RunCallsAppend(db, a, init, user, sim, search);
      assert (a + b)[..|a + b| - 1] == a + init && (a + b)[|a + b| - 1] == c;
      var (di, si) := RunCalls(d1, init, user, sim, search);
      assert RunCalls(db, a + init, user, sim, search) == (di, s1 + si);
      if Named(c) {
        var (dc, rc) := ExecuteToolOn(di, c.name.value, DictArgs(c.args.GetOr(map[])), user, sim, search);
        assert (s1 + si) + [FunctionResponse(c.name.value, rc)] == s1 + (si + [FunctionResponse(c.name.value, rc)]);
      }
    } else {
      assert a + b == a;
      assert s1 + [] == s1;
    }
  }

  /** One answer is sent per named call, in call order, and unnamed calls
      leave no trace: running only the named calls gives the same result. */
  lemma {:induction false} RunCallsSkipsUnnamed(db: Db, calls: seq<FunctionCall>, user: string,
                                                sim: (string, string) -> int, search: GoogleSearchInput -> SearchAnswer)
    ensures RunCalls(db, Filter(calls, Named), user, sim, search) == RunCalls(db, calls, user, sim, search)
    ensures |RunCalls(db, calls, user, sim, search).1| == |Filter(calls, Named)|
  {
    if calls != [] {
      var init := calls[..|calls| - 1];
      RunCallsSkipsUnnamed(db, init, user, sim, search);
      var c := calls[|calls| - 1];
      if Named(c) {
        var f := Filter(init, Named) + [c];
        assert f[..|f| - 1] == Filter(init, Named);
      }
    }
  }

  /** The arguments of an ADD of `content` about a named entity. */
  function AddArgs(category: MemoryCategory, entityType: string, name: string, content: string): map<string, Json> {
    map["action" := JStr("ADD"), "category" := JStr(category.Value()), "entity_type" := JStr(entityType),
        "entity_name" := JStr(name), "content" := JStr(content)]
  }

  lemma ParseAddArgs(category: MemoryCategory, entityType: string, name: string, content: string)
    ensures ParseInput(AddArgs(category, entityType, name, content))
         == Ok(ManageMemoryInput(Add, category, entityType, Some(name), Some(content), Some(5), None, None))
  {
    assert ParseAction("ADD") == Some(Add);
    assert ParseCategory(category.Value()) == Some(category);
  }

  lemma RunOneCall(db: Db, c: FunctionCall, user: string, sim: (string, string) -> int,
                   search: GoogleSearchInput -> SearchAnswer)
    ensures RunCalls(db, [c], user, sim, search) == RunCall((db, []), c, user, sim, search)
  {
    assert [c][..0] == [];
  }

  /** Two calls run one after the other, each on the database the one before left. */
  lemma RunTwoCalls(db: Db, c1: FunctionCall, c2: FunctionCall, user: string, sim: (string, string) -> int,
                    search: GoogleSearchInput -> SearchAnswer)
    ensures RunCalls(db, [c1, c2], user, sim, search)
         == RunCall(RunCall((db, []), c1, user, sim, search), c2, user, sim, search)
  {
    assert [c1, c2][..1] == [c1];
    RunOneCall(db, c1, user, sim, search);
  }

  /** A `manage_memory` ADD call runs `AddMemory` with the default importance. */
  lemma AddCallAdds(state: (Db, seq<FunctionResponse>), category: MemoryCategory, entityType: string, name: string,
                    content: string, user: string, sim: (string, string) -> int, search: GoogleSearchInput -> SearchAnswer)
    requires content != ""
    ensures RunCall(state, FunctionCall(Some("manage_memory"), Some(AddArgs(category, entityType, name, content))),
                    user, sim, search).0
         == AddMemory(state.0, user, category.Value(), entityType, content, Some(name), 5, None).0
  {
    var args := AddArgs(category, entityType, name, content);
    var p := ManageMemoryInput(Add, category, entityType, Some(name), Some(content), Some(5), None, None);
    ParseAddArgs(category, entityType, name, content);
    assert Named(FunctionCall(Some("manage_memory"), Some(args)));
    var r := ExecuteToolOn(state.0, "manage_memory", DictArgs(args), user, sim, search);
    assert r.0 == ExecuteOn(state.0, p, user, sim).0;
  }

  /** Two ADD calls for the same named entity in one response: the second
      sees the first's row, so one active row remains, holding the second
      content. */
  lemma TwoAddsInOneResponse(db: Db, user: string, sim: (string, string) -> int, search: GoogleSearchInput -> SearchAnswer,
                             category: MemoryCategory, entityType: string, name: string, first: string, second: string)
    requires KeyUnique(db) && name != "" && first != "" && second != ""
    ensures var calls := [FunctionCall(Some("manage_memory"), Some(AddArgs(category, entityType, name, first))),
                          FunctionCall(Some("manage_memory"), Some(AddArgs(category, entityType, name, second)))];
      var d := RunCalls(db, calls, user, sim, search).0;
      var k := DedupKey(user, category.Value(), entityType, Some(name));
      && KeyUnique(d)
      && exists id :: HasId(d, id) && MatchesKey(RowAt(d, id), k) && RowAt(d, id).content == second
                      && forall j :: HasId(d, j) && MatchesKey(RowAt(d, j), k) ==> j == id
  {
    TwoAddCallsRun(db, user, sim, search, category, entityType, name, first, second);
    AddTwiceKeepsSecond(db, user, category.Value(), entityType, name, first, second, 5, None);
  }

  /** Two ADD calls in one response are two `AddMemory` runs, one after the other. */
  lemma TwoAddCallsRun(db: Db, user: string, sim: (string, string) -> int, search: GoogleSearchInput -> SearchAnswer,
                       category: MemoryCategory, entityType: string, name: string, first: string, second: string)
    requires first != "" && second != ""
    ensures var calls := [FunctionCall(Some("manage_memory"), Some(AddArgs(category, entityType, name, first))),
                          FunctionCall(Some("manage_memory"), Some(AddArgs(category, entityType, name, second)))];
      var d1 := AddMemory(db, user, category.Value(), entityType, first, Some(name), 5, None).0;
      RunCalls(db, calls, user, sim, search).0 == AddMemory(d1, user, category.Value(), entityType, second, Some(name), 5, None).0
  {
    var c1 := FunctionCall(Some("manage_memory"), Some(AddArgs(category, entityType, name, first)));
    var c2 := FunctionCall(Some("manage_memory"), Some(AddArgs(category, entityType, name, second)));
    var s1 := RunCall((db, []), c1, user, sim, search);
    RunTwoCalls(db, c1, c2, user, sim, search);
    AddCallAdds((db, []), category, entityType, name, first, user, sim, search);
    AddCallAdds(s1, category, entityType, name, second, user, sim, search);
  }

  /** What handling one more part adds to the audio and to the turn log. */
  lemma PartStep(log: seq<Turn>, parts: seq<Part>, j: nat, now: int)
    requires j < |parts|
    ensures AudioOfParts(parts[..j + 1]) == AudioOfParts(parts[..j]) + AudioOfPart(parts[j])
    ensures log + AssistantTurns(TextsOfParts(parts[..j + 1]), now)
         == (log + AssistantTurns(TextsOfParts(parts[..j]), now)) + AssistantTurns(TextOfPart(parts[j]), now)
    ensures AssistantTurns(TextOfPart(parts[j]), now)
         == if Truthy(parts[j].text) then [Turn("assistant", parts[j].text.value, now)] else []
  {
    assert parts[..j + 1][..j] == parts[..j];
    var earlier, added := AssistantTurns(TextsOfParts(parts[..j]), now), AssistantTurns(TextOfPart(parts[j]), now);
    AssistantTurnsAppend(TextsOfParts(parts[..j]), TextOfPart(parts[j]), now);
    ConcatAssociates(log, earlier, added);
  }

  lemma ConcatAssociates<T>(a: seq<T>, b: seq<T>, c: seq<T>)
    ensures a + (b + c) == (a + b) + c
  {
  }

  /** What handling one more response adds to each of the loop's results. */
  lemma ConverseStep(db: Db, log: seq<Turn>, responses: seq<LiveResponse>, i: nat, user: string, sim: (string, string) -> int,
                     search: GoogleSearchInput -> SearchAnswer, now: int)
    requires i < |responses|
    ensures AudioOf(responses[..i + 1]) == AudioOf(responses[..i]) + AudioOfParts(PartsOf(responses[i]))
    ensures log + AssistantTurns(TextsOf(responses[..i + 1]), now)
         == (log + AssistantTurns(TextsOf(responses[..i]), now)) + AssistantTurns(TextsOfParts(PartsOf(responses[i])), now)
    ensures var (d1, s1) := RunCalls(db, CallsIn(responses[..i]), user, sim, search);
      var (d2, s2) := RunCalls(d1, CallsOf(responses[i]), user, sim, search);
      RunCalls(db, CallsIn(responses[..i + 1]), user, sim, search) == (d2, s1 + s2)
    ensures TurnsCompleted(responses[..i + 1]) == TurnsCompleted(responses[..i]) + (if CompletesTurn(responses[i]) then 1 else 0)
  {
    assert responses[..i + 1][..i] == responses[..i];
    var earlier, added := AssistantTurns(TextsOf(responses[..i]), now), AssistantTurns(TextsOfParts(PartsOf(responses[i])), now);
    AssistantTurnsAppend(TextsOf(responses[..i]), TextsOfParts(PartsOf(responses[i])), now);
    ConcatAssociates(log, earlier, added);
    RunCallsAppend(db, CallsIn(responses[..i]), CallsOf(responses[i]), user, sim, search);
  }

  // ----------------------------------------------------------------- the agent

  /** The sessions a run of episodes belongs to. */
  function SessionIds(es: seq<EpisodeRow>): set<string> {
    if es == [] then {} else SessionIds(es[..|es| - 1]) + {es[|es| - 1].sessionId}
  }

  lemma SessionIdsSnoc(es: seq<EpisodeRow>, e: EpisodeRow)
    ensures SessionIds(es + [e]) == SessionIds(es) + {e.sessionId}
  {
    assert (es + [e])[..|es|] == es;
  }

  /** `EmpatIAAgent` */
  class EmpatIAAgent {
    const store: MemoryStore
    const memoryTool: MemoryTool
    /** The grounded web search behind `google_search_tool`. */
    const search: GoogleSearchInput -> SearchAnswer
    var activeSessions: map<string, Session>

    /** Every session is registered under its own id. */
    ghost predicate Valid()
      reads this
    {
      && memoryTool.store == store
      && forall id :: id in activeSessions ==> activeSessions[id].sessionId == id
    }

    constructor(store: MemoryStore, search: GoogleSearchInput -> SearchAnswer)
      ensures Valid() && this.store == store && this.search == search && activeSessions == map[]
    {
      this.store := store;
      this.search := search;
      memoryTool := new MemoryTool(store);
      activeSessions := map[];
    }

    /** `create_session`: a new session under a fresh uuid. */
    method CreateSession(userId: string, generatedId: string, now: int) returns (s: Session)
      requires Valid()
      modifies this
      ensures Valid() && fresh(s)
      ensures s.userId == userId && s.sessionId == generatedId && s.conversationTurns == [] && s.startedAt == now
      ensures activeSessions == old(activeSessions)[generatedId := s]
    {
      s := new Session(userId, None, generatedId, now);
      activeSessions := activeSessions[s.sessionId := s];
    }

    /** `get_session` */
    method GetSession(sessionId: string) returns (s: Option<Session>)
      ensures s.Some? <==> sessionId in activeSessions
      ensures s.Some? ==> s.value == activeSessions[sessionId]
    {
      s := if sessionId in activeSessions then Some(activeSessions[sessionId]) else None;
    }

    /** `end_session`: save the episode of a registered session, then forget it. */
    method EndSession(sessionId: string, now: int)
      requires Valid()
      modifies this, store
      ensures Valid()
      ensures store.memories == old(store.memories)
      ensures |store.episodes| >= |old(store.episodes)|
      ensures store.episodes[..|old(store.episodes)|] == old(store.episodes)
      ensures sessionId !in old(activeSessions) ==> activeSessions == old(activeSessions) && store.State() == old(store.State())
      ensures sessionId in old(activeSessions) ==>
        && activeSessions == old(activeSessions) - {sessionId}
        && |store.episodes| == |old(store.episodes)| + 1
        && var e := store.episodes[|store.episodes| - 1];
           e.sessionId == sessionId && e.summary == "Conversa com EmpatIA" && e.emotionalTone == "neutro"
           && e.userId == old(activeSessions)[sessionId].userId && e.endedAt == now
    {
      if sessionId in activeSessions {
        var session := activeSessions[sessionId];
        session.SaveEpisode(store, "Conversa com EmpatIA", "neutro", now);
        activeSessions := activeSessions - {sessionId};
      }
    }

    /** `shutdown` so far: the log `before` grew by one episode for each of
        the ids `all - ids` already ended. */
    ghost predicate EndedSoFar(before: seq<EpisodeRow>, episodes: seq<EpisodeRow>, all: set<string>, ids: set<string>) {
      && ids <= all
      && |before| <= |episodes| && episodes[..|before|] == before
      && |episodes| + |ids| == |before| + |all|
      && SessionIds(episodes[|before|..]) == all - ids
    }

    /** One round of `shutdown`'s loop, on the episode log and the ids left. */
    lemma ShutdownStep(all: set<string>, ids: set<string>, id: string,
                       before: seq<EpisodeRow>, prev: seq<EpisodeRow>, cur: seq<EpisodeRow>)
      requires id in ids && EndedSoFar(before, prev, all, ids)
      requires |cur| == |prev| + 1 && cur[..|prev|] == prev && cur[|prev|].sessionId == id
      ensures EndedSoFar(before, cur, all, ids - {id})
    {
      assert cur[|before|..] == prev[|before|..] + [cur[|prev|]];
      SessionIdsSnoc(prev[|before|..], cur[|prev|]);
    }

    /** One round of `shutdown`'s loop: end the registered session `id`. */
    method ShutdownOne(id: string, now: int, ghost all: set<string>, ghost before: seq<EpisodeRow>)
      requires Valid() && id in activeSessions
      requires EndedSoFar(before, store.episodes, all, activeSessions.Keys)
      modifies this, store
      ensures Valid() && activeSessions.Keys == old(activeSessions.Keys) - {id}
      ensures store.memories == old(store.memories)
      ensures EndedSoFar(before, store.episodes, all, activeSessions.Keys)
    {
      ghost var ids, prev := activeSessions.Keys, store.episodes;
      EndSession(id, now);
      assert activeSessions.Keys == ids - {id};
      ShutdownStep(all, ids, id, before, prev, store.episodes);
    }

    /** `shutdown`: end every registered session (closing the pool is not modelled). */
    method Shutdown(now: int)
      requires Valid()
      modifies this, store
      ensures Valid() && activeSessions == map[]
      ensures store.memories == old(store.memories)
      ensures |store.episodes| == |old(store.episodes)| + |old(activeSessions)|
      ensures store.episodes[..|old(store.episodes)|] == old(store.episodes)
      ensures SessionIds(store.episodes[|old(store.episodes)|..]) == old(activeSessions).Keys
    {
      var ids := activeSessions.Keys;
      ghost var all := ids;
      ghost var before := store.episodes;
      while ids != {}
        invariant Valid() && activeSessions.Keys == ids
        invariant store.memories == old(store.memories)
        invariant EndedSoFar(before, store.episodes, all, ids)
        decreases ids
      {
        var id :| id in ids;
        ShutdownOne(id, now, all, before);
        ids := ids - {id};
      }
      assert |all| == |old(activeSessions)|;
    }

    /** `_execute_tool` */
    method ExecuteTool(name: string, args: ToolArgs, user: string) returns (r: ToolResponse)
      requires Valid()
      modifies store
      ensures (store.State(), r) == ExecuteToolOn(old(store.State()), name, args, user, store.sim, search)
    {
      if name == "manage_memory" {
        if args.OtherArgs? {
          return InvalidParameters;
        }
        var parsed := ParseInput(args.fields);
        if parsed.Err? {
          return Raised(parsed.error);
        }
        var res := memoryTool.Execute(parsed.value, user);
        r := MemoryResponse(res);
      } else if name == "google_search" {
        if args.OtherArgs? {
          return InvalidParameters;
        }
        var parsed := ParseSearchInput(args.fields);
        if parsed.Err? {
          return Raised(parsed.error);
        }
        r := SearchResponse(search(parsed.value));
      } else {
        r := UnknownTool(name);
      }
    }

    /** The parts of one response: yield each part's audio, log each part's
        text as an assistant turn. */
    method HandleParts(session: Session, parts: seq<Part>, now: int) returns (audio: seq<Bytes>)
      modifies session
      ensures audio == AudioOfParts(parts)
      ensures session.conversationTurns == old(session.conversationTurns) + AssistantTurns(TextsOfParts(parts), now)
    {
      audio := [];
      for j := 0 to |parts|
        invariant audio == AudioOfParts(parts[..j])
        invariant session.conversationTurns == old(session.conversationTurns) + AssistantTurns(TextsOfParts(parts[..j]), now)
      {
        PartStep(old(session.conversationTurns), parts, j, now);
        var part := parts[j];
        if part.inlineData.Some? && |part.inlineData.value| > 0 {
          audio := audio + [part.inlineData.value];
        }
        if Truthy(part.text) {
          session.AddTurn("assistant", part.text.value, now);
        }
      }
      assert parts[..|parts|] == parts;
    }

    /** The tool calls of one response, one at a time: a call without a name
        is skipped; otherwise it runs and its answer is sent before the next. */
    method HandleCalls(calls: seq<FunctionCall>, user: string) returns (sent: seq<FunctionResponse>)
      requires Valid()
      modifies store
      ensures (store.State(), sent) == RunCalls(old(store.State()), calls, user, store.sim, search)
    {
      sent := [];
      for j := 0 to |calls|
        invariant (store.State(), sent) == RunCalls(old(store.State()), calls[..j], user, store.sim, search)
      {
        assert calls[..j + 1][..j] == calls[..j];
        var call := calls[j];
        if Truthy(call.name) {
          var result := ExecuteTool(call.name.value, DictArgs(call.args.GetOr(map[])), user);
          sent := sent + [FunctionResponse(call.name.value, result)];
        }
      }
      assert calls[..|calls|] == calls;
    }

    /** One response: its parts, then the turn count, then its tool calls. */
    method HandleResponse(session: Session, response: LiveResponse, now: int)
      returns (audio: seq<Bytes>, sent: seq<FunctionResponse>, completed: bool)
      requires Valid()
      modifies session, store
      ensures audio == AudioOfParts(PartsOf(response))
      ensures session.conversationTurns == old(session.conversationTurns) + AssistantTurns(TextsOfParts(PartsOf(response)), now)
      ensures (store.State(), sent) == RunCalls(old(store.State()), CallsOf(response), session.userId, store.sim, search)
      ensures completed == CompletesTurn(response)
    {
      audio := HandleParts(session, PartsOf(response), now);
      completed := response.serverContent.Some? && response.serverContent.value.turnComplete;
      sent := HandleCalls(CallsOf(response), session.userId);
    }

    /** The response loop of `stream_conversation`: every response is handled
        in arrival order; neither a completed turn nor an interruption ends
        the loop. */
    method Converse(session: Session, responses: seq<LiveResponse>, now: int)
      returns (audio: seq<Bytes>, sent: seq<FunctionResponse>, turnCount: nat)
      requires Valid()
      modifies session, store
      ensures audio == AudioOf(responses)
      ensures session.conversationTurns == old(session.conversationTurns) + AssistantTurns(TextsOf(responses), now)
      ensures (store.State(), sent) == RunCalls(old(store.State()), CallsIn(responses), session.userId, store.sim, search)
      ensures turnCount == TurnsCompleted(responses)
    {
      ghost var db0, log0 := store.State(), session.conversationTurns;
      audio, sent, turnCount := [], [], 0;
      for i := 0 to |responses|
        invariant audio == AudioOf(responses[..i])
        invariant session.conversationTurns == log0 + AssistantTurns(TextsOf(responses[..i]), now)
        invariant (store.State(), sent) == RunCalls(db0, CallsIn(responses[..i]), session.userId, store.sim, search)
        invariant turnCount == TurnsCompleted(responses[..i])
      {
        ConverseStep(db0, log0, responses, i, session.userId, store.sim, search, now);
        ghost var dbBefore := store.State();
        var partAudio, replies, completed := HandleResponse(session, responses[i], now);
        assert (store.State(), replies) == RunCalls(dbBefore, CallsOf(responses[i]), session.userId, store.sim, search);
        audio := audio + partAudio;
        sent := sent + replies;
        if completed {
          turnCount := turnCount + 1;
        }
      }
      assert responses[..|responses|] == responses;
    }
  }
}
