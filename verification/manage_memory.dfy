/** The `manage_memory` tool: validation of its arguments (the
    `ManageMemoryInput` schema) and `MemoryTool.execute`, which checks the
    fields each action needs and routes to the memory store. */
module ManageMemory {
  import opened Common
  import opened MemoryModel
  import opened Database

  /** A validated `ManageMemoryInput`. */
  datatype ManageMemoryInput = ManageMemoryInput(
    action: MemoryAction,
    category: MemoryCategory,
    entityType: string,
    entityName: Option<string>,
    content: Option<string>,
    importance: Option<int>,
    memoryId: Option<int>,
    searchQuery: Option<string>)

  /** Why validation rejected the arguments. */
  datatype ValidationError =
    | Missing(field: string)
    | WrongType(field: string)
    | NotAllowed(field: string)
    | OutOfRange(field: string)

  /** `importance`: absent means 5, null means None, otherwise 1..10. */
  predicate ImportanceOk(i: Option<int>) {
    i.Some? ==> 1 <= i.value <= 10
  }

  function RequiredString(fields: map<string, Json>, name: string): (r: Result<string, ValidationError>)
    ensures r.Ok? <==> name in fields && fields[name].JStr?
    ensures r.Ok? ==> fields[name] == JStr(r.value)
  {
    if name !in fields then Err(Missing(name))
    else if fields[name].JStr? then Ok(fields[name].s)
    else Err(WrongType(name))
  }

  function OptionalString(fields: map<string, Json>, name: string): (r: Result<Option<string>, ValidationError>)
    ensures r.Ok? <==> name !in fields || fields[name].JNull? || fields[name].JStr?
    ensures r.Ok? && r.value.Some? ==> name in fields && fields[name] == JStr(r.value.value)
    ensures r.Ok? && r.value.None? ==> name !in fields || fields[name] == JNull
  {
    if name !in fields then Ok(None)
    else match fields[name]
      case JNull => Ok(None)
      case JStr(s) => Ok(Some(s))
      case _ => Err(WrongType(name))
  }

  function OptionalInt(fields: map<string, Json>, name: string, default: Option<int>): (r: Result<Option<int>, ValidationError>)
    ensures r.Ok? <==> name !in fields || fields[name].JNull? || fields[name].JInt?
    ensures r.Ok? && name !in fields ==> r.value == default
    ensures r.Ok? && name in fields ==> (r.value.Some? <==> fields[name].JInt?)
    ensures r.Ok? && r.value.Some? && name in fields ==> fields[name] == JInt(r.value.value)
  {
    if name !in fields then Ok(default)
    else match fields[name]
      case JNull => Ok(None)
      case JInt(i) => Ok(Some(i))
      case _ => Err(WrongType(name))
  }

  /** `ManageMemoryInput(**fields)`: required `action`, `category` (one of the
      allowed strings) and `entity_type`; the rest optional; `importance`
      defaults to 5 and, when not null, must lie in 1..10. Unknown keys are
      ignored. */
  function ParseInput(fields: map<string, Json>): (r: Result<ManageMemoryInput, ValidationError>)
    ensures r.Ok? ==> ImportanceOk(r.value.importance)
    ensures r.Ok? ==> "action" in fields && "category" in fields
    ensures r.Ok? ==> fields["action"] == JStr(r.value.action.Value()) && fields["category"] == JStr(r.value.category.Value())
    ensures r.Ok? && "importance" !in fields ==> r.value.importance == Some(5)
    ensures "entity_type" !in fields ==> r.Err?
  {
    match RequiredString(fields, "action")
    case Err(e) => Err(e)
    case Ok(a) =>
      match ParseAction(a)
      case None => Err(NotAllowed("action"))
      case Some(action) =>
        match RequiredString(fields, "category")
        case Err(e) => Err(e)
        case Ok(c) =>
          match ParseCategory(c)
          case None => Err(NotAllowed("category"))
          case Some(category) =>
            match RequiredString(fields, "entity_type")
            case Err(e) => Err(e)
            case Ok(entityType) =>
              match OptionalString(fields, "entity_name")
              case Err(e) => Err(e)
              case Ok(entityName) =>
                match OptionalString(fields, "content")
                case Err(e) => Err(e)
                case Ok(content) =>
                  match OptionalInt(fields, "importance", Some(5))
                  case Err(e) => Err(e)
                  case Ok(importance) =>
                    if !ImportanceOk(importance) then Err(OutOfRange("importance"))
                    else
                      match OptionalInt(fields, "memory_id", None)
                      case Err(e) => Err(e)
                      case Ok(memoryId) =>
                        match OptionalString(fields, "search_query")
                        case Err(e) => Err(e)
                        case Ok(searchQuery) =>
                          Ok(ManageMemoryInput(action, category, entityType, entityName, content,
                                               importance, memoryId, searchQuery))
  }

  function JsonOfString(s: Option<string>): Json {
    if s.Some? then JStr(s.value) else JNull
  }

  function JsonOfInt(i: Option<int>): Json {
    if i.Some? then JInt(i.value) else JNull
  }

  /** The arguments a caller sends for an input, every field written out. */
  function InputFields(p: ManageMemoryInput): map<string, Json> {
    map[
      "action" := JStr(p.action.Value()),
      "category" := JStr(p.category.Value()),
      "entity_type" := JStr(p.entityType),
      "entity_name" := JsonOfString(p.entityName),
      "content" := JsonOfString(p.content),
      "importance" := JsonOfInt(p.importance),
      "memory_id" := JsonOfInt(p.memoryId),
      "search_query" := JsonOfString(p.searchQuery)]
  }

  /** Every input the schema admits is read back unchanged from its fields,
      and every input read back is one the schema admits. */
  lemma ParseInputRoundTrip(p: ManageMemoryInput)
    ensures ParseInput(InputFields(p)) == Ok(p) <==> ImportanceOk(p.importance)
  {
    var f := InputFields(p);
    assert ParseAction(p.action.Value()) == Some(p.action);
    assert ParseCategory(p.category.Value()) == Some(p.category);
    assert OptionalString(f, "entity_name") == Ok(p.entityName);
    assert OptionalString(f, "content") == Ok(p.content);
    assert OptionalInt(f, "importance", Some(5)) == Ok(p.importance);
    assert OptionalInt(f, "memory_id", None) == Ok(p.memoryId);
    assert OptionalString(f, "search_query") == Ok(p.searchQuery);
  }

  /** One entry of a SEARCH answer: id, content and similarity. */
  datatype SearchHit = SearchHit(id: int, content: string, similarity: int)

  /** What `execute` answers. `Failed` is `{"success": False, "error": …}`. */
  datatype ToolResult =
    | Failed(error: string)
    | Added(memoryId: int, message: string)
    | Updated(success: bool, memoryId: int)
    | Deleted(success: bool)
    | Searched(results: seq<SearchHit>)
  {
    predicate Success() {
      match this
      case Failed(_) => false
      case Added(_, _) => true
      case Updated(ok, _) => ok
      case Deleted(ok) => ok
      case Searched(_) => true
    }
  }

  const ContentRequired := "Conteúdo obrigatório"
  const MemoryIdRequired := "memory_id obrigatório"
  const SearchQueryRequired := "search_query obrigatório"

  /** Python's `i or 5` on an optional integer. */
  function OrFive(i: Option<int>): (r: int)
    ensures i.Some? && i.value != 0 ==> r == i.value
    ensures i.None? || i.value == 0 ==> r == 5
  {
    if i.Some? && i.value != 0 then i.value else 5
  }

  /** Python truthiness of an optional id: None and 0 are false. */
  predicate TruthyId(i: Option<int>) {
    i.Some? && i.value != 0
  }

  /** SEARCH looks in every category for "geral" and in the given one otherwise. */
  function SearchCategory(c: MemoryCategory): (r: Option<string>)
    ensures c == Geral <==> r.None?
    ensures r.Some? ==> r.value == c.Value() && Truthy(r)
  {
    if c == Geral then None else Some(c.Value())
  }

  function HitOf(m: Memory): SearchHit {
    SearchHit(m.id, m.content, m.similarityScore.GetOr(0))
  }

  function Hits(ms: seq<Memory>): (r: seq<SearchHit>)
    ensures |r| == |ms| && forall i :: 0 <= i < |ms| ==> r[i] == HitOf(ms[i])
  {
    seq(|ms|, i requires 0 <= i < |ms| => HitOf(ms[i]))
  }

  /** `MemoryTool.execute` on the database `db`. */
  function ExecuteOn(db: Db, p: ManageMemoryInput, user: string, sim: (string, string) -> int): (r: (Db, ToolResult))
    ensures !r.1.Success() && !(p.action == Update && r.1.Updated?) && !(p.action == Delete && r.1.Deleted?) ==> r.0 == db
    ensures r.1.Failed? <==>
      || (p.action == Add && !Truthy(p.content))
      || ((p.action == Update || p.action == Delete) && !TruthyId(p.memoryId))
      || (p.action == Search && !Truthy(p.searchQuery))
    ensures p.action == Search ==> r.0 == db
    ensures r.1.Added? ==> p.action == Add && HasId(r.0, r.1.memoryId) && RowAt(r.0, r.1.memoryId).content == p.content.value
    ensures r.1.Updated? ==> p.action == Update && r.1.memoryId == p.memoryId.value
  {
    match p.action
    case Add =>
      if !Truthy(p.content) then (db, Failed(ContentRequired))
      else
        var (d, m) := AddMemory(db, user, p.category.Value(), p.entityType, p.content.value, p.entityName,
                                OrFive(p.importance), None);
        (d, Added(m.id, "Memória adicionada: " + p.entityType))
    case Update =>
      if !TruthyId(p.memoryId) then (db, Failed(MemoryIdRequired))
      else
        var (d, m) := UpdateMemory(db, p.memoryId.value, p.content, p.importance, None);
        (d, Updated(m.Some?, p.memoryId.value))
    case Delete =>
      if !TruthyId(p.memoryId) then (db, Failed(MemoryIdRequired))
      else
        var (d, ok) := DeleteMemory(db, p.memoryId.value);
        (d, Deleted(ok))
    case Search =>
      if !Truthy(p.searchQuery) then (db, Failed(SearchQueryRequired))
      else
        (db, Searched(Hits(SearchMemories(db, user, p.searchQuery.value, SearchCategory(p.category),
                                          DefaultSearchLimit, DefaultMinSimilarity, sim))))
  }

  /** The tool works on the memory table alone: what it leaves there depends
      only on the memories it starts from, and it never touches the episode
      log. */
  lemma ExecuteOnSeesOnlyMemories(d1: Db, d2: Db, p: ManageMemoryInput, user: string, sim: (string, string) -> int)
    requires d1.memories == d2.memories
    ensures ExecuteOn(d1, p, user, sim).0.memories == ExecuteOn(d2, p, user, sim).0.memories
    ensures ExecuteOn(d1, p, user, sim).0.episodes == d1.episodes
  {
  }

  /** ADD answers the id the store returned: on a dedup hit, the existing
      memory's id, whose row now holds the new content and importance
      (5 when none was given). */
  lemma AddAnswersStoredId(db: Db, p: ManageMemoryInput, user: string, sim: (string, string) -> int)
    requires p.action == Add && Truthy(p.content)
    ensures var (d, r) := ExecuteOn(db, p, user, sim);
      && r.Added?
      && RowAt(d, r.memoryId).importance == OrFive(p.importance)
      && RowAt(d, r.memoryId).isActive
      && match FindSimilar(db.memories, DedupKey(user, p.category.Value(), p.entityType, p.entityName))
         case Some(id) => r.memoryId == id && |d.memories| == |db.memories|
         case None => r.memoryId == |db.memories| + 1 && |d.memories| == |db.memories| + 1
  {
    var k := DedupKey(user, p.category.Value(), p.entityType, p.entityName);
    match FindSimilar(db.memories, k)
    case Some(id) =>
      assert MatchesKey(RowAt(db, id), k);
    case None =>
  }

  /** UPDATE succeeds iff the row exists (every UPDATE supplies at least the
      importance unless it is explicitly null); DELETE's success is the store's. */
  lemma UpdateAndDeleteSuccess(db: Db, p: ManageMemoryInput, user: string, sim: (string, string) -> int)
    requires p.action == Update || p.action == Delete
    requires TruthyId(p.memoryId)
    ensures var (d, r) := ExecuteOn(db, p, user, sim);
      && (p.action == Update ==>
            r.Updated? && (r.success <==> HasId(db, p.memoryId.value) && (p.content.Some? || p.importance.Some?)))
      && (p.action == Delete ==> r == Deleted(HasId(db, p.memoryId.value)) && d == DeleteMemory(db, p.memoryId.value).0)
  {
  }

  /** An UPDATE that does not mention the importance sets it back to 5. */
  lemma UpdateWithoutImportanceResetsIt(db: Db, id: int, content: string)
    requires HasId(db, id)
    requires id != 0
    ensures var fields := map["action" := JStr("UPDATE"), "category" := JStr("geral"), "entity_type" := JStr(""),
                              "memory_id" := JInt(id), "content" := JStr(content)];
      && ParseInput(fields).Ok?
      && var d := ExecuteOn(db, ParseInput(fields).value, "", (q: string, t: string) => 0).0;
         RowAt(d, id).importance == 5 && RowAt(d, id).content == content
  {
    var fields := map["action" := JStr("UPDATE"), "category" := JStr("geral"), "entity_type" := JStr(""),
                      "memory_id" := JInt(id), "content" := JStr(content)];
    assert ParseAction("UPDATE") == Some(Update);
    assert ParseCategory("geral") == Some(Geral);
    assert "importance" !in fields;
  }

  /** SEARCH answers the store's results in the store's order. */
  lemma SearchKeepsStoreOrder(db: Db, p: ManageMemoryInput, user: string, sim: (string, string) -> int)
    requires p.action == Search && Truthy(p.searchQuery)
    ensures var r := ExecuteOn(db, p, user, sim).1;
      var ms := SearchMemories(db, user, p.searchQuery.value, SearchCategory(p.category), DefaultSearchLimit,
                               DefaultMinSimilarity, sim);
      && r.Searched? && |r.results| == |ms| <= DefaultSearchLimit
      && (forall i :: 0 <= i < |ms| ==> r.results[i] == SearchHit(ms[i].id, ms[i].content, ms[i].similarityScore.value))
      && (forall i, j :: 0 <= i < j < |ms| ==> r.results[i].similarity >= r.results[j].similarity)
      && (forall i :: 0 <= i < |ms| ==> p.category != Geral ==> ms[i].category == p.category.Value())
  {
    SearchMemoriesSound(db, user, p.searchQuery.value, SearchCategory(p.category), DefaultSearchLimit,
                        DefaultMinSimilarity, sim);
  }

  /** `MemoryTool`: `execute` over the shared store. */
  class MemoryTool {
    const store: MemoryStore

    constructor(store: MemoryStore)
      ensures this.store == store
    {
      this.store := store;
    }

    method Execute(p: ManageMemoryInput, user: string) returns (r: ToolResult)
      modifies store
      ensures (store.State(), r) == ExecuteOn(old(store.State()), p, user, store.sim)
    {
      match p.action {
        case Add =>
          if !Truthy(p.content) {
            return Failed(ContentRequired);
          }
          var m := store.AddMemory(user, p.category.Value(), p.entityType, p.content.value, p.entityName,
                                   OrFive(p.importance), None);
          r := Added(m.id, "Memória adicionada: " + p.entityType);
        case Update =>
          if !TruthyId(p.memoryId) {
            return Failed(MemoryIdRequired);
          }
          var m := store.UpdateMemory(p.memoryId.value, p.content, p.importance, None);
          r := Updated(m.Some?, p.memoryId.value);
        case Delete =>
          if !TruthyId(p.memoryId) {
            return Failed(MemoryIdRequired);
          }
          var deleted := store.DeleteMemory(p.memoryId.value);
          r := Deleted(deleted);
        case Search =>
          if !Truthy(p.searchQuery) {
            return Failed(SearchQueryRequired);
          }
          var ms := store.SearchMemories(user, p.searchQuery.value, SearchCategory(p.category),
                                         DefaultSearchLimit, DefaultMinSimilarity);
          r := Searched(Hits(ms));
      }
    }
  }
}
