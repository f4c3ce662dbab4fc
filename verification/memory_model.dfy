/** The three tables behind `MemoryStore` (user profiles, memories,
    conversation episodes) as one value `Db`, and what each store operation
    does to that value. The class in `MemoryStore` runs the operations step
    by step and is proved to agree with these definitions; the lemmas here
    state what the store promises: one active memory per dedup key, soft
    deletion, and ranked, capped search.

    A memory's id is its position in `memories` plus one (ids are assigned
    in insertion order and rows are never removed). Embeddings are not
    computed: a row keeps the text its embedding is made from, and the
    similarity between a query and that text is an oracle `sim`. */
module MemoryModel {
  import opened Common
  import opened Ranking

  /** `MemoryCategory` */
  datatype MemoryCategory = Familia | Saude | Hobbies | Interesses | Geral {
    function Value(): string {
      match this
      case Familia => "familia"
      case Saude => "saude"
      case Hobbies => "hobbies"
      case Interesses => "interesses"
      case Geral => "geral"
    }
  }

  /** Reading a category back from its stored string. */
  function ParseCategory(s: string): (r: Option<MemoryCategory>)
    ensures forall c: MemoryCategory :: r == Some(c) <==> c.Value() == s
  {
    if s == "familia" then Some(Familia)
    else if s == "saude" then Some(Saude)
    else if s == "hobbies" then Some(Hobbies)
    else if s == "interesses" then Some(Interesses)
    else if s == "geral" then Some(Geral)
    else None
  }

  /** `MemoryAction` */
  datatype MemoryAction = Add | Update | Delete | Search {
    function Value(): string {
      match this
      case Add => "ADD"
      case Update => "UPDATE"
      case Delete => "DELETE"
      case Search => "SEARCH"
    }
  }

  function ParseAction(s: string): (r: Option<MemoryAction>)
    ensures forall a: MemoryAction :: r == Some(a) <==> a.Value() == s
  {
    if s == "ADD" then Some(Add)
    else if s == "UPDATE" then Some(Update)
    else if s == "DELETE" then Some(Delete)
    else if s == "SEARCH" then Some(Search)
    else None
  }

  type Metadata = map<string, Json>

  /** A row of `user_memories` (timestamps left out). */
  datatype MemoryRow = MemoryRow(
    userId: string,
    category: string,
    entityType: string,
    entityName: Option<string>,
    content: string,
    importance: int,
    metadata: Metadata,
    embeddingText: string,
    isActive: bool)

  /** The `Memory` dataclass the store hands back. */
  datatype Memory = Memory(
    id: int,
    userId: string,
    category: string,
    entityType: string,
    entityName: Option<string>,
    content: string,
    importance: int,
    metadata: Metadata,
    isActive: bool,
    similarityScore: Option<int>)

  /** A row of `user_profiles`. */
  datatype ProfileRow = ProfileRow(name: Option<string>, location: Option<string>)

  /** A row of `conversation_episodes`; its id is its position plus one. */
  datatype EpisodeRow = EpisodeRow(
    userId: string,
    sessionId: string,
    summary: string,
    keyTopics: seq<string>,
    emotionalTone: string,
    embeddingText: string,
    startedAt: int,
    endedAt: int,
    durationMinutes: int,
    metadata: Metadata)

  datatype Db = Db(
    memories: seq<MemoryRow>,
    profiles: map<string, ProfileRow>,
    episodes: seq<EpisodeRow>)

  const EmptyDb := Db([], map[], [])

  predicate HasId(db: Db, id: int) {
    1 <= id <= |db.memories|
  }

  function RowAt(db: Db, id: int): MemoryRow
    requires HasId(db, id)
  {
    db.memories[id - 1]
  }

  /** The `Memory` built from a row. The row's `is_active` is never passed
      on, so the dataclass default `True` stands even for a deleted row. */
  function ToMemory(id: int, r: MemoryRow, score: Option<int>): Memory {
    Memory(id, r.userId, r.category, r.entityType, r.entityName, r.content,
           r.importance, r.metadata, true, score)
  }

  /** The text a memory's embedding is generated from:
      category, type, name (or nothing) and content, separated by spaces. */
  function EmbeddingText(category: string, entityType: string, entityName: Option<string>, content: string): string {
    category + " " + entityType + " " + OrEmpty(entityName) + " " + content
  }

  // ---------------------------------------------------------------- profiles

  /** `ensure_user_exists`: create the profile row when it is missing. */
  function EnsureUser(db: Db, user: string, name: Option<string>): (r: Db)
    ensures user in r.profiles
    ensures r.memories == db.memories && r.episodes == db.episodes
    ensures user in db.profiles ==> r == db
    ensures user !in db.profiles ==> r.profiles == db.profiles[user := ProfileRow(name, None)]
  {
    if user in db.profiles then db
    else db.(profiles := db.profiles[user := ProfileRow(name, None)])
  }

  // ------------------------------------------------------------ dedup lookup

  /** The dedup key of `add_memory`. */
  datatype DedupKey = DedupKey(userId: string, category: string, entityType: string, entityName: Option<string>)

  /** The stored name a lookup compares with: a non-empty name by equality,
      anything else (None or "") against NULL. */
  function LookupName(name: Option<string>): (r: Option<string>)
    ensures Truthy(name) ==> r == name
    ensures !Truthy(name) ==> r.None?
  {
    if Truthy(name) then name else None
  }

  predicate MatchesKey(r: MemoryRow, k: DedupKey) {
    && r.isActive
    && r.userId == k.userId
    && r.category == k.category
    && r.entityType == k.entityType
    && r.entityName == LookupName(k.entityName)
  }

  /** `_find_similar_memory`: the first active row matching the key, if any. */
  function FindSimilar(rows: seq<MemoryRow>, k: DedupKey): (r: Option<int>)
    ensures r.Some? ==> 1 <= r.value <= |rows| && MatchesKey(rows[r.value - 1], k)
    ensures r.None? <==> forall i :: 0 <= i < |rows| ==> !MatchesKey(rows[i], k)
  {
    match FirstIndex(rows, (row: MemoryRow) => MatchesKey(row, k))
    case None => None
    case Some(i) => Some(i + 1)
  }

  // ------------------------------------------------------------------ update

  /** A row after `update_memory` sets the given fields; a new content also
      rebuilds the embedding text from the row's own key. */
  function UpdatedRow(was: MemoryRow, content: Option<string>, importance: Option<int>, metadata: Option<Metadata>)
    : MemoryRow
  {
    was.(
      content := content.GetOr(was.content),
      importance := importance.GetOr(was.importance),
      metadata := metadata.GetOr(was.metadata),
      embeddingText := if content.Some? then EmbeddingText(was.category, was.entityType, was.entityName, content.value)
                       else was.embeddingText)
  }

  /** `update_memory`: a partial update of the supplied fields. Nothing is
      supplied, or no row has that id: nothing changes and None comes back.
      Whether the row is active, and whose it is, play no part. */
  function UpdateMemory(db: Db, id: int, content: Option<string>, importance: Option<int>, metadata: Option<Metadata>)
    : (r: (Db, Option<Memory>))
    ensures r.1.None? <==> (content.None? && importance.None? && metadata.None?) || !HasId(db, id)
    ensures r.1.None? ==> r.0 == db
    ensures r.0.profiles == db.profiles && r.0.episodes == db.episodes
    ensures |r.0.memories| == |db.memories|
    ensures forall j :: HasId(db, j) && j != id ==> RowAt(r.0, j) == RowAt(db, j)
    ensures r.1.Some? ==>
      var was, now := RowAt(db, id), RowAt(r.0, id);
      && r.1.value == ToMemory(id, now, None)
      && now.content == content.GetOr(was.content)
      && now.importance == importance.GetOr(was.importance)
      && now.metadata == metadata.GetOr(was.metadata)
      && now.embeddingText == (if content.Some? then EmbeddingText(was.category, was.entityType, was.entityName, content.value)
                               else was.embeddingText)
      && now.(content := was.content, importance := was.importance, metadata := was.metadata,
              embeddingText := was.embeddingText) == was
  {
    if content.None? && importance.None? && metadata.None? then (db, None)
    else if !HasId(db, id) then (db, None)
    else
      var now := UpdatedRow(RowAt(db, id), content, importance, metadata);
      (db.(memories := db.memories[id - 1 := now]), Some(ToMemory(id, now, None)))
  }

  // --------------------------------------------------------------------- add

  function NewRow(user: string, category: string, entityType: string, content: string,
                  entityName: Option<string>, importance: int, metadata: Option<Metadata>): MemoryRow {
    MemoryRow(user, category, entityType, entityName, content, importance, metadata.GetOr(map[]),
              EmbeddingText(category, entityType, entityName, content), true)
  }

  /** `add_memory`: make sure the profile exists; then, if an active row has
      the same key, update its content, importance and (when given)
      metadata and return it; otherwise insert one new active row. */
  function AddMemory(db: Db, user: string, category: string, entityType: string, content: string,
                     entityName: Option<string>, importance: int, metadata: Option<Metadata>)
    : (r: (Db, Memory))
    ensures user in r.0.profiles && r.0.episodes == db.episodes
    ensures |r.0.memories| >= |db.memories|
    ensures HasId(r.0, r.1.id) && r.1 == ToMemory(r.1.id, RowAt(r.0, r.1.id), None)
    ensures forall j :: HasId(db, j) && j != r.1.id ==> RowAt(r.0, j) == RowAt(db, j)
    ensures var k := DedupKey(user, category, entityType, entityName);
      match FindSimilar(db.memories, k)
      case Some(id) =>
        && r.1.id == id
        && |r.0.memories| == |db.memories|
        && RowAt(r.0, id) == RowAt(db, id).(
             content := content, importance := importance,
             metadata := metadata.GetOr(RowAt(db, id).metadata),
             embeddingText := EmbeddingText(category, entityType, RowAt(db, id).entityName, content))
      case None =>
        && r.1.id == |db.memories| + 1
        && r.0.memories == db.memories + [NewRow(user, category, entityType, content, entityName, importance, metadata)]
  {
    var d := EnsureUser(db, user, None);
    match FindSimilar(d.memories, DedupKey(user, category, entityType, entityName))
    case Some(id) =>
      var (d', m) := UpdateMemory(d, id, Some(content), Some(importance), metadata);
      (d', m.value)
    case None =>
      var row := NewRow(user, category, entityType, content, entityName, importance, metadata);
      (d.(memories := d.memories + [row]), ToMemory(|d.memories| + 1, row, None))
  }

  // ------------------------------------------------------------------ delete

  /** `delete_memory`: a soft delete. The row stays; only its flag drops.
      The answer is whether a row with that id exists, active or not. */
  function DeleteMemory(db: Db, id: int): (r: (Db, bool))
    ensures r.1 <==> HasId(db, id)
    ensures r.0.profiles == db.profiles && r.0.episodes == db.episodes
    ensures |r.0.memories| == |db.memories|
    ensures r.1 ==> RowAt(r.0, id) == RowAt(db, id).(isActive := false)
    ensures forall j :: HasId(db, j) && j != id ==> RowAt(r.0, j) == RowAt(db, j)
  {
    if HasId(db, id) then
      (db.(memories := db.memories[id - 1 := RowAt(db, id).(isActive := false)]), true)
    else (db, false)
  }

  // ------------------------------------------------------------------ search

  /** A row of the search query's result: the id, the row and its similarity. */
  datatype ScoredRow = ScoredRow(id: int, row: MemoryRow, score: int)

  function Scored(rows: seq<MemoryRow>, query: string, sim: (string, string) -> int): (r: seq<ScoredRow>)
    ensures |r| == |rows|
    ensures forall i :: 0 <= i < |rows| ==> r[i] == ScoredRow(i + 1, rows[i], sim(query, rows[i].embeddingText))
  {
    seq(|rows|, i requires 0 <= i < |rows| => ScoredRow(i + 1, rows[i], sim(query, rows[i].embeddingText)))
  }

  /** The query's `WHERE`: this user's active rows at or above the threshold,
      in the category when a (non-empty) one is given. */
  predicate InSearch(s: ScoredRow, user: string, category: Option<string>, minSimilarity: int) {
    && s.row.userId == user
    && s.row.isActive
    && s.score >= minSimilarity
    && (Truthy(category) ==> s.row.category == category.value)
  }

  function ScoreOf(s: ScoredRow): int { s.score }

  function Candidates(db: Db, user: string, query: string, category: Option<string>, minSimilarity: int,
                      sim: (string, string) -> int): seq<ScoredRow> {
    Filter(Scored(db.memories, query, sim), (s: ScoredRow) => InSearch(s, user, category, minSimilarity))
  }

  /** The query: `WHERE … ORDER BY similarity DESC LIMIT limit`. */
  function SearchRows(db: Db, user: string, query: string, category: Option<string>, limit: nat,
                      minSimilarity: int, sim: (string, string) -> int): seq<ScoredRow> {
    Take(SortDesc(Candidates(db, user, query, category, minSimilarity, sim), ScoreOf), limit)
  }

  /** Every row of the query qualifies and carries its own id and score. */
  lemma SearchRowsSound(db: Db, user: string, query: string, category: Option<string>, limit: nat,
                        minSimilarity: int, sim: (string, string) -> int)
    ensures var rows := SearchRows(db, user, query, category, limit, minSimilarity, sim);
      && |rows| <= limit
      && NonIncreasing(rows, ScoreOf)
      && forall i :: 0 <= i < |rows| ==>
           && InSearch(rows[i], user, category, minSimilarity)
           && HasId(db, rows[i].id) && rows[i].row == RowAt(db, rows[i].id)
           && rows[i].score == sim(query, rows[i].row.embeddingText)
  {
    var cands := Candidates(db, user, query, category, minSimilarity, sim);
    var sorted := SortDesc(cands, ScoreOf);
    var rows := Take(sorted, limit);
    var scored := Scored(db.memories, query, sim);
    TakeNonIncreasing(sorted, limit, ScoreOf);
    forall i | 0 <= i < |rows|
      ensures InSearch(rows[i], user, category, minSimilarity)
      ensures HasId(db, rows[i].id) && rows[i].row == RowAt(db, rows[i].id)
      ensures rows[i].score == sim(query, rows[i].row.embeddingText)
    {
      var s := rows[i];
      assert s == sorted[i];
      assert s in multiset(sorted);
      assert s in cands;
      assert s in scored && InSearch(s, user, category, minSimilarity);
      var k :| 0 <= k < |scored| && scored[k] == s;
    }
  }

  function ToMemories(rows: seq<ScoredRow>): (r: seq<Memory>)
    ensures |r| == |rows|
    ensures forall i :: 0 <= i < |rows| ==> r[i] == ToMemory(rows[i].id, rows[i].row, Some(rows[i].score))
  {
    seq(|rows|, i requires 0 <= i < |rows| => ToMemory(rows[i].id, rows[i].row, Some(rows[i].score)))
  }

  /** `search_memories`: the rows of the query, each carried with its score. */
  function SearchMemories(db: Db, user: string, query: string, category: Option<string>, limit: nat,
                          minSimilarity: int, sim: (string, string) -> int): seq<Memory> {
    ToMemories(SearchRows(db, user, query, category, limit, minSimilarity, sim))
  }

  /** Search answers at most `limit` of the user's active memories that meet
      the threshold (and the category, when one is given), each with its own
      similarity, best first. */
  lemma SearchMemoriesSound(db: Db, user: string, query: string, category: Option<string>, limit: nat,
                            minSimilarity: int, sim: (string, string) -> int)
    ensures var r := SearchMemories(db, user, query, category, limit, minSimilarity, sim);
      && |r| <= limit
      && (forall i :: 0 <= i < |r| ==>
            && HasId(db, r[i].id) && RowAt(db, r[i].id).isActive
            && r[i] == ToMemory(r[i].id, RowAt(db, r[i].id), Some(sim(query, RowAt(db, r[i].id).embeddingText))))
      && (forall i :: 0 <= i < |r| ==>
            && r[i].userId == user
            && r[i].similarityScore.Some? && r[i].similarityScore.value >= minSimilarity
            && (Truthy(category) ==> r[i].category == category.value))
      && (forall i, j :: 0 <= i < j < |r| ==> r[i].similarityScore.value >= r[j].similarityScore.value)
  {
    var rows := SearchRows(db, user, query, category, limit, minSimilarity, sim);
    SearchRowsSound(db, user, query, category, limit, minSimilarity, sim);
    var r := ToMemories(rows);
    forall i, j | 0 <= i < j < |r| ensures r[i].similarityScore.value >= r[j].similarityScore.value {
      assert ScoreOf(rows[i]) >= ScoreOf(rows[j]);
    }
  }

  /** Nothing that qualifies is lost except to the cap: a qualifying row
      missing from the result means the result is full and every returned
      memory scores at least as high. */
  lemma {:induction false} SearchKeepsBest(db: Db, user: string, query: string, category: Option<string>, limit: nat,
                                           minSimilarity: int, sim: (string, string) -> int, id: int)
    requires HasId(db, id)
    requires InSearch(ScoredRow(id, RowAt(db, id), sim(query, RowAt(db, id).embeddingText)), user, category, minSimilarity)
    ensures var r := SearchMemories(db, user, query, category, limit, minSimilarity, sim);
      || (exists i :: 0 <= i < |r| && r[i].id == id)
      || (|r| == limit && forall i :: 0 <= i < |r| ==> r[i].similarityScore.value >= sim(query, RowAt(db, id).embeddingText))
  {
    var r := SearchMemories(db, user, query, category, limit, minSimilarity, sim);
    var x := ScoredRow(id, RowAt(db, id), sim(query, RowAt(db, id).embeddingText));
    var cands := Candidates(db, user, query, category, minSimilarity, sim);
    var rows := SearchRows(db, user, query, category, limit, minSimilarity, sim);
    assert Scored(db.memories, query, sim)[id - 1] == x;
    assert x in cands;
    SearchRowsSound(db, user, query, category, limit, minSimilarity, sim);
    if x in rows {
      var i :| 0 <= i < |rows| && rows[i] == x;
      assert r[i].id == id;
    } else {
      TopK(cands, ScoreOf, limit, x);
      forall i | 0 <= i < |r| ensures r[i].similarityScore.value >= x.score {
        assert rows[i] in rows;
      }
    }
  }

  // ------------------------------------------------------------------ profile

  /** One entry of the profile's `memorias` lists. */
  datatype ProfileItem = ProfileItem(tipo: string, nome: Option<string>, info: string, importancia: int)

  /** What `get_user_profile` returns (the `membro_desde` timestamp left out). */
  datatype UserProfile = UserProfile(
    userId: string,
    nome: Option<string>,
    localizacao: Option<string>,
    memorias: map<string, seq<ProfileItem>>)

  function ItemOf(r: MemoryRow): ProfileItem {
    ProfileItem(r.entityType, r.entityName, r.content, r.importance)
  }

  function ItemsOf(rows: seq<MemoryRow>): (r: seq<ProfileItem>)
    ensures |r| == |rows| && forall i :: 0 <= i < |rows| ==> r[i] == ItemOf(rows[i])
  {
    seq(|rows|, i requires 0 <= i < |rows| => ItemOf(rows[i]))
  }

  function Importance(r: MemoryRow): int { r.importance }

  function ActiveRowsOf(db: Db, user: string): seq<MemoryRow> {
    Filter(db.memories, (r: MemoryRow) => r.userId == user && r.isActive)
  }

  /** The profile query: the user's active rows, by descending importance
      (`ORDER BY category, importance DESC`; the category order does not
      survive the grouping below, so it is not modelled). */
  function ProfileRows(db: Db, user: string): seq<MemoryRow> {
    SortDesc(ActiveRowsOf(db, user), Importance)
  }

  function CategoryIs(c: string): MemoryRow -> bool {
    (r: MemoryRow) => r.category == c
  }

  function InCategory(rows: seq<MemoryRow>, c: string): seq<MemoryRow> {
    Filter(rows, CategoryIs(c))
  }

  /** The `categorized` dict the grouping loop builds from the query rows. */
  function Categorize(rows: seq<MemoryRow>): map<string, seq<ProfileItem>> {
    if rows == [] then map[]
    else
      var g, last := Categorize(rows[..|rows| - 1]), rows[|rows| - 1];
      g[last.category := (if last.category in g then g[last.category] else []) + [ItemOf(last)]]
  }

  /** A category has a group iff some row has that category, and the group
      lists exactly those rows' items, in row order. */
  lemma {:induction false} CategorizeGroups(rows: seq<MemoryRow>, c: string)
    ensures c in Categorize(rows) <==> exists r :: r in rows && r.category == c
    ensures c in Categorize(rows) ==> Categorize(rows)[c] == ItemsOf(InCategory(rows, c))
    ensures c !in Categorize(rows) ==> InCategory(rows, c) == []
  {
    if rows != [] {
      var init, last := rows[..|rows| - 1], rows[|rows| - 1];
      CategorizeGroups(init, c);
      assert rows == init + [last];
      assert forall r :: r in rows <==> r in init || r == last;
      if last.category == c {
        var prev := InCategory(init, c);
        assert InCategory(rows, c) == prev + [last];
        assert ItemsOf(prev + [last]) == ItemsOf(prev) + [ItemOf(last)];
      } else {
        assert InCategory(rows, c) == InCategory(init, c);
      }
    }
  }

  /** The profile a (profile-ensured) database yields for a user. */
  function ProfileOf(db: Db, user: string): UserProfile {
    UserProfile(
      user,
      if user in db.profiles then db.profiles[user].name else None,
      if user in db.profiles then db.profiles[user].location else None,
      Categorize(ProfileRows(db, user)))
  }

  /** `get_user_profile`: ensure the profile row, then assemble the profile. */
  function GetUserProfile(db: Db, user: string): (r: (Db, UserProfile))
    ensures r.0 == EnsureUser(db, user, None)
    ensures r.1.userId == user
    ensures user in db.profiles ==> r.1.nome == db.profiles[user].name && r.1.localizacao == db.profiles[user].location
    ensures user !in db.profiles ==> r.1.nome.None? && r.1.localizacao.None?
  {
    var d := EnsureUser(db, user, None);
    (d, ProfileOf(d, user))
  }

  /** Each group of the profile is exactly the user's active memories of that
      category, rearranged by descending importance; a category has a group
      iff the user has an active memory in it. */
  lemma {:induction false} ProfileGroupsActiveMemories(db: Db, user: string, c: string)
    ensures var p := GetUserProfile(db, user).1;
      && (c in p.memorias <==> exists r :: r in db.memories && r.userId == user && r.isActive && r.category == c)
      && (c in p.memorias ==>
            var g := InCategory(ProfileRows(db, user), c);
            && p.memorias[c] == ItemsOf(g)
            && multiset(g) == multiset(InCategory(ActiveRowsOf(db, user), c))
            && NonIncreasing(g, Importance))
  {
    var d := EnsureUser(db, user, None);
    assert d.memories == db.memories;
    var active := ActiveRowsOf(db, user);
    var rows := ProfileRows(db, user);
    assert GetUserProfile(db, user).1.memorias == Categorize(rows);
    FilterPermutation(rows, active, CategoryIs(c));
    FilterNonIncreasing(rows, CategoryIs(c), Importance);
    CategorizeGroups(rows, c);
    assert forall r :: r in rows <==> r in active by {
      forall r ensures r in rows <==> r in active {
        assert r in rows <==> r in multiset(rows);
      }
    }
  }

  // ----------------------------------------------------------------- episodes

  /** `save_episode`: ensure the profile, append one episode; its id is returned.
      The embedding is made from the summary; `ended_at` is the time of saving. */
  function SaveEpisode(db: Db, user: string, sessionId: string, summary: string, keyTopics: seq<string>,
                       emotionalTone: string, startedAt: int, durationMinutes: int, metadata: Option<Metadata>,
                       now: int): (r: (Db, int))
    ensures r.0.memories == db.memories
    ensures r.0.profiles == EnsureUser(db, user, None).profiles
    ensures r.0.episodes == db.episodes + [EpisodeRow(user, sessionId, summary, keyTopics, emotionalTone, summary,
                                                      startedAt, now, durationMinutes, metadata.GetOr(map[]))]
    ensures r.1 == |r.0.episodes|
  {
    var d := EnsureUser(db, user, None);
    var e := EpisodeRow(user, sessionId, summary, keyTopics, emotionalTone, summary,
                        startedAt, now, durationMinutes, metadata.GetOr(map[]));
    (d.(episodes := d.episodes + [e]), |d.episodes| + 1)
  }

  /** One entry of `get_recent_episodes` (timestamps kept as numbers). */
  datatype EpisodeSummary = EpisodeSummary(
    sessionId: string,
    resumo: string,
    topicos: seq<string>,
    tomEmocional: string,
    inicio: int,
    fim: int,
    duracaoMinutos: int)

  function SummaryOf(e: EpisodeRow): EpisodeSummary {
    EpisodeSummary(e.sessionId, e.summary, e.keyTopics, e.emotionalTone, e.startedAt, e.endedAt, e.durationMinutes)
  }

  function EndedAt(e: EpisodeRow): int { e.endedAt }

  function EpisodesOf(db: Db, user: string): seq<EpisodeRow> {
    Filter(db.episodes, (e: EpisodeRow) => e.userId == user)
  }

  function RecentRows(db: Db, user: string, limit: nat): seq<EpisodeRow> {
    Take(SortDesc(EpisodesOf(db, user), EndedAt), limit)
  }

  function ToSummaries(rows: seq<EpisodeRow>): (r: seq<EpisodeSummary>)
    ensures |r| == |rows|
    ensures forall i :: 0 <= i < |rows| ==> r[i] == SummaryOf(rows[i])
  {
    seq(|rows|, i requires 0 <= i < |rows| => SummaryOf(rows[i]))
  }

  /** `get_recent_episodes`. */
  function RecentEpisodes(db: Db, user: string, limit: nat): seq<EpisodeSummary> {
    ToSummaries(RecentRows(db, user, limit))
  }

  /** At most `limit` of the user's own episodes, newest first. */
  lemma RecentEpisodesSound(db: Db, user: string, limit: nat)
    ensures var r := RecentEpisodes(db, user, limit);
      && |r| <= limit
      && (forall i :: 0 <= i < |r| ==> r[i] in ToSummaries(EpisodesOf(db, user)))
      && (forall i, j :: 0 <= i < j < |r| ==> r[i].fim >= r[j].fim)
  {
    var rows := RecentRows(db, user, limit);
    var mine := EpisodesOf(db, user);
    var r := RecentEpisodes(db, user, limit);
    assert r == ToSummaries(rows);
    RecentRowsMine(db, user, limit);
    RecentRowsNewestFirst(db, user, limit);
    forall i | 0 <= i < |r| ensures r[i] in ToSummaries(mine) {
      var e := rows[i];
      assert e in rows;
      var k :| 0 <= k < |mine| && mine[k] == e;
      assert ToSummaries(mine)[k] == r[i];
    }
    forall i, j | 0 <= i < j < |r| ensures r[i].fim >= r[j].fim {
      assert EndedAt(rows[i]) >= EndedAt(rows[j]);
    }
  }

  lemma RecentRowsMine(db: Db, user: string, limit: nat)
    ensures forall e :: e in RecentRows(db, user, limit) ==> e in EpisodesOf(db, user)
  {
    var mine := EpisodesOf(db, user);
    var sorted := SortDesc(mine, EndedAt);
    forall e | e in RecentRows(db, user, limit) ensures e in mine {
      assert e in multiset(sorted);
    }
  }

  lemma RecentRowsNewestFirst(db: Db, user: string, limit: nat)
    ensures NonIncreasing(RecentRows(db, user, limit), EndedAt)
  {
    TakeNonIncreasing(SortDesc(EpisodesOf(db, user), EndedAt), limit, EndedAt);
  }

  /** An episode of the user that is not listed means the list is full and
      every listed episode ended no earlier. */
  lemma RecentEpisodesKeepNewest(db: Db, user: string, limit: nat, e: EpisodeRow)
    requires e in db.episodes && e.userId == user
    requires SummaryOf(e) !in RecentEpisodes(db, user, limit)
    ensures |RecentEpisodes(db, user, limit)| == limit
    ensures forall s :: s in RecentEpisodes(db, user, limit) ==> s.fim >= e.endedAt
  {
    var r := RecentEpisodes(db, user, limit);
    var rows := RecentRows(db, user, limit);
    var mine := EpisodesOf(db, user);
    assert e !in rows by {
      forall i | 0 <= i < |rows| ensures rows[i] != e {
        assert r[i] == SummaryOf(rows[i]);
        assert r[i] in r;
      }
    }
    TopK(mine, EndedAt, limit, e);
    forall s | s in r ensures s.fim >= e.endedAt {
      var i :| 0 <= i < |r| && r[i] == s;
      assert rows[i] in rows;
    }
  }

  // ------------------------------------------------------------ invariants

  /** Two active rows with the same dedup key, as stored. */
  predicate SameActiveKey(a: MemoryRow, b: MemoryRow) {
    && a.isActive && b.isActive
    && a.userId == b.userId && a.category == b.category
    && a.entityType == b.entityType && a.entityName == b.entityName
  }

  /** At most one active row per key, for every key a lookup can find
      (a stored name of "" is never looked up, so it is exempt). */
  ghost predicate KeyUnique(db: Db) {
    forall i, j :: 0 <= i < j < |db.memories| && db.memories[i].entityName != Some("") ==>
      !SameActiveKey(db.memories[i], db.memories[j])
  }

  lemma UpdateKeepsKeyUnique(db: Db, id: int, content: Option<string>, importance: Option<int>, metadata: Option<Metadata>)
    requires KeyUnique(db)
    ensures KeyUnique(UpdateMemory(db, id, content, importance, metadata).0)
  {
    var d := UpdateMemory(db, id, content, importance, metadata).0;
    forall i, j | 0 <= i < j < |d.memories| && d.memories[i].entityName != Some("")
      ensures !SameActiveKey(d.memories[i], d.memories[j])
    {
      assert RowAt(d, i + 1) == d.memories[i] && RowAt(d, j + 1) == d.memories[j];
    }
  }

  lemma DeleteKeepsKeyUnique(db: Db, id: int)
    requires KeyUnique(db)
    ensures KeyUnique(DeleteMemory(db, id).0)
  {
    var d := DeleteMemory(db, id).0;
    forall i, j | 0 <= i < j < |d.memories| && d.memories[i].entityName != Some("")
      ensures !SameActiveKey(d.memories[i], d.memories[j])
    {
      assert RowAt(d, i + 1) == d.memories[i] && RowAt(d, j + 1) == d.memories[j];
    }
  }

  /** The dedup invariant: `add_memory` keeps at most one active row per key,
      and for a key with a name other than "" the returned memory is then the
      only active row with that key, holding the new content. */
  lemma {:induction false} AddKeepsOneActivePerKey(db: Db, user: string, category: string, entityType: string, content: string,
                                                   entityName: Option<string>, importance: int, metadata: Option<Metadata>)
    requires KeyUnique(db)
    ensures var (d, m) := AddMemory(db, user, category, entityType, content, entityName, importance, metadata);
      && KeyUnique(d)
      && RowAt(d, m.id).content == content
      && RowAt(d, m.id).isActive
      && (entityName != Some("") ==>
            forall j :: HasId(d, j) && MatchesKey(RowAt(d, j), DedupKey(user, category, entityType, entityName)) <==> j == m.id)
  {
    var k := DedupKey(user, category, entityType, entityName);
    var (d, m) := AddMemory(db, user, category, entityType, content, entityName, importance, metadata);
    match FindSimilar(db.memories, k)
    case Some(id) =>
      assert forall j :: HasId(d, j) ==> RowAt(d, j).(content := RowAt(db, j).content, importance := RowAt(db, j).importance,
        metadata := RowAt(db, j).metadata, embeddingText := RowAt(db, j).embeddingText) == RowAt(db, j);
      forall i, j | 0 <= i < j < |d.memories| && d.memories[i].entityName != Some("")
        ensures !SameActiveKey(d.memories[i], d.memories[j])
      {
        assert RowAt(d, i + 1) == d.memories[i] && RowAt(d, j + 1) == d.memories[j];
        assert SameActiveKey(d.memories[i], d.memories[j]) == SameActiveKey(db.memories[i], db.memories[j]);
      }
      if entityName != Some("") {
        forall j | HasId(d, j) && MatchesKey(RowAt(d, j), k) ensures j == m.id {
          var rj, rid := RowAt(db, j), RowAt(db, id);
          assert MatchesKey(rj, k) && MatchesKey(rid, k);
          assert j != id ==> SameActiveKey(rj, rid);
        }
      }
    case None =>
      var row := NewRow(user, category, entityType, content, entityName, importance, metadata);
      forall i, j | 0 <= i < j < |d.memories| && d.memories[i].entityName != Some("")
        ensures !SameActiveKey(d.memories[i], d.memories[j])
      {
        if j == |db.memories| {
          assert d.memories[j] == row;
          if entityName != Some("") {
            assert !MatchesKey(db.memories[i], k);
          }
        } else {
          assert d.memories[i] == db.memories[i] && d.memories[j] == db.memories[j];
        }
      }
      if entityName != Some("") {
        forall j | HasId(d, j) && MatchesKey(RowAt(d, j), k) ensures j == m.id {
        }
      }
  }

  /** Adding the same named entity twice leaves one active row for its key,
      holding the second content. */
  lemma AddTwiceKeepsSecond(db: Db, user: string, category: string, entityType: string, name: string,
                            first: string, second: string, importance: int, metadata: Option<Metadata>)
    requires KeyUnique(db) && name != ""
    ensures var d1 := AddMemory(db, user, category, entityType, first, Some(name), importance, metadata).0;
      var d2 := AddMemory(d1, user, category, entityType, second, Some(name), importance, metadata).0;
      var k := DedupKey(user, category, entityType, Some(name));
      && KeyUnique(d2)
      && exists id :: HasId(d2, id) && MatchesKey(RowAt(d2, id), k) && RowAt(d2, id).content == second
                      && forall j :: HasId(d2, j) && MatchesKey(RowAt(d2, j), k) ==> j == id
  {
    var d1 := AddMemory(db, user, category, entityType, first, Some(name), importance, metadata).0;
    AddKeepsOneActivePerKey(db, user, category, entityType, first, Some(name), importance, metadata);
    var (d2, m2) := AddMemory(d1, user, category, entityType, second, Some(name), importance, metadata);
    AddKeepsOneActivePerKey(d1, user, category, entityType, second, Some(name), importance, metadata);
    var k := DedupKey(user, category, entityType, Some(name));
    assert MatchesKey(RowAt(d2, m2.id), k);
  }

  /** An entity name of "" is stored as "" but looked up as NULL, so adding it
      twice, with no unnamed row for the key, leaves two active rows. */
  lemma EmptyNameIsNeverDeduplicated(db: Db, user: string, category: string, entityType: string,
                                     first: string, second: string, importance: int)
    requires FindSimilar(db.memories, DedupKey(user, category, entityType, None)).None?
    ensures var d1 := AddMemory(db, user, category, entityType, first, Some(""), importance, None).0;
      var d2 := AddMemory(d1, user, category, entityType, second, Some(""), importance, None).0;
      && |d2.memories| == |db.memories| + 2
      && SameActiveKey(d2.memories[|db.memories|], d2.memories[|db.memories| + 1])
      && d2.memories[|db.memories|].content == first
      && d2.memories[|db.memories| + 1].content == second
  {
    var k := DedupKey(user, category, entityType, Some(""));
    assert LookupName(Some("")) == None;
    assert FindSimilar(db.memories, k).None?;
    var d1 := AddMemory(db, user, category, entityType, first, Some(""), importance, None).0;
    assert !MatchesKey(d1.memories[|db.memories|], k);
    assert FindSimilar(d1.memories, k).None?;
  }

  /** A soft-deleted memory stays in the table but no longer shows up in search. */
  lemma DeletedMemoryIsHidden(db: Db, id: int, user: string, query: string, category: Option<string>, limit: nat,
                              minSimilarity: int, sim: (string, string) -> int)
    requires HasId(db, id)
    ensures var d := DeleteMemory(db, id).0;
      && HasId(d, id) && !RowAt(d, id).isActive
      && RowAt(d, id).content == RowAt(db, id).content
      && forall m :: m in SearchMemories(d, user, query, category, limit, minSimilarity, sim) ==> m.id != id
  {
    var d := DeleteMemory(db, id).0;
    var r := SearchMemories(d, user, query, category, limit, minSimilarity, sim);
    SearchMemoriesSound(d, user, query, category, limit, minSimilarity, sim);
    forall m | m in r ensures m.id != id {
      var i :| 0 <= i < |r| && r[i] == m;
    }
  }

  /** Updating a soft-deleted memory succeeds and answers a memory marked
      active, while its row stays inactive. */
  lemma UpdateAfterDeleteLooksActive(db: Db, id: int, content: string)
    requires HasId(db, id)
    ensures var d := DeleteMemory(db, id).0;
      var (d', m) := UpdateMemory(d, id, Some(content), None, None);
      && m.Some? && m.value.isActive && m.value.content == content
      && !RowAt(d', id).isActive
  {
  }

  /** Deleting twice answers true twice: the second call finds the row too. */
  lemma DeleteTwiceAnswersTrue(db: Db, id: int)
    requires HasId(db, id)
    ensures var (d, first) := DeleteMemory(db, id);
      first && DeleteMemory(d, id).1 && DeleteMemory(d, id).0 == d
  {
  }
}
