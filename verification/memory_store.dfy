/** `MemoryStore` as an object over the three tables. Each SQL statement is
    one step on the fields; the Python around it (building the `SET` list,
    turning result rows into `Memory` values, grouping the profile) is kept
    as written. Every method is proved to have exactly the effect and result
    that `MemoryModel` defines, so the lemmas proved there hold of the store. */
module Database {
  import opened Common
  import opened MemoryModel

  /** Default `limit` and `min_similarity` of `search_memories`; similarities
      are counted in thousandths. */
  const DefaultSearchLimit: nat := 10
  const DefaultMinSimilarity: int := 500
  /** Default `limit` of `get_recent_episodes`. */
  const DefaultEpisodeLimit: nat := 5

  /** One assignment of the `SET` clause `update_memory` builds. */
  datatype FieldUpdate =
    | SetContent(content: string)
    | SetEmbedding(text: string)
    | SetImportance(importance: int)
    | SetMetadata(metadata: Metadata)

  function ApplyField(r: MemoryRow, u: FieldUpdate): MemoryRow {
    match u
    case SetContent(c) => r.(content := c)
    case SetEmbedding(t) => r.(embeddingText := t)
    case SetImportance(i) => r.(importance := i)
    case SetMetadata(m) => r.(metadata := m)
  }

  /** `SET a = …, b = …`: the assignments in order. */
  function ApplyUpdates(r: MemoryRow, us: seq<FieldUpdate>): MemoryRow {
    if us == [] then r else ApplyField(ApplyUpdates(r, us[..|us| - 1]), us[|us| - 1])
  }

  lemma ApplyUpdatesSnoc(r: MemoryRow, us: seq<FieldUpdate>, u: FieldUpdate)
    ensures ApplyUpdates(r, us + [u]) == ApplyField(ApplyUpdates(r, us), u)
  {
    assert (us + [u])[..|us|] == us;
  }

  class MemoryStore {
    var memories: seq<MemoryRow>
    var profiles: map<string, ProfileRow>
    var episodes: seq<EpisodeRow>
    /** Similarity (in thousandths) between a query and a row's embedding text:
        the embedding model and pgvector's cosine distance. */
    const sim: (string, string) -> int

    function State(): Db
      reads this
    {
      Db(memories, profiles, episodes)
    }

    constructor(sim: (string, string) -> int)
      ensures State() == EmptyDb && this.sim == sim
    {
      memories, profiles, episodes := [], map[], [];
      this.sim := sim;
    }

    /** `ensure_user_exists` */
    method EnsureUserExists(user: string, name: Option<string>)
      modifies this
      ensures State() == EnsureUser(old(State()), user, name)
    {
      if user !in profiles {
        profiles := profiles[user := ProfileRow(name, None)];
      }
    }

    /** `update_memory` */
    /** The `SET` list of `update_memory`, one assignment per given field
        in the order content, embedding, importance, metadata; the embedding
        is rebuilt only when the row exists. Applied to an existing row it
        gives exactly `UpdatedRow`. */
    method SetClause(id: int, content: Option<string>, importance: Option<int>, metadata: Option<Metadata>)
      returns (updates: seq<FieldUpdate>)
      ensures updates == [] <==> content.None? && importance.None? && metadata.None?
      ensures HasId(State(), id) ==>
        ApplyUpdates(RowAt(State(), id), updates) == UpdatedRow(RowAt(State(), id), content, importance, metadata)
    {
      updates := [];
      ghost var was := if HasId(State(), id) then RowAt(State(), id) else MemoryRow("", "", "", None, "", 0, map[], "", false);
      if content.Some? {
        ApplyUpdatesSnoc(was, updates, SetContent(content.value));
        updates := updates + [SetContent(content.value)];
        if 1 <= id <= |memories| {
          var row := memories[id - 1];
          var text := EmbeddingText(row.category, row.entityType, row.entityName, content.value);
          ApplyUpdatesSnoc(was, updates, SetEmbedding(text));
          updates := updates + [SetEmbedding(text)];
        }
      }
      if importance.Some? {
        ApplyUpdatesSnoc(was, updates, SetImportance(importance.value));
        updates := updates + [SetImportance(importance.value)];
      }
      if metadata.Some? {
        ApplyUpdatesSnoc(was, updates, SetMetadata(metadata.value));
        updates := updates + [SetMetadata(metadata.value)];
      }
    }

    method UpdateMemory(id: int, content: Option<string>, importance: Option<int>, metadata: Option<Metadata>)
      returns (m: Option<Memory>)
      modifies this
      ensures (State(), m) == MemoryModel.UpdateMemory(old(State()), id, content, importance, metadata)
    {
      var updates := SetClause(id, content, importance, metadata);
      if updates == [] {
        return None;
      }
      if !(1 <= id <= |memories|) {
        return None;
      }
      var row := ApplyUpdates(memories[id - 1], updates);
      memories := memories[id - 1 := row];
      m := Some(ToMemory(id, row, None));
    }

    /** `add_memory` */
    method AddMemory(user: string, category: string, entityType: string, content: string,
                     entityName: Option<string>, importance: int, metadata: Option<Metadata>)
      returns (m: Memory)
      modifies this
      ensures (State(), m) == MemoryModel.AddMemory(old(State()), user, category, entityType, content,
                                                    entityName, importance, metadata)
    {
      EnsureUserExists(user, None);
      var existing := FindSimilar(memories, DedupKey(user, category, entityType, entityName));
      if existing.Some? {
        var updated := UpdateMemory(existing.value, Some(content), Some(importance), metadata);
        return updated.value;
      }
      var row := NewRow(user, category, entityType, content, entityName, importance, metadata);
      memories := memories + [row];
      m := ToMemory(|memories|, row, None);
    }

    /** `delete_memory`: true when the statement reports one row updated. */
    method DeleteMemory(id: int) returns (deleted: bool)
      modifies this
      ensures (State(), deleted) == MemoryModel.DeleteMemory(old(State()), id)
    {
      var updatedRows := 0;
      if 1 <= id <= |memories| {
        memories := memories[id - 1 := memories[id - 1].(isActive := false)];
        updatedRows := 1;
      }
      deleted := updatedRows == 1;
    }

    /** `search_memories`: run the query, then turn each row into a `Memory`. */
    method SearchMemories(user: string, query: string, category: Option<string>, limit: nat, minSimilarity: int)
      returns (result: seq<Memory>)
      ensures result == MemoryModel.SearchMemories(State(), user, query, category, limit, minSimilarity, sim)
    {
      var rows := SearchRows(State(), user, query, category, limit, minSimilarity, sim);
      result := [];
      for i := 0 to |rows|
        invariant |result| == i
        invariant forall k :: 0 <= k < i ==> result[k] == ToMemory(rows[k].id, rows[k].row, Some(rows[k].score))
      {
        result := result + [ToMemory(rows[i].id, rows[i].row, Some(rows[i].score))];
      }
    }

    /** `get_user_profile`: ensure the profile, run the query, group by category. */
    /** The grouping loop of `get_user_profile`: each row joins the end of
        its category's group, a new category starting an empty group. */
    static method CategorizeRows(rows: seq<MemoryRow>) returns (categorized: map<string, seq<ProfileItem>>)
      ensures categorized == Categorize(rows)
    {
      categorized := map[];
      for i := 0 to |rows|
        invariant categorized == Categorize(rows[..i])
      {
        assert rows[..i + 1][..i] == rows[..i];
        var cat := rows[i].category;
        if cat !in categorized {
          categorized := categorized[cat := []];
        }
        categorized := categorized[cat := categorized[cat] + [ItemOf(rows[i])]];
      }
      assert rows[..|rows|] == rows;
    }

    method GetUserProfile(user: string) returns (p: UserProfile)
      modifies this
      ensures (State(), p) == MemoryModel.GetUserProfile(old(State()), user)
    {
      EnsureUserExists(user, None);
      var categorized := CategorizeRows(ProfileRows(State(), user));
      p := UserProfile(
        user,
        if user in profiles then profiles[user].name else None,
        if user in profiles then profiles[user].location else None,
        categorized);
    }

    /** `save_episode`; `now` is the database's clock when the row is written. */
    method SaveEpisode(user: string, sessionId: string, summary: string, keyTopics: seq<string>, emotionalTone: string,
                       startedAt: int, durationMinutes: int, metadata: Option<Metadata>, now: int)
      returns (id: int)
      modifies this
      ensures (State(), id) == MemoryModel.SaveEpisode(old(State()), user, sessionId, summary, keyTopics,
                                                      emotionalTone, startedAt, durationMinutes, metadata, now)
    {
      EnsureUserExists(user, None);
      episodes := episodes + [EpisodeRow(user, sessionId, summary, keyTopics, emotionalTone, summary,
                                         startedAt, now, durationMinutes, metadata.GetOr(map[]))];
      id := |episodes|;
    }

    /** `get_recent_episodes` */
    method GetRecentEpisodes(user: string, limit: nat) returns (result: seq<EpisodeSummary>)
      ensures result == RecentEpisodes(State(), user, limit)
    {
      var rows := RecentRows(State(), user, limit);
      result := [];
      for i := 0 to |rows|
        invariant result == ToSummaries(rows[..i])
      {
        result := result + [SummaryOf(rows[i])];
      }
      assert rows[..|rows|] == rows;
    }
  }
}
