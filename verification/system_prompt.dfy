/** The context injected into the agent's system prompt: the time of day
    and date in Portuguese, the user's profile and the recent episodes as
    text. The formatters are specified as functions over the store's
    results; the methods build the same text the way the source does, one
    list entry at a time. */
module SystemPrompt {
  import opened Common
  import opened Ranking
  import opened MemoryModel

  // ------------------------------------------------------ time of day, date

  /** `periodo` and `saudacao`. */
  datatype DayPart = DayPart(periodo: string, saudacao: string)

  const Morning := DayPart("manhã", "Bom dia")
  const Afternoon := DayPart("tarde", "Boa tarde")
  const Night := DayPart("noite", "Boa noite")

  /** Hours 5-11 are morning, 12-19 afternoon, every other hour night. */
  function PartOfDay(hour: int): (r: DayPart)
    ensures r == Morning <==> 5 <= hour < 12
    ensures r == Afternoon <==> 12 <= hour < 20
    ensures r == Night <==> hour < 5 || 20 <= hour
  {
    if 5 <= hour < 12 then Morning
    else if 12 <= hour < 20 then Afternoon
    else Night
  }

  /** `dias`, indexed by `weekday()` (Monday is 0). */
  const Days: seq<string> := ["segunda-feira", "terça-feira", "quarta-feira", "quinta-feira",
                               "sexta-feira", "sábado", "domingo"]

  /** `meses`, indexed by `month - 1`. */
  const Months: seq<string> := ["janeiro", "fevereiro", "março", "abril", "maio", "junho",
                                 "julho", "agosto", "setembro", "outubro", "novembro", "dezembro"]

  function DayName(weekday: int): (r: string)
    requires 0 <= weekday < 7
    ensures r in Days && r == Days[weekday]
  {
    Days[weekday]
  }

  function MonthName(month: int): (r: string)
    requires 1 <= month <= 12
    ensures r in Months && r == Months[month - 1]
  {
    Months[month - 1]
  }

  /** Two digits, as `%H` and `%M` print them. */
  function TwoDigits(n: nat): (r: string)
    requires n < 100
    ensures |r| == 2 && '0' <= r[0] <= '9' && '0' <= r[1] <= '9'
    ensures (r[0] as int - '0' as int) * 10 + (r[1] as int - '0' as int) == n
  {
    [DigitChar(n / 10), DigitChar(n % 10)]
  }

  /** What `get_current_context` returns. */
  datatype TimeContext = TimeContext(dataCompleta: string, hora: string, periodo: string, saudacao: string, diaSemana: string)

  /** `get_current_context` for the Lisbon clock reading given (reading the
      clock is outside this model). */
  function CurrentContext(year: nat, month: int, day: nat, hour: int, minute: int, weekday: int): (r: TimeContext)
    requires 1 <= month <= 12 && 0 <= hour < 24 && 0 <= minute < 60 && 0 <= weekday < 7
    ensures r.diaSemana == Days[weekday]
    ensures r.dataCompleta == Days[weekday] + ", " + NatToString(day) + " de " + Months[month - 1] + " de " + NatToString(year)
    ensures |r.hora| == 5 && r.hora[2] == ':'
    ensures (r.hora[0] as int - '0' as int) * 10 + (r.hora[1] as int - '0' as int) == hour
    ensures (r.hora[3] as int - '0' as int) * 10 + (r.hora[4] as int - '0' as int) == minute
    ensures DayPart(r.periodo, r.saudacao) == PartOfDay(hour)
  {
    var part := PartOfDay(hour);
    var dia := DayName(weekday);
    TimeContext(
      dia + ", " + NatToString(day) + " de " + MonthName(month) + " de " + NatToString(year),
      TwoDigits(hour) + ":" + TwoDigits(minute),
      part.periodo, part.saudacao, dia)
  }

  // ------------------------------------------------------------ the profile

  /** `str.capitalize` on ASCII letters: the first upper case, the rest lower. */
  function Upper(c: char): char {
    if 'a' <= c <= 'z' then (c as int - 32) as char else c
  }

  function Lower(c: char): char {
    if 'A' <= c <= 'Z' then (c as int + 32) as char else c
  }

  function Capitalize(s: string): string {
    if s == [] then []
    else if |s| == 1 then [Upper(s[0])]
    else Capitalize(s[..|s| - 1]) + [Lower(s[|s| - 1])]
  }

  /** The first letter in upper case, every other in lower case. */
  lemma {:induction false} CapitalizeSpec(s: string)
    ensures |Capitalize(s)| == |s|
    ensures s != [] ==> Capitalize(s)[0] == Upper(s[0])
    ensures forall i :: 1 <= i < |s| ==> Capitalize(s)[i] == Lower(s[i])
  {
    if |s| > 1 {
      CapitalizeSpec(s[..|s| - 1]);
    }
  }

  /** Capitalizing twice is capitalizing once. */
  lemma CapitalizeIdempotent(s: string)
    ensures Capitalize(Capitalize(s)) == Capitalize(s)
  {
    CapitalizeSpec(s);
    CapitalizeSpec(Capitalize(s));
    var c, cc := Capitalize(s), Capitalize(Capitalize(s));
    forall i | 0 <= i < |s| ensures cc[i] == c[i] {
      if i == 0 {
        assert Upper(Upper(s[0])) == Upper(s[0]);
      } else {
        assert Lower(Lower(s[i])) == Lower(s[i]);
      }
    }
  }

  // The fixed texts are written as a short head plus the rest: the proofs
  // that tell them apart read their first characters, which the verifier
  // finds at once in the head but only slowly in one long literal.
  const NoMemories: string := "Não " + "existem memórias guardadas sobre este utilizador."
  const NoDetails: string := "Perfil " + "ainda sem memórias detalhadas."

  /** How a category prints each of its items. */
  datatype LineStyle =
    | FamilyStyle   // "  - Tipo: nome - info"
    | InfoStyle     // "  - info"
    | HobbyStyle    // "  - nome", the key is always there, so a missing name prints None

  function ItemLine(style: LineStyle, item: ProfileItem): string {
    match style
    case FamilyStyle => "  - " + Capitalize(item.tipo) + ": " + PyStr(item.nome) + " - " + item.info
    case InfoStyle => "  - " + item.info
    case HobbyStyle => "  - " + PyStr(item.nome)
  }

  /** One line per item, in the order of the items. */
  function Lines(items: seq<ProfileItem>, style: LineStyle): seq<string> {
    if items == [] then [] else Lines(items[..|items| - 1], style) + [ItemLine(style, items[|items| - 1])]
  }

  lemma {:induction false} LinesSpec(items: seq<ProfileItem>, style: LineStyle)
    ensures |Lines(items, style)| == |items|
    ensures forall i :: 0 <= i < |items| ==> Lines(items, style)[i] == ItemLine(style, items[i])
  {
    if items != [] {
      LinesSpec(items[..|items| - 1], style);
    }
  }

  /** The section of one category, when it has items: its title, then its lines. */
  function CategorySection(memorias: map<string, seq<ProfileItem>>, key: string, title: string, style: LineStyle): seq<string> {
    if key in memorias && memorias[key] != [] then [title + ":\n" + Join("\n", Lines(memorias[key], style))] else []
  }

  /** The name and location sections, when there are a name and a location. */
  function Header(p: UserProfile): seq<string> {
    (if Truthy(p.nome) then ["Nome: " + p.nome.value] else [])
    + (if Truthy(p.localizacao) then ["Localização: " + p.localizacao.value] else [])
  }

  /** The sections of a profile: name, location, then the categories in
      their fixed order. */
  function ProfileSections(p: UserProfile): seq<string> {
    Header(p)
    + CategorySection(p.memorias, "familia", "Família", FamilyStyle)
    + CategorySection(p.memorias, "saude", "Saúde", InfoStyle)
    + CategorySection(p.memorias, "hobbies", "Hobbies/Interesses", HobbyStyle)
    + CategorySection(p.memorias, "interesses", "Tópicos de Interesse", InfoStyle)
    + CategorySection(p.memorias, "geral", "Outras Informações", InfoStyle)
  }

  /** `format_user_profile` */
  function ProfileText(profile: Option<UserProfile>): string {
    if profile.None? || profile.value.memorias == map[] then NoMemories
    else
      var sections := ProfileSections(profile.value);
      if sections == [] then NoDetails else Join("\n\n", sections)
  }

  predicate KnownCategory(key: string) {
    key in {"familia", "saude", "hobbies", "interesses", "geral"}
  }

  /** Memories of an unknown category never reach the text. */
  lemma UnknownCategoryIgnored(p: UserProfile, key: string, items: seq<ProfileItem>)
    requires !KnownCategory(key)
    requires p.memorias != map[]
    ensures ProfileText(Some(p.(memorias := p.memorias[key := items]))) == ProfileText(Some(p))
  {
    var m, m' := p.memorias, p.memorias[key := items];
    assert forall k :: KnownCategory(k) ==> (k in m' <==> k in m) && (k in m ==> m'[k] == m[k]);
    assert ProfileSections(p.(memorias := m')) == ProfileSections(p) by {
      assert CategorySection(m', "familia", "Família", FamilyStyle) == CategorySection(m, "familia", "Família", FamilyStyle);
      assert CategorySection(m', "saude", "Saúde", InfoStyle) == CategorySection(m, "saude", "Saúde", InfoStyle);
      assert CategorySection(m', "hobbies", "Hobbies/Interesses", HobbyStyle) == CategorySection(m, "hobbies", "Hobbies/Interesses", HobbyStyle);
      assert CategorySection(m', "interesses", "Tópicos de Interesse", InfoStyle) == CategorySection(m, "interesses", "Tópicos de Interesse", InfoStyle);
      assert CategorySection(m', "geral", "Outras Informações", InfoStyle) == CategorySection(m, "geral", "Outras Informações", InfoStyle);
    }
  }

  /** A profile whose memories are all of unknown categories has no detail
      to show. */
  lemma OnlyUnknownCategories(p: UserProfile)
    requires p.memorias != map[] && !Truthy(p.nome) && !Truthy(p.localizacao)
    requires forall k :: k in p.memorias ==> !KnownCategory(k)
    ensures ProfileText(Some(p)) == NoDetails
  {
    assert ProfileSections(p) == [];
  }

  /** Every section starts differently from both fallback texts. */
  predicate Heading(s: string) {
    |s| >= 2 && s[0] != 'P' && !(s[0] == 'N' && s[1] == 'ã')
  }

  lemma SectionIsHeading(m: map<string, seq<ProfileItem>>, key: string, title: string, style: LineStyle)
    requires Heading(title)
    ensures forall s :: s in CategorySection(m, key, title, style) ==> Heading(s)
  {
    if key in m && m[key] != [] {
      var s := title + ":\n" + Join("\n", Lines(m[key], style));
      assert s[0] == title[0] && s[1] == title[1];
    }
  }

  lemma SectionsAreHeadings(p: UserProfile)
    ensures forall s :: s in ProfileSections(p) ==> Heading(s)
  {
    var m := p.memorias;
    SectionIsHeading(m, "familia", "Família", FamilyStyle);
    SectionIsHeading(m, "saude", "Saúde", InfoStyle);
    SectionIsHeading(m, "hobbies", "Hobbies/Interesses", HobbyStyle);
    SectionIsHeading(m, "interesses", "Tópicos de Interesse", InfoStyle);
    SectionIsHeading(m, "geral", "Outras Informações", InfoStyle);
    if Truthy(p.nome) {
      assert ("Nome: " + p.nome.value)[1] == 'o';
    }
    if Truthy(p.localizacao) {
      assert ("Localização: " + p.localizacao.value)[0] == 'L';
    }
  }

  /** The fixed texts come out exactly in their cases: no memories at all
      (or no profile), or memories of which no section is printed. */
  lemma FallbackTexts(profile: Option<UserProfile>)
    ensures ProfileText(profile) == NoMemories <==> profile.None? || profile.value.memorias == map[]
    ensures ProfileText(profile) == NoDetails <==>
      profile.Some? && profile.value.memorias != map[] && ProfileSections(profile.value) == []
  {
    if profile.Some? && profile.value.memorias != map[] && ProfileSections(profile.value) != [] {
      var sections := ProfileSections(profile.value);
      SectionsAreHeadings(profile.value);
      assert Heading(sections[0]);
      JoinStartsWithFirst("\n\n", sections);
      var t := ProfileText(profile);
      assert sections[0] <= t;
      assert t[0] == sections[0][0] && t[1] == sections[0][1];
      assert NoDetails[0] == 'P' && NoMemories[0] == 'N' && NoMemories[1] == 'ã';
    }
  }

  /** A hobby stored without a name prints as "None": the key is always
      present, so the fallback to the item's information is never taken. */
  lemma HobbyWithoutName(info: string)
    ensures ProfileText(Some(UserProfile("u", None, None, map["hobbies" := [ProfileItem("pintura", None, info, 5)]])))
      == "Hobbies/Interesses" + ":\n" + "  - None"
  {
    var m := map["hobbies" := [ProfileItem("pintura", None, info, 5)]];
    var lines := Lines(m["hobbies"], HobbyStyle);
    LinesSpec(m["hobbies"], HobbyStyle);
    assert ItemLine(HobbyStyle, m["hobbies"][0]) == "  - None";
    assert lines == ["  - None"];
    assert Join("\n", lines) == "  - None";
    assert ProfileSections(UserProfile("u", None, None, m)) == ["Hobbies/Interesses" + ":\n" + "  - None"];
  }

  /** The item lines of one category, built one at a time. */
  method CollectLines(items: seq<ProfileItem>, style: LineStyle) returns (lines: seq<string>)
    ensures lines == Lines(items, style)
  {
    lines := [];
    for i := 0 to |items|
      invariant lines == Lines(items[..i], style)
    {
      assert items[..i + 1][..i] == items[..i];
      lines := lines + [ItemLine(style, items[i])];
    }
    assert items[..|items|] == items;
  }

  /** One `if memorias.get(key):` block: collect the lines, add the section. */
  method AppendCategory(sections: seq<string>, m: map<string, seq<ProfileItem>>, key: string, title: string, style: LineStyle)
    returns (r: seq<string>)
    ensures r == sections + CategorySection(m, key, title, style)
  {
    r := sections;
    if key in m && m[key] != [] {
      var items := CollectLines(m[key], style);
      if items != [] {
        r := r + [title + ":\n" + Join("\n", items)];
      }
    }
  }

  /** `format_user_profile`, appending to `sections` as it goes. */
  method FormatUserProfile(profile: Option<UserProfile>) returns (text: string)
    ensures text == ProfileText(profile)
  {
    if profile.None? || profile.value.memorias == map[] {
      return NoMemories;
    }
    var p := profile.value;
    var sections: seq<string> := [];
    if Truthy(p.nome) {
      sections := sections + ["Nome: " + p.nome.value];
    }
    if Truthy(p.localizacao) {
      sections := sections + ["Localização: " + p.localizacao.value];
    }
    assert sections == Header(p);
    var m := p.memorias;
    sections := AppendCategory(sections, m, "familia", "Família", FamilyStyle);
    sections := AppendCategory(sections, m, "saude", "Saúde", InfoStyle);
    sections := AppendCategory(sections, m, "hobbies", "Hobbies/Interesses", HobbyStyle);
    sections := AppendCategory(sections, m, "interesses", "Tópicos de Interesse", InfoStyle);
    sections := AppendCategory(sections, m, "geral", "Outras Informações", InfoStyle);
    assert sections == ProfileSections(p);
    text := if sections != [] then Join("\n\n", sections) else NoDetails;
  }

  // -------------------------------------------------------- recent episodes

  // Split like the profile's fixed texts, for the same reason.
  const FirstConversation: string := "Primeira " + "conversa com este utilizador."

  /** The line of the `n`-th shown episode: at most three topics, and the
      tone only when there is one. */
  function EpisodeLine(n: nat, ep: EpisodeSummary): string {
    NatToString(n) + ". " + (ep.resumo + TopicsNote(ep.topicos) + ToneNote(ep.tomEmocional))
  }

  function TopicsNote(topicos: seq<string>): string {
    if topicos != [] then " (Tópicos: " + Join(", ", Take(topicos, 3)) + ")" else ""
  }

  function ToneNote(tom: string): string {
    if tom != "" then " [Tom: " + tom + "]" else ""
  }

  /** `f(1, xs[0]), f(2, xs[1]), …`: a line per element, numbered from 1. */
  function Numbered<T>(xs: seq<T>, f: (nat, T) -> string): seq<string> {
    if xs == [] then [] else Numbered(xs[..|xs| - 1], f) + [f(|xs|, xs[|xs| - 1])]
  }

  lemma {:induction false} NumberedSpec<T>(xs: seq<T>, f: (nat, T) -> string)
    ensures |Numbered(xs, f)| == |xs|
    ensures forall i :: 0 <= i < |xs| ==> Numbered(xs, f)[i] == f(i + 1, xs[i])
  {
    if xs != [] {
      var init := xs[..|xs| - 1];
      NumberedSpec(init, f);
      forall i | 0 <= i < |init| ensures Numbered(xs, f)[i] == f(i + 1, xs[i]) {
        assert xs[i] == init[i];
      }
    }
  }

  /** The lines of the given episodes, numbered from 1. */
  function EpisodeLines(eps: seq<EpisodeSummary>): seq<string> {
    Numbered(eps, EpisodeLine)
  }

  /** The `i`-th line shows the `i`-th episode, numbered `i + 1`. */
  lemma EpisodeLinesSpec(eps: seq<EpisodeSummary>)
    ensures |EpisodeLines(eps)| == |eps|
    ensures forall i :: 0 <= i < |eps| ==> EpisodeLines(eps)[i] == EpisodeLine(i + 1, eps[i])
  {
    NumberedSpec(eps, EpisodeLine);
  }

  /** `format_recent_episodes` */
  function EpisodesText(episodes: Option<seq<EpisodeSummary>>): string {
    if episodes.None? || episodes.value == [] then FirstConversation
    else Join("\n", EpisodeLines(Take(episodes.value, 3)))
  }

  /** Only the first three episodes matter. */
  lemma OnlyThreeEpisodesShown(eps: seq<EpisodeSummary>, more: seq<EpisodeSummary>)
    requires |eps| >= 3
    ensures EpisodesText(Some(eps + more)) == EpisodesText(Some(eps))
  {
    assert Take(eps + more, 3) == Take(eps, 3);
  }

  /** The first-conversation text comes out exactly when there is no episode. */
  lemma FirstConversationIff(episodes: Option<seq<EpisodeSummary>>)
    ensures EpisodesText(episodes) == FirstConversation <==> episodes.None? || episodes.value == []
  {
    if episodes.Some? && episodes.value != [] {
      var shown := Take(episodes.value, 3);
      var lines := EpisodeLines(shown);
      EpisodeLinesSpec(shown);
      var first := lines[0];
      assert first == EpisodeLine(1, shown[0]);
      assert NatToString(1) == ['1'];
      assert first[0] == '1';
      JoinStartsWithFirst("\n", lines);
      var t := Join("\n", lines);
      assert t == EpisodesText(episodes);
      assert t[0] == '1';
      assert FirstConversation[0] == 'P';
    }
  }

  /** The body of `format_recent_episodes`' loop for one episode. */
  method FormatEpisodeLine(n: nat, ep: EpisodeSummary) returns (line: string)
    ensures line == EpisodeLine(n, ep)
  {
    line := NatToString(n) + ". " + ep.resumo;
    if ep.topicos != [] {
      line := line + (" (Tópicos: " + Join(", ", Take(ep.topicos, 3)) + ")");
    }
    if ep.tomEmocional != "" {
      line := line + (" [Tom: " + ep.tomEmocional + "]");
    }
  }

  /** `format_recent_episodes`, appending one line per shown episode. */
  method FormatRecentEpisodes(episodes: Option<seq<EpisodeSummary>>) returns (text: string)
    ensures text == EpisodesText(episodes)
  {
    if episodes.None? || episodes.value == [] {
      return FirstConversation;
    }
    var shown := Take(episodes.value, 3);
    var formatted: seq<string> := [];
    for i := 0 to |shown|
      invariant formatted == EpisodeLines(shown[..i])
    {
      assert shown[..i + 1][..i] == shown[..i];
      var line := FormatEpisodeLine(i + 1, shown[i]);
      formatted := formatted + [line];
    }
    assert shown[..|shown|] == shown;
    text := Join("\n", formatted);
  }
}
