/** The character knowledge base of the chat page: a fixed table of six
    profiles and the lookup `getCharacterInfo` that returns one facet of a
    profile, or all of it with the relationships and key facts flattened to
    text. */
module Knowledge {
  import opened Text

  /** One entry of the table. `relationships` is an object in the page; its
      entries are kept in their insertion order, which is the order
      `Object.entries` reports. */
  datatype Profile = Profile(
    fullName: string,
    age: string,
    occupation: string,
    personality: string,
    relationships: seq<(string, string)>,
    backstory: string,
    keyFacts: seq<string>)

  /** The `infoType` argument of the lookup. */
  datatype Facet = Relationships | Backstory | Personality | KeyFacts | All

  /** A profile as the `'all'` facet returns it: the same record with the
      relationships and the key facts replaced by text. */
  datatype FlatProfile = FlatProfile(
    fullName: string,
    age: string,
    occupation: string,
    personality: string,
    relationships: string,
    backstory: string,
    keyFacts: string)

  /** What the lookup returns. The page returns a plain string for an unknown
      name, a string, an object or an array for one facet, and a record for
      `'all'`; the variants keep those cases apart. */
  datatype Info =
    | Unknown(message: string)
    | Prose(text: string)
    | Relations(entries: seq<(string, string)>)
    | Facts(facts: seq<string>)
    | Everything(profile: FlatProfile)

  /** The sentinel string returned for a name the table does not hold. */
  const NoInformation := "I don't have information about that character."

  /** The separator placed between key facts: a newline, then the three
      characters that the UTF-8 bytes of a bullet read as Windows-1252 give,
      then a space; the page's source text holds exactly these characters. */
  const FactSeparator := "\n\U{E2}\U{20AC}\U{A2} "

  /** The separator placed between relationship lines. */
  const LineSeparator := "\n"

  const AiHoshino: Profile := Profile(
    fullName := "Ai Hoshino",
    age := "20 (deceased)",
    occupation := "Idol, singer, actress",
    personality := "Energetic, bubbly, kind-hearted, loves making people happy",
    relationships := [
      ("Aqua Hoshino", "Her son (also her reincarnation)"),
      ("Ruby Hoshino", "Her daughter (also her reincarnation)"),
      ("Hikaru Kamiki", "Her former boyfriend and father of her children"),
      ("Ichigo Saitou", "Her manager and president of Strawberry Productions")
    ],
    backstory := "Former child actress who became a famous idol. She was killed at age 20. She was secretly a mother to twins who were reincarnated.",
    keyFacts := [
      "Former member of the idol group B-Komachi",
      "Starred in the drama series \"My Favorite Child\"",
      "Had a secret relationship with Hikaru Kamiki",
      "Was murdered by a stalker fan",
      "Her children Aqua and Ruby were reincarnated with memories of their past life"
    ])

  const AquaHoshino: Profile := Profile(
    fullName := "Aqua Hoshino",
    age := "18-19",
    occupation := "Actor, high school student",
    personality := "Intelligent, manipulative, cold, analytical, protective",
    relationships := [
      ("Ruby Hoshino", "His twin sister"),
      ("Ai Hoshino", "His mother (reincarnated)"),
      ("Kana Arima", "Close friend and co-star"),
      ("Akane Kurokawa", "Girlfriend (dating)"),
      ("Hikaru Kamiki", "His biological father (seeks revenge against)")
    ],
    backstory := "Reincarnation of Goro Amamiya. Works in entertainment industry to find his mother's killer.",
    keyFacts := [
      "Reincarnated doctor who remembers his past life",
      "Works as an actor to investigate the entertainment industry",
      "Has a complex relationship with his father Hikaru Kamiki",
      "Is dating Akane Kurokawa",
      "Has exceptional acting abilities and manipulation skills"
    ])

  const RubyHoshino: Profile := Profile(
    fullName := "Ruby Hoshino",
    age := "18-19",
    occupation := "Idol, high school student",
    personality := "Energetic, determined, passionate, optimistic, hardworking",
    relationships := [
      ("Aqua Hoshino", "Her twin brother"),
      ("Ai Hoshino", "Her mother (reincarnated)"),
      ("Kana Arima", "Close friend and fellow idol"),
      ("Mem-cho", "Fellow idol and friend"),
      ("Frill Shiranui", "Rival idol")
    ],
    backstory := "Reincarnation of Sarina Tendouji. Aspires to become an idol like her mother.",
    keyFacts := [
      "Reincarnated patient who remembers her past life",
      "Member of the idol group B-Komachi",
      "Has incredible singing talent",
      "Works extremely hard to achieve her dreams",
      "Has a strong bond with her brother Aqua"
    ])

  const KanaArima: Profile := Profile(
    fullName := "Kana Arima",
    age := "18-19",
    occupation := "Actress, idol, high school student",
    personality := "Professional, mature, emotional, talented, dedicated",
    relationships := [
      ("Aqua Hoshino", "Close friend and co-star (has feelings for)"),
      ("Akane Kurokawa", "Rival and fellow actress"),
      ("Ruby Hoshino", "Fellow idol and friend"),
      ("Ai Hoshino", "Met briefly before Ai's death")
    ],
    backstory := "Former child actress who transitioned to become an idol. Has deep emotional struggles.",
    keyFacts := [
      "Former child actress with exceptional talent",
      "Struggles with emotional vulnerability",
      "Has complex feelings for Aqua Hoshino",
      "Very professional about her work",
      "Has been in the entertainment industry since childhood"
    ])

  const AkaneKurokawa: Profile := Profile(
    fullName := "Akane Kurokawa",
    age := "18-19",
    occupation := "Actress, idol, high school student",
    personality := "Intelligent, analytical, strategic, caring, perceptive",
    relationships := [
      ("Aqua Hoshino", "Boyfriend (dating)"),
      ("Kana Arima", "Rival and fellow actress"),
      ("Taiki Himekawa", "Former boyfriend (abusive relationship)"),
      ("Aqua's family", "Close with Aqua and Ruby")
    ],
    backstory := "Talented actress who analyzes everything strategically. Survived an abusive relationship.",
    keyFacts := [
      "Exceptional acting and analytical abilities",
      "Formerly dated Taiki Himekawa who was abusive",
      "Has a genius-level understanding of psychology",
      "Is dating Aqua Hoshino",
      "Very strategic in her approach to life and work"
    ])

  const Memcho: Profile := Profile(
    fullName := "Mem-cho (Nino)",
    age := "19-20",
    occupation := "Idol, social media influencer",
    personality := "Energetic, fun-loving, playful, social, entertaining",
    relationships := [
      ("Ruby Hoshino", "Fellow idol and friend"),
      ("Kana Arima", "Fellow idol and friend"),
      ("Frill Shiranui", "Rival idol"),
      ("B-Komachi members", "Group members")
    ],
    backstory := "Popular idol and social media personality known for her bubbly personality.",
    keyFacts := [
      "Member of the idol group B-Komachi",
      "Popular social media influencer",
      "Known for her energetic and fun personality",
      "Has a large online following",
      "Brings energy and entertainment to the group"
    ])

  const Table: map<string, Profile> := map[
    "Ai Hoshino" := AiHoshino,
    "Aqua Hoshino" := AquaHoshino,
    "Ruby Hoshino" := RubyHoshino,
    "Kana Arima" := KanaArima,
    "Akane Kurokawa" := AkaneKurokawa,
    "Mem-cho" := Memcho
  ]

  /** The names of the table, in declaration order. */
  const KnownNames: seq<string> :=
    ["Ai Hoshino", "Aqua Hoshino", "Ruby Hoshino", "Kana Arima", "Akane Kurokawa", "Mem-cho"]

  /** The `'all'` facet of a profile: relationships become one
      `name: relation` line per entry joined by newlines, key facts are joined
      by the bullet separator, every other field is kept. */
  function Flatten(p: Profile): (f: FlatProfile)
    ensures f.fullName == p.fullName && f.age == p.age && f.occupation == p.occupation
    ensures f.personality == p.personality && f.backstory == p.backstory
  {
    FlatProfile(
      p.fullName, p.age, p.occupation, p.personality,
      Join(RelationLines(p.relationships), LineSeparator),
      p.backstory,
      Join(p.keyFacts, FactSeparator))
  }

  /** `getCharacterInfo(characterName, infoType)`, looking the name up in
      `table` (the page always passes its one table, `Table`). An unknown
      name gives the sentinel whatever the facet; a known one gives the
      requested facet of its profile, or the whole profile flattened. */
  function GetCharacterInfo(table: map<string, Profile>, name: string, facet: Facet): (r: Info)
    ensures r.Unknown? <==> name !in table
    ensures r.Unknown? ==> r.message == NoInformation
    ensures r.Everything? <==> name in table && facet == All
    ensures name in table ==> match facet
      case Relationships => r == Relations(table[name].relationships)
      case Backstory => r == Prose(table[name].backstory)
      case Personality => r == Prose(table[name].personality)
      case KeyFacts => r == Facts(table[name].keyFacts)
      case All => r == Everything(Flatten(table[name]))
  {
    if name !in table then Unknown(NoInformation)
    else
      var p := table[name];
      match facet
      case All => Everything(Flatten(p))
      case Relationships => Relations(p.relationships)
      case Backstory => Prose(p.backstory)
      case Personality => Prose(p.personality)
      case KeyFacts => Facts(p.keyFacts)
  }

  /** Line `i` of the flattened relationships is `name: relation` of entry
      `i`; the first line starts the text, every later one follows a
      newline. */
  lemma RelationshipsFlattened(p: Profile, i: nat)
    requires i < |p.relationships|
    ensures var lines, text := RelationLines(p.relationships), Flatten(p).relationships;
      var o := Offset(lines, LineSeparator, i);
      o + |lines[i]| <= |text| &&
      text[o..o + |lines[i]|] == p.relationships[i].0 + ": " + p.relationships[i].1 &&
      (i == 0 ==> o == 0) &&
      (i > 0 ==> 1 <= o && text[o - 1] == '\n')
  {
    var lines := RelationLines(p.relationships);
    assert Flatten(p).relationships == Join(lines, LineSeparator);
    assert lines[i] == p.relationships[i].0 + ": " + p.relationships[i].1;
    LineAt(lines, i);
  }

  /** Line `i` of newline-joined lines sits at its offset, after a newline
      unless it is the first. */
  lemma LineAt(lines: seq<string>, i: nat)
    requires i < |lines|
    ensures var text, o := Join(lines, LineSeparator), Offset(lines, LineSeparator, i);
      o + |lines[i]| <= |text| && text[o..o + |lines[i]|] == lines[i] &&
      (i == 0 ==> o == 0) &&
      (i > 0 ==> 1 <= o && text[o - 1] == '\n')
  {
    var text := Join(lines, LineSeparator);
    JoinLayout(lines, LineSeparator, i);
    var o := Offset(lines, LineSeparator, i);
    if i > 0 {
      assert text[o - 1..o] == LineSeparator;
      assert text[o - 1] == text[o - 1..o][0];
    }
  }

  /** Fact `i` of the flattened key facts sits at its offset; the first fact
      starts the text with no separator before it, every later one follows
      the bullet separator, and the last one ends the text. */
  lemma KeyFactsFlattened(p: Profile, i: nat)
    requires i < |p.keyFacts|
    ensures var text, o := Flatten(p).keyFacts, Offset(p.keyFacts, FactSeparator, i);
      o + |p.keyFacts[i]| <= |text| &&
      text[o..o + |p.keyFacts[i]|] == p.keyFacts[i] &&
      (i == 0 ==> o == 0) &&
      (i > 0 ==> |FactSeparator| <= o && text[o - |FactSeparator|..o] == FactSeparator) &&
      (i == |p.keyFacts| - 1 ==> o + |p.keyFacts[i]| == |text|)
  {
    JoinLayout(p.keyFacts, FactSeparator, i);
  }

  /** A profile the table can hold: every text field is non-empty, there is
      at least one relationship and one key fact, and relationship names are
      distinct (they are the keys of an object). */
  predicate WellFormed(p: Profile) {
    p.fullName != "" && p.age != "" && p.occupation != "" &&
    p.personality != "" && p.backstory != "" &&
    p.relationships != [] && p.keyFacts != [] &&
    (forall i, j :: 0 <= i < j < |p.relationships| ==> p.relationships[i].0 != p.relationships[j].0)
  }

  /** No relationship name or description holds a newline. */
  predicate SingleLineRelations(p: Profile) {
    forall i :: 0 <= i < |p.relationships| ==>
      '\n' !in p.relationships[i].0 && '\n' !in p.relationships[i].1
  }

  /** The table holds exactly the six names. */
  lemma TableKeys()
    ensures Table.Keys == set n | n in KnownNames
  {
  }

  /** Every profile in the table is well formed. */
  lemma TableWellFormed()
    ensures forall name :: name in Table ==> WellFormed(Table[name])
  {
    HoshinoFamilyWellFormed();
    OthersWellFormed();
    assert forall name :: name in Table ==>
      Table[name] in {AiHoshino, AquaHoshino, RubyHoshino, KanaArima, AkaneKurokawa, Memcho};
  }

  lemma HoshinoFamilyWellFormed()
    ensures WellFormed(AiHoshino) && WellFormed(AquaHoshino) && WellFormed(RubyHoshino)
  {
    assert WellFormed(AiHoshino);
    assert WellFormed(AquaHoshino);
  }

  lemma OthersWellFormed()
    ensures WellFormed(KanaArima) && WellFormed(AkaneKurokawa) && WellFormed(Memcho)
  {
    assert WellFormed(KanaArima);
    assert WellFormed(AkaneKurokawa);
  }

  /** Flattening relationships that are each on one line loses nothing:
      splitting the text at newlines gives back one line per entry. */
  lemma RelationshipsRecoverable(p: Profile)
    requires p.relationships != [] && SingleLineRelations(p)
    ensures Split(Flatten(p).relationships, '\n') == RelationLines(p.relationships)
  {
    var lines := RelationLines(p.relationships);
    forall i | 0 <= i < |lines| ensures '\n' !in lines[i] {
      var (a, b) := p.relationships[i];
      assert lines[i] == a + (": " + b);
    }
    SplitJoin(lines, '\n');
  }

  /** For every known name and every facet the lookup returns non-empty
      data, and for every other name the sentinel whatever the facet. */
  lemma KnownInfoNonEmpty(name: string, facet: Facet)
    ensures name !in Table ==> GetCharacterInfo(Table, name, facet) == Unknown(NoInformation)
    ensures name in Table ==> match GetCharacterInfo(Table, name, facet)
      case Unknown(_) => false
      case Prose(t) => t != ""
      case Relations(es) => es != []
      case Facts(fs) => fs != []
      case Everything(f) =>
        f.fullName != "" && f.age != "" && f.occupation != "" && f.personality != "" &&
        f.relationships != "" && f.backstory != "" && f.keyFacts != ""
  {
    if name in Table {
      TableWellFormed();
      var p := Table[name];
      RelationshipsFlattened(p, 0);
      KeyFactsFlattened(p, 0);
    }
  }
}
