/** The persona prompt sent for each user turn: a fixed template filled with
    the character's name, the `'all'` facet of its profile and the user's
    trimmed input, then trimmed as a whole. */
module Prompt {
  import opened Text
  import opened Knowledge

  /** How a missing property reads once interpolated into a template
      literal. */
  const Undefined := "undefined"

  /** The properties the template reads off the lookup result. For a known
      character that is the flattened profile. For an unknown one the lookup
      returned the sentinel string, which has none of these properties, so
      every one of them reads as `undefined`. */
  function Fields(info: Info): (f: FlatProfile)
    ensures info.Everything? ==> f == info.profile
    ensures !info.Everything? ==>
      f.fullName == Undefined && f.age == Undefined && f.occupation == Undefined &&
      f.personality == Undefined && f.relationships == Undefined &&
      f.backstory == Undefined && f.keyFacts == Undefined
  {
    if info.Everything? then info.profile else Unfilled
  }

  /** Seven properties read off a value that has none of them. */
  const Unfilled := FlatProfile(Undefined, Undefined, Undefined, Undefined, Undefined, Undefined, Undefined)

  /** The fixed wording of the template, piece by piece between the
      interpolated values (the short pieces that open and close the text are
      written into the functions below). */
  datatype Wording = Wording(
    headerEnd: string,
    infoIntro: string,
    ageLabel: string,
    occupationLabel: string,
    personalityLabel: string,
    relationshipsLabel: string,
    backstoryLabel: string,
    keyFactsLabel: string,
    roleLead: string,
    roleRules: string,
    guidance: string,
    contextLead: string,
    questionLead: string)

  /** The wording of the page's template. */
  const PageWording := Wording(
    headerEnd := " from the anime Oshi no Ko.",
    infoIntro := " Here is your complete information:\n\nFULL NAME: ",
    ageLabel := "\nAGE: ",
    occupationLabel := "\nOCCUPATION: ",
    personalityLabel := "\nPERSONALITY: ",
    relationshipsLabel := "\n\nRELATIONSHIPS:\n",
    backstoryLabel := "\n\nBACKSTORY:\n",
    keyFactsLabel := "\n\nKEY FACTS:\n",
    roleLead := "\n\nYou must respond as ",
    roleRules := " would in the Oshi no Ko universe. Stay in character at all times, using appropriate personality traits, speaking style, and mannerisms. Reference your relationships and backstory naturally when relevant.",
    guidance := "\n\nWhen users ask about other characters or relationships, use the knowledge provided above to give accurate information. For example:\n- If asked \"Who's your boyfriend/girlfriend?\", reference your actual relationships\n- If asked about your past, reference your backstory\n- If asked about other characters, provide accurate information from the series",
    contextLead := "\n\nCurrent conversation context: ",
    questionLead := "The user is asking: \"")

  /** The first line of the prompt. */
  function Header(w: Wording, character: string): (h: string) {
    "You are " + character + w.headerEnd
  }

  /** The full name and age lines. */
  function NameAndAge(w: Wording, f: FlatProfile): (t: string) {
    w.infoIntro + f.fullName + w.ageLabel + f.age
  }

  /** From the occupation line to the lead-in of the user's question. */
  function Remainder(w: Wording, character: string, f: FlatProfile): (t: string) {
    w.occupationLabel + f.occupation +
    w.personalityLabel + f.personality +
    w.relationshipsLabel + f.relationships +
    w.backstoryLabel + f.backstory +
    w.keyFactsLabel + f.keyFacts +
    w.roleLead + character + w.roleRules +
    w.guidance + w.contextLead
  }

  /** The last line of the prompt, quoting the user. */
  function Question(w: Wording, question: string): (q: string) {
    w.questionLead + question + "\""
  }

  /** The text between the template's opening newline and its closing
      indentation. */
  function Body(w: Wording, character: string, f: FlatProfile, question: string): (b: string) {
    Header(w, character) + (NameAndAge(w, f) + Remainder(w, character, f)) + Question(w, question)
  }

  /** The template literal as written: it opens with a newline and closes
      with the indentation of the line that ends it. */
  function Template(w: Wording, character: string, info: Info, input: string): (t: string) {
    "\n" + Body(w, character, Fields(info), Trim(input)) + "\n      "
  }

  /** `characterPrompt`: the template filled with the `'all'` facet the
      knowledge table gives for the active character and with the current
      input, trimmed. The page fills the template worded `PageWording` from
      its table `Table`. Whatever the lookup gives, the prompt opens by
      naming the character and ends by quoting the user's trimmed input. */
  function BuildPrompt(w: Wording, table: map<string, Profile>, character: string, input: string): (p: string)
    ensures var h, q := Header(w, character), Question(w, Trim(input));
      |h| + |q| <= |p| && p[..|h|] == h && p[|p| - |q|..] == q
  {
    var info := GetCharacterInfo(table, character, All);
    TemplateTrimmed(w, character, info, input);
    Trim(Template(w, character, info, input))
  }

  /** Trimming a text framed by a newline and indentation gives the text back
      when it starts and ends with visible characters. */
  lemma TrimFramed(head: string, middle: string, tail: string)
    requires head != [] && !IsWhitespace(head[0])
    requires tail != [] && !IsWhitespace(tail[|tail| - 1])
    ensures Trim("\n" + (head + middle + tail) + "\n      ") == head + middle + tail
  {
    var t := head + middle + tail;
    assert t[0] == head[0];
    assert t[|t| - 1] == tail[|tail| - 1];
    assert AllWhitespace("\n") && AllWhitespace("\n      ");
    TrimPadded("\n", t, "\n      ");
  }

  /** The outer pieces of a three-part concatenation. */
  lemma Ends(head: string, middle: string, tail: string)
    ensures var t := head + middle + tail;
      |head| + |tail| <= |t| && t[..|head|] == head && t[|t| - |tail|..] == tail
  {
  }

  /** Trimming the template removes exactly its padding, whatever the lookup
      returned: what is left is the body, which opens with the header naming
      the character and ends by quoting the user's trimmed input. */
  lemma TemplateTrimmed(w: Wording, character: string, info: Info, input: string)
    ensures var t, h, q := Trim(Template(w, character, info, input)), Header(w, character), Question(w, Trim(input));
      t == Body(w, character, Fields(info), Trim(input)) &&
      |h| + |q| <= |t| &&
      t[..|h|] == h &&
      t[|t| - |q|..] == q
  {
    var f := Fields(info);
    var h, q := Header(w, character), Question(w, Trim(input));
    var m := NameAndAge(w, f) + Remainder(w, character, f);
    var b := Body(w, character, f, Trim(input));
    assert b == h + m + q;
    assert Template(w, character, info, input) == "\n" + b + "\n      ";
    TrimFramed(h, m, q);
    Ends(h, m, q);
  }

  /** The prompt sent for a character and an input: the body for the `'all'`
      facet of that character, opening with the header and ending with the
      quoted question. */
  lemma PromptShape(w: Wording, table: map<string, Profile>, character: string, input: string)
    ensures var p, h, q := BuildPrompt(w, table, character, input), Header(w, character), Question(w, Trim(input));
      p == Body(w, character, Fields(GetCharacterInfo(table, character, All)), Trim(input)) &&
      |h| + |q| <= |p| &&
      p[..|h|] == h &&
      p[|p| - |q|..] == q
  {
    var info := GetCharacterInfo(table, character, All);
    TemplateTrimmed(w, character, info, input);
    assert BuildPrompt(w, table, character, input) == Trim(Template(w, character, info, input));
  }

  /** The body opens with the header and the name and age lines. */
  lemma BodyOpening(w: Wording, character: string, f: FlatProfile, question: string)
    ensures var id := Header(w, character) + NameAndAge(w, f);
      |id| <= |Body(w, character, f, question)| && Body(w, character, f, question)[..|id|] == id
  {
    var h, n, r, q := Header(w, character), NameAndAge(w, f), Remainder(w, character, f), Question(w, question);
    assert h + (n + r) + q == (h + n) + (r + q);
  }

  /** The prompt opens with the header and the name and age lines of
      whatever the lookup gave. */
  lemma PromptOpening(w: Wording, table: map<string, Profile>, character: string, input: string)
    ensures var id := Header(w, character) + NameAndAge(w, Fields(GetCharacterInfo(table, character, All)));
      |id| <= |BuildPrompt(w, table, character, input)| && BuildPrompt(w, table, character, input)[..|id|] == id
  {
    var f := Fields(GetCharacterInfo(table, character, All));
    PromptShape(w, table, character, input);
    BodyOpening(w, character, f, Trim(input));
  }

  /** For a character the table holds, the prompt states its full name and
      age as the profile gives them. */
  lemma KnownCharacterPrompt(w: Wording, table: map<string, Profile>, character: string, input: string)
    requires character in table
    ensures var id := Header(w, character) + (w.infoIntro + table[character].fullName + w.ageLabel + table[character].age);
      |id| <= |BuildPrompt(w, table, character, input)| && BuildPrompt(w, table, character, input)[..|id|] == id
  {
    var p := table[character];
    var f := Fields(GetCharacterInfo(table, character, All));
    assert f == Flatten(p);
    assert NameAndAge(w, f) == w.infoIntro + p.fullName + w.ageLabel + p.age;
    PromptOpening(w, table, character, input);
  }

  /** For a character the table does not hold, the page still sends a prompt,
      built from seven `undefined` fields: its name and age lines read
      `undefined`. */
  lemma UnknownCharacterPrompt(w: Wording, table: map<string, Profile>, character: string, input: string)
    requires character !in table
    ensures BuildPrompt(w, table, character, input) == Body(w, character, Unfilled, Trim(input))
    ensures var id := Header(w, character) + (w.infoIntro + Undefined + w.ageLabel + Undefined);
      |id| <= |BuildPrompt(w, table, character, input)| && BuildPrompt(w, table, character, input)[..|id|] == id
  {
    var f := Fields(GetCharacterInfo(table, character, All));
    assert f == Unfilled;
    assert NameAndAge(w, f) == w.infoIntro + Undefined + w.ageLabel + Undefined;
    PromptShape(w, table, character, input);
    PromptOpening(w, table, character, input);
  }
}
