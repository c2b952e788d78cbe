/** How a chat session starts: which character the page talks as, and the
    single greeting that opens every conversation with that character. */
module Greetings {
  import opened Wrappers
  import Knowledge

  /** The character used when the page is opened without a usable
      `character` parameter. */
  const DefaultCharacter := "Ai Hoshino"

  /** The slide titles of the landing-page carousel, in slide order; the
      "start" link passes the current title as the `character` parameter. */
  const CarouselTitles: seq<string> :=
    ["Ai Hoshino", "Aqua Hoshino", "Ruby Hoshino", "Kana Arima", "Akane Kurokawa", "Mem-cho"]

  /** `searchParams.get('character') || 'Ai Hoshino'`: an absent parameter
      (`null`) and an empty one are both falsy and give the default; any other
      text, even blank, is used as it is. */
  function ActiveCharacter(param: Option<string>): (name: string)
    ensures name != ""
    ensures name == DefaultCharacter <==> (param.None? || param.value in {"", DefaultCharacter})
    ensures name != DefaultCharacter ==> param == Some(name)
  {
    match param
    case Some(v) => if v != "" then v else DefaultCharacter
    case None => DefaultCharacter
  }

  /** The six hand-written greetings. Each one introduces its character by
      name right after its opening words ending in "I'm ", so each is written
      here as that opening, the name and the rest; the characters are those of
      the page's source text, including the mis-decoded emoji. */
  const AiOpening := "Hello there! I'm "
  const AquaOpening := "...Hello. I'm "
  const RubyOpening := "Hi! I'm "
  const KanaOpening := "Oh, hello. I'm "
  const AkaneOpening := "Good day. I'm "
  const MemchoOpening := "Hey hey! I'm "

  const AiClosing := ", the amazing idol from Oshi no Ko! \U{E2}\U{153}\U{A8} I'm super excited to chat with you! What's on your mind? I love talking about anything and everything - music, dreams, love... you name it! \U{F0}\U{178}\U{2019}\U{2022}"
  const AquaClosing := ". I don't talk much, but I'll listen if you have something to say. Just don't waste my time."
  const RubyClosing := ", and I'm going to be the greatest idol ever! \U{F0}\U{178}\U{152}\U{178} I work really hard and I'm super passionate about my dreams. What about you? Do you have any big goals? Let's talk about them!"
  const KanaClosing := ". I've been acting since I was a kid, so I'm pretty used to being on stage. It's nice to meet you. What brings you here today?"
  const AkaneClosing := ", an actress and idol. I approach everything with careful consideration and analysis. It's a pleasure to make your acquaintance. Shall we have a meaningful conversation?"
  const MemchoClosing := ", the super energetic and fun idol from Oshi no Ko! \U{F0}\U{178}\U{17D}\U{2030} I love having a good time and making people smile! What's up? Let's chat about something awesome!"

  const AiGreeting := AiOpening + "Ai Hoshino" + AiClosing
  const AquaGreeting := AquaOpening + "Aqua Hoshino" + AquaClosing
  const RubyGreeting := RubyOpening + "Ruby Hoshino" + RubyClosing
  const KanaGreeting := KanaOpening + "Kana Arima" + KanaClosing
  const AkaneGreeting := AkaneOpening + "Akane Kurokawa" + AkaneClosing
  const MemchoGreeting := MemchoOpening + "Mem-cho" + MemchoClosing

  /** The greeting for a character the page has no hand-written greeting
      for, with the name interpolated. */
  const GenericOpening := "Hello! I'm "
  const GenericClosing := " from Oshi no Ko. I'm excited to chat with you! What would you like to talk about?"

  function GenericGreeting(name: string): (g: string) {
    GenericOpening + name + GenericClosing
  }

  /** The `switch (character)` of the greeting effect. Every greeting opens
      with its opening words and then names the character it was chosen
      for. */
  function Greeting(name: string): (g: string)
    ensures |Opening(name)| + |name| <= |g|
    ensures g[..|Opening(name)|] == Opening(name)
    ensures g[|Opening(name)|..|Opening(name)| + |name|] == name
  {
    Framed(Opening(name), name, Closing(name));
    if name == "Ai Hoshino" then AiGreeting
    else if name == "Aqua Hoshino" then AquaGreeting
    else if name == "Ruby Hoshino" then RubyGreeting
    else if name == "Kana Arima" then KanaGreeting
    else if name == "Akane Kurokawa" then AkaneGreeting
    else if name == "Mem-cho" then MemchoGreeting
    else GenericGreeting(name)
  }

  /** The first two pieces of `o + n + c` can be read back off it. */
  lemma Framed(o: string, n: string, c: string)
    ensures var t := o + n + c;
      |o| + |n| <= |t| && t[..|o|] == o && t[|o|..|o| + |n|] == n
  {
  }

  /** The words before the name in the greeting for `name`. */
  function Opening(name: string): (o: string)
    ensures |o| >= 8 && o[|o| - 4..] == "I'm "
  {
    if name == "Ai Hoshino" then AiOpening
    else if name == "Aqua Hoshino" then AquaOpening
    else if name == "Ruby Hoshino" then RubyOpening
    else if name == "Kana Arima" then KanaOpening
    else if name == "Akane Kurokawa" then AkaneOpening
    else if name == "Mem-cho" then MemchoOpening
    else GenericOpening
  }

  /** The words after the name in the greeting for `name`. */
  function Closing(name: string): (c: string) {
    if name == "Ai Hoshino" then AiClosing
    else if name == "Aqua Hoshino" then AquaClosing
    else if name == "Ruby Hoshino" then RubyClosing
    else if name == "Kana Arima" then KanaClosing
    else if name == "Akane Kurokawa" then AkaneClosing
    else if name == "Mem-cho" then MemchoClosing
    else GenericClosing
  }

  /** The names with a hand-written greeting. */
  predicate HasOwnGreeting(name: string) {
    name == "Ai Hoshino" || name == "Aqua Hoshino" || name == "Ruby Hoshino" ||
    name == "Kana Arima" || name == "Akane Kurokawa" || name == "Mem-cho"
  }

  /** Every greeting, hand-written or generic, opens with its opening words
      and then introduces the character by the very name it was chosen
      for. */
  lemma GreetingIntroduces(name: string)
    ensures Greeting(name) == Opening(name) + name + Closing(name)
  {
  }

  /** Four characters of an opening: they tell the seven openings apart.
      The page has nothing of the kind; this fingerprint only serves the
      proof that the greetings differ (`GreetingIdentifies`). */
  function Signature(name: string): (char, char, char, char) {
    var o := Opening(name);
    (o[0], o[1], o[2], o[5])
  }

  lemma SignatureValues(name: string)
    ensures Signature(name) ==
      if name == "Ai Hoshino" then ('H', 'e', 'l', ' ')
      else if name == "Aqua Hoshino" then ('.', '.', '.', 'l')
      else if name == "Ruby Hoshino" then ('H', 'i', '!', '\'')
      else if name == "Kana Arima" then ('O', 'h', ',', 'e')
      else if name == "Akane Kurokawa" then ('G', 'o', 'o', 'd')
      else if name == "Mem-cho" then ('H', 'e', 'y', 'e')
      else ('H', 'e', 'l', '!')
  {
  }

  /** Equal openings mean the same hand-written greeting, or the generic one
      for both names. */
  lemma OpeningsDistinct(a: string, b: string)
    requires Signature(a) == Signature(b)
    ensures HasOwnGreeting(a) <==> HasOwnGreeting(b)
    ensures HasOwnGreeting(a) ==> a == b
  {
    SignatureValues(a);
    SignatureValues(b);
  }

  /** The names with a hand-written greeting are exactly the names of the
      knowledge table. */
  lemma OwnGreetingIffKnown(name: string)
    ensures HasOwnGreeting(name) <==> name in Knowledge.Table
  {
    Knowledge.TableKeys();
  }

  /** Every name outside the knowledge table, and only such a name, gets the
      generic greeting. */
  lemma SpecificGreetingIffKnown(name: string)
    ensures Greeting(name) != GenericGreeting(name) <==> name in Knowledge.Table
  {
    OwnGreetingIffKnown(name);
    if HasOwnGreeting(name) && Greeting(name) == GenericGreeting(name) {
      GreetingIntroduces(name);
      OpeningsDistinct(name, "");
    }
  }

  /** The signature can be read off the greeting itself. */
  lemma SignatureOfGreeting(name: string)
    ensures |Greeting(name)| >= 6
    ensures Signature(name) == (Greeting(name)[0], Greeting(name)[1], Greeting(name)[2], Greeting(name)[5])
  {
    GreetingIntroduces(name);
  }

  /** The greeting tells the characters apart: two names that open with the
      same greeting are the same name. */
  lemma GreetingIdentifies(a: string, b: string)
    requires Greeting(a) == Greeting(b)
    ensures a == b
  {
    SignatureOfGreeting(a);
    SignatureOfGreeting(b);
    OpeningsDistinct(a, b);
    if !HasOwnGreeting(a) {
      var g := GenericGreeting(a);
      assert g == GenericGreeting(b);
      assert |a| == |b|;
      assert a == g[|GenericOpening|..|GenericOpening| + |a|];
    }
  }

  /** Every character the landing page can launch, the default included, is
      a name of the knowledge table, so it gets its own greeting. */
  lemma SelectableCharactersKnown()
    ensures DefaultCharacter in Knowledge.Table
    ensures forall i :: 0 <= i < |CarouselTitles| ==> CarouselTitles[i] in Knowledge.Table
  {
    Knowledge.TableKeys();
  }
}
