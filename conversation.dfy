/** The conversation controller of the chat page: an append-only list of
    turns, the text being typed and a loading flag. `sendMessage` is split at
    its `await`: `Submit` is everything before the request, `Resolve` is
    everything after it, with the request's result abstracted to an
    `Outcome`. */
module Conversation {
  import opened Wrappers
  import opened Text
  import Greetings
  import Knowledge
  import Prompt

  datatype Role = User | Assistant

  /** One turn of the conversation (its timestamp is not modelled). */
  datatype Message = Message(role: Role, content: string)

  /** What the awaited request turned out to be. */
  datatype Outcome =
    | WellFormed(text: string)  // candidates[0].content is present; text is its first part's text
    | Malformed                 // no candidates, an empty list, or a first candidate without content
    | Failed                    // the request or the decoding of its body threw

  /** The reply shown for every malformed or failed request. */
  const Apology := "Sorry, I encountered an error. Please try again!"

  /** The content of the assistant turn that ends a request. */
  function Reply(o: Outcome): (text: string)
    ensures o.WellFormed? ==> text == o.text
    ensures !o.WellFormed? ==> text == Apology
  {
    match o
    case WellFormed(t) => t
    case Malformed => Apology
    case Failed => Apology
  }

  /** The state a chat view holds. */
  datatype Snapshot = Snapshot(messages: seq<Message>, input: string, loading: bool)

  /** The guard of `sendMessage`, `!input.trim() || isLoading` negated: it
      rejects exactly the blank inputs and the submissions made while a
      request is outstanding. */
  predicate Accepts(s: Snapshot): (ok: bool)
    ensures ok <==> !AllWhitespace(s.input) && !s.loading
  {
    TrimEmptyIff(s.input);
    Trim(s.input) != "" && !s.loading
  }

  /** The state after a submission: the trimmed input appended as a user
      turn, the input cleared and loading set; or nothing changed. */
  function Submitted(s: Snapshot): (t: Snapshot)
    ensures |s.messages| <= |t.messages| && t.messages[..|s.messages|] == s.messages
    ensures Accepts(s) ==> |t.messages| == |s.messages| + 1 && t.input == "" && t.loading
    ensures Accepts(s) ==> Trim(s.input) != "" && t.messages[|s.messages|] == Message(User, Trim(s.input))
    ensures !Accepts(s) ==> t == s
  {
    if Accepts(s) then Snapshot(s.messages + [Message(User, Trim(s.input))], "", true)
    else s
  }

  /** The state once the request has settled: one assistant turn appended
      and loading cleared. */
  function Resolved(s: Snapshot, o: Outcome): (t: Snapshot)
    ensures |t.messages| == |s.messages| + 1 && t.messages[..|s.messages|] == s.messages
    ensures t.messages[|s.messages|] == Message(Assistant, Reply(o))
    ensures t.input == s.input && !t.loading
  {
    Snapshot(s.messages + [Message(Assistant, Reply(o))], s.input, false)
  }

  /** The state after the greeting effect: the conversation replaced by the
      character's greeting; input and loading untouched. */
  function Greeted(s: Snapshot, character: string): (t: Snapshot)
    ensures |t.messages| == 1 && t.messages[0] == Message(Assistant, Greetings.Greeting(character))
    ensures t.input == s.input && t.loading == s.loading
  {
    s.(messages := [Message(Assistant, Greetings.Greeting(character))])
  }

  /** Every user turn is followed by an assistant turn, except the last turn
      while its request is outstanding. */
  predicate Answered(s: Snapshot) {
    forall i :: 0 <= i < |s.messages| && s.messages[i].role == User ==>
      (i + 1 < |s.messages| && s.messages[i + 1].role == Assistant) ||
      (i == |s.messages| - 1 && s.loading)
  }

  /** The invariant of a chat view: it opens with an assistant turn (the
      greeting) and every user turn is answered. */
  predicate Coherent(s: Snapshot) {
    s.messages != [] && s.messages[0].role == Assistant && Answered(s)
  }

  /** A submission changes the state exactly when the guard accepts it. */
  lemma SubmitNoOpIff(s: Snapshot)
    ensures Submitted(s) == s <==> !Accepts(s)
  {
    if Accepts(s) {
      assert |Submitted(s).messages| == |s.messages| + 1;
    }
  }

  /** An accepted submission followed by its resolution adds exactly two
      turns, the user's trimmed input and then the reply, and leaves the
      earlier turns, an empty input and no request outstanding. */
  lemma TurnAddsTwo(s: Snapshot, o: Outcome)
    requires Accepts(s)
    ensures var t := Resolved(Submitted(s), o);
      t.messages == s.messages + [Message(User, Trim(s.input)), Message(Assistant, Reply(o))] &&
      t.input == "" && !t.loading
  {
    assert s.messages + [Message(User, Trim(s.input))] + [Message(Assistant, Reply(o))] ==
      s.messages + [Message(User, Trim(s.input)), Message(Assistant, Reply(o))];
  }

  /** Once a submission is accepted, a second one is a no-op until the first
      resolves, whatever is typed in between. */
  lemma SecondSubmitIgnored(s: Snapshot, typed: string)
    requires Accepts(s)
    ensures var busy := Submitted(s).(input := typed); Submitted(busy) == busy
  {
  }

  /** The greeting effect forgets the whole history: the conversation is the
      one greeting of the character, and the greeting names the character it
      was chosen for. */
  lemma GreetedForgets(s: Snapshot, character: string, other: string)
    ensures |Greeted(s, character).messages| == 1
    ensures Greeted(s, character).messages[0].role == Assistant
    ensures Greeted(s, character).messages == Greeted(s, other).messages <==> character == other
  {
    if Greeted(s, character).messages == Greeted(s, other).messages {
      assert Greeted(s, character).messages[0].content == Greeted(s, other).messages[0].content;
      Greetings.GreetingIdentifies(character, other);
    }
  }

  /** Submitting keeps the invariant. */
  lemma SubmittedCoherent(s: Snapshot)
    requires Coherent(s)
    ensures Coherent(Submitted(s))
  {
    if Accepts(s) {
      AskedCoherent(s, Trim(s.input));
    }
  }

  /** Appending a user turn to a coherent conversation with no request
      outstanding, and setting loading, keeps it coherent whatever the
      turn says. */
  lemma AskedCoherent(s: Snapshot, question: string)
    requires Coherent(s) && !s.loading
    ensures Coherent(Snapshot(s.messages + [Message(User, question)], "", true))
  {
    var m := s.messages + [Message(User, question)];
    var t := Snapshot(m, "", true);
    forall i | 0 <= i < |m| && m[i].role == User
      ensures (i + 1 < |m| && m[i + 1].role == Assistant) || (i == |m| - 1 && t.loading)
    {
      if i < |s.messages| {
        assert s.messages[i] == m[i];
        AnsweredAt(s, i);
        assert s.messages[i + 1] == m[i + 1];
      }
    }
    assert m[0] == s.messages[0];
  }

  /** `Answered` read at one user turn: a trigger helper that instantiates
      the invariant's quantifier at `i` for `AskedCoherent`. */
  lemma AnsweredAt(s: Snapshot, i: int)
    requires Answered(s) && 0 <= i < |s.messages| && s.messages[i].role == User
    ensures (i + 1 < |s.messages| && s.messages[i + 1].role == Assistant) ||
      (i == |s.messages| - 1 && s.loading)
  {
    assert s.messages[i].role == User;
  }

  /** Resolving the outstanding request keeps the invariant. */
  lemma ResolvedCoherent(s: Snapshot, o: Outcome)
    requires Coherent(s) && s.loading
    ensures Coherent(Resolved(s, o))
  {
    var t := Resolved(s, o);
    forall i | 0 <= i < |t.messages| && t.messages[i].role == User
      ensures (i + 1 < |t.messages| && t.messages[i + 1].role == Assistant) ||
        (i == |t.messages| - 1 && t.loading)
    {
      assert s.messages[i] == t.messages[i];
      if i + 1 < |s.messages| {
        assert s.messages[i + 1] == t.messages[i + 1];
      }
    }
  }

  /** Typing keeps the invariant: it does not depend on the input. */
  lemma TypedCoherent(s: Snapshot, text: string)
    requires Coherent(s)
    ensures Coherent(s.(input := text))
  {
    assert s.(input := text).messages == s.messages;
  }

  /** The greeting effect establishes the invariant, whatever the state. */
  lemma GreetedCoherent(s: Snapshot, character: string)
    ensures Coherent(Greeted(s, character))
  {
  }

  /** One chat view. `wording` and `knowledge` are the page's module-level
      constants the prompt is built from (the template's fixed text and the
      knowledge table), fixed when the view is created; `character` is the
      active character; the rest is the state the page keeps with
      `useState`. */
  class Chat {
    const wording: Prompt.Wording
    const knowledge: map<string, Knowledge.Profile>
    var character: string
    var messages: seq<Message>
    var input: string
    var loading: bool

    function State(): (s: Snapshot)
      reads this
    {
      Snapshot(messages, input, loading)
    }

    /** The conversation opens with the active character's greeting and
        every user turn is answered. */
    ghost predicate Valid()
      reads this
    {
      Coherent(State()) && messages[0] == Message(Assistant, Greetings.Greeting(character))
    }

    /** Opening the page with a `character` parameter: the active character
        is chosen and the greeting effect runs once. The page passes its own
        constants, `Prompt.PageWording` and `Knowledge.Table`. */
    constructor (wording: Prompt.Wording, knowledge: map<string, Knowledge.Profile>, param: Option<string>)
      ensures Valid()
      ensures this.wording == wording && this.knowledge == knowledge
      ensures character == Greetings.ActiveCharacter(param)
      ensures State() == Snapshot([Message(Assistant, Greetings.Greeting(character))], "", false)
    {
      this.wording := wording;
      this.knowledge := knowledge;
      character := Greetings.ActiveCharacter(param);
      messages := [Message(Assistant, Greetings.Greeting(Greetings.ActiveCharacter(param)))];
      input := "";
      loading := false;
    }

    /** The input's `onChange`. */
    method Type(text: string)
      requires Valid()
      modifies this
      ensures Valid()
      ensures character == old(character)
      ensures State() == old(State()).(input := text)
    {
      TypedCoherent(State(), text);
      input := text;
    }

    /** `sendMessage` up to its `await`. When the guard accepts, the request
        is the prompt for the active character and the trimmed input;
        otherwise no request is issued and nothing changes. */
    method Submit() returns (request: Option<string>)
      requires Valid()
      modifies this
      ensures Valid()
      ensures character == old(character)
      ensures State() == Submitted(old(State()))
      ensures request.Some? <==> Accepts(old(State()))
      ensures request.Some? ==> request.value == Prompt.BuildPrompt(wording, knowledge, old(character), old(input))
    {
      if !Accepts(State()) {
        return None;
      }
      SubmittedCoherent(State());
      var prompt := Prompt.BuildPrompt(wording, knowledge, character, input);
      var opening := messages[0];
      messages := messages + [Message(User, Trim(input))];
      assert messages[0] == opening;
      input := "";
      loading := true;
      request := Some(prompt);
    }

    /** `sendMessage` after its `await`: the reply or the apology is
        appended, and `finally` clears loading. */
    method Resolve(outcome: Outcome)
      requires Valid() && loading
      modifies this
      ensures Valid()
      ensures character == old(character)
      ensures State() == Resolved(old(State()), outcome)
    {
      ResolvedCoherent(State(), outcome);
      var reply := Apology;
      if outcome.WellFormed? {
        reply := outcome.text;
      }
      messages := messages + [Message(Assistant, reply)];
      loading := false;
    }

    /** A new `character` parameter. The greeting effect depends on the
        active character only, so it runs when that changes and the
        conversation is replaced by the new greeting; the input and any
        outstanding request are left as they were. */
    method SelectCharacter(param: Option<string>)
      requires Valid()
      modifies this
      ensures Valid()
      ensures character == Greetings.ActiveCharacter(param)
      ensures State() ==
        if character == old(character) then old(State()) else Greeted(old(State()), character)
    {
      var next := Greetings.ActiveCharacter(param);
      if next != character {
        GreetedCoherent(State(), next);
        character := next;
        messages := [Message(Assistant, Greetings.Greeting(next))];
      }
    }
  }
}
