# Oshi no Ko character chat — a Dafny model of the chat page

The chat page (`app/chat/page.tsx`) lets a visitor talk with one character of
the anime *Oshi no Ko*. It does four things, and this project models each of
them and proves what it promises:

- **The knowledge base** (`knowledge.dfy`, module `Knowledge`). It holds six
  character profiles, each with a full name, an age, an occupation, a
  personality, an ordered set of relationships, a backstory and a list of key
  facts. The lookup `getCharacterInfo` returns one facet of a profile. For the
  `'all'` facet it returns the whole profile. In that case the relationships
  become `name: relation` lines joined by newlines, and the key facts are
  joined by a bullet separator. An unknown name gets a fixed sentence instead.
- **The prompt** (`prompt.dfy`, module `Prompt`). Each user turn sends one
  prompt. It is a template filled with the active character's name, the
  `'all'` facet of its profile and the user's trimmed input, then trimmed as a
  whole. If the character is not in the table, the page still sends a prompt.
  The lookup returned a string, so every profile field reads as `undefined`.
- **The conversation controller** (`conversation.dfy`, module
  `Conversation`). This is `sendMessage`, split at its `await` into
  `Chat.Submit` and `Chat.Resolve`:
  - `Chat.Submit` checks the guard, appends the user turn, clears the input,
    sets loading and builds the request.
  - `Chat.Resolve` appends the reply or the apology and clears loading.

  The awaited request itself is abstracted to an `Outcome`. Each step is
  specified by a pure step function over a `Snapshot` of the page's state:
  `Submitted`, `Resolved` and `Greeted`. The class invariant `Coherent` says
  the conversation opens with an assistant turn and every user turn is
  answered, except the last one while its request is outstanding. The
  view's invariant `Chat.Valid` adds that this opening turn is the active
  character's greeting.
- **Session start** (`greeting.dfy`, module `Greetings`). The active
  character comes from the `character` query parameter, falling back to
  "Ai Hoshino". The greeting effect replaces the conversation by that
  character's greeting. There are six hand-written greetings and a generic
  one for any other name.

JavaScript semantics are written out in `text.dfy` (module `Text`):

- `String.prototype.trim` strips the ECMAScript white-space and line-terminator
  set.
- `Array.prototype.join`.
- The one-character `split` used to state that the flattened relationships
  can be read back.

The page's source text holds mis-decoded emoji and a mis-decoded bullet (UTF-8
bytes shown as Windows-1252 characters). The model keeps exactly those
characters.

The two module-level constants that the prompt is built from are given to
each chat view when it is created and never change:

- the template's fixed wording, `Prompt.PageWording`;
- the knowledge table, `Knowledge.Table`.

The prompt lemmas hold for any wording and any table.

## Model

| member | source | states |
|---|---|---|
| Text.Trim | app/chat/page.tsx:249-253 | `trim` returns a text no longer than its input that neither starts nor ends with white space |
| Text.TrimStartSpec | app/chat/page.tsx:253 | the leading part `trim` drops is all white space, and what it keeps is the rest of the text, which does not start with white space |
| Text.TrimEndSpec | app/chat/page.tsx:253 | the trailing part `trim` drops is all white space, and what it keeps is the front of the text, which does not end with white space |
| Text.TrimEmptyIff | app/chat/page.tsx:249 | `!input.trim()` holds exactly when the input is all white space (empty included) |
| Text.TrimDecomposes | app/chat/page.tsx:253 | the input is leading white space, then the trimmed text, then trailing white space |
| Text.TrimPadded | app/chat/page.tsx:266-291 | trimming white-space padding around a text with visible ends gives that text back |
| Text.TrimIdempotent | app/chat/page.tsx:253 | a general property of `trim`, used at lines 249, 253, 290 and 291: trimming twice is trimming once |
| Text.Join | app/chat/page.tsx:232-233 | `parts.join(sep)`: an empty array gives the empty text, and the text starts with the first part |
| Text.JoinLayout | app/chat/page.tsx:232-233 | in `parts.join(sep)` part i sits at its offset; the first part starts the text; every later part follows the separator; the last part ends the text |
| Text.SplitJoin | app/chat/page.tsx:232 | joining newline-free parts with a newline and splitting on it gives the parts back |
| Text.RelationLines | app/chat/page.tsx:232 | `Object.entries(...).map(...)` gives one `name: relation` line per entry, in entry order |
| Knowledge.Flatten | app/chat/page.tsx:229-234 | the `'all'` record keeps the name, age, occupation, personality and backstory of the profile unchanged |
| Knowledge.GetCharacterInfo | app/chat/page.tsx:225-238 | an unknown name gives the sentinel sentence for every facet; a known name gives the requested facet of its profile, or the flattened profile for `'all'` (both directions) |
| Knowledge.RelationshipsFlattened | app/chat/page.tsx:232 | relationship i appears as `name: relation` at its offset in the flattened text; the first starts the text; every later one follows a newline |
| Knowledge.KeyFactsFlattened | app/chat/page.tsx:233 | key fact i appears at its offset; the first starts the text; every later one follows the bullet separator; the last ends the text |
| Knowledge.RelationshipsRecoverable | app/chat/page.tsx:232 | if no relationship holds a newline, splitting the flattened text on newlines gives back exactly the relationship lines |
| Knowledge.TableKeys | app/chat/page.tsx:100-223 | the table holds exactly the six character names |
| Knowledge.TableWellFormed | app/chat/page.tsx:100-223 | every profile has non-empty text fields, at least one relationship and key fact, and distinct relationship names |
| Knowledge.KnownInfoNonEmpty | app/chat/page.tsx:225-237 | for the page's table, every facet of every known name is non-empty data, and every other name gets the sentinel |
| Greetings.ActiveCharacter | app/chat/page.tsx:20 | the active character is never empty; it is the default exactly when the parameter is absent, empty or the default itself; otherwise it is the parameter |
| Greetings.Greeting | app/chat/page.tsx:345-366 | the greeting effect's `switch`: whatever the name, the greeting opens with its opening words and then names the character it was chosen for |
| Greetings.GreetingIntroduces | app/chat/page.tsx:345-366 | every greeting is its opening words, the character's own name, then its closing |
| Greetings.OwnGreetingIffKnown | app/chat/page.tsx:345-366 | a name has a hand-written greeting exactly when it is in the knowledge table |
| Greetings.SpecificGreetingIffKnown | app/chat/page.tsx:345-366 | a name gets something other than the generic greeting exactly when it is in the knowledge table |
| Greetings.GreetingIdentifies | app/chat/page.tsx:345-366 | the greeting tells characters apart: equal greetings mean equal names |
| Greetings.SelectableCharactersKnown | components/carousel.tsx:20-63 | the default and every carousel title are names of the knowledge table |
| Prompt.Fields | app/chat/page.tsx:269-281 | the properties the template reads off the lookup result: the flattened profile when the lookup gave one, otherwise all seven read as `undefined` |
| Prompt.TemplateTrimmed | app/chat/page.tsx:266-291 | trimming the template removes exactly its opening newline and closing indentation; what is left opens with the header and ends quoting the trimmed input |
| Prompt.BuildPrompt | app/chat/page.tsx:263-291 | `characterPrompt`: whatever the lookup gives, the prompt opens with `You are <character> from the anime Oshi no Ko.` and ends with `The user is asking: "<trimmed input>"` |
| Prompt.PromptShape | app/chat/page.tsx:263-291 | the prompt is the template body for the `'all'` facet of the character; it opens with `You are <character> ...` and ends with the quoted, trimmed question |
| Prompt.PromptOpening | app/chat/page.tsx:266-270 | the prompt opens with the header and then the full name and age lines of whatever the lookup gave |
| Prompt.KnownCharacterPrompt | app/chat/page.tsx:263-270 | for a character in the table, the prompt states the profile's own full name and age |
| Prompt.UnknownCharacterPrompt | app/chat/page.tsx:263-270 | for a character not in the table, the prompt is the body filled with `undefined` fields, and its name and age lines read `undefined` |
| Conversation.Reply | app/chat/page.tsx:309-335 | a well-formed response contributes its text; a malformed or failed request contributes the apology |
| Conversation.Accepts | app/chat/page.tsx:249 | the guard of `sendMessage`: a submission is accepted exactly when the input is not all white space and no request is outstanding |
| Conversation.Submitted | app/chat/page.tsx:249-259 | a submission keeps the earlier turns and adds at most one; when accepted it appends the non-blank trimmed input as a user turn, clears the input and sets loading; otherwise nothing changes |
| Conversation.Resolved | app/chat/page.tsx:309-338 | a settled request keeps the earlier turns, appends one assistant turn with the reply, clears loading and leaves the input |
| Conversation.Greeted | app/chat/page.tsx:368-374 | the greeting effect leaves exactly the character's greeting as one assistant turn, and leaves input and loading |
| Conversation.SubmitNoOpIff | app/chat/page.tsx:249-259 | a submission changes the state exactly when it is accepted |
| Conversation.TurnAddsTwo | app/chat/page.tsx:251-338 | an accepted submission and its resolution append exactly the trimmed user turn and the reply, keep the earlier turns, and leave an empty input and no request outstanding |
| Conversation.SecondSubmitIgnored | app/chat/page.tsx:249-259 | while a request is outstanding, any further submission is a no-op whatever is typed |
| Conversation.GreetedForgets | app/chat/page.tsx:368-374 | the greeting effect leaves exactly one assistant turn, and the resulting conversations for two characters are equal exactly when the characters are |
| Conversation.SubmittedCoherent | app/chat/page.tsx:251-259 | submitting keeps the conversation coherent |
| Conversation.ResolvedCoherent | app/chat/page.tsx:309-338 | resolving the outstanding request keeps the conversation coherent |
| Conversation.TypedCoherent | app/chat/page.tsx:512 | typing keeps the conversation coherent |
| Conversation.GreetedCoherent | app/chat/page.tsx:368-374 | the greeting effect makes any state coherent |
| Conversation.Chat.constructor | app/chat/page.tsx:18-24 | opening the page picks the active character and leaves exactly its greeting, an empty input and no request outstanding |
| Conversation.Chat.Type | app/chat/page.tsx:512 | typing replaces the input and nothing else, and keeps the opening greeting |
| Conversation.Chat.Submit | app/chat/page.tsx:247-305 | the new state is `Submitted` of the old; a request is issued exactly when the guard accepts, and it is the prompt for the active character and the input as typed |
| Conversation.Chat.Resolve | app/chat/page.tsx:307-338 | the new state is `Resolved` of the old: the reply or the apology is appended and loading cleared |
| Conversation.Chat.SelectCharacter | app/chat/page.tsx:341-380 | a new parameter sets the active character; the conversation is replaced by the new greeting exactly when the active character changes; input and loading are untouched |

## Left out

- The drag-and-drop and touch handlers of the floating window (lines 32-97) and all rendering (JSX): they affect only layout.
- The HTTP request, the API key, JSON encoding of the body and JSON decoding of the response (lines 293-307). The response is abstracted to `Conversation.Outcome`: a well-formed response carries the text of its first part; a missing or empty candidate list, or a candidate without content, is `Malformed`; a thrown request or decoding is `Failed`. Other shapes of the response object are not modelled.
- Timestamps of messages, the 800 ms initial-loading timer, the auto-scroll effect and `console.error`: clocks and the DOM are outside the model.
- The empty conversation of the very first render, before the greeting effect runs: `Chat.constructor` models the page after the effect has run once.
- React's scheduling: state updates are applied in order, one event at a time. The model keeps the observable choices of the code: the prompt uses the input as it was before it was cleared, and a reply that arrives after the character changed is appended to the new conversation.
- Conversation.Chat.Type: typing is allowed while a request is outstanding, whereas the page disables the input then (line 515). The model thus allows more behaviours than the page; `Conversation.SecondSubmitIgnored` shows that such typing cannot start a second request.
- The previous turns of the conversation are never sent with a prompt; the model follows the page in this.
- Names that are inherited properties of a JavaScript object (such as `constructor`, `toString` or `__proto__`) are treated as unknown names. In the page, such a name finds a truthy prototype member rather than a profile, so the test at line 227 passes and line 232 calls `Object.entries` on `undefined`, which throws. The throw happens inside the `try` (lines 261-263), so no prompt is built and no request is sent (line 293); the `catch` (lines 327-335) appends the apology at once and `finally` (lines 336-337) clears loading. The model instead sends the prompt filled with `undefined` fields (`Prompt.UnknownCharacterPrompt`) and leaves the reply to whatever `Outcome` `Chat.Resolve` is given.
- Knowledge.RelationshipsRecoverable: requires that no relationship name or description holds a newline. The table satisfies this by inspection, but the model does not prove it for the table's texts.
- The landing page (`app/page.tsx`), the carousel component's wrap-around and the layout are not part of this model, except that the carousel's slide titles are the names `Greetings.SelectableCharactersKnown` talks about. URL encoding of the parameter is taken to round-trip.
- Texts are sequences of Unicode code points, whereas JavaScript strings are sequences of UTF-16 code units. Every separator and white-space character the model uses lies in the Basic Multilingual Plane, so trimming, joining and splitting behave the same; but the offsets in `Text.JoinLayout` and `Knowledge.RelationshipsFlattened` count code points, and differ from JavaScript indices once a text holds a character outside that plane (an emoji typed by the user, say). The page's own texts hold none: their emoji are mis-decoded into characters of that plane.
