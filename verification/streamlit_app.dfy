/**
 * The state behind the chat page: the list `st.session_state.messages`,
 * which the page script creates empty, makes start with a system entry,
 * shows from its second entry on, sends in full to the completion API, and
 * grows by one user and one assistant entry per turn. Also the fixed
 * system-prompt template and the per-language label and default-format
 * tables.
 *
 * The widgets, the API key, the client and the streamed completion are not
 * modelled: the selected language, the format text, the chat input and the
 * assistant's reply are arguments.
 */
module StreamlitApp {
  import opened Wrappers

  // ---------------------------------------------------------------------
  // Messages

  datatype Role = System | User | Assistant

  /** One entry of the session list: `{"role": ..., "content": ...}`. */
  datatype Message = Message(role: Role, content: string)

  /** One entry as the completion API receives it, with the role spelled
      as its wire string. */
  datatype ApiMessage = ApiMessage(role: string, content: string)

  function RoleName(role: Role): string
  {
    match role
    case System => "system"
    case User => "user"
    case Assistant => "assistant"
  }

  /** The role a wire string names, if any. */
  function ParseRole(name: string): (r: Option<Role>)
    ensures forall role :: r == Some(role) <==> RoleName(role) == name
  {
    if name == "system" then Some(System)
    else if name == "user" then Some(User)
    else if name == "assistant" then Some(Assistant)
    else None
  }

  /** The request payload: `[{"role": m["role"], "content": m["content"]}
      for m in messages]`. */
  function ApiMessages(messages: seq<Message>): (out: seq<ApiMessage>)
    decreases |messages|
  {
    if |messages| == 0 then []
    else [ApiMessage(RoleName(messages[0].role), messages[0].content)] + ApiMessages(messages[1..])
  }

  /** Reads a payload back into session entries; `None` if some role is
      not one of the three. */
  function FromApiMessages(payload: seq<ApiMessage>): Option<seq<Message>>
    decreases |payload|
  {
    if |payload| == 0 then Some([])
    else
      match (ParseRole(payload[0].role), FromApiMessages(payload[1..]))
      case (Some(role), Some(rest)) => Some([Message(role, payload[0].content)] + rest)
      case _ => None
  }

  /** The payload keeps every entry, in order, with its role and content. */
  lemma {:induction false} ApiMessagesAt(messages: seq<Message>, i: nat)
    requires i < |messages|
    ensures |ApiMessages(messages)| == |messages|
    ensures ApiMessages(messages)[i] == ApiMessage(RoleName(messages[i].role), messages[i].content)
    decreases |messages|
  {
    ApiMessagesLength(messages);
    if i > 0 {
      ApiMessagesAt(messages[1..], i - 1);
    }
  }

  lemma {:induction false} ApiMessagesLength(messages: seq<Message>)
    ensures |ApiMessages(messages)| == |messages|
    decreases |messages|
  {
    if |messages| > 0 {
      ApiMessagesLength(messages[1..]);
    }
  }

  /** Nothing is lost in the payload: it reads back as the session list. */
  lemma {:induction false} ApiMessagesRoundTrip(messages: seq<Message>)
    ensures FromApiMessages(ApiMessages(messages)) == Some(messages)
    decreases |messages|
  {
    if |messages| > 0 {
      ApiMessagesRoundTrip(messages[1..]);
      var payload := ApiMessages(messages);
      assert payload[1..] == ApiMessages(messages[1..]);
      assert ParseRole(payload[0].role) == Some(messages[0].role);
      assert [messages[0]] + messages[1..] == messages;
    }
  }

  // ---------------------------------------------------------------------
  // The system prompt

  const RoleSentence: string :=
    "You are a helpful research assistant for an astronomy class teacher. "
  const LanguageSentenceStart: string := "All your answers MUST be in "
  const LanguageSentenceEnd: string := " and never in any other language. "
  const StrictSentence: string :=
    "Strictly follow this instruction, even if the user asks in another language. "
  const FormatLabel: string := "Output format: "

  function LanguageSentence(lang: string): string
  {
    LanguageSentenceStart + lang + LanguageSentenceEnd
  }

  function FormatLine(outputFormat: string): string
  {
    FormatLabel + outputFormat
  }

  /** The system prompt for a language and an output format: the four
      pieces of the template, in order. */
  function SystemPrompt(lang: string, outputFormat: string): string
  {
    RoleSentence + LanguageSentence(lang) + StrictSentence + FormatLine(outputFormat)
  }

  /** Where each of four concatenated pieces sits in the whole. */
  lemma {:induction false} FourPieces(a: string, b: string, c: string, d: string)
    ensures var p := a + b + c + d;
      |p| == |a| + |b| + |c| + |d| &&
      p[..|a|] == a && p[|a|..|a| + |b|] == b &&
      p[|a| + |b|..|a| + |b| + |c|] == c && p[|a| + |b| + |c|..] == d
  {
    var p := a + b + c + d;
    assert p == (a + b + c) + d;
    assert (a + b + c)[..|a| + |b|] == a + b;
  }

  /** The prompt opens with the role sentence, then the sentence naming the
      language, then the strictness sentence, and ends with the format
      label and the format text. */
  lemma {:induction false} SystemPromptLayout(lang: string, outputFormat: string)
    ensures var p := SystemPrompt(lang, outputFormat);
      var i := |RoleSentence|;
      var j := i + |LanguageSentence(lang)|;
      var k := j + |StrictSentence|;
      |p| == k + |FormatLabel| + |outputFormat| &&
      p[..i] == RoleSentence &&
      p[i..j] == LanguageSentenceStart + lang + LanguageSentenceEnd &&
      p[j..k] == StrictSentence &&
      p[k..] == FormatLabel + outputFormat
  {
    FourPieces(RoleSentence, LanguageSentence(lang), StrictSentence, FormatLine(outputFormat));
  }

  /** The format text is everything after the fixed part, so two prompts for
      one language agree exactly when their formats do. */
  lemma {:induction false} SystemPromptFormat(lang: string, f1: string, f2: string)
    ensures var k := |RoleSentence| + |LanguageSentence(lang)| + |StrictSentence| + |FormatLabel|;
      SystemPrompt(lang, f1)[k..] == f1
    ensures SystemPrompt(lang, f1) == SystemPrompt(lang, f2) <==> f1 == f2
  {
    SystemPromptLayout(lang, f1);
    SystemPromptLayout(lang, f2);
    var k := |RoleSentence| + |LanguageSentence(lang)| + |StrictSentence|;
    assert (FormatLabel + f1)[|FormatLabel|..] == f1;
    assert SystemPrompt(lang, f1)[k..][|FormatLabel|..] == SystemPrompt(lang, f1)[k + |FormatLabel|..];
    assert (FormatLabel + f2)[|FormatLabel|..] == f2;
    assert SystemPrompt(lang, f2)[k..][|FormatLabel|..] == SystemPrompt(lang, f2)[k + |FormatLabel|..];
  }

  /** The two selectable languages give different prompts, whatever the
      format texts. */
  lemma {:induction false} SystemPromptNamesLanguage(f1: string, f2: string)
    ensures SystemPrompt("English", f1) != SystemPrompt("Deutsch", f2)
  {
    var i := |RoleSentence|;
    var n := |LanguageSentenceStart|;
    SystemPromptLayout("English", f1);
    SystemPromptLayout("Deutsch", f2);
    assert LanguageSentence("English")[n] == 'E';
    assert LanguageSentence("Deutsch")[n] == 'D';
    assert SystemPrompt("English", f1)[i + n] == LanguageSentence("English")[n];
    assert SystemPrompt("Deutsch", f2)[i + n] == LanguageSentence("Deutsch")[n];
  }

  // ---------------------------------------------------------------------
  // The label and default-format tables

  const LanguageOptions: seq<string> := ["English", "Deutsch"]

  const LabelKeys: set<string> :=
    {"title", "intro", "select_language", "output_format_label", "api_key_label",
     "api_key_info", "chat_input"}

  const UiTexts: map<string, map<string, string>> := map[
    "English" := map[
      "title" := "\U{2B50}\U{FE0F}\U{1F916}\U{1F4AC} Astro Club Bot",
      "intro" :=
        "This is a research assistant chatbot for astronomy class teachers, powered by OpenAI's GPT-4o model. " +
        "You can select the output language and specify the desired output format. " +
        "To use this app, provide an OpenAI API key, which you can get [here](https://platform.openai.com/account/api-keys).",
      "select_language" := "Select output language",
      "output_format_label" := "Specify the desired output format",
      "api_key_label" := "Enter your OpenAI API Key",
      "api_key_info" := "Please provide your OpenAI API key to continue.",
      "chat_input" := "What would you like to research or prepare for your astronomy class?"
    ],
    "Deutsch" := map[
      "title" := "\U{2B50}\U{FE0F}\U{1F916}\U{1F4AC} Astro Club Bot",
      "intro" :=
        "Dies ist ein Recherche-Chatbot f\U{FC}r Lehrkr\U{E4}fte im Astronomieunterricht, betrieben mit OpenAI's GPT-4o Modell. " +
        "Sie k\U{F6}nnen die Ausgabesprache w\U{E4}hlen und das gew\U{FC}nschte Ausgabeformat angeben. " +
        "Um diese App zu nutzen, geben Sie einen OpenAI API-Schl\U{FC}ssel ein, den Sie [hier](https://platform.openai.com/account/api-keys) erhalten.",
      "select_language" := "Ausgabesprache ausw\U{E4}hlen",
      "output_format_label" := "Gew\U{FC}nschtes Ausgabeformat angeben",
      "api_key_label" := "OpenAI API-Schl\U{FC}ssel eingeben",
      "api_key_info" := "Bitte geben Sie Ihren OpenAI API-Schl\U{FC}ssel ein, um fortzufahren.",
      "chat_input" := "Wor\U{FC}ber m\U{F6}chten Sie recherchieren oder etwas f\U{FC}r den Astronomieunterricht vorbereiten?"
    ]
  ]

  // The default format texts, cut around the name of the language.
  const EnglishFormatLead: string := "Generate one page of text in "
  const EnglishFormatRest: string :=
    " suitable for fourth graders. Attach structured sources for further information, relevant YouTube clips, and Wikipedia images."
  const DeutschFormatLead: string := "Generiere eine Seite Text in "
  const DeutschFormatRest: string :=
    "(!), der vom Verst\U{E4}ndnis her f\U{FC}r Viertkl\U{E4}ssler geeignet ist. H\U{E4}nge strukturierte Quellen f\U{FC}r tiefergehende Informationen, fachlich passende Youtube-Clips und Bilder bei Wikipedia an."

  const OutputFormatOptions: map<string, string> := map[
    "English" := EnglishFormatLead + "English" + EnglishFormatRest,
    "Deutsch" := DeutschFormatLead + "Deutsch" + DeutschFormatRest
  ]

  /** `ui_texts[lang]`, for a language the selector offers: every label is
      there. */
  function Labels(lang: string): (labels: map<string, string>)
    requires lang in LanguageOptions
    ensures labels.Keys == LabelKeys
  {
    UiTexts[lang]
  }

  /** `word` occurs somewhere in `text`. */
  predicate Mentions(text: string, word: string)
  {
    exists i :: 0 <= i <= |text| && word <= text[i..]
  }

  lemma {:induction false} MentionsMiddle(before: string, word: string, after: string)
    ensures Mentions(before + word + after, word)
  {
    assert (before + word + after)[|before|..] == word + after;
  }

  /** `output_format_options[lang]`, the text the format box starts with:
      it names the selected language. */
  function DefaultOutputFormat(lang: string): (text: string)
    requires lang in LanguageOptions
    ensures Mentions(text, lang)
  {
    var text := OutputFormatOptions[lang];
    assert Mentions(text, lang) by {
      if lang == "English" {
        MentionsMiddle(EnglishFormatLead, "English", EnglishFormatRest);
      } else {
        MentionsMiddle(DeutschFormatLead, "Deutsch", DeutschFormatRest);
      }
    }
    text
  }

  /** Both lookups are defined for exactly the two selectable languages,
      and the two label tables have the same keys. */
  lemma LookupsTotal()
    ensures UiTexts.Keys == OutputFormatOptions.Keys == set lang | lang in LanguageOptions
    ensures UiTexts["English"].Keys == UiTexts["Deutsch"].Keys == LabelKeys
  {
  }

  // ---------------------------------------------------------------------
  // The session list

  predicate StartsWithSystem(messages: seq<Message>)
  {
    |messages| > 0 && messages[0].role == System
  }

  /** Exactly one system entry, and it is the first. */
  predicate SystemOnlyFirst(messages: seq<Message>)
  {
    StartsWithSystem(messages) &&
    forall i :: 1 <= i < |messages| ==> messages[i].role != System
  }

  /** The ensure step: a list that starts with a system entry is kept as it
      is; any other list is replaced by the one system message. */
  function EnsureSystemFirst(messages: seq<Message>, prompt: string): seq<Message>
  {
    if StartsWithSystem(messages) then messages else [Message(System, prompt)]
  }

  /** One turn: the user entry at the end, then the assistant entry when
      the completion delivered a reply. When the completion call or its
      stream raises (`reply == None`), the outer handler takes over before
      the assistant entry is appended, and the user entry stays. */
  function WithTurn(messages: seq<Message>, prompt: string, reply: Option<string>): seq<Message>
  {
    messages + [Message(User, prompt)] +
      (match reply case Some(r) => [Message(Assistant, r)] case None => [])
  }

  /** The entries shown in the chat: all but the first. */
  function Displayed(messages: seq<Message>): seq<Message>
  {
    if |messages| == 0 then [] else messages[1..]
  }

  /** After the ensure step the list starts with a system entry. An
      existing one is kept even when the prompt would now read differently;
      otherwise the whole history is discarded. */
  lemma {:induction false} EnsureSystemFirstSpec(messages: seq<Message>, prompt: string)
    ensures StartsWithSystem(EnsureSystemFirst(messages, prompt))
    ensures StartsWithSystem(messages) ==> EnsureSystemFirst(messages, prompt) == messages
    ensures !StartsWithSystem(messages) ==> EnsureSystemFirst(messages, prompt) == [Message(System, prompt)]
    ensures SystemOnlyFirst(messages) || !StartsWithSystem(messages) ==>
      SystemOnlyFirst(EnsureSystemFirst(messages, prompt))
  {
  }

  /** Running the ensure step again, with any prompt, changes nothing. */
  lemma {:induction false} EnsureSystemFirstIdempotent(messages: seq<Message>, prompt: string, later: string)
    ensures EnsureSystemFirst(EnsureSystemFirst(messages, prompt), later) == EnsureSystemFirst(messages, prompt)
  {
  }

  /** A turn adds the user entry and, when a reply arrived, the assistant
      entry after it; it keeps every earlier entry, and keeps the single
      system entry at the front. */
  lemma {:induction false} WithTurnSpec(messages: seq<Message>, prompt: string, reply: Option<string>)
    requires SystemOnlyFirst(messages)
    ensures var after := WithTurn(messages, prompt, reply);
      after[..|messages|] == messages && after[|messages|] == Message(User, prompt) &&
      (reply.None? ==> |after| == |messages| + 1) &&
      (reply.Some? ==> |after| == |messages| + 2 && after[|messages| + 1] == Message(Assistant, reply.value)) &&
      SystemOnlyFirst(after)
  {
  }

  /** The chat shows every entry but the system one, in order. */
  lemma {:induction false} DisplayedSpec(messages: seq<Message>)
    requires SystemOnlyFirst(messages)
    ensures [messages[0]] + Displayed(messages) == messages
    ensures forall i :: 0 <= i < |Displayed(messages)| ==> Displayed(messages)[i].role != System
  {
    assert [messages[0]] + messages[1..] == messages;
  }

  // ---------------------------------------------------------------------
  // Runs of the page script

  /** A submitted chat input and what the completion gave for it: the
      streamed reply, or `None` when the call or its stream raised. */
  datatype Turn = Turn(prompt: string, reply: Option<string>)

  /** One run of the page script. `clientReady` is false when the run ends
      before the session code: no API key was found or entered
      (`st.stop()`, line 64), or the client constructor raised (line 67).
      Then come the selected language, the text in the format box, and the
      chat input with its outcome, if `st.chat_input` returned one. */
  datatype Run = Run(clientReady: bool, lang: string, outputFormat: string, chat: Option<Turn>)

  /** `if prompt := st.chat_input(...)`: the input is present and is not
      the empty string. */
  predicate Submitted(run: Run)
  {
    run.chat.Some? && run.chat.value.prompt != ""
  }

  /** The session list after one run. */
  function Step(messages: seq<Message>, run: Run): seq<Message>
  {
    if !run.clientReady then messages
    else
      var ensured := EnsureSystemFirst(messages, SystemPrompt(run.lang, run.outputFormat));
      if Submitted(run) then WithTurn(ensured, run.chat.value.prompt, run.chat.value.reply)
      else ensured
  }

  /** The session list after a sequence of runs. */
  function Replay(messages: seq<Message>, runs: seq<Run>): seq<Message>
    decreases |runs|
  {
    if |runs| == 0 then messages else Replay(Step(messages, runs[0]), runs[1..])
  }

  /** How many entries a run appends after its ensure step: none without a
      submitted input, the user entry alone when the completion raised, and
      the user and assistant entries otherwise. */
  function AddedEntries(run: Run): nat
  {
    if !run.clientReady || !Submitted(run) then 0
    else if run.chat.value.reply.Some? then 2
    else 1
  }

  function EntryCount(runs: seq<Run>): nat
    decreases |runs|
  {
    if |runs| == 0 then 0 else AddedEntries(runs[0]) + EntryCount(runs[1..])
  }

  /** The prompt of the first run that reaches the session code, if any. */
  function FirstPrompt(runs: seq<Run>): Option<string>
    decreases |runs|
  {
    if |runs| == 0 then None
    else if runs[0].clientReady then Some(SystemPrompt(runs[0].lang, runs[0].outputFormat))
    else FirstPrompt(runs[1..])
  }

  /** Once the list has its system entry, later runs keep exactly one system
      entry, at the front and unchanged, keep every earlier entry, and
      append only the entries of their turns. */
  lemma {:induction false} ReplayKeepsSystemFirst(messages: seq<Message>, runs: seq<Run>)
    requires SystemOnlyFirst(messages)
    ensures var after := Replay(messages, runs);
      SystemOnlyFirst(after) && after[0] == messages[0] &&
      |after| == |messages| + EntryCount(runs) && after[..|messages|] == messages
    decreases |runs|
  {
    if |runs| > 0 {
      var next := Step(messages, runs[0]);
      if runs[0].clientReady {
        assert EnsureSystemFirst(messages, SystemPrompt(runs[0].lang, runs[0].outputFormat)) == messages;
        if Submitted(runs[0]) {
          WithTurnSpec(messages, runs[0].chat.value.prompt, runs[0].chat.value.reply);
        }
      }
      assert |next| == |messages| + AddedEntries(runs[0]);
      ReplayKeepsSystemFirst(next, runs[1..]);
      assert next[..|messages|] == messages;
      assert Replay(messages, runs)[..|messages|] == Replay(next, runs[1..])[..|next|][..|messages|];
    }
  }

  /** From a fresh session: while no run has reached the session code the
      list is empty; afterwards it holds exactly one system entry, at the
      front, carrying the prompt of the FIRST run that reached it (later
      changes of language or format do not reach it), plus the entries of
      the turns. */
  lemma {:induction false} SessionHistory(runs: seq<Run>)
    ensures var after := Replay([], runs);
      (FirstPrompt(runs).None? ==> after == []) &&
      (FirstPrompt(runs).Some? ==>
        SystemOnlyFirst(after) && after[0] == Message(System, FirstPrompt(runs).value) &&
        |after| == 1 + EntryCount(runs))
    decreases |runs|
  {
    if |runs| > 0 {
      if !runs[0].clientReady {
        SessionHistory(runs[1..]);
      } else {
        var first := Step([], runs[0]);
        var ensured := [Message(System, SystemPrompt(runs[0].lang, runs[0].outputFormat))];
        if Submitted(runs[0]) {
          WithTurnSpec(ensured, runs[0].chat.value.prompt, runs[0].chat.value.reply);
        }
        assert SystemOnlyFirst(first) && first[0] == ensured[0] && |first| == 1 + AddedEntries(runs[0]);
        ReplayKeepsSystemFirst(first, runs[1..]);
      }
    }
  }

  // ---------------------------------------------------------------------
  // The session state

  /** `st.session_state.messages`, updated in place by the page script. */
  class ChatSession {
    var messages: seq<Message>

    /** The list is empty until the first ensure step, and afterwards has
        exactly one system entry, at the front. */
    ghost predicate Valid()
      reads this
    {
      messages == [] || SystemOnlyFirst(messages)
    }

    /** `st.session_state.messages = []` when the session has no list. */
    constructor ()
      ensures Valid() && messages == []
    {
      messages := [];
    }

    /** `if not messages or messages[0].get("role") != "system":
        messages = [{"role": "system", "content": prompt}]` */
    method EnsureSystem(prompt: string)
      requires Valid()
      modifies this
      ensures messages == EnsureSystemFirst(old(messages), prompt)
      ensures Valid() && SystemOnlyFirst(messages)
    {
      if messages == [] || messages[0].role != System {
        messages := [Message(System, prompt)];
      }
    }

    /** The entries the chat shows: `messages[1:]`. */
    method Shown() returns (shown: seq<Message>)
      requires SystemOnlyFirst(messages)
      ensures shown == Displayed(messages)
      ensures [messages[0]] + shown == messages
      ensures forall i :: 0 <= i < |shown| ==> shown[i].role != System
    {
      shown := messages[1..];
      DisplayedSpec(messages);
    }

    /** One turn: append the user entry, send the whole list to the
        completion API, and append the reply as the assistant entry if one
        arrived. Returns the payload that was sent. */
    method AddTurn(prompt: string, reply: Option<string>) returns (sent: seq<ApiMessage>)
      requires SystemOnlyFirst(messages)
      modifies this
      ensures sent == ApiMessages(old(messages) + [Message(User, prompt)])
      ensures messages == WithTurn(old(messages), prompt, reply)
      ensures Valid() && SystemOnlyFirst(messages)
    {
      messages := messages + [Message(User, prompt)];
      sent := ApiMessages(messages);
      match reply
      case Some(r) =>
        messages := messages + [Message(Assistant, r)];
      case None =>
    }

    /** One run of the page script: when the client is ready, ensure the
        system entry, list what the chat shows, and handle a submitted chat
        input; otherwise leave the list alone and show nothing. */
    method RunScript(run: Run) returns (shown: Option<seq<Message>>, sent: Option<seq<ApiMessage>>)
      requires Valid()
      modifies this
      ensures !run.clientReady ==> shown == None && sent == None
      ensures run.clientReady ==>
        var ensured := EnsureSystemFirst(old(messages), SystemPrompt(run.lang, run.outputFormat));
        shown == Some(Displayed(ensured)) &&
        (!Submitted(run) ==> sent == None) &&
        (Submitted(run) ==> sent == Some(ApiMessages(ensured + [Message(User, run.chat.value.prompt)])))
      ensures messages == Step(old(messages), run)
      ensures Valid() && (run.clientReady ==> SystemOnlyFirst(messages))
    {
      if !run.clientReady {
        shown, sent := None, None;
        return;
      }
      var prompt := SystemPrompt(run.lang, run.outputFormat);
      EnsureSystem(prompt);
      var entries := Shown();
      shown := Some(entries);
      if run.chat.Some? && run.chat.value.prompt != "" {
        var payload := AddTurn(run.chat.value.prompt, run.chat.value.reply);
        sent := Some(payload);
      } else {
        sent := None;
      }
    }
  }

  /** What the completion API receives on a turn: every session entry, the
      system entry first, then the new user entry last. */
  lemma {:induction false} PayloadSpec(messages: seq<Message>, prompt: string)
    requires SystemOnlyFirst(messages)
    ensures var payload := ApiMessages(messages + [Message(User, prompt)]);
      |payload| == |messages| + 1 &&
      payload[0] == ApiMessage("system", messages[0].content) &&
      payload[|messages|] == ApiMessage("user", prompt) &&
      FromApiMessages(payload) == Some(messages + [Message(User, prompt)])
  {
    var all := messages + [Message(User, prompt)];
    ApiMessagesAt(all, 0);
    ApiMessagesAt(all, |messages|);
    ApiMessagesRoundTrip(all);
  }

}
