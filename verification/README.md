# Astro Club Bot: the upload extractor and the chat message list

Astro Club Bot is a Streamlit chat page for astronomy teachers. It sends a
conversation to a hosted completion API. Under the widgets there are two
pieces of logic, and this Dafny project models them and proves their
properties:

- **`extract_text_from_file`** (`file_utils.py`). It takes the extension from
  the upload's name (`'.' + name.split('.')[-1].lower()`) and dispatches on
  it: plain text, PDF, Word or unsupported. PDF pages and Word paragraphs are
  joined into one text, each piece followed by a newline. Every failure
  comes back as a fixed-format string; nothing is raised. An `ImportError`
  while reading a PDF or Word file gives that library's "not installed"
  message. In module `FileUtils` the function `ExtractedText` states the
  result. The method
  `ExtractTextFromFile` keeps the source's two accumulating `for` loops and is
  proved equal to that function. Module `Strings` models the Python string
  operations the extension relies on: `split`, its inverse `join`, and
  `lower`.
- **The session message list** (`streamlit_app.py`). `st.session_state.messages`
  is created empty. Each run of the page script makes sure it starts with a
  system entry, shows everything after that entry, and may add a turn. A turn
  appends the user entry, sends the whole list to the API, then appends the
  assistant's reply. If the completion raises, the reply is never appended
  and the user entry stays. A run that has no API key, or whose client
  constructor raises, stops before any of this. Module `StreamlitApp` models the list as the class
  `ChatSession` with a `seq<Message>` field. Its methods are specified by the
  pure functions `EnsureSystemFirst`, `WithTurn`, `Step` and `Replay`. The
  module also has the fixed system-prompt template and the label and
  default-format tables of the two selectable languages.

The foreign parts are inputs to the model:

- The outcome of UTF-8 decoding is a field of the file record, and so are the
  outcomes of the PDF and Word parsers. Each outcome is either a value, or a
  raised exception's message together with whether it was an `ImportError`.
- Whether PyPDF2 and python-docx can be imported is a pair of flags.
- Each script run is given:
  - whether it reaches the session code;
  - the selected language and the format text;
  - the chat input, if any;
  - the streamed reply, or `None` when the completion raised.

The page keeps an existing system entry as it is, even after the language
or format changes (`streamlit_app.py:82`). `EnsureSystemFirstSpec`,
`EnsureSystemFirstIdempotent` and `SessionHistory` prove that the system
entry keeps the prompt of the first run that reached the session code.

`extract_text_from_file` is never called from the page, and no document text
is put into the prompt. The model therefore does not connect the two parts.

## Model

| member | source | states |
|---|---|---|
| `Strings.Split` | file_utils.py:11 | `name.split('.')` always has at least one piece, and no piece contains the separator |
| `Strings.JoinSplit` | file_utils.py:11 | joining the pieces of a split with the separator gives back the original name |
| `Strings.SplitJoin` | file_utils.py:11 | splitting a join of separator-free pieces gives back exactly those pieces (the other half of the round trip) |
| `Strings.SplitLastIsSuffix` | file_utils.py:11 | `[-1]` is the text after the last dot: a suffix of the name that is the whole name or is preceded by '.' |
| `Strings.NoSeparatorSplit` | file_utils.py:11 | a name without a dot splits into itself alone |
| `Strings.Lower` | file_utils.py:11 | `.lower()` keeps the length and lower-cases each character in place |
| `Strings.LowerIdempotent` | file_utils.py:11 | lower-casing twice is lower-casing once |
| `Strings.SplitLower` | file_utils.py:11 | lower-casing then splitting on '.' gives the lower-cased pieces of the split |
| `FileUtils.FileExtensionShape` | file_utils.py:11 | the extension starts with '.', has no other '.', has no upper-case letter, and is the lower-cased text after the last dot of the name |
| `FileUtils.FileExtensionDotless` | file_utils.py:11 | a dotless name yields '.' followed by the whole lower-cased name |
| `FileUtils.FileExtensionIgnoresCase` | file_utils.py:11 | a lower-cased name has the same extension as the name |
| `FileUtils.ExtractIgnoresCase` | file_utils.py:11-41 | lower-casing the file name changes neither the branch taken nor the result |
| `FileUtils.UpperTxtExample` | file_utils.py:11-14 | "A.TXT" takes the plain-text branch |
| `FileUtils.MixedMdExample` | file_utils.py:11-14 | "a.Md" takes the plain-text branch |
| `FileUtils.UpperPdfExample` | file_utils.py:11-18 | "x.PDF" takes the PDF branch |
| `FileUtils.MixedDocxExample` | file_utils.py:11-30 | "y.DocX" takes the Word branch |
| `FileUtils.DotlessExample` | file_utils.py:11 | the dotless name "README" has extension ".readme" |
| `FileUtils.ExtractedText` | file_utils.py:6-7 | the result is `None` exactly when the file is `None`; every file gives a string |
| `FileUtils.ExtractTextFromFile` | file_utils.py:4-44 | the function with its two accumulating loops returns exactly `ExtractedText` for every input |
| `FileUtils.ExtractPlainText` | file_utils.py:14-44 | `.txt`/`.md` give exactly the decoded text; any decode exception, an `ImportError` included, gives "Error processing file: " + its message |
| `FileUtils.ExtractPdf` | file_utils.py:18-44 | `.pdf` gives the pages joined line by line; the fixed PyPDF2 message when the library is missing or reading raises an `ImportError`; "Error processing file: " + the message of any other exception |
| `FileUtils.ExtractWord` | file_utils.py:30-44 | `.doc`/`.docx` give the paragraphs joined line by line; the fixed python-docx message when the library is missing or reading raises an `ImportError`; "Error processing file: " + the message of any other exception |
| `FileUtils.ExtractUnsupported` | file_utils.py:40-41 | any other extension gives exactly "Unsupported file type: " + the extension, whatever the file and the libraries |
| `FileUtils.JoinLinesSnoc` | file_utils.py:22-24 | one loop step, `text += piece + "\n"`, extends the joined text by that piece and a newline |
| `FileUtils.JoinLinesLength` | file_utils.py:22-25 | the joined text is as long as all pieces plus one newline per piece; zero pieces give "" |
| `FileUtils.JoinLinesSplit` | file_utils.py:34-36 | splitting the joined text at newlines gives back the newline-free pieces in order, then "" |
| `StreamlitApp.ParseRole` | streamlit_app.py:101 | a wire role string names at most one role, and names it exactly when it is that role's string |
| `StreamlitApp.ApiMessagesAt` | streamlit_app.py:100-103 | the API payload has one entry per session entry, in order, each with that entry's role string and content |
| `StreamlitApp.ApiMessagesLength` | streamlit_app.py:100-103 | the payload is as long as the session list |
| `StreamlitApp.ApiMessagesRoundTrip` | streamlit_app.py:100-103 | reading the payload back gives exactly the session list: the projection loses nothing |
| `StreamlitApp.PayloadSpec` | streamlit_app.py:90-103 | on a turn the API receives every entry: the system entry first, the new user entry last |
| `StreamlitApp.SystemPromptLayout` | streamlit_app.py:74-79 | the prompt is the role sentence, "All your answers MUST be in " + language + …, the strictness sentence, and it ends with "Output format: " + format |
| `StreamlitApp.SystemPromptFormat` | streamlit_app.py:78 | the format text is what follows the fixed header, so two prompts for one language are equal exactly when their formats are |
| `StreamlitApp.SystemPromptNamesLanguage` | streamlit_app.py:76 | an English prompt never equals a German one, whatever the format texts |
| `StreamlitApp.Labels` | streamlit_app.py:5-40 | `ui_texts[lang]` is defined for both selectable languages and holds all seven labels |
| `StreamlitApp.DefaultOutputFormat` | streamlit_app.py:46-52 | `output_format_options[lang]` is defined for both selectable languages and names that language |
| `StreamlitApp.LookupsTotal` | streamlit_app.py:5-53 | both tables have exactly the selectable languages as keys, and the two label tables have the same keys |
| `StreamlitApp.EnsureSystemFirstSpec` | streamlit_app.py:82-83 | after the ensure step the list starts with a system entry; an existing one is kept even if the prompt changed; any other list becomes exactly the one system message |
| `StreamlitApp.EnsureSystemFirstIdempotent` | streamlit_app.py:82-83 | repeating the ensure step, with any prompt, changes nothing |
| `StreamlitApp.WithTurnSpec` | streamlit_app.py:89-111 | a turn appends exactly the user entry, then the assistant entry only if a reply arrived (a raising completion leaves the user entry alone); earlier entries are unchanged and the single system entry stays first |
| `StreamlitApp.DisplayedSpec` | streamlit_app.py:85-87 | the chat shows every entry but the system one, in order, and none of them is a system entry |
| `StreamlitApp.ReplayKeepsSystemFirst` | streamlit_app.py:60-111 | later runs keep the single system entry first and unchanged, keep every earlier entry, and add per submitted input two entries, or one when the completion raised; stopped runs and empty inputs add none |
| `StreamlitApp.SessionHistory` | streamlit_app.py:60-111 | from a fresh session the list stays empty until a run reaches the session code; afterwards it has one system entry, at the front, holding the prompt of the FIRST such run, plus the entries of the turns |
| `StreamlitApp.ChatSession.constructor` | streamlit_app.py:70-71 | a new session's list is empty |
| `StreamlitApp.ChatSession.EnsureSystem` | streamlit_app.py:82-83 | the list becomes `EnsureSystemFirst` of the old list and has exactly one system entry, at the front |
| `StreamlitApp.ChatSession.Shown` | streamlit_app.py:85-87 | returns `messages[1:]`, which with the system entry makes up the list and holds no system entry |
| `StreamlitApp.ChatSession.AddTurn` | streamlit_app.py:89-111 | sends the list with the user entry appended; ends with the user entry and, if a reply arrived, the assistant entry appended |
| `StreamlitApp.ChatSession.RunScript` | streamlit_app.py:60-111 | one script run: nothing shown, sent or changed when it stops before the session code; otherwise the ensure step, the shown entries, and a payload exactly when the chat input is a non-empty string; the new list is `Step` of the old one |

## Left out

- Streamlit widgets and rendering (`selectbox`, `text_area`, `title`, `chat_message`, `markdown`, the status messages, `st.stop`): these are UI. The values the widgets return are arguments of a run.
- API-key lookup and the OpenAI client (streamlit_app.py:56-67): configuration and a foreign call. Their one effect on the list is modelled as `clientReady`: without a key the script stops at line 64, and a raising constructor jumps to the handler at lines 109-111. The handler's messages (lines 110-111) are rendering only. The same handler also catches a raising completion, whose effect on the list is modelled.
- The streamed completion (streamlit_app.py:97-106): the reply is an opaque argument of `AddTurn` and `RunScript`. It is either the streamed text or `None` when the call or its stream raised. The model does not make it depend on the payload that was sent.
- The `**Prompt:**` echo in the assistant bubble (streamlit_app.py:96) is rendering only.
- PyPDF2 and python-docx parsing: each parser's outcome is a given field of the file record. It is either the sequence of page or paragraph texts, or the first exception raised while reading, with its message and whether it is an `ImportError`. The result depends only on that exception, so one outcome per parser is enough.
- Real UTF-8 decoding: its outcome is a given field of the file record. A decode failure goes to the generic error branch.
- `Strings.Lower`: models `str.lower()` on ASCII letters only. Python also lower-cases non-ASCII letters. None of them becomes a letter of the five accepted extensions, so the branch taken is the same, but the extension quoted in the unsupported-type message can differ.
- `StreamlitApp.ChatSession.AddTurn`: requires the list to start with its single system entry. The script always runs the ensure step (lines 82-83) before a turn (lines 89-107).
- Session entries have a typed role. The source's `messages[0].get("role")` also copes with a dict without a role, but the script only stores entries with one of the three roles.
- The second page script, `streamlit_app copy.py`, is an older copy with the same list logic and is not part of this model.
