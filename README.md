# Portfolio site with an AI chat assistant — a Dafny model

This project models the behaviour of a single-page portfolio site for a quantity
surveyor and contract administrator. It covers three parts of the site:

- **The chat widget** (`components/AiAssistant.tsx`). It is modelled as the class
  `AiAssistant.ChatWidget`, which holds the transcript, the text box, the busy flag and
  whether the panel is open.
  - Sending is split at the point where the widget waits for the reply. `BeginSend` covers
    everything before the wait and `ResolveSend` everything after it.
  - `HandleSend` runs the whole send when nothing else happens during the wait.
  - `KeyDown` is the key handler.
  - The send *button* is disabled while a reply is pending. Neither `handleSend` nor the
    Enter key checks the busy flag, so pressing Enter while a reply is pending starts a
    second send. The model keeps this behaviour.
- **The chat service** (`services/geminiService.ts`). It is modelled as pure functions in
  `GeminiService`.
  - The API key comes from two optional environment variables.
  - Without a key the service is in demo mode and returns a fixed string.
  - With a key it builds one request: the history, then the visitor's turn, the model name
    and the system instruction. The reply text is chosen from the provider's outcome.
  - The provider (the SDK call over the network) is a parameter of type
    `Request -> Outcome`. `Outcome` is either a text, possibly absent or empty, or a failure
    that stands for a thrown error.
- **The page** (`App.tsx`). Its derived values are modelled as functions in `App`:
  - the radar chart data
  - the category buttons
  - the filtered skill grid
  - the phone/WhatsApp links
  - the title lines
  - the service icons

  Its own state, the mobile menu and the active category, is the class `App.PortfolioPage`.

Supporting modules:

- `JsString` models the JavaScript string built-ins the core uses:
  - `trim`, with the ECMAScript white-space and line-terminator characters;
  - `split` on one character;
  - `replace(/\D/g, '')`, which keeps the ASCII digits.
- `PortfolioTypes` holds the records from `types.ts`.
- `PortfolioData` holds the profile constants from `constants.ts` that the core reads.

## Model

| member | source | states |
|---|---|---|
| PortfolioTypes.CategoryLabelInjective | types.ts:1-6 | two categories have the same display label exactly when they are the same category |
| JsString.TrimStart | App.tsx:104 | the result is a suffix of the input; everything removed is whitespace; the result does not start with whitespace |
| JsString.TrimEnd | App.tsx:104 | the result is a prefix of the input; everything removed is whitespace; the result does not end with whitespace |
| JsString.Trim | components/AiAssistant.tsx:22 | the result is no longer than the input, starts and ends with non-whitespace, and is empty exactly when the input is all whitespace |
| JsString.TrimRemovesOnlyWhitespace | App.tsx:421 | `trim` returns a contiguous slice of its input, and both removed ends consist only of whitespace |
| JsString.TrimOfPadded | App.tsx:421 | trimming a trimmed string padded with whitespace on both sides gives back that string |
| JsString.TrimOfTrimmed | App.tsx:104 | `trim` leaves a string that is already trimmed unchanged |
| JsString.TrimIdempotent | App.tsx:104 | trimming twice is the same as trimming once |
| JsString.Split | App.tsx:411 | `split` on one character yields one piece more than there are separators; no piece contains the separator; joining the pieces with it rebuilds the input |
| JsString.SplitJoin | App.tsx:103 | splitting a join of separator-free pieces gives back the pieces |
| JsString.DigitsOf | App.tsx:412 | `replace(/\D/g, '')` yields only digits and is no longer than the input |
| JsString.DigitsOfCounts | App.tsx:412 | every digit is kept as often as it occurs and every other character is dropped |
| JsString.DigitsOfAppend | App.tsx:412 | removing non-digits distributes over concatenation, so the digits keep their order |
| JsString.DigitsOfDigits | App.tsx:412 | a string of digits only is left unchanged |
| GeminiService.ResolveApiKey | services/geminiService.ts:8 | the key is `API_KEY` when that is truthy, else `VITE_API_KEY` when that is truthy, else empty, and it is empty exactly when neither is truthy |
| GeminiService.InitService | services/geminiService.ts:8-13 | a client is created exactly when the resolved key is non-empty, and it is created with that key |
| GeminiService.BuildRequest | services/geminiService.ts:23-33 | the request uses the fixed model name and the system instruction; its contents are the history unchanged followed by exactly one user turn carrying the message |
| GeminiService.ReplyFor | services/geminiService.ts:35-38 | a thrown error gives the connection apology; a non-empty response text is returned as is; an absent or empty text gives the generation apology |
| GeminiService.ChatWithPortfolio | services/geminiService.ts:15-40 | no request is sent exactly when the client or the key is missing, and then the reply is the demo-mode string; otherwise the one request sent is `BuildRequest` of the message and history, and the reply is chosen from the provider's outcome for it |
| GeminiService.LiveModeIffKeyConfigured | services/geminiService.ts:8-20 | with the service as initialised, a request is sent exactly when one of the two environment variables is truthy |
| GeminiService.DemoModeIsConstant | services/geminiService.ts:17-20 | in demo mode the reply depends on neither the message, the history nor the provider |
| GeminiService.ReplyIsFixedOrProviderText | services/geminiService.ts:17-39 | the reply is never empty: it is one of the three fixed strings or the provider's own text for the request sent |
| AiAssistant.ProviderRole | components/AiAssistant.tsx:30 | the provider role is `model` exactly for assistant entries and `user` for every other entry |
| AiAssistant.HistoryOf | components/AiAssistant.tsx:29-32 | the history has one turn per transcript entry, in order; each turn has the entry's provider role and a single part holding the entry's text |
| AiAssistant.HistoryOfAppend | components/AiAssistant.tsx:29-32 | the history of a concatenation is the concatenation of the histories |
| AiAssistant.HistoryRoundTrip | components/AiAssistant.tsx:29-32 | reading every history turn back gives the transcript entry it came from, so the history loses nothing |
| AiAssistant.IsBlankIffTrimEmpty | components/AiAssistant.tsx:22 | input counts as blank exactly when `trim` makes it empty, which is exactly when every character is whitespace |
| AiAssistant.RequestCarriesTranscript | components/AiAssistant.tsx:26-34 | in live mode the request's contents are the history of the transcript with the visitor's entry appended |
| AiAssistant.ChatWidget.constructor | components/AiAssistant.tsx:7-12 | the widget starts closed and idle, with an empty box and the greeting as the only entry |
| AiAssistant.ChatWidget.Open | components/AiAssistant.tsx:51 | the floating button opens the panel and changes nothing else |
| AiAssistant.ChatWidget.Close | components/AiAssistant.tsx:72 | the header button closes the panel and changes nothing else |
| AiAssistant.ChatWidget.SetInput | components/AiAssistant.tsx:106 | typing replaces the box's text and changes nothing else |
| AiAssistant.ChatWidget.SendEnabled | components/AiAssistant.tsx:113 | the send button is enabled exactly when no reply is pending and the box holds a non-whitespace character |
| AiAssistant.ChatWidget.BeginSend | components/AiAssistant.tsx:21-34 | blank input changes nothing and makes no call; otherwise the untrimmed text is appended as a visitor entry, the box is cleared, the busy flag is set, and the call carries the text and the history of the transcript before the append, which always opens with the greeting turn; the busy flag is not consulted |
| AiAssistant.ChatWidget.ResolveSend | components/AiAssistant.tsx:36-37 | the busy flag is cleared and the reply is appended as one assistant entry |
| AiAssistant.ChatWidget.HandleSend | components/AiAssistant.tsx:21-38 | a send on non-blank input appends the visitor entry and then the service's reply for that text and the earlier history, and leaves the widget idle; blank input changes nothing |
| AiAssistant.ChatWidget.KeyDown | components/AiAssistant.tsx:40-45 | Enter without Shift prevents the default action and begins a send, even while busy; any other key does nothing |
| App.RadarData | App.tsx:19-23 | one chart point per skill, in order, with the skill's name, its level and a full mark of 100 |
| App.Categories | App.tsx:25 | five buttons: `All` first, then each category's label in declaration order |
| App.CategoriesDistinctAndComplete | App.tsx:25 | no two buttons share a label, and every skill's category has a button |
| App.FilterByLabel | App.tsx:29 | the kept skills appear in the list in their original order, and each has the selected category label |
| App.FilterByLabelCounts | App.tsx:29 | each skill of the selected label is kept as often as it occurs, and no other skill is kept |
| App.FilteredSkills | App.tsx:27-29 | `All` shows every skill; any other selection shows, in order, exactly the skills whose category label equals it, each as often as it occurs |
| App.CategoryFiltersPartition | App.tsx:25-29 | the four category filters split the skills: their sizes add up to the whole list |
| App.FilterByLabelNone | App.tsx:29 | a category that no skill has shows an empty grid |
| App.FilterByLabelPrefix | App.tsx:29 | a category held by a leading run of skills and by no later skill shows exactly that run |
| App.CommercialSkillsOfProfile | constants.ts:18-29 | for the profile's skills, `Commercial & Contracts` shows exactly the first three |
| App.PhoneLinks | App.tsx:411-421 | one link per piece of the phone string split at the bar character; each link number is the piece's digits; each display text is the trimmed piece |
| App.TitleLines | App.tsx:103-104 | one line per `/`-separated piece of the title, each the trimmed piece |
| App.IconFor | App.tsx:281-283 | the three named icons get their own pictures, and every other name gets the document picture |
| App.ServiceIconsOfProfile | constants.ts:42-63 | the profile's cards show the document, ruler, document and database pictures; the card whose icon name is `Ruler` falls through to the document picture |
| App.PortfolioPage.constructor | App.tsx:15-16 | the page starts with the menu closed and `All` active |
| App.PortfolioPage.ToggleMenu | App.tsx:65 | the menu button flips the menu and leaves the category alone |
| App.PortfolioPage.FollowMobileLink | App.tsx:80 | following a mobile-menu link closes the menu |
| App.PortfolioPage.SelectCategory | App.tsx:223 | a category button makes its label the active one |
| App.PortfolioPage.VisibleSkills | App.tsx:27-29 | the grid shows every skill for `All`; otherwise it shows, in their original order, exactly the skills whose category label is the active one, each as often as it occurs |

## Left out

- Sampling temperature (0.7): the provider is a parameter, so request options it alone reads are not modelled.
- Console warnings and error logging: they have no effect on state or results.
- The SDK and network call: replaced by the `provider` parameter. A thrown error is the `Failed` outcome.
- `await` and React state batching: the widget's updates are applied in program order. Interleaving of two pending sends is not modelled beyond the fact that Enter is not gated.
- Rendering, styling, the scroll-to-bottom effect and the blueprint background component: these are presentation only.
- The profile image fallback (`imageError`), the contact form and the footer year: these are page details outside the modelled state.
- `ChatMessage.isError`: the core never sets or reads it.
- Service descriptions and the other profile fields (tagline, about, tools, experience, education): the core does not compute with them.
- AiAssistant.ChatWidget.SendEnabled: reads `input.trim()` as "holds a non-whitespace character". It does not model JavaScript's full Unicode white-space class beyond the ECMAScript list written out in `JsString.IsWhitespace`.
- JsString.DigitsOf: `\D` is modelled as "not an ASCII digit". This matches JavaScript's non-Unicode regular expressions.
- Skill levels: modelled as unbounded integers. The `0-100` range is a comment in `types.ts` and is not enforced.
- App.PhoneLinks, App.TitleLines: the concrete links and lines for the profile's phone string and title are not proved. The general contracts hold for every input, including the profile's strings.
- Strings are sequences of characters. UTF-16 surrogate pairs and Unicode normalisation are not modelled.
