# InWintors: the stateful logic of a themed demo web app, in Dafny

InWintors is a React single-page site with a simulated brain-facts chat widget,
a light/dark theme kept in the browser's key-value storage, a contact form, and
a `classNames` helper. This project models those four pieces and proves
properties about them. Everything else in the application is styled views and
routing.

- `jsstring.dfy`, module `JsString`: `String.prototype.trim`, used by the chat
  send handler. It uses the full ECMAScript white-space and line-terminator set
  (the Unicode Zs category as of Unicode 15).
- `utils.dfy`, module `Utils`: `classNames(...classes)`, which is
  `filter(Boolean)` followed by `join(' ')`. The arguments are
  `string | boolean | undefined | null`.
- `theme.dfy`, module `ThemeContext`: the two theme tables, the initial mode read
  from storage key `"theme-mode"`, and the mode-to-theme lookup. It also has
  `toggleTheme`, `setTheme` and the `useTheme` provider guard. The provider is a
  class whose fields are the mode and the storage map.
- `chat.dfy`, module `Chat`: `ChatComponent`'s draft, message history and
  `isLoading` flag. The class methods are `SetDraft`, `Send`, `KeyPress` and
  `Reply` (the timer callback).
  - A run model pairs the component state with the number of outstanding reply
    timers.
  - It proves that at most one reply is ever in flight, and that after the
    greeting the history alternates user and non-user messages.
- `contact.dfy`, module `Contact`: `ContactPage`'s form data, `isSubmitting` and
  submit status.
  - The submit handler is split at its `await` into `BeginSubmit` and
    `FinishSubmit(rejected)`.
- `wrappers.dfy`, module `Wrappers`: `Option` and `Result`.

Each class method is verified against a pure step function on a state value
(`SendStep`, `ReplyStep`, `ToggleStep`, `SetStep`, `ChangeStep`, …). The
properties are proved as lemmas about those functions and about runs of them.

Two behaviours of the code that a reader might not expect are modelled as written:

- A stored theme value is not validated. Any non-empty string is taken as the
  mode by a cast (`ThemeContext.tsx:121`), so the mode is a `string`, not a
  two-valued enumeration. An unrecognised mode selects the light table and
  toggles to `"light"`.
- The reply timer has no liveness or cancellation check: the callback always
  appends its reply and lowers the flag.

The code catches no storage errors, and the model adds no catching of its
own. Storage failures are not modelled at all (see "Left out").

## Model

| member | source | states |
|---|---|---|
| JsString.TrimStart | src/components/ChatComponent.tsx:153-155 | the result is the suffix of the input after its leading white space; everything dropped is white space and the result does not start with white space |
| JsString.TrimEnd | src/components/ChatComponent.tsx:153-155 | the result is the prefix before the trailing white space; everything dropped is white space and the result does not end with white space |
| JsString.Trim | src/components/ChatComponent.tsx:153-155 | `trim()` never lengthens the text, and the result neither starts nor ends with white space |
| JsString.TrimIsCore | src/components/ChatComponent.tsx:155 | `trim()` yields a slice of the input with only white space on either side, and it neither starts nor ends with white space |
| JsString.TrimEmptyIff | src/components/ChatComponent.tsx:153 | the trimmed draft is empty (falsy) exactly when the draft is all white space |
| JsString.TrimIdempotent | src/components/ChatComponent.tsx:155 | trimming the trimmed text changes nothing |
| Utils.Truthy | src/lib/utils.ts:30 | `Boolean(v)` holds exactly for a non-empty string and for `true` |
| Utils.JoinText | src/lib/utils.ts:29-30 | how `join` renders an element; every truthy argument renders as a non-empty string |
| Utils.Filter | src/lib/utils.ts:30 | `filter(Boolean)` keeps only truthy arguments and never more than it was given |
| Utils.Texts | src/lib/utils.ts:30 | each surviving element is rendered as `join` renders it, in the same position |
| Utils.Join | src/lib/utils.ts:30 | `join` of no parts is `""`; otherwise the result starts with the first part |
| Utils.ClassNames | src/lib/utils.ts:29-31 | `classNames` is `""` exactly when nothing survives `filter(Boolean)` |
| Utils.FilterAppend | src/lib/utils.ts:30 | the filter distributes over concatenation, so survivors keep their input order |
| Utils.FilterMembership | src/lib/utils.ts:30 | a value survives exactly when it is among the arguments and truthy |
| Utils.FilterNoneIff | src/lib/utils.ts:30 | nothing survives exactly when every argument is falsy |
| Utils.JoinAppend | src/lib/utils.ts:30 | joining two non-empty lists is joining each and putting one separator between them |
| Utils.JoinShape | src/lib/utils.ts:30 | with k >= 1 parts the joined length is the parts' total plus k - 1 separators, and the result starts with the first part |
| Utils.JoinLast | src/lib/utils.ts:30 | with two or more parts the result ends with one separator followed by the last part |
| Utils.JoinSeparatorCount | src/lib/utils.ts:30 | with k >= 1 parts, the joined string holds exactly k - 1 more separator characters than the parts |
| Utils.ClassNamesEmptyIff | src/lib/utils.ts:29-31 | the result is `""` exactly when no argument is truthy |
| Utils.ClassNamesFalsy | src/lib/utils.ts:30 | `""`, `false`, `undefined` and `null` are dropped without a trace; no arguments give `""` |
| Utils.ClassNamesDropsFalsy | src/lib/utils.ts:30 | a falsy argument anywhere in the list leaves the result exactly as if it were absent |
| Utils.ClassNamesTrue | src/lib/utils.ts:29-30 | the boolean `true` survives and appears as the text `"true"` |
| Utils.ClassNamesSingle | src/lib/utils.ts:29-31 | a single string argument comes back unchanged |
| Utils.ClassNamesIdempotent | src/lib/utils.ts:29-31 | `classNames(classNames(xs)) == classNames(xs)` |
| Utils.ClassNamesAppend | src/lib/utils.ts:29-31 | when both argument lists contribute, the result is the first's classes, one space, then the second's |
| Utils.JoinWithSpaces | src/lib/utils.ts:30 | joining k >= 1 parts with a space adds exactly k - 1 spaces, starts with the first part and ends with the last one after a single space |
| Utils.ClassNamesSeparators | src/lib/utils.ts:30 | with k >= 1 survivors there are exactly k - 1 added spaces, none before the first survivor's text and none after the last's |
| ThemeContext.GetItem | src/contexts/ThemeContext.tsx:120 | `getItem` gives the stored value when the key is present and null otherwise |
| ThemeContext.TablesShareScales | src/contexts/ThemeContext.tsx:36-100 | the light and dark tables have the same spacing and border radii, and different colours and shadows |
| ThemeContext.InitialMode | src/contexts/ThemeContext.tsx:118-122 | the initial mode is the stored `theme-mode` when present and non-empty, otherwise `"light"`; it is never empty |
| ThemeContext.InitialModePassesThrough | src/contexts/ThemeContext.tsx:121 | a non-empty unrecognised stored string becomes the mode unchanged |
| ThemeContext.ThemeFor | src/contexts/ThemeContext.tsx:124 | the dark table is chosen exactly when the mode is `"dark"`; every other mode, unrecognised ones included, gets the light table |
| ThemeContext.Toggled | src/contexts/ThemeContext.tsx:127 | the new mode is always `"light"` or `"dark"`, and it is `"dark"` exactly when the old one was `"light"` |
| ThemeContext.ToggleTwice | src/contexts/ThemeContext.tsx:126-128 | toggling twice restores the mode exactly when it was `"light"` or `"dark"`; otherwise the result is `"dark"` |
| ThemeContext.SetItem | src/contexts/ThemeContext.tsx:129 | `setItem` stores the value under the key and leaves every other key as it was |
| ThemeContext.ToggleStep | src/contexts/ThemeContext.tsx:126-130 | toggling yields the toggled mode; afterwards storage holds the in-memory mode under `theme-mode` and no other key changes |
| ThemeContext.SetStep | src/contexts/ThemeContext.tsx:132-135 | `setTheme(m)` makes the mode `m`; afterwards storage agrees with memory and no other key changes |
| ThemeContext.SetIdempotent | src/contexts/ThemeContext.tsx:132-135 | setting the same mode twice has the same effect as setting it once |
| ThemeContext.ReloadRestoresMode | src/contexts/ThemeContext.tsx:118-135 | after a toggle or a `setTheme`, a provider started on the new storage begins in the same mode |
| ThemeContext.ProvidedValue | src/contexts/ThemeContext.tsx:124-144 | the context value carries the current mode and the theme derived from it: the dark table for `"dark"`, the light table for every other mode |
| ThemeContext.UseTheme | src/contexts/ThemeContext.tsx:149-155 | `useTheme` fails, with its message, exactly when no provider value is present; otherwise it returns that value |
| ThemeContext.ThemeProvider.constructor | src/contexts/ThemeContext.tsx:117-122 | mounting reads the initial mode from storage without changing storage |
| ThemeContext.ThemeProvider.Value | src/contexts/ThemeContext.tsx:124-144 | the component's context value is the one derived from its state |
| ThemeContext.ThemeProvider.ToggleTheme | src/contexts/ThemeContext.tsx:126-130 | the new mode is `"dark"` after `"light"` and `"light"` after anything else; storage is then written back to agree |
| ThemeContext.ThemeProvider.SetTheme | src/contexts/ThemeContext.tsx:132-135 | the mode becomes the argument and is written back under `theme-mode`; no other key changes |
| Chat.Initial | src/components/ChatComponent.tsx:146-150 | the initial history is exactly the one non-user greeting; the draft is empty and `isLoading` is false |
| Chat.SendBlocked | src/components/ChatComponent.tsx:153 | the send handler returns early exactly when the draft is all white space or a reply is pending |
| Chat.SendButtonDisabled | src/components/ChatComponent.tsx:212 | the send button is disabled exactly when the draft is all white space or a reply is pending |
| Chat.TypeStep | src/components/ChatComponent.tsx:205 | typing replaces the draft and touches nothing else |
| Chat.SendStep | src/components/ChatComponent.tsx:152-158 | when the trimmed draft is empty or a reply is pending, nothing changes; otherwise exactly `{trim(draft), isUser: true}` is appended after the old history, the draft is cleared and `isLoading` is raised |
| Chat.PickIndex | src/components/ChatComponent.tsx:169 | `floor(random * responses.length)` for a random number in [0, 1) is a valid index |
| Chat.ReplyStep | src/components/ChatComponent.tsx:161-171 | the callback appends exactly one non-user message whose text is one of the five responses, keeps the old history as a prefix and lowers `isLoading` |
| Chat.SendButtonMatchesGuard | src/components/ChatComponent.tsx:152-212 | the send button is enabled exactly when pressing it appends a message |
| Chat.SentTextIsTrimmed | src/components/ChatComponent.tsx:155-156 | a sent message is non-empty and has no white space at either end |
| Chat.BlankDraftIsIgnored | src/components/ChatComponent.tsx:153 | a draft of white space only is never sent |
| Chat.Step | src/components/ChatComponent.tsx:152-173 | every event leaves the old history as a prefix and adds at most one message |
| Chat.StartConsistent | src/components/ChatComponent.tsx:146-150 | the mounted component with no timers is in a consistent state |
| Chat.SendConsistent | src/components/ChatComponent.tsx:152-158 | a send that passes the guard appends a user message at an odd position, raises `isLoading` and starts the only outstanding timer, keeping the state consistent |
| Chat.FireConsistent | src/components/ChatComponent.tsx:161-171 | the outstanding timer's callback appends a non-user message at an even position, lowers `isLoading` and leaves no timer outstanding, keeping the state consistent |
| Chat.StepConsistent | src/components/ChatComponent.tsx:153-171 | typing, pressing send and a timer firing keep the alternation and keep exactly one timer outstanding while `isLoading` holds and none otherwise |
| Chat.RunConsistent | src/components/ChatComponent.tsx:153-171 | every sequence of events keeps the state consistent |
| Chat.RunFromStart | src/components/ChatComponent.tsx:146-171 | from mounting on, at most one reply is in flight, and after the greeting the history alternates user then non-user messages |
| Chat.RunAppendOnly | src/components/ChatComponent.tsx:156-170 | over any run the history is append-only and grows by at most one message per event |
| Chat.RunRepliesAreCanned | src/components/ChatComponent.tsx:148-170 | every non-user message ever in the history is the greeting or a canned response |
| Chat.ChatSession.constructor | src/components/ChatComponent.tsx:146-150 | the component starts in the initial state |
| Chat.ChatSession.CanSend | src/components/ChatComponent.tsx:212 | the component's button is enabled exactly when the `disabled` condition is false (its link to the guard is `SendButtonMatchesGuard`) |
| Chat.ChatSession.SetDraft | src/components/ChatComponent.tsx:205 | the input's change handler replaces the draft |
| Chat.ChatSession.Send | src/components/ChatComponent.tsx:152-173 | the reply timer is started exactly when the guard passes; the new state is `SendStep` of the old; a blocked send changes nothing |
| Chat.ChatSession.KeyPress | src/components/ChatComponent.tsx:175-180 | Enter without Shift sends; any other key changes nothing |
| Chat.ChatSession.Reply | src/components/ChatComponent.tsx:161-172 | the callback appends the response picked by the random number and lowers `isLoading` |
| Contact.EmptyForm | src/pages/contact/Contact.tsx:117-121 | the form has exactly the fields name, email and message, all `""` |
| Contact.Initial | src/pages/contact/Contact.tsx:117-123 | initially the fields are empty, `isSubmitting` is false and the status is idle |
| Contact.ChangeStep | src/pages/contact/Contact.tsx:141-144 | the named field takes the value, other fields are unchanged, and flag and status stay |
| Contact.BeginSubmitStep | src/pages/contact/Contact.tsx:125-127 | submitting raises `isSubmitting` and changes nothing else |
| Contact.FinishSubmitStep | src/pages/contact/Contact.tsx:130-138 | on success the status is success and the fields are cleared; on rejection it is error and the fields stay; either way `isSubmitting` is false and the status is not idle |
| Contact.ChangeKeepsFields | src/pages/contact/Contact.tsx:141-144 | changing one of the three inputs keeps exactly the three fields |
| Contact.Step | src/pages/contact/Contact.tsx:125-144 | no event returns a non-idle status to idle; a submit raises `isSubmitting`; a settle lowers it and leaves the status non-idle |
| Contact.Run | src/pages/contact/Contact.tsx:123-144 | over any run a status that has left idle never returns to it |
| Contact.StepNeverIdles | src/pages/contact/Contact.tsx:123-135 | no event returns a non-idle status to idle, and settling always leaves it non-idle |
| Contact.RunNeverIdles | src/pages/contact/Contact.tsx:123-135 | once any submission has settled, the status is never idle again |
| Contact.SubmitThenSettle | src/pages/contact/Contact.tsx:125-139 | a whole submit leaves `isSubmitting` false, with success and cleared fields or error and unchanged fields |
| Contact.ContactPage.constructor | src/pages/contact/Contact.tsx:117-123 | the page starts in the initial state |
| Contact.ContactPage.HandleChange | src/pages/contact/Contact.tsx:141-144 | only the named field is updated |
| Contact.ContactPage.BeginSubmit | src/pages/contact/Contact.tsx:125-127 | `isSubmitting` is raised on entry |
| Contact.ContactPage.FinishSubmit | src/pages/contact/Contact.tsx:130-138 | the status becomes success or error and `isSubmitting` is lowered |

## Left out

- Styled components, views, layout, navigation, routing, the 3D viewer and the error boundary: these are presentation, DOM scripting and React lifecycle code. So are the loading indicator, the success and error messages, and the submit button's `disabled={isSubmitting}`.
- `debounce` and `formatDate` in `src/lib/utils.ts`. They rest on timers, `this` binding and `Intl.DateTimeFormat`.
- The 1000 ms delays are not timed. The chat reply is a separate atomic step, `Reply` / `Fire`. The end of a submit is `FinishSubmit` / `Settle`.
- `Math.random` is a real number in [0, 1) passed as a parameter. Floating-point rounding of `random * 5` is not modelled; the index is computed exactly over the reals.
- Contact.FinishSubmitStep: the outcome of the awaited promise is a parameter. In the source that promise always fulfils, so the error branch is modelled but never taken there.
- ThemeContext.ThemeProvider.SetTheme: requires the argument to be `"light"` or `"dark"`, as its TypeScript parameter type does.
- The browser storage is a map. `getItem` and `setItem` never fail in the model. In the source a throwing `setItem` is not caught and would abort the handler after the in-memory update was requested.
- React's batching of state updates and the stale-closure read of `isLoading` are not modelled. Each handler is one atomic sequential step, and each state update takes effect at once.
- `event.preventDefault()` in the key and submit handlers is DOM behaviour and is not modelled.
- The white-space set of `trim` follows Unicode 15's Zs category. A later Unicode version that adds space separators is not reflected.
