# Promptly in Dafny

Promptly is a React application for writing, sharing and running AI prompt
templates. This project is a Dafny model of its core logic:

- the template engine. It detects `{{name}}` placeholders in a prompt's content, keeps the
  editor's variable list in step with them, substitutes values when a prompt is
  tested or executed, and decides when the Generate button is enabled;
- the application shell (`App`). It restores a guest from browser storage, chooses
  which view is shown, gates the protected screens for guests and hands onboarding
  data to the sign-up form;
- the form state machines: the onboarding wizard (`OnboardingScreen`), the sign-in /
  sign-up modal (`AuthModal`), the prompt editor (`CreatePromptScreen`) and the
  execution screen (`ExecutePromptScreen`);
- the authentication hook (`useAuth`). It covers demo mode, the mapping between the `users`
  table and the user record, sign-up, sign-in, sign-out, profile updates and the
  PRO upgrade;
- the flows hook (`useFlows`): the flows query, creation with its defaults, the usage
  counter, and the conversion of a flow into a prompt;
- the list screens: the library catalogue (de-duplication by id, then filters), the
  community feed (filter, stable sort, summary figures), the personal prompts and
  history search. The assistant chat is modelled too: message log, replies, flow
  selection, button states and message actions.

Each React component or hook whose state changes step by step is a `class`:
its `useState` fields are fields, and its handlers are methods with `modifies this`.
Their `ensures` give the whole new state. Derived values (`filter`, `map`,
`find`, `sort`, the reply texts, the button states) are functions. The lemmas
beside them say what those values mean. Asynchronous handlers are split at
their `await` into a method before it and a method after it. The outcome of
the remote call (Supabase, a timer) is a parameter of the second method.
`Date.now()` ids are `stamp` parameters, `new Date()` is a `now` parameter and
`Math.random()` is a `choice` parameter.

JavaScript semantics are written out where the code depends on them:

- the truthiness of strings (`""` is falsy);
- `||` against `??`;
- the ECMAScript white-space set of `trim`;
- `toLowerCase` on ASCII and Latin-1 letters;
- `Array.prototype.find` returning the first match;
- the stability of `Array.prototype.sort`;
- `Math.round` with halves rounding up.

Modules, one per source file, plus three shared ones:

| module | file | models |
|---|---|---|
| Text | text.dfy | `trim`, `toLowerCase`, `includes`, the case-blind search |
| Lists | lists.dfy | `filter`, first-by-key de-duplication, stable descending sort, sums |
| Model | model.dfy | the records of `src/types.ts` as the screens use them |
| Template | template.dfy | placeholder detection and substitution |
| Editor | editor.dfy | `CreatePromptScreen` |
| Runner | runner.dfy | `ExecutePromptScreen` |
| Onboarding | onboarding.dfy | `OnboardingScreen` |
| AuthForm | authform.dfy | `AuthModal` |
| Auth | auth.dfy | `useAuth` |
| App | app.dfy | `App` |
| Flows | flows.dfy | `useFlows` |
| Chat | chat.dfy | `ChatScreen` |
| Library | library.dfy | `LibraryScreen` |
| Community | community.dfy | `CommunityScreen` |
| MyPrompts | myprompts.dfy | `MyPromptsScreen` |

## Model

| member | source | states |
|---|---|---|
| Text.Trim | CreatePromptScreen.tsx:27 | `trim()` leaves no white space at either end, and gives the empty string exactly when its argument is blank |
| Text.TrimInfix | CreatePromptScreen.tsx:27 | what `trim()` keeps is an infix of its argument |
| Text.TrimIdempotent | CreatePromptScreen.tsx:27 | trimming a trimmed name changes nothing |
| Text.Lower | LibraryScreen.tsx:173-174 | `toLowerCase()` keeps the length and lowers each character |
| Text.LowerIdempotent | LibraryScreen.tsx:173-174 | lowering a lowered string changes nothing |
| Text.EmptySearchMatches | LibraryScreen.tsx:173-174 | the empty search matches every string, and a string matches itself whatever its case |
| Text.FirstWord | ChatScreen.tsx:42 | `split(' ')[0]` is the prefix before the first space and contains no space |
| Text.ReplaceChar | ExecutePromptScreen.tsx:135 | `replace(/_/g, ' ')` swaps exactly the matching characters and keeps the length |
| Template.CloseBrace | CreatePromptScreen.tsx:25 | `[^}]+` stops at the first `}`, or at the end of the text |
| Template.MatchAt | CreatePromptScreen.tsx:25 | the regular expression matches at a position exactly when a placeholder starts there |
| Template.CapturesFrom | CreatePromptScreen.tsx:25-26 | every capture is non-empty and contains no `}` |
| Template.CapturesLeftmost | CreatePromptScreen.tsx:25-26 | `matchAll` takes the leftmost match and resumes after its closing braces |
| Template.CapturesSound | CreatePromptScreen.tsx:25-26 | every capture is the inside of a placeholder that occurs in the content |
| Template.CapturesEmpty | CreatePromptScreen.tsx:25-26 | there are no captures exactly when no placeholder occurs |
| Template.DetectNamesSpec | CreatePromptScreen.tsx:24-27 | the detected names are distinct trimmed captures, every trimmed capture is among them, in order of first appearance; there are none exactly when the content has no placeholder |
| Template.FindByName | CreatePromptScreen.tsx:30 | `find` gives the first record with that name, or nothing when none has it |
| Template.Rescan | CreatePromptScreen.tsx:24-40 | after a content change there is one record per detected name, in order |
| Template.RescanSpec | CreatePromptScreen.tsx:29-37 | a name already known keeps its whole first record, and a new name gets an empty required record |
| Template.RescanStable | CreatePromptScreen.tsx:24-40 | running the detection again on the same content changes nothing |
| Template.Apply | CreatePromptScreen.tsx:42-46 | an edit sets the one field it names and keeps the name and the other fields |
| Template.UpdateVariable | CreatePromptScreen.tsx:42-46 | `updateVariable` edits only the element at that index; an index out of range changes nothing; the names stay in step with the content |
| Template.ReplaceIsJoin | CreatePromptScreen.tsx:55 | a global replace is a split at the placeholder followed by a join with the value |
| Template.SplitJoin | CreatePromptScreen.tsx:55 | joining the pieces with the placeholder gives the original text |
| Template.ReplaceWithItself | CreatePromptScreen.tsx:55 | replacing a placeholder by itself changes nothing |
| Template.SplitPiecesFree | CreatePromptScreen.tsx:55 | no piece left between replacements contains the placeholder, so every occurrence is replaced |
| Template.Lookup | ExecutePromptScreen.tsx:56 | `values[name]` is the entry, or undefined for an absent key |
| Template.ValueFor | CreatePromptScreen.tsx:54 | the replacement is the example (preview) or the entered value (execution) when truthy, else the default value, else `[name]`; it is never empty |
| Template.SubstituteOne | ExecutePromptScreen.tsx:55-58 | one pass of the loop replaces every placeholder of one variable by its value |
| Template.ExecutionIgnoresExample | ExecutePromptScreen.tsx:53-60 | the final prompt does not depend on any variable's example |
| Template.SpacedPlaceholderIsNotReplaced | CreatePromptScreen.tsx:24-57 | `{{ x }}` is detected as `x`, but the test preview leaves the text unchanged, because substitution does not trim |
| Template.LaterPassRewritesEarlierValue | ExecutePromptScreen.tsx:55-58 | passes run in list order, so a value containing a later placeholder is itself replaced |
| Template.BlankPlaceholderGivesEmptyName | CreatePromptScreen.tsx:27 | a placeholder of spaces only is detected as the empty name |
| Template.InitialValues | ExecutePromptScreen.tsx:34-39 | the `reduce` has a key for every variable name |
| Template.InitialValuesSpec | ExecutePromptScreen.tsx:34-39 | the `reduce` has no other key, and each key holds the default value of the last variable with that name |
| Template.CanGenerate | ExecutePromptScreen.tsx:80-82 | generation is allowed exactly when every required variable has a value that is not blank after trimming |
| Template.CanGenerateOnlyRequired | ExecutePromptScreen.tsx:80-82 | optional variables never affect the gate, and a list without required variables always passes |
| Template.FieldLabel | ExecutePromptScreen.tsx:135 | the label has the name's length, no `_`, and every other character unchanged |
| Editor.SaveMessage | CreatePromptScreen.tsx:63-70 | the saved message is the public one exactly when the prompt is published |
| Editor.PromptEditor.constructor | CreatePromptScreen.tsx:15-21 | empty form with the user's profession; a free user publishes by default |
| Editor.PromptEditor.SetTitle | CreatePromptScreen.tsx:128 | the title becomes the typed text; content, profession, variables, test state and visibility are unchanged |
| Editor.PromptEditor.SetProfession | CreatePromptScreen.tsx:139 | the profession becomes the typed text; every other field is unchanged |
| Editor.PromptEditor.SetContent | CreatePromptScreen.tsx:24-40 | typing content re-runs the detection on the previous list; nothing else changes |
| Editor.PromptEditor.EditVariable | CreatePromptScreen.tsx:42-46 | the variable list becomes `UpdateVariable` of the old one |
| Editor.PromptEditor.SetPublish | CreatePromptScreen.tsx:237-275 | only a PRO user can change visibility, so a free user always publishes |
| Editor.PromptEditor.TestDisabled | CreatePromptScreen.tsx:317 | Test is disabled exactly for blank content or while a test runs |
| Editor.PromptEditor.SaveDisabled | CreatePromptScreen.tsx:328 | Save is disabled exactly for a blank title, blank content or no profession |
| Editor.PromptEditor.StartTest | CreatePromptScreen.tsx:48-50 | loading goes up and the content and variables are captured as the handler's closure sees them |
| Editor.TestPrompt | CreatePromptScreen.tsx:53-57 | the loop replaces each captured variable's placeholders in list order by its example, default value or `[name]` |
| Editor.PromptEditor.FinishTest | CreatePromptScreen.tsx:52-60 | the test result is the fixed frame around the captured content with each captured variable substituted in list order; loading goes down |
| Editor.PromptEditor.Save | CreatePromptScreen.tsx:63-70 | the message follows the visibility choice (always the public one for a free user), then the personal prompts screen |
| Runner.DefaultPrompt | ExecutePromptScreen.tsx:16-32 | the built-in prompt has four variables and the given creation time |
| Runner.DefaultPromptGate | ExecutePromptScreen.tsx:16-32 | the built-in prompt can be generated exactly when the candidate, position and reply-elements entries are not blank; the tone is optional |
| Runner.DefaultPromptStart | ExecutePromptScreen.tsx:34-39 | the built-in prompt starts with the tone filled in and the Generate button disabled |
| Runner.EnteredOr | ExecutePromptScreen.tsx:68 | `values.key || fallback`: the entry when truthy, else the fallback |
| Runner.MockResultReadsTwoEntries | ExecutePromptScreen.tsx:68 | the simulated text reads only the position and candidate entries |
| Runner.PromptRunner.constructor | ExecutePromptScreen.tsx:34-44 | the given prompt or the built-in one, with the values of the `reduce` |
| Runner.PromptRunner.ChangeValue | ExecutePromptScreen.tsx:46-51 | the entry for that name is set and every other entry is unchanged |
| Runner.PromptRunner.FinalPrompt | ExecutePromptScreen.tsx:53-60 | the loop's result is the content with each variable's placeholders replaced by its entered value, default value or `[name]`, in list order |
| Runner.PromptRunner.CanGenerateNow | ExecutePromptScreen.tsx:80-82 | the gate over the current prompt and entries |
| Runner.PromptRunner.GenerateDisabled | ExecutePromptScreen.tsx:241 | Generate is disabled exactly when a generation runs or some required variable has no non-blank entry |
| Runner.PromptRunner.StartGenerate | ExecutePromptScreen.tsx:62-63 | the flag goes up and the entries are captured |
| Runner.PromptRunner.FinishGenerate | ExecutePromptScreen.tsx:68-71 | the result is the simulated text for the captured entries; the flag goes down |
| Onboarding.Wizard.constructor | OnboardingScreen.tsx:28-32 | step 1 with every field empty |
| Onboarding.Wizard.SetName | OnboardingScreen.tsx:154 | the name becomes the typed text; step, email and both profession fields are unchanged |
| Onboarding.Wizard.SetEmail | OnboardingScreen.tsx:170 | the email becomes the typed text; step, name and both profession fields are unchanged |
| Onboarding.Wizard.SetCustomProfession | OnboardingScreen.tsx:256 | the free-text profession becomes the typed text; step, name, email and the selected card are unchanged |
| Onboarding.Wizard.SelectProfession | OnboardingScreen.tsx:93-98 | any card but "Autre" clears the free text; "Autre" keeps it |
| Onboarding.Wizard.Next | OnboardingScreen.tsx:100-106 | 1 goes to 2 once name and email are filled in, 2 goes to 3 once the profession is chosen, otherwise the step stays; the step stays within 1..3 |
| Onboarding.Wizard.Previous | OnboardingScreen.tsx:108-112 | one step back, never below step 1 |
| Onboarding.Wizard.NextDisabled | OnboardingScreen.tsx:419-424 | on steps 1 and 2 the button is disabled exactly when Next would not advance |
| Onboarding.Wizard.FinalProfession | OnboardingScreen.tsx:128-130 | the free text for the "Autre" card, the card otherwise |
| Onboarding.Wizard.Continue | OnboardingScreen.tsx:114-126 | the data handed on is the name, the email and the final profession |
| AuthForm.SignUpCheck | AuthModal.tsx:84-97 | the first failing check in the form's order (missing fields, mismatched passwords, a password under 6 characters); none fails exactly when all hold |
| AuthForm.AuthModalForm.constructor | AuthModal.tsx:23-32 | every field empty and every flag down |
| AuthForm.AuthModalForm.SetFields | AuthModal.tsx:186-261 | the five inputs (name, profession, email, password, confirmation) take the typed values; loading, messages and the password toggles are unchanged |
| AuthForm.AuthModalForm.Prefill | AuthModal.tsx:48-61 | an open sign-up form copies the onboarding data; a sign-in form clears name and profession, and the email only when there is no onboarding data |
| AuthForm.AuthModalForm.BeginSubmit | AuthModal.tsx:63-97 | messages cleared and loading up; a failing sign-up check sets its message, calls nothing and puts loading down; otherwise the matching hook call is made with the form's fields |
| AuthForm.AuthModalForm.EndSubmit | AuthModal.tsx:70-117 | success sets the mode's success message and schedules the close, a returned error the mode's error message, a throw the generic message; loading always ends down |
| AuthForm.AuthModalForm.ResetForm | AuthModal.tsx:120-130 | the five fields, both messages and both visibility toggles are cleared |
| AuthForm.AuthModalForm.ChangeMode | AuthModal.tsx:132-135 | the form is reset and the new mode passed to the parent |
| AuthForm.AuthModalForm.SubmitDisabled | Button.tsx:46 | the submit button is disabled exactly while a success message shows or a submit is pending (AuthModal.tsx:278-280 passes `success !== null` and `loading`, which the shared button ORs) |
| AuthForm.AuthModalForm.RequiredHidesMissingFields | AuthModal.tsx:84-97 | a sign-up whose required inputs the browser accepted never reports the missing-fields message; only the mismatch or the short-password message remain |
| AuthForm.OtherMode | AuthModal.tsx:293 | the mode switch always offers the other mode |
| Auth.RowToUser | useAuth.ts:75-84 | each column of the row goes to its user field |
| Auth.UserToRow | useAuth.ts:149-159 | each user field goes to its column |
| Auth.RowRoundTrip | useAuth.ts:75-84 | the row/user mapping loses nothing in either direction |
| Auth.AfterFetch | useAuth.ts:64-100 | an error keeps the current user, no row clears it, otherwise the first row's user |
| Auth.DemoSignUpUser | useAuth.ts:116-132 | the demo sign-up user has the form's name, email and profession, is free, and has used none of its 10 prompts |
| Auth.DemoSignInUser | useAuth.ts:203-219 | the demo sign-in profile is fixed apart from the given email |
| Auth.SignUpUser | useAuth.ts:168-178 | the user set after a real sign-up is the one a later fetch of the inserted row gives |
| Auth.UpgradePatch | useAuth.ts:297-303 | the upgrade sends PRO status and an unlimited quota, and no profile field when there is no user |
| Auth.ApplyPatch | useAuth.ts:262-274 | an update never changes the row's id |
| Auth.UpgradeEffect | useAuth.ts:297-303 | applied to the user's own row, the upgrade gives the same user with PRO status and an unlimited quota |
| Auth.AuthHook.constructor | useAuth.ts:7-9 | no user, loading |
| Auth.AuthHook.InitialSession | useAuth.ts:13-43 | demo mode only ends loading; a session's profile is fetched; loading always ends |
| Auth.AuthHook.AuthEvent | useAuth.ts:48-59 | a session records its user and fetches the profile, no session clears both; loading ends |
| Auth.AuthHook.SignUp | useAuth.ts:102-187 | demo mode sets the demo user and reports no error; otherwise only a rejection is an error, and the user is set only when a row was inserted |
| Auth.AuthHook.SignIn | useAuth.ts:189-244 | demo mode sets the demo profile; otherwise only a rejection is an error, and an accepted user's profile is fetched |
| Auth.AuthHook.SignOut | useAuth.ts:246-256 | the users are cleared only when the provider call succeeds |
| Auth.AuthHook.UpdateProfile | useAuth.ts:258-295 | no user reports it and changes nothing; a failed update changes nothing; a returned row becomes the user |
| Auth.AuthHook.UpgradeToPro | useAuth.ts:297-303 | no user: nothing changes and not-logged-in is returned; a failed update keeps the user; any returned row becomes the user, and when it is the user's row with the patch applied that is the same user with PRO status and an unlimited quota |
| Auth.AuthHook.RefreshProfile | useAuth.ts:314 | with a user its profile is fetched again; without one nothing happens |
| Auth.DemoConfigurations | useAuth.ts:20-23 | the placeholder URL, an empty URL and a Netlify host all select demo mode |
| App.Restore | App.tsx:45-53 | onboarding counts as completed exactly when both keys are present; a guest is read only from a stored user |
| App.SaveOnboarding | App.tsx:143-162 | the two keys are written and every other key is kept |
| App.Forget | App.tsx:66-68 | the two keys are removed and every other key is kept |
| App.RestoreSaved | App.tsx:45-53 | a guest saved by onboarding is restored exactly on the next visit |
| App.RestoreForgotten | App.tsx:45-53 | after a real sign-in the next visit restores nothing |
| App.ScreenOf | App.tsx:116-135 | a known screen name selects its screen; any other name falls back to the home screen |
| App.ScreenRoundTrip | App.tsx:116-135 | every screen is selected by its own name |
| App.Guest | App.tsx:143-162 | the guest has the onboarding's name, email and profession, is free, and has used none of its 10 prompts |
| App.AppController.View | App.tsx:74-364 | exactly one view per state, in the source's order: loading iff loading; else signed-in iff there is a user; else onboarding iff onboarding is not completed (modal flag passed through); else the placeholder iff there is no guest; else the guest view; the guest modal is shown only on Home, Library and Community |
| App.AppController.constructor | App.tsx:31-53 | the initial state followed by the restore from storage |
| App.AppController.HookUpdate | App.tsx:56-71 | a new non-null user object closes the modal, goes home and erases the guest in memory and in storage, and an update with the same user object runs no effect; a user signing out with onboarding completed leaves the placeholder view |
| App.AppController.AuthNavigate | App.tsx:89-95 | a signed-in user goes to any screen name, unchecked |
| App.AppController.AuthSelectPrompt | App.tsx:97-103 | the prompt is kept and the execution screen is shown |
| App.AppController.CompleteOnboarding | App.tsx:143-162 | the guest is created and stored so that the next restore gives it back, and the guest view is shown |
| App.AppController.OnboardingSignIn | App.tsx:163-167 | onboarding's sign-in opens the sign-in modal |
| App.AppController.OnboardingSignUp | App.tsx:168-173 | onboarding's sign-up keeps the data for the form and opens the sign-up modal |
| App.AppController.CloseModal | App.tsx:177-180 | the modal closes and nothing else changes |
| App.AppController.ModeChange | App.tsx:182 | the modal's mode changes and nothing else does |
| App.AppController.RequireSignUp | App.tsx:193-197 | asking a guest to sign up opens the sign-up modal and changes nothing else |
| App.AppController.GuestNavigate | App.tsx:189-204 | a guest asking for a protected screen gets the sign-up modal and stays put; any other screen is shown |
| App.AppController.GuestSelectPrompt | App.tsx:206-220 | a guest selecting a prompt gets the sign-up modal and no execution |
| App.AppController.GuestUpgrade | App.tsx:222-236 | a guest asking for PRO gets the sign-up modal and no upgrade |
| Flows.QuerySpec | useFlows.ts:37-48 | the query returns exactly the visible flows, as often as the table has them, most used first, with ties in table order |
| Flows.GuestSeesPublicOnly | useFlows.ts:43-48 | without a user id only public flows are visible |
| Flows.Incremented | useFlows.ts:156-160 | the flows with that id get one more use and every other flow is unchanged |
| Flows.IncrementedTotal | useFlows.ts:147-164 | the total usage grows by exactly the number of flows with that id |
| Flows.IncrementedKeepsIds | useFlows.ts:156-160 | the update keeps every id in place |
| Flows.ConvertVariable | useFlows.ts:174-179 | missing or empty example and default value become `''`, required becomes `true` only when it was `true` |
| Flows.ConvertVariableTotal | useFlows.ts:174-179 | a converted variable has no missing field |
| Flows.ConvertVariables | useFlows.ts:174-179 | one converted variable per stored one, in order |
| Flows.ConvertFlow | useFlows.ts:167-184 | each prompt field comes from its flow column, with the fixed tone and rating |
| Flows.ConvertFlowNames | useFlows.ts:174-179 | the prompt's variable names are the flow's, in order |
| Flows.PromptsOf | useFlows.ts:186-188 | one prompt per flow, in order |
| Flows.InsertRecord | useFlows.ts:82-90 | the caller's fields plus the owner, personal unless said otherwise and public only when asked |
| Flows.FlowStore.constructor | useFlows.ts:23-25 | no flows, loading, no error |
| Flows.FlowStore.FetchFlows | useFlows.ts:32-63 | success replaces the list with the query's result and clears the error; failure keeps the list and records the message or the generic one; loading ends |
| Flows.FlowStore.CreateFlow | useFlows.ts:65-103 | without a user it throws before inserting and changes nothing; a failed insert returns the error; a done insert refreshes the list (a failed refresh keeps the list and records the error) and returns the row the database stored for the record sent |
| Flows.FlowStore.IncrementUsageCount | useFlows.ts:147-164 | the local list is updated only once the server call succeeds |
| Flows.FlowStore.PromptsFromFlows | useFlows.ts:186-188 | one converted prompt per held flow, in order |
| Chat.FindFlow | ChatScreen.tsx:244 | `find` gives the first flow with that id, or nothing when none has it |
| Chat.FlowNameText | ChatScreen.tsx:273-274 | the flow's name, or the text `undefined` for an unknown id |
| Chat.ReplyContent | ChatScreen.tsx:242-258 | a selected flow gives the flow reply, otherwise the randomly chosen general reply |
| Chat.ReplyQuotesInput | ChatScreen.tsx:242-258 | every reply quotes the request it answers |
| Chat.FlowUsed | ChatScreen.tsx:233 | the reply records the selected flow's name when one is selected and known |
| Chat.FilteredFlowsSpec | ChatScreen.tsx:197-202 | the sidebar shows the flows whose name or description contains the search ignoring case and whose category is selected, in catalogue order, each as often as in the catalogue; no filter shows all |
| Chat.ChatSession.constructor | ChatScreen.tsx:38-54 | the log holds only the greeting, and the input and filters are empty |
| Chat.ChatSession.SetInput | ChatScreen.tsx:673 | the input is set and nothing else changes |
| Chat.ChatSession.SetFilter | ChatScreen.tsx:48-54 | the sidebar filters are set and nothing else changes |
| Chat.ChatSession.SendMessage | ChatScreen.tsx:212-225 | blank input does nothing; otherwise the user message is appended, the input cleared and typing shown, and the reply is scheduled with the sent text |
| Chat.ChatSession.DeliverReply | ChatScreen.tsx:227-239 | exactly one assistant message is appended, answering the text that was sent, and typing ends |
| Chat.ChatSession.SelectFlow | ChatScreen.tsx:271-276 | the flow is selected and the input prefilled with its name |
| Chat.ChatSession.ClearFlow | ChatScreen.tsx:525 | the badge's × drops the selection and changes nothing else, so the suggestions show again exactly while only the greeting is logged |
| Chat.ChatSession.SendDisabled | ChatScreen.tsx:700 | Send is disabled exactly for blank input or while the assistant types |
| Chat.ChatSession.InputDisabled | ChatScreen.tsx:677 | the input is disabled exactly while the assistant types |
| Chat.ChatSession.ShowSuggestions | ChatScreen.tsx:719 | the suggestions show exactly while only the greeting is logged and no flow is selected |
| Chat.ChatSession.MessageAction | ChatScreen.tsx:278-294 | an unknown message id does nothing; `copy` copies the text of the first message with that id; `save` and `export` show their notices |
| Library.Favorites | LibraryScreen.tsx:128-157 | favourites are offered to PRO users only |
| Library.AllPromptsSpec | LibraryScreen.tsx:160-166 | the catalogue has one prompt per id, covers every id of the three lists, keeps the first prompt of each id, in first-appearance order |
| Library.AllPromptsDistinct | LibraryScreen.tsx:160-166 | lists whose ids are already distinct are combined unchanged |
| Library.FilteredSpec | LibraryScreen.tsx:172-188 | the filtered list keeps the catalogue's order and holds exactly the prompts that pass the search, the three selectors and the source rule, each as often as in the catalogue |
| Library.NoFilterShowsAll | LibraryScreen.tsx:16-20 | the initial selections show the whole catalogue |
| Library.FreeUserFavoritesEmpty | LibraryScreen.tsx:180-185 | a free user asking for favourites sees nothing when no built-in or personal prompt is marked favourite |
| Community.FilteredSpec | CommunityScreen.tsx:136-144 | the feed keeps its order and holds exactly the prompts whose title, content or author contains the search and whose profession is selected, each as often as in the feed; no filter shows all |
| Community.SortedSpec | CommunityScreen.tsx:146-159 | the sorted feed is a permutation of the filtered one, in non-increasing key order, with equal keys in their original order |
| Community.PopularFirst | CommunityScreen.tsx:148-149 | sorting by popularity puts the most liked prompts first |
| Community.UnknownSortKeepsOrder | CommunityScreen.tsx:156-157 | an unknown sort choice keeps the filtered order |
| Community.GateNotice | CommunityScreen.tsx:161-175 | liking and favouriting show the PRO notice exactly for free users |
| Community.VerifiedCount | CommunityScreen.tsx:259 | the verified figure is at most the catalogue's size, and equals it exactly when every prompt is verified |
| Community.VerifiedCountSpec | CommunityScreen.tsx:259 | the verified figure is exactly the number of positions whose prompt is verified |
| Community.VerifiedCountAppend | CommunityScreen.tsx:259 | the verified figure adds over concatenation, and a single prompt counts one exactly when it is verified |
| Community.TotalLikesAppend | CommunityScreen.tsx:267 | the likes figure of two parts is the sum of their figures |
| Community.RoundThousands | CommunityScreen.tsx:275 | `Math.round(n / 1000)` is the nearest whole number of thousands, halves up |
| Community.UsageThousands | CommunityScreen.tsx:275 | the usage figure is the total usage rounded to thousands |
| MyPrompts.FilteredPromptsSpec | MyPromptsScreen.tsx:94-97 | the personal list keeps its order and holds exactly the prompts whose title or content contains the search, each as often as in the list |
| MyPrompts.FindPrompt | MyPromptsScreen.tsx:100 | `find` gives the first prompt with that id, or nothing when none has it |
| MyPrompts.FilteredHistorySpec | MyPromptsScreen.tsx:99-103 | the history keeps its order and holds exactly the executions whose prompt's title or whose result contains the search, each as often as in the history |
| MyPrompts.OrphanFoundByResult | MyPromptsScreen.tsx:99-103 | an execution whose prompt is not listed is found by its result only |
| MyPrompts.LinkedFoundByTitle | MyPromptsScreen.tsx:99-103 | an execution of a listed prompt is found by that prompt's title |
| MyPrompts.EmptySearchKeepsAll | MyPromptsScreen.tsx:94-103 | an empty search keeps every prompt and every execution |

## Left out

- Presentation: the JSX layout, styling, icons, scrolling, focus and the copied/preview toggles carry no logic beyond what is modelled, except the browser's form validation (next line).
- AuthForm.AuthModalForm.BeginSubmit: the browser's constraint validation on the form (the `required` inputs and `type="email"` syntax, AuthModal.tsx:166-264) runs before `handleSubmit`. The method does not assume it, so it also describes submits the browser blocks (for example an empty email in sign-in, or the missing-fields message in sign-up). AuthForm.AuthModalForm.RequiredFilled states the required-field part; the email syntax check is not modelled.
- Network I/O: every Supabase call (auth, `users`, `flows`, the usage RPC) is left out. Its outcome is a parameter of the method that handles it.
- Timers, `Date.now()`, `new Date()` and `Math.random()`: each becomes a parameter (a split into a begin and an end method, `stamp`, `now`, `choice`).
- `console.log`, `alert` and the clipboard: the text shown or copied is a result, but showing it is not modelled.
- Concurrency: interleaved handlers, a double submit and a stale closure beyond the snapshot each begin method captures are not modelled.
- `JSON.parse` of a stored guest: storage holds either a user written by the shell or opaque text. Opaque text restores no guest, where the browser would parse it or throw.
- Text.Lower: `toLowerCase` is modelled on ASCII and Latin-1 capitals only; full Unicode case mapping is left out.
- `password.length` counts UTF-16 code units; the model counts characters.
- Template.ReplaceAll: a variable name with regular-expression metacharacters, and `$` patterns in a replacement value, are not modelled. The replacement is literal.
- The database's order for equal usage counts is modelled as table order.
- Flows.FlowStore.CreateFlow: the row the database returns is a parameter (a function of the record sent); which columns the database generates or defaults is not constrained.
- `created_at` is taken as milliseconds already; date parsing is left out.
- `updateFlow` and `deleteFlow` of the flows hook are not modelled: no screen in these files calls them.
- The catalogue constants (built-in prompts, community prompts, chat flows, history) are parameters, not copied in.
- The auth subscription's lifetime: sign-up and sign-in also trigger the listener (modelled as AuthEvent), but the two are not linked.
- Each `useAuth()` call has its own state, so in demo mode a sign-in through the modal does not reach the shell's user; the model treats each hook as separate.
- The chat's voice toggle (a timer that fills the input), the quick-suggestion buttons (they only set the input) and the unused `isVoice` field are left out.
- The signed-in shell's `handleUpgrade` only awaits Auth.AuthHook.UpgradeToPro and shows an alert. Its effect is that method's. It always announces success, because `updateProfile` returns its error rather than throwing.
- Favouriting and liking beyond the PRO notice are empty in the source and are not modelled.
- Community likes and usage counts are kept as unbounded integers; JavaScript numbers are doubles, which only matters beyond 2^53.
