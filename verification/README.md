# AI Prompt Forge: the application state store, in Dafny

AI Prompt Forge is a single-page app. After a mocked login it offers AI tools:
chat, a prompt builder, a code builder and a generator. Every use of these tools is paid for
from a client-side credit balance. This project models the app's state store (`App` in
`App.tsx`) as an immutable `AppState` record. Each named store operation is a pure
transition function. The project also models the view-level rules built on the store:

- the chat send with its rollback on failure;
- the prompt-builder wizard;
- the five-credit code-generation gate;
- the one-shot hand-off of a finished prompt to the code builder;
- the snapshot/restore rules of persistence;
- the view-selection rule;
- the live-preview failure heuristic;
- the highlight-language mapping.

AI calls are the `Gateway.Reply<T>` parameter (`Replied(value)` or `Failed`), so any
outcome can be supplied. Clock-derived values (prompt ids and timestamps) are parameters too.

Modules:

- `Text`: the blank test (`!s.trim()`) with ECMAScript's whitespace set, and ASCII lower-casing.
- `State`: `AppState`, the store operations, `RenderView`, and lemmas relating operations.
- `Persistence`: `Snapshot` (the stored record without the hand-off), `Serialize`, `Load`.
- `Gateway`: the abstract AI reply and the idea-suggestion record.
- `ChatView`: `handleSend`, split at its `await` into `BeginSend` and `FinishSend`, and composed as `Send`.
- `PromptBuilderView`: the three-step wizard.
- `CodeBuilderView`: hand-off consumption and the code-generation gate.
- `CodePreview`: the preview-failure decision and `getHighlightLanguage`.
- `Session`: runs of store operations, and invariants along every run.

Behaviour of `App.tsx` a reader might not expect, which the model keeps:

- A failed chat send does not refund its credit, and it does not restore the cleared input box.
  Its failure path removes the last turn of the history as it stands when the call settles.
  A failed code generation also keeps the 5 credits it took.
- The chat view's busy flag is its own component state (App.tsx:544), so it resets when the view is remounted.
  Navigating away and back while a send is pending lets a second send go ahead.
  If the first send then fails, it removes the second send's user turn, not its own (`ChatView.RemountLetsFailureDropLaterTurn`).
- A page reload while a chat send is pending keeps the unanswered user turn and the spent credit.
  The save effect (App.tsx:1227-1237) has already stored both, and the pending call is lost with the page, so no failure path runs (`ChatView.ReloadMidSendKeepsUnansweredTurn`).
- Credits and saved prompts survive logout only while the page stays open. The stored record after logout has no user.
  Start-up ignores such a record (App.tsx:1215), and the save effect then overwrites it with the initial state.
  So logout, reload, login gives 20 credits and no saved prompts, whatever there was before (`Persistence.LogoutReloadLoginStartsOver`).
- The preview frame is sandboxed with `allow-scripts` only (App.tsx:891), without `allow-same-origin`.
  Under the HTML standard its document then has an opaque origin, so `contentDocument` is null to the page.
  In practice the preview check therefore takes the unreadable branch, and any non-blank code is flagged as a failed preview.
  The model keeps the readable branch (`Inspected`) as written, but that branch is plausibly never reached.
- Consuming the hand-off sets the field to `""`, not to null (`setPromptForCodeBuilder('')`).
  The source tests the field for truthiness, so `""` and null both mean "nothing pending".
- A signed-in state whose view is `landing` renders the dashboard, through the `default` branch of
  `renderView`. `Session.RunStaysConsistent` shows that the views never reach such a state.

## Model

| member | source | states |
|---|---|---|
| State.NavigateTo | App.tsx:1239 | the view becomes the target; no other field changes |
| State.Login | App.tsx:1241-1243 | sets the user and the dashboard view; a positive balance is kept and a zero balance becomes 20; the result always has credits; nothing else changes |
| State.Logout | App.tsx:1245-1247 | clears the user and the chat history and shows the landing view; credits, saved prompts, settings and hand-off are kept |
| State.AddCredits | App.tsx:1249-1251 | the balance grows by exactly the amount; nothing else changes |
| State.DeductCredits | App.tsx:1253-1257 | succeeds iff the balance is at least the amount; on success the balance drops by exactly the amount; on refusal the state is unchanged |
| State.CheckCredits | App.tsx:1259 | true iff the balance is non-zero |
| State.SavePrompt | App.tsx:1261-1269 | exactly one record with the given title, body, id and timestamp is put in front; the old list follows unchanged |
| State.RemoveId | App.tsx:1272 | the survivors are exactly the records whose id differs; the list shrinks by the number of records carrying the id |
| State.DeletePrompt | App.tsx:1271-1273 | removes exactly the records with the id; changes nothing else |
| State.ReplaceHistory | App.tsx:1275-1280 | the value form of `setChatHistory`: the history becomes the given value, nothing else changes |
| State.UpdateHistory | App.tsx:1275-1280 | the updater form of `setChatHistory`: the history becomes the updater applied to the current history |
| State.SetHandOff | App.tsx:1282-1284 | the hand-off field holds the text; nothing else changes |
| State.UpdateChatSettings | App.tsx:1286-1289 | the settings are replaced wholesale; nothing else changes |
| State.RenderView | App.tsx:1299-1311 | landing is shown iff no user is signed in; a signed-in user sees the current view, or the dashboard when that view is landing |
| State.LoginLogoutLoginKeepsCredits | App.tsx:1241-1247 | login, logout, login ends with the balance the first login gave, and the saved prompts are untouched |
| State.DeductUndoesAdd | App.tsx:1249-1257 | deducting the amount just purchased succeeds and restores the previous state |
| State.DeductTwice | App.tsx:1253-1257 | two deductions both succeed iff the balance covers their sum, and then equal one deduction of the sum |
| State.CheckCreditsMeansOneCredit | App.tsx:1253-1259 | the probe passes iff a one-credit deduction would succeed; passing it does not mean 5 credits are affordable |
| State.SaveOrder | App.tsx:1261-1269 | saving T1 then T2 yields [T2, T1] in front of the earlier list |
| State.RemoveIdConcat | App.tsx:1271-1273 | deletion distributes over concatenation, so the survivors keep their relative order |
| State.RemoveAbsentId | App.tsx:1271-1273 | deleting an id no record has is a no-op |
| State.DeleteIdempotent | App.tsx:1271-1273 | deleting twice equals deleting once |
| State.DeleteUndoesSave | App.tsx:1261-1273 | deleting a just-saved record by its id (an id not in use before) gives back the previous state |
| State.DeleteOneOfUnique | App.tsx:1271-1273 | when ids are unique, deleting one saved record leaves exactly one fewer |
| Text.Trim | App.tsx:562 | `trim`: the result is a slice of the input whose outside is all whitespace and whose first and last characters are not whitespace |
| Text.BlankIffAllWhitespace | App.tsx:562 | a message is blank for `trim` iff every character is ECMAScript whitespace |
| Persistence.Serialize | App.tsx:1227-1237 | the snapshot carries the view, user, credits, prompts, history and settings of the state |
| Persistence.SerializeIgnoresHandOff | App.tsx:1228-1235 | the snapshot is the same whatever the hand-off field holds |
| Persistence.Load | App.tsx:1210-1225 | a record with a user is restored onto the dashboard with no hand-off, and missing settings become the defaults; otherwise the initial state is kept; a corrupt record is removed |
| Persistence.RoundTripSignedIn | App.tsx:1210-1237 | save then reload of a signed-in state gives the same state with view = dashboard and hand-off = none |
| Persistence.RoundTripSignedOut | App.tsx:1210-1237 | save then reload of a signed-out state gives the initial state |
| Persistence.LogoutReloadLoginStartsOver | App.tsx:1210-1247 | after logout a reload yields the initial state, so the next login gets 20 credits, no saved prompts and the default settings |
| Persistence.ReloadIsStable | App.tsx:1210-1237 | reloading a restored state again changes nothing |
| ChatView.DropLast | App.tsx:577 | `slice(0, -1)`: a prefix that is one turn shorter, or empty for an empty history |
| ChatView.BeginSend | App.tsx:561-571 | goes ahead iff the message is non-blank, the view is idle and the balance is non-zero; then it appends exactly the user turn, clears the input, marks the view busy and takes one credit; otherwise nothing changes |
| ChatView.FinishSend | App.tsx:572-580 | a reply appends one model turn; a failure removes at most the last turn and never reorders the earlier history; the view becomes idle |
| ChatView.Send | App.tsx:561-581 | an accepted send costs one credit; success grows the history by exactly [user, model]; failure leaves it exactly as before; a refused send changes nothing |
| ChatView.NoDoubleSend | App.tsx:562 | within one mounted view, a second send while one is pending is refused, with no second charge or append |
| ChatView.FailureAfterLogout | App.tsx:577 | a failure after a mid-flight logout leaves the history empty |
| ChatView.RemountLetsFailureDropLaterTurn | App.tsx:561-581 | with a remounted, idle view a second send goes ahead; the first send's failure then removes the second user turn, and both sends are paid |
| ChatView.ReloadMidSendKeepsUnansweredTurn | App.tsx:1227-1237 | a reload while a send is pending keeps the stored user turn with no reply, and the credit stays spent |
| PromptBuilderView.SubmitDescription | App.tsx:657-671 | a blank description or a zero balance changes nothing; otherwise one credit is paid; a reply fills the form and moves to step 2; a failure leaves the wizard untouched |
| PromptBuilderView.SubmitDetails | App.tsx:673-686 | a zero balance changes nothing; otherwise one credit is paid; a reply becomes the final prompt on step 3; a failure leaves the wizard untouched |
| PromptBuilderView.Back | App.tsx:760-776 | goes back exactly one step and keeps everything entered |
| PromptBuilderView.SaveFinal | App.tsx:778 | saves the final prompt with the description as its title, in front of the list, and changes nothing else in the store |
| PromptBuilderView.DeleteUndoesSaveFinal | App.tsx:1260-1273 | deleting the prompt just saved under a fresh id restores the store exactly |
| PromptBuilderView.BackThenResubmit | App.tsx:760-776 | going back from step 3 and resubmitting charges another credit, keeps the description and details, and replaces the final prompt |
| PromptBuilderView.UseInCodeBuilder | App.tsx:779 | hands the final prompt over and switches to the code builder; nothing else changes |
| PromptBuilderView.DescriptionToFinalPrompt | App.tsx:657-686 | from step 1, two successful AI steps reach step 3 with the replies in place and cost exactly two credits |
| PromptBuilderView.OneCreditStopsAtDetails | App.tsx:657-686 | with one credit the wizard reaches step 2, and the second step is then refused |
| PromptBuilderView.FailedSuggestionThenRetry | App.tsx:657-671 | a failed suggestion leaves the form untouched; the retry is charged again |
| CodeBuilderView.ConsumeHandOff | App.tsx:931-937 | a pending hand-off moves into the editor on the full-app tab and is then spent (set to ""); with none pending nothing changes |
| CodeBuilderView.ConsumeHandOffOnce | App.tsx:931-937 | consuming a second time changes nothing |
| CodeBuilderView.PromptReachesEditor | App.tsx:931-937 | a finished prompt handed over from step 3 arrives in the editor unchanged, on the code-builder view, at no credit cost |
| CodeBuilderView.ReloadDropsHandOff | App.tsx:1227-1237 | a reload between hand-over and consumption loses the hand-off |
| CodeBuilderView.Generate | App.tsx:939-965 | a blank prompt or a balance below 5 changes nothing; otherwise exactly 5 credits are paid, and the output is the reply, or cleared on failure |
| CodeBuilderView.ProbeWeakerThanGate | App.tsx:939-945 | with 1 to 4 credits `checkCredits` passes but generation is refused and nothing is spent |
| CodePreview.PreviewFailed | App.tsx:828-857 | an unreadable frame flags non-blank code and otherwise keeps the flag; a read frame flags exactly non-blank code with an empty body and head |
| CodePreview.WhitespaceNeverFails | App.tsx:819-857 | after the reset on a code change, whitespace-only code is never flagged |
| CodePreview.PreviewDecisionByContent | App.tsx:828-857 | for code with a visible character: any rendered element means success, an unreadable frame or an empty render means failure |
| CodePreview.HighlightLanguage | App.tsx:802-809 | react, vue and html in any case map to jsx, vue and xml; any other label maps to its lower-case form; the result has no upper-case ASCII letter |
| CodePreview.PickerLanguages | App.tsx:802-809 | the picker's HTML, React and Vue map to xml, jsx and vue |
| CodePreview.HighlightLanguageStable | App.tsx:802-809 | the mapping ignores case and is idempotent |
| Session.RunStaysConsistent | App.tsx:1299-1311 | along any run of operations the views issue, a signed-in user is never on landing, so the rendered screen is the current view |
| Session.LoadIsConsistent | App.tsx:1210-1225 | start-up always yields such a consistent state |
| Session.CreditsFallOnlyByDeduction | App.tsx:1239-1289 | a run with no deduction never lowers the balance |
| Session.CreditsFixedWithoutLedgerOps | App.tsx:1239-1289 | without deductions or purchases a positive balance never changes, whatever logins and logouts occur |
| Session.PromptsChangeOnlyBySaveOrDelete | App.tsx:1239-1289 | saved prompts change only through save and delete, so logout keeps them |
| Session.LedgerScenario | App.tsx:1241-1257 | the first login gives 20 credits on the dashboard; four deductions of 5 reach 0; a fifth is refused and changes nothing |

## Left out

- The AI gateway (`services/geminiService.ts`) and its network calls, prompt templates and JSON parsing. A call is only a `Replied`/`Failed` parameter.
- Reading and writing `localStorage` and JSON text. The stored slot is the `Stored` datatype. Records that parse but have the wrong shape are not modelled: `Snapshot` is well-typed, with a `nat` balance.
- `Date.now()` ids and `toLocaleString()` timestamps. They are parameters, and id uniqueness is not guaranteed.
- The temperature float. It is a `nat` in hundredths, as the settings slider moves in steps of 0.01. Persona and tone are free strings.
- JSX rendering, icons, styling, the mobile menu, toasts, modals and their timers. The modal that offers the store is not modelled; its call sites are modelled as "no change".
- React batching and stale closures. Every operation is atomic and sequential. The busy flags of the prompt builder and the code builder are not modelled, because their handlers complete atomically here. The chat's flag is modelled.
- `SimpleMarkdownRenderer`. It needs JavaScript regular-expression semantics, and its output only feeds `innerHTML`.
- Live DOM and iframe inspection, the 150 ms grace period, `hljs` and the clipboard. Only the decision over what was observed is modelled. Which observation the sandboxed frame actually yields is not modelled; see the note on `allow-scripts` above.
- Remounting of views. Each view's local state (the chat draft and busy flag, the wizard, the editor) is a parameter, so a reset on remount is the caller passing a fresh value.
- `GeneratorView`, `HistoryView`'s modal and `StoreView`'s plan list. They only call the modelled store operations: the generator passes the same one-credit gate as the prompt builder's steps, and each purchase is `AddCredits` with 50, 120 or 300.
- Form-field edits in the prompt builder, the code builder's tab and language pickers, and its Back button. These are local UI edits.
- State.DeductCredits: negative amounts are not modelled. The source accepts any number, but every caller passes 1 or 5.
- CodePreview.HighlightLanguage: lower-cases ASCII letters only. JavaScript's `toLowerCase` maps all of Unicode, but the picker only offers ASCII labels.
