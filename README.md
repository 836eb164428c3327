# GameGenerator: a verified model of the game-generation page

The page `src/game-generator.tsx` lets a visitor connect a Phantom wallet,
type a game idea and watch a simulated five-step generation run. This project
models that component's state and handlers in Dafny and proves what they do.

* `wrappers.dfy`: `Option`, used for the nullable wallet address.
* `text.dfy` (module `Text`): JavaScript's `trim` (ECMAScript whitespace and
  line terminators) and `slice` (negative indices counted from the end,
  clamped).
* `view.dfy` (module `View`): the pure rendering rules. These are the
  shortened address in the header, the rows of the progress list, and the
  `disabled` attributes of the input and of the Generate button.
* `wallet.dfy` (module `Wallet`): the wallet provider's replies as input
  datatypes (`Absent | NotPhantom | Rejected | Approved(key)` for connect,
  and a matching one for disconnect), the connection `Session`, and what a
  run of wallet events does to it.
* `game_generator.dfy` (module `Generation`): the class `GameGenerator`. Its
  fields are the component's six `useState` values. Its methods are the
  startup effect, the connect, disconnect and input handlers, and the submit
  handler with its step loop.

Each `await` of the 8-second timer in the step loop is one discrete tick.
While it waits, the only controls the page leaves enabled are the wallet
buttons, and the startup connect may still answer. So `HandleSubmit` takes
the wallet events that happen during each tick as a parameter. It is built
from `StartRun` (lines 107-110) and, for each tick, `Tick`: first
`DispatchAll` (the wallet events), then `AdvanceStep` (line 114). A ghost field `stepLog` records
every value written to `generationStep`, and `Valid()` ties its last entry to
the field. An accepted submit extends `stepLog` by exactly 0, 1, 2, 3, 4.
The message log and the input are untouched by the wallet events, and the
final session is their fold (`Wallet.AfterEvents`).

Three facts about the code that the model keeps as they are:

* The submit handler's guard (line 105) does not test `isGenerating`. Only
  the disabled input and button (lines 214 and 219) block a second
  submission. The model keeps the two apart: `Generation.SubmitGuard` is the
  handler's guard, and `View.SubmitDisabled` is the button.
* `disconnectWallet` (lines 84-93) tests for a Phantom provider, not for a
  connection. It clears state only after `disconnect()` resolves; a rejected
  promise throws before either setter runs.
* Nothing sets `isGenerating` back to false, and nothing resets the step once
  a run ends. Every method keeps `generating` once it is true.

## Model

| member | source | states |
|---|---|---|
| Text.LeadingWhitespace | src/game-generator.tsx:105 | the count is the longest whitespace prefix: every earlier character is whitespace and the next one is not |
| Text.TrailingWhitespace | src/game-generator.tsx:105 | the count is the longest whitespace suffix: every later character is whitespace and the one before is not |
| Text.Trim | src/game-generator.tsx:105 | the input is a blank prefix, then the result, then a blank suffix; the result neither starts nor ends with whitespace; it is empty exactly when the input is blank |
| View.ShortAddress | src/game-generator.tsx:135 | the label is the first and the last min(4, length) characters around "...", so its length is 2·min(4, length) + 3 |
| View.RowsFromShape | src/game-generator.tsx:185-199 | mapping the labels from index i on yields one row per index in [i, min(step+1, N)), in order, marked in progress exactly at the step |
| View.StepRows | src/game-generator.tsx:183-199 | no rows when not generating; otherwise min(step+1, N) rows, row k carries label k, and only row `step` is in progress |
| View.InputLockLocksSubmit | src/game-generator.tsx:214-219 | a disabled input implies a disabled Generate button |
| View.SubmitEnabledIff | src/game-generator.tsx:219 | the button is enabled iff the wallet is connected, no run is in progress and the text is not blank |
| Wallet.AfterConnect | src/game-generator.tsx:49-53 | a connect attempt keeps the two wallet fields consistent; it either changes nothing or leaves the wallet connected with an address |
| Wallet.AfterDisconnect | src/game-generator.tsx:84-93 | a disconnect attempt keeps the fields consistent; it either changes nothing or leaves the wallet disconnected with no address |
| Wallet.EventEffect | src/game-generator.tsx:45-93 | an approved connect or a resolved disconnect fixes the session whatever it was; a missing provider, a non-Phantom provider or a rejected call keeps it |
| Wallet.StartupLikeClick | src/game-generator.tsx:45-82 | the silent startup connect and the clicked connect change the session alike (they differ only in the install notice) |
| Wallet.AfterEventsConsistent | src/game-generator.tsx:51-52 | any run of wallet events keeps "connected iff an address is set" |
| Wallet.AfterEventsAppend | src/game-generator.tsx:112-115 | handling two runs of events one after the other is handling their concatenation |
| Wallet.QuietEventsKeepSession | src/game-generator.tsx:54-56 | failed connects and disconnects, however many, leave the session unchanged |
| Wallet.LastDecisiveWins | src/game-generator.tsx:45-93 | after a run of events the session is the one set by the last approved connect or resolved disconnect |
| Generation.GameGenerator.constructor | src/game-generator.tsx:29-34 | the page starts disconnected, with no address, no messages, an empty input, no run and step 0 |
| Generation.GameGenerator.ConnectOnStartup | src/game-generator.tsx:45-59 | an approved trusted connect sets the address to the key and connects; any failure changes nothing and is silent |
| Generation.GameGenerator.ConnectWallet | src/game-generator.tsx:61-82 | the install notice is raised iff there is no Phantom provider; approval sets address and connected; absence, non-Phantom and rejection change nothing |
| Generation.GameGenerator.DisconnectWallet | src/game-generator.tsx:84-93 | a resolved disconnect clears connected and the address; no provider, a non-Phantom one or a rejected call changes nothing |
| Generation.GameGenerator.Dispatch | src/game-generator.tsx:45-93 | running a wallet event's handler moves the session as `AfterEvent` says and touches nothing else |
| Generation.GameGenerator.DispatchAll | src/game-generator.tsx:113 | running the handlers of a run of wallet events moves the session as `AfterEvents` says and leaves messages, input, run flag, step and step log unchanged |
| Generation.GameGenerator.EditPrompt | src/game-generator.tsx:211 | typing replaces the input text and nothing else |
| Generation.GameGenerator.StartRun | src/game-generator.tsx:107-110 | appends exactly one user message with the untrimmed text after the earlier ones, clears the input, sets `generating` and writes step 0, after which the list is exactly "Analyzing prompt..." in progress; the wallet is untouched |
| Generation.GameGenerator.AdvanceStep | src/game-generator.tsx:114 | the step becomes i + 1 (logged as the next written value) and nothing else changes |
| Generation.GameGenerator.Tick | src/game-generator.tsx:113-114 | one loop iteration: the step goes up by exactly one and is logged, the session moves as the events during the await dictate, and messages, input and run flag stay |
| Generation.GameGenerator.HandleSubmit | src/game-generator.tsx:103-116 | accepted iff the trimmed text is non-empty and the wallet connected; a rejected submit changes nothing; an accepted one appends exactly one user message with the untrimmed text, clears the input, keeps `generating` true, writes the step 0, 1, ..., N-1 in that order and nothing else (the step log grows by exactly those values), ends at N-1, and leaves the session as the wallet events during the awaits dictate |
| Generation.GateImpliesGuard | src/game-generator.tsx:105 | whenever the Generate button is enabled the handler's guard holds |
| Generation.GuardIgnoresGenerating | src/game-generator.tsx:105 | the converse fails: with a run in progress, the guard accepts "a" while the button is disabled |
| Generation.ControlsLockedWhileGenerating | src/game-generator.tsx:214-219 | once a run has started the input and the button are disabled for any text |
| Generation.HeaderShowsAddress | src/game-generator.tsx:132-144 | while connected an address is set and the header shows its shortened form with the Disconnect button |
| Generation.RunningDisplay | src/game-generator.tsx:183-199 | during a run the list shows labels 0..step in order, the one at the step in progress and all earlier ones completed |
| Generation.FinalStepDisplay | src/game-generator.tsx:112-115 | where every run ends, all five labels show, the first four completed and "Building your game now..." still in progress |
| Generation.RunSteps | src/game-generator.tsx:112-115 | the values the loop writes: N entries, entry i being i |
| Generation.QuietRunKeepsSession | src/game-generator.tsx:54-56 | a run during which every wallet event is a failed or provider-less connect or disconnect (or none arrives) leaves the session as it was |

## Left out

- The landing page (`src/landing-page.tsx`) and the route table (`src/App.tsx`) are not modelled. They are static content, one unconditional tab assignment and two routes.
- Real time is not modelled. The 8000 ms timer, promise scheduling and React re-rendering are reduced to discrete ticks and to atomic handler steps.
- React batching is assumed. The two wallet setters of one handler are applied together, so no render sees only one of them.
- Only wallet events interleave with a run. Typing and submitting cannot, because both controls are disabled while generating. A second `handleSubmit` invoked while a loop is still awaiting would also interleave, but only by calling the handler directly; that is not modelled.
- The wallet provider is opaque: its calls are input outcomes, and the key has no cryptographic meaning. The install `alert` and `window.open` become the `installNotice` result of `ConnectWallet`; `console.error` is dropped.
- `scrollIntoView`, the message-list markup (lines 169-182), the connect hint (164-168), placeholders, titles, icons and CSS are presentational and not modelled.
- Strings: JavaScript strings are UTF-16 code units while Dafny's `char` is a Unicode scalar value, so `trim` and `slice` are modelled on code points. This differs only for addresses or prompts with characters outside the Basic Multilingual Plane.
