# Contract-interaction core of the contract console page

The page (`pages/index.tsx`) lets a user load a contract artifact or a bare
ABI, pick a chain and an address, pick a function, fill in its arguments and
read from it or send a transaction through a browser wallet. Under the UI it
has five parts, and this project models each one:

- **ABI normaliser.** A loaded JSON value is an artifact with an `abi` field,
  a bare ABI array whose first entry has a `type`, or anything else. The
  normaliser keeps only the `type === "function"` entries, in declaration
  order.
- **Deep-link seeding.** The route query (`json`, `address`, `network`,
  `func`, `args.<name>`) fills the URL, the address, the argument map and
  the selected function.
- **Chain and address resolution.** Three signals set `selectedChain`: the
  wallet's active chain, the route `network` parameter, and the first
  `networks` entry of an artifact that has an address. `address` is filled
  from `networks` while it is unset. A chain selection made while the wallet
  sits on another chain queues a deferred network switch.
- **Network-switch controller** (`switchW3Chain`). It decides by connector
  kind: the read-only `network` connector, the injected browser wallet, or
  any other. It uses `wallet_switchEthereumChain` (EIP-3326) with the chain
  id as `0x` plus lower-case hex, and falls back to
  `wallet_addEthereumChain` (EIP-3085) on error code 4902.
- **Dispatch.** `showError`'s message precedence, plus the `read`, `login`
  and `write` callbacks with their in-flight flags. `write` refuses to send
  through the read-only connector and prompts a login instead.

Modules, one file each:

| Module | Contents |
|---|---|
| `Options` | the optional value |
| `Numerals` | decimal and hexadecimal numerals, with their round trip |
| `JsValues` | the JavaScript values the page touches and how it reads them |
| `Chains` | the static chain registry, its `find` lookups and the hex chain id |
| `Errors` | `showError`'s choice of message |
| `Wallet` | the wallet snapshot, the requests sent to the wallet and the executor, and the switch decision tree as a function |
| `Abi` | the normaliser and the `networks` hint |
| `Query` | the route query and `args.` seeding |
| `Resolution` | chain selection as steps on `selectedChain`, and their order independence |
| `Dispatch` | `read`, `login` and `write` as functions of how each awaited call settles |
| `Page` | the session: one `Session` class whose fields are the page's state, one method per effect body or callback |

How the JavaScript is represented:

- JSON values are the datatype `JsValue`, which also has `Undefined`.
  Objects are ordered key/value lists.
- A property read on `null` or `undefined` is the completion
  `Throw(TypeError)`.
- Truthiness, `for...in` keys, `for...of` values and template-literal
  rendering are functions over `JsValue`.
- The wallet is a snapshot value. Every wallet or contract call becomes an
  input that says how that call settles (`Resolves` or `Rejects`).
- What the page asks the wallet and the executor to do is appended to a
  request trace. Snackbar messages go to a notification log. `setResult`
  values go to a result log.
- Each session method runs one effect body or one callback to completion.
  Its `ensures` gives the whole new state in terms of a specification
  function of the inputs and the old state. The properties the page promises
  are proved about those functions.

Behaviour modelled as the code has it:

- The artifact hint selects its chain whenever the route has no `network`
  parameter, even over a chain that is already selected
  (`pages/index.tsx:271-275`). A first-writer-wins design would apply a hint
  only while no chain is resolved. The model follows the code: see
  `Resolution.Step` and `Resolution.AllSignalsPrecedence`.
- Normalisation, and with it the artifact hint, runs only while the wallet
  is active (`pages/index.tsx:240`).
- In `write` through the read-only connector, a successful login leaves
  `isWriting` set (`pages/index.tsx:514-522`). `Dispatch.WriteEffects`
  states this.
- Re-applying a signal can produce another switch request. The route
  effect schedules a switch on every run while the wallet is on another
  chain (`pages/index.tsx:128-131`), and so does
  `Page.Session.OnRouteNetwork`. Only the selected chain is idempotent
  (`Resolution.ReplayAgain`).
- Chain resolution is order independent for every combination of signals,
  not only when one signal names a known chain. The route chain wins, then
  the hint chain, then the wallet chain, and the wallet chain only fills an
  empty selection (`Resolution.OrderIndependent`).

## Model

| member | source | states |
|---|---|---|
| Numerals.ToBaseRoundTrip | pages/index.tsx:153 | `toString(base)` of a number is a canonical numeral (no leading zero) that parses back to the number |
| Numerals.ToBaseInjective | pages/index.tsx:123 | distinct ids have distinct numerals, so comparing `String(chainId)` compares ids |
| JsValues.Prop | pages/index.tsx:241 | a property read throws a `TypeError` exactly on `null`/`undefined`; an object yields its own property or `undefined`; arrays and strings yield their `length`; booleans and numbers yield `undefined` |
| JsValues.ArrayKeyReadsElement | pages/index.tsx:252 | `json[0]` on an array reads its first element, so a decimal index key reads that element |
| Chains.FindById | pages/index.tsx:108 | `chains.find` by id: the first registry entry with that id (no earlier entry has it), and none exactly when no entry has it |
| Chains.FindByKey | pages/index.tsx:123 | `chains.find` by `String(chainId)`: the first entry whose decimal numeral is the key, and none exactly when no entry matches |
| Chains.KeyMustBeCanonical | pages/index.tsx:272 | a `network`/`networks` key with a leading zero or other non-canonical spelling selects nothing |
| Chains.FindByDecimalKey | pages/index.tsx:123 | looking up the decimal numeral of an id finds the same entry as looking up the id |
| Chains.ChainIdHex | pages/index.tsx:153 | the switch id is `0x` followed by the canonical base-16 digits of the chain id, which parse back to it |
| Errors.ErrorMessage | pages/index.tsx:396-405 | the message is `error.data.message` if truthy, else `error.message` if truthy, else the error itself; it throws only for `null`/`undefined` |
| Errors.ErrorObjectReportsItsText | pages/index.tsx:175-178 | an `Error` thrown with a non-empty text is reported with exactly that text |
| Errors.Reported | pages/index.tsx:406-408 | one `showError` call queues exactly one error notification carrying the chosen message, unless choosing it throws |
| Wallet.SwitchEffects | pages/index.tsx:142-192 | with the read-only connector only `changeChainId`; injected without a provider throws "Unable to switch into <name>"; other connectors do nothing; the injected path sends the hex switch request first, and an accepted switch is that one request; on 4902 with RPC URLs it sends the add request and reports a rejected add through `showError`; on 4902 without RPC URLs it reports "not supported" with no add request; any other code is rethrown with no retry |
| Abi.FunctionsInAppend | pages/index.tsx:244-249 | filtering for function entries distributes over concatenation, so declaration order is kept |
| Abi.FunctionsInMembers | pages/index.tsx:245-247 | an entry is kept exactly when it is in the input and its `type` is `"function"` |
| Abi.FunctionsInCount | pages/index.tsx:244-249 | each function entry is kept as many times as it occurs, and no other entry is kept |
| Abi.CollectFunctions | pages/index.tsx:243-249 | the push loop returns exactly the function entries in order, or throws a `TypeError` on a `null` entry |
| Abi.Normalise | pages/index.tsx:241-266 | an artifact yields the function entries of `abi` with `abi` stored unchanged; a typed bare array is filtered the same way; an empty or untyped array, a primitive and an object with neither `abi` nor a positive `length` (the initial `{}`) yield empty functions and ABI without error; a `null` entry in `abi` throws a `TypeError`; every kept entry is a function; only a `TypeError` can be thrown |
| Abi.FindFunction | pages/index.tsx:339 | `functions.find` by name: the first loaded function with that name (the first of several overloads), and none exactly when no function has it |
| Abi.FirstHint | pages/index.tsx:269-293 | the first key whose entry has a truthy `address`, with that address, every earlier entry having none; none when every entry lacks one; a `TypeError` when a `null` entry is reached before any entry with an address |
| Abi.FindHint | pages/index.tsx:269-293 | the `for...in` loop with `break` returns what `FirstHint` specifies over the object's keys |
| Query.QueryGet | pages/index.tsx:66 | `router.query[key]` is present exactly when some query pair has that key, and is the value of such a pair |
| Query.Param | pages/index.tsx:41 | a parameter is used only when present and non-empty |
| Query.ArgKeyOf | pages/index.tsx:62-64 | `args.<name>` is an argument key exactly when the name is non-empty, and it names that argument |
| Query.SeededAt | pages/index.tsx:61-69 | after visiting the first `n` keys, only `args.<name>` keys with a non-empty name have been written, under the name with the first 5 characters removed; all other arguments are unchanged |
| Query.SeededFromQuery | pages/index.tsx:57-74 | after seeding from the whole query, argument `name` holds the query value of `args.<name>`; every other argument is as before |
| Resolution.WalletChain | pages/index.tsx:103-113 | the wallet's chain is used exactly when the wallet is active, reports a chain and the registry knows its id |
| Resolution.RouteChain | pages/index.tsx:122-124 | the route chain is the registry entry whose decimal id is the `network` parameter; there is one exactly when the parameter is present and the registry knows it |
| Resolution.HintChain | pages/index.tsx:270-275 | the artifact hint names the registry entry whose decimal id is the hint's key, exactly when there is no `network` parameter, there is a hint and the registry knows its key |
| Resolution.Step | pages/index.tsx:103-139 | the wallet chain fills only an empty selection; a known route chain always replaces the selection; a known hint chain replaces it too; an unknown or absent route or hint chain leaves the selection unchanged |
| Resolution.ReplaySettles | pages/index.tsx:103-139 | replaying any sequence of signals ends where the set of signals seen determines |
| Resolution.OrderIndependent | pages/index.tsx:103-139 | two replays of the same signals, in any order and any number of times, select the same chain |
| Resolution.AllSignalsPrecedence | pages/index.tsx:103-139 | with every signal seen: the route chain, else the hint chain, else the earlier selection, else the wallet chain |
| Resolution.ReplayAgain | pages/index.tsx:103-139 | handling a signal a second time leaves the selected chain as it was |
| Dispatch.Caught | pages/index.tsx:454-457 | a callback's `catch` clears the flag, keeps the requests and results, and appends the error's `showError` notification |
| Dispatch.ReadEffects | pages/index.tsx:412-466 | `isReading` ends cleared on every path; an invalid address aborts before any request with exactly one "Invalid address" notification; the call happens only after the address check and at most once; a switch comes first when the wallet is elsewhere, and a failed switch is reported with nothing called; after the switch, "Switched into <name>", then the call: its result is published once, or its rejection is reported |
| Dispatch.LoginEffects | pages/index.tsx:469-492 | one activation of the injected connector, or WalletConnect without a provider; success notifies, failure is reported; `isLoggingIn` ends cleared |
| Dispatch.WriteEffects | pages/index.tsx:495-570 | an invalid address aborts with one notification, a missing provider with one "Unexpected Error" notification, a failed contract construction with its report; the read-only connector never reaches the executor, prompts "Please login first" and logs in, leaving `isWriting` set whenever `login` resolves; a rejected submission is reported with nothing published; a mined write publishes its result twice; a failed wait publishes once and is reported; the executor is called only after the address and provider checks |
| Page.ContractIsReady | pages/index.tsx:317 | for a string address: ready exactly when it has 42 characters |
| Page.NormaliseLoaded | pages/index.tsx:240-266 | the normaliser's branches and loops compute `Normalise` |
| Page.Session.constructor | pages/index.tsx:38 | the first render's state: no URL, empty artifact, no chain, address `"0x"`, no function, no arguments, flags cleared |
| Page.Session.ApplyJsonParam | pages/index.tsx:40-46 | a non-empty `json` parameter becomes the URL, nothing else changes |
| Page.Session.ApplyAddressParam | pages/index.tsx:48-55 | a non-empty `address` parameter becomes the address, nothing else changes |
| Page.Session.SeedArgs | pages/index.tsx:57-74 | the loop leaves the argument map as `SeededUpTo` over the whole query, nothing else changes |
| Page.Session.LoadJson | pages/index.tsx:196 | a loaded artifact replaces the current one |
| Page.Session.OnWalletState | pages/index.tsx:103-119 | the selected chain becomes what `Step` gives for the wallet signal, nothing else changes |
| Page.Session.OnRouteNetwork | pages/index.tsx:121-139 | the selected chain becomes what `Step` gives for the route signal, and a switch is queued exactly when the wallet is active on another chain |
| Page.Session.ShowError | pages/index.tsx:396-409 | appends what `Reported` gives to the notifications |
| Page.Session.SwitchW3Chain | pages/index.tsx:142-192 | appends the requests and notifications `SwitchEffects` gives, and settles as it says |
| Page.Session.ApplyArtifact | pages/index.tsx:239-303 | with a truthy artifact and an active wallet: functions and ABI as `Normalise` gives, the hint chain selected by `Step`, the hint address written only over an unset address, a switch queued as for the route; it fails when normalisation throws, or when the `networks` loop reaches a `null` entry before any entry with an address; otherwise nothing changes |
| Page.Session.ApplyNetworkHint | pages/index.tsx:267-295 | the `networks` loop selects the hint's chain only without a `network` parameter, writes its address only over an unset address, and changes nothing when a `null` entry is reached before any entry with an address |
| Page.Session.SelectAndSchedule | pages/index.tsx:124-132 | a found chain is selected, and a switch is queued when the active wallet reports a different, non-zero chain |
| Page.Session.ApplyChainAddress | pages/index.tsx:321-334 | the selected chain's own `networks` entry fills an unset address, nothing else changes |
| Page.Session.SelectFunctionFromQuery | pages/index.tsx:336-350 | a `func` parameter selects the first loaded function of that name; no match leaves the selection; nothing else changes |
| Page.Session.Read | pages/index.tsx:412-466 | requests, notifications, results, the dialog and `isReading` change exactly as `ReadEffects` gives, and the callback settles as it says |
| Page.Session.ReadAttempt | pages/index.tsx:413-453 | the `try` block does what `ReadTry` gives |
| Page.Session.ReadOnSelectedChain | pages/index.tsx:417-453 | past the address check, the switch and the call do what `ReadOnChain` gives |
| Page.Session.SwitchToSelected | pages/index.tsx:418-424 | already on the selected chain, nothing happens; otherwise the switch's effects, then "Switched into <name>" once it settles; a thrown switch is passed on, and a settled switch with no chain selected throws a `TypeError` |
| Page.Session.CallAndPublish | pages/index.tsx:427-453 | the call is issued with `isReading` set; its result is published, the dialog opened, success notified and the flag cleared |
| Page.Session.Login | pages/index.tsx:469-492 | requests, notifications and `isLoggingIn` change exactly as `LoginEffects` gives |
| Page.Session.Write | pages/index.tsx:495-570 | requests, notifications, results, the dialog, `isWriting` and `isLoggingIn` change exactly as `WriteEffects` gives |
| Page.Session.WriteAttempt | pages/index.tsx:496-555 | the `try` block does what `WriteTry` gives |
| Page.Session.WriteSigned | pages/index.tsx:505-554 | with `isWriting` set, building the contract, then the login prompt or the transaction, do what `SignedWrite` gives |
| Page.Session.PromptLogin | pages/index.tsx:514-522 | "Please login first", then a login; `isWriting` is cleared only when the login itself rejects |
| Page.Session.SendTransaction | pages/index.tsx:523-555 | the submission and the receipt are each published, and `isWriting` is cleared only once the receipt arrives |
| Page.Session.AwaitReceipt | pages/index.tsx:543-554 | the wait is requested; a receipt is published with the dialog opened and `isWriting` cleared, and a failed wait changes nothing else |
| Page.Session.FirePendingSwitch | pages/index.tsx:129-131 | a queued switch runs `SwitchW3Chain` for the oldest pending chain and leaves the queue without it |

## Left out

- JSX rendering, layout, the result dialog and the source browser are not part of this model (presentation only).
- `fetch`, `FileReader` and `JSON.parse` (`pages/index.tsx:199-237`) are I/O. The model starts from the parsed value, handed to `Page.Session.LoadJson`. The `source` text shown beside it is not modelled.
- JSON numbers are integers. Fractions, `NaN` and number-to-string conversion of non-integers are not modelled.
- JsValues.ToJsString: numbers are unbounded integers and `Numerals.Decimal` renders each exactly. JavaScript numbers are doubles: above 2^53 they lose precision, and from 1e21 `String(n)` uses exponent form. Registry chain ids are far below both bounds.
- Objects are key/value lists assumed to be in JavaScript's enumeration order (integer-like keys first). The model takes that order as given and does not derive it.
- JsValues.TypeError: a `TypeError` is an `Error` whose message is "TypeError". The engine's own text (such as "Cannot read properties of null") is not modelled, so a reported `TypeError` notification reads "TypeError".
- Page.ContractIsReady: a string's `length` counts Unicode code points, where JavaScript counts UTF-16 code units. The two agree for the ASCII hex addresses the page expects.
- Wallet.SwitchEffects: the read-only connector's `changeChainId` is a foreign call that is always taken to succeed. So on that connector `read` always goes on to "Switched into <name>".
- JsValues.IsPositive: `length > 0` is decided only for numeric and boolean `length` values. A string, array or object `length` counts as not positive. `ToNumber` of those is not modelled.
- Query values are single strings. Repeated query keys, which the router delivers as arrays, are not modelled.
- The ethers `Contract`, `callWeb3Function`, `isAddress` (the EIP-55 checksum test), `getSigner` and `w3React.activate` are foreign calls. `isAddress` is a parameter of `Read` and `Write`. The others are inputs saying how each call settles.
- Dispatch.ReadEffects: building the read contract and calling it are one `CallFunction` request with one reply. A constructor that throws is not distinguished from a call that rejects.
- Dispatch.WriteEffects: the transaction response is an abstract handle (a number). Setting `type` on it and the shape of the receipt are not modelled.
- `useEagerConnect`, `useInactiveListener` and the connector-activation bookkeeping (`pages/index.tsx:90-101`) are wallet lifecycle hooks outside this model.
- React effect scheduling, dependency re-runs and stale closures are not modelled. Each effect or callback is one method, run on the current state.
- Intermediate flag values during an `await` cannot be observed in the model: each callback runs to completion.
- The real `setTimeout` delay is not modelled. A deferred switch is queued in `pendingSwitches` and run by `FirePendingSwitch`.
- `onChainChange` and its un-awaited `switchW3Chain` (`pages/index.tsx:636-640`) are UI-triggered and concurrent, and are not modelled.
- `console` logging, the commented-out contract construction (`pages/index.tsx:352-386`) and snackbar rendering are not modelled. Notifications are an appended log of message and severity.
