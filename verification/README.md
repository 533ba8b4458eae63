# Voxel forge: a Dafny model

This project models the voxel "forge" of a promotional web page. The page
sends a text prompt to a serverless endpoint. The endpoint asks a model
provider for a voxel model, strips markdown fences from the reply and
relays the parsed JSON. The page then shows that model in place of its
mascot. There are four pieces:

- **The serverless handler** (`api/forge.ts`), module `ForgeApi`. It is
  a pure function from the request, the credential, the provider's
  outcome and the JSON parser to a status and a body. Its guards run in
  a fixed order: 405, then 400, then 500 for a missing key. Past the
  guards, a prompt that cannot be written into the provider request is a
  caught 500; otherwise the fence cleanup (module `Cleanup`) runs and
  failures map to errors in three ways.
- **The local development route** (`server.js`), module `DevServer`. It
  uses the same cleanup but has no guards and folds every failure into
  one message. Its two log lines can throw: the prompt log before the
  `try` then makes the route end without writing a response, and the
  success log inside it turns a parsed reply into the catch-all 500. Lemmas state
  where it agrees with the handler and exactly where the two part.
- **The forge panel** (`src/components/VoxelForge.tsx`), module
  `ForgeClient`. It covers:
  - the state hooks;
  - the initial 3 x 2 x 3 block;
  - the generate button's enable condition;
  - `handleGenerate`, as a function from the state before and the network's
    reply to the request sent, the state shown while it is in flight, the
    statuses set, the failure reported and the state after.
- **The procedural mascot** (`src/components/VoxelAvatar.tsx`), module
  `Avatar`, built on module `Voxels`. It has:
  - the loop methods, which push exactly a declarative list;
  - proved counts (8 + 63 + 18 + 4 = 93);
  - palette, segment order and membership facts;
  - symmetry of the multiset under x -> -x.

Module `Exchange` composes the panel with the handler. Module `Js` holds
the JSON value, JavaScript truthiness, property reads and whether
converting a value to text throws. Module `Seqs` holds two sequence facts
the list-building proofs cite.

Both servers share one cleanup definition, `Cleanup.Clean`:
`replace(/```json/g, '')`, then `replace(/```/g, '')`, then `trim()`.
Its output never contains "```" and has no whitespace at either end, and
cleaning is idempotent.

Where the code differs from what a reader might expect, the model follows
the code:

- `api/forge.ts` reads only `prompt`, and ignores the `currentModel` and
  `mode` the panel sends, so morph mode does not pass the prior model to
  the provider (`ForgeApi.ReadsOnlyPrompt`, `Exchange.ModeIgnored`).
- A parse failure answers `{error: "Invalid response from AI"}`. The raw
  text goes only to the log, not into the response.
- A successful parse is relayed whatever its shape: an object, a number
  or `null` gets a 200 just like an array (`ForgeApi.RelaysParsedReply`).
- The prompt guard comes before the credential guard, so a request
  with no prompt gets a 400 even when the credential is missing.
- There is no upstream timeout handling in the code. `maxDuration: 30`
  (api/forge.ts:3-5) is the hosting platform's time limit for the
  function, not a timeout of the provider call: when it expires the
  platform ends the invocation, the handler's `catch` never runs, and the
  platform sends its own error response. Errors the provider call itself
  throws are provider failures carrying their message.

## Model

| member | source | states |
|---|---|---|
| Js.Truthy | api/forge.ts:14 | A value is truthy exactly when it is defined and is not null, false, 0 or the empty string. |
| Js.Get | api/forge.ts:12 | Reading a named property gives `undefined` exactly when the value is not an object or has no member of that name. Otherwise it gives the value of the last member of that name, as `JSON.parse` keeps the last duplicate. |
| Js.LastMemberWins | api/forge.ts:12 | Appending a member named `key` makes its value the one read; appending a member of another name leaves the read unchanged. |
| Js.ToStringThrows | server.js:15 | Converting a value to text, as the template literals at server.js:15, server.js:41 and api/forge.ts:47 do, throws only for an object or an array. An object throws exactly when it has its own `toString` member, whatever that member holds. An array throws exactly when one of its elements does. Strings, numbers, booleans and null always convert. |
| Js.ThrowingValuesAreTruthy | api/forge.ts:14-47 | A value whose conversion to text throws is an object or an array, so it is truthy and passes a `!value` guard. |
| Js.ConversionExamples | server.js:15 | Converting an object with an own `toString` member throws, whatever that member holds; an own `valueOf` alone does not; an array throws through a nested element; null elements are harmless. |
| Cleanup.RemoveAll | api/forge.ts:52 | A global literal removal never lengthens the text. |
| Cleanup.RemoveAbsent | api/forge.ts:52 | Removing a pattern that does not occur leaves the text unchanged. |
| Cleanup.NoFenceAfterRemoval | api/forge.ts:52 | After the global removal of "```", no "```" is left anywhere, including one spliced together from the pieces around a removed match. |
| Cleanup.Trim | api/forge.ts:52 | `trim()` returns the contiguous slice of its input that starts past the leading whitespace, with no whitespace at either end. |
| Cleanup.TrimDropsOnlySpace | api/forge.ts:52 | Every character `trim()` drops, before or after the slice it keeps, is whitespace. |
| Cleanup.TrimTrimmed | api/forge.ts:52 | Trimming text that has no whitespace at either end returns it unchanged. |
| Cleanup.Clean | api/forge.ts:52 | The cleaned reply contains no "```" and has no whitespace at either end. |
| Cleanup.CleanIdempotent | api/forge.ts:52 | Cleaning a cleaned reply changes nothing. |
| Cleanup.FencedRemoval | api/forge.ts:52 | The two removals strip a "```json" ... "```" wrapper from any payload without backticks. |
| Cleanup.PaddedTrim | api/forge.ts:52 | Trimming removes exactly the whitespace padding around a payload with no whitespace at either end. |
| Cleanup.FencedPayload | api/forge.ts:52 | A fenced, whitespace-padded payload without backticks cleans to exactly the payload. |
| Cleanup.CleanFencedArray | api/forge.ts:52 | "```json\n[]\n```" cleans to "[]". |
| ForgeApi.PromptOf | api/forge.ts:12 | The destructured `prompt` is `undefined` exactly when the body is not an object naming `prompt`; otherwise it is the last `prompt` member's value. |
| ForgeApi.KeyPresent | api/forge.ts:19-21 | The credential passes the guard exactly when the environment value is truthy: set and not empty. |
| ForgeApi.PromptThrows | api/forge.ts:47 | The prompt cannot be written into the provider request only when the body is an object whose `prompt` is an object or array that fails to convert (`Js.ToStringThrows`); such a prompt is always truthy. The dev route's prompt log at server.js:15 converts the same value. |
| ForgeApi.Handle | api/forge.ts:7-65 | The status is 200, 400, 405 or 500. It is 200 exactly when all three guards pass, the prompt converts to text, the provider replied and the cleaned reply parses; the body is then the parsed value. Every other status carries a non-empty `error` text. |
| ForgeApi.Relay | api/forge.ts:29-64 | Past the guards, 200 happens exactly when the provider replied and its cleaned text parses, with the parsed value as body. Otherwise the answer is a 500 with a non-empty `error`. |
| ForgeApi.MissingKeyText | api/forge.ts:23-26 | The missing-key body's `error` is "Server configuration error: Missing API Key"; the extra `debug` member does not hide it. |
| ForgeApi.MethodGuardFirst | api/forge.ts:8-10 | Any method other than POST gets 405 "Method not allowed", whatever the body, the credential or the provider. |
| ForgeApi.PromptGuardSecond | api/forge.ts:12-16 | A POST whose `prompt` is missing or falsy gets 400 "Prompt is required", whatever the credential or the provider. |
| ForgeApi.KeyGuardThird | api/forge.ts:19-27 | A POST with a prompt but no credential gets the 500 configuration error. |
| ForgeApi.GuardsSkipProvider | api/forge.ts:8-27 | When a guard refuses, the response is not 200 and is the same whatever the provider and the parser would have done, so neither is consulted. |
| ForgeApi.ReadsOnlyPrompt | api/forge.ts:12 | Two bodies with the same `prompt` get the same response: `currentModel`, `mode` and all other members are ignored. |
| ForgeApi.RelaysParsedReply | api/forge.ts:54-56 | Past the guards, a reply whose cleaned text parses is answered with 200 and exactly the parsed value. No array or voxel check is made. |
| ForgeApi.UnconvertiblePromptCaught | api/forge.ts:29-63 | A prompt whose conversion to text throws passes the prompt guard; the template literal of the provider request throws inside the `try`, and the client gets 500 with the TypeError's message. |
| ForgeApi.FailureMapping | api/forge.ts:57-64 | Past the guards, an unparseable reply gets 500 "Invalid response from AI". A provider failure gets 500 with the provider's message, or "Intelligence failure" when the message is empty. |
| ForgeApi.CleanOneVoxel | api/forge.ts:52 | A one-voxel array wrapped in a "```json" fence cleans to its array text. |
| ForgeApi.CleanBareVoxel | api/forge.ts:52 | The bare one-voxel array text of the end-to-end example passes the cleanup unchanged. |
| ForgeApi.RedCubeExample | api/forge.ts:12-56 | The prompt "red cube" with the one-voxel array as the reply gets 200 with exactly that array, both for the bare reply and for the same array inside a fence. |
| ForgeApi.EmptyPromptExample | api/forge.ts:12-16 | The prompt "" gets 400 with `{error: "Prompt is required"}`. |
| DevServer.LogThrows | server.js:41 | The success log `${voxelData.length}` throws only on null (reading a property of null) or on an object. Arrays, strings, numbers and booleans never make it throw: an array's or string's `length` is a number, and the others have none. |
| DevServer.LengthLogExactly | server.js:41 | On an object, the success log throws exactly when the value of its last `length` member fails to convert to text; an object without a `length` member logs "undefined" and never throws. |
| DevServer.Route | server.js:17-46 | The `try` block answers 200 with the parsed value exactly when the provider replied, the cleaned text parses, and the success log does not throw: the value is not null and its `length`, if any, converts to text. Every other outcome is the single 500 "Intelligence failure". |
| DevServer.Serve | server.js:13-47 | The route itself writes no response exactly when the prompt log before the `try` throws. Otherwise it answers 200 with the parsed reply or the catch-all 500. |
| DevServer.HidesProviderMessage | server.js:43-46 | A provider failure's own message never reaches the client; the error text is always "Intelligence failure". |
| DevServer.AgreeOnSuccess | server.js:14-42 | On a request the handler sends to the provider, the dev route answers. Whenever it succeeds, the handler gives the same response for the same provider reply. Whenever the handler succeeds with a body on which the success log does not throw, the dev route gives the same response. |
| DevServer.DivergeOnMissingPrompt | server.js:14-33 | Without a prompt the dev route still calls the provider and can answer 200, while the handler answers 400. |
| DevServer.DivergeOnNull | server.js:40-46 | A reply that parses to `null` is relayed with 200 by the handler. In the dev route, reading `null.length` throws and the answer becomes the catch-all 500. |
| DevServer.DivergeOnUnconvertiblePrompt | server.js:14-17 | A prompt that cannot be converted to text gets the handler's caught 500 and no response written by the dev route, whose prompt log throws before the `try`. |
| DevServer.DivergeOnLengthLog | server.js:40-46 | A reply on which the success log throws is relayed with 200 by the handler and becomes the catch-all 500 in the dev route. |
| DevServer.LengthLogExamples | server.js:41 | A reply object whose `length` has its own `toString`, directly or inside an array, makes the success log throw; an array or string reply never does. |
| DevServer.DivergeOnFailures | server.js:43-46 | Both of the handler's failure kinds become the same catch-all 500 in the dev route. |
| Voxels.AppendColumn | src/components/VoxelAvatar.tsx:70-74 | The innermost loop pushes exactly the kept cells of one column, in ascending z. |
| Voxels.AppendSlice | src/components/VoxelAvatar.tsx:69-75 | The middle loop pushes exactly the columns of one slice, in ascending y. |
| Voxels.AppendBox | src/components/VoxelAvatar.tsx:68-76 | The three nested loops push exactly the box's cell list, x outermost and z innermost. |
| Voxels.CellsMembers | src/components/VoxelAvatar.tsx:68-76 | A voxel is in a box's list exactly when it is a kept grid cell inside the bounds, in the box's colour. |
| Voxels.CellsDistinct | src/components/VoxelAvatar.tsx:68-76 | A box's list has no repeated voxel. |
| Voxels.CellsCount | src/components/VoxelAvatar.tsx:80 | An unfiltered box has width times height times depth cells. |
| Voxels.InBoxMirror | src/components/VoxelAvatar.tsx:68-81 | Mirroring a voxel in x moves it into the mirrored box and nowhere else. |
| Voxels.MirrorSymmetric | src/components/VoxelAvatar.tsx:60-87 | A list without repeats that is closed under mirroring equals its mirror image as a multiset. |
| Avatar.TailHalfWidth | src/components/VoxelAvatar.tsx:62 | The tail row's half-width is `Math.floor((4 - z) / 2)`: the largest h with 2h <= 4 - z. |
| Avatar.PushTailRow | src/components/VoxelAvatar.tsx:61-64 | The inner tail loop pushes exactly one tail row, x from -floor((4 - z) / 2) to floor((4 - z) / 2). |
| Avatar.PushTail | src/components/VoxelAvatar.tsx:60-65 | The tail loops push exactly the tail rows for z = 1 to 4. |
| Avatar.TailMembers | src/components/VoxelAvatar.tsx:60-65 | A voxel is in the tail exactly when it is primary, at y 0.5 and depth z + 2 for some z in 1..4, and has an integer x within that row's half-width. |
| Avatar.TailRowsDistinct | src/components/VoxelAvatar.tsx:60-65 | The tail has no repeated voxel. |
| Avatar.TailCount | src/components/VoxelAvatar.tsx:60-65 | The tail has 8 voxels. |
| Avatar.BodyMembers | src/components/VoxelAvatar.tsx:68-76 | A voxel is in the body exactly when it is a primary grid cell with x, z in -2..2 and y in 0..2, outside the four corner columns. |
| Avatar.BodyCount | src/components/VoxelAvatar.tsx:68-76 | The body has 63 voxels. |
| Avatar.PushClawColumn | src/components/VoxelAvatar.tsx:80 | The claw's z loop pushes exactly one column at height 1, z from cz - 2 to cz. |
| Avatar.PushClaw | src/components/VoxelAvatar.tsx:80 | One claw's loops push exactly the 3 x 1 x 3 dark box around its centre. |
| Avatar.PushClaws | src/components/VoxelAvatar.tsx:79-81 | The claw loop pushes the claw at (-3, -4) and then the one at (3, -4). |
| Avatar.ClawsSplit | src/components/VoxelAvatar.tsx:79-81 | The claws are the left claw's box followed by the right claw's box. |
| Avatar.ClawsMembers | src/components/VoxelAvatar.tsx:79-81 | A voxel is a claw voxel exactly when it is in one of the two dark 3 x 1 x 3 boxes at y = 1, x in cx - 1..cx + 1 for cx = -3 or 3, and z in -6..-4. |
| Avatar.ClawsCount | src/components/VoxelAvatar.tsx:79-81 | The claws have 18 voxels. |
| Avatar.ClawsDistinct | src/components/VoxelAvatar.tsx:79-81 | The two claws do not overlap and neither repeats a voxel. |
| Avatar.SegmentCounts | src/components/VoxelAvatar.tsx:59-89 | The segment sizes are 8, 63, 18 and 4, for 93 voxels in all. |
| Avatar.SegmentOrder | src/components/VoxelAvatar.tsx:59-89 | Positions 0-7 are the tail, 8-70 the body, 71-79 the left claw and 80-88 the right claw. Positions 89-92 are the four eyes in the listed order. |
| Avatar.SegmentsApart | src/components/VoxelAvatar.tsx:59-89 | No voxel belongs to two segments. This follows from positions alone (y 0.5 for the tail, y 2.5/2.7 for the eyes, z below -3 for the claws), so it holds for any palette. |
| Avatar.MascotMembers | src/components/VoxelAvatar.tsx:59-89 | A voxel is in the mascot exactly when it fits the geometric description of one of the four segments. |
| Avatar.MascotDistinct | src/components/VoxelAvatar.tsx:59-89 | The mascot lists no voxel twice. |
| Avatar.PaletteOnly | src/components/VoxelAvatar.tsx:54-57 | Every voxel's colour is one of the four palette constants. Tail and body voxels are primary, claws dark, and eyes white or black. |
| Avatar.MascotMirrorClosed | src/components/VoxelAvatar.tsx:60-87 | The mirror image in x of every mascot voxel is a mascot voxel. |
| Avatar.MascotSymmetric | src/components/VoxelAvatar.tsx:60-87 | As a multiset of positions with colours, the mascot equals its mirror image in x. |
| Avatar.BuildMascot | src/components/VoxelAvatar.tsx:52-90 | The construction returns exactly the declarative mascot: 93 voxels, every colour from the palette, and mirror-symmetric as a multiset. |
| ForgeClient.RequestBody | src/components/VoxelForge.tsx:96-100 | The request body always carries the prompt and the mode. `currentModel` is the current mascot exactly in morph mode and `null` otherwise. |
| ForgeClient.CanGenerate | src/components/VoxelForge.tsx:194 | The button is enabled exactly when the panel is not generating and the prompt is truthy. |
| ForgeClient.NotOkFailure | src/components/VoxelForge.tsx:103-104 | For a non-ok response, a null body is reported as the TypeError of reading `error`, and no other body is. A falsy `error` gives "Forge failed"; a string `error` is reported as its non-empty text. A truthy non-string `error` is reported as that value, unless it cannot be converted to text, in which case `new Error` itself throws. |
| ForgeClient.Generate | src/components/VoxelForge.tsx:87-117 | A request is sent exactly when the prompt is non-empty; an empty prompt changes nothing. Otherwise, while the request is in flight, the panel shows generating and `analyzing` with the prompt, mode and mascot unchanged. The statuses go from `analyzing` to `ready` and the final state is not generating. The mascot changes only to the items of an ok array reply. A failure is reported exactly when the reply is not an ok response with a readable body. |
| ForgeClient.EmptyPromptNoOp | src/components/VoxelForge.tsx:88 | An empty prompt sends nothing, sets no status and leaves the state as it was. |
| ForgeClient.Await | src/components/VoxelForge.tsx:92-116 | From `fetch` on, the statuses run from `analyzing` to `ready`. Only an ok reply with a readable body avoids a failure, and a failure sets only `analyzing` and `ready` and keeps the mascot. The mascot changes only to the items of an ok array reply. |
| ForgeClient.DisabledWhileInFlight | src/components/VoxelForge.tsx:87-117 | While a request is in flight the button is disabled, so no second request can start; once the handler settles, the button is enabled again. |
| ForgeClient.EnabledSends | src/components/VoxelForge.tsx:194 | Pressing the enabled button (not generating, non-empty prompt) always sends the request. |
| ForgeClient.ReplacesOnArray | src/components/VoxelForge.tsx:106-109 | An ok array reply replaces the mascot with its items, passing through `assembling`, with no failure. |
| ForgeClient.KeepsOnNonArray | src/components/VoxelForge.tsx:106-109 | An ok reply that is not an array is accepted with no failure and leaves the mascot unchanged. |
| ForgeClient.FailureKeepsMascot | src/components/VoxelForge.tsx:110-116 | Every failure leaves the mascot unchanged, skips `assembling` and still ends ready. |
| ForgeClient.NotOkReport | src/components/VoxelForge.tsx:103-104 | A non-ok reply reports its `error` text, or "Forge failed" when `error` is falsy. |
| ForgeClient.IgnoresBusyFlag | src/components/VoxelForge.tsx:87-90 | The handler does not read `isGenerating`: busy and idle states give the same request and the same final state. |
| ForgeClient.InitialBlock | src/components/VoxelForge.tsx:83 | The initial block has 18 voxels and no repeats. They are exactly the voxels in its colour with x, z in {-1, 0, 1} and y in {0, 1}. |
| ForgeClient.Mount | src/components/VoxelForge.tsx:81-85 | After mounting, the mascot is the initial block (18 voxels) and the other hooks hold their initial values, so the button starts disabled. |
| Exchange.OkExactlyOn2xx | src/components/VoxelForge.tsx:103-109 | Whatever the endpoint answers, the panel reports a failure exactly when the status is outside 2xx, and changes its mascot only to an array carried by a 2xx response. |
| Exchange.PanelPassesGuards | api/forge.ts:8-16 | A request from the panel (POST with a non-empty string prompt) never gets 405 or 400, and its prompt always converts to text. |
| Exchange.PanelCallsProvider | api/forge.ts:8-47 | With the credential set, every request from the panel passes the three guards and its prompt converts to text, so the provider is called. |
| Exchange.ModeIgnored | api/forge.ts:12 | Creating and morphing with the same prompt get the same response. |
| Exchange.ArrayReplyReplacesMascot | src/components/VoxelForge.tsx:106-109 | A provider reply that cleans and parses to an array becomes the panel's new mascot. |
| Exchange.ErrorTextReported | src/components/VoxelForge.tsx:104 | A non-2xx response with a non-empty `error` text is reported with that text. |
| Exchange.ProviderFailureReported | api/forge.ts:61-64 | A provider failure reaches the panel as its message, or "Intelligence failure", and the mascot is kept. |
| Exchange.InvalidReplyReported | api/forge.ts:57-60 | An unparseable reply reaches the panel as "Invalid response from AI". |
| Exchange.MissingKeyReported | api/forge.ts:21-27 | A missing credential reaches the panel as the configuration error. |
| Exchange.DevFailuresLookAlike | server.js:43-46 | Against the development route, every failure reaches the panel as "Intelligence failure". |

## Left out

- The provider call (`GoogleGenerativeAI`, `generateContent`, `response.text()`) is not modelled. Its outcome for the request is an input value, either reply text or a failure with its message.
- The system instruction and the model name are not modelled. They only shape what the provider is asked.
- The platform time limit `maxDuration: 30` (api/forge.ts:3-5) is not modelled. When a request runs past it, the platform ends the function before the handler's `catch` can answer and sends its own error response. The panel then sees a non-ok reply whose body may not parse (`ForgeClient.UnreadableBody`); that response comes from the platform, not from this source.
- `JSON.parse` is a function parameter from text to an optional JSON value. Its grammar is not modelled.
- `fetch` and `response.json()` are not modelled. What they produced is an input value (`ForgeClient.Reply`).
- React rendering, JSX, three.js, the instanced meshes and `App.tsx` are left out. They only display the state.
- The prompt and mode setters and the mode toggle are left out. They assign hook values directly.
- What `console.log`, `console.error` and `alert` print is left out. Building a logged text can throw, and that is modelled where it happens: the dev route's two template literals (`DevServer.Serve`, `DevServer.LogThrows`). `console.error` takes its values as arguments and the code does not convert them. The alert's `error.message` is always a string.
- Express and Vercel plumbing (CORS, `express.json()`, routing, the listener) is left out. The model starts from the parsed request body.
- ForgeApi.Handle: requires a non-null body for POST. Destructuring `null` throws before any response is written, and what the platform then sends is not part of this source.
- ForgeClient.Failure: for a truthy non-string `data.error` that converts to text, the reported message is `String(value)`; the model keeps the value and does not compute that text.
- ForgeApi.ConversionFailure: the TypeError message is V8's ("Cannot convert object to primitive value"); another JavaScript engine may word it differently.
- ForgeClient.Failure: the TypeError text for reading `error` of a `null` body is not modelled; only the failure kind is.
- Avatar.BuildMascot: takes the palette as a parameter. The component's four colours are `Avatar.Colors`; every property is proved for any palette.
- ForgeClient.Mount: takes the block's colour as a parameter. The component passes "#ff4d4d" (`ForgeClient.Primary`).
- ForgeApi.RedCubeExample: takes the voxel's colour as a parameter, so any colour without a backtick, "#ff0000" included, gives the same answer.
- Cleanup.RemoveAll: its own contract states only that removal never lengthens the text. What the removal leaves is stated by Cleanup.RemoveAbsent, Cleanup.NoFenceAfterRemoval and Cleanup.FencedRemoval.
- DevServer.Serve: requires a non-null body. In its default strict mode `express.json()` answers 400 itself, before the route runs, to a JSON body whose top level is not an object or an array; with the Express 4 body parser `req.body` is `{}` only when no JSON was parsed. So the destructuring at server.js line 14 cannot throw. The Express version is not part of this source; under Express 5 an unparsed `req.body` is undefined and that destructuring would throw like the prompt log does.
- DevServer.Serve: `None` means only that the route writes nothing. What happens after the async handler rejects is not modelled, because it depends on the Express and Node versions, which are not part of this source. Under Express 4 the rejection is unhandled, and Node 15 and later end the dev-server process on it, so later requests fail too. Under Express 5 the default error handler answers 500 with a page that is not JSON, which the panel sees as `ForgeClient.UnreadableBody`.
- The hard-coded credential of server.js line 10 is not modelled. The dev route has no credential guard.
