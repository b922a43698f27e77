# Deployment provisioning and lifecycle, modelled in Dafny

The application lets a signed-in user deploy a personal AI-agent runtime
("openclaw") on a hosting platform, and then watch and manage it. This
project models the core of that system:

- **The Railway provisioning library.** It covers:
  - the runtime's bootstrap configuration: the model and channel tables and their defaults;
  - the configuration's UTF-8/Base64 transport encoding (section 4 of RFC 4648), which lets it pass through the shell start command;
  - the service variables;
  - the six-step provisioning chain, with the first GraphQL error aborting the chain;
  - the composite handle `projectId::serviceId::envId`, plus teardown and the status read that split it again;
  - the status table.
- **The Render provisioning variant.** It covers the fixed, ordered list of five variables, the provider table, the URL fallback and the case-insensitive status table.
- **The deploy API handler (`POST /api/deploy`).** It covers validation and the record's lifecycle (`pending` to `deploying` or `failed`) in the deployments table.
- **The client-side state of three pages.** These are:
  - the dashboard: the poll-target filter, the merge of poll results by id, delete, the counts and the badge table;
  - the four-step deploy wizard and its bot-token validator;
  - the agents page: create, edit, delete and the form.

## How the model is organised

Each remote system is an oracle object:

- `Railway.Platform` and `DeployRoute.Store` each hold a `log` of every request they were sent.
- Each also holds a constant `world` giving the answer to the n-th request.
- A method that talks to them is proved against a function of `world`. It ensures that the log grew by exactly that function's requests and that its result is that function's result.

`Railway.Provision` (with `Proceed` and one function per stage) is that specification for provisioning. `DeployRoute.Handled` is the specification for the handler.

The React components become classes whose fields are the component's state, with one method per event handler. The pure list and string operations are functions. Process environment, clock and random bytes are parameters (`env`, `now`, `random`). Confirmation dialogs and network outcomes are parameters of the handlers.

Modules:
- `Wrappers`, `Bytes`, `Text`, `Tokens`, `Base64`, `Json`: shared value-level helpers with the behaviour of the JavaScript built-ins the source uses (`split`, `trim`, `toLowerCase`, `slice`, `Buffer` hex, Base64 and UTF-8, `JSON.stringify` string escaping).
- `Lifecycle`: the lifecycle states.
- `RailwayConfig`, `Railway`: `src/lib/railway.ts`.
- `Render`: `src/lib/render.ts`.
- `DeployRoute`: `src/app/api/deploy/route.ts`.
- `Dashboard`, `DeployFlow`, `Agents`: the three components.

## Model

| member | source | states |
|---|---|---|
| Bytes.Utf8Char | src/lib/railway.ts:96 | the shortest form: one byte below U+0080, two below U+0800, three below U+10000, else four; the lead byte announces the length (C2–DF, E0–EF, F0–F4), every later byte is a continuation byte (80–BF), and the bytes decode to the code point |
| Text.JoinSplit | src/lib/railway.ts:212-214 | `split("::")` loses nothing: gluing the pieces back together with "::" gives the input back |
| Text.SplitAfterPiece | src/lib/railway.ts:205-214 | a colon-free piece followed by "::" is split off as one whole piece |
| Text.SplitNoColon | src/lib/railway.ts:212-214 | a colon-free string splits into itself alone |
| Text.Trim | src/components/deploy-flow.tsx:41-43 | the result is the contiguous part of the input after its leading white space; it neither starts nor ends with white space, and everything cut off at either end is white space |
| Text.LowerAscii | src/lib/render.ts:96 | same length, with each ASCII capital replaced by its small letter and every other character kept |
| Text.NatToString | src/lib/railway.ts:86 | a non-empty run of decimal digits with no leading zero, whose decimal value is the number |
| Text.Prefix | src/lib/railway.ts:86 | `slice(0, k)` is the first min(k, length) characters |
| Tokens.Hex | src/lib/railway.ts:25-27 | two lower-case hex digits per byte |
| Tokens.UnhexHex | src/lib/railway.ts:25-27 | reading the hex rendering back gives the bytes |
| Tokens.GenerateToken | src/lib/render.ts:20-22 | a token is 64 characters of `[0-9a-f]` and determines the 32 random bytes |
| Base64.DecodeSextet | src/lib/railway.ts:96 | the alphabet's characters, and only they, decode to a sextet that encodes back to them |
| Base64.Encode | src/lib/railway.ts:96 | the text has 4·⌈n/3⌉ characters, all from the alphabet or `=` |
| Base64.Decode | src/lib/railway.ts:144-145 | a non-empty text that decodes gives non-empty bytes |
| Base64.DecodeEncode | src/lib/railway.ts:96 | decoding the encoding gives the bytes back |
| Base64.EncodeDecode | src/lib/railway.ts:144-145 | each text the strict decoder accepts is the encoding of what it decodes to |
| Json.EscapeChar | src/lib/railway.ts:79 | an escape is one to six characters, holds no control character, and holds a quote only after a backslash |
| Json.UnescapeEscape | src/lib/railway.ts:79 | reading the escaped string content back gives the string |
| Lifecycle.ParseName | src/components/dashboard-content.tsx:35-40 | the five status names are distinct: parsing a status's name gives it back |
| RailwayConfig.BuildConfig | src/lib/railway.ts:55-77 | primary model from the table (claude-sonnet-4-6 for any other selector); a telegram block, enabled, open and with the given token or "", exactly when the channel is telegram |
| RailwayConfig.ConfigBase64RoundTrip | src/lib/railway.ts:90-96 | the Base64 text decodes to exactly the UTF-8 bytes of the JSON, and holds only alphabet characters and `=`, none of them special to a shell |
| RailwayConfig.Variables | src/lib/railway.ts:151-167 | the keys are exactly OPENCLAW_CONFIG_B64 and PORT=18789, plus the model's API-key variable when the model has one and the environment a non-empty value, plus TELEGRAM_BOT_TOKEN when a non-empty token is given; each has its value |
| Railway.Gql | src/lib/railway.ts:5-23 | a response with errors throws "Railway API: " and the first message; otherwise the data; a failed round trip propagates |
| Railway.Platform.constructor | src/lib/railway.ts:5-23 | a platform with the given answers and nothing sent yet |
| Railway.Platform.Send | src/lib/railway.ts:9-18 | the request is appended to the log and answered by the platform for its position |
| Railway.HandleRoundTrip | src/lib/railway.ts:205-214 | splitting `p::s::e` on "::" yields exactly `[p, s, e]` when the ids hold no colon |
| Railway.CreateOpenclaw | src/lib/railway.ts:82-209 | the requests sent and the outcome are exactly those of `Provision` for these inputs and the platform's answers |
| Railway.RunSteps | src/lib/railway.ts:98-115 | step 1 and the rest as the project stage specifies; the id and first environment edge are read from the answer, and a missing one throws the TypeError |
| Railway.CreateService | src/lib/railway.ts:117-131 | step 2 and the rest as the service stage specifies |
| Railway.ConfigureService | src/lib/railway.ts:133-149 | step 3 (one replica, the start command) and the rest as the configure stage specifies |
| Railway.SetVariables | src/lib/railway.ts:151-182 | step 4 (the variables, with deploys skipped) and the rest as the variables stage specifies |
| Railway.BuildVariables | src/lib/railway.ts:154-167 | the dictionary filled in place is `RailwayConfig.Variables` |
| Railway.PublishService | src/lib/railway.ts:184-208 | steps 5 and 6 and the result as the publish stage specifies; the domain is read only after the redeploy |
| Railway.AfterOrderly | src/lib/railway.ts:98-202 | one more successful request of the step before keeps a run in step order |
| Railway.OrderlyMeans | src/lib/railway.ts:98-202 | the step-at-a-time ordering implies the whole-run one |
| Railway.ProjectOrderly | src/lib/railway.ts:98-115 | the run from step 1 is in step order |
| Railway.ServiceOrderly | src/lib/railway.ts:117-131 | the run from step 2 is in step order |
| Railway.ConfigureOrderly | src/lib/railway.ts:133-149 | the run from step 3 is in step order |
| Railway.VariablesOrderly | src/lib/railway.ts:151-182 | the run from step 4 is in step order |
| Railway.PublishOrderly | src/lib/railway.ts:184-202 | the run from step 5 is in step order |
| Railway.ProvisionOrderly | src/lib/railway.ts:98-208 | the i-th request is step i+1; every request but the last was answered without error; an erroneous answer is the last one and its error is thrown; only a run that made all six calls succeeds |
| Railway.SuccessfulRun | src/lib/railway.ts:98-208 | a successful run got the expected answers; its six requests carry the ids those answers returned (first environment edge); it returns the handle of those ids, `https://` + domain and the token |
| Railway.DeleteProject | src/lib/railway.ts:211-222 | fewer than three parts: no request; otherwise exactly one delete of `parts[0]`, whose error propagates |
| Railway.MapRailwayStatus | src/lib/railway.ts:246-255 | SUCCESS iff running; FAILED, CRASHED, REMOVED iff failed; everything else deploying |
| Railway.RawStatus | src/lib/railway.ts:243-244 | the latest deployment's status when the reply has an instance, a deployment and a status; BUILDING otherwise |
| Railway.StatusOf | src/lib/railway.ts:243-258 | a thrown error reads as deploying; an answer is the status table's reading of its raw status, so a missing instance reads as deploying; never pending or unknown |
| Railway.GetServiceStatus | src/lib/railway.ts:224-259 | fewer than three parts: "unknown" with no request; otherwise one query of `parts[1]` in `parts[2]`, and its answer read by `StatusOf` |
| Railway.HandleAddresses | src/lib/railway.ts:204-227 | the handle of a run addresses its project, service and environment in teardown and the status read |
| Render.Provider | src/lib/render.ts:30-34 | gpt gives openai, gemini gives google, anything else anthropic |
| Render.EnvVarsShape | src/lib/render.ts:50-56 | exactly five variables, in order, no key twice, each lookup giving the value put there (port 18789 twice) |
| Render.CreateOpenclaw | src/lib/render.ts:24-81 | success iff the response is ok; a non-ok response throws "Render API error: " with status and body; on success the token is the OPENCLAW_TOKEN sent and hex of the random bytes, the id is the raw id, the URL is the API's or `https://<name>.onrender.com` |
| Render.MapRenderStatus | src/lib/render.ts:96-104 | live iff running; failed and suspended iff failed; everything else deploying |
| Render.RawState | src/lib/render.ts:94 | the running status, else the status, else "unknown" |
| Render.ServiceStatus | src/lib/render.ts:83-105 | a non-ok response is "unknown"; an ok one is the status table's reading of the lower-cased state, so never pending or unknown, and running iff that state is live; a rejected round trip propagates |
| Render.StatusIgnoresCase | src/lib/render.ts:96 | two states equal up to letter case read the same |
| Render.MissingStateIsDeploying | src/lib/render.ts:94-104 | no state fields give "unknown", which reads as deploying |
| DeployRoute.ApplyPatch | src/app/api/deploy/route.ts:47-71 | an update keeps the row's owner, channel and model and writes the patch's status; deploying also sets the service's handle, address and token, failed changes nothing else |
| DeployRoute.Applied | src/app/api/deploy/route.ts:23-71 | a successful insert puts the new pending row, with no service fields, at the id the store returned; a successful update of a present id patches that row; anything else, and a failed write in particular, changes nothing; no key is ever lost and an update adds none |
| DeployRoute.Store.constructor | src/app/api/deploy/route.ts:23-33 | a store with the given rows and answers and nothing written yet |
| DeployRoute.Store.Write | src/app/api/deploy/route.ts:23-55 | the write is logged, answered for its position, and applied to the rows |
| DeployRoute.ProvisionParams | src/app/api/deploy/route.ts:40-45 | the channel, model and user are passed on; the bot token is not |
| DeployRoute.BotTokenNotForwarded | src/app/api/deploy/route.ts:16-45 | a bot token the client may send reaches neither the configuration (its telegram token is "") nor the variables (no TELEGRAM_BOT_TOKEN) |
| DeployRoute.UpdateFor | src/app/api/deploy/route.ts:47-71 | the row with the new id is moved to deploying with the created service's handle, address and token on success, and to failed on a throw |
| DeployRoute.ResponseFor | src/app/api/deploy/route.ts:61-76 | 200 with the ids and status "deploying" iff provisioning succeeded, whatever the update answered; else 500 with the message |
| DeployRoute.Post | src/app/api/deploy/route.ts:5-78 | no user: 401 with nothing written or sent, and the body unread; a body that is not JSON, or is null: the handler throws before anything is written or sent; a missing or empty field: 400 likewise; otherwise the handled flow, and only pending, deploying and failed are ever written |
| DeployRoute.HandledWritesLifecycle | src/app/api/deploy/route.ts:23-71 | a handled request writes only pending, deploying and failed |
| DeployRoute.InsertAndProvision | src/app/api/deploy/route.ts:23-77 | a pending row is inserted before anything is sent; a failed insert answers 500 and provisions nothing; otherwise provision, update, answer |
| DeployRoute.ProvisionRecorded | src/app/api/deploy/route.ts:39-77 | the platform gets exactly the provisioning requests, the store exactly one update of the row, and the answer follows from the provisioning outcome alone |
| Dashboard.PollTargets | src/components/dashboard-content.tsx:63 | exactly the deploying and pending deployments, from the list |
| Dashboard.NoTargetsWhenSettled | src/components/dashboard-content.tsx:63-64 | nothing is polled iff nothing is deploying or pending |
| Dashboard.PollResult | src/components/dashboard-content.tsx:68-74 | the fetched record on an ok response, the deployment unchanged otherwise |
| Dashboard.PollResults | src/components/dashboard-content.tsx:67-75 | one result per target, in order |
| Dashboard.FindById | src/components/dashboard-content.tsx:78 | the first record in the list with the id; none found means no record has it |
| Dashboard.Merge | src/components/dashboard-content.tsx:77-79 | same length and ids in place; each entry becomes the first polled record with its id, and stays when no record has it |
| Dashboard.FindOwn | src/components/dashboard-content.tsx:77-79 | with distinct ids, a record's own polled copy merges to the record |
| Dashboard.PollRoundEntry | src/components/dashboard-content.tsx:62-83 | with distinct ids and each fetched record carrying the id it was fetched for, one round turns every deploying or pending entry into its poll result and leaves every other entry as it was |
| Dashboard.FailedRoundChangesNothing | src/components/dashboard-content.tsx:66-79 | a round in which no fetch succeeded leaves the list unchanged |
| Dashboard.Remove | src/components/dashboard-content.tsx:90 | the survivors are exactly the list's entries with another id |
| Dashboard.RemoveAppend | src/components/dashboard-content.tsx:90 | the filter distributes over concatenation, so the entries that stay keep their order |
| Dashboard.RemoveAbsent | src/components/dashboard-content.tsx:90 | removing an id not in the list changes nothing |
| Dashboard.CountsBounded | src/components/dashboard-content.tsx:96-97 | running plus deploying is at most the list's length, and the deploying count is the number of poll targets |
| Dashboard.BadgeVariant | src/components/dashboard-content.tsx:35-40 | success iff running, warning iff deploying, destructive iff failed; secondary for pending and any other status, never default |
| Dashboard.DashboardState.constructor | src/components/dashboard-content.tsx:59 | the list starts as the server's deployments |
| Dashboard.DashboardState.PollTick | src/components/dashboard-content.tsx:62-83 | the list becomes the merge of the round's results; with no target it stays |
| Dashboard.DashboardState.HandleDelete | src/components/dashboard-content.tsx:85-94 | the id's entries go only when confirmed and the response ok; otherwise nothing changes |
| DeployFlow.DigitRun | src/components/deploy-flow.tsx:43 | the leading digits, ending at the first non-digit |
| DeployFlow.MatchesTokenIff | src/components/deploy-flow.tsx:43 | the left-to-right reading accepts exactly digits, a colon, and 35 or more of `[A-Za-z0-9_-]` to the end |
| DeployFlow.DigitRunStops | src/components/deploy-flow.tsx:43 | the digit run ends at the first non-digit |
| DeployFlow.ColonsSplit | src/components/deploy-flow.tsx:43 | colons of a concatenation add up |
| DeployFlow.NoColons | src/components/deploy-flow.tsx:43 | a colon-free string has no colons |
| DeployFlow.AcceptedTokenShape | src/components/deploy-flow.tsx:43 | an accepted token has a non-empty digit prefix, exactly one colon and at least 35 characters after it |
| DeployFlow.ValidateBotToken | src/components/deploy-flow.tsx:40-47 | "required" iff the trimmed input is empty; the format message when it does not match; no error iff it matches |
| DeployFlow.AllSpaceLeading | src/components/deploy-flow.tsx:41 | all-white-space input is all leading white space |
| DeployFlow.BlankIsRequired | src/components/deploy-flow.tsx:40-41 | blank input is reported as required |
| DeployFlow.ColonlessIsMalformed | src/components/deploy-flow.tsx:43-46 | non-blank input without a colon is reported as malformed |
| DeployFlow.DeployError | src/components/deploy-flow.tsx:87-95 | no error iff the reply is ok; otherwise the route's error, "Deploy failed", or the thrown message |
| DeployFlow.Destination | src/components/deploy-flow.tsx:93 | the dashboard focused on the new deployment, exactly on success |
| DeployFlow.Wizard.constructor | src/components/deploy-flow.tsx:31-37 | step 1, no channel, empty token, model claude, nothing loading, no error |
| DeployFlow.Wizard.SelectChannel | src/components/deploy-flow.tsx:144-150 | on step 1 only an available channel (telegram) is taken; the channel stays none or telegram; every other field is unchanged |
| DeployFlow.Wizard.ChannelNext | src/components/deploy-flow.tsx:164 | 1 to 2 only with a channel; every other field is unchanged |
| DeployFlow.Wizard.EditToken | src/components/deploy-flow.tsx:211-214 | typing sets the token and clears the token error; every other field is unchanged |
| DeployFlow.Wizard.ConnectNext | src/components/deploy-flow.tsx:49-57 | 2 to 3 only with a valid token; otherwise the validator's error is shown and the step stays; every other field is unchanged |
| DeployFlow.Wizard.SelectModel | src/components/deploy-flow.tsx:249 | a model card sets the model on step 3; every other field is unchanged |
| DeployFlow.Wizard.ModelNext | src/components/deploy-flow.tsx:267 | 3 to 4 unconditionally; every other field is unchanged |
| DeployFlow.Wizard.Back | src/components/deploy-flow.tsx:228 | 2 to 1, 3 to 2, 4 to 3; the step stays in 1..4; every other field is unchanged |
| DeployFlow.Wizard.HandleDeploy | src/components/deploy-flow.tsx:70-99 | on step 4, a request is sent iff there is a user and a channel; it carries the channel, the model and the trimmed token, which passes validation; then the error or the redirect, and loading is off; step, channel, token, token error and model are unchanged |
| DeployFlow.Wizard.Submit | src/components/deploy-flow.tsx:77-98 | with loading on meanwhile, the reply's error is shown, the dashboard opened on success, and loading is off afterwards; the wizard's other fields are unchanged |
| Agents.Spread | src/components/agents-content.tsx:62 | each field the answer carries wins, the others stay |
| Agents.SpreadLaws | src/components/agents-content.tsx:62 | an empty patch is the identity, and a patch is idempotent |
| Agents.ReplaceById | src/components/agents-content.tsx:62 | same length; the agents with the id are merged with the answer, the others unchanged |
| Agents.ReplaceTouchesOnlyId | src/components/agents-content.tsx:62 | an absent id changes nothing; an answer without an id keeps every id |
| Agents.Prepend | src/components/agents-content.tsx:71 | the new agent first, then every previous agent in order |
| Agents.Remove | src/components/agents-content.tsx:98 | the survivors are exactly the agents with another id |
| Agents.RemoveAppend | src/components/agents-content.tsx:98 | the filter distributes over concatenation, so it keeps order |
| Agents.RemoveIdempotent | src/components/agents-content.tsx:98 | deleting twice is deleting once |
| Agents.DeleteAfterCreate | src/components/agents-content.tsx:64-98 | deleting a just-created agent's id leaves the list as the other agents would have it |
| Agents.FormOf | src/components/agents-content.tsx:85-90 | the form holds the agent's four fields |
| Agents.SubmitError | src/components/agents-content.tsx:60-78 | no error iff the answer is ok; "Failed to update"/"Failed to create" or the thrown message otherwise |
| Agents.AgentsState.constructor | src/components/agents-content.tsx:41-46 | the list from the server, a hidden default form, nothing edited, not saving, no error |
| Agents.AgentsState.NewAgent | src/components/agents-content.tsx:108-112 | an empty form for a new agent is shown |
| Agents.AgentsState.Cancel | src/components/agents-content.tsx:197 | the form is hidden and nothing else changes |
| Agents.AgentsState.StartEdit | src/components/agents-content.tsx:84-93 | the form holds the agent's fields, the agent is edited and the form shown |
| Agents.AgentsState.HandleSubmit | src/components/agents-content.tsx:48-82 | an update of the edited agent or a create of the form is sent, with saving on meanwhile and off after; on success the list is replaced-by-id or prepended and the form reset, hidden and editing nothing; otherwise only the error changes |
| Agents.AgentsState.HandleDelete | src/components/agents-content.tsx:95-98 | when confirmed, the id's agents go whatever the server answered; a failed round trip, or no confirmation, leaves the list |

## Left out

- HTTP and GraphQL transport (`fetch`, `res.json`, the endpoints, the bearer token): the remote systems are oracles that answer each request.
- Supabase authentication and table calls: the signed-in user is a parameter, and the table is the `Store` oracle.
- `process.env`, `Date.now()` and `crypto.randomBytes` are parameters (`env`, `now`, `random`). The hex rendering of the random bytes is modelled.
- Object-table lookups such as `MODEL_NAMES[model]` are modelled as own-property lookups. Keys like "constructor" that resolve through the prototype are not modelled.
- GraphQL answers are typed values. An answer whose `data` is null, or has a shape other than the one asked for, is modelled only where the source reads a field (the TypeError of `projectCreate.id`, `edges[0].node` and `serviceDomainCreate.domain`).
- Railway.CreateOpenclaw: the configuration's Base64 text is computed where step 4 uses it, not before step 1. It is a pure function of the inputs, so the requests and outcome are the same.
- Railway.CreateOpenclaw: the six steps are split over five methods that call one another in order, rather than one function body.
- Railway.StartCommand: the start command is a constant. Its decoding of `$OPENCLAW_CONFIG_B64` on the host is not modelled; the Base64 round trip covers what it relies on.
- Json: only the `JSON.stringify` output the configuration document needs (objects, strings, booleans) is modelled. The reader `Json.Unescape` does not read surrogate `\u` escapes, which the writer never produces.
- Text.LowerAscii: `toLowerCase` is modelled on ASCII letters only. Two non-ASCII characters lower-case to text holding an ASCII letter. The Kelvin sign becomes `k`, and no key of the status table contains `k`. The capital I with dot above becomes `i` followed by a combining dot, and no key contains that mark. A state holding either one therefore matches no key in the source or in the model, so the readings are the same.
- Thrown values that are not `Error` objects, and their "Unknown error"-style fallbacks, are not modelled. Every failure carries a message.
- The dashboard's `useEffect`/`setInterval` timer and the `Promise.all` fan-out are not modelled. One tick of the timer is `PollTick`, with the fetches answered by a function.
- `confirm` and `alert` dialogs are not modelled: confirmation is a parameter, and alerts are not modelled.
- The OAuth sign-in redirect of the deploy wizard is left out: without a user nothing is sent.
- The wizard's and the agents form's field-editing handlers, apart from the token field, are left out. They only copy input into state.
- Agents.AgentsState.HandleSubmit: `saving` is set while the request is out; the model returns its value at that moment as `inFlight` rather than modelling an interleaving.
- Agents.AgentsState.NewAgent: the button is rendered only when deployments exist; that rendering condition is not modelled.
- Agents.Spread: an answer field that is present but `undefined` is treated as absent; `null` values are not distinguished.
- DeployRoute.Post: body fields that are present but not strings (a number, say) are not modelled; a field is a string or absent.
- DeployRoute.Store.Write: a store call always answers, either with rows or with an error. A store call that throws inside the handler's `try`, which would send the handler to the `catch`, is not modelled.
- The `DELETE` and status routes under `/api/deploy/[id]` are not part of this model.
- Presentation components, the server-rendered pages and `process_image.py` (image numerics) are not part of this model.
- Concurrency between handlers (a poll answer arriving after a delete, a double submit) is not modelled: each handler runs to completion.

## Notes on the source

- The deploy handler never reads a `botToken` from the body, so none reaches provisioning. The runtime's telegram block therefore always carries an empty token, and no TELEGRAM_BOT_TOKEN variable is ever set (`DeployRoute.BotTokenNotForwarded`).
- The handler's response is decided by the provisioning outcome alone. A failed update of the record after a successful provisioning is only logged (`DeployRoute.ProvisionRecorded`).
- The agents page treats an empty editing id as "not editing", so such a submit creates a new agent (`Agents.Editing`).
- The agents page removes a deleted agent locally even when the server answers with an error. But a failed round trip throws before the filter and leaves the list.
- `deleteProject` propagates GraphQL errors. Render's `getServiceStatus` has no `catch`, so a failed round trip propagates there too. Railway's `getServiceStatus` turns every error into `deploying`.
- Railway's domain answer is read only after the redeploy request has been sent. A malformed domain answer therefore fails after all six requests.
