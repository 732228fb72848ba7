# Broiler house monitor: settings, dashboard helpers and chat proxy

This is a Dafny model of the logic in a small Next.js application used to watch a broiler (meat chicken) house. The model covers three pieces.

- **The settings page** (`src/app/settings/page.tsx`). The settings record has eleven groups of fields and a default value, `DEFAULTS`. The migration `upgradeSettings` merges any stored or imported JSON document into the defaults, group by group. The nested `backend.mqtt` record gets a merge of its own. The page also has per-field binders, the mains and transport buttons, "reset" and "import".
- **The dashboard** (`src/app/page.tsx`). This covers:
  - the age-based preset table and the "Apply" action;
  - the rolling buffer of the last 120 readings;
  - the 30-point sparklines;
  - the deviation from the setpoints and the trend (`slope`);
  - the OK / Warn / Alert badge.
- **The chat proxy** (`src/app/api/chat/route.ts`). The POST handler removes system messages and checks that the last remaining message is from the user. It maps the roles to the model service's vocabulary and flattens the service's reply into one text.

All three are pure code, so the model is built from datatypes, functions and lemmas.

Modules:
- `Wrappers`: the Option and Result types.
- `Decimal`: decimal numerals of natural numbers. `String(i)` gives the keys of an array being spread, and `String(status)` is used in the 502 message.
- `Json`: the values JSON.parse can produce, and `v?.k`.
- `Settings`, `Dashboard` and `Chat`: one module for each source file.

Values read back from storage or from an import are whatever JSON.parse produced. So a settings record is a map from group name to an arbitrary JSON value, and it is not assumed to have the declared TypeScript types. The `s` helper of `upgradeSettings` follows JavaScript:
- arrays are objects, so spreading an array spreads its index numerals;
- null, numbers, strings and booleans spread as `{}`.

Facts about the code that the model keeps:
- The settings only store the parameters of a control and alert engine (duty mapping, ramps, boost, night and quiet caps, alert timers). No file of the application acts on them, so the model has no engine.
- An import is refused only when JSON.parse throws. Any value that parses, such as `42`, `null` or an array, is upgraded, and whatever does not fit is replaced by the defaults (`Settings.ImportJson`).
- Nothing is clamped: a binder stores whatever number the input produced, out of range or not.
- The lux card's badge is measured against the temperature hysteresis `hys` (`Dashboard.LuxBadge`).

## Model

| member | source | states |
|---|---|---|
| Settings.Upgrade | src/app/settings/page.tsx:92-113 | the migration is total: it returns exactly the eleven groups, whatever the document |
| Settings.UpgradeFieldOverride | src/app/settings/page.tsx:94-106 | a group's keys are the default keys plus the raw group's keys; a raw field wins; an absent field keeps its default; a missing or non-object raw group gives exactly the default group |
| Settings.ObjectView | src/app/settings/page.tsx:94 | `{...s(o)}`: an object gives its fields, an array its index numerals mapped to its items, anything else `{}` |
| Settings.Merge | src/app/settings/page.tsx:97-106 | `{ ...d, ...s(o) }` has the keys of both, and each key holds the spread value when there is one, else the default |
| Settings.MergeBackend | src/app/settings/page.tsx:107-111 | the merged backend has the default keys plus the raw keys, and its "mqtt" is an object; the field-by-field statement is Settings.MergeBackendFields |
| Settings.UpgradeGroup | src/app/settings/page.tsx:97-111 | every merged group is an object whose keys are its default keys plus the raw group's keys; what it holds is stated by Settings.UpgradeFieldOverride, Settings.MergeBackendFields and Settings.UpgradeGroupShaped |
| Settings.MergeBackendFields | src/app/settings/page.tsx:107-111 | the nested backend merge, field by field: non-"mqtt" fields from raw over defaults, "mqtt" merged from `backend.mqtt` alone, the default mqtt record when that is missing |
| Settings.UpgradeBackend | src/app/settings/page.tsx:107-111 | the same for the backend group of an upgraded document; an empty raw backend gives the default backend |
| Settings.UpgradeReadsOnlyGroups | src/app/settings/page.tsx:96-112 | two documents with the same eleven groups upgrade to the same record |
| Settings.UpgradeDropsUnknownGroups | src/app/settings/page.tsx:96-112 | a top-level key that is not a group never reaches the result, and changing it does not change the result |
| Settings.UpgradeGroupShaped | src/app/settings/page.tsx:97-111 | every merged group is an object with at least its default fields (backend: with an "mqtt" object holding the default mqtt fields) |
| Settings.UpgradeGroupFixed | src/app/settings/page.tsx:97-111 | a group that already has its shape merges into itself |
| Settings.UpgradeIsNormalized | src/app/settings/page.tsx:92-113 | every upgraded record has the eleven groups, each holding all its default fields |
| Settings.UpgradeFixedPoint | src/app/settings/page.tsx:92-113 | a record is left unchanged by the migration if and only if it has that shape |
| Settings.UpgradeIdempotent | src/app/settings/page.tsx:174-176 | re-upgrading the saved upgraded value changes nothing |
| Settings.UpgradeGroupMissing | src/app/settings/page.tsx:94-111 | a missing group upgrades to its default |
| Settings.UpgradeEmpty | src/app/settings/page.tsx:117-165 | an empty document upgrades to exactly DEFAULTS |
| Settings.UpgradeDefaults | src/app/settings/page.tsx:117-165 | DEFAULTS has the normalized shape and upgrades to itself |
| Settings.SetField | src/app/settings/page.tsx:202-217 | a binder sets field k of group g to v; every other field of g and every other group is unchanged |
| Settings.OnNum | src/app/settings/page.tsx:202-205 | `onNum(g, k)` sets field k of group g to the number; the other groups are unchanged (the full frame is Settings.SetField) |
| Settings.OnTxt | src/app/settings/page.tsx:206-209 | `onTxt(g, k)` sets field k of group g to the text; the other groups are unchanged |
| Settings.OnBool | src/app/settings/page.tsx:210-213 | `onBool(g, k)` sets field k of group g to the flag; the other groups are unchanged |
| Settings.SetTempMode | src/app/settings/page.tsx:216-217 | the strategy buttons set `strategy.tempMode` and change no other strategy field and no other group |
| Settings.SetBackendMode | src/app/settings/page.tsx:557-560 | the HTTP / MQTT buttons set `backend.mode`, keep `backend.mqtt` and the other groups |
| Settings.SetMqttField | src/app/settings/page.tsx:574-599 | an MQTT input sets one field of `backend.mqtt`; the other backend fields and groups are unchanged |
| Settings.SetMainsSense | src/app/settings/page.tsx:549-552 | a mains button replaces the whole mains group by `{ sense }`; other groups are unchanged |
| Settings.ResetDefaults | src/app/settings/page.tsx:220 | reset gives exactly DEFAULTS, which is normalized and which a reload leaves unchanged |
| Settings.ImportJson | src/app/settings/page.tsx:226-234 | a document that parses replaces the record by its upgrade; a parse failure leaves the record unchanged |
| Settings.Load | src/app/settings/page.tsx:168-184 | the first value of the settings state: DEFAULTS for a missing, empty or unparsable entry, otherwise the upgrade of the parsed value; always a fixed point of the migration |
| Settings.SetFieldNormalized | src/app/settings/page.tsx:202-217 | a binder on a one-level group, or on a non-"mqtt" backend field, keeps the normalized shape |
| Settings.SetMainsSenseNormalized | src/app/settings/page.tsx:549-552 | the mains buttons keep the normalized shape |
| Settings.SetMqttFieldNormalized | src/app/settings/page.tsx:574-599 | the MQTT inputs keep the normalized shape |
| Settings.Apply | src/app/settings/page.tsx:202-234 | any page action applied to a normalized record gives a normalized record |
| Settings.ApplyAll | src/app/settings/page.tsx:168-234 | after any sequence of page actions, the record is one a reload maps to itself |
| Dashboard.RecommendByAge | src/app/page.tsx:15-21 | the recommended values stay within the table's range (24-34 °C, 12-22 lx, hys 0.7-1.5), 34 °C up to day 3 and 24 °C after day 21; the band-by-band statement is Dashboard.RecommendByAgeIsTable |
| Dashboard.RecommendByAgeIsTable | src/app/page.tsx:15-21 | the preset is the table entry of the age's band; the band limits are 3, 7, 14 and 21 days |
| Dashboard.RecommendByAgeMonotone | src/app/page.tsx:15-21 | an older flock never gets a higher recommended temperature, lux or hysteresis |
| Dashboard.ApplyPreset | src/app/page.tsx:52-57 | Apply sets the three setpoints to the preset of the current age and changes nothing else |
| Dashboard.ApplyPresetIdempotent | src/app/page.tsx:52-57 | applying twice is applying once |
| Dashboard.QuickPick | src/app/page.tsx:172-176 | the corrected quick-pick: the age becomes d and the setpoints become d's preset |
| Dashboard.QuickPickAsWritten | src/app/page.tsx:172-176 | the quick-pick as written: the age becomes d, but the preset applied is that of the previous age |
| Dashboard.QuickPickAsWrittenIsStale | src/app/page.tsx:172-176 | from age 0, the "14d" button leaves 34 °C where 30 °C is intended |
| Dashboard.QuickPickAsWrittenAgrees | src/app/page.tsx:172-176 | the written quick-pick does the intended thing exactly when the old and new ages are in the same band |
| Dashboard.TakeLast | src/app/page.tsx:71 | `slice(-n)` is the last min(n, length) elements |
| Dashboard.PushReading | src/app/page.tsx:71 | one tick: the new length is min(old + 1, 120), the new reading is last, and before it come the last readings of the old buffer, in order |
| Dashboard.PushReadingIsWindow | src/app/page.tsx:71 | one tick keeps the last 120 of the old buffer plus the new reading |
| Dashboard.PushAll | src/app/page.tsx:69-73 | after ticks with the readings xs, the buffer holds at most 120 readings and ends with the latest one; the full window is Dashboard.PushAllIsWindow |
| Dashboard.PushAllIsWindow | src/app/page.tsx:69-73 | after any number of ticks, the buffer is the last 120 readings of everything that arrived, in order |
| Dashboard.TakeLastAbsorbs | src/app/page.tsx:71 | trimming to 120 before appending more does not change the final window |
| Dashboard.SparkTemp | src/app/page.tsx:77 | the temperature sparkline is the time and temperature of the last 30 readings, in order |
| Dashboard.SparkLux | src/app/page.tsx:78 | the lux sparkline is the time and lux of the last 30 readings, in order |
| Dashboard.SparkOfBuffer | src/app/page.tsx:71-78 | the sparklines of the trimmed buffer equal those of the full history |
| Dashboard.Temps | src/app/page.tsx:84 | `rows.map(r => r.temp)`: one temperature per reading, in order |
| Dashboard.Luxes | src/app/page.tsx:85 | `rows.map(r => r.lux)`: one lux value per reading, in order |
| Dashboard.TempDev | src/app/page.tsx:81 | 0 with no reading; otherwise the setpoint plus the deviation is the latest temperature |
| Dashboard.LuxDev | src/app/page.tsx:82 | 0 with no reading; otherwise the setpoint plus the deviation is the latest lux |
| Dashboard.DevAfterPush | src/app/page.tsx:81-82 | after a tick, the deviations are the new reading's temperature and lux minus the setpoints |
| Dashboard.Slope | src/app/page.tsx:83 | the slope is 0 while the series has at most k points, and for k = 0; what it measures is Dashboard.SlopeIsSumOfSteps and Dashboard.SlopeBounded |
| Dashboard.SlopeIsSumOfSteps | src/app/page.tsx:83 | once there are more than k points, the slope is the sum of the last k single-step changes |
| Dashboard.SumOfStepsTelescopes | src/app/page.tsx:83 | the single-step changes of a series add up to its last point minus its first |
| Dashboard.SumOfStepsBounded | src/app/page.tsx:83 | when each single step is at most `step` in size, the sum of the steps is at most (number of steps) times `step` |
| Dashboard.SlopeBounded | src/app/page.tsx:83 | with single steps of at most `step` in size, the slope is at most k * step in size; it is 0 while the series has at most k points |
| Dashboard.ClassifyBadge | src/app/page.tsx:90-93 | Alert if and only if dev > hys or s > 0.6; OK only when abs(dev) <= hys/2 and abs(s) <= 0.3; the full case split is Dashboard.BadgeCases |
| Dashboard.BadgeCases | src/app/page.tsx:90-93 | Alert if and only if dev > hys or s > 0.6; otherwise Warn if and only if abs(dev) > hys/2 or abs(s) > 0.3; otherwise OK |
| Dashboard.BelowTargetNeverAlert | src/app/page.tsx:90-93 | with hys >= 0 and s <= 0.6, a deviation at or below target never gives Alert; beyond hys/2 below target it gives Warn (the targets and dashboard sliders keep hys between 0.2 and 2, but a negative hys can still arrive through an import such as `{"targets":{"hys":-1}}`, whose raw field wins the merge, or from a value already in storage; then the property does not hold) |
| Dashboard.BadgeMonotone | src/app/page.tsx:90-93 | a larger deviation above target, or a steeper rise, never gives a milder badge |
| Dashboard.TempBadge | src/app/page.tsx:95 | the temperature card shows Alert exactly when the latest reading is more than hys above the setpoint or the temperature rose by more than 0.6 over the last ten steps |
| Dashboard.LuxBadge | src/app/page.tsx:96 | the lux card shows Alert exactly when the latest lux is more than hys above the lux setpoint or the lux rose by more than 0.6 over the last ten steps |
| Dashboard.BadgeDisplayDistinct | src/app/page.tsx:90-93 | the three badges have three different labels and three different style classes |
| Dashboard.CardsShowBadges | src/app/page.tsx:95-113 | the temperature card reads "Alert", styled "badge-danger", exactly when the latest reading is more than hys above the setpoint or the trend is above 0.6; likewise the lux card |
| Dashboard.BadgesWithoutTrend | src/app/page.tsx:81-96 | up to ten readings there is no trend, so the badges depend on the deviation alone; with no reading they show OK exactly when hys >= 0 |
| Chat.Conversation | src/app/api/chat/route.ts:13 | the filtered list is no longer than the input, and every entry is a non-system message of the input |
| Chat.ConversationAppend | src/app/api/chat/route.ts:13 | the filter distributes over concatenation, so the order of the kept messages is preserved |
| Chat.ConversationKeeps | src/app/api/chat/route.ts:13 | every non-system message is kept |
| Chat.ConversationLength | src/app/api/chat/route.ts:13 | the filter removes exactly the system messages |
| Chat.EndsWithUser | src/app/api/chat/route.ts:14 | an accepted conversation is not empty and its last entry goes out as a "user" entry; the whole 400 condition is Chat.BadRequestExactly |
| Chat.ToContent | src/app/api/chat/route.ts:18-21 | "assistant" becomes "model" and every other role "user"; the only part is the message content |
| Chat.ToContents | src/app/api/chat/route.ts:18-21 | one entry per message, in order |
| Chat.ContentsRoundTrip | src/app/api/chat/route.ts:18-21 | a conversation of user and assistant messages can be recovered exactly from its converted form |
| Chat.ModelUrl | src/app/api/chat/route.ts:23-24 | the URL is the service address, then the model name, then ":generateContent?key=", then the key, each recoverable at its position |
| Chat.Prepare | src/app/api/chat/route.ts:4-24 | an unreadable body gives 500; then a missing or empty key gives 500; then a conversation that is empty or does not end with a user message gives 400; otherwise the request carries the converted conversation, and its URL names `GEMINI_MODEL`, or the default model when that is unset or empty |
| Chat.ReplyText | src/app/api/chat/route.ts:38-39 | the reply text is the join of the first candidate's parts, and "" when any step of the path (candidates, the first candidate, its content, its parts) is missing |
| Chat.JoinTexts | src/app/api/chat/route.ts:39 | parts that all lack text (or carry "") join to ""; one part joins to its own text |
| Chat.JoinTextsAppend | src/app/api/chat/route.ts:39 | joining is concatenation, part by part, in order |
| Chat.JoinTextsOfTexts | src/app/api/chat/route.ts:39 | when every part has text, the joined text is those texts concatenated in order, with their total length, starting with the first |
| Chat.Post | src/app/api/chat/route.ts:2-45 | an early response is returned as is; a forwarded request gives 502 exactly when the service answered with an error status, and the reply text exactly when it answered; the answer is 500 exactly when the body was unreadable, the key was missing, or the forwarded call threw; 200 exactly for the reply text |
| Chat.UpstreamMessage | src/app/api/chat/route.ts:34 | the 502 text `Upstream ${status}: ${errText}` is 11 characters longer than the status digits and the error text together, and ends with the error text; the full layout is Chat.UpstreamErrorText |
| Chat.UpstreamErrorText | src/app/api/chat/route.ts:32-35 | the 502 text is "Upstream ", the service's status in decimal (which reads back as that status), ": " and the service's error text |
| Chat.Falsy | src/app/api/chat/route.ts:9-10 | `!key` and the fallback of an unset or empty `GEMINI_MODEL` to the default model: an unset value is falsy, and a value that is not falsy is a non-empty string; its use is Chat.MissingKeyFirst and Chat.Prepare |
| Chat.MissingKeyFirst | src/app/api/chat/route.ts:8-10 | without a key the answer is 500, whatever the messages are |
| Chat.BadRequestExactly | src/app/api/chat/route.ts:6-16 | the answer is 400 if and only if the body was read, the key is set, and the non-system messages are empty or do not end with a user message; a missing `messages` counts as empty |
| Chat.ForwardedContents | src/app/api/chat/route.ts:13-21 | a forwarded request has one entry per non-system message, ending with a user entry, each the converted message |
| Decimal.ParseNatToString | src/app/settings/page.tsx:94 | the numeral of n reads back as n |
| Decimal.NatToStringInjective | src/app/settings/page.tsx:94 | distinct indices have distinct numerals, so spreading an array loses no item |
| Json.Member | src/app/settings/page.tsx:97-110 | `v?.k` gives a value exactly when v is an object with own key k |

## Left out

- The control and alert engine (duty mapping, ramps, start boost, gamma, invert, the night and quiet caps, alert timers): no file of the application implements it.
- `localStorage`: reads, writes, and the dashboard's setpoint sink (src/app/settings/page.tsx:194-199, src/app/page.tsx:42-51). Browser storage is I/O. `Settings.Load` takes the stored text and its parse result as parameters, and a failing write inside `useLocal` is not modelled.
- JSON.parse, JSON.stringify, `Number` and `parseInt`: library conversions. The parsed value, or its absence, and the numbers are inputs. NaN and the text form of numbers are not modelled.
- `exportJSON`, the clipboard, and the two `alert(...)` messages of `importJSON` (src/app/settings/page.tsx:230 and 232): UI I/O only. `Settings.ImportJson` models the record each branch leaves.
- The `fetch` call, the `Response` objects, and the models and diag routes: network and environment I/O. The environment variables and the upstream outcome are parameters of `Chat.Post`.
- Chat.Post: messages are typed as records with a string role and a string content, so these cases are not modelled:
  - a role that is not a string: it is kept by the filter and sent as "user";
  - a content that is not a string: it goes into `parts[0].text` unchanged;
  - a `null` entry in `messages`, or a `messages` value that is not an array: reading it throws, and the handler answers with the catch-all 500.
- A thrown value without a `message` is not modelled either.
- Chat.ReplyText: the service's reply is typed as well, so these cases are not modelled:
  - `candidates: [null]`: this gives "";
  - a `null` entry in `parts`, or a `parts` value that is not an array: this throws and ends in the catch-all 500;
  - a part text that is not a string: `join` converts it to a string.
- Dashboard.ClassifyBadge, Dashboard.Slope, Dashboard.TempDev, Dashboard.LuxDev, Dashboard.TempBadge and Dashboard.LuxBadge compute in exact `real` arithmetic. The page uses IEEE doubles, which round the subtractions and cannot represent the literals 0.3, 0.6 and 0.7 exactly, so at a threshold the two can differ:
  - with tempSet 27, hys 0.7, a latest reading of 27.35 and a flat trend, the double difference is 0.3500000000000014 > 0.35, so the page shows Warn where the model gives OK;
  - a rise from 27.31 to 27.91 is 0.6000000000000014 in doubles, so the page shows Alert where the model gives Warn.
- Json.Member: reads of built-in property names and index numerals are not modelled. The model only reads group names and "mqtt".
- The `gen` simulator: it uses the clock, randomness and `Math.sin`.
- The chart domain (src/app/page.tsx:87-88): float floor and ceil, and the NaN fallbacks.
- The interval timer and the `running` flag: timing. A tick is modelled as `Dashboard.PushReading`.
- `src/app/api/data/route.ts`, the chat page, the layout and the theme toggle: storage behind HTTP, and UI plumbing.
- Dashboard.TakeLast: modelled only for n > 0, the only counts the page passes (119 and 30). JavaScript's `slice(-0)` returns the whole array.

## Findings

| source | as written | input that shows it | evidently intended | confidence | as-written member | corrected member |
|---|---|---|---|---|---|---|
| src/app/page.tsx:173 | the quick-pick buttons call `setAgeDays(d); setTimeout(applyPreset, 0)`; the `applyPreset` passed to the timer is the closure of the render in which the button was clicked, so it reads the previous age | age field at 0, click "14d": the setpoints become 34 / 22 / 1.5 | the preset of the picked age, here 30 / 18 / 1.0 | not executed | Dashboard.QuickPickAsWritten (shown by Dashboard.QuickPickAsWrittenIsStale) | Dashboard.QuickPick |
