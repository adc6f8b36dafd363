# NexaPicks entitlement ledger in Dafny

This project models the bookkeeping inside the NexaPicks Telegram bot (`mayn.py`). The bot sells
subscription plans and individual betting tips. An admin checks each payment by hand and then
records it with a command. The bot keeps one document with three collections:

- `users`: one record per user, with an optional subscription end;
- `tips`: the tips on sale, filed under `tip_<unix seconds>`;
- `purchases`: tip purchases, filed under `<user id>_<tip id>`.

The model covers what the command handlers do to that document:

- `/start` registers a user once.
- `/verificar` applies a paid plan (basico 7 days, combinada 15, mensual 30). While the
  subscription is still running, the days are added to its end. Otherwise they are added to now.
- `/estado` classifies a user as not registered, active, expired or never subscribed.
- `/stats` counts users, active subscribers, tips, purchases and users per last plan, and
  estimates revenue.
- `/creartip` files a tip under the key of the current second.
- `/comprartip` checks whether a user may buy a tip.
- `/verificartip` records a purchase, overwriting any earlier one under the same key.
- `/enviartip` sends a message to every active subscriber and counts the sends that succeed.

Modules:

- `Wrappers` (Wrappers.dfy): `Option` and `Result`.
- `Text` (Text.dfy): ASCII lower-casing, joining words with single spaces (with the split that
  undoes it), and decimal rendering of integers (with the parse that undoes it).
- `Plans` (Plans.dfy): the plan table, the plan names and prices in euro cents.
- `Ledger` (Ledger.dfy): the records, and the rules as functions over the three maps, with lemmas
  about them.
- `BotStore` (Store.dfy): class `Store` with the three maps as fields. Its methods are the
  handlers that change them. Each method's postcondition gives the new maps in terms of the
  `Ledger` functions. Each mutating method also keeps the document invariant `Valid()`: every tip
  is filed under the key of its creation second, and every purchase under its own user/tip key,
  for a tip that exists.

Time is a single integer `now`, in whole seconds; one day is `DAY` = 86400 seconds.

The model follows the code, including where stricter behaviour might be expected:

- `/verificartip` does not reject a repeated purchase. It overwrites the entry under that key.
  Only `/comprartip`, which records nothing, refuses a purchase that already exists.
- Tip identifiers are not unique. Two tips created in the same second share a key, and the
  second replaces the first.
- Purchase keys are not a true composite key. `"1_tip" + "_" + "5"` and `"1" + "_" + "tip_5"`
  give the same key. The handlers never produce such a pair: `/verificartip` records only
  purchases of existing tips, `/creartip` files tips only under `tip_<seconds>`, and for those
  keys the user and the second are recovered whatever the user identifier holds. Keys collide
  only for a tip key not of that form, which only a hand-edited saved document can hold.
- Nothing writes `last_plan`. The per-plan counts, and so the revenue estimate, therefore never
  change through any handler: neither registration nor a verified payment moves them.

## Model

| member | source | states |
|---|---|---|
| `Text.Lower` | mayn.py:180 | lower-casing keeps the length and lower-cases every ASCII capital, leaving no capital behind |
| `Text.LowerIdempotent` | mayn.py:180 | lower-casing an already lower-cased plan name changes nothing |
| `Text.JoinWords` | mayn.py:307 | no words give the empty text, one word gives itself, and the joined text starts with the first word and holds a space once there are two words |
| `Text.IntToString` | mayn.py:309 | the decimal text of an integer is never empty and starts with `-` exactly when the integer is negative |
| `Text.SplitJoinWords` | mayn.py:307 | joining command arguments with single spaces loses nothing: splitting at the spaces gives the arguments back |
| `Text.NatToStringRoundTrip` | mayn.py:309 | reading back the decimal digits of a number of seconds gives that number |
| `Text.IntToStringRoundTrip` | mayn.py:309 | parsing Python's `str` of an integer, sign included, gives the integer back |
| `Text.IntToStringInjective` | mayn.py:309 | two integers have the same decimal text exactly when they are equal |
| `Text.NoUnderscoreInInt` | mayn.py:309 | the decimal text of an integer, the seconds part of a tip key, holds no `_` |
| `Plans.PlanName` | mayn.py:183-187 | every plan name is already in lower case, so lower-casing a typed name can reach it |
| `Plans.Days` | mayn.py:183-187 | every plan buys between 7 and 30 days |
| `Plans.PriceCents` | mayn.py:273 | every plan price lies between 3.99 and 29.99 euros |
| `Plans.EstimatedRevenue` | mayn.py:273 | the estimate lies between 3.99 and 29.99 euros per counted user |
| `Plans.ParsePlan` | mayn.py:180-191 | a typed name is accepted exactly when its lower-case form is a plan name, and then yields that plan |
| `Plans.ParsePlanName` | mayn.py:183-187 | each plan's own name is accepted and gives that plan back |
| `Plans.ParsePlanIgnoresCase` | mayn.py:180 | a name and its lower-case form are accepted or rejected alike |
| `Ledger.NewUser` | mayn.py:41-47 | a new record keeps the given profile and creation time, has 0 referrals and no last plan, and is active at no time |
| `Ledger.IsActive` | mayn.py:258-260 | a subscription is active exactly when its end exists and now is at least one second before it; one never bought, or at its end second, is inactive |
| `Ledger.ActiveIds` | mayn.py:258-260 | the active users are exactly the recorded users whose end is present and strictly after now |
| `Ledger.Register` | mayn.py:39-48 | a known user's record is left as it was; an unknown user gets exactly a new record (profile given, no end, 0 referrals, no last plan, created now); no other record changes |
| `Ledger.RegisterKeepsPlanCounts` | mayn.py:41-47 | registration writes no last plan, so every per-plan count stays as it was |
| `Ledger.RegisterIdempotent` | mayn.py:40 | a second registration changes nothing, whatever profile or time it carries |
| `Ledger.RegisterKeepsActive` | mayn.py:40-47 | registration makes nobody active |
| `Ledger.ExtendedEnd` | mayn.py:205-214 | the new end is the later of now and the current end, plus the plan's days; it is at least 7 days after now, never earlier than the old end plus the plan's days, and active at now |
| `Ledger.ExpiredExtendsLikeNew` | mayn.py:211-214 | extending an expired subscription (end at or before now) gives the same end as extending one that never existed |
| `Ledger.ActiveForWholePlan` | mayn.py:205-214 | after a payment the user is active at every instant up to the full plan length after now |
| `Ledger.ExtensionsAdd` | mayn.py:207-210 | two payments recorded at the same instant stack: their days add up, in either order |
| `Ledger.ExtensionMonotoneInTime` | mayn.py:205-214 | recording the same payment later never gives an earlier end |
| `Ledger.RenewalScenario` | mayn.py:205-214 | a month from t0, a week added at t0+10d ending at t0+37d, then a fortnight at t0+40d ending at t0+55d |
| `Ledger.CurrentEnd` | mayn.py:205 | the end read before a payment is the recorded user's end, and absent for a user with no record |
| `Ledger.ApplyExtension` | mayn.py:195-216 | the target record is created with empty fields when missing; only its subscription end changes, to the extended end; every other user is unchanged |
| `Ledger.ExtensionActivatesOnlyTarget` | mayn.py:195-216 | after a payment the active users are the ones before plus the target user, and nobody else |
| `Ledger.Classify` | mayn.py:135-165 | not registered iff no record; active iff the user is among the active users; never subscribed iff the end is absent; expired means the end is at or before now |
| `Ledger.ExpiredAtEnd` | mayn.py:142-144 | a subscription reads as expired at its end second and as active one second earlier |
| `Ledger.ExtensionShowsActive` | mayn.py:142-144 | right after a payment the user's status is active with the new end |
| `Ledger.TipId` | mayn.py:309 | a tip key is `tip_` followed by the creation second's text, whose first character is `-` exactly when that second is negative |
| `Ledger.TipIdReadsBack` | mayn.py:309 | the text after `tip_` reads back as the second the tip was created in |
| `Ledger.TipIdSameSecond` | mayn.py:309 | two tip keys coincide exactly when the tips were created in the same second |
| `Ledger.PurchaseKey` | mayn.py:356 | a purchase key is the user identifier, one `_`, then the tip key, and nothing else |
| `Ledger.PurchaseKeySeparator` | mayn.py:356 | without `_` in the user identifier, the key's first `_` is the one right after it |
| `Ledger.PurchaseKeyInjective` | mayn.py:356 | purchase keys of user identifiers without `_` determine both the user and the tip |
| `Ledger.PurchaseKeyOfFiledTipInjective` | mayn.py:405 | for tips filed under `tip_<seconds>`, the purchase key determines the user and the second, whatever the user identifier holds |
| `Ledger.PurchaseKeyCollision` | mayn.py:405 | with an `_` in a typed user identifier and a tip key not of the `tip_<seconds>` form, two different user/tip pairs get the same key |
| `Ledger.ComprarTip` | mayn.py:341-361 | no argument gives a usage error; an unknown tip is refused; a purchase already recorded under the user/tip key is refused; the tip is returned exactly when there is an argument naming a known tip and no purchase under the user/tip key |
| `Ledger.PlanIds` | mayn.py:266-271 | the users counted for a plan are exactly the recorded users whose last plan has that name |
| `Ledger.PlanCountsBounded` | mayn.py:266-271 | the three per-plan counts add up to at most the number of users |
| `Ledger.ComputeStats` | mayn.py:257-273 | the user, tip and purchase totals are the sizes of the three collections, the active count is the size of the active set, each plan count is the number of users whose last plan it is, and the revenue is the estimate from those three counts |
| `Ledger.StatsBounded` | mayn.py:257-273 | the report counts no more active subscribers than users and no more plan buyers than users, and estimates at most 29.99 euros per user |
| `Ledger.StatsReport` | mayn.py:253-273 | non-admins are refused; admins get exactly the computed statistics, which count no more active users than users |
| `Ledger.ExtensionKeepsPlanCounts` | mayn.py:266-271 | a payment changes no per-plan count, so it leaves the revenue estimate unchanged |
| `Ledger.RevenueFromLastPlanOnly` | mayn.py:266-273 | two users whose last plan is basico give 7.98 euros, however often they renewed |
| `BotStore.Store.TipsFromDistinctSeconds` | mayn.py:309-318 | in a valid document no two tips were created in the same second |
| `BotStore.Store.OnePurchasePerUserAndTip` | mayn.py:405-411 | in a valid document a user holds at most one purchase record per tip |
| `BotStore.Store.constructor` | mayn.py:21-25 | the document without a saved file holds three empty collections and is valid |
| `BotStore.Store.Start` | mayn.py:35-48 | the users map becomes `Register` of the old one; validity is kept |
| `BotStore.Store.Verificar` | mayn.py:170-217 | non-admin, fewer than two arguments or an unknown plan are refused and change nothing (no record is created); otherwise the reply is the extended end and the users map becomes `ApplyExtension` of the old one |
| `BotStore.Store.CrearTip` | mayn.py:296-320 | non-admin or fewer than three arguments are refused and change nothing; otherwise the tip (odds, price, remaining words joined by spaces, now) is filed under `tip_<now>`, the tip count grows by one exactly when that key was new, and validity is kept |
| `BotStore.Store.VerificarTip` | mayn.py:388-415 | non-admin, fewer than two arguments or an unknown tip are refused and change nothing; otherwise the purchase is written under the user/tip key, overwriting any earlier one, so the key set gains exactly that key; validity is kept |
| `BotStore.Store.EnviarTip` | mayn.py:436-464 | non-admin or no words are refused; otherwise the message is the joined words and the recipients and count are those of `SendToActive` |
| `BotStore.Store.SendToActive` | mayn.py:448-460 | the users tried are exactly the active users, those reached are the active users that are reachable, and the count is their number, at most the active count and the user count |
| `BotStore.PurchaseScenario` | mayn.py:340-415 | after a tip is created, a first `/comprartip` is accepted; once `/verificartip` has recorded it a second is refused, and a second `/verificartip` leaves one purchase |
| `BotStore.BuyTwice` | mayn.py:340-415 | on a document with the tip and no purchases: the first ask returns the tip, the ask after recording is refused, and recording twice leaves one purchase and the tips unchanged |

## Left out

- Telegram transport: replies, `send_message`, `create_chat_invite_link` and the handler wiring.
  These are calls into the messaging library. `/verificar` creates its invite link after the
  change is made, and a failure there only produces an error reply; the model stops at the change.
- Message texts and Markdown formatting, and the display-only handlers `/help`, `/pagar` and
  `/tips`.
- JSON persistence (`load_db`, `save_db`). The model keeps the document in memory. In the code,
  a save follows each change.
- A saved document may lack `tips` or `purchases`. The code then treats the collection as empty
  or creates it empty. The model always holds all three maps, which behaves the same.
- The clock. Each command uses one integer `now`, in whole seconds. The code reads
  `datetime.now()` several times within one command, and its timestamps are ISO-8601 strings
  with microseconds in local time, while tip keys use Unix seconds. A record whose end is not a
  valid ISO string would make the code raise; the model's ends are always integers.
- The `days_left` figure in `/estado` (mayn.py:145). It only feeds the reply text.
- The admin check (mayn.py:171 and the other handlers) compares the caller with an environment
  variable. The model takes it as a `fromAdmin` flag and returns `NotAdmin` when it is false.
- Python's `str.lower` handles all of Unicode. The model lower-cases ASCII letters only. This
  does not change which plan names are accepted. The only non-ASCII characters whose lower-case
  form contains an ASCII letter are U+212A (to `k`) and U+0130 (to `i` plus a combining dot), and
  neither can produce a plan name.
- Revenue is computed in floating point in the code. The model computes it in integer euro
  cents (399, 799, 2999).
- Send failures in `/enviartip` are a `reachable` set given as a parameter. The model sends in an
  unspecified order, not in the dictionary's insertion order; the order only affects when each
  message goes out.
