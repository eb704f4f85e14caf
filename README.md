# Access bot: user status store and command handlers

This project models the core of a Telegram bot that gates a link to a web game
behind membership of two channels: a main channel and a verification
("postback") group. Each user has a record of three flags:

- `subscribed`: the user is in the main channel;
- `verif_joined`: the user is in the verification group;
- `registered`: the user has qualified at least once.

Module `Store` (`store.dfy`) is the SQLite table `users`. It is a class
`UserStore` holding a `map<int, Record>`. Its methods are the five store
functions: four of them update the map in place; `GetUserStatus` only reads it. The same writes are also values of
`StoreOp`, and `Apply` / `ApplyAll` give their meaning. The handlers and the
run lemmas reason about sequences of writes through that meaning.

Module `Bot` (`bot.dfy`) holds the handlers `/start`, `/gameslot`, free text
and the admin-only `/check`. A membership lookup on the chat platform is an
input of type `Lookup`: a status string, or `Failed` for a lookup that raised.
A reply is a returned `Reply` value.

- `Start` and `HandleMessage` are methods on the store. Each is proved to
  perform exactly the writes of `StartOps` / `MessageOps`, in the code's order,
  and to give the reply of `StartReply` / `MessageReply`.
- The lemmas state what those writes mean for the user's record.
- `Gameslot` never touches the store, so it is a function of its lookup.
- `Check` only reads the store.
- `Run` folds a sequence of inbound updates. It shows that `registered`, once
  true, survives every later update.

## Model

| member | source | states |
|---|---|---|
| `Store.UserStore.constructor` | db_sqlite.py:7-19 | A new store holds an empty table. |
| `Store.UserStore.AddUser` | db_sqlite.py:21-26 | After the call the user has a row. A new user's row is all-false (the column defaults). An existing row, and every other row, is unchanged. |
| `Store.UserStore.UpdateSubscription` | db_sqlite.py:28-33 | For an existing row, `subscribed` becomes the given value and the other two fields keep their values. No other row changes. No row is added. An absent user leaves the table unchanged. |
| `Store.UserStore.UpdateVerification` | db_sqlite.py:35-40 | For an existing row, `verif_joined` becomes the given value and the other two fields keep their values. No other row changes. An absent user leaves the table unchanged. |
| `Store.UserStore.MarkRegistered` | db_sqlite.py:42-47 | For an existing row, `registered` becomes true and the other two fields keep their values. No other row changes. An absent user leaves the table unchanged. |
| `Store.UserStore.GetUserStatus` | db_sqlite.py:49-61 | Returns exactly the stored fields of a present user, and all three false for an absent one. A missing row is not an error, and the store is not modified. |
| `Store.Apply` | db_sqlite.py:21-47 | A single write adds a key only when it is an insert. It leaves every other user's row as it was and never clears `registered`. |
| `Store.ApplyAll` | db_sqlite.py:21-47 | Over any sequence of writes: no row is removed, `registered` never goes from true to false, and a user no write names keeps their row, or their absence of one. |
| `Store.AddIdempotent` | db_sqlite.py:25 | Inserting the same user twice gives the same table as inserting once. |
| `Store.UpdateOfAbsentUserIsNoop` | db_sqlite.py:28-47 | An update or `mark_registered` on a user with no row creates no row and changes nothing, because an `UPDATE ... WHERE` that matches no row writes nothing. |
| `Bot.IsMember` | bot.py:29 | Holds for exactly "member", "administrator" and "creator"; the same test decides both lookups of `/start` (bot.py:34) and the one of `/gameslot` (bot.py:79). |
| `Bot.AccessReply` | bot.py:46-68 | The three-way access decision is total. Both flags give the game link. Only `subscribed` gives the discussion prompt. No `subscribed` gives the subscribe prompt. Each is an if-and-only-if. |
| `Bot.Start` | bot.py:19-68 | Performs exactly the writes of `StartOps`, in order: insert; overwrite `subscribed`; overwrite `verif_joined`; mark registered for a verification member. A failed lookup cuts the sequence short. The reply is that of `StartReply`. |
| `Bot.StartSucceeds` | bot.py:24-68 | When both lookups succeed, the user has a row afterwards, with `subscribed` equal to the main-channel predicate and `verif_joined` equal to the verification predicate. `registered` is true for a verification member and otherwise keeps its prior value. The reply is the game link iff both predicates hold, the discussion prompt iff only the main one does, and the subscribe prompt otherwise. |
| `Bot.StartLookupFails` | bot.py:24-44 | On a failed lookup the reply is the generic error. If the main lookup failed, only the insert happened. If the verification lookup failed, `subscribed` has already been written, while `verif_joined` and `registered` are unchanged. |
| `Bot.StartOnlyTouchesCaller` | bot.py:24-39 | `/start` leaves every other user's row, or their absence of one, unchanged. |
| `Bot.Gameslot` | bot.py:72-91 | Grants the direct link iff the verification lookup succeeds with a member status. A non-member is denied. A failed lookup gets its own error. The store is neither read nor written. |
| `Bot.HandleMessage` | bot.py:95-111 | Performs exactly the writes of `MessageOps` and gives the reply of `MessageReply`, both computed from the status stored before the call. |
| `Bot.MessageEffect` | bot.py:97-111 | The user is marked registered exactly when the normalised text is the trigger and both stored flags hold. Only that row's `registered` changes, and the reply is the game link. The trigger without both flags gets the not-yet prompt. Any other text gets the fixed fallback. In both of those cases the store is unchanged. |
| `Bot.Check` | bot.py:115-128 | A caller other than the admin gets no reply. The admin gets a report on the argument's user, or on themself when no argument is given. The report holds exactly that user's stored flags, all false for an unknown user. A target outside the signed 64-bit range gets no reply, because binding it in the store lookup raises (db_sqlite.py:53) and the handler does not catch it. The store is not modified. |
| `Bot.ReportText` | bot.py:123-124 | The report starts with its header and then the target's id in decimal. |
| `Bot.ReportShowsEachFlag` | bot.py:123-128 | After the header the report carries one ✅/❌ mark per stored field, in the f-string's order (subscription, verification, registration), so the three flags read back from it exactly. |
| `Bot.Mark` | bot.py:125-127 | One character: ✅ exactly when the flag is true, ❌ exactly when it is false. |
| `Bot.CheckTarget` | bot.py:120 | The argument when one is given, else the caller. |
| `Bot.Digits` | bot.py:124 | The target id's digits are non-empty decimal digits without a leading zero. |
| `Bot.DigitsRoundTrip` | bot.py:124 | The decimal digits of a number read back as that number. |
| `Bot.IntText` | bot.py:124 | The written id is non-empty and starts with a minus sign exactly when the id is negative. |
| `Bot.ReplyText` | bot.py:43-128 | Every reply has non-empty text except `NoReply`, the case where `/check` sends nothing. |
| `Bot.Dispatch` | bot.py:139-142 | Routing an update to its handler performs exactly that update's writes; `/gameslot` and `/check` perform none. The reply is that handler's: `StartReply`, `Gameslot`, `MessageReply`, or `/check`'s admin-gated report, with no reply for non-admins and out-of-range targets. |
| `Bot.Run` | bot.py:139-145 | Across any run of updates, no user loses their row and a registered user stays registered. |
| `Bot.VerifiedUserStaysRegistered` | bot.py:33-39 | After a `/start` that finds the user in the verification group, the user is registered. They stay registered through any later updates, including ones that set `verif_joined` back to false. |

## Left out

- The chat platform client is not modelled: `get_chat_member`, `reply_text`, keyboards and async/await. Lookups are inputs and replies are returned values. The discussion link comes from configuration and is not carried by `JoinDiscussion`.
- The text normalisation `strip().lower()` on Unicode text is not modelled. The free-text handler takes the already-normalised text.
- Parsing the `/check` argument with `int(...)` is not modelled, nor the failure it raises on non-numeric text. The argument is an optional integer.
- `ADMIN_ID` and the channel ids come from a configuration module, which is not part of this model. The admin id is a parameter of `Check` and `Dispatch`, assumed to be an integer like the caller's id.
- SQLite itself is not modelled: connections, SQL text, commits and schema creation. Only the table's map semantics is. A store error inside `/start`'s `try` block would also be caught and answered with the generic error; the model covers only lookup failures there.
- `Store.UserStore.GetUserStatus`, like the other store methods, does not model the error SQLite raises when an id outside the signed 64-bit range is bound. The handlers pass the caller's platform id, which fits. The one user-supplied id, the `/check` argument, is range-checked in `Bot.Check` before the lookup.
- `Store.UserStore.constructor` models `init_db` on a fresh database (an empty table). On an existing database `CREATE TABLE IF NOT EXISTS` keeps the rows, which the model does not represent.
- Logging, and the `ApplicationBuilder` / `run_polling` bootstrap (bot.py:131-145), are not modelled beyond the routing in `Dispatch`.
- The defaults `status=True` of `update_subscription` and `update_verification` are not modelled: every caller passes the value explicitly.
- `/start` does not roll back after a failed lookup. The insert stays. When only the second lookup fails, the `subscribed` write stays too. `Bot.StartLookupFails` states what is written.
