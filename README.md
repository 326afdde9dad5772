# YCCU moderation bot: a Dafny model of its working core

This project models the parts of the YCCU chat-moderation bot that hold real logic, and proves what they promise:

- **Case ids and the configuration store** (`mongo.dfy`, `metadata.dfy`). The bot's document-store client has three operations:
  - `get_metadata` lazily creates the single guild configuration document.
  - `update_metadata` applies a `$set` and then replaces the bot's cached configuration wholesale.
  - `generate_modlog_id` hands out the largest stored `case_id` plus one, or 1 when there are no cases.

  Collections are sequences of documents in the store's natural order. Operations run one at a time.
- **Moderation cases** (`modlog.dfy`): the frozen `Modlog` record, its `until` instant and its strict `is_expired` test. Times and durations are integers in one fixed unit.
- **The paginator** (`paginator.dfy`): a view with four buttons and a current page. Four handlers move the page. `update_buttons` derives each button's `disabled` flag from the page. Only the author may use a paginator that has one.
- **Role buttons** (`roles.dfy`): pressing a button toggles one role on the member and answers with a green or red embed. A role view builds one button per role up to a cap.
- **Embed helpers** (`embed.dfy`): field length, forwarding a field to the embed, and reversing the field list in place.
- **The duration error** (`errors.dfy`): the fixed message built around the rejected token.

`wrappers.dfy` holds the `Option` type used for Python's `X | None`.

## Model

| member | source | states |
|---|---|---|
| `Errors.Message` | core/errors.py:6-7 | The message is a backtick, the token, a backtick, then the fixed suffix. It is 45 characters longer than the token, and the token sits at index 1. |
| `Errors.TokenRoundTrip` | core/errors.py:3-7 | The stored token can be read back out of the message unchanged. |
| `Errors.MessageInjective` | core/errors.py:6-7 | Two errors with the same message carry the same token: the message depends on the token and nothing else. |
| `Modlogs.Until` | core/modlog.py:33-35 | `until` is `created + duration`. It has no contract of its own; see `UntilIsCreatedPlusDuration`. |
| `Modlogs.IsExpired` | core/modlog.py:37-39 | `is_expired` is `until < now`, with the bot's clock reading as `now`. It has no contract of its own; see `ExpiredIffStrictlyPast`, `ExpiryMonotone` and `ExpiryIgnoresOtherFields`. |
| `Modlogs.ExpiredIffStrictlyPast` | core/modlog.py:37-39 | A case is expired iff `created + duration < now`. At `now == until` it is not expired. |
| `Modlogs.ExpiryMonotone` | core/modlog.py:37-39 | Once expired at time t, a case is expired at every later time. |
| `Modlogs.UntilIsCreatedPlusDuration` | core/modlog.py:33-35 | `until` lies exactly `duration` after `created`. With zero duration, `until == created`. |
| `Modlogs.ExpiryIgnoresOtherFields` | core/modlog.py:12-39 | Two cases with the same `created` and `duration` agree on expiry at every time, whatever their flags, type and ids. |
| `Embeds.Length` | core/embed.py:19-20 | `len(field)`. It has no contract of its own; see `LengthCountsNameAndValue`. |
| `Embeds.LengthCountsNameAndValue` | core/embed.py:15-20 | A field's length is the length of its rendered name plus the length of its rendered value. Changing `inline` does not change it. |
| `Embeds.InlineByDefault` | core/embed.py:17 | A field built without an `inline` argument is inline. |
| `Embeds.Reversed` | core/embed.py:30-32 | Reversing keeps the field count. |
| `Embeds.ReversedAt` | core/embed.py:30-32 | Reversing moves the element at index k to index n-1-k. |
| `Embeds.ReversedTwice` | core/embed.py:30-32 | Reversing twice restores the original order. |
| `Embeds.CustomEmbed.AddCustomField` | core/embed.py:27-28 | Appends a field with the given field's name, value and inline flag unchanged. The list is created if absent. Returns the same embed. |
| `Embeds.CustomEmbed.ReverseFields` | core/embed.py:30-34 | An existing field list is replaced by its reversal. With no field list nothing changes and nothing fails. |
| `Embeds.ReverseFieldsTwice` | core/embed.py:30-34 | Two calls of `reverse_fields` leave the embed's fields as they were. |
| `Metadata.Get` | core/metadata.py:10-38 | Every field of the configuration record, read as a stored value, has the type its annotation declares. |
| `Metadata.GetDetermines` | core/metadata.py:10-38 | Two records that agree on every named field are the same record. |
| `Mongo.Defaults` | core/mongo.py:77-103 | In the inserted default document every channel id, role id, `activity`, `greeting` and `appeal_url` is null, and every list field is empty. |
| `Mongo.Apply` | core/mongo.py:111-116 | The `$set` of the keyword arguments on one record. It has no contract of its own; see `ApplyChangesExactlyNamed`, `ApplyNothing` and `ApplyIdempotent`. |
| `Mongo.ApplyChangesExactlyNamed` | core/mongo.py:109-116 | After `$set` each named field holds its new value and every other field keeps its old value. |
| `Mongo.ApplyNothing` | core/mongo.py:109-116 | A `$set` naming no field leaves the record unchanged. |
| `Mongo.ApplyIdempotent` | core/mongo.py:109-116 | Applying the same `$set` twice gives the same record as applying it once. |
| `Mongo.MaxCaseId` | core/mongo.py:122-125 | The document that sorts first by `case_id` descending holds a stored `case_id` that no stored `case_id` exceeds. |
| `Mongo.NextCaseId` | core/mongo.py:120-126 | The result is 1 on an empty collection. It is strictly greater than every stored `case_id`. On a non-empty collection it is one more than some stored `case_id`, i.e. the largest plus one. |
| `Mongo.NextAfterInsert` | core/mongo.py:120-126 | Storing a case under the allocated id makes the next allocation exactly one larger. |
| `Mongo.AllocationRun` | core/mongo.py:120-126 | n sequential allocate-then-insert rounds hand out n ids. |
| `Mongo.AllocationRunConsecutive` | core/mongo.py:120-126 | Sequential rounds hand out consecutive ids, starting at the first free one. |
| `Mongo.AllocationFromEmpty` | core/mongo.py:120-126 | From an empty collection, n rounds yield exactly 1..n in order, with no gaps or repeats. |
| `Mongo.CustomBot.constructor` | core/bot.py:65 | A new bot has no cached configuration. |
| `Mongo.MongoDBClient.constructor` | core/mongo.py:37-54 | The client keeps its bot and starts from the given collection contents. |
| `Mongo.MongoDBClient.GetMetadata` | core/mongo.py:73-107 | On an empty collection, inserts exactly one default document and returns the defaults. Otherwise writes nothing and returns the first document without its `_id`. |
| `Mongo.GetMetadataTwice` | core/mongo.py:73-107 | A second `get_metadata` inserts nothing more and returns what the first call returned. |
| `Mongo.MongoDBClient.UpdateMetadata` | core/mongo.py:109-118 | With a document present, only the first document changes, by exactly the `$set`. The bot's cache becomes the whole updated record. With no document the call fails (`ok` false) and nothing changes. |
| `Mongo.MongoDBClient.GenerateModlogId` | core/mongo.py:120-126 | Reads only. Returns 1 on an empty collection and otherwise the largest stored `case_id` plus one, strictly above every stored id. |
| `Paginators.DisabledAt` | components/paginator.py:28-29 | First and previous are disabled iff the page is 1, and next and last iff it is `len(embeds)`. It has no contract of its own; `Paginator.Valid` ties the child flags to it, see `Paginator.UpdateButtons`. |
| `Paginators.Press` | components/paginator.py:36-54 | The page each handler moves to: 1, one less, one more, `len(embeds)`. It has no contract of its own; see `EnabledPressStaysInBounds` and the four handler rows. |
| `Paginators.PageAt` | components/paginator.py:34 | `embeds[current_page - 1]` with Python's indexing: negative indices wrap, and out of range is IndexError (None). It has no contract of its own; see `EnabledRunStaysInBounds` and `Paginator.EditPage`. |
| `Paginators.EnabledPressStaysInBounds` | components/paginator.py:28-54 | From a page in `1..len(embeds)`, pressing an enabled button lands on a page in `1..len(embeds)`. |
| `Paginators.EnabledRunStaysInBounds` | components/paginator.py:28-54 | Any sequence of presses on enabled buttons keeps the page in bounds. The embed shown is then `embeds[current_page - 1]`. |
| `Paginators.SinglePageDisablesAll` | components/paginator.py:28-29 | With one page, all four navigation buttons are disabled. |
| `Paginators.Paginator.constructor` | components/paginator.py:16-22 | A new paginator is on page 1 with first and previous disabled. With one page, every button is disabled. |
| `Paginators.Paginator.UpdateButtons` | components/paginator.py:24-29 | Disables every child. Then first and previous are disabled iff the page is 1, and next and last are disabled iff it is the last page. |
| `Paginators.Paginator.EditPage` | components/paginator.py:31-34 | Refreshes the buttons and fetches `embeds[current_page - 1]` with Python's indexing. That includes wrap-around for negative indices and IndexError out of range. |
| `Paginators.Paginator.FirstPage` | components/paginator.py:36-39 | Sets the page to 1. With any embeds, the first embed is shown. |
| `Paginators.Paginator.PrevPage` | components/paginator.py:41-44 | Decrements the page by exactly one. If the button was enabled and the page was in bounds, the page stays in bounds. |
| `Paginators.Paginator.NextPage` | components/paginator.py:46-49 | Increments the page by exactly one. If the button was enabled and the page was in bounds, the page stays in bounds. |
| `Paginators.Paginator.LastPage` | components/paginator.py:51-54 | Sets the page to `len(embeds)`. With any embeds, the last embed is shown. |
| `Paginators.Paginator.InteractionCheck` | components/paginator.py:56-60 | Admits a user iff the paginator has no author or the user is the author. |
| `Roles.Digits` | components/roles.py:16 | A role id renders as a non-empty string of decimal digits with no leading zero. |
| `Roles.DigitsRoundTrip` | components/roles.py:16 | Reading the rendered id back as a decimal number gives the id. |
| `Roles.CustomId` | components/roles.py:16 | A button's custom id is `r` followed by the role id's decimal digits, and the id can be read back from it. |
| `Roles.CustomIdInjective` | components/roles.py:16 | Buttons for roles with different ids get different custom ids. |
| `Roles.Toggle` | components/roles.py:23-28 | A held role is removed and a missing role is added. Every other role is untouched. |
| `Roles.ToggleTwice` | components/roles.py:23-28 | Two toggles of the same role restore the original role set. |
| `Roles.RemovedText` | components/roles.py:25 | `*<mention> removed.*`. It has no contract of its own; see `RoleButton.Callback`. |
| `Roles.AddedText` | components/roles.py:28 | `*<mention> added.*`. It has no contract of its own; see `RoleButton.Callback`. |
| `Roles.ErrorText` | components/roles.py:32 | The red reply text, quoting the error between backticks. It has no contract of its own; see `RoleButton.Callback`. |
| `Roles.RoleButton.constructor` | components/roles.py:15-17 | The button keeps its role, its label is the role's name, and its custom id is `CustomId(role)`. |
| `Roles.RoleButton.Callback` | components/roles.py:19-36 | On success it toggles the button's role, replies green and says "removed" when the role was held and "added" otherwise. When the platform raises, roles are unchanged and it replies red, quoting the error text. |
| `Roles.PressTwice` | components/roles.py:23-28 | Two successful presses of one button restore the member's roles, and both replies are green. |
| `Roles.RoleView.AsWritten` | components/roles.py:41-47 | As written: buttons for the first min(n, 26) roles, in argument order. |
| `Roles.AsWrittenOverflow` | components/roles.py:44-47 | With more than 25 roles, the as-written guard admits a 26th button, one more than the platform allows. That is 26 buttons in the model, where `add_item` is an append. |
| `Roles.RoleView.constructor` | components/roles.py:41-47 | Corrected guard: buttons for the first min(n, 25) roles, in argument order, never more than 25. |

## Left out

- Connecting to the store (TLS CA file, server-selection timeout, sessions) and the fatal `SystemExit` start-up paths (core/mongo.py:37-71) are not modelled. The client starts from given collection contents.
- The store assigns a new document's `_id`. The model takes it as the `oid` parameter of `GetMetadata`.
- Concurrency is not modelled. Operations run one at a time. Under the event loop, two interleaved `generate_modlog_id` calls can return the same id, and nothing here claims otherwise.
- Paginators.EnabledRunStaysInBounds: the bounds property holds only for presses handled one at a time, each after the previous message edit has landed. A handler changes `current_page` before its first suspension and checks no `disabled` flag. So a second press on `<` that arrives before the edit lands can take the page from 2 to 0. The model's `PrevPage` from page 1 also gives page 0, and it then shows the last embed with every button enabled.
- Mongo.MongoDBClient.UpdateMetadata: requires every keyword to be a `MetaData` field and every value to match that field's annotation. Python checks neither. An ill-typed value would be stored as given. An unknown keyword would make the `MetaData(**data)` call raise, but only after `find_one_and_update` has already stored the `$set`. The stored document then keeps the unknown key and `bot.metadata` stays stale. Every later `get_metadata` raises at core/mongo.py:107, including the one at start-up (core/bot.py:123).
- `$set` with no keywords is modelled as a no-op update. Whether the store accepts an empty `$set` depends on the server version.
- Mongo.NextCaseId: every stored case has an integer `case_id`. A collection whose top document lacks one would raise in the source (None + 1).
- The `bot` back-references in `Modlog` and `MetaData` are not data and are dropped. `bot.now` is the `now` parameter of `Modlogs.IsExpired`.
- Datetimes and timedeltas are integers in one fixed unit, and time zones are not modelled.
- Modlogs.IsExpired: the datetime range (years 1 to 9999) is not modelled. Outside it, `created + duration` raises OverflowError, so `until` and `is_expired` raise, while the model's `Until` and the expiry lemmas still give a value.
- Roles.RoleView.AsWritten: `add_item` is modelled as an append. The platform library's own 25-child check, which raises an error on the 26th add, is not modelled.
- Embed names and values are modelled by their rendered text. Python's `str()` of arbitrary objects is not modelled.
- The platform embed's other contents (title, colour, description) are not modelled. Only its field list is.
- Platform I/O is not modelled: deferring and answering interactions, editing the paginator's message, the "You can't use that." notice, the view timeout and `on_timeout`, and the role emoji. The paginator's `message` field is left out with it.
- The role's mention markup `<@&id>` is the platform's format and is stated here, not derived.
- The membership check `self.role in interaction.user.roles` compares roles by id. Both the member's roles and the toggled role are role ids.
- Duration parsing, clearance levels, the protected-target guard, case creation and the expiry sweeper have no implementation in the repository's files. `manage_modlogs` (core/bot.py:86-87), `author_clearance` (core/bot.py:163-164) and the moderation cog (ext/moderation.py:12) are placeholders, so none of these is modelled.
- The rest of core/bot.py (start-up, extension loading, event handlers), components/traceback.py, components/appeal.py, core/help.py, core/mee6.py and main.py are not part of this model.

## Findings

| source | as written | input that shows it | evidently intended | confidence | as-written member | corrected member |
|---|---|---|---|---|---|---|
| components/roles.py:44 | `if len(self.children) <= 25` still adds a button when the view already holds 25 | 26 or more roles: the guard admits a 26th `add_item` call, giving 26 buttons in the model; the platform library rejects that call with an error (`Roles.AsWrittenOverflow`) | `< 25`, so at most 25 buttons, the platform's limit per view | not executed; high | `Roles.RoleView.AsWritten` | `Roles.RoleView.constructor` |
