# Laundry order bot — verified model

This project models the core of a Telegram bot that takes laundry orders (the `stirki`
repository). A customer walks through a conversation: start, say whether the stored profile
may be reused, give a phone, name, street, house, apartment and entrance, toggle extra
services, confirm, and answer the payment question. The bot keeps clients, orders and a
status-history audit trail in a relational store, prices each order from a fixed tariff, and
posts a card for each order to a kanban board (Trello in `kanban.py`, Kaiten in
`kaiten_kanban.py`).

Modules, one file each:

- `Wrappers` — `Option` and `Result`.
- `Text` — Python's `str.strip`, `str.title`, `str.capitalize`, `split`, `in` and decimal
  formatting of integers, with the facts the other modules rely on.
- `Enums` — the four string enums of `src/enums.py` and the status-to-column map.
- `States` — the integer states of the conversation (`src/bot/states.py`).
- `Models` — the rows of `src/models.py`.
- `Pricing` — the tariff and `calculate_order_total`. The total is proved equal to a
  reference definition: the base price plus the sum of the selected services.
- `Repository` — `src/repositories.py` over an in-memory store. A class `Database` holds one
  sequence per table, and its methods update those tables in place. The invariant `Valid`
  covers auto-increment ids, unique names and Telegram ids, and well-formed foreign keys. It
  also keeps a gapless audit trail: the newest history row of every order records its current
  status.
- `Conversation` — the routing table of `src/bot/main.py` and every handler of
  `src/bot/handlers/order.py` and `start.py`, as pure reply functions and one `Step`
  function. It also holds the reachability invariant and the lemmas about the conversation.
- `Chats` — class `Chat`: one chat's state and its `user_data` dictionary. Each handler is a
  method that edits `user_data` key by key. Each method is proved against the reply function
  of the same name, and `Chat.Handle` against `Step`.
- `Kanban` — the Trello card: name, description, extra labels, the class-level configuration,
  `create_card_sync`, and the background job that writes the card id to the order.
- `Kaiten` — the Kaiten card: the option dictionary, the tags, the numbered-options loop of
  `_maker_descriptions`, the conditional payload of `create_card`, and `add_card_to_order`.

Calls into the database, Telegram and the board services are not executed. A handler gets the
answers of the store lookups it makes as an `Env` value, and returns the writes it requests as
`Effect` values. The result of a board call is a parameter.

Where the code and the description of the system disagree, the model follows the code:

- `create_order` puts a new order in status `"new"`. It does not use the payment state
  "waiting for capture".
- By the tariff table, removing ironing from {ironing, UV} gives 990 + 300 = 1290. A total of
  1590 is not what the code computes (`Pricing.WorkedExamples`).

## Model

| member | source | states |
|---|---|---|
| Pricing.GetPrice | src/services/pricing.py:21-27 | the price of a configured slug is its `SERVICE_PRICES` entry; any other key fails with "price not configured" |
| Pricing.GetPriceDefinedExactlyOnSlugs | src/services/pricing.py:11-27 | `get_price` succeeds exactly on the values of `ServiceSlug`, and each slug gets its tariff entry |
| Pricing.Price | src/services/pricing.py:21-27 | every slug is priced, and `get_price` of the slug's value succeeds with that price |
| Pricing.PriceValues | src/services/pricing.py:11-19 | the tariff is base 990, ironing 990, conditioner 200, vacuum pack 400, exact time 300, UV 300, wash bag 300 |
| Pricing.CalculateOrderTotal | src/services/pricing.py:29-61 | the flag-by-flag sum equals the reference total: the base price plus the prices of the selected services |
| Pricing.SumFlags | src/services/pricing.py:45-59 | the total is 990 plus each surcharge of a set flag, and 300 when an exact delivery time is given |
| Pricing.SumPricesPermutation | src/services/pricing.py:47-59 | the sum of service prices does not depend on the order the services are listed in |
| Pricing.NoOptionsIsBasePrice | src/services/pricing.py:45 | an order with no extras costs the base price 990 |
| Pricing.ExactTimeSurcharge | src/services/pricing.py:58-59 | an exact delivery time adds exactly 300, whatever the other flags |
| Pricing.TotalBounds | src/services/pricing.py:29-61 | every total lies between 990 and 3480 |
| Pricing.TotalMonotone | src/services/pricing.py:47-59 | selecting more services never lowers the total |
| Pricing.FlipChangesTotalByPrice | src/services/pricing.py:47-56 | toggling one extra changes the total by exactly its price, in the direction of the toggle; toggling twice restores the flags |
| Pricing.WorkedExamples | src/services/pricing.py:11-61 | ironing, conditioner and exact time cost 2480; ironing and UV cost 2280; dropping ironing from that leaves 1290 |
| Enums.ParseStatus | src/enums.py:3-13 | `OrderStatusName(s)` yields a member whose value is `s` |
| Enums.StatusEnumeration | src/enums.py:3-13 | exactly ten statuses with pairwise distinct values; parsing inverts `value` and fails exactly on strings that are no member's value |
| Enums.ParsePayment | src/enums.py:16-20 | `PaymentStatus(s)` yields a member whose value is `s` |
| Enums.PaymentEnumeration | src/enums.py:16-20 | exactly four payment states; parsing inverts `value` and fails exactly on other strings |
| Enums.ParseSlug | src/enums.py:23-30 | `ServiceSlug(s)` yields a member whose value is `s` |
| Enums.SlugEnumeration | src/enums.py:23-30 | exactly seven slugs including `base`, with distinct values; parsing inverts `value` and fails exactly on other strings |
| Enums.ColumnByName | src/enums.py:33-43 | `TrelloColumns[name]` yields the column whose member name is `name` |
| Enums.ColumnMapTotal | src/enums.py:3-43 | every status has a column of the same member name, so the status-to-column lookup never raises |
| Enums.ColumnForIsColumnOf | src/enums.py:3-43 | the lookup by member name sends each status to the column of the same stage |
| Enums.ColumnIdReadsBack | src/enums.py:34-43 | every column id has 24 characters, and the column can be read back from its id |
| Enums.ColumnMapInjective | src/enums.py:34-43 | different statuses map to different columns with different ids |
| States.FromValue | src/bot/states.py:4-27 | converting an integer back to `OrderStates` yields the state with that value |
| States.ValuesIncreasing | src/bot/states.py:4-27 | fourteen states, listed in increasing value, starting from INFO |
| States.ValuesDistinct | src/bot/states.py:4-27 | two states have the same value exactly when they are the same state, and the conversion back returns the state |
| States.CollectionValues | src/bot/states.py:13-27 | the collection states are 5 to 10 in chain order, SELECT_SERVICES < CONFIRM < PAYMENT_QUESTION, and 11 is no state |
| Text.StripIsTrimmedSlice | src/bot/handlers/order.py:101 | `strip()` returns a slice of its input with no whitespace at either end |
| Text.NormalizeIdempotent | src/repositories.py:77 | `strip().title()` applied to its own result changes nothing |
| Text.ParseIntToString | src/services/kanban.py:88 | the decimal text of an integer is digits with an optional minus sign, and parses back to that integer |
| Text.IntToStringInjective | src/services/kaiten_kanban.py:194 | different order ids give different decimal texts, hence different card titles |
| Text.Capitalize | src/services/kaiten_kanban.py:162 | `capitalize()` keeps the length, upper-cases the first character and lower-cases the rest |
| Repository.FindStreet | src/repositories.py:77 | `Street.get(name=...)` finds a row with that name, or no row carries it |
| Repository.FindStatus | src/repositories.py:63-65 | `OrderStatus.get(name=...)` finds a row with that name, or no row carries it |
| Repository.FindClient | src/repositories.py:24-35 | the lookup by Telegram id finds a client with that id, or no client has it |
| Repository.UniqueStreetLookup | src/models.py:8 | with unique street names, the lookup by name returns the one row carrying it |
| Repository.UniqueClientLookup | src/models.py:19 | with unique Telegram ids, the lookup returns the one client that has the id |
| Repository.NoChangedFieldsIffUnchanged | src/repositories.py:36-55 | the list of changed columns is empty exactly when the update leaves the client as it was |
| Repository.ApplyAddressUpdate | src/repositories.py:38-53 | each column is overwritten only by a truthy new value and the changed names are collected in order; name, phone, id and counter are kept |
| Repository.InlineTotal | src/repositories.py:80-99 | the price `create_order` computes inline equals the reference total of `calculate_order_total` for the same flags |
| Repository.InsertOrder | src/repositories.py:103-123 | appending an order with its first history row keeps the tables consistent and the trail gapless, and the order has exactly one history row |
| Repository.ChangeStatus | src/repositories.py:141-147 | storing a new status with one history row keeps the tables consistent and the trail gapless, and adds one row to that order's history |
| Repository.AppendRow | src/repositories.py:121-123 | appending a history row changes the last status and the row count of its own order only |
| Repository.Database.GetOrCreateClientAsWritten | src/repositories.py:9-35 | `get_or_create_client` as written: a truthy street name fails with the TypeError of subscripting the coroutine and leaves all five tables unchanged; without one it inserts or updates the client exactly as the street-less client step does |
| Repository.RepoTestCall | test_db.py:46-55 | the seeding script's call fails as written and changes nothing; with the intended street step it stores client 999999 attached to the street it names |
| Repository.CountOrder | src/repositories.py:126-127 | counting an order adds exactly 1 to `total_orders` and changes no other field of the client |
| Repository.Database.constructor | src/models.py:6-38 | a store seeded with street and status names, with no clients, orders or history |
| Repository.Database.GetOrCreateStreet | src/repositories.py:21-22 | returns the id of the street with that name, adding the street only when it is missing; keeps the invariant |
| Repository.Database.UpsertClient | src/repositories.py:24-59 | a new Telegram id adds a client from the defaults; a known one updates the address only when a street or house is given, the other clients unchanged |
| Repository.Database.GetOrCreateClient | src/repositories.py:9-60 | `get_or_create_client` with the street step as intended: the street is created when named, then the client is inserted or its address updated as above |
| Repository.Database.AppendOrder | src/repositories.py:103-127 | appends the order, one history row changed by "client", and adds 1 to the client's `total_orders` |
| Repository.Database.PlaceOrder | src/repositories.py:80-127 | the order row, priced by the reference total, and its three writes |
| Repository.Database.CreateOrderAt | src/repositories.py:77-129 | fails with no write when the street or the status "new" is missing; succeeds exactly when both exist, and then writes the order |
| Repository.Database.CreateOrder | src/repositories.py:68-129 | `create_order`: the same, with the street name normalised by `strip().title()` |
| Repository.Database.UpdateStatus | src/repositories.py:131-148 | an unknown status fails with no write; the current status again writes nothing; a new status is stored with exactly one history row tagged with the actor |
| Repository.Database.GetOrderById | src/repositories.py:150-152 | finds the order exactly when the id exists, and returns the row with that id |
| Repository.Database.SetTrelloCardId | src/services/kanban.py:140-142 | writes the card id on the row with that id only, and does nothing when there is no such row |
| Repository.UpdateStatusTwice | src/repositories.py:137-139 | the same status set twice writes at most one history row |
| Conversation.RestartFromAnyPosition | src/bot/main.py:57-107 | `/start` is accepted at every position, and always gives INFO with empty `user_data`, which is reachable |
| Conversation.RestartIdempotent | src/bot/handlers/start.py:9-15 | restarting twice is the same as restarting once |
| Conversation.StepPreservesInv | src/bot/main.py:57-107 | every update from a reachable chat leads to a reachable chat, never to a state without handlers |
| Conversation.ReplayPreservesInv | src/bot/main.py:57-107 | any sequence of updates from a reachable chat ends in a reachable chat |
| Conversation.AcceptedInputs | src/bot/main.py:59-105 | the updates each state accepts are its registered patterns and filters, plus `/start` |
| Conversation.OtherCommandsIgnored | src/bot/main.py:72-94 | a command other than `/start` changes nothing at any position |
| Conversation.DeadStatesOnlyRestart | src/bot/main.py:59-104 | REUSE_CONFIRM, REUSE_REJECT and GET_COMMENT have no handler, so only `/start` leaves them |
| Conversation.CancelButtonIgnored | src/bot/main.py:97-99 | a cancel press at CONFIRM changes nothing |
| Conversation.AskPhoneBranches | src/bot/handlers/order.py:24-55 | `client_changed` is the negation of `client_exists`; a known client goes to REUSE_QUESTION and an unknown one to GET_PHONE |
| Conversation.ReuseCopiesProfile | src/bot/handlers/order.py:58-79 | the stored profile is copied into the six contact keys, the other keys are kept, and the chain is skipped to SELECT_SERVICES |
| Conversation.EditRestartsCollection | src/bot/handlers/order.py:82-89 | editing sets `client_changed` and goes to GET_PHONE |
| Conversation.CollectionChainStep | src/bot/handlers/order.py:92-137 | each accepted answer of the collection chain stores exactly its own key (stripped text, contact phone, mapped street) and moves to the next state |
| Conversation.PhoneStep | src/bot/handlers/order.py:92-97 | the shared phone is stored, the client is marked changed, and the chat goes to GET_NAME |
| Conversation.TextAnswerStep | src/bot/handlers/order.py:100-137 | a typed name, house, apartment or entrance is stored stripped, and the chat moves to the next state |
| Conversation.StreetCallback | src/bot/handlers/order.py:106-118 | the street is the one named by the code between the first and second underscore |
| Conversation.StreetStep | src/bot/handlers/order.py:106-118 | the street button moves to GET_HOUSE with the mapped street stored |
| Conversation.StreetCodes | src/bot/handlers/order.py:110-116 | `nov` and `mit` name their streets, and every other code falls back to Мытищинская |
| Conversation.SelectionTotal | src/bot/handlers/order.py:142 | the selection `select_services` starts from has an entry for every service |
| Conversation.ToggleFlipsOne | src/bot/handlers/order.py:166-176 | a service caption flips exactly that service and stores the selection; nothing else changes |
| Conversation.ToggleTwiceRestores | src/bot/handlers/order.py:166-169 | toggling a service twice gives back the starting selection |
| Conversation.DoneMovesToConfirm | src/bot/handlers/order.py:145-164 | "Готово" stores the price text of the current selection and goes to CONFIRM, before any toggle is considered |
| Conversation.OtherTextIgnored | src/bot/handlers/order.py:140-176 | any other text at SELECT_SERVICES changes nothing |
| Conversation.DoneWithoutToggleStoresNoSelection | src/bot/handlers/order.py:140-164 | "Готово" without a toggle reaches CONFIRM with no selection stored |
| Conversation.PaymentQuestionOutcome | src/bot/handlers/order.py:194-235 | the client is created when unknown, updated when changed and reused otherwise; then the order is created and its id kept; it raises exactly when no selection was stored |
| Conversation.ConfirmWithoutSelection | src/bot/handlers/order.py:194-228 | for a new client with no selection, the client row is requested and then `user_data['services']` raises |
| Conversation.PaymentYesEnds | src/bot/handlers/order.py:238-257 | a payment confirmation marks the order NEW and SUCCEEDED and ends the conversation |
| Conversation.PaymentNoEnds | src/bot/handlers/order.py:260-269 | a refusal marks the order CANCELED and CANCELED and ends the conversation |
| Conversation.NewClientWithoutSelectionFails | src/bot/handlers/order.py:140-228 | the whole run of a new user who confirms without toggling a service ends at CONFIRM with the client written and a KeyError |
| Conversation.AddressToConfirm | src/bot/handlers/order.py:121-228 | the second half of that run, from GET_HOUSE to the KeyError |
| Chats.Chat.constructor | src/bot/main.py:57-107 | a new chat is idle with empty `user_data` and reachable |
| Chats.Chat.Start | src/bot/handlers/start.py:9-15 | clears `user_data` and answers INFO |
| Chats.Chat.AskPhone | src/bot/handlers/order.py:24-55 | the key-by-key writes of `ask_phone` give the reply of `AskPhoneReply` |
| Chats.Chat.ClientConfirmOk | src/bot/handlers/order.py:58-79 | the dictionary update of `client_confirm_ok` gives the reply of `ClientConfirmOkReply` |
| Chats.Chat.ClientConfirmEdit | src/bot/handlers/order.py:82-89 | sets `client_changed` and answers GET_PHONE |
| Chats.Chat.GetPhone | src/bot/handlers/order.py:92-97 | stores the phone and `client_changed`, and answers GET_NAME |
| Chats.Chat.GetName | src/bot/handlers/order.py:100-103 | stores the stripped name and answers GET_STREET |
| Chats.Chat.GetStreet | src/bot/handlers/order.py:106-118 | raises IndexError without an underscore; otherwise stores the mapped street and answers GET_HOUSE |
| Chats.Chat.GetHouse | src/bot/handlers/order.py:121-124 | stores the stripped house and answers GET_APARTMENT |
| Chats.Chat.GetApartment | src/bot/handlers/order.py:127-130 | stores the stripped apartment and answers GET_ENTRANCE |
| Chats.Chat.GetEntrance | src/bot/handlers/order.py:133-137 | stores the stripped entrance and answers SELECT_SERVICES |
| Chats.Chat.SelectServices | src/bot/handlers/order.py:140-176 | the in-place toggle and the "Готово" branch give the reply of `SelectServicesReply` |
| Chats.Chat.PaymentQuestion | src/bot/handlers/order.py:194-235 | the write requests and the `order_id` update give the reply of `PaymentQuestionReply` |
| Chats.Chat.PaymentYes | src/bot/handlers/order.py:238-257 | reads the summary keys and the order id, requests (NEW, SUCCEEDED) and ends |
| Chats.Chat.PaymentNo | src/bot/handlers/order.py:260-269 | reads the order id, requests (CANCELED, CANCELED) and ends |
| Chats.Chat.Dispatch | src/bot/main.py:59-104 | running the routed handler on `user_data` gives the reply of `Run` |
| Chats.Chat.Handle | src/bot/main.py:57-107 | one update moves the chat exactly as `Step` says, and the chat stays reachable |
| Kanban.GetExtraLabels | src/services/kanban.py:111-126 | the labels appended flag by flag are those of the set flags, in the fixed order |
| Kanban.LabelIdInjective | src/services/kanban.py:26-32 | the five label ids are pairwise distinct |
| Kanban.ExtraLabelsExact | src/services/kanban.py:111-126 | a label is returned exactly when its service flag is set |
| Kanban.ExtraLabelsCount | src/services/kanban.py:111-126 | one label per set flag, at most five, and none when no flag is set |
| Kanban.CardListIsWashingColumn | src/services/kanban.py:25 | the list new cards go to is the WASHING column of `TrelloColumns`, not the NEW column |
| Kanban.OrText | src/services/kanban.py:95-100 | `x or default` gives the value when it is non-empty, the default otherwise |
| Kanban.YesNo | src/services/kanban.py:103-107 | "Да" exactly when the flag is set |
| Kanban.BuildNameReadsBack | src/services/kanban.py:86-88 | the card name is `#`, the order id that parses back, a space, then the client's name or, when it is empty, the phone |
| Kanban.BuildDescFrame | src/services/kanban.py:90-109 | the description starts with the order line and ends with the block of the five extras |
| Kanban.Kanban.constructor | src/services/kanban.py:34-36 | no client, the default list, not configured |
| Kanban.Kanban.Configure | src/services/kanban.py:38-51 | builds the client and marks the class configured |
| Kanban.Kanban.CreateCardSync | src/services/kanban.py:57-79 | asks for a card exactly when configured, with the built name and description; returns the card id only when the call returned one |
| Kanban.CreateCardJob | src/services/kanban.py:128-148 | the order row receives the card id exactly when the call gave a truthy id and the row exists; nothing else changes |
| Kaiten.Options | src/services/kaiten_kanban.py:185-192 | six options in dictionary order, each on exactly when the order has that service |
| Kaiten.EnabledTagsMembers | src/services/kaiten_kanban.py:193 | a tag name is collected exactly when its option is on |
| Kaiten.EnabledTagsKeepOrder | src/services/kaiten_kanban.py:193 | the collected tags keep dictionary order |
| Kaiten.TagsExact | src/services/kaiten_kanban.py:185-193 | the card's tags are exactly the enabled services, in dictionary order, at most six |
| Kaiten.TagObjects | src/services/kaiten_kanban.py:193 | one `{'name': ...}` object per tag, in order |
| Kaiten.NumberedLinesSkipDisabled | src/services/kaiten_kanban.py:157-163 | the loop's text numbers the enabled options consecutively and skips disabled ones |
| Kaiten.NumberedLast | src/services/kaiten_kanban.py:157-163 | the last line carries the number of enabled options |
| Kaiten.OptionLinesMatchTags | src/services/kaiten_kanban.py:157-163 | the numbered lines list exactly the card's tags, one line per tag |
| Kaiten.Dash | src/services/kaiten_kanban.py:167-172 | `x or '—'` shows a non-empty value and a dash otherwise |
| Kaiten.TelegramText | src/services/kaiten_kanban.py:170 | the Telegram id shows as a dash exactly when it is 0 |
| Kaiten.MakerDescriptions | src/services/kaiten_kanban.py:143-175 | the loop with `option_num` and `option_text` builds the reference description |
| Kaiten.TitleIsFirstLine | src/services/kaiten_kanban.py:165-166 | the first line of the description is the card title |
| Kaiten.DescriptionEndsWithOptions | src/services/kaiten_kanban.py:165-175 | the description ends with the "Дополнительно" header and the numbered options |
| Kaiten.PayloadForUnique | src/services/kaiten_kanban.py:94-110 | the payload description determines the payload: its keys and values are fixed |
| Kaiten.CreateCardPayload | src/services/kaiten_kanban.py:94-110 | title, description, board, column and `expires_later = false` are always present; owner, responsible, due date (with `due_date_time_present = false`) and tags only when truthy |
| Kaiten.OrderStore.SaveCardId | src/services/kaiten_kanban.py:203-205 | reloads the order by id and stores the card id; a missing order fails and changes nothing |
| Kaiten.AddCardToOrder | src/services/kaiten_kanban.py:178-207 | posts the card with the built title, description and tags; returns the card's `id`; writes it on the order only when it is truthy |

## Left out

- Telegram I/O: messages, keyboards, `query.answer()` and the message texts of `src/bot/texts.py` are not modelled. A price breakdown is an opaque value fixed by the selection (`TotalPriceMessage`). `services_price_message` is not modelled because only its text is shown.
- The store itself (Tortoise ORM, the database connection, timestamps such as `registered_at`, `changed_at` and `updated_at`) is replaced by in-memory sequences. Seeding the status table is not part of the source core, so `Database.constructor` takes the names as input.
- `Repository.get_client_by_telegram_id`, `resolve_client_street`, `create_client`, `update_client` and `update_order_status` are called by the handlers but not defined in the repository shown. Their answers come in as `Env`, and their calls go out as `Effect` values.
- `payment_question` calls `create_order` with `telegram_chat_id` and `telegram_message_id` and without `street_name` or `house` (order.py:223-227). As written, that call raises TypeError every time it is reached, because the `create_order` of `repositories.py` takes neither of the first two and requires the last two. The model assumes a `create_order` that accepts that call: the conversation requests the order as an `Effect`, and `Database.CreateOrder` models the signature of `repositories.py`.
- Database.CreateOrder and Database.UpdateStatus take the ids of stored rows. `create_order` reads and writes the caller's own `Client` object (repositories.py:108-110 and 126-127), and `update_status` the caller's `Order` (repositories.py:138). The model assumes those objects equal the stored rows, so a stale in-memory object is not modelled.
- `/reset`, `/help` and the payment handlers of `src/bot/handlers/payment.py` are outside the conversation modelled here. The `confirm` handler (order.py:179-191) is not in the states table, so no update can reach it.
- Concurrency: `asyncio.create_task`, `asyncio.to_thread` and interleaved updates of the same chat are not modelled. `Kanban.CreateCardJob` is the job's body run once and to completion. `create_card_async` is `CreateCardSync`.
- The Trello and Kaiten HTTP clients, their errors and `_raise_for_status`: the answer of the board service is a parameter. `get_board_columns`, `get_card`, `get_tags`, `close` and the context-manager methods are not modelled.
- `KaitenColumns`, `KaitenTagsNames` and the `settings.BOARD` value are not defined in the source shown. The waiting-for-capture column and the board id are parameters, and the display name of each tag is a function parameter `names`.
- The `Order` record of `src/models.py` has no `apartment`, `ironing`, `uv`, `vacuum_pack`, `wash_bag`, `conditioner` or `kaiten_card_id` fields, which `kaiten_kanban.py` reads. `Kaiten.KaitenOrder` is the record that module expects. `Kanban` uses the `Order` of `src/models.py`.
- Conversation.AskPhoneBranches: with a stored client whose record has no `apartment`, formatting the reuse question raises AttributeError. The lemma states only the `client_exists`/`client_changed` writes for that case; `Chat.AskPhone` models the raise.
- Text: `str.strip`, `str.title`, `str.capitalize` and upper/lower case are modelled on ASCII letters and the Cyrillic block U+0400 to U+045F; other Unicode case rules are not modelled.
- Kanban.BuildDescFrame: states the first line and the extras block of the description, not every middle line character by character.
- Python's `datetime` is an opaque number of seconds; only its presence matters to the code.
- Conversation.Config: `serviceNames` merges `ServiceCyrillic` and `ServiceCyrillicSlugMap`, which are not defined in the source shown. The model assumes the captions in `ServiceCyrillic` are exactly the keys of `ServiceCyrillicSlugMap`, so the KeyError that order.py:166-167 would raise for a caption with no slug is not modelled.
- Kanban.Kanban.CreateCardSync: the order's client and street are passed in as loaded values. `create_card_sync` reads `order.client` and `order.street` to build the name and description before its `try` (kanban.py:67-68), and an error there would escape; that case is not modelled.

## Findings

| source | as written | input that shows it | evidently intended | confidence | as-written member | corrected member |
|---|---|---|---|---|---|---|
| src/repositories.py:22 | `await Street.get_or_create(name=...)[0]` subscripts the coroutine before awaiting it, which raises TypeError | `get_or_create_client(..., street_name="Новорождественская")` | `(await Street.get_or_create(name=...))[0]`: get or create the street, then attach it | high; not executed | Repository.Database.GetOrCreateClientAsWritten | Repository.Database.GetOrCreateClient |
