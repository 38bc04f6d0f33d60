# A verified model of the finance bot's command core

The bot keeps a money ledger per chat. Chat users type short commands:

- `/income` and `/expense` add an operation, or show a running total when given no token.
- `/balance` shows income minus expense.
- `/delete <id>` and `/update <id> <±amount> [note]` change one operation.
- `/report <interval>` lists the operations of a time window.

This project models the parts of the bot that decide what those commands do. It proves the properties those commands are meant to have.

- **Token converters** (`Utils`, `Parsers`, over `Numbers` and `Text`):
  - A chat token is turned into an amount in integer cents, an ID, or a note.
  - `Numbers` reads a restricted grammar: an optional sign, then digits, with at most two decimals for amounts.
  - `Text` gives `str`, the two-decimal `:.2f` format, `join`, `split`, `startswith` and `capitalize`.
  - The `None`-returning converters of `botapp/utils.py` are the ones the handlers use. The raising ones of `botapp/parsers.py` are proved to accept the same tokens with the same values.
- **The parser protocol** (`Parsers.Parser`): a class whose fields are updated by `IsValid`. Each subclass's `parse_data` is a pure function over the argument tokens.
- **The ledger** (`Models`):
  - Operations are records.
  - Sums by type and the balance are folds over the ledger.
  - The field checks of `full_clean` are modelled.
  - `Models.Store` is the database as a class:
    - chats by id;
    - the operation table in creation order;
    - the next id.
  - Every write of an operation (`Create`, `Save`) validates first; fetching or adding a chat and deleting a row do not. `Store.Valid()` is the invariant every write keeps.
- **The command handlers** (`Commands`): methods on the store.
  - Each returns the reply text, or the exception that escapes the handler (`Raised`).
  - The ensures of each one gives the reply and the new ledger for every branch of the source.
  - The balance lemmas of `Models` give the effect on the balance.
- **The command registrar** (`CommandHandlers`):
  - The allow-list of command names is resolved against a namespace, with Python's import system as a map from module paths to namespaces.
  - A dictionary is kept in insertion order.
  - The model refuses to hand out handlers before a successful validation.
  - It adds one `CommandHandler` per entry to a dispatcher.

The environment is passed in as parameters:

- **Creation time:** the clock is a parameter `now`.
- **Date rendering:** a function `dateText`.
- **Interval lookup:** the window a report interval names is a function `resolve` that may fail.

## Model

| member | source | states |
|---|---|---|
| Utils.ParseAmount | botapp/utils.py:35-42 | a value comes back exactly when the token is numeric and at least 0.01, and it is the token's value; otherwise `None` |
| Utils.ParseId | botapp/utils.py:45-52 | a value comes back exactly when the token is an integer and not negative (0 included), and it is the token's value |
| Utils.ParseAmountOfFormatted | botapp/utils.py:35-42 | an amount written with two decimals reads back as itself when it is at least 0.01, and as `None` otherwise |
| Utils.ParseAmountRejectsMinus | botapp/utils.py:38-39 | a token starting with `-` is always refused, since every such value is below 0.01 |
| Utils.ParseIdOfFormatted | botapp/utils.py:45-52 | `str(i)` reads back as `i` for every `i >= 0`, and is refused for negative `i` |
| Numbers.ParseCents | botapp/utils.py:37 | `float` of a `-`-signed token is never positive |
| Numbers.CentsRoundTrip | botapp/commands.py:18 | the `:.2f` text of any amount, negative ones included, reads back through `float` as the same amount |
| Numbers.ParseInt | botapp/utils.py:47 | `int(token)` over the grammar: an optional sign and at least one digit, read as a decimal integer; `Numbers.IntRoundTrip` and `Utils.ParseId` state its properties |
| Numbers.IntRoundTrip | botapp/commands.py:70 | `int(str(i)) == i` for every integer |
| Numbers.IntTokenIsDecimal | botapp/utils.py:37 | every token `int` accepts, `float` accepts too, with the same value |
| Parsers.ParseAmount | botapp/parsers.py:6-13 | the raising `parse_amount`: succeeds exactly when `float` reads the token as at least 0.01, with that value; else the error "Invalid amount" |
| Parsers.ParseId | botapp/parsers.py:16-23 | the raising `parse_id`: succeeds exactly when `int` reads the token as a non-negative integer (0 included), with that value; else "Invalid ID" |
| Parsers.ConvertersAgree | botapp/parsers.py:6-23 | the raising and the `None`-returning converters accept the same tokens and give the same values |
| Parsers.ParseNote | botapp/parsers.py:26-27 | `parse_note`: the tokens joined by single spaces; `Parsers.NoteKeepsTokens` proves that nothing is lost |
| Parsers.NoteKeepsTokens | botapp/parsers.py:26-27 | splitting `parse_note`'s result at spaces gives back the tokens it joined, when none of them holds a space |
| Parsers.ParseIncomeAndExpense | botapp/parsers.py:74-79 | no tokens gives the IndexError text; otherwise success exactly when the first token is a valid amount, with the note being the other tokens joined ("" when there are none) |
| Parsers.ParseDelete | botapp/parsers.py:82-89 | no tokens gives "One argument is required"; otherwise success exactly when the first token is a valid ID, and the data is that ID |
| Parsers.DeleteIgnoresExtraTokens | botapp/parsers.py:83-89 | tokens after the first never change the outcome, and ID 0 is accepted |
| Parsers.ParseUpdate | botapp/parsers.py:92-121 | "Two arguments are required" below two tokens; an invalid ID fails with its message; a signed second token must be a valid amount and then sets amount and type (income), with a note only from a third token on; an unsigned one sets only the note, from every token after the ID |
| Parsers.ParseReport | botapp/parsers.py:124-136 | exactly one token is required; an unknown interval fails with the lookup's message; success holds a non-empty list of exactly this chat's operations inside the window; an empty window fails with "No transactions" |
| Parsers.ParseData | botapp/parsers.py:66-136 | `parse_data` dispatched on the parser's class: the base class raises `NotImplementedError` (message ""), and each subclass runs its own parse function |
| Parsers.Parser.constructor | botapp/parsers.py:31-36 | a new parser is not valid and has neither error nor data |
| Parsers.Parser.ValidatedData | botapp/parsers.py:50-54 | refused with "Call `.is_valid()` first" exactly when no `is_valid` call has succeeded; otherwise the stored data |
| Parsers.Parser.IsArgs | botapp/parsers.py:70-71 | true exactly when some argument token was given |
| Parsers.Parser.IsValid | botapp/parsers.py:56-64 | returns whether `parse_data` succeeded; success stores the data and marks the parser valid; failure records the message and keeps the earlier validity and data |
| Parsers.ValidationProtocol | botapp/parsers.py:50-64 | a fresh parser refuses `validated_data`; after a successful `is_valid` it returns exactly what `parse_data` produced, and after a failed one it still refuses |
| Models.FieldErrors | botapp/models.py:19-27 | the list of failing field checks is empty exactly when the chat exists, 0.01 <= amount < 10^8, the type is income or expense and the note has at most 255 characters; the minimum and the note length each have their own error |
| Models.Total | botapp/models.py:33-34 | the sum of the amounts of the chat's rows of one type, 0 when there is none (`or 0`); `Models.TotalAppend`, `Models.TotalOnlyOwnChat` and `Models.TotalZeroIffNone` state its properties |
| Models.GetSumByType | botapp/models.py:29-35 | refuses every type other than income and expense with "Invalid operation type"; otherwise the sum of the chat's amounts of that type |
| Models.GetBalance | botapp/models.py:37-41 | `get_balance`: the chat's income sum minus its expense sum; `Models.BalanceAppend`, `Models.BalanceRemove` and `Models.BalanceReplace` state how each write changes it |
| Models.TotalOnlyOwnChat | botapp/models.py:33-35 | rows of other chats never contribute to a chat's sum |
| Models.TotalZeroIffNone | botapp/models.py:33-35 | with valid amounts a sum is never negative, and it is 0 exactly when the chat has no row of that type |
| Models.TotalAppend | botapp/models.py:33-35 | a sum over two runs of rows is the sum of their sums |
| Models.BalanceAppend | botapp/models.py:37-41 | adding a row changes its chat's balance by its amount: up for income, down for expense; other chats are unaffected |
| Models.BalanceRemove | botapp/models.py:37-41 | removing a row takes its effect out of the balance |
| Models.BalanceReplace | botapp/models.py:37-41 | overwriting a row swaps its effect on the balance for the new row's |
| Models.BalanceExample | botapp/models.py:37-41 | income 100.00 then expense 30.00 in one chat give a balance of 70.00 |
| Models.FindRow | botapp/commands.py:64 | finds the first row whose id and chat both match, and finds nothing exactly when no row matches both |
| Models.RowsInSpan | botapp/commands.py:132 | the chat's rows inside the window, no row of another chat nor outside it |
| Models.RowsInSpanKeepsOrder | botapp/commands.py:132 | a window query keeps the ledger's creation order |
| Models.TransactionsByInterval | botapp/commands.py:130-135 | fails exactly when the interval is unknown; otherwise holds exactly the chat's rows of that window |
| Models.Store.GetOrCreateChat | botapp/commands.py:29 | a known chat under the same name is kept; a new non-negative chat id is added; a known chat under another name, or a negative id, raises IntegrityError and changes nothing |
| Models.Store.Create | botapp/commands.py:31-33 | validates first: a clean operation is appended with the next id and the creation time; otherwise ValidationError with the failing fields and no change |
| Models.Store.Save | botapp/models.py:43-45 | validates first: a clean record overwrites its row; otherwise ValidationError and no change |
| Models.Store.Delete | botapp/commands.py:69 | exactly the one row is removed, every other row kept in order |
| Models.RemoveKeepsOthers | botapp/commands.py:69 | taking one row out of the ledger keeps every other row |
| Commands.Sign | botapp/commands.py:13 | "+" for income and "-" for every other type; `Commands.IncomeTexts`, `Commands.ExpenseTexts` and `Commands.SignedAmountReadsBack` state what it makes of the replies |
| Commands.TotalText | botapp/commands.py:18 | the running-total reply, "Total <type>: <sign><amount>"; spelled out per type in `Commands.IncomeTexts` and `Commands.ExpenseTexts` |
| Commands.AddedText | botapp/commands.py:34 | the confirmation reply, "<Type> added: <sign><amount>"; spelled out per type in `Commands.IncomeTexts` and `Commands.ExpenseTexts` |
| Commands.BalanceText | botapp/commands.py:48 | the balance reply, "Total balance: " and the two-decimal balance; `Commands.Balance` states which balance it shows |
| Commands.ChatClash | botapp/commands.py:29 | when `get_or_create` raises: the chat is known under another username, or a new chat id is negative; `Models.Store.GetOrCreateChat` and `Commands.HandleIncomeOrExpense` use it for the IntegrityError branch |
| Commands.IncomeTexts | botapp/commands.py:13-34 | for income, the total reply reads "Total income: +" and the "added" reply "Income added: +", each followed by the amount text |
| Commands.ExpenseTexts | botapp/commands.py:13-34 | for expense, the total reply reads "Total expense: -" and the "added" reply "Expense added: -", each followed by the amount text |
| Commands.SignedAmountReadsBack | botapp/commands.py:34 | the signed amount a reply shows reads back as the signed value of the operation |
| Commands.HandleIncomeOrExpense | botapp/commands.py:10-34 | no tokens: the total of that type and no change; an invalid amount: "Incorrect amount" and no change; a chat clash: IntegrityError; otherwise the chat is recorded, and a clean operation is appended with the note of the other tokens and the reply `<Type> added: <sign><amount>`, while an unclean one raises ValidationError and adds nothing |
| Commands.Income | botapp/commands.py:37-38 | every branch of `handle_income_or_expense` for income, with reply and new state: the "Total income: +" reply and no change; "Incorrect amount" and no change; IntegrityError and no change; a ValidationError with only the chat added; or the chat recorded, exactly one income row appended after the unchanged earlier rows with the next id, the id counter advanced, the balance raised by the amount and the "Income added: +" reply |
| Commands.Expense | botapp/commands.py:41-42 | the same branches for expense: the "Total expense: -" reply, the two refusals, the ValidationError, or exactly one expense row appended after the unchanged earlier rows, the id counter advanced, the balance lowered by the amount and the "Expense added: -" reply |
| Commands.Balance | botapp/commands.py:45-48 | replies income minus expense of this chat, with two decimals |
| Commands.Delete | botapp/commands.py:51-70 | exactly one token; an invalid, negative or zero ID gives "Invalid ID"; no row of this chat with that ID gives "You have no such transaction"; otherwise only that row goes, the balance loses its effect, and rows of other chats are never removed |
| Commands.Patched | botapp/commands.py:94-113 | the updated row never has a new id, chat or creation time; an unsigned token replaces only the note, with every token after the ID; a signed one sets the parsed amount and always the type income, and the note only when a non-empty one follows |
| Commands.Update | botapp/commands.py:73-117 | the checks run in order (token count, ID, row of this chat, amount) and each failure leaves the ledger as it was; otherwise the patched row is validated and saved, changing the balance by the difference of the two rows' effects |
| Commands.MinusAmountRejected | botapp/commands.py:94-98 | a `-`-signed amount written as the replies write it is refused, so the update replies "Invalid amount" |
| Commands.IntendedPatch | botapp/commands.py:94-113 | the corrected update never changes id, chat or creation time, and fails exactly when a signed token has no valid amount after its sign |
| Commands.IntendedSignedToken | botapp/commands.py:94-113 | in the corrected update, a sign followed by any unsigned decimal of at least 0.01 sets the type the sign names and that amount |
| Commands.IntendedSignPicksKind | botapp/commands.py:94-113 | in the corrected update, `+x` sets income and `-x` sets expense, with amount x and the note of the following tokens when there is one |
| Commands.IntendedAgreesOnPlus | botapp/commands.py:94-113 | on `+` tokens the corrected update does what the written one does |
| Commands.Block | botapp/commands.py:141-146 | one report entry: the ID, the signed two-decimal amount, the note or "-" when it is empty, and the date, one line each |
| Commands.Blocks | botapp/commands.py:139-147 | the report entries of a list of operations, in order; `Commands.BlocksEntry` states that entry `i` is the block of operation `i` |
| Commands.RenderedEntry | botapp/commands.py:139-147 | rendering a list item by item puts the rendering of item `i` at position `i` |
| Commands.BlocksEntry | botapp/commands.py:139-147 | a report has one entry per operation, and entry `i` is the block of operation `i`, in query order |
| Commands.RenderBlocks | botapp/commands.py:139-147 | the report loop builds exactly the list of entries |
| Commands.Report | botapp/commands.py:124-149 | exactly one token, else the usage reply; an unknown interval gives "Invalid interval"; an empty window gives "No transactions"; otherwise the entries of the chat's operations in that window, joined by newlines |
| CommandHandlers.Put | botapp/command_handlers.py:46 | `d[k] = v` on an insertion-ordered dictionary; `CommandHandlers.PutKeepsWellFormed` states its properties |
| CommandHandlers.BuildDict | botapp/command_handlers.py:42-46 | the dictionary the loop of `validate` fills, one assignment per allowed name in list order; `CommandHandlers.BuildDictContents` and `CommandHandlers.BuildDictOfDistinct` state its contents |
| CommandHandlers.PutKeepsWellFormed | botapp/command_handlers.py:46 | `d[k] = v` keeps the keys distinct and listed exactly once; `k` now reads `v` and every other key what it read before; an existing key keeps its place, and a new key goes last |
| CommandHandlers.FirstMissing | botapp/command_handlers.py:43-45 | the first allowed name, in list order, that the namespace lacks, and none exactly when every name is bound |
| CommandHandlers.BuildDictContents | botapp/command_handlers.py:42-47 | the filled dictionary is well formed, its keys are exactly the allowed names, and each is bound to the namespace's value for it |
| CommandHandlers.BuildDictOfDistinct | botapp/command_handlers.py:42-47 | with distinct names, the dictionary is the names with their bindings, in list order |
| CommandHandlers.Resolve | botapp/command_handlers.py:34-47 | an absent module gives "No such commands module: <path>"; a missing name gives "No such command: <first missing name>"; success exactly when the module binds every name |
| CommandHandlers.CommandRegistrar.constructor | botapp/command_handlers.py:7-12 | a new registrar is not valid and has neither error nor handlers |
| CommandHandlers.CommandRegistrar.Handlers | botapp/command_handlers.py:14-18 | refused with "Commands not validated yet" exactly when the last `is_valid` did not succeed |
| CommandHandlers.CommandRegistrar.GetCommandsModule | botapp/command_handlers.py:34-38 | the namespace at the module path, or "No such commands module: <path>" |
| CommandHandlers.CommandRegistrar.Validate | botapp/command_handlers.py:40-47 | stores the resolved dictionary on success; a failure reports its message and leaves the stored dictionary alone |
| CommandHandlers.CommandRegistrar.IsValid | botapp/command_handlers.py:24-32 | returns and records whether validation succeeded; the error is cleared on success and is the failure's message otherwise |
| CommandHandlers.CommandRegistrar.RegisterCommands | botapp/command_handlers.py:49-51 | before validation it adds nothing; after it, one handler per dictionary entry, pairing name and binding, in order |
| CommandHandlers.Entries | botapp/command_handlers.py:50-51 | the handlers `register_commands` adds: one `CommandHandler(name, binding)` per dictionary entry, in the dictionary's order |
| CommandHandlers.Dispatcher.AddHandler | botapp/command_handlers.py:51 | appends exactly the one handler |
| CommandHandlers.RegisterAll | botapp/views.py:22-27 | validate then register: either the validation error and no handler, or one handler per allowed name, in order |
| CommandHandlers.AllowedCommandsDistinct | botapp/constants.py:33-42 | the allow-list names every command once |
| CommandHandlers.RegisterBotCommands | botapp/views.py:22-27 | with the bot's own allow-list, the registration adds eight handlers, one per command, in the allow-list's order |

## Left out

- `start` and `help` only send fixed texts (`START_TEXT`, `HELP_TEXT`). Their texts and the transport (`reply_text`, the webhook view, the dispatcher's `process_update`) are not modelled. Replies are returned values.
- Python `float()`/`int()` are modelled by a restricted grammar. The grammar is an optional sign, digits, and for amounts an optional point with at most two decimals.
  - Whitespace, underscores, exponents, "inf" and "nan" are read as non-numeric.
  - A token with three or more decimals (e.g. "1.005") is read as non-numeric. The bot would accept it and fail later in `full_clean`.
  - Float rounding and the float-to-Decimal conversion are not modelled. Every two-decimal token is read as its exact number of cents. In the bot the amount is a binary float, which the `DecimalField` converts at ten significant digits before checking the decimal places. So a two-decimal token that is not an exact binary fraction ("1.10", "0.99") may fail `full_clean` with a ValidationError, after `get_or_create` has already stored the chat. The model accepts such tokens.
- Utils.ParseAmount: works on the grammar above, in integer cents, rather than on binary floats.
- `Operation.get_transactions_by_interval` is called by `report` and `ReportParser`, but the repository does not define it. The model assumes a query of its own, `Models.TransactionsByInterval` over `Models.RowsInSpan`. It resolves the interval through a parameter `resolve` to a window, then keeps the chat's rows with `start <= createdAt <= end`, in ledger (creation) order. This filter is an assumption, not the bot's code. The guarantees that a report holds only the asking chat's operations from its window, oldest first, rest on it. Those guarantees are in `Parsers.ParseReport`, `Commands.Report`, `Models.RowsInSpan`, `Models.RowsInSpanKeepsOrder` and `Models.TransactionsByInterval`.
- The date of a report entry comes from `dateText`. Local time zones and `strftime` formatting are not modelled.
- Fresh ids are a counter (`Store.nextId`), not the database's sequence.
- `DO_NOTHING` on the foreign key, the cascade behaviour, transactions and concurrent requests are not modelled.
- `Chat.username` is modelled as a string. A user without a username (`None`) is not modelled.
- Django's model machinery and the DRF serializer are not modelled. So `ModelSerializer` and `botapp/serializers.py` are out. `update` already gives the partial-update meaning.
- `importlib.import_module`, `hasattr` and `getattr` become lookups in maps from paths to namespaces and from names to bindings.
- The base `Parser.parse_data` raises `NotImplementedError`, whose message is empty. `Parsers.ParseData` gives it as the error "".
- `update.effective_chat.id` and `update.effective_user.username` are passed in as `chat` and `username`.
- `get_or_create` matches both `chat_id` and `username`. So a user who renamed themselves makes every new operation raise IntegrityError. The model keeps this behaviour (`Commands.ChatClash`), since what was intended is not evident.

## Findings

| source | as written | input that shows it | evidently intended | confidence | as-written member | corrected member |
|---|---|---|---|---|---|---|
| botapp/commands.py:94-100 | a `-`-signed amount is passed to `parse_amount` with its sign, which refuses every value below 0.01, so the reply is "Invalid amount" and an update can only ever set the type to income; `UpdateParser` (botapp/parsers.py:105-107) does the same | `/update 7 -50 groceries` | the sign picks the type and the digits after it are the amount (the help text's `<±amount>`), so `-50` makes the operation an expense of 50.00 | high, not executed | Commands.MinusAmountRejected | Commands.IntendedPatch |

`Commands.Update` and `Parsers.ParseUpdate` keep the behaviour as written. `Commands.IntendedPatch` is the corrected update, and `Commands.IntendedSignPicksKind` proves that it honours the sign. `Commands.IntendedAgreesOnPlus` proves that it matches the written update on every `+` token.
