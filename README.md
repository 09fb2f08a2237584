# Personal-finance app: a verified model of its core

This project models the core of a small command-line personal-finance
application written in Python, and proves properties of the model. It covers
four parts:

- **The encrypted data file** (`src/encryption.py`). A blob is the 4-byte magic
  tag `FA1\0`, then a 16-byte salt, a 12-byte nonce and the AES-GCM
  ciphertext with its 16-byte tag. `derive_key` stretches the UTF-8 password
  with PBKDF2-HMAC-SHA256 (200,000 iterations, 32-byte key). `decrypt` checks
  only the magic tag and slices the rest apart. `hash_password_hex` is the
  hexadecimal SHA-256 digest used by the application lock. The three
  primitives are fields of a `Crypto` value. The ghost predicate `Lawful`
  states what is assumed of them:
  - PBKDF2 returns the requested length (RFC 8018, section 5.2);
  - AES-GCM (NIST SP 800-38D) adds a 16-byte tag and opens what it sealed;
  - whatever AES-GCM opens is exactly 16 bytes shorter than the ciphertext it
    was given (the tag is removed), so a successful decryption implies a tag;
  - SHA-256 (FIPS 180-4) returns 32 bytes.

  UTF-8 (RFC 3629) and hexadecimal are modelled concretely, each with a decoder
  and a round trip (`bytes.dfy`).
- **The records and their dictionaries** (`src/models.py`). `TxType`, and
  `to_dict`/`from_dict` for `Transaction`, `Account`, `Category` and `AppLock`.
  A dictionary is a `map<string, Value>` of JSON scalars.
- **The services** (`src/services.py`).
  - `TransactionService` is a class whose `seq` fields its methods reassign:
    add, edit, delete, get, list, search by category, filter by date range and
    recalculate balances.
  - `StatisticsService` computes the income and spending totals of a period
    and the top-N categories.
  - Each method follows the source's loops. It is proved equal to a
    specification function (`Rebalanced`, `Totals`, `TopCategoriesSpec`,
    `WithoutId`, ...), and lemmas state what those functions mean.
- **Start-up and the application lock** (`src/main.py`, lines 55-88 and
  210-224). The class `App` holds the loaded lists and lock record, plus a log
  of what is handed to `storage.save`.
  - At start-up, the lock is checked: up to five password prompts, a counter
    of wrong answers that carries over between runs, and a 600-second lock.
  - The default account and categories are added when their lists are empty.
  - Menu entry 12 sets or clears the lock.

  The lines typed at the prompts are a sequence. The clock readings and fresh
  UUIDs are parameters.

Amounts are exact `real`s. Python's `str` comparison, `s[:n]` with a possibly
negative `n`, clamping slices and the stable `sorted` are written out in
`seqs.dfy`.

The code and the design description disagree on one point, and the model
follows the code. The design says `decrypt` rejects a blob shorter than the
32-byte header with a format error. The code has no length check: the slices
clamp, and such a blob fails only when AES-GCM rejects it
(`Encryption.TruncatedBlobFailsInAead`).

## Model

| member | source | states |
|---|---|---|
| Encryption.DeriveKey | src/encryption.py:22-32 | the key is PBKDF2 of the UTF-8 password with the salt and iteration count (default 200,000) and, under the laws, exactly 32 bytes |
| Encryption.Encode | src/encryption.py:42 | the blob is magic, salt, nonce and ciphertext in that order: its length is their sum, and each part sits at its fixed offset when salt and nonce are 16 and 12 bytes |
| Encryption.Parse | src/encryption.py:45-51 | fails (ValueError) exactly when the blob does not start with the magic tag; otherwise the parts re-encode to the blob, are full-sized exactly when the blob has 32 bytes or more, and the clamped slices fill the salt first, then the nonce, so a shorter blob leaves a short salt or nonce and an empty ciphertext (no length check) |
| Encryption.ParseEncode | src/encryption.py:42-51 | framing round trip: slicing a blob built from a 16-byte salt and 12-byte nonce recovers exactly those parts |
| Encryption.Encrypt | src/encryption.py:35-42 | the blob starts with the magic tag, carries the given salt and nonce at offsets 4 and 20, and under the laws is 32 + plaintext + 16 bytes long |
| Encryption.Decrypt | src/encryption.py:45-55 | a blob without the magic tag fails with the magic error whatever the primitives do; a blob with it never fails that way |
| Encryption.EncryptDecrypt | src/encryption.py:35-55 | decrypting what was encrypted with the same password gives the plaintext back, for every salt and nonce |
| Encryption.DecryptedShape | src/encryption.py:45-55 | whatever decrypts came from a blob of 32 header bytes plus the plaintext plus a 16-byte tag |
| Encryption.TruncatedBlobFailsInAead | src/encryption.py:45-55 | a blob with the magic tag but too short for header and tag is not rejected by a length check; it fails in AES-GCM |
| Encryption.HashPasswordHex | src/encryption.py:58-63 | the stored hash is lower-case hexadecimal only and, under the laws, 64 characters; it depends on the password alone |
| Encryption.HashPasswordHexMatches | src/encryption.py:58-63 | two passwords give the same hash exactly when SHA-256 gives their UTF-8 encodings the same digest |
| Bytes.EncodeChar | src/encryption.py:24 | one character encodes to 1 to 4 bytes, and to 1 byte exactly when it is ASCII |
| Bytes.Utf8Encode | src/encryption.py:24 | `str.encode("utf-8")` gives between one and four bytes per character, and an ASCII string gives its own code points |
| Bytes.Utf8RoundTrip | src/encryption.py:24 | decoding the UTF-8 encoding of a string gives the string back |
| Bytes.Utf8Injective | src/encryption.py:24 | two passwords have the same UTF-8 bytes exactly when they are equal |
| Bytes.Hex | src/encryption.py:63 | `bytes.hex()` gives two lower-case hexadecimal digits per byte |
| Bytes.HexRoundTrip | src/encryption.py:63 | reading the hexadecimal form back gives the bytes |
| Bytes.HexInjective | src/encryption.py:63 | two digests have the same hexadecimal form exactly when they are equal |
| Models.TxTypeValue | src/models.py:11-13 | every member's value is "income" or "expense" |
| Models.TxTypeOf | src/models.py:11-13 | `TxType(s)` succeeds exactly for "income" and "expense", giving the member with that value |
| Models.TxTypeRoundTrip | src/models.py:11-13 | `TxType(t.value)` is `t` |
| Models.GetText | src/models.py:35-42 | a missing key gives the default, a string value is returned as is, any other value is an error |
| Models.GetFloat | src/models.py:37 | `float(d.get(key, default))`: a missing key gives the default, a number its value as a float, a bool 1.0 or 0.0, `None` or text an error |
| Models.Truncate | src/models.py:107-108 | `int(x)` of a float truncates toward zero |
| Models.GetInt | src/models.py:107-108 | `int(d.get(key, default))`: a missing key gives the default, an integer itself, a float its truncation, a bool 1 or 0, `None` or text an error |
| Models.GetBool | src/models.py:105 | `bool(d.get(key, default))`: a missing key gives the default, and a stored value is false exactly when it is `None`, `False`, zero or the empty string |
| Models.GetTxType | src/models.py:36 | a missing key gives Expense; a present value succeeds exactly when it is "income" or "expense", giving the member with that value, and anything else raises |
| Models.TransactionFromDict | src/models.py:33-43 | succeeds exactly when every present field has a usable value: strings for the text fields, one of the two type values, a number or bool for the amount; the values are fixed by `TransactionDefaults`, `TransactionDictFields` and `TransactionRoundTrip` |
| Models.TransactionToDict | src/models.py:27-30 | the dictionary has exactly the eight field keys |
| Models.TransactionRoundTrip | src/models.py:27-43 | `from_dict(to_dict(t))` is `t`, with `type` stored as its value |
| Models.TransactionDefaults | src/models.py:33-43 | an empty dictionary gives an Expense with amount 0 and empty strings |
| Models.TransactionDictFields | src/models.py:33-43 | a dictionary of the written shape is read field by field from its own keys |
| Models.TransactionDictRoundTrip | src/models.py:27-43 | writing back what was read from a dictionary of the written shape reproduces it |
| Models.AccountFromDict | src/models.py:58-65 | succeeds exactly when the text fields hold strings and the balances numbers or bools; the values are fixed by `AccountDefaults` and `AccountRoundTrip` |
| Models.AccountToDict | src/models.py:54-55 | the dictionary has exactly the five field keys |
| Models.AccountRoundTrip | src/models.py:54-65 | `from_dict(to_dict(a))` is `a` |
| Models.AccountDefaults | src/models.py:57-65 | an empty dictionary gives empty strings and zero balances |
| Models.CategoryFromDict | src/models.py:82-89 | succeeds exactly when the text fields hold strings and the type is one of the two values; the values are fixed by `CategoryDefaults` and `CategoryRoundTrip` |
| Models.CategoryToDict | src/models.py:76-79 | the dictionary has exactly the five field keys |
| Models.CategoryRoundTrip | src/models.py:76-89 | `from_dict(to_dict(c))` is `c`, through the `TxType` value |
| Models.CategoryDefaults | src/models.py:81-89 | an empty dictionary gives colour "#000000" and Expense |
| Models.AppLockFromDict | src/models.py:103-109 | succeeds exactly when the hash is a string and the counter and deadline numbers or bools (`enabled` takes any value by truthiness); the values are fixed by `AppLockDefaults` and `AppLockRoundTrip` |
| Models.AppLockToDict | src/models.py:99-100 | the dictionary has exactly the four field keys |
| Models.AppLockRoundTrip | src/models.py:99-109 | `from_dict(to_dict(l))` is `l` |
| Models.AppLockDefaults | src/models.py:102-109 | an empty dictionary gives a disabled lock, empty hash, no failures, no deadline |
| Services.TransactionService.constructor | src/services.py:11-15 | the service holds the lists it is given |
| Services.TransactionService.AddTransaction | src/services.py:17-22 | the list grows by the transaction at the end, which gets the fresh id only when it has none; balances are recalculated; it returns the stored transaction |
| Services.TransactionService.EditTransaction | src/services.py:24-32 | with a match, only the first position with that id is replaced (an empty new id becomes the old one), balances are recalculated and it returns true; without, nothing changes and it returns false |
| Services.Replacement | src/services.py:27-29 | the stored transaction is the new one, with the old id exactly when the new id is empty |
| Services.TransactionService.DeleteTransaction | src/services.py:34-40 | every transaction with that id goes and the rest stay in order; it returns true exactly when one had that id, and only then are balances recalculated |
| Services.WithoutId | src/services.py:36 | the kept transactions are exactly those with another id, each as often as it occurs, and the length is unchanged exactly when none had that id |
| Services.TransactionService.GetTransaction | src/services.py:42-46 | returns the first transaction with the id, or None exactly when there is none |
| Services.TransactionService.ListTransactions | src/services.py:48-49 | the copy has the stored transactions in stored order |
| Services.TransactionService.SearchByCategory | src/services.py:51-52 | returns exactly the stored transactions of that category, each as often as it is stored |
| Services.ByCategory | src/services.py:52 | keeps exactly the transactions of that category, each as often as it occurs, no more than there were |
| Services.TransactionService.FilterByDateRange | src/services.py:54-61 | returns exactly the stored transactions whose date string passes both bounds, an empty bound passing everything, each as often as it is stored |
| Services.InDateRange | src/services.py:54-61 | keeps exactly the transactions inside the period, each as often as it occurs, no more than there were |
| Seqs.FilterMembers | src/services.py:61 | a list comprehension keeps exactly the elements that satisfy its condition |
| Seqs.FilterKeepsAll | src/services.py:36-37 | a comprehension keeps the length exactly when every element satisfies its condition, and then the list is unchanged |
| Seqs.FilterConcat | src/services.py:61 | filtering two lists joined is joining the filtered lists, order kept |
| Seqs.FilterMultiplicity | src/services.py:61 | each kept element keeps its number of occurrences, a dropped one has none |
| Services.TransactionService.RecalculateBalances | src/services.py:63-75 | every account ends as its initial balance plus the effect of every transaction on it (`Rebalanced`); transactions and categories unchanged |
| Services.TransactionService.ResetBalances | src/services.py:64-66 | every balance becomes the initial balance, nothing else changes |
| Services.TransactionService.ApplyTransaction | src/services.py:70-75 | each account the transaction names moves up by an income's amount and down by any other amount; other accounts are untouched |
| Services.RebalancedStep | src/services.py:69-75 | one pass of the outer loop extends the recalculation by one transaction |
| Services.BalancedAppend | src/services.py:70-75 | one more transaction moves a balance by its effect and changes nothing else |
| Services.RebalancedSorted | src/services.py:68-69 | applying the transactions in date order gives the same balances as in stored order |
| Services.DatetimeBeforeIsStrict | src/services.py:68 | ordering by date string is a strict order |
| Services.DateOrder | src/services.py:68 | the date-sorted list is a reordering of the transactions with no transaction after one of larger date |
| Seqs.SortBy | src/services.py:68 | `sorted` returns a reordering of its input |
| Seqs.SortByStable | src/services.py:68 | `sorted` is stable: within any class of mutually tied elements the result keeps the input's order, repeats included |
| Seqs.SortBySorted | src/services.py:68 | under a strict order, `sorted`'s result has no element after one it must precede |
| Seqs.SumOfSortBy | src/services.py:68-75 | sorting does not change a sum |
| Seqs.StrLessIrreflexive | src/services.py:68 | no string is less than itself |
| Seqs.StrLessTransitive | src/services.py:68 | string order is transitive |
| Services.NetIsIncomeMinusSpending | src/services.py:70-75 | an account's net effect is the sum of its incomes minus the sum of its other amounts |
| Services.RebalancedBalance | src/services.py:63-75 | after recalculation each balance is initial + incomes - other amounts of that account, other fields unchanged |
| Services.UnknownAccountIgnored | src/services.py:70-71 | a transaction naming no known account changes no balance |
| Services.RebalancedAppend | src/services.py:17-22 | adding a transaction moves each account's recomputed balance by that transaction's effect on it |
| Services.RebalancedIdempotent | src/services.py:63-75 | recalculating twice is recalculating once |
| Services.StatisticsService.constructor | src/services.py:78-81 | the service holds the lists it is given |
| Services.StatisticsService.CalculateTotals | src/services.py:83-95 | returns the sum of income amounts and the sum of all other amounts over the transactions inside the period (`Totals`) |
| Services.TotalsStep | src/services.py:86-94 | one loop step adds an in-period income to the first total, another in-period amount to the second, and skips the rest |
| Services.PeriodSumStep | src/services.py:86-94 | one loop step adds a transaction's amount exactly when it passes the test |
| Services.TotalsPartitionPeriod | src/services.py:91-94 | income and spending together are the sum of all in-period amounts: every in-period transaction is counted once |
| Services.TotalsConcat | src/services.py:86-95 | totals over two lists joined are the sums of their totals |
| Services.StatisticsService.TopCategories | src/services.py:97-116 | returns `TopCategoriesSpec`: the first top_n per-category sums, largest first, each with its name |
| Services.StatisticsService.CategoryName | src/services.py:110-114 | the name of the first category with that id, or the id itself |
| Services.NameOf | src/services.py:110-114 | the name shown is that of the first category with the id, and the id when none has it |
| Services.AccumulateStep | src/services.py:99-106 | one loop step bumps the dictionary exactly when the transaction has the kind and passes the date bounds |
| Services.Bump | src/services.py:106 | the dictionary gains at most one entry, and every other category keeps its entry and place; `BumpSums` states the sums |
| Services.Accumulate | src/services.py:98-106 | no more entries than selected transactions; `AccumulateSums` and `AccumulateStep` state the entries |
| Services.BumpSums | src/services.py:106 | `sums[cid] = sums.get(cid, 0.0) + amount` keeps one entry per category with its running sum |
| Services.AccumulateSums | src/services.py:98-106 | the dictionary has one entry per category of the selected transactions, each holding that category's sum |
| Services.CategorySumAppend | src/services.py:106 | a category's sum grows by a transaction's amount exactly when it is of that category |
| Services.CategorySumAbsent | src/services.py:106 | a category with no selected transaction sums to zero |
| Services.TotalAboveIsStrict | src/services.py:107 | "larger total" is a strict order, so the descending sort is well defined |
| Services.DistinctKeysPermutation | src/services.py:107 | sorting keeps the category keys distinct |
| Services.PermutedKeys | src/services.py:107 | sorting keeps the set of categories |
| Services.PermutedTotals | src/services.py:107 | sorting keeps each category's sum |
| Services.RankedFacts | src/services.py:107 | the ranking holds exactly the selected categories with their sums, totals never increasing |
| Services.RankedTiesInDictOrder | src/services.py:98-109 | categories with equal totals are ranked in the order the dictionary first met them, which decides which of them a top_n cut keeps |
| Services.RankedDistinct | src/services.py:98-107 | no category appears twice in the ranking |
| Services.LeftOutIsBelow | src/services.py:107-109 | a category left out of the first n ranked entries totals no more than any of them |
| Services.RowsAt | src/services.py:109-116 | row i is ranked entry i with its name looked up |
| Services.RowsStep | src/services.py:109-116 | the output loop appends one row per entry, in order |
| Services.TopCategoriesShape | src/services.py:107-116 | the rows are the first top_n ranked entries (Python slicing for a negative top_n), with their names |
| Services.TopCategoriesRows | src/services.py:97-116 | each row is a category of the requested kind in the period, with the sum of its amounts |
| Services.TopCategoriesOrdered | src/services.py:107-109 | no category appears twice and the totals never increase |
| Services.TopCategoriesAreTop | src/services.py:107-109 | a selected category that is left out totals no more than any row, and is left out only because top_n rows are there |
| Services.TopCategoriesCount | src/services.py:109 | at most top_n rows, and fewer only when every selected category is already listed |
| Seqs.PyHead | src/services.py:109 | `items[:top_n]` is a prefix of length top_n clamped to the list, a negative top_n dropping entries from the end |
| Seqs.Slice | src/encryption.py:49-50 | `blob[lo:hi]` is the slice when in range; past the end it is `blob[lo:]`, clamped |
| Seqs.Drop | src/encryption.py:51 | `blob[pos:]` is the tail, empty past the end |
| Seqs.FirstIndexWhere | src/services.py:25-26 | the index of the first element satisfying a test, or none exactly when none does |
| App.PromptLoop | src/main.py:62-75 | a success resets the counter and keeps the deadline, input running out keeps the deadline, and the deadline only ever becomes the lock time plus 600 s; `PromptLoopSuccess`, `PromptLoopFailure`, `PromptLoopFailureEnd` and `AllWrongLocks` state the rest |
| App.Unlock | src/main.py:55-79 | only the counter and the deadline change; a disabled lock proceeds and a deadline still ahead leaves at once, both untouched; the locked-and-saved outcome has its deadline after the exit time; `ProceedNeedsPassword`, `FiveWrongLockAndSave` and the negative-counter lemmas state the rest |
| App.PromptLoopSuccess | src/main.py:62-68 | a successful loop ends at a matching password after only wrong ones, resets the counter and keeps the deadline |
| App.PromptLoopFailure | src/main.py:62-75 | a failed loop saw only wrong answers, each counted once |
| App.PromptLoopFailureEnd | src/main.py:69-75 | a failed loop sets the deadline to the clock plus 600 s exactly when the counter reached 5, and otherwise ran out of prompts or input |
| App.PromptLoopBound | src/main.py:63 | at most five prompts are shown |
| App.AllWrongLocks | src/main.py:62-75 | from a non-negative counter, only wrong answers always end in the lock, after 5 - counter prompts (one when already at 4 or more) |
| App.CounterCarriesOver | src/main.py:69-79 | with four stored failures one wrong password sets the lock and saves |
| App.FiveWrongLockAndSave | src/main.py:62-79 | from any non-negative stored counter, wrong passwords at every prompt end with the counter at five or more, the application locked for 600 s from the last prompt, and the state saved before exit |
| App.ProceedNeedsPassword | src/main.py:55-79 | with a sane counter, an enabled lock lets start-up reach the menu only after a password hashing to the stored hash |
| App.NegativeCounterEscapesLock | src/main.py:69-75 | a stored counter of -1 lets five wrong answers through without setting the lock |
| App.NegativeCounterProceeds | src/main.py:55-79 | with that counter, five wrong passwords lead on to the menu |
| App.App.constructor | src/main.py:45 | the application holds what `storage.load` returned and has saved nothing |
| App.App.CheckAppLock | src/main.py:55-79 | outcome and lock record are those of `Unlock`: disabled proceeds, a deadline in the future stops without prompting, a failed loop with the lock in force saves once and stops; the lists never change |
| App.App.PromptForPassword | src/main.py:62-75 | the counter, deadline and result are those of `PromptLoop`; only those two lock fields change |
| App.LockSetting | src/main.py:210-224 | option "1" enables with the hash of the new password, anything else disables with an empty hash; both clear counter and deadline |
| App.App.LockSettings | src/main.py:210-224 | the lock record becomes `LockSetting`; nothing else changes |
| App.EnabledPasswordUnlocks | src/main.py:210-217 | after the lock is set, the next start-up accepts that password at the first prompt and reaches the menu |
| App.UnlockingPasswords | src/main.py:215 | the passwords that unlock are those whose SHA-256 digest equals that of the password set |
| App.WithDefaultAccount | src/main.py:82-84 | the account list is non-empty; it gains the cash account only when it was empty |
| App.WithDefaultCategories | src/main.py:85-88 | the category list is non-empty; it gains a red expense and a green income category only when it was empty |
| App.DefaultsIdempotent | src/main.py:82-88 | supplying defaults a second time changes nothing |
| App.App.EnsureDefaults | src/main.py:82-88 | accounts and categories become `WithDefaultAccount` and `WithDefaultCategories`; nothing else changes |
| App.App.Start | src/main.py:55-88 | the lock check, then, only when the menu is reached, the defaults; the state is saved exactly on the locked-and-saved outcome, once, and at no other outcome |

## Left out

- PBKDF2, AES-GCM and SHA-256 are parameters, constrained only by `Lawful`. No claim that rests on their cryptographic strength is made: wrong-password and tamper rejection, and key uniqueness, are not modelled.
- `os.urandom` (salt and nonce), `time.time()`, `utils.generate_uuid()` and `input()` are replaced by parameters. Running out of input at a password prompt raises in the source; the model reports it as the `InputEnded` outcome, with no save.
- Passwords are Python `str` values. The `bytes` branch of `derive_key` (a password already given as bytes) is not modelled.
- Models.GetFloat and Models.GetInt: numeric strings (`float("1.5")`) are not parsed; such a value is a `FieldError`, as is `None`.
- Models.GetText: a non-string value under a string key is a `FieldError`. The source would store it in the field unchanged.
- Amounts are exact reals, so float rounding in balances and totals is not modelled.
- Lists and records are values, not shared objects.
  - `add_transaction` sets the id on the caller's object in place, and main.py's `txs` is the same list the services hold.
  - `delete_transaction` rebinds the service's list, while main.py keeps saving its own.
  - Services.TransactionService.GetTransaction returns an equal value, not the same object.
- The dictionary `sums` of `top_categories` is an insertion-ordered association list, the order Python dictionaries keep.
- `ExportService`, `DataBundle`'s JSON, `storage.py`, `utils.py`, and the rest of the CLI menu are not part of this model.
- A stored `wrong_attempts` below zero is accepted as written. From -1, five wrong passwords reach the menu without setting the lock (`App.NegativeCounterEscapesLock`, `App.NegativeCounterProceeds`). `from_dict` can produce such a record, but the application itself never writes one.
