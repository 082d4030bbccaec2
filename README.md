# REMIT question generator: question bank, request retries and reply cleaning

This project models the sequential logic of `soru_uretici.py`, a Streamlit page that asks a
Google Gemini model for a multiple-choice REMIT compliance question and can save it to a JSON
question bank. Three pieces are modelled and proved:

- **Question bank** (`question_bank.dfy`). The bank file is `Missing`, `Unreadable`, or `Stored`
  as an array of question records. `Bank.Load` reads a missing or unreadable file as an empty
  list. `Bank.Save` takes the caller's question object (`Question`, the dictionary the source
  mutates). It writes the next id into that object, appends the record and rewrites the file.
  The next id is the last record's `id` plus one (a missing `id` counts as 0), or 1 for an empty bank.
- **Request loop** (`retry.dfy`). `Generate` makes at most three attempts. The model's replies are
  an input sequence of outcomes (`Replied` or `Raised` with the exception's message). The JSON parser
  is a function parameter that may fail with a message. The seconds slept before each retry are
  returned as a sequence. Only a failure whose message contains "429" is retried.
- **Reply cleaning** (`fences.dfy`, over Python string primitives in `text.dfy`). It removes every
  "```json", then every "```", then strips the surrounding whitespace (Python's `str.isspace`
  characters).

Points of the code's behaviour worth knowing:

- The next id is the LAST record's id plus one, not the largest stored id plus one
  (soru_uretici.py:93-94). `QuestionBank.LastIdNotMaximum` shows a bank where this repeats an id.
  `QuestionBank.MissingLastIdRestartsAtOne` shows that a last record without an id restarts numbering at 1.
  A bank only ever written by saves stays numbered 1..n (`QuestionBank.SaveKeepsSequential`).
- A reply that fails to parse is retried when the parse error's message contains "429", because the
  parse runs inside the same `try` as the request (soru_uretici.py:138-151). A decoder message
  pointing at "char 429" is one such message (`Retry.ParseErrorMentioning429IsRetried`).
- The source comment promises waits of 5, 10 and 15 seconds. Only 5 and 10 ever happen, because no
  wait follows the third attempt.

The source returns `None` on every failure. `Retry.Outcome` keeps which of its three error messages it
showed: model initialisation failed, quota still exhausted, or another API error.

## Model

| member | source | states |
|---|---|---|
| `QuestionBank.Bank.Load` | soru_uretici.py:78-86 | a missing or unreadable file loads as the empty list, never an error; otherwise the stored array |
| `QuestionBank.Bank.Save` | soru_uretici.py:88-107 | returns the id the last record (or empty bank) dictates, writes that id into the caller's question, and leaves the file holding the old records plus that question at the end |
| `QuestionBank.AppendedKeepsEarlierRecords` | soru_uretici.py:99-105 | a save keeps all earlier records unchanged and adds exactly one record at the end, the saved question carrying the assigned id |
| `QuestionBank.FirstSaveGetsIdOne` | soru_uretici.py:93-96 | saving into an empty bank assigns id 1 |
| `QuestionBank.AppendedAllNumbersOn` | soru_uretici.py:93-102 | successive saves keep the earlier records and store the questions in order with ids counting on by one from the first assigned id |
| `QuestionBank.SavesFromEmptyBank` | soru_uretici.py:93-102 | N saves into an empty bank store the N questions in order with ids 1..N |
| `QuestionBank.SaveKeepsSequential` | soru_uretici.py:93-102 | a bank numbered 1..n is numbered 1..n+1 after a save, which assigns n+1 |
| `QuestionBank.SequentialIdsAreUnique` | soru_uretici.py:93-96 | in a bank numbered 1..n no two records share an id |
| `QuestionBank.LastIdNotMaximum` | soru_uretici.py:93-94 | the next id follows the last record, so a bank whose last id is below an earlier one gets a repeated id |
| `QuestionBank.MissingLastIdRestartsAtOne` | soru_uretici.py:94 | a last record without an "id" key counts as id 0, so the next id is 1 |
| `Retry.Generate` | soru_uretici.py:112-164 | an init failure makes no attempt; otherwise 1..3 attempts, all but the last a "429" failure, waits exactly 5, 10, ... before each retry (never 15), and the last attempt decides: parsed question, quota exhausted only on the third attempt, or the other failure's message |
| `Retry.ThreeQuotaErrors` | soru_uretici.py:151-159 | three "429" failures give waits [5, 10] and the quota failure after three attempts |
| `Retry.QuotaTwiceThenSuccess` | soru_uretici.py:137-156 | two "429" failures then a parsing reply return that reply's question after waits [5, 10] |
| `Retry.FirstReplyParses` | soru_uretici.py:137-146 | a first reply that parses is returned after one attempt with no wait |
| `Retry.OtherErrorStopsAtOnce` | soru_uretici.py:160-164 | a first failure without "429" (including a parse failure) ends the request after one attempt, with no wait, reporting its message |
| `Retry.ParseErrorMentioning429IsRetried` | soru_uretici.py:144-156 | a parse error whose message contains "429" is retried after 5 seconds like a quota error |
| `Retry.CharPosition429LooksLikeQuota` | soru_uretici.py:146-151 | a decoder message pointing at character 429 passes the "429" test |
| `Retry.FencedReplyParsesLikeBody` | soru_uretici.py:141-146 | a reply wrapped in a "```json" fence gives the same attempt result as its bare body |
| `Fences.CleanedReply` | soru_uretici.py:144 | the cleaned reply contains no "```" and has no whitespace at either end |
| `Fences.NoFenceAfterRemoval` | soru_uretici.py:144 | removing every "```" leaves no "```", not even one formed across a removed fence |
| `Fences.FencedBodyCleansLikeBody` | soru_uretici.py:144 | "```json" + body + "```" cleans to the same text as the body, for a body without backticks |
| `Text.TrimStartCutsLeadingSpace` | soru_uretici.py:144 | the result is a suffix of the input, everything cut off is whitespace, and it does not start with whitespace |
| `Text.TrimEndCutsTrailingSpace` | soru_uretici.py:144 | the result is a prefix of the input, everything cut off is whitespace, and it does not end with whitespace |
| `Text.StripIsTrimmedSlice` | soru_uretici.py:144 | the result is a slice of the input between two whitespace runs, and neither starts nor ends with whitespace |
| `Text.StripKeepsAbsence` | soru_uretici.py:144 | stripping never creates an occurrence of a substring |
| `Text.RemoveAllSkipsPlainPrefix` | soru_uretici.py:144 | a prefix without the pattern's first character passes through the removal unchanged |
| `QuestionBank.NextId` | soru_uretici.py:93-96 | definition of the id a save assigns (last record's id or 0, plus one; 1 for an empty bank); its properties are proved by `QuestionBank.FirstSaveGetsIdOne`, `QuestionBank.MissingLastIdRestartsAtOne` and `QuestionBank.SaveKeepsSequential` |
| `QuestionBank.Appended` | soru_uretici.py:99-102 | definition of the bank after one save; its properties are proved by `QuestionBank.AppendedKeepsEarlierRecords` and `QuestionBank.AppendedAllNumbersOn` |
| `Retry.TryOnce` | soru_uretici.py:140-146 | definition of one pass through the request's `try` body (reply text, cleaning, parsing); `Retry.Generate` and `Retry.FencedReplyParsesLikeBody` state its use |
| `Fences.Clean` | soru_uretici.py:144 | definition of the reply cleaning; its properties are proved by `Fences.CleanedReply` and `Fences.FencedBodyCleansLikeBody` |
| `Text.RemoveAll` | soru_uretici.py:144 | Python's `str.replace(pat, "")`; its contract states the result is no longer than the input, and `Fences.NoFenceAfterRemoval` and `Text.RemoveAllSkipsPlainPrefix` prove its properties |
| `Text.TrimStart` | soru_uretici.py:144 | definition of `str.lstrip()`; its properties are proved by `Text.TrimStartCutsLeadingSpace` |
| `Text.TrimEnd` | soru_uretici.py:144 | definition of `str.rstrip()`; its properties are proved by `Text.TrimEndCutsTrailingSpace` |
| `Text.Strip` | soru_uretici.py:144 | definition of `str.strip()`; its properties are proved by `Text.StripIsTrimmedSlice` and `Text.StripKeepsAbsence` |
| `Text.Contains` | soru_uretici.py:151 | definition of Python's `pat in s`; `Retry.CharPosition429LooksLikeQuota` and `Fences.NoFenceAfterRemoval` use it |

## Left out

- The Streamlit page, session state, buttons and the review/download panel (soru_uretici.py:11-74, 166-227) are display glue.
- The Gemini client (`genai.configure`, `GenerativeModel`, `generate_content`) is a network call. It is modelled only as an optional initialisation error and a sequence of replies.
- File I/O and JSON (de)serialisation are library calls. The file is the `BankFile` state and is assumed to read back exactly what was written. The write itself is assumed to succeed; the source lets an error while writing propagate.
- The JSON parser of replies is a function parameter. What it accepts and its error messages are not modelled.
- `time.sleep` is not performed; each requested duration is recorded in `waits`.
- The warning, error and info messages shown to the user are not modelled. The kind of failure is kept in `Retry.Outcome`.
- A bank file whose JSON is not an array of objects, and ids that are not integers, are not modelled. For a non-array file or a non-numeric id the source raises `KeyError`, `TypeError` or `AttributeError` in `save_question_to_file`. A float or boolean id is silently assigned last + 1 (2.5 gives 3.5, `true` gives 2).
- The fixed prompt text and the model table with its display formatting (soru_uretici.py:34-56, 118-133) are constants with no behaviour.
- Retry.Generate: requires at least three replies in the input sequence, one per possible attempt; the real provider always answers each call.
