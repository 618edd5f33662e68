# PW batch exporter bot, modelled in Dafny

The bot is a Telegram conversation that runs under `/pw`. It asks for a PW token, then for a batch link or batch id. It reads the batch's subjects from the PW API, pages through each subject's contents and writes one `title: url` line per item to a text file, which it sends back to the user. The repository ships it in two versions:

- `pw_handler.py` asks for `&`-separated subject ids and exports one file per requested subject (`<batch>_<subject>.txt`).
- `main.py` exports every subject of the batch into one file (`<batch>_full_batch.txt`). Each subject gets a `==== NAME ====` header.

The model has one module per concern:

| module | file | models |
|---|---|---|
| `Wrappers` | `wrappers.dfy` | `Option`, Python's `dict.get(key, default)`, and one sequence fact |
| `Text` | `text.dfy` | `str.strip()` (the whitespace set of `str.isspace()`), `str.upper()` on ASCII letters, `str.split(sep)` and `sep.join`, and the text of a file written line by line |
| `BatchId` | `batch_id.dfy` | `extract_batch_id_from_url`, defined identically in both files: the leftmost `/batch/` followed by a greedy `[a-zA-Z0-9]+` run, otherwise the stripped input |
| `Pagination` | `pagination.dfy` | the `page = 1; while True` loop that reads pages up to the first empty one |
| `Content` | `content.dfy` | the server's answers as a value, and the `title: url` line format with its two filters |
| `PwHandler` | `pw_handler.dfy` | `pw_handler.py`: subject-name resolution, the `&` parsing, `save_batch_contents`, the per-piece loop, and the four-state conversation as a function and as a `Session` class |
| `FullBatchBot` | `main_bot.dfy` | `main.py`: `save_full_batch` and the three-state conversation |

Both API calls, `get_subjects` and `get_batch_contents`, become lookups in a `Server` value. A key that is absent stands for a non-200 answer, for which both calls return an empty list. Page `n` of a subject is the `n`-th element of its page sequence; every page past the end is empty.

Things the outside world decides are inputs to the model:

- whether `get_subjects` raises (`detailsRaise`);
- whether sending a file to the user raises (`sendFails`).

The conversation is a pure `Step` function over `(state, user_data)`. A `Session` class holds the same fields and updates them in place. `Session.Receive` is proved to follow `Step`. `End` stands for "no active conversation":

- `/pw` starts a conversation only when none is active;
- a text message with no active conversation is ignored;
- the last handler of each version (`handle_subject_ids`, and `handle_batch_link` in `main.py`) always returns `END`.

Both versions define `extract_batch_id_from_url` with the same regular expression. They accept the same URL shapes.

## Model

| member | source | states |
|---|---|---|
| Text.TrimStartSpec | pw_handler.py:24 | `lstrip` removes exactly the leading whitespace: what remains is a suffix, everything removed is whitespace, and the result does not start with whitespace |
| Text.TrimEndSpec | pw_handler.py:24 | `rstrip` removes exactly the trailing whitespace, symmetrically |
| Text.StripSpec | pw_handler.py:24 | `strip()` gives the contiguous middle of the input: everything before and after it is whitespace, and a non-empty result neither starts nor ends with whitespace |
| Text.StripWindow | pw_handler.py:24 | the stripped text, index by index, is the input shifted by the leading whitespace |
| Text.StripUnchanged | pw_handler.py:103 | a string with no whitespace at either end is its own strip |
| Text.StripNoSpace | pw_handler.py:24 | a string without whitespace is its own strip |
| Text.StripIdempotent | pw_handler.py:72-73 | stripping twice is stripping once |
| Text.UpperChar | main.py:52 | `upper()` maps `a`-`z` to `A`-`Z` (code point minus 32) and leaves every other character alone; no lower-case ASCII letter remains |
| Text.Upper | main.py:52 | `upper()` keeps the length and maps every character by `UpperChar` |
| Text.SplitCount | pw_handler.py:96 | `split("&")` yields one more piece than there are `&` |
| Text.SplitPiecesFree | pw_handler.py:96 | no piece of a split contains the separator |
| Text.JoinSplit | pw_handler.py:96 | joining the pieces with the separator gives back the input |
| Text.SplitAfterPiece | pw_handler.py:96 | a separator-free prefix followed by the separator splits off as the first piece |
| Text.SplitJoin | pw_handler.py:96 | splitting a join of separator-free pieces gives the pieces back |
| Text.SplitNoSep | pw_handler.py:96 | text without the separator splits into itself alone |
| Text.LinesSingle | pw_handler.py:57 | writing one line gives that line and a newline |
| Text.LinesAppend | pw_handler.py:53-57 | the text of lines written in two runs is the text of the first run, then that of the second |
| Text.LinesConsFront | pw_handler.py:53-57 | the text of a line sequence is its first line with a newline, then the rest |
| Text.LinesIsJoin | pw_handler.py:53-57 | the text written line by line is the lines joined by newlines, ending in a newline |
| Text.SplitLines | pw_handler.py:53-57 | when no line contains a newline, splitting the file text at newlines gives the lines back, plus the empty rest |
| BatchId.FirstMatch | pw_handler.py:23 | `re.search` finds the leftmost index at which there is `/batch/` followed by an alphanumeric; no match means there is none at any index |
| BatchId.AlnumRun | pw_handler.py:23 | the greedy `[a-zA-Z0-9]+` is a slice of the input, all alphanumeric, and not followed by another alphanumeric |
| BatchId.ExtractBatchId | pw_handler.py:21-24 | on a match, the id is non-empty, all alphanumeric, and is the maximal run right after the first `/batch/`; without one it is the stripped input |
| BatchId.ExtractAtFirstMatch | pw_handler.py:23-24 | a match with none before it determines the id |
| BatchId.ExtractWithoutMatch | pw_handler.py:24 | with no match anywhere, the id is the stripped input |
| BatchId.MatchInsideStrip | pw_handler.py:72-73 | every match in a message lies inside its stripped text, at the same place |
| BatchId.MatchFromStrip | pw_handler.py:72-73 | every match in the stripped text is a match in the message |
| BatchId.AlnumRunUnique | pw_handler.py:23 | any maximal alphanumeric stretch starting at an index is the greedy run |
| BatchId.RunInsideStrip | pw_handler.py:72-73 | an alphanumeric run inside the stripped text is the same run in the message |
| BatchId.NoEarlierMatchInStrip | pw_handler.py:72-73 | the stripped text has no match before the message's first |
| BatchId.FirstMatchInStrip | pw_handler.py:72-73 | the first match of the stripped text is the message's first, shifted |
| BatchId.ExtractStripWithMatch | pw_handler.py:72-73 | with a match, stripping first captures the same id |
| BatchId.ExtractCapturesRun | pw_handler.py:23-24 | the id is the run after the first match |
| BatchId.ExtractStripWithoutMatch | pw_handler.py:72-73 | without a match, stripping first gives the same id |
| BatchId.ExtractIgnoresSurroundingSpace | main.py:79-80 | extracting from `text.strip()` gives exactly what extracting from the raw message gives |
| BatchId.ExtractIdempotent | main.py:18-20 | an extracted id extracts to itself: sending the id instead of the link gives the same batch |
| Pagination.FlattenAppend | pw_handler.py:106 | `extend` keeps order: the items of two page runs are those of the first, then those of the second |
| Pagination.FilledPages | pw_handler.py:102-107 | the pages read are a prefix of the page sequence, each non-empty, and the page after them is empty |
| Pagination.FilledPagesUnique | pw_handler.py:102-107 | those three properties determine the pages read |
| Pagination.LaterPagesIgnored | main.py:55-58 | pages after the first empty one never affect what is read |
| Pagination.PageRead | main.py:55-58 | while no empty page has been met, the page just read is empty exactly at the end, and is otherwise the next page of the prefix |
| Pagination.Aggregate | pw_handler.py:100-107 | the loop's `all_data` holds every item of the pages before the first empty page, in order; the pages requested are 1, 2, ... up to and including that empty page |
| Content.Filter | pw_handler.py:53-56 | there are no more kept items than input items |
| Content.FilterMembers | pw_handler.py:53-56 | the kept items are exactly the input items that pass the test |
| Content.FilterAppend | main.py:59-63 | filtering keeps order across concatenation |
| Content.Bodies | pw_handler.py:57 | one `title: url` body per item, in order |
| Content.BodiesAppend | pw_handler.py:57 | the bodies of two runs are those of the first, then those of the second |
| Content.FilterSingle | pw_handler.py:56 | one item is kept exactly when it passes the test |
| Content.ExportStep | pw_handler.py:53-57 | one more item adds its line when it is kept, and nothing otherwise |
| Content.ExportStepAt | main.py:59-63 | the same step, for a loop that walks the items by index |
| Content.ExportAppend | main.py:55-64 | the text exported for two runs of items is that of the first, then that of the second |
| Content.ReadBack | pw_handler.py:57 | when no title or stripped url contains a newline, the file's lines read back are exactly the kept items' bodies, in order |
| Content.WhitespaceUrl | main.py:61-62 | the full-batch test implies the per-subject test; an item only the per-subject test keeps is written as `title: ` with nothing after it |
| PwHandler.FirstWithId | pw_handler.py:110 | the index of the first subject whose `_id` matches, or none when no subject matches |
| PwHandler.SubjectName | pw_handler.py:110 | the name is that of the first subject whose `_id` is the stripped piece; with no such subject it is `Subject_` and the piece as typed, unstripped |
| PwHandler.ParseSubjectIds | pw_handler.py:96 | `text.strip().split("&")` has one more piece than there are `&` in the stripped text; no piece contains `&`; joined with `&` they give that stripped text back |
| PwHandler.SaveBatchContents | pw_handler.py:49-58 | the file is named `<batch>_<subject>.txt`; it holds, in input order, one line `title: url` per item whose raw url is non-empty, the url stripped and a missing topic written `Untitled` |
| PwHandler.Outcomes | pw_handler.py:96-132 | the request produces exactly one result per `&`-separated piece |
| PwHandler.SendFailureIsLocal | pw_handler.py:113-118 | a failed send changes only the delivery of its own piece: the other pieces' results and the piece's own file are untouched |
| PwHandler.ParseTwoIds | pw_handler.py:96 | `id1&id2` parses into the two ids |
| PwHandler.TwoSubjectsTwoFiles | pw_handler.py:96-132 | asking for two subjects that both have content gives two files in request order; each file holds only its own subject's items |
| PwHandler.ProcessPiece | pw_handler.py:99-132 | one piece's pages are fetched under the stripped id; no items gives the notice for that id, otherwise the file for the resolved name, sent or failed as the world says |
| PwHandler.ProcessRequest | pw_handler.py:96-133 | the results of the request are `Outcomes`: one per piece of the stripped, `&`-split text, in order |
| PwHandler.ProcessPieces | pw_handler.py:99-132 | one result per piece, in order, each the outcome of its own piece alone; a failed send does not stop the pieces after it |
| PwHandler.StepConsistent | pw_handler.py:144-152 | every update keeps the `user_data` keys that the current state's handler reads |
| PwHandler.RunConsistent | pw_handler.py:144-152 | any sequence of updates keeps those keys |
| PwHandler.ReachableConsistent | pw_handler.py:92-94 | from the start, `handle_subject_ids` never meets a missing `auth_code`, `batch_id` or `subjects` |
| PwHandler.BatchLinkTransition | pw_handler.py:70-89 | the id from the raw message is stored whatever happens; the conversation moves to `SUBJECT_IDS`, storing the subjects, exactly when `get_subjects` neither raises nor returns nothing; otherwise it ends |
| PwHandler.MessagesEndConversation | pw_handler.py:144-152 | each message moves the conversation closer to `END`; after as many messages as its rank, it is over |
| PwHandler.ThreeMessagesEnd | pw_handler.py:144-152 | any three messages end any conversation |
| PwHandler.Session.constructor | pw_handler.py:144-152 | a new session has no conversation and empty `user_data` |
| PwHandler.Session.PwStart | pw_handler.py:61-63 | `/pw` moves to `AUTH_CODE` |
| PwHandler.Session.HandleAuthCode | pw_handler.py:65-68 | the stripped message is stored as `auth_code`; the next state is `BATCH_LINK`; nothing else changes |
| PwHandler.Session.HandleBatchLink | pw_handler.py:70-89 | the new state and `user_data` are those of the batch-link transition |
| PwHandler.Session.HandleSubjectIds | pw_handler.py:91-134 | the stored `auth_code`, `batch_id` and `subjects` are read and the request is processed with them; then `END` |
| PwHandler.Session.Receive | pw_handler.py:144-152 | one dispatched update changes the session exactly as `Step` says; the session keeps the keys its handlers read; the pieces' results are produced only for a message in `SUBJECT_IDS` |
| FullBatchBot.SectionHeader | main.py:52 | each subject's part opens with `\n==== NAME ====\n`, and is only that header when the subject has no content |
| FullBatchBot.ConcatAppend | main.py:49 | concatenating the parts of two subject lists is the first's, then the second's |
| FullBatchBot.FullBatchTextAppend | main.py:49-64 | the file for `a + b` is the file for `a` followed by the file for `b`: subjects appear in list order |
| FullBatchBot.SectionOfSubject | main.py:49-64 | each subject contributes its own part and nothing else, at its place in the list |
| FullBatchBot.SaveFullBatch | main.py:45-65 | the file is named `<batch>_full_batch.txt` and holds every subject's part in list order |
| FullBatchBot.WriteSubject | main.py:50-64 | one subject's text is its header, then one line for each item of its pages before the first empty page whose url is non-empty once stripped |
| FullBatchBot.WritePage | main.py:59-63 | one page's text is one `title: url` line per item whose stripped url is non-empty, in page order |
| FullBatchBot.PageStep | main.py:55-64 | writing one more page extends the subject's text by that page's lines |
| FullBatchBot.BatchLinkOutcome | main.py:77-112 | a file comes back exactly when `get_subjects` neither raises nor returns nothing; otherwise the reply is "no subjects" or the error; the file is `<id>_full_batch.txt` with one part per subject, the id taken from the raw message |
| FullBatchBot.RunConsistent | main.py:122-129 | any sequence of updates keeps the token that `handle_batch_link` reads |
| FullBatchBot.MessagesEndConversation | main.py:122-129 | after as many messages as its rank (at most two), the conversation is over |
| FullBatchBot.Session.constructor | main.py:122-129 | a new session has no conversation and no token |
| FullBatchBot.Session.PwStart | main.py:68-70 | `/pw` moves to `AUTH_CODE` |
| FullBatchBot.Session.HandleAuthCode | main.py:72-75 | the stripped message becomes the token; the next state is `BATCH_LINK` |
| FullBatchBot.Session.HandleBatchLink | main.py:77-112 | the reply is the batch-link reply for the stored token, and the conversation ends |
| FullBatchBot.Session.Receive | main.py:122-129 | one dispatched update changes the session exactly as `Step` says; there is a reply only for a message in `BATCH_LINK` |

## Left out

- HTTP: request headers, the client id, endpoint URLs and the JSON envelope (`data`, `subjects`) are not modelled. The server is a value whose absent keys stand for every non-200 answer.
- Exceptions from `get_batch_contents` (network errors, malformed JSON) are not modelled. `pw_handler.py` does not catch them; `main.py` turns them into its error reply.
- Exceptions from `get_subjects` are the boolean input `detailsRaise`.
- Telegram: the wording of the replies, document captions, the copy sent to the log group (its failure is only logged) and `error_handler` sit outside the state and the exported files.
- The bot's reply listing the subjects (`pw_handler.py:83-84`) is not modelled.
- Files: `os.path.join(ROOT_DIR, ...)`, opening files, UTF-8 encoding and `os.remove` are not modelled. A file is its name and its content. When the send to the user fails, `pw_handler.py` leaves its file on disk; the model records only the failed delivery.
- `main.py`'s send failure goes to the outer `except`; the model records it as a failed delivery of the file that was written.
- Subject records always carry `_id` and `subject`, and `topic`/`url` are strings or absent. A malformed record (a missing key, JSON `null`, a non-string value) raises or formats differently in Python.
- Text.Upper: only ASCII letters are upper-cased; Python's `str.upper()` also maps other scripts and can change the length (`ß` becomes `SS`).
- Concurrency and several users at once: each `Session` is one user's conversation, updates handled one at a time.
- PwHandler.Outcomes: its own contract states only the number of results. What each result is follows from its definition through `PieceOutcome`; `SendFailureIsLocal`, `TwoSubjectsTwoFiles` and `Session.HandleSubjectIds` state it.
