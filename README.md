# Music download bot: conversation core

A Dafny model of the conversation core of a Telegram bot that searches YouTube
and sends back the audio of a chosen video (`bot.py`). It covers three parts,
with the chat transport, YouTube, the downloader and the database replaced by
abstract inputs:

- **The per-user download limiter.** `user_jobs` maps a user id to that user's
  running downloads. `can_download` checks the ceiling `USER_LIMIT = 3`,
  `start_job` increments the count and `end_job` decrements it, floored at 0.
  Module `Limiter` describes the dictionary as a value (`Count`, `Started`,
  `Ended`). Its class `JobLimiter` owns the dictionary as a `map` field and
  updates it in place. As `main` builds the application, updates are handled
  one at a time and `paginate` awaits the whole download, so downloads do not
  overlap and no count goes above 1. Downloads would overlap only if the
  application processed updates concurrently. The model covers that case as
  well: an arbitrary interleaving of atomic "check then start" steps and "end"
  steps (`Event`, `Run`). The lemmas prove that no interleaving takes any
  count above 3 or below 0.
- **The conversation handlers.** Module `Conversation` holds `start`, `menu`,
  `search`, `paginate` and `cancel`. They are methods of a class `Bot` whose
  fields are:
  - each user's `context.user_data`, a record with one `Slot` per key, so that
    a key never written stays distinguishable from a key holding `None`;
  - the history table's rows;
  - the shared limiter.

  Each handler returns the next conversation state (`MENU`, `SEARCH`,
  `PAGINATE`, `END`) or, in `paginate`, the `KeyError` raised by a missing
  key. It also returns what it shows (a keyboard) or hands to the downloader
  (a video id).
- **The results keyboard.** Module `Keyboard` covers `show_results`' layout.
  It gives one row per result: the title cut to 50 characters, with callback
  data `"dl_" + id`. A navigation row follows, holding "prev" before "next",
  each only when its page token is truthy. The module also reads callback data
  back: `data[3:]` after the `dl_` prefix. The two are proved to be inverses.

Module `Text` models the string operations the handlers use: `lower()`,
`strip()`, `in` and `startswith`.

Behaviour of `bot.py` worth noting, which the model keeps:
- `cancel` ends the conversation (`END`). It does not return to the menu.
- A `dl_` callback from an older page is not rejected as stale. It carries the
  video id itself, so it downloads that video.
- `CHOOSE` is declared but no handler is registered for it, and YouTube is
  the only search service.
- `start` does not reset `context.user_data`.
- Whether "prev" is offered on the first page depends only on the token that
  the search service returns.

## Model

| member | source | states |
|---|---|---|
| `Limiter.Started` | bot.py:122-123 | `start_job(u)` raises u's count (0 when unseen) by exactly one, adds u to the keys, and leaves every other user's count unchanged |
| `Limiter.Ended` | bot.py:125-126 | `end_job(u)` stores 0 for a user never seen and `max(old - 1, 0)` otherwise, so the count is never negative; every other user's count is unchanged |
| `Limiter.JobLimiter.constructor` | bot.py:117 | `user_jobs` starts empty, with no negative count |
| `Limiter.JobLimiter.CanDownload` | bot.py:119-120 | true exactly when u's stored count, 0 by default, is below USER_LIMIT = 3, so an unseen user may always download |
| `Limiter.JobLimiter.StartJob` | bot.py:122-123 | the dictionary becomes `Started(old, u)` and stays free of negative counts |
| `Limiter.JobLimiter.EndJob` | bot.py:125-126 | the dictionary becomes `Ended(old, u)` and stays free of negative counts |
| `Limiter.StartThenEndRestores` | bot.py:229-246 | a `start_job` followed by the `finally`'s `end_job` gives every user the count they had before |
| `Limiter.EndedKeepsNonNegative` | bot.py:125-126 | `end_job` called more often than `start_job` never drives any stored count below 0 |
| `Limiter.RefusedAcquireChangesNothing` | bot.py:226-228 | an attempt refused by `can_download` leaves `user_jobs` unchanged, and it is refused only at a count of at least 3 |
| `Limiter.StepKeepsBounded` | bot.py:226-246 | one check-then-start or one end step keeps every count between 0 and 3 |
| `Limiter.RunKeepsBounded` | bot.py:226-246 | under any interleaving of check-then-start and end steps, by one user or many, every count stays between 0 and USER_LIMIT |
| `Limiter.OverlappingAttempts` | bot.py:226-229 | n overlapping attempts by one user, none finished, leave exactly min(count + n, 3) downloads counted; other users' counts are unchanged |
| `Limiter.FourthAttemptRefused` | bot.py:226-228 | from no downloads, three overlapping attempts reach the ceiling and a fourth changes nothing |
| `Text.Lower` | bot.py:146 | the lower-cased text has the same length, contains no upper-case ASCII letter, turns each upper-case letter into its own lower-case letter (code point + 32), and keeps every other character in place |
| `Text.LowerIdempotent` | bot.py:146 | lower-casing twice is lower-casing once |
| `Text.Strip` | bot.py:174 | the stripped query is a slice of the text that neither starts nor ends with whitespace; it is empty exactly when the text is all whitespace |
| `Text.StripDropsOnlySpace` | bot.py:174 | everything strip removes, before and after the result, is whitespace |
| `Text.StripPadded` | bot.py:174 | strip removes exactly the surrounding whitespace: text without whitespace at its ends comes back out of any padding |
| `Text.StripIdempotent` | bot.py:174 | stripping twice is stripping once |
| `Keyboard.Truncate` | bot.py:191 | `title[:50]` is a prefix of the title, at most 50 long, and the whole title when it is that short |
| `Keyboard.NavRow` | bot.py:193-197 | the navigation row holds one button per truthy token, "prev" first and "next" last, and no other callback |
| `Keyboard.ShowResults` | bot.py:189-199 | one single-button row per result in result order, each label exactly `title[:50]` and each callback reading back as a download of that result's video id; then the navigation row, present exactly when a token is truthy |
| `Keyboard.NavigationOffered` | bot.py:193-199 | the keyboard offers "prev" exactly when the previous-page token is truthy and "next" exactly when the next-page token is |
| `Keyboard.PrevBeforeNext` | bot.py:193-199 | with both tokens truthy the last row is exactly the "prev" button followed by the "next" button |
| `Keyboard.EveryButtonUnderstood` | bot.py:189-199 | every button of the results keyboard leads `paginate` into its next, prev or download branch, never into "unknown command" |
| `Keyboard.ParseCallback` | bot.py:214-224 | the dispatch of `paginate`: next exactly for "next", prev exactly for "prev", a download of v only for `"dl_" + v`, and "unknown" exactly for data that is none of these; the round trip is ParseCallbackData, CallbackDataOfParse and DownloadDataIff |
| `Keyboard.ParseCallbackData` | bot.py:214-224 | callback data written for next, prev or a download of v reads back as that request; in particular `("dl_" + v)[3:]` is v |
| `Keyboard.CallbackDataOfParse` | bot.py:214-224 | callback data that `paginate` understands is exactly the data of the request it reads as |
| `Keyboard.DownloadDataIff` | bot.py:223-224 | data is read as a download of v if and only if it is `"dl_" + v` |
| `Conversation.RouteMenu` | bot.py:145-171 | the routing of `menu`: a recognised choice is that of a keyword the lower-cased text contains, and "unrecognised" means it contains none; RouteMenuFirstMatch states which keyword wins |
| `Conversation.RouteMenuRecognised` | bot.py:145-171 | a message is acted on exactly when its lower-cased text contains one of "titolo", "artista", "album", "cronologia", "esci" |
| `Conversation.RouteMenuFirstMatch` | bot.py:145-171 | the choice made is that of keyword k exactly when the lower-cased text contains keyword k and none of the keywords before it |
| `Conversation.RouteMenuIgnoresCase` | bot.py:146 | lower-casing a message first does not change the menu's choice |
| `Conversation.UpperCaseTitleRoutes` | bot.py:146-150 | "TITOLO" typed in capitals chooses the title search |
| `Conversation.PickedModeOccurs` | bot.py:147-158 | a stored search mode is a word that the lower-cased message contains |
| `Conversation.TitleButtonRoutes` | bot.py:133-150 | the "Cerca per titolo" button of the start keyboard selects the title search |
| `Conversation.ArtistButtonRoutes` | bot.py:134-154 | the "Cerca per artista" button selects the artist search |
| `Conversation.AlbumButtonRoutes` | bot.py:135-158 | the "Cerca per album" button selects the album search |
| `Conversation.HistoryButtonRoutes` | bot.py:136-165 | the "Cronologia" button shows the history and stays in MENU |
| `Conversation.QuitButtonRoutes` | bot.py:137-168 | the "Esci" button ends the conversation |
| `Conversation.Bot.Start` | bot.py:130-143 | `start` enters MENU |
| `Conversation.Bot.HandleMenu` | bot.py:145-171 | title, artist or album stores that search mode and goes to SEARCH; "cronologia" stays in MENU; "esci" returns END; anything else stays in MENU with nothing stored; the history is untouched |
| `Conversation.Bot.HandleSearch` | bot.py:173-187 | the stripped query is stored and appended to the history. With no results: MENU, and results and tokens are not written. Otherwise: results and both tokens are saved, the page token becomes None, the results keyboard is shown, PAGINATE is entered, and a later next/prev cannot raise a KeyError |
| `Conversation.Bot.HandlePaginate` | bot.py:210-250 | next/prev re-query with the stored token, replace results and both tokens, record the token used and stay in PAGINATE, or raise KeyError when a key was never written. `dl_` + id: over the ceiling it stays in PAGINATE with `user_jobs` unchanged; otherwise it hands the id to the downloader, returns MENU and leaves every count as it was. Anything else: MENU with nothing changed |
| `Conversation.Bot.Cancel` | bot.py:252-254 | `cancel` ends the conversation and changes nothing |

## Left out

- The chat transport is left out, because these calls go into a foreign library:
  - replies, message edits, sending audio and `query.answer`;
  - the keyboard markup classes;
  - `main()`, which registers the handlers with the conversation handler.

  Handlers return only their next state, what they show and the video id they
  hand to the downloader. Which handler runs in which state belongs to that
  library.
- The YouTube client (`search_youtube`) is an abstract `SearchProvider`
  function from a query and an optional page token to a page. The `maxResults`
  page size it asks for (PAGE_SIZE = 5) is not modelled. Neither are its
  exceptions: network errors, quota errors, a missing `items` key.
- The download itself is left out: yt-dlp, the uuid file name, the `glob` for
  the mp3, the existence check, sending the file and `os.remove`. These are
  file and process I/O. Whether the download succeeds, finds no file or raises,
  it changes only the message sent, and every path runs `end_job` and returns
  MENU.
- The SQLite history is a sequence of (user, query) rows appended by `search`.
  `get_history`'s ordering by timestamp and its LIMIT of 10 are done by the SQL
  engine, so the model does not define what "cronologia" shows.
- Logging and dotenv configuration.
- Python exceptions other than the `KeyError` that `paginate` raises when
  next/prev arrives before its keys were written. The library's handling of
  such an exception (the state is kept) is not modelled either.
- Text.Lower: lower-cases only the ASCII letters A-Z. Python's `str.lower()`
  also lower-cases other Unicode letters, and can change a string's length.
- Concurrency: the library's update scheduling is not modelled as such. As
  built at line 260, updates run one at a time, and the `Event` traces
  over-approximate that. The shared dictionary is one map, and overlapping
  downloads, if updates ran concurrently, are the `Event` traces, with each
  check-then-start taken as one step. This is how asyncio would run lines
  226-229, because no `await` separates them.
