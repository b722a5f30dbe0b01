# Anonymous confession bot: the submission gate

A model of the part of the Telegram confession bot that decides what gets
published: the per-user daily quota kept in the `user_stats` table, the
`confessions` log and its two counts, and the handler that drops bots,
commands and keyboard labels, consumes quota, applies the word and length
rules and saves an accepted confession.

- `words.dfy` (module `Words`): Python's `str.split()` with no argument, over
  `str.isspace()` whitespace; `WordCount` is `len(s.split())`. Proved: every
  word is non-empty and space-free, the words hold exactly the non-whitespace
  characters in order, the count equals a left-to-right count of word starts,
  and splitting distributes over a concatenation cut at whitespace.
- `validation.dfy` (module `Validation`): the text rule (at least 25 words, then
  at most 4000 characters) and the photo rule (a non-empty caption of at least
  25 words, with no length cap), with the boundaries shown on concrete strings.
- `quota.dfy` (module `Quota`): `check_daily_limit` as a function from the table
  to a verdict and a new table, and what repeated calls on one day do.
- `recorder.dfy` (module `Recorder`): a confession row, the count of rows sent
  on a day, and how it behaves under appending.
- `bot.dfy` (module `Bot`): the incoming message, the outcome of handling it,
  `Handle` (the whole decision as a function of both tables), and the class
  `ConfessionBot` whose fields are the two tables and whose methods are
  `check_daily_limit`, `save_confession`, the two counts and the handler; each
  method is proved to compute exactly what the corresponding function says.
- `wrappers.dfy` (module `Wrappers`): `Option`.

The calendar date is an opaque string compared only for equality, as the code
compares `'%Y-%m-%d'` strings; the clock is a parameter.

Three behaviours of the code worth stating:
- the quota check returns the literal 6 as its third component, whatever
  maximum it was given (`Quota.Decide` ensures `max == 6`);
- a photo caption is checked for words only; no 4000-character cap applies to
  it (`Validation.NoLengthCapOnCaptions`);
- a message with neither text nor photo (possible only if the transport
  delivered one) consumes quota and ends without a reply (`Bot.Outcome.NoContent`).

## Model

| member | source | states |
|---|---|---|
| `Words.Split` | bot.py:336 | `s.split()`: every word returned is non-empty and contains no whitespace |
| `Words.WordCountIsRuns` | bot.py:336-337 | the word count equals the number of maximal non-whitespace runs, counted by an independent left-to-right scan |
| `Words.SplitKeepsCharacters` | bot.py:336 | concatenating the words gives the input with its whitespace removed: nothing is lost, reordered or invented |
| `Words.SplitConcat` | bot.py:336 | splitting a concatenation cut after whitespace is splitting each part and concatenating the word lists |
| `Words.WordCountConcat` | bot.py:337 | the word count of such a concatenation is the sum of the parts' counts |
| `Validation.ValidateText` | bot.py:332-356 | a text is too short exactly when it has fewer than 25 words (reporting the count), too long exactly when it has enough words and over 4000 characters, valid otherwise, and a valid text is saved unchanged |
| `Validation.ValidatePhoto` | bot.py:389-416 | a photo is refused for a missing caption exactly when the caption is empty, as too short exactly when a non-empty caption has fewer than 25 words, never as too long, and accepted exactly when the caption has at least 25 words |
| `Validation.WordBoundary` | bot.py:336-351 | 24 words are refused as too short and 25 words accepted |
| `Validation.LengthBoundary` | bot.py:353-356 | with enough words, 4000 characters are accepted and 4001 refused as too long |
| `Validation.ShortBeforeLong` | bot.py:339-356 | a 4001-character text of 24 words is reported as too short, not too long |
| `Validation.NoLengthCapOnCaptions` | bot.py:391-407 | a 4001-character caption with enough words is accepted |
| `Quota.Decide` | bot.py:96-140 | new user inserted with count 1, total 1, today and the given name; a row from another day reset to count 1 with total + 1 whatever the maximum; a same-day row at or over the maximum refused with its count and no write; otherwise count and total + 1; the reported maximum is always 6; only the caller's row can change and its username never does; rows with 1 <= count <= total stay so |
| `Quota.SameDayAttempts` | bot.py:115-140 | a user counted c times today (c within the maximum) is allowed exactly max - c more calls, the counter rising by one per allowed call and the total by the same amount, and every later call is refused reporting the maximum |
| `Quota.AfterFreshDay` | bot.py:106-140 | after n + 1 calls starting on a fresh day the row is today's and counts min(n + 1, max) |
| `Quota.DailyAllowance` | bot.py:106-140 | on a new user's or a new day's first call, with max >= 1, calls 1..max are allowed and numbered 1..max and every later call that day is refused |
| `Recorder.CountOn` | bot.py:156-160 | the count of a day's rows never exceeds the number of rows, and equals it exactly when every row is of that day |
| `Recorder.CountOnIsMultiplicity` | bot.py:159 | the count of a day is the number of times that day occurs among the rows' dates |
| `Recorder.CountOnConcat` | bot.py:151-160 | counting a log cut in two adds the counts of the parts |
| `Recorder.CountOnAppend` | bot.py:142-160 | appending a row adds one to its own day's count and nothing to any other day's |
| `Recorder.MixedDays` | bot.py:151-160 | three rows of today and two of yesterday: today counts three and yesterday two |
| `Bot.Handle` | bot.py:292-439 | bots, commands and the two keyboard labels change nothing; every other message consumes quota before any content check; a quota refusal writes nothing; a submission past the quota that fails the content rules gets the refusal with its kind and reason, and one with no content ends as no content; a row is appended exactly when quota and content rules both pass, it is the text or the caption (non-empty, at least 25 words) stamped with the clock, and nothing else is ever appended |
| `Bot.PhotoSavesCaption` | bot.py:389-419 | an accepted photo is saved with its own caption, so the "Foto sin texto" fallback never applies |
| `Bot.RejectedContentUsesSlot` | bot.py:315-351 | a user at 5 of 6 whose text is refused as too short has used the sixth slot, and the next submission that day is refused by the quota |
| `Bot.ConfessionBot.constructor` | bot.py:65-91 | a first start on a new database file creates both tables empty |
| `Bot.ConfessionBot.Open` | bot.py:65-91 | a start on an existing database file keeps every row of both tables (`CREATE TABLE IF NOT EXISTS`) |
| `Bot.ConfessionBot.CheckDailyLimit` | bot.py:96-140 | returns the verdict of `Quota.Decide` on the table and leaves the table as `Quota.Decide` says, keeping every row well formed |
| `Bot.ConfessionBot.SaveConfession` | bot.py:142-149 | appends exactly one row with the given user, text and kind stamped with the clock; the total rises by one, the count of the row's day by one and no other day's count changes |
| `Bot.ConfessionBot.TotalConfessions` | bot.py:151-154 | no day's count exceeds the total |
| `Bot.ConfessionBot.TodayConfessions` | bot.py:156-160 | the count of a day is the multiplicity of that date among the rows |
| `Bot.ConfessionBot.HandleConfession` | bot.py:292-439 | the handler's outcome and both tables afterwards are those of `Bot.Handle`; in particular a photo is saved with its caption, never the fallback text |

## Left out

- The Flask status pages and the thread that serves them (bot.py:31-60): HTTP serving; they only print the two counts modelled here.
- Every Telegram call (replies, channel posts, keyboards, Markdown text, the polling loop, the /start, /help, /soporte and /stats handlers): transport I/O. A reply is reduced to an `Outcome`; the photo's `file_id` is not carried.
- The admin check of /stats (bot.py:266): one comparison with a configured id.
- SQLite connection, table creation and commits: the tables are a map and a sequence; there are no transactions or write failures.
- `datetime.now()`: the clock is a parameter. The code reads it separately in `check_daily_limit` and `save_confession`; the handler model passes one clock to both, so a submission straddling midnight is not modelled.
- The catch-all `except` around the handler (bot.py:441-450): it only turns failures of foreign calls into an error reply.
- Concurrency: handlers share one cursor without locking; the model is sequential, so the race in which two same-day submissions both pass the limit is not captured.
- config.py: environment loading only.
- `IsSpace` is the set of characters for which Python's `str.isspace()` holds; Unicode normalisation and surrogate code points do not arise because strings are sequences of scalar values.
