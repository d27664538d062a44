# Stock-news mailer — a Dafny model

The program is a command-line tool. It takes a recipient address and an API
name (`news` or `stocks`) and fetches one of two things: the top stock-market
news from The News API, or the most active stocks from the Alpaca screener.
When the API name is `stocks`, it also asks the user to choose a sort key.
It renders the data as a plain-text mail subject and body and hands these to
an SMTP sender.

This project models the deterministic part of that pipeline:

- the argument checks and the sort-key prompt of `main`;
- how `get_news` and `get_stocks` classify an HTTP exchange (payload, reported
  failure, or an exception escaping);
- `format_news` and `format_stocks`, down to the Python string operations they
  rely on: `str.lower`, `str.strip`, `str.title`, `str(int)` and the `{:,}`
  thousands format.

Modules:

- `Wrappers`: `Option` and `Result`.
- `PyText`: Python's `lower`, `strip` and `title` on the characters they treat
  specially; decimal rendering of integers and its parser; the `,` grouping
  of the thousands format.
- `Json`: the decoded JSON value (`null`, booleans, integers, strings, arrays,
  objects), plus Python truthiness, `dict.get`, `str()` of a scalar, and the
  integer a value supplies to `{:,}`.
- `Fetch`: an HTTP exchange, given as data (a request failure, or a status and
  a body that did or did not decode), and the two classifiers `ClassifyNews`
  and `ClassifyStocks`.
- `Format`: extraction of the rows each formatter reads, and the two formatters.
  Each formatter is an imperative method that appends block by block, proved
  equal to a specification function of the extracted rows. Lemmas about those
  functions state where each story or stock line sits in the body.
- `Cli`: argument parsing (`ParseArgs`), the prompt loop (`PromptSortKey`) over
  the lines the user types, and `Run`, which ties the whole pipeline to an
  `Outcome`. The outcome is one of:
  - the `sys.exit` reason;
  - an exception escaping (`Crash`);
  - a value the model does not render (`Unrendered`);
  - the message handed to `send_email`.

Behaviour kept from the code:

- The email check runs before the API-name check, so an invalid email and an
  invalid API name together report the email.
- `format_news` renders every entry of `data`. The request URL carries
  `limit=5` (main.py:17) and the query parameters add `limit: 3`
  (main.py:84), so both values are sent. The formatter itself does not cap the
  count.
- A fetched payload that is an empty object is falsy, so `main` exits with the
  fetch-error message although the request succeeded.
- On a non-200 status, `get_news` indexes `error["message"]`. When the error
  entry is truthy but is not an object holding `message`, that raises instead
  of reporting. `get_stocks` only calls `.get("message")`.
- `format_stocks` applies `{:,}` to the raw JSON value. A boolean renders as
  `1`/`0`, and a string or `null` raises.

## Model

| member | source | states |
|---|---|---|
| PyText.LowerChar | main.py:27 | `str.lower` per character: an ASCII capital becomes its own lower-case letter, the one that upper-cases back to it. The Kelvin sign becomes `k`, and every other character is kept. |
| PyText.UpperChar | main.py:170 | The upper-casing `str.title` applies: an ASCII lower-case letter becomes its own capital, 32 code points below it, and anything else is kept. |
| PyText.SkipSpaces | main.py:41 | The leading part of `strip`: returns the first index at or after `i` that is not whitespace, with all skipped characters whitespace. |
| PyText.TrimEnd | main.py:41 | The trailing part of `strip`: everything it cuts is whitespace, and the last kept character is not. |
| PyText.StripRemovesOnlySpace | main.py:41 | `strip` returns a contiguous slice of the line. It drops only whitespace before and after, and the result neither starts nor ends with whitespace. |
| PyText.TitleFromAppend | main.py:170 | `title` works left to right: titling a concatenation titles the second part given whether the first ended in a cased letter. |
| PyText.TitleFromKeepsLetters | main.py:170 | `title` keeps the length. Each character stays itself or becomes its upper- or lower-case form. |
| PyText.TitleOnlyChangesCase | main.py:170 | `title` changes case only: lower-casing the titled text gives the lower-cased original. |
| PyText.TitleIdempotent | main.py:170-171 | Titling twice is titling once. |
| PyText.DigitChar | main.py:119 | A digit below ten renders as a decimal digit character, and it is `0` exactly for zero. |
| PyText.DigitValue | main.py:119 | A digit character reads back as a value below ten that renders as the same character. |
| PyText.NatToDecimal | main.py:119 | `str` of a natural number is a numeral: non-empty, all digits, with no leading zero unless it is `0`. |
| PyText.ParseNatToDecimal | main.py:119 | Reading back the decimal rendering of `n` gives `n`. |
| PyText.ParsePositive | main.py:119 | A digit string starting with a non-zero digit denotes a positive number. |
| PyText.NatToDecimalParse | main.py:119 | Rendering the value of a numeral gives the numeral back, so rendering is a bijection onto numerals. |
| PyText.StripCommas | main.py:174 | Removing separators leaves a string without commas. |
| PyText.StripCommasAppend | main.py:174 | Removing commas distributes over concatenation. |
| PyText.StripCommasNone | main.py:174 | Removing commas from a string that has none changes nothing. |
| PyText.StripGroup | main.py:174 | Grouping a digit string and then removing the commas gives the digits back. |
| PyText.GroupLength | main.py:174 | Grouping `d` adds exactly `(|d|-1)/3` commas. |
| PyText.AppendGroupKeepsShape | main.py:174 | Appending a comma and three non-comma characters to a well-grouped string keeps a comma exactly at every fourth place from the right. |
| PyText.GroupShape | main.py:174 | A grouped digit string has a comma exactly at every fourth place counted from the right, and its length is not a multiple of four. |
| PyText.GroupChars | main.py:174 | Every character of a grouped string is a comma or a character of the input. |
| PyText.WithThousandsRoundTrip | main.py:174 | `format(i, ",")` with the commas removed is `str(i)`, for every integer including negatives. |
| PyText.WithThousandsShape | main.py:174 | For a non-negative integer: the length is the digit count plus `(digits-1)/3`, the commas sit every fourth place from the right, and every other character is a digit. |
| PyText.DecimalOfMillion | main.py:174 | `str(1000000)` is `1000000`. |
| PyText.ThousandsOfHalfMillion | test_stocknews.py:31 | `500000` renders as `500,000`. |
| PyText.ThousandsOfMillion | test_stocknews.py:32 | `1000000` renders as `1,000,000`. |
| PyText.ThousandsOfNegative | main.py:174 | `-1234` renders as `-1,234`: the sign comes before the grouped digits. |
| Json.Show | main.py:119-122 | `str()` in an f-string: a string is inserted as is. The value is rendered exactly when it is not a list or a dict. |
| Json.AsInteger | main.py:174 | `{:,}` accepts exactly integers and booleans, and an integer gives its own value. |
| Fetch.ClassifyNews | main.py:87-109 | A request exception is reported, not raised. The payload is returned exactly when the status is 200 and the body decodes, and it is the decoded body. An undecodable body reports invalid JSON. On a bad status, the `.get("error")` of line 102 decides: a falsy entry reports the status code, and an entry that is a dict holding `message` reports that message. It raises exactly when the body is not a dict, or the entry is truthy but not such a dict. |
| Fetch.ClassifyStocks | main.py:140-161 | A request exception is reported, not raised. The payload is returned under the same condition as for news. On a bad status with a dict body, a truthy `.get("message")` (line 153) is reported as the message, and a falsy one reports the status code. It raises exactly when a bad-status body is not a dict. |
| Fetch.ClassifiersAgree | main.py:146-161 | Both fetchers return the same payload on every exchange. Whenever `get_stocks` raises, `get_news` raises too, and whenever `get_news` reports a failure, so does `get_stocks`. |
| Fetch.UndecodableRefused | main.py:94-98 | An undecodable body yields no payload, whatever the status. |
| Fetch.ServerErrorReported | test_stocknews.py:72-111 | A 500 response carrying the API's error message reports that message and returns nothing, for both APIs. |
| Fetch.NewsErrorWithoutMessage | main.py:101-106 | For any bad status and any dict body whose `error` entry is absent or falsy, `get_news` reports the status code. |
| Fetch.StocksErrorWithoutMessage | main.py:152-158 | For any bad status and any dict body whose `message` entry is absent or falsy, `get_stocks` reports the status code. |
| Format.Iterate | main.py:113 | The values a `for` loop visits: a list's elements, and nothing for an empty dict or string. Any other value gives no rows: a non-empty dict or string yields keys or characters that cannot be indexed by name, and other values are not iterable. |
| Format.Table | main.py:113 | The comprehension over `doc[listKey]` with subscripts by the keys. It succeeds exactly when `doc` is a dict holding the list key, the value iterates, and every entry is a dict holding every key. It then gives one row per entry, holding that entry's values in key order. |
| Format.ExtractNews | main.py:113 | It raises exactly when the comprehension raises. Otherwise the `i`-th item carries the `str()` of the `i`-th entry's title, description and url. |
| Format.ExtractStocks | main.py:165 | It raises when the comprehension raises or a count is not an integer. Otherwise the `i`-th item carries the `i`-th entry's symbol, trade count and volume. |
| Format.JoinedSnoc | main.py:118-122 | Adding one more element appends exactly its block, numbered `i+1`. |
| Format.JoinedPrefix | main.py:118-122 | The blocks of a list are a prefix of the blocks of any extension of it. |
| Format.JoinedAt | main.py:118-122 | The `i`-th block appears right after the blocks of the elements before it. |
| Format.FormatNews | main.py:111-124 | The subject is always `Top 3 Stock Market News`, even for an empty list. The body is the header followed by one numbered story per article, in input order. |
| Format.NewsBodyPrefix | main.py:118-122 | Adding articles only extends the body. |
| Format.NewsStoryAt | main.py:118-122 | Story `i+1` (marker, title, description, url) follows the stories of the earlier articles in the body. |
| Format.StoryMarkersDistinct | main.py:119 | Different story numbers give different markers, so the markers are sequential and never repeat. |
| Format.FormatStocks | main.py:163-176 | The subject is the prefix and the titled rank label. The body is the header followed by one line per stock, in input order. |
| Format.TitleWord | main.py:170 | Titling a word whose first letter is cased and whose rest is lower case capitalises its first letter only. |
| Format.VolumeSubject | test_stocknews.py:29 | Sorting by `volume` gives the subject `Top 10 Stocks By Volume`. |
| Format.TitleOfCount | main.py:170 | After a cased letter, titling ` Count` leaves it unchanged. |
| Format.TitleOfTradeCount | main.py:170 | `Trade Count` is its own title form. |
| Format.TradesSubject | main.py:167-170 | Sorting by `trades` gives the subject `Top 10 Stocks By Trade Count`. |
| Format.StocksBodyPrefix | main.py:173-174 | Adding stocks only extends the body. |
| Format.StockLineAt | main.py:173-174 | The line of stock `i` (symbol, grouped trade count, grouped volume) follows the lines of the stocks before it. |
| Format.NoBreakInThousands | main.py:174 | A grouped number contains no line break. |
| Format.OneBreakPerLine | main.py:174 | A stock line whose symbol has no line break holds exactly one, at its end. |
| Format.OneLinePerStock | main.py:173-174 | When no symbol contains a line break, the stock lines contain exactly one line break per stock. |
| Cli.ParseArgs | main.py:21-34 | It accepts exactly three arguments with a valid email and `news`/`stocks` in any case, and returns that recipient and API. Otherwise it reports the argument count, the email, or the API name, in that order of checking. |
| Cli.ApiNameIgnoresCase | main.py:27-34 | Two API names equal after lower-casing give the same result. |
| Cli.CapitalisedApiNames | main.py:27-34 | `News` and `STOCKS` are accepted. |
| Cli.PromptSortKey | main.py:39-45 | The prompt stops at the first line that is `volume` or `trades` after strip and lower, and returns that key and how many lines it read. It runs out of input exactly when no line is a valid key. |
| Cli.NewsOutcome | main.py:49-54 | A mail is sent exactly when the news fetch returns a truthy payload whose extraction succeeds. It then carries the fixed subject and the news body of those items. A failed or falsy fetch exits with the fetch-rows message. The branch crashes exactly when the fetch raises or the comprehension raises. |
| Cli.StocksOutcome | main.py:56-61 | A mail is sent exactly when the stocks fetch returns a truthy payload whose extraction succeeds. It then carries the stocks subject and body for the chosen key. A failed or falsy fetch exits with the fetch-stocks message. The branch crashes exactly when the fetch raises or extraction raises. |
| Cli.RunNews | main.py:49-54 | The imperative news branch ends in the outcome `NewsOutcome` specifies. |
| Cli.RunStocks | main.py:56-61 | The imperative stocks branch ends in the outcome `StocksOutcome` specifies. |
| Cli.PromptAndRunStocks | main.py:37-61 | When no line names a sort key, reading past the input crashes. Otherwise the stocks branch runs with the first valid key, and any mail goes to the user. |
| Cli.Run | main.py:21-61 | An argument failure exits with its message. `news` runs the news branch and `stocks` the prompt and stocks branch. Any mail goes to `argv[1]`, and only when there were exactly three arguments. |

## Left out

- `validate_email_address` (main.py:70-76) wraps the `email_validator` library, which is not part of this model. It is the parameter `validEmail`, so `ParseArgs` holds for any validator.
- The HTTP requests themselves (URLs, query parameters, headers, API keys from the environment, main.py:10-19, 81-88, 129-141): the network is outside the model. Each fetch is given as an `Exchange` value.
- `send_email` (main.py:178-) and SMTP: the model stops at the `Send` outcome, the recipient, subject and body handed to it. Whether sending succeeds only changes what is printed. The envelope-from argument of the SMTP call is not modelled for the same reason.
- Printing, including the error details each fetcher prints and the confirmation messages: output to the console is left out. Only the `sys.exit` reason is kept, as `ExitReason`, with its exact text in `ExitMessage`.
- `input()` at end of input raises `EOFError`. The model represents it as the `Crash` outcome, without the exception's text.
- JSON numbers with a fraction or exponent: `Json` has integers only. A float passed to `{:,}` or `str()` is therefore not modelled.
- `str()` of a list or dict (Python's `repr`) is not rendered. Extraction then returns `NotModelled`, and the run outcome is `Unrendered`.
- `Format.ExtractNews`, `Format.ExtractStocks`: when an item cannot be rendered because it is a list or dict, the contract says only that such a field exists, not what Python would print.
- `PyText.LowerChar`: the model of `str.lower` maps only ASCII capitals and the Kelvin sign; Python's `str.lower` maps every Unicode capital. The Kelvin sign is the one non-ASCII character Python lowers to an ASCII letter, so it is the only one that can affect a comparison with `news`, `stocks`, `volume` or `trades`. The model keeps every other non-ASCII character unchanged.
- `PyText.UpperChar`: `str.title` is modelled with ASCII letters as the only cased characters. Non-ASCII letters in a sort key are kept as they are. Only `volume` and `Trade Count` ever reach `title` (main.py:167-170), so this does not affect the program's output.
- The bullet at main.py:174 is kept as the three characters the source file holds before the space, `U+00E2 U+20AC U+00A2`, and is not decoded further.
