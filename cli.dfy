/**
 * `main`: argument checks, the sort-key prompt and the pipeline from the
 * fetch to the message handed to the mailer.
 */
module Cli {
  import opened Wrappers
  import opened PyText
  import opened Json
  import opened Fetch
  import opened Format

  /** Why `main` stops through `sys.exit`. */
  datatype ExitReason =
    | WrongArgumentCount
    | InvalidEmail
    | InvalidApiName
    | NewsFetchFailed
    | StocksFetchFailed

  /** The message `sys.exit` prints for each reason. */
  function ExitMessage(reason: ExitReason): string
  {
    match reason
    case WrongArgumentCount =>
      "Please provide required parameters: python3 news.py <Email Address> <API Name>"
    case InvalidEmail =>
      "The provided email address is invalid. Please correct it and try again."
    case InvalidApiName =>
      "Please provide a valid API name, f.e. News, Stocks. Please correct it and try again."
    case NewsFetchFailed => "Error while fetching rows. Exiting."
    case StocksFetchFailed => "Error while fetching stocks. Exiting."
  }

  // ---------------------------------------------------------------------
  // Command line
  // ---------------------------------------------------------------------

  datatype Api = News | Stocks

  datatype Command = Command(recipient: string, api: Api)

  predicate IsApiName(s: string) { s == "news" || s == "stocks" }

  /**
   * The checks at the start of `main`, in order: exactly three entries in
   * `sys.argv` (the program name, the address, the API name), an address the
   * validation library accepts (`validEmail`), and an API name that is
   * `news` or `stocks` once lower-cased. A failure carries the reason
   * `sys.exit` is called with.
   */
  function ParseArgs(argv: seq<string>, validEmail: string -> bool): (r: Result<Command, ExitReason>)
    ensures r.Success? <==> |argv| == 3 && validEmail(argv[1]) && IsApiName(Lower(argv[2]))
    ensures r.Success? ==>
      && r.value.recipient == argv[1]
      && (r.value.api == News <==> Lower(argv[2]) == "news")
    ensures |argv| != 3 ==> r == Failure(WrongArgumentCount)
    ensures |argv| == 3 && !validEmail(argv[1]) ==> r == Failure(InvalidEmail)
    ensures |argv| == 3 && validEmail(argv[1]) && !IsApiName(Lower(argv[2])) ==>
      r == Failure(InvalidApiName)
  {
    if |argv| != 3 then Failure(WrongArgumentCount)
    else
      var choice := Lower(argv[2]);
      if !validEmail(argv[1]) then Failure(InvalidEmail)
      else if choice == "news" then Success(Command(argv[1], News))
      else if choice == "stocks" then Success(Command(argv[1], Stocks))
      else Failure(InvalidApiName)
  }

  /** The API name is compared without regard to case. */
  lemma ApiNameIgnoresCase(argv: seq<string>, argv': seq<string>, validEmail: string -> bool)
    requires |argv| == |argv'| == 3 && argv[1] == argv'[1]
    requires Lower(argv[2]) == Lower(argv'[2])
    ensures ParseArgs(argv, validEmail) == ParseArgs(argv', validEmail)
  {
  }

  /** "News" and "STOCKS" are accepted as well as "news" and "stocks". */
  lemma CapitalisedApiNames(program: string, email: string, validEmail: string -> bool)
    requires validEmail(email)
    ensures ParseArgs([program, email, "News"], validEmail) == Success(Command(email, News))
    ensures ParseArgs([program, email, "STOCKS"], validEmail) == Success(Command(email, Stocks))
  {
    assert Lower("News") == "news";
    assert Lower("STOCKS") == "stocks";
  }

  // ---------------------------------------------------------------------
  // The sort-key prompt
  // ---------------------------------------------------------------------

  predicate IsSortKey(s: string) { s == "volume" || s == "trades" }

  /** What the prompt makes of one input line: `line.strip().lower()`. */
  function Normalize(line: string): string
  {
    Lower(Strip(line))
  }

  /** Line `j` is the first line that names a sort key. */
  predicate IsFirstKey(lines: seq<string>, j: nat)
  {
    && j < |lines|
    && IsSortKey(Normalize(lines[j]))
    && forall i :: 0 <= i < j ==> !IsSortKey(Normalize(lines[i]))
  }

  datatype Prompt =
    | Chosen(key: string, consumed: nat)    // the key and the number of lines read
    | Exhausted                             // input ran out: `input()` raises EOFError

  /** The `while True` loop of `main` over the lines typed at the prompt. */
  method PromptSortKey(lines: seq<string>) returns (r: Prompt)
    ensures r.Chosen? ==>
      && 1 <= r.consumed <= |lines| && IsFirstKey(lines, r.consumed - 1)
      && r.key == Normalize(lines[r.consumed - 1])
    ensures r.Chosen? ==> r.key == "volume" || r.key == "trades"
    ensures r.Exhausted? <==> forall i :: 0 <= i < |lines| ==> !IsSortKey(Normalize(lines[i]))
  {
    var i := 0;
    while i < |lines|
      invariant 0 <= i <= |lines|
      invariant forall j :: 0 <= j < i ==> !IsSortKey(Normalize(lines[j]))
    {
      var rankChoice := Normalize(lines[i]);
      i := i + 1;
      if IsSortKey(rankChoice) {
        return Chosen(rankChoice, i);
      }
    }
    return Exhausted;
  }

  // ---------------------------------------------------------------------
  // The pipeline
  // ---------------------------------------------------------------------

  /** How a run of `main` ends. */
  datatype Outcome =
    | Exit(reason: ExitReason)                               // sys.exit(ExitMessage(reason))
    | Crash                                                  // an uncaught exception
    | Unrendered                                             // a value rendered by repr
    | Send(recipient: string, subject: string, body: string) // handed to send_email

  /** The news branch of `main` after the checks, as a function of the exchange. */
  function NewsOutcome(recipient: string, x: Exchange): (o: Outcome)
    ensures o.Send? <==>
      Succeeds(x) && Truthy(x.body.doc) && ExtractNews(x.body.doc).Extracted?
    ensures o.Send? ==> o == Send(recipient, NewsSubject, NewsBody(ExtractNews(x.body.doc).items))
    ensures ClassifyNews(x).Failed? ==> o == Exit(NewsFetchFailed)
    ensures Succeeds(x) && !Truthy(x.body.doc) ==> o == Exit(NewsFetchFailed)
    ensures o == Crash <==>
      || ClassifyNews(x).Raised?
      || (Succeeds(x) && Truthy(x.body.doc) && ExtractNews(x.body.doc).Raises?)
    ensures o == Unrendered <==>
      Succeeds(x) && Truthy(x.body.doc) && ExtractNews(x.body.doc).NotModelled?
  {
    match ClassifyNews(x)
    case Raised => Crash
    case Failed(_) => Exit(NewsFetchFailed)
    case Fetched(doc) =>
      if !Truthy(doc) then Exit(NewsFetchFailed)
      else
        match ExtractNews(doc)
        case Raises => Crash
        case NotModelled => Unrendered
        case Extracted(items) => Send(recipient, NewsSubject, NewsBody(items))
  }

  /** The stocks branch of `main` after the prompt, as a function of the exchange. */
  function StocksOutcome(recipient: string, rank: string, x: Exchange): (o: Outcome)
    ensures o.Send? <==>
      Succeeds(x) && Truthy(x.body.doc) && ExtractStocks(x.body.doc).Extracted?
    ensures o.Send? ==>
      o == Send(recipient, StocksSubject(rank), StocksBody(rank, ExtractStocks(x.body.doc).items))
    ensures ClassifyStocks(x).Failed? ==> o == Exit(StocksFetchFailed)
    ensures Succeeds(x) && !Truthy(x.body.doc) ==> o == Exit(StocksFetchFailed)
    ensures o == Crash <==>
      || ClassifyStocks(x).Raised?
      || (Succeeds(x) && Truthy(x.body.doc) && ExtractStocks(x.body.doc).Raises?)
    ensures o == Unrendered <==>
      Succeeds(x) && Truthy(x.body.doc) && ExtractStocks(x.body.doc).NotModelled?
  {
    match ClassifyStocks(x)
    case Raised => Crash
    case Failed(_) => Exit(StocksFetchFailed)
    case Fetched(doc) =>
      if !Truthy(doc) then Exit(StocksFetchFailed)
      else
        match ExtractStocks(doc)
        case Raises => Crash
        case NotModelled => Unrendered
        case Extracted(items) => Send(recipient, StocksSubject(rank), StocksBody(rank, items))
  }

  /** The news branch of `main`: fetch, check, extract, format. */
  method RunNews(userEmail: string, news: Exchange) returns (o: Outcome)
    ensures o == NewsOutcome(userEmail, news)
  {
    var fetched := ClassifyNews(news);
    if !fetched.Fetched? || !Truthy(fetched.payload) {
      return if fetched.Raised? then Crash else Exit(NewsFetchFailed);
    }
    var extracted := ExtractNews(fetched.payload);
    if !extracted.Extracted? {
      return if extracted.Raises? then Crash else Unrendered;
    }
    var emailTitle, emailDescription := FormatNews(extracted.items);
    o := Send(userEmail, emailTitle, emailDescription);
  }

  /** The stocks branch of `main` once the sort key is known. */
  method RunStocks(userEmail: string, rankChoice: string, stocks: Exchange) returns (o: Outcome)
    ensures o == StocksOutcome(userEmail, rankChoice, stocks)
  {
    var fetched := ClassifyStocks(stocks);
    if !fetched.Fetched? || !Truthy(fetched.payload) {
      return if fetched.Raised? then Crash else Exit(StocksFetchFailed);
    }
    var extracted := ExtractStocks(fetched.payload);
    if !extracted.Extracted? {
      return if extracted.Raises? then Crash else Unrendered;
    }
    var emailTitle, emailDescription := FormatStocks(rankChoice, extracted.items);
    o := Send(userEmail, emailTitle, emailDescription);
  }

  /** The stocks branch of `main`: ask for the sort key, then fetch and format. */
  method PromptAndRunStocks(userEmail: string, lines: seq<string>, stocks: string -> Exchange)
    returns (o: Outcome)
    ensures (forall i :: 0 <= i < |lines| ==> !IsSortKey(Normalize(lines[i]))) ==> o == Crash
    ensures o.Send? ==> o.recipient == userEmail
    ensures forall j: nat :: IsFirstKey(lines, j) ==>
      o == StocksOutcome(userEmail, Normalize(lines[j]), stocks(Normalize(lines[j])))
  {
    var prompt := PromptSortKey(lines);
    if prompt.Exhausted? {
      return Crash;
    }
    ghost var first := prompt.consumed - 1;
    assert forall j: nat :: IsFirstKey(lines, j) ==> j == first;
    o := RunStocks(userEmail, prompt.key, stocks(prompt.key));
  }

  /**
   * `main`. The address check of the validation library is `validEmail`,
   * the lines typed at the prompt are `lines`, and the HTTP exchanges are
   * `news` and `stocks` (the latter for the sort key it is asked with).
   */
  method Run(argv: seq<string>, validEmail: string -> bool, lines: seq<string>,
             news: Exchange, stocks: string -> Exchange) returns (o: Outcome)
    ensures match ParseArgs(argv, validEmail)
      case Failure(reason) => o == Exit(reason)
      case Success(Command(userEmail, News)) => o == NewsOutcome(userEmail, news)
      case Success(Command(userEmail, Stocks)) =>
        && ((forall i :: 0 <= i < |lines| ==> !IsSortKey(Normalize(lines[i]))) ==> o == Crash)
        && forall j: nat :: IsFirstKey(lines, j) ==>
             o == StocksOutcome(userEmail, Normalize(lines[j]), stocks(Normalize(lines[j])))
    ensures o.Send? ==> |argv| == 3 && o.recipient == argv[1]
  {
    var parsed := ParseArgs(argv, validEmail);
    if parsed.Failure? {
      return Exit(parsed.error);
    }
    var userEmail, apiChoice := parsed.value.recipient, parsed.value.api;
    assert |argv| == 3 && userEmail == argv[1];
    if apiChoice == Stocks {
      o := PromptAndRunStocks(userEmail, lines, stocks);
    } else {
      o := RunNews(userEmail, news);
    }
  }
}
