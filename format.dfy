/**
 * `format_news` and `format_stocks`: turning a decoded payload into the
 * subject and the plain-text body of the e-mail.
 */
module Format {
  import opened Wrappers
  import opened Json
  import opened PyText

  // ---------------------------------------------------------------------
  // Records
  // ---------------------------------------------------------------------

  datatype NewsItem = NewsItem(title: string, description: string, url: string)

  datatype StockItem = StockItem(symbol: string, tradeCount: int, volume: int)

  /**
   * The outcome of turning a payload into records: the records, an
   * exception (`KeyError`, `TypeError`, `ValueError`), or a list or dict
   * value that would be rendered with `repr`, which this model does not
   * cover.
   */
  datatype Extraction<T> = Extracted(items: seq<T>) | Raises | NotModelled

  // ---------------------------------------------------------------------
  // The list comprehensions
  // ---------------------------------------------------------------------

  /** `for x in j`: a list yields its elements; an empty dict or string yields
      nothing; a non-empty dict or string yields keys or characters, which the
      comprehension cannot index, and the rest are not iterable. */
  function Iterate(j: Json): (r: Option<seq<Json>>)
    ensures r.Some? && r.value != [] ==> j.Arr? && r.value == j.elems
    ensures j.Arr? ==> r == Some(j.elems)
    ensures j.Obj? ==> (r.Some? <==> j.fields == map[])
    ensures j.Str? ==> (r.Some? <==> j.s == [])
    ensures (j.Null? || j.Bool? || j.Int?) ==> r == None
  {
    match j
    case Arr(xs) => Some(xs)
    case Obj(m) => if m == map[] then Some([]) else None
    case Str(s) => if s == [] then Some([]) else None
    case _ => None
  }

  /** `(e[k0], e[k1], ...)`: the values under `keys`, or `None` on a `KeyError`
      or `TypeError`. */
  function Row(e: Json, keys: seq<string>): (r: Option<seq<Json>>)
    ensures r.Some? <==> e.Obj? && forall f :: 0 <= f < |keys| ==> keys[f] in e.fields
    ensures r.Some? ==>
      && |r.value| == |keys|
      && forall f :: 0 <= f < |keys| ==> r.value[f] == e.fields[keys[f]]
  {
    if e.Obj? && forall f :: 0 <= f < |keys| ==> keys[f] in e.fields then
      Some(seq(|keys|, f requires 0 <= f < |keys| => e.fields[keys[f]]))
    else None
  }

  /** `[(x[k0], x[k1], ...) for x in doc[listKey]]`, or `None` when it raises. */
  function Table(doc: Json, listKey: string, keys: seq<string>): (r: Option<seq<seq<Json>>>)
    ensures !doc.Obj? || listKey !in doc.fields ==> r == None
    ensures (&& doc.Obj? && listKey in doc.fields
             && Iterate(doc.fields[listKey]).Some?
             && forall i :: 0 <= i < |Iterate(doc.fields[listKey]).value| ==>
                  Row(Iterate(doc.fields[listKey]).value[i], keys).Some?) ==> r.Some?
    ensures r.Some? ==>
      && doc.Obj? && listKey in doc.fields
      && Iterate(doc.fields[listKey]).Some?
      && |r.value| == |Iterate(doc.fields[listKey]).value|
      && forall i :: 0 <= i < |r.value| ==>
           Row(Iterate(doc.fields[listKey]).value[i], keys) == Some(r.value[i])
  {
    if doc.Obj? && listKey in doc.fields then
      match Iterate(doc.fields[listKey])
      case None => None
      case Some(xs) =>
        if forall i :: 0 <= i < |xs| ==> Row(xs[i], keys).Some? then
          Some(seq(|xs|, i requires 0 <= i < |xs| => Row(xs[i], keys).value))
        else None
    else None
  }

  const NewsKeys: seq<string> := ["title", "description", "url"]

  const StockKeys: seq<string> := ["symbol", "trade_count", "volume"]

  /** The list comprehension of `format_news`, then `str` of each field. */
  function ExtractNews(doc: Json): (r: Extraction<NewsItem>)
    ensures !doc.Obj? || "data" !in doc.fields ==> r == Raises
    ensures r.Raises? <==> Table(doc, "data", NewsKeys).None?
    ensures r.NotModelled? ==>
      (exists i, f :: 0 <= i < |Table(doc, "data", NewsKeys).value| && 0 <= f < 3
         && Show(Table(doc, "data", NewsKeys).value[i][f]).None?)
    ensures r.Extracted? ==>
      var rows := Table(doc, "data", NewsKeys);
      && rows.Some? && |r.items| == |rows.value|
      && forall i :: 0 <= i < |r.items| ==>
           && Show(rows.value[i][0]) == Some(r.items[i].title)
           && Show(rows.value[i][1]) == Some(r.items[i].description)
           && Show(rows.value[i][2]) == Some(r.items[i].url)
  {
    match Table(doc, "data", NewsKeys)
    case None => Raises
    case Some(rows) =>
      if forall i, f :: 0 <= i < |rows| && 0 <= f < 3 ==> Show(rows[i][f]).Some? then
        Extracted(seq(|rows|, i requires 0 <= i < |rows| =>
          NewsItem(Show(rows[i][0]).value, Show(rows[i][1]).value, Show(rows[i][2]).value)))
      else NotModelled
  }

  /**
   * The list comprehension of `format_stocks`, then what its loop renders:
   * a count that `format(_, ",")` refuses raises wherever it is, and only
   * otherwise does a list or dict symbol matter.
   */
  function ExtractStocks(doc: Json): (r: Extraction<StockItem>)
    ensures !doc.Obj? || "most_actives" !in doc.fields ==> r == Raises
    ensures Table(doc, "most_actives", StockKeys).None? ==> r == Raises
    ensures r.Raises? && Table(doc, "most_actives", StockKeys).Some? ==>
      exists i, f :: 0 <= i < |Table(doc, "most_actives", StockKeys).value| && 1 <= f < 3
        && AsInteger(Table(doc, "most_actives", StockKeys).value[i][f]).None?
    ensures r.NotModelled? ==> (
      && Table(doc, "most_actives", StockKeys).Some?
      && (forall i, f :: 0 <= i < |Table(doc, "most_actives", StockKeys).value| && 1 <= f < 3 ==>
            AsInteger(Table(doc, "most_actives", StockKeys).value[i][f]).Some?)
      && exists i :: 0 <= i < |Table(doc, "most_actives", StockKeys).value|
           && Show(Table(doc, "most_actives", StockKeys).value[i][0]).None?)
    ensures r.Extracted? ==>
      var rows := Table(doc, "most_actives", StockKeys);
      && rows.Some? && |r.items| == |rows.value|
      && forall i :: 0 <= i < |r.items| ==>
           && Show(rows.value[i][0]) == Some(r.items[i].symbol)
           && AsInteger(rows.value[i][1]) == Some(r.items[i].tradeCount)
           && AsInteger(rows.value[i][2]) == Some(r.items[i].volume)
  {
    match Table(doc, "most_actives", StockKeys)
    case None => Raises
    case Some(rows) =>
      if !forall i, f :: 0 <= i < |rows| && 1 <= f < 3 ==> AsInteger(rows[i][f]).Some? then Raises
      else if !forall i :: 0 <= i < |rows| ==> Show(rows[i][0]).Some? then NotModelled
      else
        Extracted(seq(|rows|, i requires 0 <= i < |rows| =>
          StockItem(Show(rows[i][0]).value, AsInteger(rows[i][1]).value, AsInteger(rows[i][2]).value)))
  }

  // ---------------------------------------------------------------------
  // One block per record
  // ---------------------------------------------------------------------

  /** The blocks `block(1, xs[0]) + block(2, xs[1]) + ...`, in order. */
  function Joined<T>(xs: seq<T>, block: (nat, T) -> string): string
    decreases |xs|
  {
    if xs == [] then [] else Joined(xs[..|xs| - 1], block) + block(|xs|, xs[|xs| - 1])
  }

  /** Record `i` (0-based) follows the records before it. */
  lemma JoinedSnoc<T>(xs: seq<T>, i: nat, block: (nat, T) -> string)
    requires i < |xs|
    ensures Joined(xs[..i + 1], block) == Joined(xs[..i], block) + block(i + 1, xs[i])
  {
    assert xs[..i + 1][..i] == xs[..i];
  }

  /** Adding records only appends: the text for a list is a prefix of the
      text for any extension of it. */
  lemma {:induction false} JoinedPrefix<T>(xs: seq<T>, more: seq<T>, block: (nat, T) -> string)
    ensures Joined(xs, block) <= Joined(xs + more, block)
    decreases |more|
  {
    if more == [] {
      assert xs + more == xs;
    } else {
      var init := more[..|more| - 1];
      JoinedPrefix(xs, init, block);
      assert (xs + more)[..|xs + more| - 1] == xs + init;
    }
  }

  /** Record `i` (0-based) is rendered as block `i + 1`, right after the
      text of the records before it. */
  lemma JoinedAt<T>(xs: seq<T>, i: nat, block: (nat, T) -> string)
    requires i < |xs|
    ensures Joined(xs[..i], block) + block(i + 1, xs[i]) <= Joined(xs, block)
  {
    JoinedSnoc(xs, i, block);
    JoinedPrefix(xs[..i + 1], xs[i + 1..], block);
    assert xs[..i + 1] + xs[i + 1..] == xs;
  }

  lemma Assoc(a: string, b: string, c: string)
    ensures (a + b) + c == a + (b + c)
  {
  }

  /** Four appends in a row append their concatenation. */
  lemma AppendFour(s: string, a: string, b: string, c: string, d: string)
    ensures (((s + a) + b) + c) + d == s + (a + b + c + d)
  {
  }

  // ---------------------------------------------------------------------
  // format_news
  // ---------------------------------------------------------------------

  const NewsSubject: string := "Top 3 Stock Market News"

  const NewsHeader: string := "Here are the stock market news you requested:\n"

  function StoryMarker(k: nat): string
  {
    "\n Story " + NatToDecimal(k) + " ----"
  }

  function TitleLine(a: NewsItem): string { "\n Title: " + a.title }

  function DescriptionLine(a: NewsItem): string { "\n Description: " + a.description }

  function UrlLine(a: NewsItem): string { "\n Url: " + a.url + "\n" }

  /** The block of the `k`-th article (counted from 1). */
  function Story(k: nat, a: NewsItem): string
  {
    StoryMarker(k) + TitleLine(a) + DescriptionLine(a) + UrlLine(a)
  }

  function NewsBody(items: seq<NewsItem>): string
  {
    NewsHeader + Joined(items, Story)
  }

  /** `format_news` on the extracted articles. */
  method FormatNews(items: seq<NewsItem>) returns (subject: string, body: string)
    ensures subject == NewsSubject
    ensures body == NewsBody(items)
  {
    subject := NewsSubject;
    body := NewsHeader;
    for i := 0 to |items|
      invariant body == NewsBody(items[..i])
    {
      var news := items[i];
      ghost var before := body;
      body := body + StoryMarker(i + 1);
      body := body + TitleLine(news);
      body := body + DescriptionLine(news);
      body := body + UrlLine(news);
      AppendFour(before, StoryMarker(i + 1), TitleLine(news), DescriptionLine(news), UrlLine(news));
      JoinedSnoc(items, i, Story);
      Assoc(NewsHeader, Joined(items[..i], Story), Story(i + 1, news));
    }
    assert items[..|items|] == items;
  }

  /** The body for `n + k` articles extends the body for the first `n`. */
  lemma NewsBodyPrefix(items: seq<NewsItem>, more: seq<NewsItem>)
    ensures NewsBody(items) <= NewsBody(items + more)
  {
    JoinedPrefix(items, more, Story);
  }

  /** Article `i` (0-based) is the block marked `Story i+1 ----` carrying
      its own title, description and url, and it comes right after the body
      of the articles before it. */
  lemma NewsStoryAt(items: seq<NewsItem>, i: nat)
    requires i < |items|
    ensures NewsBody(items[..i]) + Story(i + 1, items[i]) <= NewsBody(items)
  {
    JoinedAt(items, i, Story);
    Assoc(NewsHeader, Joined(items[..i], Story), Story(i + 1, items[i]));
  }

  /** Different articles carry different markers. */
  lemma StoryMarkersDistinct(k: nat, m: nat)
    requires k != m
    ensures StoryMarker(k) != StoryMarker(m)
  {
    if StoryMarker(k) == StoryMarker(m) {
      var a, b := NatToDecimal(k), NatToDecimal(m);
      assert |a| == |b|;
      assert a == StoryMarker(k)[8..8 + |a|];
      ParseNatToDecimal(k);
      ParseNatToDecimal(m);
    }
  }

  // ---------------------------------------------------------------------
  // format_stocks
  // ---------------------------------------------------------------------

  /** The bullet that starts every stock line (a mis-decoded U+2022, kept as is). */
  const Bullet: string := "\U{E2}\U{20AC}\U{A2} "

  /** The ranking label: `trades` reads "Trade Count", anything else as given. */
  function RankLabel(rank: string): string
  {
    if rank == "trades" then "Trade Count" else rank
  }

  const SubjectPrefix: string := "Top 10 Stocks By "

  function StocksSubject(rank: string): string
  {
    SubjectPrefix + Title(RankLabel(rank))
  }

  function StocksHeader(rank: string): string
  {
    "Here are the stocks you requested, ranked by " + Title(RankLabel(rank)) + ":\n\n"
  }

  function StockLine(s: StockItem): string
  {
    Bullet + s.symbol + " - Trade Count: " + WithThousands(s.tradeCount)
      + ", Volume: " + WithThousands(s.volume) + "\n"
  }

  function StockLines(items: seq<StockItem>): string
  {
    Joined(items, (k: nat, s: StockItem) => StockLine(s))
  }

  function StocksBody(rank: string, items: seq<StockItem>): string
  {
    StocksHeader(rank) + StockLines(items)
  }

  /** `format_stocks` on the extracted entries. */
  method FormatStocks(rank: string, items: seq<StockItem>) returns (subject: string, body: string)
    ensures subject == StocksSubject(rank)
    ensures body == StocksBody(rank, items)
  {
    var choice := rank;
    if choice == "trades" {
      choice := "Trade Count";
    }
    subject := SubjectPrefix + Title(choice);
    body := "Here are the stocks you requested, ranked by " + Title(choice) + ":\n\n";
    for i := 0 to |items|
      invariant body == StocksBody(rank, items[..i])
    {
      var stock := items[i];
      body := body + StockLine(stock);
      JoinedSnoc(items, i, (k: nat, s: StockItem) => StockLine(s));
      Assoc(StocksHeader(rank), StockLines(items[..i]), StockLine(stock));
    }
    assert items[..|items|] == items;
  }

  /** A capital or small letter followed by small letters is title-cased
      to its capital followed by the same small letters. */
  lemma TitleWord(c: char, rest: string)
    requires IsCased(c)
    requires forall i :: 0 <= i < |rest| ==> IsAsciiLower(rest[i])
    ensures TitleFrom([c] + rest, false) == [UpperChar(c)] + rest
  {
    TitleFromAppend([c], rest, false);
    TitleFromLowerRun(rest);
  }

  /** Sorting by volume gives the subject "Top 10 Stocks By Volume". */
  lemma VolumeSubject()
    ensures StocksSubject("volume") == SubjectPrefix + "Volume"
  {
    assert "volume" == ['v'] + "olume";
    TitleWord('v', "olume");
  }

  lemma TitleOfCount()
    ensures TitleFrom(" Count", true) == " Count"
  {
    assert " Count" == " " + (['C'] + "ount");
    TitleWord('C', "ount");
    TitleFromAppend(" ", ['C'] + "ount", true);
  }

  lemma TitleOfTradeCount()
    ensures Title("Trade Count") == "Trade Count"
  {
    assert "Trade Count" == (['T'] + "rade") + " Count";
    TitleWord('T', "rade");
    TitleOfCount();
    TitleFromAppend(['T'] + "rade", " Count", false);
  }

  /** Sorting by trades gives the subject "Top 10 Stocks By Trade Count". */
  lemma TradesSubject()
    ensures StocksSubject("trades") == SubjectPrefix + "Trade Count"
  {
    TitleOfTradeCount();
    assert RankLabel("trades") == "Trade Count";
  }

  /** The lines for `n + k` entries extend the lines for the first `n`. */
  lemma StocksBodyPrefix(rank: string, items: seq<StockItem>, more: seq<StockItem>)
    ensures StocksBody(rank, items) <= StocksBody(rank, items + more)
  {
    JoinedPrefix(items, more, (k: nat, s: StockItem) => StockLine(s));
  }

  /** Entry `i` is rendered as one line, right after the lines of the
      entries before it. */
  lemma StockLineAt(rank: string, items: seq<StockItem>, i: nat)
    requires i < |items|
    ensures StocksBody(rank, items[..i]) + StockLine(items[i]) <= StocksBody(rank, items)
  {
    JoinedAt(items, i, (k: nat, s: StockItem) => StockLine(s));
    Assoc(StocksHeader(rank), StockLines(items[..i]), StockLine(items[i]));
  }

  /** Occurrences of `c` in `s`. */
  function Count(s: string, c: char): nat
    decreases |s|
  {
    if s == [] then 0 else (if s[0] == c then 1 else 0) + Count(s[1..], c)
  }

  lemma {:induction false} CountAppend(a: string, b: string, c: char)
    ensures Count(a + b, c) == Count(a, c) + Count(b, c)
    decreases |a|
  {
    if a == [] {
      assert a + b == b;
    } else {
      assert (a + b)[0] == a[0];
      assert (a + b)[1..] == a[1..] + b;
      CountAppend(a[1..], b, c);
    }
  }

  lemma {:induction false} CountAbsent(s: string, c: char)
    requires c !in s
    ensures Count(s, c) == 0
    decreases |s|
  {
    if s != [] {
      CountAbsent(s[1..], c);
    }
  }

  /** A thousands-separated number is one line: it has no line break. */
  lemma NoBreakInThousands(i: int)
    ensures '\n' !in WithThousands(i)
  {
    var d := NatToDecimal(if i < 0 then -i else i);
    GroupChars(d);
    assert forall k :: 0 <= k < |Group(d)| ==> Group(d)[k] != '\n';
  }

  /** A stock line holds one line break, its last character, as long as the
      symbol has none. */
  lemma OneBreakPerLine(s: StockItem)
    requires '\n' !in s.symbol
    ensures Count(StockLine(s), '\n') == 1
  {
    NoBreakInThousands(s.tradeCount);
    NoBreakInThousands(s.volume);
    var text := Bullet + s.symbol + " - Trade Count: " + WithThousands(s.tradeCount)
      + ", Volume: " + WithThousands(s.volume);
    assert '\n' !in text;
    CountAbsent(text, '\n');
    CountAppend(text, "\n", '\n');
  }

  /** One line per entry: when no symbol contains a line break, the lines
      after the header hold exactly one line break per entry. */
  lemma {:induction false} OneLinePerStock(items: seq<StockItem>)
    requires forall i :: 0 <= i < |items| ==> '\n' !in items[i].symbol
    ensures Count(StockLines(items), '\n') == |items|
    decreases |items|
  {
    if items != [] {
      var init, s := items[..|items| - 1], items[|items| - 1];
      OneLinePerStock(init);
      OneBreakPerLine(s);
      CountAppend(StockLines(init), StockLine(s), '\n');
    }
  }
}
