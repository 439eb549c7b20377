/**
 * The decisions behind the HTML report: which signals enter which table, in
 * which order the rows appear, how the stock list file is read, the rank
 * and Turkish text of each signal label and the price-change cells. The
 * HTML text itself, the CSS and the JavaScript are not modelled; a file the
 * report reads is passed as its lines.
 */
module HtmlReportGenerator {
  import opened Wrappers
  import opened Doubles
  import opened Stocks
  import opened SignalGenerator
  import opened JavaStrings

  // ---------------------------------------------------------------- signal labels

  /** `getSignalValue`: the rank of a label, 5 for STRONG_BUY down to 1 for STRONG_SELL, 0 for anything else. */
  function SignalValue(signal: string): (r: int)
    ensures 0 <= r <= 5
  {
    match signal
    case "STRONG_BUY" => 5
    case "BUY" => 4
    case "HOLD" => 3
    case "SELL" => 2
    case "STRONG_SELL" => 1
    case _ => 0
  }

  /** `getSignalTextTR`: the Turkish text of a label; an unknown label is shown as it is. */
  function SignalTextTR(signal: string): string {
    match signal
    case "STRONG_BUY" => "GÜÇLÜ AL"
    case "BUY" => "AL"
    case "HOLD" => "TUT"
    case "SELL" => "SAT"
    case "STRONG_SELL" => "GÜÇLÜ SAT"
    case _ => signal
  }

  /** Each classification has its own positive rank, buy side above HOLD above sell side, and mirroring reflects the rank around HOLD. */
  lemma SignalValueRanks(c: Classification, d: Classification)
    ensures SignalValue(c.Label()) >= 1
    ensures SignalValue(c.Label()) == SignalValue(d.Label()) ==> c == d
    ensures c.IsBuySide() <==> SignalValue(c.Label()) > 3
    ensures c.IsSellSide() <==> SignalValue(c.Label()) < 3
    ensures SignalValue(c.Mirror().Label()) == 6 - SignalValue(c.Label())
  {
  }

  /** Only the five labels have a rank; their Turkish texts are distinct and every other string is shown unchanged. */
  lemma SignalTextProperties(signal: string, c: Classification, d: Classification)
    ensures SignalValue(signal) == 0 <==> forall e: Classification :: e.Label() != signal
    ensures SignalValue(signal) == 0 ==> SignalTextTR(signal) == signal
    ensures SignalTextTR(c.Label()) == SignalTextTR(d.Label()) ==> c == d
  {
    if SignalValue(signal) != 0 {
      var e := if signal == "STRONG_BUY" then StrongBuy else if signal == "BUY" then Buy
               else if signal == "HOLD" then Hold else if signal == "SELL" then Sell else StrongSell;
      assert e.Label() == signal;
    }
  }

  // ---------------------------------------------------------------- row order

  /** `Integer.compare` / `Double.compare`. */
  function CompareReal(x: real, y: real): int {
    if x < y then -1 else if x == y then 0 else 1
  }

  /** The comparator of `generateSignalTable`: higher rank first, then higher confidence. */
  function Compare(a: SignalResult, b: SignalResult): int {
    var av, bv := SignalValue(a.signal), SignalValue(b.signal);
    if av != bv then CompareReal(bv as real, av as real) else CompareReal(b.confidence, a.confidence)
  }

  /** `a` may come before `b`. */
  predicate NotAfter(a: SignalResult, b: SignalResult) {
    Compare(a, b) <= 0
  }

  /** The comparator orders by rank descending, then by confidence descending, and is antisymmetric and transitive. */
  lemma CompareIsOrder(a: SignalResult, b: SignalResult, c: SignalResult)
    ensures Compare(a, b) < 0 <==> (SignalValue(a.signal) > SignalValue(b.signal)
                                    || (SignalValue(a.signal) == SignalValue(b.signal) && a.confidence > b.confidence))
    ensures Compare(a, b) == -Compare(b, a)
    ensures NotAfter(a, b) && NotAfter(b, c) ==> NotAfter(a, c)
  {
  }

  /** Ordered by the comparator. */
  predicate Sorted(s: seq<SignalResult>) {
    forall i, j :: 0 <= i < j < |s| ==> NotAfter(s[i], s[j])
  }

  /** `x` placed into sorted `t` after every element not after it: equal elements keep their order. */
  function Insert(t: seq<SignalResult>, x: SignalResult): seq<SignalResult>
    decreases |t|
  {
    if |t| == 0 || NotAfter(t[|t| - 1], x) then t + [x]
    else Insert(t[..|t| - 1], x) + [t[|t| - 1]]
  }

  /** `List.sort` with the comparator: a stable insertion sort. */
  function Sort(s: seq<SignalResult>): seq<SignalResult>
    decreases |s|
  {
    if |s| == 0 then [] else Insert(Sort(s[..|s| - 1]), s[|s| - 1])
  }

  lemma {:induction false} InsertPermutes(t: seq<SignalResult>, x: SignalResult)
    ensures multiset(Insert(t, x)) == multiset(t) + multiset{x}
    decreases |t|
  {
    if |t| > 0 && !NotAfter(t[|t| - 1], x) {
      InsertPermutes(t[..|t| - 1], x);
      assert t == t[..|t| - 1] + [t[|t| - 1]];
    }
  }

  lemma {:induction false} InsertSorted(t: seq<SignalResult>, x: SignalResult)
    requires Sorted(t)
    ensures Sorted(Insert(t, x))
    decreases |t|
  {
    InsertPermutes(t, x);
    if |t| > 0 && !NotAfter(t[|t| - 1], x) {
      var init, last := t[..|t| - 1], t[|t| - 1];
      InsertSorted(init, x);
      InsertPermutes(init, x);
      var u := Insert(init, x);
      assert Compare(x, last) < 0 by { CompareIsOrder(last, x, x); }
      forall k | 0 <= k < |u|
        ensures NotAfter(u[k], last)
      {
        assert u[k] in multiset(u);
        if u[k] != x {
          assert u[k] in multiset(init);
          var m :| 0 <= m < |init| && init[m] == u[k];
          assert t[m] == u[k];
        }
      }
      var r := u + [last];
      forall i, j | 0 <= i < j < |r|
        ensures NotAfter(r[i], r[j])
      {
        if j < |u| {
          assert r[i] == u[i] && r[j] == u[j];
        }
      }
    } else {
      var r := t + [x];
      forall i, j | 0 <= i < j < |r|
        ensures NotAfter(r[i], r[j])
      {
        if j == |t| && i < |t| {
          CompareIsOrder(t[i], t[|t| - 1], x);
        }
      }
    }
  }

  /** The sort returns a permutation of its input, ordered by the comparator. */
  lemma {:induction false} SortCorrect(s: seq<SignalResult>)
    ensures Sorted(Sort(s))
    ensures multiset(Sort(s)) == multiset(s)
    decreases |s|
  {
    if |s| > 0 {
      SortCorrect(s[..|s| - 1]);
      InsertSorted(Sort(s[..|s| - 1]), s[|s| - 1]);
      InsertPermutes(Sort(s[..|s| - 1]), s[|s| - 1]);
      assert s == s[..|s| - 1] + [s[|s| - 1]];
    }
  }

  // ---------------------------------------------------------------- table groups

  /** The three places a signal can take in a table. */
  datatype Group = Xu100Slot | Priority | Rest

  /** Where `generateSignalTable` puts a signal: XU100 first, then the stocks listed before the separator, then the others. */
  function GroupOf(x: SignalResult, before: set<string>): Group {
    if x.symbol == "XU100" then Xu100Slot else if x.symbol in before then Priority else Rest
  }

  /** The signals of group `g`, in input order. */
  function Members(s: seq<SignalResult>, before: set<string>, g: Group): seq<SignalResult>
    decreases |s|
  {
    if |s| == 0 then []
    else Members(s[..|s| - 1], before, g) + (if GroupOf(s[|s| - 1], before) == g then [s[|s| - 1]] else [])
  }

  /** The XU100 slot: the last XU100 signal, if there is one. */
  function Xu100Of(s: seq<SignalResult>): Option<SignalResult> {
    var m := Members(s, {}, Xu100Slot);
    if |m| == 0 then None else Some(m[|m| - 1])
  }

  /** An optional value as a list of zero or one elements. */
  function AsSeq(o: Option<SignalResult>): seq<SignalResult> {
    if o.Some? then [o.value] else []
  }

  /** The rows of a signal table: XU100, then the priority signals sorted, then the rest sorted. */
  function TableRows(s: seq<SignalResult>, before: set<string>): seq<SignalResult> {
    AsSeq(Xu100Of(s)) + Sort(Members(s, before, Priority)) + Sort(Members(s, before, Rest))
  }

  /** The partition loop of `generateSignalTable`. */
  method PartitionSignals(signals: seq<SignalResult>, before: set<string>)
    returns (xu100Signal: Option<SignalResult>, prioritySignals: seq<SignalResult>, bist100OnlySignals: seq<SignalResult>)
    ensures xu100Signal == Xu100Of(signals)
    ensures prioritySignals == Members(signals, before, Priority)
    ensures bist100OnlySignals == Members(signals, before, Rest)
  {
    xu100Signal, prioritySignals, bist100OnlySignals := None, [], [];
    for i := 0 to |signals|
      invariant xu100Signal == Xu100Of(signals[..i])
      invariant prioritySignals == Members(signals[..i], before, Priority)
      invariant bist100OnlySignals == Members(signals[..i], before, Rest)
    {
      var signal := signals[i];
      assert signals[..i + 1][..i] == signals[..i];
      if signal.symbol == "XU100" {
        xu100Signal := Some(signal);
      } else if signal.symbol in before {
        prioritySignals := prioritySignals + [signal];
      } else {
        bist100OnlySignals := bist100OnlySignals + [signal];
      }
    }
    assert signals[..|signals|] == signals;
  }

  /** Membership in a group, with multiplicity. */
  lemma {:induction false} MembersCount(s: seq<SignalResult>, before: set<string>, g: Group, x: SignalResult)
    ensures multiset(Members(s, before, g))[x] == if GroupOf(x, before) == g then multiset(s)[x] else 0
    decreases |s|
  {
    if |s| > 0 {
      MembersCount(s[..|s| - 1], before, g, x);
      assert s == s[..|s| - 1] + [s[|s| - 1]];
    }
  }

  /** The XU100 slot does not depend on the priority list. */
  lemma {:induction false} Xu100Independent(s: seq<SignalResult>, before: set<string>)
    ensures Members(s, before, Xu100Slot) == Members(s, {}, Xu100Slot)
    decreases |s|
  {
    if |s| > 0 {
      Xu100Independent(s[..|s| - 1], before);
    }
  }

  /** Every signal other than XU100 appears in the table as often as it was given; an XU100 signal appears once when it is the last one, else not at all. */
  lemma TableRowsCount(s: seq<SignalResult>, before: set<string>, x: SignalResult)
    ensures x.symbol != "XU100" ==> multiset(TableRows(s, before))[x] == multiset(s)[x]
    ensures x.symbol == "XU100" ==> multiset(TableRows(s, before))[x] == if Xu100Of(s) == Some(x) then 1 else 0
  {
    var p, r := Members(s, before, Priority), Members(s, before, Rest);
    var xs := AsSeq(Xu100Of(s));
    SortCorrect(p);
    SortCorrect(r);
    MembersCount(s, before, Priority, x);
    MembersCount(s, before, Rest, x);
    assert multiset(TableRows(s, before)) == multiset(xs) + multiset(Sort(p)) + multiset(Sort(r));
    Xu100Present(s);
  }

  /** The rank of a group in the table. */
  function GroupRank(g: Group): int {
    match g
    case Xu100Slot => 0
    case Priority => 1
    case Rest => 2
  }

  /** The elements of a sorted group all belong to it. */
  lemma SortedGroupMembers(s: seq<SignalResult>, before: set<string>, g: Group)
    ensures forall k :: 0 <= k < |Sort(Members(s, before, g))| ==> GroupOf(Sort(Members(s, before, g))[k], before) == g
  {
    var m := Members(s, before, g);
    SortCorrect(m);
    forall k | 0 <= k < |Sort(m)|
      ensures GroupOf(Sort(m)[k], before) == g
    {
      var y := Sort(m)[k];
      assert y in multiset(Sort(m));
      MembersCount(s, before, g, y);
    }
  }

  /** Rows ordered by group, and within a group by the comparator. */
  predicate InTableOrder(rows: seq<SignalResult>, before: set<string>) {
    forall i, j :: 0 <= i < j < |rows| ==>
      GroupRank(GroupOf(rows[i], before)) < GroupRank(GroupOf(rows[j], before))
      || (GroupOf(rows[i], before) == GroupOf(rows[j], before) && NotAfter(rows[i], rows[j]))
  }

  /** A group of rows all in group `g`, in comparator order. */
  predicate SortedGroup(rows: seq<SignalResult>, before: set<string>, g: Group) {
    Sorted(rows) && forall k :: 0 <= k < |rows| ==> GroupOf(rows[k], before) == g
  }

  lemma ConcatInTableOrder(xs: seq<SignalResult>, ps: seq<SignalResult>, rs: seq<SignalResult>, before: set<string>)
    requires |xs| <= 1 && SortedGroup(xs, before, Xu100Slot)
    requires SortedGroup(ps, before, Priority) && SortedGroup(rs, before, Rest)
    ensures InTableOrder(xs + ps + rs, before)
  {
    var rows := xs + ps + rs;
    var a, b := |xs|, |xs| + |ps|;
    forall i, j | 0 <= i < j < |rows|
      ensures GroupRank(GroupOf(rows[i], before)) < GroupRank(GroupOf(rows[j], before))
              || (GroupOf(rows[i], before) == GroupOf(rows[j], before) && NotAfter(rows[i], rows[j]))
    {
      if i >= a {
        if j < b {
          assert rows[i] == ps[i - a] && rows[j] == ps[j - a];
        } else if i < b {
          assert rows[i] == ps[i - a] && rows[j] == rs[j - b];
        } else {
          assert rows[i] == rs[i - b] && rows[j] == rs[j - b];
        }
      } else if j < b {
        assert rows[j] == ps[j - a];
      } else {
        assert rows[j] == rs[j - b];
      }
    }
  }

  /** The table lists the XU100 row, then the priority rows, then the rest, each group in comparator order. */
  lemma TableRowsOrdered(s: seq<SignalResult>, before: set<string>)
    ensures InTableOrder(TableRows(s, before), before)
  {
    var xs, ps, rs := AsSeq(Xu100Of(s)), Sort(Members(s, before, Priority)), Sort(Members(s, before, Rest));
    SortCorrect(Members(s, before, Priority));
    SortCorrect(Members(s, before, Rest));
    SortedGroupMembers(s, before, Priority);
    SortedGroupMembers(s, before, Rest);
    Xu100Present(s);
    ConcatInTableOrder(xs, ps, rs, before);
  }

  /** A table with a signal has a row. */
  lemma TableRowsNonEmpty(s: seq<SignalResult>, before: set<string>)
    ensures |s| > 0 ==> |TableRows(s, before)| > 0
  {
    if |s| > 0 {
      var y := s[0];
      assert y in multiset(s);
      TableRowsCount(s, before, y);
      Xu100Present(s);
      if y.symbol == "XU100" {
        assert Xu100Of(s).Some?;
      }
    }
  }

  /** There is an XU100 slot exactly when some signal is XU100, and it is the last of them. */
  lemma {:induction false} Xu100Present(s: seq<SignalResult>)
    ensures Xu100Of(s).Some? <==> exists k :: 0 <= k < |s| && s[k].symbol == "XU100"
    ensures Xu100Of(s).Some? ==> exists k :: 0 <= k < |s| && s[k] == Xu100Of(s).value
                                  && s[k].symbol == "XU100" && forall j :: k < j < |s| ==> s[j].symbol != "XU100"
    decreases |s|
  {
    if |s| > 0 {
      var init := s[..|s| - 1];
      Xu100Present(init);
      var last := s[|s| - 1];
      assert forall j :: 0 <= j < |init| ==> s[j] == init[j];
      if last.symbol != "XU100" {
        assert Members(s, {}, Xu100Slot) == Members(init, {}, Xu100Slot);
        assert Xu100Of(s) == Xu100Of(init);
        if exists k :: 0 <= k < |s| && s[k].symbol == "XU100" {
          var k :| 0 <= k < |s| && s[k].symbol == "XU100";
          assert k < |init|;
        }
        if Xu100Of(s).Some? {
          var k :| 0 <= k < |init| && init[k] == Xu100Of(init).value && init[k].symbol == "XU100"
                   && forall j :: k < j < |init| ==> init[j].symbol != "XU100";
          assert s[k] == init[k];
        }
      } else {
        assert Members(s, {}, Xu100Slot) == Members(init, {}, Xu100Slot) + [last];
        assert Xu100Of(s) == Some(last);
        assert s[|s| - 1].symbol == "XU100";
      }
    }
  }

  /** What a row of a signal table shows: symbol, company name, price, Turkish signal text, confidence and price changes. */
  datatype TableRow = TableRow(symbol: string, name: string, price: real, signalText: string, confidence: real,
                               changes: Option<seq<LabelledChange>>)

  /** The row `addSignalRow` writes for a signal. */
  function RowOf(x: SignalResult, stockList: seq<string>, allData: map<string, seq<StockData>>): TableRow {
    TableRow(x.symbol, StockName(x.symbol, stockList), x.price, SignalTextTR(x.signal), x.confidence,
             CompactPriceChanges(x.symbol, x.price, allData))
  }

  /** The rows written for a run of signals. */
  function Rendered(signals: seq<SignalResult>, stockList: seq<string>, allData: map<string, seq<StockData>>)
    : (rows: seq<TableRow>)
    ensures |rows| == |signals| && forall k :: 0 <= k < |signals| ==> rows[k] == RowOf(signals[k], stockList, allData)
  {
    seq(|signals|, k requires 0 <= k < |signals| => RowOf(signals[k], stockList, allData))
  }

  /** Rendering distributes over concatenation. */
  lemma RenderedConcat(a: seq<SignalResult>, b: seq<SignalResult>, stockList: seq<string>,
                       allData: map<string, seq<StockData>>)
    ensures Rendered(a + b, stockList, allData) == Rendered(a, stockList, allData) + Rendered(b, stockList, allData)
  {
  }

  /** `addSignalRow`. */
  method AddSignalRow(signal: SignalResult, stockList: seq<string>, allData: map<string, seq<StockData>>)
    returns (row: TableRow)
    ensures row == RowOf(signal, stockList, allData)
  {
    var signalText := SignalTextTR(signal.signal);
    var stockName := GetStockName(signal.symbol, stockList);
    row := TableRow(signal.symbol, stockName, signal.price, signalText, signal.confidence,
                    CompactPriceChanges(signal.symbol, signal.price, allData));
  }

  /** The row loop over one group. */
  method AddSignalRows(table: seq<TableRow>, signals: seq<SignalResult>, stockList: seq<string>,
                       allData: map<string, seq<StockData>>) returns (table': seq<TableRow>)
    ensures table' == table + Rendered(signals, stockList, allData)
  {
    table' := table;
    for i := 0 to |signals|
      invariant table' == table + Rendered(signals[..i], stockList, allData)
    {
      var row := AddSignalRow(signals[i], stockList, allData);
      table' := table' + [row];
    }
    assert signals[..|signals|] == signals;
  }

  /** `generateSignalTable`, as the rows it writes: those of `TableRows`, in that order. */
  method GenerateSignalTable(signals: seq<SignalResult>, stockList: seq<string>, allData: map<string, seq<StockData>>)
    returns (table: seq<TableRow>)
    ensures table == Rendered(TableRows(signals, Groups(stockList).before), stockList, allData)
    ensures |signals| > 0 ==> |table| > 0
  {
    var beforeSeparator, afterSeparator := ReadStockListGroups(stockList);
    var xu100Signal, prioritySignals, bist100OnlySignals := PartitionSignals(signals, beforeSeparator);
    Xu100Independent(signals, beforeSeparator);
    prioritySignals := Sort(prioritySignals);
    bist100OnlySignals := Sort(bist100OnlySignals);
    table := [];
    if xu100Signal.Some? {
      var row := AddSignalRow(xu100Signal.value, stockList, allData);
      table := table + [row];
    }
    assert table == Rendered(AsSeq(xu100Signal), stockList, allData);
    table := AddSignalRows(table, prioritySignals, stockList, allData);
    RenderedConcat(AsSeq(xu100Signal), prioritySignals, stockList, allData);
    table := AddSignalRows(table, bist100OnlySignals, stockList, allData);
    RenderedConcat(AsSeq(xu100Signal) + prioritySignals, bist100OnlySignals, stockList, allData);
    TableRowsNonEmpty(signals, beforeSeparator);
  }

  // ---------------------------------------------------------------- the report

  /** The signals of the BIST 100 table: the strong ones. */
  predicate IsStrong(x: SignalResult) {
    x.signal == "STRONG_BUY" || x.signal == "STRONG_SELL"
  }

  /** The strong signals, in input order. */
  function Strong(s: seq<SignalResult>): seq<SignalResult>
    decreases |s|
  {
    if |s| == 0 then [] else Strong(s[..|s| - 1]) + (if IsStrong(s[|s| - 1]) then [s[|s| - 1]] else [])
  }

  /** The strong-signal filter of `generateReport`. */
  method StrongBist100Signals(bist100Signals: seq<SignalResult>) returns (strong: seq<SignalResult>)
    ensures strong == Strong(bist100Signals)
  {
    strong := [];
    for i := 0 to |bist100Signals|
      invariant strong == Strong(bist100Signals[..i])
    {
      assert bist100Signals[..i + 1][..i] == bist100Signals[..i];
      if bist100Signals[i].signal == "STRONG_BUY" || bist100Signals[i].signal == "STRONG_SELL" {
        strong := strong + [bist100Signals[i]];
      }
    }
    assert bist100Signals[..|bist100Signals|] == bist100Signals;
  }

  /** The filter keeps exactly the strong signals, each as often as given. */
  lemma {:induction false} StrongExactly(s: seq<SignalResult>, x: SignalResult)
    ensures multiset(Strong(s))[x] == if IsStrong(x) then multiset(s)[x] else 0
    ensures forall k :: 0 <= k < |Strong(s)| ==> IsStrong(Strong(s)[k])
    decreases |s|
  {
    if |s| > 0 {
      StrongExactly(s[..|s| - 1], x);
      assert s == s[..|s| - 1] + [s[|s| - 1]];
    }
  }

  /** `generateReport`, as the row lists of the tables it writes: the requested stocks, then the strong BIST 100 signals, each only when non-empty. */
  method GenerateReport(userSignals: seq<SignalResult>, bist100Signals: seq<SignalResult>,
                        allData: map<string, seq<StockData>>, stockList: seq<string>)
    returns (tables: seq<seq<TableRow>>)
    ensures |tables| == (if |userSignals| > 0 then 1 else 0) + (if |Strong(bist100Signals)| > 0 then 1 else 0)
    ensures |userSignals| > 0 ==>
              tables[0] == Rendered(TableRows(userSignals, Groups(stockList).before), stockList, allData)
    ensures |Strong(bist100Signals)| > 0 ==>
              tables[|tables| - 1] == Rendered(TableRows(Strong(bist100Signals), Groups(stockList).before), stockList, allData)
    ensures forall k :: 0 <= k < |tables| ==> |tables[k]| > 0
  {
    tables := [];
    if |userSignals| > 0 {
      var table := GenerateSignalTable(userSignals, stockList, allData);
      tables := tables + [table];
    }
    if |bist100Signals| > 0 {
      var strongBist100Signals := StrongBist100Signals(bist100Signals);
      if |strongBist100Signals| > 0 {
        var table := GenerateSignalTable(strongBist100Signals, stockList, allData);
        tables := tables + [table];
      }
    } else {
      assert Strong(bist100Signals) == [];
    }
  }

  // ---------------------------------------------------------------- the stock list

  /** What a line of the stock list means to `readStockListGroups`. */
  datatype ListLine = Skipped | Separator | Symbol(symbol: string)

  /** The text before the first " - ", or the whole line. */
  function SymbolPart(line: string): string {
    var k := IndexOf(line, " - ");
    if k >= 0 then Trim(line[..k]) else line
  }

  /** A trimmed line: blank or `#` is skipped, `--` is the separator, otherwise its symbol upper-cased, unless that is XU100. */
  function ReadLine(raw: string): ListLine {
    var line := Trim(raw);
    if |line| == 0 || StartsWith(line, "#") then Skipped
    else if StartsWith(line, "---") || StartsWith(line, "--") then Separator
    else
      var symbol := SymbolPart(line);
      if EqualsIgnoreCase(symbol, "XU100") then Skipped else Symbol(ToUpper(symbol))
  }

  /** What each line of the file means, in order. */
  function Kinds(lines: seq<string>): (kinds: seq<ListLine>)
    ensures |kinds| == |lines| && forall i :: 0 <= i < |lines| ==> kinds[i] == ReadLine(lines[i])
  {
    seq(|lines|, i requires 0 <= i < |lines| => ReadLine(lines[i]))
  }

  /** The two symbol sets and whether a separator was seen. */
  datatype StockGroups = StockGroups(before: set<string>, after: set<string>, foundSeparator: bool)

  /** The groups of a run of classified lines, read in order. */
  function GroupsOf(kinds: seq<ListLine>): StockGroups
    decreases |kinds|
  {
    if |kinds| == 0 then StockGroups({}, {}, false)
    else
      var g := GroupsOf(kinds[..|kinds| - 1]);
      match kinds[|kinds| - 1]
      case Skipped => g
      case Separator => g.(foundSeparator := true)
      case Symbol(s) => if g.foundSeparator then g.(after := g.after + {s}) else g.(before := g.before + {s})
  }

  /** The groups of the lines of the stock list. */
  function Groups(lines: seq<string>): StockGroups {
    GroupsOf(Kinds(lines))
  }

  /** `readStockListGroups` over the lines of the file: a missing file reads as no lines. */
  method ReadStockListGroups(lines: seq<string>) returns (before: set<string>, after: set<string>)
    ensures before == Groups(lines).before && after == Groups(lines).after
  {
    ghost var kinds := Kinds(lines);
    before, after := {}, {};
    var foundSeparator := false;
    for i := 0 to |lines|
      invariant GroupsOf(kinds[..i]) == StockGroups(before, after, foundSeparator)
    {
      assert kinds[..i + 1][..i] == kinds[..i];
      var line := Trim(lines[i]);
      if |line| == 0 || StartsWith(line, "#") {
        assert kinds[i] == Skipped;
        continue;
      }
      if StartsWith(line, "---") || StartsWith(line, "--") {
        assert kinds[i] == Separator;
        foundSeparator := true;
        continue;
      }
      var symbol := line;
      if Contains(line, " - ") {
        symbol := Trim(line[..IndexOf(line, " - ")]);
      }
      assert symbol == SymbolPart(line);
      if EqualsIgnoreCase(symbol, "XU100") {
        assert kinds[i] == Skipped;
        continue;
      }
      assert kinds[i] == Symbol(ToUpper(symbol));
      if !foundSeparator {
        before := before + {ToUpper(symbol)};
      } else {
        after := after + {ToUpper(symbol)};
      }
    }
    assert kinds[..|lines|] == kinds;
  }

  /** None of the first `i` lines is a separator. */
  predicate NoSeparatorBefore(kinds: seq<ListLine>, i: int)
    requires 0 <= i <= |kinds|
  {
    forall j :: 0 <= j < i ==> kinds[j] != Separator
  }

  /**
   * A separator is found exactly when some line is one; a symbol is in the first group exactly
   * when a line before every separator names it, and in the second when a line after some separator does.
   */
  lemma {:induction false} GroupsMembership(kinds: seq<ListLine>, s: string)
    ensures GroupsOf(kinds).foundSeparator <==> !NoSeparatorBefore(kinds, |kinds|)
    ensures s in GroupsOf(kinds).before <==>
              exists i :: 0 <= i < |kinds| && kinds[i] == Symbol(s) && NoSeparatorBefore(kinds, i)
    ensures s in GroupsOf(kinds).after <==>
              exists i :: 0 <= i < |kinds| && kinds[i] == Symbol(s) && !NoSeparatorBefore(kinds, i)
    decreases |kinds|
  {
    if |kinds| > 0 {
      var init := kinds[..|kinds| - 1];
      var n := |kinds| - 1;
      GroupsMembership(init, s);
      assert forall i :: 0 <= i < n ==> kinds[i] == init[i];
      assert forall i :: 0 <= i <= n ==> (NoSeparatorBefore(kinds, i) <==> NoSeparatorBefore(init, i));
    }
  }

  /** No line of the list puts XU100 into a group, in whatever case it writes it. */
  lemma NoXu100(raw: string)
    ensures ReadLine(raw) != Symbol("XU100")
  {
    var symbol := SymbolPart(Trim(raw));
    EqualsIgnoreCaseUpper(symbol, "XU100");
    assert ToUpper("XU100") == "XU100";
  }

  /** XU100 is in neither group of a stock list. */
  lemma NoXu100InGroups(lines: seq<string>)
    ensures "XU100" !in Groups(lines).before && "XU100" !in Groups(lines).after
  {
    var kinds := Kinds(lines);
    GroupsMembership(kinds, "XU100");
    if "XU100" in Groups(lines).before || "XU100" in Groups(lines).after {
      var i :| 0 <= i < |kinds| && kinds[i] == Symbol("XU100");
      NoXu100(lines[i]);
    }
  }

  /** The name a line gives for `symbol` to `getStockName`: a `SYMBOL - Name` line whose symbol matches up to case. */
  function NameOnLine(raw: string, symbol: string): Option<string> {
    var line := Trim(raw);
    if |line| == 0 || StartsWith(line, "---") || StartsWith(line, "#") then None
    else
      var k := IndexOf(line, " - ");
      if k < 0 then None
      else if EqualsIgnoreCase(Trim(line[..k]), symbol) then Some(Trim(line[k + 3..]))
      else None
  }

  /** What each line says about the name of `symbol`, in order. */
  function Names(symbol: string, lines: seq<string>): (names: seq<Option<string>>)
    ensures |names| == |lines| && forall i :: 0 <= i < |lines| ==> names[i] == NameOnLine(lines[i], symbol)
  {
    seq(|lines|, i requires 0 <= i < |lines| => NameOnLine(lines[i], symbol))
  }

  /** The first name given, or "". */
  function FirstName(names: seq<Option<string>>): string
    decreases |names|
  {
    if |names| == 0 then ""
    else if names[0].Some? then names[0].value
    else FirstName(names[1..])
  }

  /** The name the stock list gives for `symbol`. */
  function StockName(symbol: string, lines: seq<string>): string {
    FirstName(Names(symbol, lines))
  }

  /** `getStockName` over the lines of the file. */
  method GetStockName(symbol: string, lines: seq<string>) returns (name: string)
    ensures name == StockName(symbol, lines)
  {
    ghost var names := Names(symbol, lines);
    for i := 0 to |lines|
      invariant FirstName(names) == FirstName(names[i..])
    {
      assert names[i..][1..] == names[i + 1..];
      var line := Trim(lines[i]);
      if |line| == 0 || StartsWith(line, "---") || StartsWith(line, "#") {
        assert names[i] == None;
        continue;
      }
      if Contains(line, " - ") {
        var k := IndexOf(line, " - ");
        var lineSymbol := Trim(line[..k]);
        var lineName := Trim(line[k + 3..]);
        if EqualsIgnoreCase(lineSymbol, symbol) {
          assert names[i] == Some(lineName);
          return lineName;
        }
      }
      assert names[i] == None;
    }
    assert names[|lines|..] == [];
    return "";
  }

  /** The name is the one the first naming line gives, and "" when no line names the symbol. */
  lemma {:induction false} FirstNameMatch(names: seq<Option<string>>)
    ensures (forall i :: 0 <= i < |names| ==> names[i].None?) ==> FirstName(names) == ""
    ensures forall i :: 0 <= i < |names| && names[i].Some? && (forall j :: 0 <= j < i ==> names[j].None?)
                        ==> FirstName(names) == names[i].value
    decreases |names|
  {
    if |names| > 0 {
      FirstNameMatch(names[1..]);
      assert forall i :: 1 <= i < |names| ==> names[i] == names[1..][i - 1];
    }
  }

  // ---------------------------------------------------------------- price changes

  /** A price change cell: "-" when the bar `daysBack` before the last is missing, else its class and percentage. */
  datatype ChangeCell = NoChange | Change(positive: bool, percent: Extended)

  /** `appendPriceChange` / `appendCompactChange`: the change from the close `daysBack` bars before `lastIdx` to `currentPrice`. */
  function ChangeAt(data: seq<StockData>, lastIdx: int, daysBack: int, currentPrice: real): ChangeCell {
    var targetIdx := lastIdx - daysBack;
    if targetIdx < 0 || targetIdx >= |data| then NoChange
    else
      var oldPrice := data[targetIdx].close;
      var changePercent := Scale(Quotient(currentPrice - oldPrice, Some(oldPrice)), 100.0);
      Change(NotNegative(changePercent), changePercent)
  }

  /** A labelled cell of the compact price-change column. */
  datatype LabelledChange = LabelledChange(caption: string, cell: ChangeCell)

  /** The labels and horizons of the compact column: day, week, month, three months, year. */
  const CompactLabels: seq<string> := ["1g", "1h", "1a", "3a", "1y"]
  const CompactDays: seq<int> := [1, 5, 20, 60, 252]

  /** `appendCompactPriceChanges`: `None` ("Veri yok") without data, else the five labelled cells. */
  function CompactPriceChanges(symbol: string, currentPrice: real, allData: map<string, seq<StockData>>)
    : Option<seq<LabelledChange>>
  {
    if symbol !in allData || |allData[symbol]| == 0 then None
    else
      var data := allData[symbol];
      Some(seq(5, k requires 0 <= k < 5 => LabelledChange(CompactLabels[k], ChangeAt(data, |data| - 1, CompactDays[k], currentPrice))))
  }

  /** `get1MonthChange`: the 20-bar change in percent, 0 when there is no such bar. */
  function OneMonthChange(symbol: string, currentPrice: real, allData: map<string, seq<StockData>>): Extended {
    if symbol !in allData || |allData[symbol]| == 0 then Finite(0.0)
    else
      var data := allData[symbol];
      var targetIdx := |data| - 1 - 20;
      if targetIdx < 0 then Finite(0.0)
      else Scale(Quotient(currentPrice - data[targetIdx].close, Some(data[targetIdx].close)), 100.0)
  }

  /** A cell is "-" exactly when the target bar is outside the data; with a positive old price it is positive exactly when the price did not fall. */
  lemma ChangeAtMeaning(data: seq<StockData>, lastIdx: int, daysBack: int, currentPrice: real)
    ensures ChangeAt(data, lastIdx, daysBack, currentPrice).NoChange? <==> !(0 <= lastIdx - daysBack < |data|)
    ensures 0 <= lastIdx - daysBack < |data| && data[lastIdx - daysBack].close > 0.0 ==>
              var oldPrice := data[lastIdx - daysBack].close;
              ChangeAt(data, lastIdx, daysBack, currentPrice)
                == Change(currentPrice >= oldPrice, Finite((currentPrice - oldPrice) / oldPrice * 100.0))
  {
    if 0 <= lastIdx - daysBack < |data| && data[lastIdx - daysBack].close > 0.0 {
      var oldPrice := data[lastIdx - daysBack].close;
      assert currentPrice >= oldPrice <==> (currentPrice - oldPrice) / oldPrice >= 0.0;
    }
  }

  /** The compact horizons are nested: when a longer horizon has a value, every shorter one does. */
  lemma CompactHorizonsNested(symbol: string, currentPrice: real, allData: map<string, seq<StockData>>, i: int, j: int)
    requires CompactPriceChanges(symbol, currentPrice, allData).Some?
    requires 0 <= i < j < 5
    ensures var cells := CompactPriceChanges(symbol, currentPrice, allData).value;
            cells[j].cell.Change? ==> cells[i].cell.Change?
  {
  }

  /** `get1MonthChange` agrees with the month cell of the compact column, reading 0 where that cell is "-". */
  lemma OneMonthMatchesCell(symbol: string, currentPrice: real, allData: map<string, seq<StockData>>)
    ensures var cells := CompactPriceChanges(symbol, currentPrice, allData);
            OneMonthChange(symbol, currentPrice, allData)
              == if cells.None? || cells.value[2].cell.NoChange? then Finite(0.0) else cells.value[2].cell.percent
  {
  }
}
