// The text of a SENTINEL CACHE-UPDATE: how internal/valkey/senticache.go writes it as
// command arguments and how the parser of valkey_patches/0005_Add_senticache.patch
// reads it back, character by character.

module SentiText {

  // ----- decimal numbers -----

  function Digit(d: nat): char
    requires d < 10
  {
    '0' + (d as char)
  }

  predicate IsDigit(ch: char) {
    '0' <= ch <= '9'
  }

  /** fmt.Sprintf("%d", n) */
  function PrintNat(n: nat): string {
    if n < 10 then [Digit(n)] else PrintNat(n / 10) + [Digit(n % 10)]
  }

  function PrintInt(n: int): string {
    if n < 0 then "-" + PrintNat(-n) else PrintNat(n)
  }

  /** The digits s starts with, read after those that gave acc: the core of strtoul. */
  function ReadDigits(s: string, acc: nat): nat
    decreases |s|
  {
    if s != "" && IsDigit(s[0]) then ReadDigits(s[1..], 10 * acc + (s[0] - '0') as nat) else acc
  }

  function Strtoul(s: string): nat {
    ReadDigits(s, 0)
  }

  function Strtol(s: string): int {
    if s != "" && s[0] == '-' then 0 - ReadDigits(s[1..], 0) else ReadDigits(s, 0)
  }

  ghost predicate AllDigits(s: string) {
    forall ch :: ch in s ==> IsDigit(ch)
  }

  lemma {:induction false} PrintNatDigits(n: nat)
    ensures PrintNat(n) != "" && AllDigits(PrintNat(n))
  {
    if n >= 10 {
      PrintNatDigits(n / 10);
    }
  }

  lemma {:induction false} ReadDigitsSnoc(s: string, ch: char, acc: nat)
    requires AllDigits(s) && IsDigit(ch)
    ensures ReadDigits(s + [ch], acc) == 10 * ReadDigits(s, acc) + (ch - '0') as nat
    decreases |s|
  {
    if s == "" {
      assert ([ch])[1..] == "";
    } else {
      assert (s + [ch])[1..] == s[1..] + [ch];
      assert s[0] in s;
      ReadDigitsSnoc(s[1..], ch, 10 * acc + (s[0] - '0') as nat);
    }
  }

  lemma {:induction false} StrtoulPrint(n: nat)
    ensures Strtoul(PrintNat(n)) == n
  {
    if n < 10 {
      var s := PrintNat(n);
      assert s[1..] == "" && IsDigit(s[0]);
      assert ReadDigits(s, 0) == ReadDigits(s[1..], (s[0] - '0') as nat);
    } else {
      StrtoulPrint(n / 10);
      PrintNatDigits(n / 10);
      ReadDigitsSnoc(PrintNat(n / 10), Digit(n % 10), 0);
    }
  }

  lemma StrtolPrint(n: int)
    ensures Strtol(PrintInt(n)) == n
  {
    if n < 0 {
      StrtoulPrint(-n);
      assert PrintInt(n)[1..] == PrintNat(-n);
    } else {
      StrtoulPrint(n);
      PrintNatDigits(n);
      assert PrintNat(n)[0] in PrintNat(n);
    }
  }

  // ----- splitting and joining at spaces -----

  /** What the arguments of a command become when they are put together again. */
  function Join(tokens: seq<string>): string {
    if tokens == [] then ""
    else if |tokens| == 1 then tokens[0]
    else tokens[0] + " " + Join(tokens[1..])
  }

  /** sdssplitlen at single spaces: adjacent separators give empty tokens. */
  function Split(s: string): (tokens: seq<string>)
    ensures |tokens| > 0
  {
    if s == "" then [""]
    else
      var rest := Split(s[1..]);
      if s[0] == ' ' then [""] + rest else [[s[0]] + rest[0]] + rest[1..]
  }

  /** ... except that the empty string has no tokens at all. */
  function SplitArgs(s: string): seq<string> {
    if s == "" then [] else Split(s)
  }

  ghost predicate Solid(token: string) {
    ' ' !in token
  }

  lemma {:induction false} SplitToken(token: string, rest: string)
    requires Solid(token)
    ensures Split(token) == [token]
    ensures Split(token + " " + rest) == [token] + Split(rest)
  {
    var whole := token + " " + rest;
    if token == "" {
      assert whole[1..] == rest;
    } else {
      assert token[0] != ' ';
      SplitToken(token[1..], rest);
      assert whole[1..] == token[1..] + " " + rest;
      assert token == [token[0]] + token[1..];
    }
  }

  lemma {:induction false} SplitJoin(tokens: seq<string>)
    requires tokens != [] && forall t :: t in tokens ==> Solid(t)
    ensures Split(Join(tokens)) == tokens
  {
    SplitToken(tokens[0], Join(tokens[1..]));
    if |tokens| > 1 {
      SplitJoin(tokens[1..]);
    }
  }

  lemma {:induction false} JoinSnoc(tokens: seq<string>, last: string)
    requires tokens != []
    ensures Join(tokens + [last]) == Join(tokens) + " " + last
  {
    if |tokens| == 1 {
      assert (tokens + [last])[1..] == [last];
    } else {
      JoinSnoc(tokens[1..], last);
      assert (tokens + [last])[1..] == tokens[1..] + [last];
    }
  }

  lemma {:induction false} JoinAppend(a: seq<string>, b: seq<string>)
    requires a != [] && b != []
    ensures Join(a + b) == Join(a) + " " + Join(b)
  {
    if |a| == 1 {
      assert (a + b)[1..] == b;
    } else {
      JoinAppend(a[1..], b);
      assert (a + b)[1..] == a[1..] + b;
    }
  }

  // ----- the items of an update -----

  /** One "key: field field," of the command. */
  datatype Item = Item(key: string, fields: seq<string>)

  datatype Pair = Pair(key: string, value: string)

  function PairOf(item: Item): Pair {
    Pair(item.key, Join(item.fields))
  }

  function PairsOf(items: seq<Item>): seq<Pair> {
    seq(|items|, i requires 0 <= i < |items| => PairOf(items[i]))
  }

  /** The arguments that stand for an item: the last one carries the comma. */
  function Arguments(item: Item): seq<string>
    requires item.fields != []
  {
    [item.key + ":"] + item.fields[..|item.fields| - 1] + [item.fields[|item.fields| - 1] + ","]
  }

  ghost predicate Complete(items: seq<Item>) {
    forall item :: item in items ==> item.fields != []
  }

  function Command(items: seq<Item>): seq<string>
    requires Complete(items)
  {
    if items == [] then [] else Command(items[..|items| - 1]) + Arguments(items[|items| - 1])
  }

  // ----- the parser -----

  predicate IsSpace(ch: char) {
    ch == ' ' || '\t' <= ch <= '\r'
  }

  datatype ParserState = KeyStart | KeyRead | ValueStart | ValueRead

  /** The pairs in the order they are applied, and the state the text ends in. */
  datatype Parsed = Parsed(pairs: seq<Pair>, last: ParserState, key: string, value: string)

  /** One character at a time; key and value are what has been read of the current pair. */
  function Step(p: Parsed, ch: char): Parsed {
    match p.last
    case KeyStart => if IsSpace(ch) then p else p.(last := KeyRead, key := [ch])
    case KeyRead => if ch == ':' then p.(last := ValueStart) else p.(key := p.key + [ch])
    case ValueStart => if IsSpace(ch) then p else p.(last := ValueRead, value := [ch])
    case ValueRead =>
      if ch == ',' then Parsed(p.pairs + [Pair(p.key, p.value)], KeyStart, "", "") else p.(value := p.value + [ch])
  }

  const Fresh := Parsed([], KeyStart, "", "")

  function Scan(p: Parsed, s: string): Parsed {
    if s == "" then p else Step(Scan(p, s[..|s| - 1]), s[|s| - 1])
  }

  /** A value that runs to the end of the text without a comma counts as well. */
  function Closed(p: Parsed): Parsed {
    if p.last.ValueRead? then Parsed(p.pairs + [Pair(p.key, p.value)], KeyStart, "", "") else p
  }

  function Parse(s: string): Parsed {
    Closed(Scan(Fresh, s))
  }

  lemma {:induction false} ScanAppend(p: Parsed, a: string, b: string)
    ensures Scan(p, a + b) == Scan(Scan(p, a), b)
  {
    if b == "" {
      assert a + b == a;
    } else {
      assert (a + b)[..|a + b| - 1] == a + b[..|b| - 1];
      ScanAppend(p, a, b[..|b| - 1]);
    }
  }

  ghost predicate GoodKey(key: string) {
    key != "" && !IsSpace(key[0]) && ':' !in key
  }

  ghost predicate GoodValue(value: string) {
    value != "" && !IsSpace(value[0]) && ',' !in value
  }

  ghost predicate GoodItem(item: Item) {
    item.fields != [] && GoodKey(item.key) && GoodValue(Join(item.fields))
  }

  lemma {:induction false} ScanKey(p: Parsed, key: string)
    requires p.last.KeyStart? && GoodKey(key)
    ensures Scan(p, key) == p.(last := KeyRead, key := key)
  {
    var init := key[..|key| - 1];
    if init == "" {
      assert key == [key[0]];
    } else {
      ScanKey(p, init);
      assert key == init + [key[|key| - 1]];
    }
  }

  lemma {:induction false} ScanValue(p: Parsed, value: string)
    requires p.last.ValueStart? && GoodValue(value)
    ensures Scan(p, value) == p.(last := ValueRead, value := value)
  {
    var init := value[..|value| - 1];
    if init == "" {
      assert value == [value[0]];
    } else {
      ScanValue(p, init);
      assert value == init + [value[|value| - 1]];
    }
  }

  lemma ScanChar(p: Parsed, ch: char)
    ensures Scan(p, [ch]) == Step(p, ch)
  {
    assert [ch][..0] == "";
  }

  /** One item, printed, is read as its key and its joined fields. */
  lemma ScanItem(p: Parsed, item: Item)
    requires p.last.KeyStart? && p.key == "" && p.value == "" && GoodItem(item)
    ensures Scan(p, item.key + ": " + Join(item.fields) + ",") == p.(pairs := p.pairs + [PairOf(item)])
  {
    var value := Join(item.fields);
    ScanKey(p, item.key);
    ScanAppend(p, item.key, ":");
    ScanChar(Scan(p, item.key), ':');
    ScanAppend(p, item.key + ":", " ");
    ScanChar(Scan(p, item.key + ":"), ' ');
    assert item.key + ":" + " " == item.key + ": ";
    ScanValue(Scan(p, item.key + ": "), value);
    ScanAppend(p, item.key + ": ", value);
    ScanAppend(p, item.key + ": " + value, ",");
    ScanChar(Scan(p, item.key + ": " + value), ',');
  }

  lemma {:induction false} JoinArguments(item: Item)
    requires item.fields != []
    ensures Join(Arguments(item)) == item.key + ": " + Join(item.fields) + ","
  {
    var n := |item.fields|;
    var init, last := item.fields[..n - 1], item.fields[n - 1];
    assert item.fields == init + [last];
    if init == [] {
      assert Arguments(item) == [item.key + ":"] + [last + ","];
      JoinSnoc([item.key + ":"], last + ",");
    } else {
      JoinSnoc(init, last);
      JoinSnoc([item.key + ":"] + init, last + ",");
      JoinAppend([item.key + ":"], init);
    }
  }

  /** Round trip: the command the printer writes is parsed back to exactly its items, in
      order, and the text ends where a new key could start. */
  lemma {:induction false} ParsePrint(items: seq<Item>)
    requires Complete(items) && forall item :: item in items ==> GoodItem(item)
    ensures Parse(Join(Command(items))) == Parsed(PairsOf(items), KeyStart, "", "")
    ensures Scan(Fresh, Join(Command(items))) == Parsed(PairsOf(items), KeyStart, "", "")
  {
    if items != [] {
      var init, last := items[..|items| - 1], items[|items| - 1];
      assert last in items;
      ParsePrint(init);
      JoinArguments(last);
      var text := Join(Arguments(last));
      var before := Parsed(PairsOf(init), KeyStart, "", "");
      assert PairsOf(items) == PairsOf(init) + [PairOf(last)];
      if init == [] {
        assert Command(items) == Arguments(last);
        ScanItem(before, last);
      } else {
        CommandNonEmpty(init);
        JoinAppend(Command(init), Arguments(last));
        ScanAppend(Fresh, Join(Command(init)) + " ", text);
        ScanAppend(Fresh, Join(Command(init)), " ");
        ScanChar(before, ' ');
        ScanItem(before, last);
      }
    }
  }

  lemma CommandNonEmpty(items: seq<Item>)
    requires items != [] && Complete(items)
    ensures Command(items) != []
  {
  }
}
