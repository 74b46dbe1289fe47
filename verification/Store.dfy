/** The archive: an inverted index over stored items, and the recall that must agree with a scan of them. */
module Store {
  import opened Wrappers
  import opened Text
  import opened Encoding

  /** What is known of a stored item. `stamp` is in nanoseconds from the Unix epoch. */
  datatype Item = Item(content: string, stamp: int, taskId: Option<string>, tags: seq<string>, text: string)

  datatype Query =
    | Keyword(text: string)
    | Semantic(text: string)
    | TimeRange(from: int, upto: int)
    | ByTask(id: string)
    | Tag(tag: string)

  datatype Record = Record(id: nat, content: string, millis: int, taskId: Option<string>, tags: set<string>)

  const I64_MAX: int := 0x7fff_ffff_ffff_ffff

  // ---- Keywords ----------------------------------------------------------------------------------

  /** Letters and digits. `wide` decides the characters beyond ASCII. */
  predicate Alphanumeric(wide: char -> bool, c: char) {
    if c < '\U{80}' then '0' <= c <= '9' || 'a' <= c <= 'z' || 'A' <= c <= 'Z' else wide(c)
  }

  /** In ASCII these are the digits from 48, the capitals from 65 and the small letters from 97. */
  lemma AsciiLetters(wide: char -> bool, c: char)
    ensures c as int < 128 ==> (Alphanumeric(wide, c) <==> 48 <= c as int < 58 || 65 <= c as int < 91 || 97 <= c as int < 123)
    ensures c as int >= 128 ==> (Alphanumeric(wide, c) <==> wide(c))
  {
  }

  function Words(wide: char -> bool, text: string): (words: seq<string>)
    ensures words != []
  {
    if text == "" then [""] else
      var rest := Words(wide, text[1..]);
      if Alphanumeric(wide, text[0]) then [[text[0]] + rest[0]] + rest[1..] else [""] + rest
  }

  function LongWords(words: seq<string>): seq<string> {
    if words == [] then [] else
    (if |Utf8(words[0])| > 1 then [LowerAll(words[0])] else []) + LongWords(words[1..])
  }

  function Keywords(wide: char -> bool, text: string): seq<string> {
    LongWords(Words(wide, text))
  }

  function SetOf(words: seq<string>): set<string> {
    set w | w in words
  }

  /** The keywords of an item: those of its text and those of its tags. */
  function KeywordsOf(wide: char -> bool, item: Item): set<string> {
    SetOf(Keywords(wide, item.text)) + TagKeywords(wide, item.tags)
  }

  function TagKeywords(wide: char -> bool, tags: seq<string>): set<string> {
    if tags == [] then {} else TagKeywords(wide, tags[..|tags| - 1]) + SetOf(Keywords(wide, tags[|tags| - 1]))
  }

  lemma TagKeywordsSnoc(wide: char -> bool, tags: seq<string>, i: nat)
    requires i < |tags|
    ensures TagKeywords(wide, tags[..i + 1]) == TagKeywords(wide, tags[..i]) + SetOf(Keywords(wide, tags[i]))
  {
    assert tags[..i + 1][..i] == tags[..i];
  }

  lemma SetOfAppend(a: seq<string>, b: seq<string>)
    ensures SetOf(a + b) == SetOf(a) + SetOf(b)
  {
  }

  // ---- What the keywords of a text are -------------------------------------------------------------

  predicate IsWord(wide: char -> bool, w: string) {
    forall i :: 0 <= i < |w| ==> Alphanumeric(wide, w[i])
  }

  /** From `i` to `j` stands a whole word: letters and digits, and none next to them. */
  predicate WordAt(wide: char -> bool, text: string, i: nat, j: nat) {
    && i < j <= |text| && IsWord(wide, text[i..j])
    && (i > 0 ==> !Alphanumeric(wide, text[i - 1])) && (j < |text| ==> !Alphanumeric(wide, text[j]))
  }

  lemma {:induction false} FirstWord(wide: char -> bool, text: string)
    ensures var n := |Words(wide, text)[0]|;
            && n <= |text| && text[..n] == Words(wide, text)[0] && IsWord(wide, text[..n])
            && (n < |text| ==> !Alphanumeric(wide, text[n]))
  {
    if text != "" && Alphanumeric(wide, text[0]) {
      FirstWord(wide, text[1..]);
      var n := |Words(wide, text[1..])[0]|;
      assert text[..n + 1] == [text[0]] + text[1..][..n];
      assert n + 1 < |text| ==> text[n + 1] == text[1..][n];
    }
  }

  /** A piece that is not empty stands somewhere as a whole word, all but the first behind something else. */
  lemma {:induction false} PieceStands(wide: char -> bool, text: string, k: nat) returns (i: nat)
    requires k < |Words(wide, text)| && Words(wide, text)[k] != ""
    ensures WordAt(wide, text, i, i + |Words(wide, text)[k]|)
    ensures text[i..i + |Words(wide, text)[k]|] == Words(wide, text)[k]
    ensures k > 0 ==> i > 0
  {
    if k == 0 {
      FirstWord(wide, text);
      i := 0;
    } else {
      var k' := if Alphanumeric(wide, text[0]) then k else k - 1;
      assert Words(wide, text)[k] == Words(wide, text[1..])[k'];
      var before := PieceStands(wide, text[1..], k');
      var n := |Words(wide, text)[k]|;
      assert text[1..][before..before + n] == text[before + 1..before + 1 + n];
      i := before + 1;
    }
  }

  /** A text starts with one run of letters and digits. */
  lemma FirstEnds(wide: char -> bool, text: string, m: nat, n: nat)
    requires m <= |text| && IsWord(wide, text[..m]) && (m < |text| ==> !Alphanumeric(wide, text[m]))
    requires n <= |text| && IsWord(wide, text[..n]) && (n < |text| ==> !Alphanumeric(wide, text[n]))
    ensures m == n
  {
    assert forall i :: 0 <= i < m ==> text[..m][i] == text[i];
    assert forall i :: 0 <= i < n ==> text[..n][i] == text[i];
  }

  /** A whole word is one of the pieces, and one behind the first unless it starts the text. */
  lemma {:induction false} WordIsPiece(wide: char -> bool, text: string, i: nat, j: nat)
    requires WordAt(wide, text, i, j)
    ensures text[i..j] in Words(wide, text)
    ensures i > 0 ==> text[i..j] in Words(wide, text)[1..]
  {
    if i == 0 {
      FirstWord(wide, text);
      FirstEnds(wide, text, |Words(wide, text)[0]|, j);
    } else {
      assert text[1..][i - 1..j - 1] == text[i..j];
      WordIsPiece(wide, text[1..], i - 1, j - 1);
      assert Words(wide, text)[1..] == if Alphanumeric(wide, text[0]) then Words(wide, text[1..])[1..] else Words(wide, text[1..]);
      assert forall w :: w in Words(wide, text)[1..] ==> w in Words(wide, text);
    }
  }

  /** `w` is a whole word of the text, and more than a single ASCII character. */
  ghost predicate LongWordOf(wide: char -> bool, text: string, w: string) {
    (|w| > 1 || (|w| == 1 && w[0] >= '\U{80}')) && exists i: nat, j: nat :: WordAt(wide, text, i, j) && text[i..j] == w
  }

  lemma {:induction false} LongWordsHold(words: seq<string>, k: string)
    ensures k in LongWords(words) <==> exists i :: 0 <= i < |words| && |Utf8(words[i])| > 1 && LowerAll(words[i]) == k
  {
    if words != [] {
      LongWordsHold(words[1..], k);
      assert forall i :: 0 < i < |words| ==> words[i] == words[1..][i - 1];
      if i :| 0 <= i < |words[1..]| && |Utf8(words[1..][i])| > 1 && LowerAll(words[1..][i]) == k {
        assert words[i + 1] == words[1..][i];
      }
    }
  }

  lemma LongInBytes(w: string)
    ensures |Utf8(w)| > 1 <==> |w| > 1 || (|w| == 1 && w[0] >= '\U{80}')
  {
    if w != "" {
      NothingEncodesAsNothing(w[1..]);
      assert |Encode(w[0] as int)| > 0;
    }
  }

  lemma LongPieceIsWord(wide: char -> bool, text: string, n: nat)
    requires n < |Words(wide, text)| && |Utf8(Words(wide, text)[n])| > 1
    ensures LongWordOf(wide, text, Words(wide, text)[n])
  {
    LongInBytes(Words(wide, text)[n]);
    var i := PieceStands(wide, text, n);
  }

  lemma LongWordIsPiece(wide: char -> bool, text: string, w: string) returns (n: nat)
    requires LongWordOf(wide, text, w)
    ensures n < |Words(wide, text)| && Words(wide, text)[n] == w && |Utf8(w)| > 1
  {
    LongInBytes(w);
    var i: nat, j: nat :| WordAt(wide, text, i, j) && text[i..j] == w;
    WordIsPiece(wide, text, i, j);
    n :| 0 <= n < |Words(wide, text)| && Words(wide, text)[n] == w;
  }

  /** The keywords of a text are its whole words in lower case, but for single ASCII characters. */
  lemma KeywordIff(wide: char -> bool, text: string, k: string)
    ensures k in Keywords(wide, text) <==> exists w :: LongWordOf(wide, text, w) && LowerAll(w) == k
  {
    LongWordsHold(Words(wide, text), k);
    if k in Keywords(wide, text) {
      var n :| 0 <= n < |Words(wide, text)| && |Utf8(Words(wide, text)[n])| > 1 && LowerAll(Words(wide, text)[n]) == k;
      LongPieceIsWord(wide, text, n);
    }
    if w :| LongWordOf(wide, text, w) && LowerAll(w) == k {
      var n := LongWordIsPiece(wide, text, w);
    }
  }

  lemma {:induction false} TagKeywordIff(wide: char -> bool, tags: seq<string>, k: string)
    ensures k in TagKeywords(wide, tags) <==> exists t :: t in tags && k in Keywords(wide, t)
  {
    if tags != [] {
      var last := |tags| - 1;
      TagKeywordIff(wide, tags[..last], k);
      assert forall t :: t in tags <==> t in tags[..last] || t == tags[last];
    }
  }

  /** Some text of the item, its own or a tag, has the word `w` in some case of its letters. */
  ghost predicate Mentions(wide: char -> bool, item: Item, w: string) {
    exists text, v :: (text == item.text || text in item.tags) && LongWordOf(wide, text, v) && LowerAll(v) == LowerAll(w)
  }

  lemma MentionsIff(wide: char -> bool, item: Item, w: string)
    ensures Mentions(wide, item, w) <==> LowerAll(w) in KeywordsOf(wide, item)
  {
    var k := LowerAll(w);
    TagKeywordIff(wide, item.tags, k);
    forall text ensures k in Keywords(wide, text) <==> exists v :: LongWordOf(wide, text, v) && LowerAll(v) == k {
      KeywordIff(wide, text, k);
    }
  }

  // ---- Time ------------------------------------------------------------------------------------------

  /** Whole milliseconds since the epoch: nothing before it, and no more than 64 bits hold. */
  function Millis(stamp: int): int {
    if stamp < 0 then 0 else if stamp / 1_000_000 > I64_MAX then I64_MAX else stamp / 1_000_000
  }

  /** Below what 64 bits hold, the whole milliseconds that have passed; beyond them the limit, and before the epoch nothing. */
  lemma MillisAre(stamp: int)
    ensures stamp < 0 ==> Millis(stamp) == 0
    ensures 0 <= stamp < (I64_MAX + 1) * 1_000_000 ==> Millis(stamp) * 1_000_000 <= stamp < (Millis(stamp) + 1) * 1_000_000
    ensures stamp >= (I64_MAX + 1) * 1_000_000 ==> Millis(stamp) == 0x7fff_ffff_ffff_ffff
  {
  }

  // ---- The scan ----------------------------------------------------------------------------------------

  /** The item has one of the keywords of the query; a query without keywords asks for everything. */
  predicate SharesKeyword(wide: char -> bool, item: Item, text: string) {
    Keywords(wide, text) == [] || exists k :: k in Keywords(wide, text) && k in KeywordsOf(wide, item)
  }

  predicate Meets(wide: char -> bool, item: Item, q: Query) {
    match q
    case Keyword(text) => SharesKeyword(wide, item, text)
    case Semantic(text) => SharesKeyword(wide, item, text)
    case TimeRange(from, upto) => Millis(from) <= Millis(item.stamp) <= Millis(upto)
    case ByTask(id) => item.taskId == Some(id)
    case Tag(tag) => tag in item.tags
  }

  /** A text query finds what mentions one of its words; one without words finds everything. */
  lemma TextQueryFinds(wide: char -> bool, item: Item, text: string)
    ensures Meets(wide, item, Keyword(text)) <==> Meets(wide, item, Semantic(text))
    ensures Meets(wide, item, Keyword(text)) <==>
            (forall w :: !LongWordOf(wide, text, w)) || exists w :: LongWordOf(wide, text, w) && Mentions(wide, item, w)
  {
    forall w ensures Mentions(wide, item, w) <==> LowerAll(w) in KeywordsOf(wide, item) {
      MentionsIff(wide, item, w);
    }
    forall k ensures k in Keywords(wide, text) <==> exists w :: LongWordOf(wide, text, w) && LowerAll(w) == k {
      KeywordIff(wide, text, k);
    }
    assert Keywords(wide, text) == [] <==> forall k :: k !in Keywords(wide, text) by {
      assert Keywords(wide, text) != [] ==> Keywords(wide, text)[0] in Keywords(wide, text);
    }
  }

  function RecordOf(id: nat, item: Item): Record {
    Record(id, item.content, Millis(item.stamp), item.taskId, SetOf(item.tags))
  }

  /** The records of the items that meet the query, in the order they were stored. */
  function Scan(wide: char -> bool, log: seq<Item>, q: Query): seq<Record> {
    if log == [] then [] else
      var last := |log| - 1;
      Scan(wide, log[..last], q) + (if Meets(wide, log[last], q) then [RecordOf(|log|, log[last])] else [])
  }

  // ---- The tables -----------------------------------------------------------------------------------

  datatype Row = Row(id: nat, content: string, millis: int, taskId: Option<string>)

  datatype Tables = Tables(memories: seq<Row>, keywords: set<(string, nat)>, tags: set<(string, nat)>)

  /** The tables hold exactly what the index of `log` is made of. */
  ghost predicate Indexes(t: Tables, wide: char -> bool, log: seq<Item>) {
    && |t.memories| == |log|
    && (forall i :: 0 <= i < |log| ==>
          t.memories[i] == Row(i + 1, log[i].content, Millis(log[i].stamp), log[i].taskId))
    && (forall k, id :: (k, id) in t.keywords <==> 1 <= id <= |log| && k in KeywordsOf(wide, log[id - 1]))
    && (forall g, id :: (g, id) in t.tags <==> 1 <= id <= |log| && g in log[id - 1].tags)
  }

  /** The WHERE clause of each query, on the tables alone. */
  predicate Selects(t: Tables, wide: char -> bool, row: Row, q: Query) {
    match q
    case Keyword(text) => HasKeyword(t, Keywords(wide, text), row.id)
    case Semantic(text) => HasKeyword(t, Keywords(wide, text), row.id)
    case TimeRange(from, upto) => Millis(from) <= row.millis <= Millis(upto)
    case ByTask(id) => row.taskId == Some(id)
    case Tag(tag) => (tag, row.id) in t.tags
  }

  predicate HasKeyword(t: Tables, keywords: seq<string>, id: nat) {
    keywords == [] || exists k :: k in keywords && (k, id) in t.keywords
  }

  function TagsOf(t: Tables, id: nat): set<string> {
    set pair | pair in t.tags && pair.1 == id :: pair.0
  }

  lemma KeywordSelects(t: Tables, wide: char -> bool, log: seq<Item>, i: nat, text: string)
    requires Indexes(t, wide, log) && i < |log|
    ensures HasKeyword(t, Keywords(wide, text), i + 1) <==> SharesKeyword(wide, log[i], text)
  {
    var id := i + 1;
    forall k ensures (k, id) in t.keywords <==> k in KeywordsOf(wide, log[i]) {
    }
  }

  lemma TagsAreStored(t: Tables, wide: char -> bool, log: seq<Item>, i: nat)
    requires Indexes(t, wide, log) && i < |log|
    ensures TagsOf(t, i + 1) == SetOf(log[i].tags)
  {
    var id := i + 1;
    forall g ensures g in TagsOf(t, id) <==> g in log[i].tags {
      assert (g, id) in t.tags <==> g in log[i].tags;
    }
  }

  lemma SelectsIffMeets(t: Tables, wide: char -> bool, log: seq<Item>, i: nat, q: Query)
    requires Indexes(t, wide, log) && i < |log|
    ensures Selects(t, wide, t.memories[i], q) <==> Meets(wide, log[i], q)
    ensures TagsOf(t, i + 1) == SetOf(log[i].tags)
  {
    TagsAreStored(t, wide, log, i);
    match q {
      case Keyword(text) => KeywordSelects(t, wide, log, i, text);
      case Semantic(text) => KeywordSelects(t, wide, log, i, text);
      case TimeRange(_, _) =>
      case ByTask(_) =>
      case Tag(_) =>
    }
  }

  /** The keywords of a stored item, as they are pushed one text after the other. */
  method AllKeywords(wide: char -> bool, item: Item) returns (keywords: seq<string>)
    ensures SetOf(keywords) == KeywordsOf(wide, item)
  {
    keywords := Keywords(wide, item.text);
    var i := 0;
    while i < |item.tags|
      invariant 0 <= i <= |item.tags|
      invariant SetOf(keywords) == SetOf(Keywords(wide, item.text)) + TagKeywords(wide, item.tags[..i])
    {
      TagKeywordsSnoc(wide, item.tags, i);
      SetOfAppend(keywords, Keywords(wide, item.tags[i]));
      keywords := keywords + Keywords(wide, item.tags[i]);
      i := i + 1;
    }
    assert item.tags[..i] == item.tags;
  }

  function WithAll(table: set<(string, nat)>, words: seq<string>, id: nat): set<(string, nat)> {
    table + set w | w in words :: (w, id)
  }

  /** Insert or ignore: a pair that is there already is not inserted twice. */
  method InsertAll(table: set<(string, nat)>, words: seq<string>, id: nat) returns (out: set<(string, nat)>)
    ensures out == WithAll(table, words, id)
  {
    out := table;
    var i := 0;
    while i < |words|
      invariant 0 <= i <= |words|
      invariant out == WithAll(table, words[..i], id)
    {
      assert words[..i + 1] == words[..i] + [words[i]];
      out := out + {(words[i], id)};
      i := i + 1;
    }
    assert words[..i] == words;
  }

  lemma PutKeepsIndex(t: Tables, wide: char -> bool, log: seq<Item>, item: Item, keywords: seq<string>)
    requires Indexes(t, wide, log) && SetOf(keywords) == KeywordsOf(wide, item)
    ensures var id := |log| + 1;
            var row := Row(id, item.content, Millis(item.stamp), item.taskId);
            Indexes(Tables(t.memories + [row], WithAll(t.keywords, keywords, id), WithAll(t.tags, item.tags, id)), wide, log + [item])
  {
    var id, after := |log| + 1, log + [item];
    forall k, n
      ensures (k, n) in WithAll(t.keywords, keywords, id) <==> 1 <= n <= |after| && k in KeywordsOf(wide, after[n - 1])
    {
      assert k in keywords <==> k in SetOf(keywords);
      assert (k, n) in t.keywords <==> 1 <= n <= |log| && k in KeywordsOf(wide, log[n - 1]);
    }
    forall g, n ensures (g, n) in WithAll(t.tags, item.tags, id) <==> 1 <= n <= |after| && g in after[n - 1].tags {
      assert (g, n) in t.tags <==> 1 <= n <= |log| && g in log[n - 1].tags;
    }
  }

  lemma ScanNext(wide: char -> bool, log: seq<Item>, i: nat, q: Query)
    requires i < |log|
    ensures Scan(wide, log[..i + 1], q) ==
            Scan(wide, log[..i], q) + (if Meets(wide, log[i], q) then [RecordOf(i + 1, log[i])] else [])
  {
    assert log[..i + 1][..i] == log[..i];
  }

  class Store {
    var tables: Tables
    const wide: char -> bool
    ghost var log: seq<Item>

    ghost predicate Valid()
      reads this
    {
      Indexes(tables, wide, log)
    }

    constructor (wide: char -> bool)
      ensures Valid() && log == [] && this.wide == wide
    {
      this.wide := wide;
      tables, log := Tables([], {}, {}), [];
    }

    method Put(item: Item) returns (id: nat)
      requires Valid()
      modifies this
      ensures Valid() && log == old(log) + [item] && id == |log|
    {
      var keywords := AllKeywords(wide, item);
      id := |tables.memories| + 1;
      var row := Row(id, item.content, Millis(item.stamp), item.taskId);
      var keywordTable := InsertAll(tables.keywords, keywords, id);
      var tagTable := InsertAll(tables.tags, item.tags, id);
      PutKeepsIndex(tables, wide, log, item, keywords);
      tables := Tables(tables.memories + [row], keywordTable, tagTable);
      log := log + [item];
    }

    /** Whatever was stored, a query answers with what a scan of it would find. */
    method Recall(q: Query) returns (out: seq<Record>)
      requires Valid()
      ensures out == Scan(wide, log, q)
    {
      out := [];
      var i := 0;
      while i < |tables.memories|
        invariant 0 <= i <= |tables.memories|
        invariant out == Scan(wide, log[..i], q)
      {
        var row := tables.memories[i];
        SelectsIffMeets(tables, wide, log, i, q);
        ScanNext(wide, log, i, q);
        if Selects(tables, wide, row, q) {
          out := out + [Record(row.id, row.content, row.millis, row.taskId, TagsOf(tables, row.id))];
        }
        i := i + 1;
      }
      assert log[..i] == log;
    }
  }

  // ---- What recall promises ---------------------------------------------------------------------------

  lemma {:induction false} ScanAscends(wide: char -> bool, log: seq<Item>, q: Query)
    ensures forall i :: 0 <= i < |Scan(wide, log, q)| ==> Scan(wide, log, q)[i].id <= |log|
    ensures forall i, j :: 0 <= i < j < |Scan(wide, log, q)| ==> Scan(wide, log, q)[i].id < Scan(wide, log, q)[j].id
  {
    if log != [] {
      ScanAscends(wide, log[..|log| - 1], q);
    }
  }

  /** The record is that of an item that meets the query. */
  ghost predicate Answers(wide: char -> bool, log: seq<Item>, q: Query, r: Record) {
    1 <= r.id <= |log| && Meets(wide, log[r.id - 1], q) && r == RecordOf(r.id, log[r.id - 1])
  }

  lemma AnswersNext(wide: char -> bool, log: seq<Item>, q: Query, r: Record)
    requires log != []
    ensures var last := |log| - 1;
            Answers(wide, log, q, r) <==>
            Answers(wide, log[..last], q, r) || (Meets(wide, log[last], q) && r == RecordOf(|log|, log[last]))
  {
  }

  lemma {:induction false} ScanHolds(wide: char -> bool, log: seq<Item>, q: Query, r: Record)
    ensures r in Scan(wide, log, q) <==> Answers(wide, log, q, r)
  {
    if log != [] {
      ScanHolds(wide, log[..|log| - 1], q, r);
      AnswersNext(wide, log, q, r);
    }
  }

  /** A scan finds exactly the items that meet the query, each once and in the order they were stored. */
  lemma ScanIsExact(wide: char -> bool, log: seq<Item>, q: Query)
    ensures forall i, j :: 0 <= i < j < |Scan(wide, log, q)| ==> Scan(wide, log, q)[i].id < Scan(wide, log, q)[j].id
    ensures forall r :: r in Scan(wide, log, q) <==>
                        1 <= r.id <= |log| && Meets(wide, log[r.id - 1], q) && r == RecordOf(r.id, log[r.id - 1])
    ensures forall r :: r in Scan(wide, log, q) ==>
              var item := log[r.id - 1];
              r.content == item.content && r.millis == Millis(item.stamp) && r.taskId == item.taskId && r.tags == SetOf(item.tags)
  {
    ScanAscends(wide, log, q);
    forall r ensures r in Scan(wide, log, q) <==> Answers(wide, log, q, r) {
      ScanHolds(wide, log, q, r);
    }
  }

  /** What is stored later comes behind: an earlier answer is never changed. */
  lemma {:induction false} RecallOnlyGrows(wide: char -> bool, log: seq<Item>, more: seq<Item>, q: Query)
    ensures Scan(wide, log, q) <= Scan(wide, log + more, q)
    decreases |more|
  {
    if more == [] {
      assert log + more == log;
    } else {
      var last := |more| - 1;
      RecallOnlyGrows(wide, log, more[..last], q);
      assert (log + more)[..|log| + last] == log + more[..last];
    }
  }

  lemma LowerCons(c: char, s: string)
    ensures LowerAll([c] + s) == [Lower(c)] + LowerAll(s)
  {
  }

  ghost predicate LoweredWords(lowered: seq<string>, words: seq<string>) {
    |lowered| == |words| && forall i :: 0 <= i < |words| ==> lowered[i] == LowerAll(words[i])
  }

  lemma {:induction false} LowerKeepsWords(wide: char -> bool, text: string)
    ensures LoweredWords(Words(wide, LowerAll(text)), Words(wide, text))
  {
    assert LowerAll("") == "";
    if text != "" {
      var rest := Words(wide, text[1..]);
      LowerKeepsWords(wide, text[1..]);
      assert LowerAll(text)[0] == Lower(text[0]) && LowerAll(text)[1..] == LowerAll(text[1..]);
      LowerCons(text[0], rest[0]);
    }
  }

  lemma {:induction false} LowerKeepsLength(s: string)
    ensures |Utf8(LowerAll(s))| == |Utf8(s)| && LowerAll(LowerAll(s)) == LowerAll(s)
  {
    if s != "" {
      LowerKeepsLength(s[1..]);
      assert LowerAll(s)[1..] == LowerAll(s[1..]);
    }
  }

  lemma {:induction false} LowerKeepsLongWords(words: seq<string>, lowered: seq<string>)
    requires LoweredWords(lowered, words)
    ensures LongWords(lowered) == LongWords(words)
  {
    if words != [] {
      LowerKeepsLength(words[0]);
      LowerKeepsLongWords(words[1..], lowered[1..]);
    }
  }

  /** Case makes no difference, neither in what is stored nor in what is asked for. */
  lemma KeywordsIgnoreCase(wide: char -> bool, text: string)
    ensures Keywords(wide, LowerAll(text)) == Keywords(wide, text)
  {
    LowerKeepsWords(wide, text);
    LowerKeepsLongWords(Words(wide, text), Words(wide, LowerAll(text)));
  }

  lemma {:induction false} TagKeywordsHold(wide: char -> bool, tags: seq<string>, i: nat)
    requires i < |tags|
    ensures SetOf(Keywords(wide, tags[i])) <= TagKeywords(wide, tags)
  {
    if i < |tags| - 1 {
      TagKeywordsHold(wide, tags[..|tags| - 1], i);
    }
  }

  /** Any item is found again by its own text, by its tags as text, and by its tags as tags, in any case of letters. */
  lemma FoundByItself(wide: char -> bool, item: Item, query: string)
    requires query == item.text || query in item.tags
    ensures Meets(wide, item, Keyword(query)) && Meets(wide, item, Keyword(LowerAll(query)))
    ensures query in item.tags ==> Meets(wide, item, Tag(query))
    ensures forall w :: LongWordOf(wide, query, w) ==> Mentions(wide, item, w)
  {
    KeywordsIgnoreCase(wide, query);
    if i :| 0 <= i < |item.tags| && item.tags[i] == query {
      TagKeywordsHold(wide, item.tags, i);
    }
    if Keywords(wide, query) != [] {
      var k := Keywords(wide, query)[0];
      assert k in SetOf(Keywords(wide, query));
      assert k in KeywordsOf(wide, item);
    }
  }

  /** A time query misses nothing stamped within its range, and what it adds is less than a millisecond outside it. */
  lemma TimeRangeMissesNothing(wide: char -> bool, item: Item, from: int, upto: int)
    ensures from <= item.stamp <= upto ==> Meets(wide, item, TimeRange(from, upto))
    ensures Meets(wide, item, TimeRange(from, upto)) && item.stamp >= 0 && Millis(upto) < I64_MAX && Millis(item.stamp) < I64_MAX ==>
              from - 1_000_000 < item.stamp && (upto >= 0 ==> item.stamp < upto + 1_000_000)
  {
  }
}
