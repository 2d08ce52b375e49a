/** The bag text of RatGrinder/ratgrinder_item/bag.py: `bag_into_msg` turns
    the entries of a player's bag into one reply. */
module Bag {
  import opened Text

  /** A value as a bag entry holds it: text, a number, or missing (`None`). */
  datatype Value = VText(s: string) | VInt(i: int) | VNone

  /** One bag entry: an `(item, count)` pair, or a dict read through its `name` and `count` keys. */
  datatype Entry = Pair(item: Value, count: Value) | Fields(fields: map<string, Value>)

  /** `f"{v}"` */
  function Show(v: Value): string {
    match v
    case VText(s) => s
    case VInt(i) => IntToString(i)
    case VNone => "None"
  }

  /** `d.get(k)` */
  function Lookup(d: map<string, Value>, k: string): Value {
    if k in d then d[k] else VNone
  }

  function ItemOf(e: Entry): Value {
    match e
    case Pair(item, _) => item
    case Fields(d) => Lookup(d, "name")
  }

  function CountOf(e: Entry): Value {
    match e
    case Pair(_, count) => count
    case Fields(d) => Lookup(d, "count")
  }

  /** `f"{item}: {count}"`, the line of one entry without its line break. */
  function EntryLine(e: Entry): string {
    Show(ItemOf(e)) + ": " + Show(CountOf(e))
  }

  const EmptyBagText := "背包为空"
  const BagHeader := "背包内容:"

  /** `head`, then one line per element, each ended by a line break. */
  function Block<E>(head: string, line: E -> string, es: seq<E>): string {
    if es == [] then head
    else Block(head, line, es[..|es| - 1]) + line(es[|es| - 1]) + "\n"
  }

  /** The lines of the elements, in order. */
  function LinesOf<E>(line: E -> string, es: seq<E>): seq<string> {
    seq(|es|, i requires 0 <= i < |es| => line(es[i]))
  }

  /** The text the loop has built after the given entries, before the final `strip()`. */
  function Raw(bag: seq<Entry>): string {
    Block(BagHeader + "\n", EntryLine, bag)
  }

  /** The entry lines, in the bag's order. */
  function EntryLines(bag: seq<Entry>): seq<string> {
    LinesOf(EntryLine, bag)
  }

  /** The reply of `bag_into_msg`. */
  function BagText(bag: seq<Entry>): string {
    if bag == [] then EmptyBagText else Strip(Raw(bag))
  }

  /** `bag_into_msg(bag_info)`: the loop, then the final `strip()`. */
  method BagIntoMsg(bag: seq<Entry>) returns (msg: string)
    ensures msg == BagText(bag)
  {
    if bag == [] {
      return EmptyBagText;
    }
    msg := AppendEntries(bag);
    msg := Strip(msg);
  }

  /** The `for entry in bag_info` loop: the header line, then one line per entry. */
  method AppendEntries(bag: seq<Entry>) returns (msg: string)
    ensures msg == Raw(bag)
  {
    msg := BagHeader + "\n";
    for i := 0 to |bag|
      invariant msg == Raw(bag[..i])
    {
      var entry := bag[i];
      var item, count;
      if entry.Fields? {
        item := Lookup(entry.fields, "name");
        count := Lookup(entry.fields, "count");
      } else {
        item, count := entry.item, entry.count;
      }
      var line := Show(item) + ": " + Show(count);
      assert line == EntryLine(bag[i]);
      assert bag[..i + 1][..i] == bag[..i];
      msg := msg + line + "\n";
    }
    assert bag[..|bag|] == bag;
  }

  // ---------------------------------------------------------------------------
  // Properties
  // ---------------------------------------------------------------------------

  /** A dict entry with `name` and `count` reads like the pair of those values. */
  lemma DictEntryIsPair(d: map<string, Value>)
    requires "name" in d && "count" in d
    ensures EntryLine(Fields(d)) == EntryLine(Pair(d["name"], d["count"]))
  {
  }

  /** A trailing blank is what `rstrip()` removes first. */
  lemma RStripTrailingSpace(s: string, c: char)
    requires IsSpace(c)
    ensures RStrip(s + [c]) == RStrip(s)
  {
    assert (s + [c])[..|s|] == s;
  }

  /** `rstrip()` of a text with a non-blank character after `head` keeps `head` and ends in a non-blank. */
  lemma RStripKeeps(s: string, head: string, i: nat)
    requires |head| <= i < |s| && s[..|head|] == head && !IsSpace(s[i])
    ensures var r := RStrip(s); r != [] && !IsSpace(r[|r| - 1]) && StartsWith(r, head)
  {
    RStripDrops(s);
    var r := RStrip(s);
    assert i < |r|;
    assert r[..|head|] == s[..|head|];
  }

  /** Before stripping, the text is the header line, then the entry lines, each ended by a line break. */
  lemma RawIsJoin(bag: seq<Entry>)
    requires bag != []
    ensures Raw(bag) == BagHeader + "\n" + Join(EntryLines(bag), "\n") + "\n"
  {
    BlockIsJoin(BagHeader + "\n", EntryLine, bag);
  }

  /** A block of lines is its head, then the lines joined by line breaks, then a final line break. */
  lemma {:induction false} BlockIsJoin<E>(head: string, line: E -> string, es: seq<E>)
    requires es != []
    ensures Block(head, line, es) == head + Join(LinesOf(line, es), "\n") + "\n"
    decreases |es|
  {
    var init, last := es[..|es| - 1], es[|es| - 1];
    if init == [] {
      assert LinesOf(line, es) == [line(last)];
    } else {
      BlockIsJoin(head, line, init);
      assert LinesOf(line, es) == LinesOf(line, init) + [line(last)];
      JoinLineStep(head, LinesOf(line, init), line(last));
    }
  }

  /** One more line after a joined block that ends in a line break. */
  lemma JoinLineStep(head: string, lines: seq<string>, line: string)
    requires lines != []
    ensures head + Join(lines, "\n") + "\n" + line + "\n" == head + Join(lines + [line], "\n") + "\n"
  {
    JoinSnoc(lines, line, "\n");
  }

  /**
   * A non-empty bag gives the header line and then the entry lines joined by
   * line breaks, with only the trailing whitespace removed.
   */
  lemma BagTextIsJoinedLines(bag: seq<Entry>)
    requires bag != []
    ensures BagText(bag) == RStrip(BagHeader + "\n" + Join(EntryLines(bag), "\n"))
  {
    RawIsJoin(bag);
    var s := BagHeader + "\n" + Join(EntryLines(bag), "\n");
    assert s[0] == '背';
    LStripIdempotent(Raw(bag));
    assert s + "\n" == s + ['\n'];
    RStripTrailingSpace(s, '\n');
  }

  /** `sep.join` of several parts starts with the first part. */
  lemma JoinStartsWithFirst(parts: seq<string>, sep: string)
    requires |parts| > 0
    ensures StartsWith(Join(parts, sep), parts[0])
  {
  }

  /** `rstrip()` of a header followed by joined lines, the first of which has a non-blank character. */
  lemma StrippedJoinShape(head: string, lines: seq<string>, i: nat)
    requires lines != [] && i < |lines[0]| && !IsSpace(lines[0][i])
    ensures var r := RStrip(head + Join(lines, "\n")); r != [] && !IsSpace(r[|r| - 1]) && StartsWith(r, head)
  {
    var s := head + Join(lines, "\n");
    JoinStartsWithFirst(lines, "\n");
    assert s[|head| + i] == lines[0][i];
    assert s[..|head|] == head;
    RStripKeeps(s, head, |head| + i);
  }

  /**
   * The reply never ends in whitespace; an empty bag gives the empty-bag text
   * and any other bag keeps its whole header line.
   */
  lemma BagTextShape(bag: seq<Entry>)
    ensures var r := BagText(bag); r != [] && !IsSpace(r[|r| - 1])
    ensures bag == [] <==> BagText(bag) == EmptyBagText
    ensures bag != [] ==> StartsWith(BagText(bag), BagHeader + "\n")
  {
    if bag != [] {
      BagTextIsJoinedLines(bag);
      var lines := EntryLines(bag);
      var item := Show(ItemOf(bag[0]));
      assert lines[0] == EntryLine(bag[0]) == item + ": " + Show(CountOf(bag[0]));
      assert lines[0][|item|] == ':';
      StrippedJoinShape(BagHeader + "\n", lines, |item|);
      PrefixDiffers(BagText(bag), BagHeader + "\n", EmptyBagText, 2);
    }
  }

  /** A text that starts with `head` differs from any text that disagrees with `head` at one index. */
  lemma PrefixDiffers(r: string, head: string, other: string, i: nat)
    requires StartsWith(r, head) && i < |head| && i < |other| && head[i] != other[i]
    ensures r != other
  {
    assert r[i] == r[..|head|][i];
  }

  /** A header line and lines without line breaks, the last ending in a non-blank, split back apart. */
  lemma SplitJoinedLines(head: string, lines: seq<string>)
    requires lines != [] && '\n' !in head
    requires forall i :: 0 <= i < |lines| ==> '\n' !in lines[i]
    requires var l := lines[|lines| - 1]; l != [] && !IsSpace(l[|l| - 1])
    ensures SplitOn(RStrip(head + "\n" + Join(lines, "\n")), '\n') == [head] + lines
  {
    var j := Join(lines, "\n");
    var s := (head + "\n") + j;
    var l := lines[|lines| - 1];
    JoinEndsWithLast(lines, "\n");
    assert j[|j| - 1] == l[|l| - 1] by {
      assert j[|j| - |l|..][|l| - 1] == l[|l| - 1];
    }
    LastOfAppend(head + "\n", j);
    RStripNonBlankEnd(s);
    JoinHeadLine(head, lines);
    SplitJoin([head] + lines, '\n');
  }

  /** `rstrip()` leaves a text that ends in a non-blank alone. */
  lemma RStripNonBlankEnd(s: string)
    requires s != [] && !IsSpace(s[|s| - 1])
    ensures RStrip(s) == s
  {
  }

  /** Joining a head line in front of lines puts one line break after it. */
  lemma JoinHeadLine(head: string, lines: seq<string>)
    requires lines != []
    ensures Join([head] + lines, "\n") == (head + "\n") + Join(lines, "\n")
  {
    assert ([head] + lines)[1..] == lines;
  }

  /**
   * With no line break inside any entry, and a last count that does not end
   * in whitespace, the reply splits into the header and one line per entry,
   * in the bag's order.
   */
  lemma BagLines(bag: seq<Entry>)
    requires bag != []
    requires forall i :: 0 <= i < |bag| ==> '\n' !in EntryLine(bag[i])
    requires var c := Show(CountOf(bag[|bag| - 1])); c != [] && !IsSpace(c[|c| - 1])
    ensures SplitOn(BagText(bag), '\n') == [BagHeader] + EntryLines(bag)
  {
    BagTextIsJoinedLines(bag);
    var lines := EntryLines(bag);
    var c := Show(CountOf(bag[|bag| - 1]));
    var l := lines[|lines| - 1];
    assert l == EntryLine(bag[|bag| - 1]) == (Show(ItemOf(bag[|bag| - 1])) + ": ") + c;
    LastOfAppend(Show(ItemOf(bag[|bag| - 1])) + ": ", c);
    HeaderSingleLine();
    SplitJoinedLines(BagHeader, lines);
  }

  /** The last character of `a + b` is that of `b`. */
  lemma LastOfAppend(a: string, b: string)
    requires b != []
    ensures var s := a + b; s != [] && s[|s| - 1] == b[|b| - 1]
  {
  }

  lemma HeaderSingleLine()
    ensures '\n' !in BagHeader
  {
  }

  /** `sep.join` of several parts ends with the last part. */
  lemma {:induction false} JoinEndsWithLast(parts: seq<string>, sep: string)
    requires |parts| > 0
    ensures var j := Join(parts, sep); var l := parts[|parts| - 1];
      |l| <= |j| && j[|j| - |l|..] == l
    decreases |parts|
  {
    if |parts| > 1 {
      JoinEndsWithLast(parts[1..], sep);
    }
  }
}
