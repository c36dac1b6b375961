/** The text of a checkpoint file, and when reading it back restores the queue. */
module Checkpoint {
  import opened Common

  const NUL: byte := 0
  const NEWLINE: byte := 10

  /** Lengths are kept in 32 bits, so only this much of a pushed item is stored. */
  const LENGTH_LIMIT: nat := 0x1_0000_0000

  function Stored(x: Item): Item {
    x[..|x| % LENGTH_LIMIT]
  }

  /** What `%s` prints of a byte string: everything before the first NUL. */
  function CString(x: Item): Item {
    if x == [] || x[0] == NUL then [] else [x[0]] + CString(x[1..])
  }

  /** What is printed is the part of the item before its first NUL, or all of it. */
  lemma {:induction false} CStringIsPrefix(x: Item)
    ensures CString(x) <= x && 0 !in CString(x)
    ensures |CString(x)| < |x| ==> x[|CString(x)|] == 0
  {
    if x != [] && x[0] != NUL { CStringIsPrefix(x[1..]); }
  }

  /** The file `write` produces: the items from the top of the stack down, one per line. */
  function FileText(items: seq<Item>): seq<byte> {
    if items == [] then [] else CString(items[|items| - 1]) + [NEWLINE] + FileText(items[..|items| - 1])
  }

  lemma {:induction false} FileTextFromTop(items: seq<Item>, below: seq<Item>, top: Item)
    requires items == below + [top]
    ensures FileText(items) == CString(top) + [NEWLINE] + FileText(below)
  {
    assert items[..|items| - 1] == below && items[|items| - 1] == top;
  }

  /** The bytes before the first newline. */
  function FirstLine(text: seq<byte>): (l: seq<byte>)
    ensures |l| <= |text|
  {
    if text == [] || text[0] == NEWLINE then [] else [text[0]] + FirstLine(text[1..])
  }

  /** The lines `getline` returns. */
  function Lines(text: seq<byte>): seq<Item>
    decreases |text|
  {
    if text == [] then [] else
      var l := FirstLine(text);
      [l] + if |l| == |text| then [] else Lines(text[|l| + 1..])
  }

  /** What pushing the lines adds: empty strings are refused. */
  function Accepted(lines: seq<Item>): seq<Item> {
    if lines == [] then []
    else (if Stored(lines[0]) == [] then [] else [Stored(lines[0])]) + Accepted(lines[1..])
  }

  lemma {:induction false} LinesFromFront(text: seq<byte>, line: Item, rest: seq<byte>)
    requires text != [] && line == FirstLine(text)
    requires rest == if |line| == |text| then [] else text[|line| + 1..]
    ensures Lines(text) == [line] + Lines(rest)
  {
  }

  lemma {:induction false} AcceptedFromFront(line: Item, rest: seq<Item>)
    ensures Accepted([line] + rest) == (if Stored(line) == [] then [] else [Stored(line)]) + Accepted(rest)
  {
    var lines := [line] + rest;
    assert lines[0] == line && lines[1..] == rest;
  }

  function Reversed(items: seq<Item>): (r: seq<Item>)
    ensures |r| == |items|
  {
    if items == [] then [] else [items[|items| - 1]] + Reversed(items[..|items| - 1])
  }

  /** No byte of the item is special to the file format. */
  predicate Plain(x: Item) {
    NUL !in x && NEWLINE !in x
  }

  /** Items pushed later are printed first, each on a line of its own. */
  lemma {:induction false} FileTextOfParts(below: seq<Item>, above: seq<Item>)
    ensures FileText(below + above) == FileText(above) + FileText(below)
    ensures forall x :: FileText([x]) == CString(x) + [10]
  {
    forall x ensures FileText([x]) == CString(x) + [10] {
      assert [x][..0] == [];
    }
    if above == [] {
      assert below + above == below && FileText([]) + FileText(below) == FileText(below);
    } else {
      var m := |above| - 1;
      assert (below + above)[..|below + above| - 1] == below + above[..m];
      FileTextOfParts(below, above[..m]);
      Reassociate(CString(above[m]) + [NEWLINE], FileText(above[..m]), FileText(below));
    }
  }

  /** The lines written out again, each with a newline. */
  function Joined(lines: seq<Item>): seq<byte> {
    if lines == [] then [] else Joined(lines[..|lines| - 1]) + lines[|lines| - 1] + [10]
  }

  lemma {:induction false} JoinedFromFront(line: Item, rest: seq<Item>)
    ensures Joined([line] + rest) == line + [10] + Joined(rest)
  {
    var all := [line] + rest;
    if rest == [] {
      assert all[..0] == [];
    } else {
      var m := |rest| - 1;
      assert all[..m + 1] == [line] + rest[..m] && all[m + 1] == rest[m];
      JoinedFromFront(line, rest[..m]);
      Reassociate(line + [10], Joined(rest[..m]), rest[m]);
      Reassociate(line + [10], Joined(rest[..m]) + rest[m], [10]);
    }
  }

  lemma JoinedOfCut(line: Item, rest: seq<byte>, lines: seq<Item>)
    requires Joined(lines) == if rest == [] || rest[|rest| - 1] == 10 then rest else rest + [10]
    ensures var text := line + [10] + rest;
      Joined([line] + lines) == if text[|text| - 1] == 10 then text else text + [10]
  {
    JoinedFromFront(line, lines);
    Reassociate(line + [10], rest, [10]);
    if rest != [] { assert (line + [10] + rest)[|line| + |rest|] == rest[|rest| - 1]; }
  }

  /** No line holds a newline, and together they are the text, whose last newline may be missing. */
  lemma {:induction false} LinesExactly(text: seq<byte>)
    ensures Joined(Lines(text)) == if text == [] || text[|text| - 1] == 10 then text else text + [10]
    ensures forall l: Item | l in Lines(text) :: 10 !in l
    decreases |text|
  {
    if text != [] {
      var l := FirstLine(text);
      FirstLineLaws(text);
      if |l| == |text| {
        assert text == l;
        JoinedFromFront(l, []);
        assert Lines(text) == [l] + [];
        assert l + [10] + Joined([]) == l + [10];
      } else {
        var rest := text[|l| + 1..];
        LinesExactly(rest);
        assert text == l + [10] + rest;
        JoinedOfCut(l, rest, Lines(rest));
        assert Lines(text) == [l] + Lines(rest);
      }
    }
  }

  /** Reading goes on after a line that is refused: one line more adds that line, unless it is empty. */
  lemma {:induction false} AcceptedOneMore(lines: seq<Item>, line: Item)
    ensures 0 < |line| < 0x1_0000_0000 ==> Accepted(lines + [line]) == Accepted(lines) + [line]
    ensures line == [] ==> Accepted(lines + [line]) == Accepted(lines)
  {
    if lines == [] {
      assert lines + [line] == [line] && [line][1..] == [];
      if 0 < |line| < LENGTH_LIMIT { StoredWhole(line); }
    } else {
      assert (lines + [line])[1..] == lines[1..] + [line];
      AcceptedOneMore(lines[1..], line);
    }
  }

  // ---------------------------------------------------------------- counting bytes

  function Bytes(items: seq<Item>): nat {
    if items == [] then 0 else |items[0]| + Bytes(items[1..])
  }

  function Newlines(x: seq<byte>): nat {
    if x == [] then 0 else (if x[0] == NEWLINE then 1 else 0) + Newlines(x[1..])
  }

  lemma {:induction false} NewlinesAppend(x: seq<byte>, y: seq<byte>)
    ensures Newlines(x + y) == Newlines(x) + Newlines(y)
  {
    if x == [] {
      assert x + y == y;
    } else {
      assert (x + y)[1..] == x[1..] + y;
      NewlinesAppend(x[1..], y);
    }
  }

  lemma {:induction false} NewlinesBound(x: seq<byte>)
    ensures Newlines(x) <= |x| && (Newlines(x) == 0 <==> NEWLINE !in x)
  {
    if x != [] {
      NewlinesBound(x[1..]);
      assert x == [x[0]] + x[1..];
    }
  }

  lemma {:induction false} FirstLineLaws(text: seq<byte>)
    ensures var l := FirstLine(text);
      && l == text[..|l|] && NEWLINE !in l && (|l| < |text| ==> text[|l|] == NEWLINE)
  {
    if text != [] && text[0] != NEWLINE {
      var l := FirstLine(text[1..]);
      FirstLineLaws(text[1..]);
      assert FirstLine(text) == [text[0]] + l;
      assert text[..|l| + 1] == [text[0]] + text[1..][..|l|];
    }
  }

  /** Splitting into lines loses exactly the newlines. */
  lemma {:induction false} LinesLoseNewlines(text: seq<byte>)
    ensures Bytes(Lines(text)) + Newlines(text) == |text|
    decreases |text|
  {
    if text != [] {
      var l := FirstLine(text);
      FirstLineLaws(text);
      NewlinesBound(l);
      if |l| == |text| {
        assert text == l;
        assert Lines(text) == [l] && [l][1..] == [];
      } else {
        var rest := text[|l| + 1..];
        assert text == l + ([NEWLINE] + rest);
        NewlinesAppend(l, [NEWLINE] + rest);
        assert ([NEWLINE] + rest)[1..] == rest;
        LinesLoseNewlines(rest);
        assert Lines(text)[1..] == Lines(rest);
      }
    }
  }

  lemma {:induction false} AcceptedLosesBytes(lines: seq<Item>)
    ensures Bytes(Accepted(lines)) <= Bytes(lines)
  {
    if lines != [] {
      AcceptedLosesBytes(lines[1..]);
      var a := Accepted(lines[1..]);
      if Stored(lines[0]) != [] { assert ([Stored(lines[0])] + a)[1..] == a; }
      else { assert [] + a == a; }
    }
  }

  lemma {:induction false} CStringLaws(x: Item)
    ensures |CString(x)| <= |x| && (|CString(x)| == |x| <==> NUL !in x) && (NUL !in x ==> CString(x) == x)
  {
    if x != [] && x[0] != NUL {
      CStringLaws(x[1..]);
      assert x == [x[0]] + x[1..];
    }
  }

  lemma {:induction false} BytesAppend(a: seq<Item>, b: seq<Item>)
    ensures Bytes(a + b) == Bytes(a) + Bytes(b)
  {
    if a == [] {
      assert a + b == b;
    } else {
      assert (a + b)[1..] == a[1..] + b;
      BytesAppend(a[1..], b);
    }
  }

  lemma {:induction false} BytesOnTop(below: seq<Item>, top: Item)
    ensures Bytes(below + [top]) == Bytes(below) + |top|
  {
    BytesAppend(below, [top]);
    assert [top][1..] == [];
  }

  lemma {:induction false} ReversedKeepsBytes(items: seq<Item>)
    ensures Bytes(Reversed(items)) == Bytes(items)
  {
    if items != [] {
      var m := |items| - 1;
      ReversedKeepsBytes(items[..m]);
      assert items == items[..m] + [items[m]];
      BytesOnTop(items[..m], items[m]);
      assert Reversed(items)[1..] == Reversed(items[..m]);
    }
  }

  /** Bytes of a text other than newlines. */
  function Payload(text: seq<byte>): int {
    |text| - Newlines(text)
  }

  /** A line carries all bytes of its item exactly if the item is plain. */
  lemma {:induction false} LinePayload(x: Item, rest: seq<byte>)
    ensures Payload(CString(x) + [NEWLINE] + rest) <= |x| + Payload(rest)
    ensures Payload(CString(x) + [NEWLINE] + rest) == |x| + Payload(rest) ==> Plain(x)
  {
    var c := CString(x);
    CStringLaws(x);
    NewlinesBound(c);
    assert c + [NEWLINE] + rest == c + ([NEWLINE] + rest);
    NewlinesAppend(c, [NEWLINE] + rest);
    assert ([NEWLINE] + rest)[1..] == rest;
  }

  /** The file carries all bytes of the items only if all of them are plain. */
  lemma {:induction false} FileLosesSpecials(items: seq<Item>)
    ensures Payload(FileText(items)) <= Bytes(items)
    ensures Payload(FileText(items)) == Bytes(items) ==> forall x | x in items :: Plain(x)
  {
    if items != [] {
      var below, top := items[..|items| - 1], items[|items| - 1];
      assert items == below + [top];
      FileTextFromTop(items, below, top);
      BytesOnTop(below, top);
      LinePayload(top, FileText(below));
      FileLosesSpecials(below);
    }
  }

  lemma {:induction false} FirstLineOf(x: Item, rest: seq<byte>)
    requires NEWLINE !in x
    ensures FirstLine(x + [NEWLINE] + rest) == x
  {
    if x != [] {
      assert (x + [NEWLINE] + rest)[1..] == x[1..] + [NEWLINE] + rest;
      FirstLineOf(x[1..], rest);
    }
  }

  lemma {:induction false} PlainItemsSurvive(items: seq<Item>)
    requires forall x | x in items :: Plain(x) && 0 < |x| < LENGTH_LIMIT
    ensures Accepted(Lines(FileText(items))) == Reversed(items)
  {
    if items != [] {
      var m := |items| - 1;
      var x, rest := items[m], FileText(items[..m]);
      var text := x + [NEWLINE] + rest;
      assert x in items;
      CStringLaws(x);
      FirstLineOf(x, rest);
      assert FileText(items) == text;
      assert text[|x| + 1..] == rest;
      LinesFromFront(text, x, rest);
      AcceptedFromFront(x, Lines(rest));
      StoredWhole(x);
      PlainItemsSurvive(items[..m]);
    }
  }

  lemma StoredWhole(x: Item)
    requires |x| < LENGTH_LIMIT
    ensures Stored(x) == x
  {
  }

  /**
   * Writing a checkpoint and reading it into an empty queue gives the items back in reverse
   * order exactly when no item contains a newline or a NUL.
   */
  lemma RoundTripExactlyWhenPlain(items: seq<Item>)
    requires forall x | x in items :: 0 < |x| < 0x1_0000_0000
    ensures Accepted(Lines(FileText(items))) == Reversed(items) <==> forall x | x in items :: Plain(x)
  {
    if forall x | x in items :: Plain(x) {
      PlainItemsSurvive(items);
    } else {
      var lines := Lines(FileText(items));
      LinesLoseNewlines(FileText(items));
      FileLosesSpecials(items);
      AcceptedLosesBytes(lines);
      ReversedKeepsBytes(items);
    }
  }
}
