/** The work queue: a stack of byte strings in one byte pool with an array of offsets. */
module PackedQueue {
  import opened Common
  import opened Packing
  import opened Checkpoint

  /** What `lastSize` returns for an empty queue: -1 as an unsigned 64-bit size. */
  const NO_SIZE: nat := 0xFFFF_FFFF_FFFF_FFFF

  /** `size'` is `size` and some whole steps on top. */
  predicate WholeSteps(size: nat, step: nat, size': nat)
    requires 0 < step
    decreases size'
  {
    size' == size || (size + step <= size' && WholeSteps(size, step, size' - step))
  }

  /** `size` grown in whole steps until it reaches `amount`, and no further. */
  predicate GrownTo(size: nat, amount: nat, step: nat, size': nat)
    requires 0 < step
  {
    && WholeSteps(size, step, size') && amount <= size'
    && (size' > size ==> size' < amount + step)
  }

  /** `x` written over the bytes from `head` on. */
  function Overwrite(base: seq<byte>, head: nat, x: Item): (b: seq<byte>)
    requires head + |x| <= |base|
    ensures |b| == |base| && b[..head] == base[..head] && b[head..head + |x|] == x
  {
    base[..head] + x + base[head + |x|..]
  }

  /** Reads one line off the front of a non-empty text. */
  method GetLine(text: seq<byte>) returns (line: Item, rest: seq<byte>)
    requires text != []
    ensures |rest| < |text| && Lines(text) == [line] + Lines(rest)
  {
    line := [];
    var i := 0;
    while i < |text| && text[i] != NEWLINE
      invariant 0 <= i <= |text| && line == text[..i]
      invariant FirstLine(text) == line + FirstLine(text[i..])
    {
      line := line + [text[i]];
      assert text[i..][1..] == text[i + 1..];
      i := i + 1;
    }
    rest := if i == |text| then [] else text[i + 1..];
    assert line == FirstLine(text) && |line| == i;
    LinesFromFront(text, line, rest);
  }

  /** Pushing one line brings `before` one line closer to having all of `text`. */
  lemma {:induction false} ReadOneLine(before: seq<Item>, after: seq<Item>, line: Item,
        text: seq<byte>, rest: seq<byte>)
    requires Lines(text) == [line] + Lines(rest)
    requires after == if Stored(line) == [] then before else before + [Stored(line)]
    ensures after + Accepted(Lines(rest)) == before + Accepted(Lines(text))
  {
    AcceptedFromFront(line, Lines(rest));
    Reassociate(before, if Stored(line) == [] then [] else [Stored(line)], Accepted(Lines(rest)));
    assert before + [] == before;
  }

  /** Writing the top item brings `text` one line closer to holding all of `before`. */
  lemma {:induction false} WriteOneLine(text: seq<byte>, before: seq<Item>, after: seq<Item>, top: Item)
    requires before == after + [top]
    ensures text + CString(top) + [NEWLINE] + FileText(after) == text + FileText(before)
  {
    FileTextFromTop(before, after, top);
    Reassociate(text, CString(top), [NEWLINE]);
    Reassociate(text, CString(top) + [NEWLINE], FileText(after));
  }

  class Queue {
    var base: seq<byte>
    var head: nat
    var strings: seq<nat>
    var count: nat
    const pageSize: nat

    ghost predicate Valid()
      reads this
    {
      && 0 < pageSize
      && count <= |strings| && head <= |base|
      && Packed(strings[..count], head)
    }

    /** The stack of items, bottom first. */
    ghost function Contents(): seq<Item>
      reads this
      requires Valid()
    {
      Unpack(base, strings[..count], head)
    }

    constructor (pageSize_: nat)
      requires 0 < pageSize_
      ensures Valid() && Contents() == [] && pageSize == pageSize_
    {
      base, head, strings, count := [], 0, [], 0;
      pageSize := pageSize_;
    }

    /** An empty queue writes at the start of its pool. */
    lemma EmptyHasNoBytes()
      requires Valid()
      ensures count == |Contents()|
      ensures count == 0 ==> head == 0
      ensures forall x | x in Contents() :: x != []
    {
      ItemsAreNonEmpty(base, strings[..count], head);
    }

    method ExtendStr(amount: nat)
      requires Valid()
      modifies this`strings
      ensures Valid() && Contents() == old(Contents())
      ensures old(strings) <= strings && GrownTo(old(|strings|), amount, 512, |strings|)
    {
      var newSize := |strings|;
      while newSize < amount
        invariant |strings| <= newSize
        invariant newSize > |strings| ==> newSize < amount + 512
        invariant WholeSteps(|strings|, 512, newSize)
      {
        newSize := newSize + 512;
      }
      strings := strings + seq(newSize - |strings|, _ => 0);
      assert strings[..count] == old(strings[..count]);
    }

    method Extend(amount: nat)
      requires Valid()
      modifies this`base
      ensures Valid() && Contents() == old(Contents())
      ensures old(base) <= base && GrownTo(old(|base|), amount, pageSize * 4096, |base|)
    {
      var newSize := |base|;
      var step := pageSize * 4096;
      assert 0 < step;
      while newSize < amount
        invariant |base| <= newSize
        invariant newSize > |base| ==> newSize < amount + step
        invariant WholeSteps(|base|, step, newSize)
      {
        newSize := newSize + step;
      }
      base := base + seq(newSize - |base|, _ => 0);
      UnpackSameBytes(old(base), base, strings[..count], head);
    }

    /** Makes room for one more item of `len` bytes. */
    method Reserve(len: nat)
      requires Valid()
      modifies this`strings, this`base
      ensures Valid() && Contents() == old(Contents())
      ensures count < |strings| && head + len <= |base|
    {
      if count + 1 > |strings| {
        ExtendStr(count + 1);
      }
      var newBytes := head + len;
      if newBytes > |base| {
        Extend(newBytes);
      }
    }

    /**
     * Pushes `content`.  Its length is kept in 32 bits: an item of 4 GiB or more loses what is above a
     * multiple of that, and one whose length then is 0 is refused.
     */
    method Push(content: Item) returns (rc: int)
      requires Valid()
      modifies this
      ensures Valid()
      ensures 0 < |content| < 0x1_0000_0000 ==> rc == 0 && Contents() == old(Contents()) + [content]
      ensures |content| % 0x1_0000_0000 != 0 ==>
        rc == 0 && Contents() == old(Contents()) + [content[..|content| % 0x1_0000_0000]]
      ensures |content| % 0x1_0000_0000 == 0 ==> rc == -1 && unchanged(this)
    {
      var len := |content| % LENGTH_LIMIT;
      if len == 0 {
        return -1;
      }
      Reserve(len);
      ghost var base0, offsets0, head0 := base, strings[..count], head;
      strings := strings[count := head];
      base := Overwrite(base, head, content[..len]);
      head := head + len;
      count := count + 1;
      UnpackPush(base0, base, offsets0, head0, content[..len]);
      assert strings[..count] == offsets0 + [head0];
      assert |content| < LENGTH_LIMIT ==> content[..len] == content;
      return 0;
    }

    /** Removes the top item; an empty queue is left alone. */
    method Pop(content: Item) returns (rc: int, content': Item)
      requires Valid()
      modifies this
      ensures Valid() && base == old(base)
      ensures rc == if old(Contents()) == [] then -1 else 0
      ensures rc == 0 ==> old(Contents()) == Contents() + [content']
      ensures rc != 0 ==> unchanged(this) && content' == content
    {
      if count < 1 {
        return -1, content;
      }
      var current := strings[count - 1];
      var len := head - current;
      content' := base[current..current + len];
      UnpackPrefix(base, strings[..count], head, count - 1);
      head := current;
      count := count - 1;
      assert old(strings[..count])[..count] == strings[..count];
      return 0, content';
    }

    method LastSize() returns (size: nat)
      requires Valid()
      ensures size == if Contents() == [] then 0xFFFF_FFFF_FFFF_FFFF else |Contents()[|Contents()| - 1]|
    {
      if count < 1 {
        return NO_SIZE;
      }
      EndIsBeyond(strings[..count], head, count - 1);
      var current := strings[count - 1];
      return head - current;
    }

    /** Drains the queue into a checkpoint file; an empty queue writes no file. */
    method Write() returns (rc: int, file: Option<seq<byte>>)
      requires Valid()
      modifies this
      ensures Valid() && Contents() == [] && rc == 0
      ensures file == if old(Contents()) == [] then None else Some(FileText(old(Contents())))
    {
      if count == 0 {
        return 0, None;
      }
      ghost var items := Contents();
      var text := [];
      while count > 0
        invariant Valid() && text + FileText(Contents()) == FileText(items)
        decreases count
      {
        ghost var before := Contents();
        var rc1, content := Pop([]);
        WriteOneLine(text, before, Contents(), content);
        text := text + CString(content) + [NEWLINE];
      }
      assert text + FileText([]) == text;
      return 0, Some(text);
    }

    /** Pushes the lines of a checkpoint file on top of what is queued. */
    method Read(file: Option<seq<byte>>) returns (rc: int)
      requires Valid()
      modifies this
      ensures Valid() && rc == (if file == None then -1 else 0)
      ensures file == None ==> unchanged(this)
      ensures file.Some? ==> Contents() == old(Contents()) + Accepted(Lines(file.value))
    {
      if file == None {
        return -1;
      }
      var text := file.value;
      while text != []
        invariant Valid()
        invariant Contents() + Accepted(Lines(text)) == old(Contents()) + Accepted(Lines(file.value))
        decreases |text|
      {
        ghost var before := Contents();
        var str, rest := GetLine(text);
        var pushed := Push(str);
        ReadOneLine(before, Contents(), str, text, rest);
        text := rest;
      }
      assert Accepted(Lines([])) == [];
      return 0;
    }
  }

  /** A checkpoint restores a non-empty queue, upside down, exactly when its items are plain. */
  method SaveAndRestore(q: Queue) returns (r: Queue)
    requires q.Valid() && q.Contents() != [] && forall x | x in q.Contents() :: |x| < 0x1_0000_0000
    modifies q
    ensures fresh(r) && r.Valid() && q.Valid() && q.Contents() == []
    ensures r.Contents() == Reversed(old(q.Contents())) <==> forall x | x in old(q.Contents()) :: Plain(x)
  {
    q.EmptyHasNoBytes();
    ghost var items := q.Contents();
    var rc, file := q.Write();
    r := new Queue(q.pageSize);
    rc := r.Read(file);
    RoundTripExactlyWhenPlain(items);
  }
}
