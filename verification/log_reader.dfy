/**
 The reading side of a task's log: polls by offset over a file that grows at
 any moment, and the reassembly of event lines from whatever chunks arrive.
 */
module LogReader {
  import opened Chunks
  import opened EventLog

  /** One poll as the server serves it: the file when its size was taken, when
      its bytes were read, and when the task's status was looked up. */
  datatype Poll = Poll(atStat: Bytes, atRead: Bytes, atStatus: Bytes, over: bool)

  /** The file only grows, and a poll that has nothing to read does not pause
      between taking the size and looking at the status. */
  predicate Plausible(p: Poll, offset: nat) {
    && IsPrefix(p.atStat, p.atRead) && IsPrefix(p.atRead, p.atStatus)
    && (|p.atStat| <= offset ==> p.atStatus == p.atStat)
  }

  function Served(p: Poll, offset: nat): Bytes {
    if offset < |p.atStat| && offset <= |p.atRead| then p.atRead[offset..] else ""
  }

  /** Where `follow` stands before poll n. */
  function OffsetAt(polls: seq<Poll>, start: nat, n: nat): nat
    requires n <= |polls|
  {
    if n == 0 then start
    else
      var o := OffsetAt(polls, start, n - 1);
      o + |Served(polls[n - 1], o)|
  }

  ghost predicate PlausibleAt(polls: seq<Poll>, start: nat, n: nat)
    requires n < |polls|
  {
    Plausible(polls[n], OffsetAt(polls, start, n))
    && (n > 0 ==> IsPrefix(polls[n - 1].atStatus, polls[n].atStat))
  }

  ghost predicate Growing(polls: seq<Poll>, start: nat) {
    forall n: nat :: n < |polls| ==> PlausibleAt(polls, start, n)
  }

  /** Does `follow` stop after poll n? */
  predicate Stops(polls: seq<Poll>, start: nat, n: nat)
    requires n < |polls|
  {
    polls[n].over && OffsetAt(polls, start, n + 1) >= |polls[n].atStat|
  }

  lemma ReadsGrow(polls: seq<Poll>, start: nat, n: nat)
    requires Growing(polls, start) && 0 < n < |polls|
    ensures IsPrefix(polls[n - 1].atRead, polls[n].atRead)
  {
    assert PlausibleAt(polls, start, n - 1) && PlausibleAt(polls, start, n);
    var a, b, c, d := polls[n - 1].atRead, polls[n - 1].atStatus, polls[n].atStat, polls[n].atRead;
    assert d[..|a|] == d[..|c|][..|b|][..|a|];
  }

  /** The offset reached never runs past the file, unless it started there. */
  lemma {:induction false} OffsetInFile(polls: seq<Poll>, start: nat, n: nat)
    requires Growing(polls, start) && 0 < n <= |polls|
    ensures start <= OffsetAt(polls, start, n - 1) <= OffsetAt(polls, start, n)
    ensures OffsetAt(polls, start, n) == start || OffsetAt(polls, start, n) <= |polls[n - 1].atRead|
    ensures OffsetAt(polls, start, n) >= |polls[n - 1].atStat|
  {
    assert PlausibleAt(polls, start, n - 1);
    if n > 1 {
      OffsetInFile(polls, start, n - 1);
      ReadsGrow(polls, start, n - 1);
    }
  }

  /** A text is one contiguous slice of the file, from the start on, with
      everything in it that was there when the last of n polls began. */
  predicate Sliced(polls: seq<Poll>, start: nat, n: nat, text: Bytes)
    requires n <= |polls|
  {
    var offset := OffsetAt(polls, start, n);
    && start <= offset
    && (n == 0 || start == offset ==> text == "")
    && (n > 0 ==> offset >= |polls[n - 1].atStat|)
    && (n > 0 && start < offset ==>
          offset <= |polls[n - 1].atRead| && text == polls[n - 1].atRead[start..offset])
  }

  lemma SlicedNext(polls: seq<Poll>, start: nat, n: nat, text: Bytes)
    requires Growing(polls, start) && n < |polls| && Sliced(polls, start, n, text)
    ensures Sliced(polls, start, n + 1, text + Served(polls[n], OffsetAt(polls, start, n)))
  {
    var offset := OffsetAt(polls, start, n);
    var p := polls[n];
    assert Plausible(p, offset) by { assert PlausibleAt(polls, start, n); }
    assert OffsetAt(polls, start, n + 1) == offset + |Served(p, offset)|;
    if start < offset {
      ReadsGrow(polls, start, n);
    }
    SliceGrows(p, start, offset, text);
  }

  lemma SliceGrows(p: Poll, start: nat, offset: nat, text: Bytes)
    requires Plausible(p, offset) && start <= offset
    requires if start == offset then text == "" else offset <= |p.atRead| && text == p.atRead[start..offset]
    ensures var content := Served(p, offset);
            var end := offset + |content|;
            && end >= |p.atStat|
            && if start == end then text + content == "" && text == ""
               else end <= |p.atRead| && text + content == p.atRead[start..end]
                    && (content == "" ==> text == p.atRead[start..end])
  {
    var g := p.atRead;
    if Served(p, offset) != "" { assert g[start..] == g[start..offset] + g[offset..]; }
  }

  ghost predicate NoneEmpty(chunks: seq<Bytes>) {
    forall i :: 0 <= i < |chunks| ==> chunks[i] != ""
  }

  /** The reader's state once n polls are made and none of them has stopped it. */
  ghost predicate Halfway(polls: seq<Poll>, start: nat, n: nat, offset: nat, chunks: seq<Bytes>) {
    && n <= |polls| && offset == OffsetAt(polls, start, n)
    && Sliced(polls, start, n, Joined(chunks)) && NoneEmpty(chunks)
  }

  /** One more poll: what it yields, where it leads and whether it is the last. */
  method PollNext(polls: seq<Poll>, start: nat, n: nat, offset: nat, chunks: seq<Bytes>)
    returns (offset': nat, chunks': seq<Bytes>, stop: bool)
    requires Growing(polls, start) && n < |polls| && Halfway(polls, start, n, offset, chunks)
    ensures Halfway(polls, start, n + 1, offset', chunks')
    ensures stop <==> polls[n].over && offset' >= |polls[n].atStat|
    ensures stop <==> Stops(polls, start, n)
  {
    var p := polls[n];
    var content := Served(p, offset);
    SlicedNext(polls, start, n, Joined(chunks));
    chunks' := if content == "" then chunks else chunks + [content];
    offset' := offset + |content|;
    stop := p.over && offset' >= |p.atStat|;
  }

  /** Polls until the task is over and the size seen is reached. */
  method Follow(polls: seq<Poll>, start: nat) returns (chunks: seq<Bytes>, offset: nat, used: nat, done: bool)
    requires Growing(polls, start)
    ensures Halfway(polls, start, used, offset, chunks)
    // It ends when a finished task's size is reached, and at no poll before.
    ensures done ==> used > 0 && polls[used - 1].over && offset >= |polls[used - 1].atStat|
    ensures !done ==> used == |polls|
    ensures forall k :: 0 <= k < (if done then used - 1 else used) ==> !Stops(polls, start, k)
  {
    chunks, offset, used, done := [], start, 0, false;
    while used < |polls|
      invariant !done && Halfway(polls, start, used, offset, chunks)
      invariant forall k :: 0 <= k < used ==> !Stops(polls, start, k)
    {
      offset, chunks, done := PollNext(polls, start, used, offset, chunks);
      used := used + 1;
      if done { return; }
    }
  }

  /** A reader that stopped has the whole log of the ended task exactly when
      nothing was appended between its last read and the status check. */
  lemma StoppedHasAllIff(polls: seq<Poll>, start: nat, n: nat)
    requires Growing(polls, start) && n < |polls| && Stops(polls, start, n)
    requires start <= |polls[n].atStatus|
    ensures OffsetAt(polls, start, n + 1) == |polls[n].atStatus| <==>
            OffsetAt(polls, start, n) >= |polls[n].atStat| || polls[n].atRead == polls[n].atStatus
  {
    assert PlausibleAt(polls, start, n);
    OffsetInFile(polls, start, n + 1);
    if n > 0 { OffsetInFile(polls, start, n); }
  }

  /** It can miss the tail: bytes that arrive after the read, together with the
      end of the task, are never asked for. */
  lemma StoppedCanMissTheTail()
    ensures exists polls: seq<Poll> ::
              Growing(polls, 0) && |polls| == 1 && Stops(polls, 0, 0)
              && OffsetAt(polls, 0, 1) < |polls[0].atStatus|
  {
    var polls := [Poll.Poll("a", "a", "ab", true)];
    assert OffsetAt(polls, 0, 0) == 0;
    assert Served(polls[0], 0) == "a" && OffsetAt(polls, 0, 1) == 1;
    assert PlausibleAt(polls, 0, 0);
    assert Growing(polls, 0) && Stops(polls, 0, 0);
  }

  // Lines.

  /** The text up to its last newline, and what follows that newline. */
  function Partition(s: Bytes): (Bytes, Bytes) {
    if s == "" then ("", "")
    else if s[|s| - 1] == '\n' then (s[..|s| - 1], "")
    else
      var (head, tail) := Partition(s[..|s| - 1]);
      (head, tail + [s[|s| - 1]])
  }

  /** The events of a text, given those of one newline-free line. */
  function Parse<E>(line: Bytes -> seq<E>, s: Bytes): seq<E> {
    if '\n' !in s then line(s)
    else
      var i := FirstNewline(s);
      line(s[..i]) + Parse(line, s[i + 1..])
  }

  function FirstNewline(s: Bytes): (i: nat)
    requires '\n' in s
    ensures i < |s| && s[i] == '\n' && '\n' !in s[..i]
  {
    if s[0] == '\n' then 0 else 1 + FirstNewline(s[1..])
  }

  lemma {:induction false} PartitionSplits(s: Bytes)
    ensures var (head, tail) := Partition(s);
            '\n' !in tail && (if '\n' in s then s == head + "\n" + tail else head == "" && tail == s)
  {
    if s != "" {
      var front, last := s[..|s| - 1], s[|s| - 1];
      assert s == front + [last];
      if last != '\n' { PartitionSplits(front); }
    }
  }

  lemma {:induction false} PartitionIs(head: Bytes, tail: Bytes)
    requires '\n' !in tail
    ensures Partition(head + "\n" + tail) == (head, tail)
    decreases |tail|
  {
    var s := head + "\n" + tail;
    if tail == "" {
      assert s[..|s| - 1] == head;
    } else {
      var front := tail[..|tail| - 1];
      assert s[..|s| - 1] == head + "\n" + front;
      assert tail == front + [tail[|tail| - 1]] && s[|s| - 1] == tail[|tail| - 1];
      PartitionIs(head, front);
    }
  }

  lemma {:induction false} FirstNewlineIs(s: Bytes, i: nat)
    requires i < |s| && s[i] == '\n' && '\n' !in s[..i]
    ensures '\n' in s && FirstNewline(s) == i
  {
    if i > 0 {
      assert s[..i][0] == s[0] && s[1..][..i - 1] == s[..i][1..];
      FirstNewlineIs(s[1..], i - 1);
    }
  }

  lemma ParseFirst<E>(line: Bytes -> seq<E>, a: Bytes, b: Bytes)
    requires '\n' !in a
    ensures Parse(line, a + "\n" + b) == line(a) + Parse(line, b)
  {
    var s := a + "\n" + b;
    assert s[..|a|] == a && s[|a| + 1..] == b;
    FirstNewlineIs(s, |a|);
  }

  lemma Regroup(a: Bytes, b: Bytes, c: Bytes)
    ensures a + "\n" + b + "\n" + c == a + "\n" + (b + "\n" + c)
  {
  }

  lemma {:induction false} ParseJoins<E>(line: Bytes -> seq<E>, a: Bytes, b: Bytes)
    ensures Parse(line, a + "\n" + b) == Parse(line, a) + Parse(line, b)
    ensures '\n' !in b ==> Parse(line, b) == line(b)
    decreases |a|
  {
    if '\n' !in a {
      ParseFirst(line, a, b);
    } else {
      var j := FirstNewline(a);
      var first, more := a[..j], a[j + 1..];
      assert a == first + "\n" + more;
      ParseJoins(line, more, b);
      ParseFirst(line, first, more);
      assert Parse(line, a + "\n" + b) == line(first) + Parse(line, more + "\n" + b) by {
        Regroup(first, more, b);
        ParseFirst(line, first, more + "\n" + b);
      }
      Associates(line(first), Parse(line, more), Parse(line, b));
    }
  }

  lemma Associates<E>(a: seq<E>, b: seq<E>, c: seq<E>)
    ensures a + (b + c) == a + b + c
  {
  }

  /** Yields the events of each complete line as soon as it is complete. */
  method Watch<E>(line: Bytes -> seq<E>, chunks: seq<Bytes>) returns (events: seq<E>, rest: Bytes)
    requires line("") == []
    // Independent of the chunking: only the concatenation matters.
    ensures events == Parse(line, Partition(Joined(chunks)).0)
    ensures rest == Partition(Joined(chunks)).1
  {
    var buf := "";
    events := [];
    var n := 0;
    while n < |chunks|
      invariant 0 <= n <= |chunks|
      invariant (events, buf) == (Parse(line, Partition(Joined(chunks[..n])).0), Partition(Joined(chunks[..n])).1)
    {
      var (head, tail) := Partition(buf + chunks[n]);
      assert chunks[..n + 1][..n] == chunks[..n];
      WatchStep(line, Joined(chunks[..n]), chunks[n]);
      events := events + Parse(line, head);
      buf := tail;
      n := n + 1;
    }
    assert chunks[..n] == chunks;
    rest := buf;
  }

  /** Adding a chunk to a text completes exactly the lines it completes in the
      text's unfinished end. */
  lemma PartitionStep(text: Bytes, chunk: Bytes)
    ensures var (before, buf) := Partition(text);
            var (head, tail) := Partition(buf + chunk);
            Partition(text + chunk) ==
            (if '\n' !in text then head else if '\n' !in buf + chunk then before else before + "\n" + head, tail)
  {
    var (before, buf) := Partition(text);
    PartitionSplits(text);
    if '\n' in text {
      Associates(before + "\n", buf, chunk);
      PartitionAfter(before, buf + chunk);
    }
  }

  lemma PartitionAfter(before: Bytes, s: Bytes)
    ensures var (head, tail) := Partition(s);
            Partition(before + "\n" + s) == (if '\n' !in s then before else before + "\n" + head, tail)
  {
    var (head, tail) := Partition(s);
    PartitionSplits(s);
    if '\n' in s {
      Regroup(before, head, tail);
      PartitionIs(before + "\n" + head, tail);
    } else {
      PartitionIs(before, tail);
    }
  }

  lemma WatchStep<E>(line: Bytes -> seq<E>, text: Bytes, chunk: Bytes)
    requires line("") == []
    ensures var (before, buf) := Partition(text);
            var (head, tail) := Partition(buf + chunk);
            Parse(line, Partition(text + chunk).0) == Parse(line, before) + Parse(line, head)
            && Partition(text + chunk).1 == tail
  {
    var (before, buf) := Partition(text);
    PartitionStep(text, chunk);
    PartitionSplits(text);
    PartitionSplits(buf + chunk);
    ParseJoins(line, before, Partition(buf + chunk).0);
  }
}
