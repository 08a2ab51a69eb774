/** The detach sequence of a shell client: `~.` at the start of a line, found
    in typed bytes that arrive in arbitrary pieces. */
module Escapes {
  import opened Chunks

  type Bytes = string

  predicate LineStart(s: Bytes, i: nat)
    requires i <= |s|
  {
    i == 0 || s[i - 1] in "\r\n"
  }

  predicate EscapeAt(s: Bytes, i: nat) {
    i + 2 <= |s| && s[i] == '~' && s[i + 1] == '.' && LineStart(s, i)
  }

  ghost predicate Escaping(s: Bytes) {
    exists i: nat :: EscapeAt(s, i)
  }

  ghost predicate FirstEscape(s: Bytes, i: nat) {
    EscapeAt(s, i) && forall j: nat :: j < i ==> !EscapeAt(s, j)
  }

  /** `passed` is the text before the first escape. */
  ghost predicate StopsAt(s: Bytes, passed: Bytes) {
    exists i: nat :: FirstEscape(s, i) && passed == s[..i]
  }

  /** A `~` that opens a line is held back until the next byte tells. */
  predicate Held(s: Bytes) {
    s != "" && s[|s| - 1] == '~' && LineStart(s, |s| - 1)
  }

  function Kept(s: Bytes): (r: Bytes)
    ensures r + (if Held(s) then "~" else "") == s
  {
    if Held(s) then s[..|s| - 1] else s
  }

  /** One more byte completes an escape exactly when a `~` is held and the byte
      is a dot, and then that escape is the first. */
  lemma Extends(s: Bytes, c: char)
    requires !Escaping(s)
    ensures Escaping(s + [c]) <==> Held(s) && c == '.'
    ensures Held(s) && c == '.' ==> FirstEscape(s + [c], |Kept(s)|)
  {
    var t := s + [c];
    forall i: nat | i + 2 <= |s| ensures !EscapeAt(t, i) {
      assert !EscapeAt(s, i);
    }
    if Held(s) && c == '.' {
      assert EscapeAt(t, |s| - 1);
    }
  }

  /** What follows the first escape does not move it. */
  lemma FirstStays(s: Bytes, more: Bytes, i: nat)
    requires FirstEscape(s, i)
    ensures FirstEscape(s + more, i)
  {
    var t := s + more;
    forall j: nat | j < i ensures !EscapeAt(t, j) {
      assert !EscapeAt(s, j);
    }
  }

  /** The first n bytes of `data` are taken, and `kept` is what they let pass. */
  predicate PartWay(was: Bytes, data: Bytes, n: nat, kept: Bytes, now: Bytes) {
    n <= |data| && now == was + data[..n] && Kept(was) + kept == Kept(now)
  }

  lemma PartNext(was: Bytes, data: Bytes, n: nat, kept: Bytes, now: Bytes, piece: Bytes)
    requires PartWay(was, data, n, kept, now) && n < |data|
    requires Kept(now) + piece == Kept(now + [data[n]])
    ensures PartWay(was, data, n + 1, kept + piece, now + [data[n]])
  {
    assert data[..n + 1] == data[..n] + [data[n]];
    Regroup(was, data[..n], [data[n]]);
    Regroup(Kept(was), kept, piece);
  }

  lemma Regroup(a: Bytes, b: Bytes, c: Bytes)
    ensures a + (b + c) == (a + b) + c
  {}

  lemma Ends(was: Bytes, data: Bytes, now: Bytes, n: nat, kept: Bytes)
    requires n < |data| && now == was + data[..n]
    requires FirstEscape(now + [data[n]], |Kept(now)|) && Kept(was) + kept == Kept(now)
    ensures Escaping(was + data) && StopsAt(was + data, Kept(was) + kept)
  {
    FirstStays(now + [data[n]], data[n + 1..], |Kept(now)|);
    assert was + data == now + [data[n]] + data[n + 1..];
    assert Kept(was) + kept == (was + data)[..|Kept(now)|];
  }

  class Escape {
    var atStart: bool
    var armed: bool
    /** Everything typed so far. */
    ghost var typed: Bytes

    ghost predicate Valid()
      reads this
    {
      && !Escaping(typed) && armed == Held(typed)
      && (!armed ==> atStart == LineStart(typed, |typed|))
    }

    constructor ()
      ensures Valid() && typed == ""
    {
      atStart, armed, typed := true, false, "";
    }

    /** One byte: what it lets pass, and whether it completes an escape. */
    method Take(c: char) returns (piece: Bytes, stop: bool)
      requires Valid()
      modifies this
      ensures typed == old(typed) + [c]
      ensures stop ==> piece == "" && FirstEscape(typed, |Kept(old(typed))|)
      ensures !stop ==> Valid() && Kept(old(typed)) + piece == Kept(typed)
    {
      Extends(typed, c);
      typed := typed + [c];
      piece, stop := "", false;
      if armed {
        armed := false;
        if c == '.' { return "", true; }
        piece := "~" + [c];
      } else if atStart && c == '~' {
        armed := true;
        return;
      } else {
        piece := [c];
      }
      atStart := c in "\r\n";
    }

    /** Detaches if and only if the bytes typed so far, in whatever pieces they
        came, hold an escape; up to the first escape, and no further, every byte
        is passed on, except for a `~` still held. */
    method Filter(data: Bytes) returns (kept: Bytes, detached: bool)
      requires Valid()
      modifies this
      ensures typed == old(typed) + data
      ensures detached <==> Escaping(typed)
      ensures !detached ==> Valid() && Kept(old(typed)) + kept == Kept(typed)
      ensures detached ==> StopsAt(typed, Kept(old(typed)) + kept)
    {
      kept, detached := "", false;
      ghost var was := typed;
      for n := 0 to |data|
        invariant Valid() && PartWay(was, data, n, kept, typed)
      {
        ghost var now := typed;
        var piece, stop := Take(data[n]);
        if stop {
          Ends(was, data, now, n, kept);
          typed := was + data;
          return kept, true;
        }
        PartNext(was, data, n, kept, now, piece);
        kept := kept + piece;
      }
      assert data[..|data|] == data;
    }
  }

  lemma {:induction false} JoinedSplit(chunks: seq<Bytes>, n: nat)
    requires n <= |chunks|
    ensures exists rest :: Joined(chunks) == Joined(chunks[..n]) + rest
  {
    if n == |chunks| {
      assert chunks[..n] == chunks;
      assert Joined(chunks) == Joined(chunks[..n]) + "";
    } else {
      var less := chunks[..|chunks| - 1];
      JoinedSplit(less, n);
      assert less[..n] == chunks[..n];
      var rest :| Joined(less) == Joined(chunks[..n]) + rest;
      assert Joined(chunks) == Joined(chunks[..n]) + (rest + chunks[|chunks| - 1]);
    }
  }

  /** A whole sitting at the keyboard: the client detaches if and only if an
      escape was typed, and what it sent is what was typed before it. */
  method Type(chunks: seq<Bytes>) returns (sent: Bytes, detached: bool, armed: bool)
    ensures detached <==> Escaping(Joined(chunks))
    ensures detached ==> StopsAt(Joined(chunks), sent)
    ensures !detached ==> sent + (if armed then "~" else "") == Joined(chunks)
  {
    var escape := new Escape();
    sent := "";
    for n := 0 to |chunks|
      invariant escape.Valid() && escape.typed == Joined(chunks[..n]) && sent == Kept(escape.typed)
    {
      assert chunks[..n + 1][..n] == chunks[..n];
      var kept, over := escape.Filter(chunks[n]);
      sent := sent + kept;
      if over {
        JoinedSplit(chunks, n + 1);
        ghost var rest :| Joined(chunks) == escape.typed + rest;
        ghost var i: nat :| FirstEscape(escape.typed, i) && sent == escape.typed[..i];
        FirstStays(escape.typed, rest, i);
        assert sent == Joined(chunks)[..i];
        return sent, true, false;
      }
    }
    assert chunks[..|chunks|] == chunks;
    return sent, false, escape.armed;
  }
}
