/**
 One direction of a live shell: a bounded window over an unbounded log, one
 writer that retries over a network that loses, repeats and delays, and one
 reader that polls by offset. Characters stand for bytes.
 */
module ShellChannel {
  import opened Options
  import opened Numbers

  type Bytes = string

  /** The server's window. The ghost log is everything ever appended. */
  class Stream {
    const cap: nat
    var buf: Bytes
    var base: nat
    ghost var log: Bytes

    ghost predicate Valid()
      reads this
    {
      |buf| <= cap && base + |buf| == |log| && buf == log[base..]
    }

    constructor (cap: nat)
      ensures Valid() && this.cap == cap && log == "" && base == 0
    {
      this.cap := cap;
      buf, base, log := "", 0, "";
    }

    function Size(): nat
      reads this
    {
      base + |buf|
    }

    /** The oldest bytes leave the window when it overflows, and no others. */
    method Append(data: Bytes)
      requires Valid()
      modifies this
      ensures Valid() && log == old(log) + data
      ensures base == Max(old(base), |log| - cap)
    {
      buf := buf + data;
      log := log + data;
      assert buf == log[base..];
      if |buf| > cap {
        var over := |buf| - cap;
        buf := buf[over..];
        base := base + over;
      }
    }

    /** Serves the log from the offset asked for, or from the nearest byte that
        is still, or already, there. */
    method Read(offset: int) returns (start: nat, data: Bytes)
      requires Valid()
      ensures start == Min(Max(offset, base), |log|)
      ensures data == log[start..]
    {
      start := Min(Max(offset, base), Size());
      data := buf[start - base..];
    }

    /** Appends only at the end; either way the answer is where the end is. */
    method Advance(offset: int, data: Bytes) returns (size: nat)
      requires Valid()
      modifies this
      ensures Valid()
      ensures (log, size) == Advanced(old(log), offset, data)
      ensures base == Max(old(base), |log| - cap)
    {
      if offset == Size() { Append(data); }
      size := Size();
    }
  }

  function Advanced(log: Bytes, offset: int, data: Bytes): (Bytes, nat) {
    if offset == |log| then (log + data, |log| + |data|) else (log, |log|)
  }

  // The writer, the network and the reader.

  datatype Request = Request(number: nat, offset: nat, data: Bytes)

  /** `handed` is the log as the writer found it and every byte given to it
      since, `out` every byte the reader has passed on. */
  datatype World = World(
    cap: nat,
    log: Bytes,
    base: nat,
    handed: Bytes,
    sent: nat,
    pending: Bytes,
    waiting: Option<nat>,
    gone: bool,
    net: set<Request>,
    replies: set<(nat, nat)>,
    next: nat,
    read: nat,
    out: Bytes)

  datatype Act =
    | Hand(data: Bytes)
    | Push
    | Resend
    | Deliver(r: Request)
    | Answer(moved: nat)
    | Poll

  /** A writer starts at the end of what the channel has seen, a reader at 0. */
  function Opened(cap: nat, before: Bytes): World {
    World(cap, before, Max(0, |before| - cap), before, |before|, "", None, false, {}, {}, 0, 0, "")
  }

  function Post(w: World): World {
    w.(net := w.net + {Request(w.next, w.sent, w.pending)}, waiting := Some(w.next), next := w.next + 1)
  }

  /** What the writer makes of an answer: its channel is gone unless it moved. */
  function Answered(w: World, moved: nat): World {
    if moved <= w.sent then w.(gone := true, waiting := None)
    else w.(pending := w.pending[Min(moved - w.sent, |w.pending|)..], sent := moved, waiting := None)
  }

  function Polled(w: World): World {
    var start := Min(Max(w.read, w.base), |w.log|);
    w.(out := w.out + w.log[start..], read := |w.log|)
  }

  ghost predicate Enabled(w: World, a: Act) {
    match a
    case Hand(_) => w.waiting.None?
    case Push => w.waiting.None? && w.pending != "" && !w.gone
    case Resend => w.waiting.Some?
    case Deliver(r) => r in w.net
    case Answer(moved) => w.waiting.Some? && (w.waiting.value, moved) in w.replies
    case Poll => w.base <= |w.log|
  }

  ghost function Step(w: World, a: Act): World
    requires Enabled(w, a)
  {
    match a
    case Hand(data) => w.(handed := w.handed + data, pending := w.pending + data)
    case Push => Post(w)
    case Resend => Post(w)
    case Deliver(r) =>
      var (log, size) := Advanced(w.log, r.offset, r.data);
      w.(log := log, base := Max(w.base, |log| - w.cap), replies := w.replies + {(r.number, size)})
    case Answer(moved) => Answered(w, moved)
    case Poll => Polled(w)
  }

  // The invariant.

  predicate IsPrefix(a: Bytes, b: Bytes) {
    |a| <= |b| && b[..|a|] == a
  }

  predicate SliceOf(r: Request, s: Bytes) {
    r.offset + |r.data| <= |s| && s[r.offset..r.offset + |r.data|] == r.data && r.data != ""
  }

  /** The log is a prefix of what was handed in, and the writer still holds
      everything that it has no acknowledgement for. */
  ghost predicate LogInv(w: World) {
    && IsPrefix(w.log, w.handed) && w.sent <= |w.log|
    && w.pending == w.handed[w.sent..]
    && (w.waiting.None? ==> w.sent == |w.log|)
    && (w.waiting.Some? ==> w.pending != "" && (|w.log| == w.sent || |w.log| == |w.handed|))
    && w.base <= |w.log| && !w.gone
  }

  /** Requests are slices; only the current one can still fit the log's end. */
  ghost predicate NetInv(w: World) {
    && (forall r :: r in w.net ==> SliceOf(r, w.handed) && r.number < w.next)
    && (forall r :: r in w.net ==>
          r.offset < |w.log| || (w.waiting.Some? && r.offset == w.sent && r.data == w.pending))
    && (w.waiting.Some? ==> w.waiting.value < w.next
                            && forall r :: r in w.net && r.number == w.waiting.value ==>
                                            r.offset == w.sent && r.data == w.pending)
    && (forall p :: p in w.replies ==> p.0 < w.next && p.1 <= |w.log|)
    && (w.waiting.Some? ==> forall p :: p in w.replies && p.0 == w.waiting.value ==> p.1 == |w.handed|)
  }

  ghost predicate ReadInv(w: World) {
    w.read <= |w.log| && (w.out == w.log[..w.read] || |w.out| < w.read)
  }

  ghost predicate Inv(w: World) {
    LogInv(w) && NetInv(w) && ReadInv(w)
  }

  lemma HandInv(w: World, data: Bytes)
    requires Inv(w) && w.waiting.None?
    ensures Inv(Step(w, Hand(data)))
  {
    var all := w.handed + data;
    assert all[w.sent..] == w.handed[w.sent..] + data;
    forall r | r in w.net ensures SliceOf(r, all) {
      assert all[r.offset..r.offset + |r.data|] == w.handed[r.offset..r.offset + |r.data|];
    }
  }

  lemma PostInv(w: World)
    requires Inv(w) && w.pending != ""
    ensures Inv(Post(w))
  {
    assert w.handed[w.sent..w.sent + |w.pending|] == w.pending;
  }

  lemma DeliverLog(w: World, r: Request)
    requires LogInv(w) && SliceOf(r, w.handed)
    requires r.offset < |w.log| || (w.waiting.Some? && r.offset == w.sent && r.data == w.pending)
    ensures var (log, size) := Advanced(w.log, r.offset, r.data);
            LogInv(w.(log := log, base := Max(w.base, |log| - w.cap)))
    ensures var (log, size) := Advanced(w.log, r.offset, r.data);
            size == |log| && |w.log| <= |log| && log[..|w.log|] == w.log
    ensures w.waiting.Some? && r.offset == w.sent && r.data == w.pending ==>
              Advanced(w.log, r.offset, r.data).1 == |w.handed|
  {
    if r.offset == |w.log| {
      assert w.handed == w.handed[..w.sent] + w.handed[w.sent..];
    }
  }

  lemma DeliverInv(w: World, r: Request)
    requires Inv(w) && r in w.net
    ensures Inv(Step(w, Deliver(r)))
  {
    DeliverLog(w, r);
    var w' := Step(w, Deliver(r));
    assert w'.log[..w.read] == w.log[..w.read];
  }

  /** An answer to the current request acknowledges all of it. */
  lemma AnswerInv(w: World, moved: nat)
    requires Inv(w) && Enabled(w, Answer(moved))
    ensures Inv(Answered(w, moved))
    ensures moved == |w.handed| == |w.log| && Answered(w, moved).pending == "" && !Answered(w, moved).gone
  {
    var p := (w.waiting.value, moved);
    assert p in w.replies;
    assert w.pending == w.handed[w.sent..];
  }

  lemma PollInv(w: World)
    requires Inv(w)
    ensures Inv(Polled(w))
  {
    PollReads(w);
  }

  /** A poll in time keeps what was passed on exact; a late one, or a loss before
      it, leaves it short for good. */
  lemma PollReads(w: World)
    requires w.base <= |w.log| && ReadInv(w)
    ensures var r := Polled(w);
            if w.out == w.log[..w.read] && w.base <= w.read then r.out == r.log else |r.out| < |r.log|
  {
    assert w.log[..w.read] + w.log[w.read..] == w.log;
  }

  lemma StepKeepsInv(w: World, a: Act)
    requires Inv(w) && Enabled(w, a)
    ensures Inv(Step(w, a))
  {
    match a
    case Hand(data) => HandInv(w, data);
    case Push => PostInv(w);
    case Resend => PostInv(w);
    case Deliver(r) => DeliverInv(w, r);
    case Answer(moved) => AnswerInv(w, moved);
    case Poll => PollInv(w);
  }

  // Whole runs.

  ghost predicate StepAt(tr: seq<World>, acts: seq<Act>, i: nat)
    requires i < |acts| && |tr| == |acts| + 1
  {
    Enabled(tr[i], acts[i]) && tr[i + 1] == Step(tr[i], acts[i])
  }

  ghost predicate Run(tr: seq<World>, acts: seq<Act>) {
    && |tr| == |acts| + 1 && tr[0] == Opened(tr[0].cap, tr[0].log)
    && forall i: nat :: i < |acts| ==> StepAt(tr, acts, i)
  }

  lemma {:induction false} RunKeepsInv(tr: seq<World>, acts: seq<Act>, n: nat)
    requires Run(tr, acts) && n <= |acts|
    ensures Inv(tr[n])
  {
    if n > 0 {
      RunKeepsInv(tr, acts, n - 1);
      assert StepAt(tr, acts, n - 1);
      StepKeepsInv(tr[n - 1], acts[n - 1]);
    }
  }

  /** Whatever the network does, the log together with the part of `pending`
      that it does not hold yet is every byte handed in, in order; the writer
      never takes its channel for gone; and when it rests, the log is complete. */
  lemma NothingLostOnTheWay(tr: seq<World>, acts: seq<Act>, n: nat)
    requires Run(tr, acts) && n <= |acts|
    ensures var w := tr[n];
            && w.sent <= |w.log| <= w.sent + |w.pending|
            && w.log + w.pending[|w.log| - w.sent..] == w.handed
            && !w.gone
            && (w.waiting.None? ==> w.log + w.pending == w.handed)
  {
    RunKeepsInv(tr, acts, n);
    var w := tr[n];
    assert w.pending[|w.log| - w.sent..] == w.handed[|w.log|..];
    assert w.handed == w.handed[..|w.log|] + w.handed[|w.log|..];
  }

  /** The window always begins where its size says, and the reader is behind it
      exactly when it lags by more than that size. */
  lemma {:induction false} BehindMeansLagging(tr: seq<World>, acts: seq<Act>, n: nat)
    requires Run(tr, acts) && n <= |acts|
    ensures tr[n].base == Max(0, |tr[n].log| - tr[0].cap) && tr[n].cap == tr[0].cap
    ensures tr[n].read < tr[n].base <==> |tr[n].log| - tr[n].read > tr[0].cap
  {
    if n > 0 {
      BehindMeansLagging(tr, acts, n - 1);
      assert StepAt(tr, acts, n - 1);
    }
  }

  /** No poll so far found the reader behind by more than the window's size. */
  ghost predicate KeptUp(tr: seq<World>, acts: seq<Act>, n: nat)
    requires n <= |acts| && |tr| == |acts| + 1
  {
    forall i: nat :: i < n && acts[i].Poll? ==> |tr[i].log| - tr[i].read <= tr[0].cap
  }

  /** The reader has passed on the log exactly once and in order, up to where
      it has read, if and only if it never lagged by more than the cap when it
      polled. */
  lemma {:induction false} ReadsAllIffNeverBehind(tr: seq<World>, acts: seq<Act>, n: nat)
    requires Run(tr, acts) && n <= |acts|
    ensures tr[n].read <= |tr[n].log|
    ensures tr[n].out == tr[n].log[..tr[n].read] <==> KeptUp(tr, acts, n)
  {
    RunKeepsInv(tr, acts, n);
    if n > 0 {
      ReadsAllIffNeverBehind(tr, acts, n - 1);
      RunKeepsInv(tr, acts, n - 1);
      assert StepAt(tr, acts, n - 1);
      BehindMeansLagging(tr, acts, n - 1);
      var w := tr[n - 1];
      assert KeptUp(tr, acts, n) <==>
             KeptUp(tr, acts, n - 1) && (acts[n - 1].Poll? ==> |w.log| - w.read <= tr[0].cap);
      if acts[n - 1].Poll? {
        PollReads(w);
        assert tr[n].log[..tr[n].read] == tr[n].log;
      } else {
        PrefixKept(w, acts[n - 1]);
      }
    }
  }

  lemma PrefixKept(w: World, a: Act)
    requires Inv(w) && Enabled(w, a) && !a.Poll?
    ensures Step(w, a).out == w.out && Step(w, a).read == w.read
    ensures w.read <= |w.log| <= |Step(w, a).log| && Step(w, a).log[..w.read] == w.log[..w.read]
  {
    if a.Deliver? { DeliverLog(w, a.r); }
  }

  // The writer as it runs.

  class Writer {
    var sent: nat
    var pending: Bytes

    constructor (sent: nat)
      ensures this.sent == sent && pending == ""
    {
      this.sent, pending := sent, "";
    }

    /** Pushes until nothing is pending, given the answers as they come; stops
        early when an answer shows that the channel was reset. */
    method Push(answers: seq<nat>) returns (used: nat, gone: bool)
      modifies this
      ensures used <= |answers|
      ensures (sent, pending, gone) == Pushed(old(sent), old(pending), answers[..used])
      ensures gone || pending == "" || used == |answers|
    {
      used, gone := 0, false;
      while pending != "" && used < |answers|
        invariant used <= |answers| && !gone
        invariant (sent, pending, gone) == Pushed(old(sent), old(pending), answers[..used])
      {
        var moved := answers[used];
        assert answers[..used + 1][..used] == answers[..used];
        used := used + 1;
        if moved <= sent { return used, true; }
        pending := pending[Min(moved - sent, |pending|)..];
        sent := moved;
      }
    }
  }

  /** The effect of a series of answers on what is sent and what is pending. */
  function Pushed(sent: nat, pending: Bytes, answers: seq<nat>): (nat, Bytes, bool) {
    if answers == [] then (sent, pending, false)
    else
      var (s, p, gone) := Pushed(sent, pending, answers[..|answers| - 1]);
      var moved := answers[|answers| - 1];
      if gone || moved <= s then (s, p, true)
      else (moved, p[Min(moved - s, |p|)..], false)
  }

  /** Every answer moves on: past `sent`, and each past the one before. */
  ghost predicate Rising(sent: nat, answers: seq<nat>) {
    forall i: nat :: i < |answers| ==> MovesOn(sent, answers, i)
  }

  predicate MovesOn(sent: nat, answers: seq<nat>, i: nat)
    requires i < |answers|
  {
    answers[i] > if i == 0 then sent else answers[i - 1]
  }

  /** What was pending is dropped exactly as far as it is acknowledged, which is
      as far as the last answer says; and the channel is taken for reset exactly
      when an answer does not move on. */
  lemma {:induction false} PushKeepsTheRest(sent: nat, pending: Bytes, answers: seq<nat>)
    ensures var (s, p, gone) := Pushed(sent, pending, answers);
            && s >= sent && p == pending[Min(s - sent, |pending|)..]
            && (gone <==> !Rising(sent, answers))
            && (!gone ==> s == if answers == [] then sent else answers[|answers| - 1])
  {
    if answers != [] {
      var before, last := answers[..|answers| - 1], |answers| - 1;
      PushKeepsTheRest(sent, pending, before);
      assert forall i: nat :: i < last ==> MovesOn(sent, answers, i) == MovesOn(sent, before, i);
      assert Rising(sent, answers) <==> Rising(sent, before) && MovesOn(sent, answers, last);
    }
  }

  /** One answer does to the writer of the runs what it does in the push loop. */
  lemma AnswerPushes(tr: seq<World>, acts: seq<Act>, n: nat)
    requires Run(tr, acts) && n < |acts| && acts[n].Answer?
    ensures (tr[n + 1].sent, tr[n + 1].pending, tr[n + 1].gone)
            == Pushed(tr[n].sent, tr[n].pending, [acts[n].moved])
  {
    RunKeepsInv(tr, acts, n);
    assert StepAt(tr, acts, n);
    assert [acts[n].moved][..0] == [];
  }
}
