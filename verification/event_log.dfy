/**
 The log of a running task: a worker spools what the task prints, sends it in
 chunks that name their offset, and the server appends a chunk only where its
 file ends. Requests may be lost, duplicated, delayed and reordered, replies
 may be lost, and an append may be torn. Characters stand for bytes.
 */
module EventLog {
  import opened Numbers
  import opened Chunks

  type Bytes = string

  const SPOOL_CAP: nat := 268_435_456
  const CHUNK: nat := 1_048_576

  function Digits(n: nat): Bytes {
    if n < 10 then ["0123456789"[n]] else Digits(n / 10) + ["0123456789"[n % 10]]
  }

  function Marker(dropped: nat): Bytes {
    "\n[worker] dropped " + Digits(dropped) + " bytes locally\n"
  }

  /** `data` is the spool file, whose first byte has offset `base` in the stream. */
  datatype Spool = Spool(base: nat, data: Bytes, sent: int, dropped: nat, stopped: bool)
  {
    function Size(): nat { base + |data| }
  }

  function WriteTo(sp: Spool, d: Bytes): Spool {
    if sp.stopped then sp
    else if sp.Size() - sp.sent > SPOOL_CAP then sp.(dropped := sp.dropped + |d|)
    else sp.(data := sp.data + (if sp.dropped > 0 then Marker(sp.dropped) else "") + d, dropped := 0)
  }

  function ReadAt(sp: Spool, offset: int, n: nat): Bytes {
    var from := Min(Max(offset - sp.base, 0), |sp.data|);
    sp.data[from..Min(from + n, |sp.data|)]
  }

  datatype Reply = Reply(offset: int, accepting: bool)

  /** The server's side of one append, when nothing interrupts it. */
  function Append(file: Bytes, cap: nat, offset: int, data: Bytes): (Bytes, Reply) {
    if |file| >= cap then (file, Reply(|file|, false))
    else if offset != |file| then (file, Reply(|file|, true))
    else (file + data, Reply(|file| + |data|, |file| + |data| < cap))
  }

  /** One transmission; each retry of the same chunk has a number of its own. */
  datatype Request = Request(number: nat, offset: int, data: Bytes)

  datatype Sender = Idle | Waiting(number: nat) | Returned(whole: Bytes) | Aborted

  /** `start` is what the file held at lease time. `net` never forgets a request
      and `replies` never forgets a reply: both may turn up at any time, again. */
  datatype World = World(
    cap: nat,
    start: Bytes,
    file: Bytes,
    spool: Spool,
    sender: Sender,
    net: set<Request>,
    replies: set<(nat, Reply)>,
    next: nat,
    finished: bool)

  datatype Act =
    | Print(d: Bytes)
    | Finish
    | Poll
    | Resend(r: Request)
    | Deliver(r: Request)
    | Tear(r: Request, k: nat)
    | Answer(reply: Reply)
    | Abort

  /** Everything the file should ever hold. */
  function Stream(w: World): Bytes {
    w.start + w.spool.data
  }

  function Leased(cap: nat, start: Bytes): World {
    World(cap, start, start, Spool(|start|, "", |start|, 0, false), Idle, {}, {}, 0, false)
  }

  function Post(w: World, offset: int, data: Bytes): World {
    w.(net := w.net + {Request(w.next, offset, data)}, sender := Waiting(w.next), next := w.next + 1)
  }

  datatype Move = Rest | Leave | Skip | Send(data: Bytes)

  /** The front of what is unsent: all of it, or as much as one request takes. */
  predicate NextPiece(data: Bytes, unsent: Bytes) {
    IsPrefix(data, unsent) && (data == unsent || |data| == CHUNK)
  }

  /** The sender's loop between two requests. */
  function NextMove(sp: Spool, finished: bool): (m: Move)
    ensures m.Leave? <==> finished && sp.sent >= sp.Size()
    ensures m.Rest? <==> !m.Leave? && (sp.stopped || sp.sent >= sp.Size())
    ensures m.Send? ==> !sp.stopped && sp.sent < sp.Size() && m.data != ""
    ensures sp.base <= sp.sent < sp.Size() && !sp.stopped ==> m.Send? && NextPiece(m.data, sp.data[sp.sent - sp.base..])
  {
    if sp.stopped || sp.sent >= sp.Size() then
      if finished && sp.sent >= sp.Size() then Leave else Rest
    else
      var data := ReadAt(sp, sp.sent, CHUNK);
      if data == "" then Skip else Send(data)
  }

  function PollOnce(w: World): World {
    match NextMove(w.spool, w.finished)
    case Rest => w
    case Leave => w.(sender := Returned(Stream(w)))
    case Skip => w.(spool := w.spool.(sent := w.spool.Size()))
    case Send(data) => Post(w, w.spool.sent, data)
  }

  function Acknowledged(sp: Spool, r: Reply): Spool {
    sp.(sent := r.offset, stopped := sp.stopped || !r.accepting)
  }

  /** What the sender makes of the reply to its current request. */
  function Answered(w: World, r: Reply): World {
    w.(spool := Acknowledged(w.spool, r), sender := if r.accepting then Idle else Returned(Stream(w)))
  }

  ghost predicate Enabled(w: World, a: Act) {
    match a
    case Print(_) => true
    case Finish => true
    case Poll => w.sender.Idle?
    case Resend(r) => w.sender.Waiting? && r in w.net && r.number == w.sender.number
    case Deliver(r) => r in w.net
    case Tear(r, k) => r in w.net && |w.file| < w.cap && r.offset == |w.file| && k <= |r.data|
    case Answer(reply) => w.sender.Waiting? && (w.sender.number, reply) in w.replies
    case Abort => w.sender.Waiting?
  }

  ghost function Step(w: World, a: Act): World
    requires Enabled(w, a)
  {
    match a
    case Print(d) => w.(spool := WriteTo(w.spool, d))
    case Finish => w.(finished := true)
    case Poll => PollOnce(w)
    case Resend(r) => Post(w, r.offset, r.data)
    case Deliver(r) =>
      var (file, reply) := Append(w.file, w.cap, r.offset, r.data);
      w.(file := file, replies := w.replies + {(r.number, reply)})
    case Tear(r, k) => w.(file := w.file + r.data[..k])
    case Answer(reply) => Answered(w, reply)
    case Abort => w.(sender := Aborted)
  }

  // The invariant.

  predicate IsPrefix(a: Bytes, b: Bytes) {
    |a| <= |b| && b[..|a|] == a
  }

  /** A request is a non-empty slice of the stream at the offset it states. */
  predicate SliceOf(r: Request, s: Bytes) {
    0 <= r.offset && r.offset + |r.data| <= |s| && s[r.offset..r.offset + |r.data|] == r.data
    && 0 < |r.data| <= CHUNK
  }

  ghost predicate FileInv(w: World) {
    && |w.start| == w.spool.base
    && IsPrefix(w.file, Stream(w))
    && w.spool.base <= w.spool.sent <= |w.file|
    && |w.file| < w.cap + CHUNK
  }

  ghost predicate NetInv(w: World) {
    && (forall r :: r in w.net ==> SliceOf(r, Stream(w)) && r.offset <= |w.file| && r.number < w.next)
    && (forall r, q :: r in w.net && q in w.net && r.number == q.number ==> r == q)
    && (w.sender.Waiting? ==>
          (w.sender.number < w.next
           && forall r :: r in w.net && r.number == w.sender.number ==> r.offset == w.spool.sent))
  }

  ghost predicate ReplyInv(w: World) {
    && (forall p :: p in w.replies ==>
          p.0 < w.next && p.1.offset <= |w.file| && (!p.1.accepting ==> p.1.offset >= w.cap))
    && (forall p, r :: p in w.replies && r in w.net && r.number == p.0 ==> r.offset <= p.1.offset)
    && (forall p :: p in w.replies ==> exists r :: r in w.net && r.number == p.0)
  }

  /** Unless the cap stopped it, a sender that has returned left the file equal
      to the stream, and nothing in the network can change that. */
  ghost predicate ReturnInv(w: World) {
    w.sender.Returned? ==>
      && IsPrefix(w.sender.whole, Stream(w))
      && (w.spool.stopped ==> |w.file| >= w.cap)
      && (!w.spool.stopped ==>
            w.file == w.sender.whole && forall r :: r in w.net ==> r.offset + |r.data| <= |w.sender.whole|)
  }

  ghost predicate Inv(w: World) {
    FileInv(w) && NetInv(w) && ReplyInv(w) && ReturnInv(w)
    && (w.spool.stopped ==> w.sender.Returned? || w.sender.Aborted?)
  }

  lemma LeasedInv(cap: nat, start: Bytes)
    requires |start| < cap + CHUNK
    ensures Inv(Leased(cap, start))
  {
  }

  lemma PrintInv(w: World, d: Bytes)
    requires Inv(w)
    ensures Inv(Step(w, Print(d)))
  {
    var w' := Step(w, Print(d));
    assert IsPrefix(Stream(w), Stream(w'));
    forall r | r in w.net ensures SliceOf(r, Stream(w')) { assert SliceOf(r, Stream(w)); }
  }

  lemma PostInv(w: World, offset: int, data: Bytes)
    requires FileInv(w) && NetInv(w) && ReplyInv(w) && !w.spool.stopped
    requires SliceOf(Request(w.next, offset, data), Stream(w)) && offset == w.spool.sent
    ensures Inv(Post(w, offset, data))
  {
    var w' := Post(w, offset, data);
    forall p | p in w'.replies ensures exists r :: r in w'.net && r.number == p.0 {
      var r :| r in w.net && r.number == p.0;
      assert r in w'.net;
    }
  }

  lemma PollInv(w: World)
    requires Inv(w) && w.sender.Idle?
    ensures Inv(PollOnce(w))
  {
    var sp := w.spool;
    if sp.sent < sp.Size() {
      var data := ReadAt(sp, sp.sent, CHUNK);
      assert 0 < |data|;
      assert Stream(w)[sp.sent..sp.sent + |data|] == data;
      PostInv(w, sp.sent, data);
    }
  }

  lemma ResendInv(w: World, r: Request)
    requires Inv(w) && Enabled(w, Resend(r))
    ensures Inv(Step(w, Resend(r)))
  {
    PostInv(w, r.offset, r.data);
  }

  /** Whatever lands at the end of the file is the stream's next piece. */
  lemma GrowInv(w: World, r: Request, k: nat)
    requires Inv(w) && r in w.net && r.offset == |w.file| && |w.file| < w.cap && k <= |r.data|
    ensures Inv(w.(file := w.file + r.data[..k]))
  {
    var s := Stream(w);
    assert s[..|w.file| + k] == s[..|w.file|] + s[|w.file|..|w.file| + |r.data|][..k];
  }

  lemma DeliverInv(w: World, r: Request)
    requires Inv(w) && r in w.net
    ensures Inv(Step(w, Deliver(r)))
  {
    if |w.file| < w.cap && r.offset == |w.file| {
      GrowInv(w, r, |r.data|);
      assert r.data[..|r.data|] == r.data;
    }
  }

  lemma AnswerInv(w: World, reply: Reply)
    requires Inv(w) && Enabled(w, Answer(reply))
    ensures Inv(Answered(w, reply))
    ensures w.spool.sent <= reply.offset
  {
    var p := (w.sender.number, reply);
    assert p in w.replies;
    var r :| r in w.net && r.number == p.0;
    assert r.offset == w.spool.sent;
  }

  lemma StepKeepsInv(w: World, a: Act)
    requires Inv(w) && Enabled(w, a)
    ensures Inv(Step(w, a))
  {
    match a
    case Print(d) => PrintInv(w, d);
    case Finish =>
    case Poll => PollInv(w);
    case Resend(r) => ResendInv(w, r);
    case Deliver(r) => DeliverInv(w, r);
    case Tear(r, k) => GrowInv(w, r, k);
    case Answer(reply) => AnswerInv(w, reply);
    case Abort =>
  }

  // Whole runs.

  ghost predicate StepAt(tr: seq<World>, acts: seq<Act>, i: nat)
    requires i < |acts| && |tr| == |acts| + 1
  {
    Enabled(tr[i], acts[i]) && tr[i + 1] == Step(tr[i], acts[i])
  }

  ghost predicate Run(tr: seq<World>, acts: seq<Act>) {
    && |tr| == |acts| + 1
    && |tr[0].start| < tr[0].cap + CHUNK && tr[0] == Leased(tr[0].cap, tr[0].start)
    && forall i: nat :: i < |acts| ==> StepAt(tr, acts, i)
  }

  /** Whatever the network and crashes do, the server's file is a prefix of the
      worker's stream, at least as long as the worker believes, and it never
      grows a whole chunk past its cap. */
  lemma {:induction false} FileIsAPrefix(tr: seq<World>, acts: seq<Act>, n: nat)
    requires Run(tr, acts) && n <= |acts|
    ensures Inv(tr[n])
    ensures IsPrefix(tr[n].file, Stream(tr[n]))
    ensures tr[n].spool.sent <= |tr[n].file| <= tr[n].spool.Size()
    ensures |tr[n].file| < tr[0].cap + CHUNK
  {
    if n == 0 {
      LeasedInv(tr[0].cap, tr[0].start);
    } else {
      FileIsAPrefix(tr, acts, n - 1);
      assert StepAt(tr, acts, n - 1);
      StepKeepsInv(tr[n - 1], acts[n - 1]);
      CapIsFixed(tr, acts, n);
    }
  }

  lemma {:induction false} CapIsFixed(tr: seq<World>, acts: seq<Act>, n: nat)
    requires Run(tr, acts) && n <= |acts|
    ensures tr[n].cap == tr[0].cap
  {
    if n > 0 {
      CapIsFixed(tr, acts, n - 1);
      assert StepAt(tr, acts, n - 1);
    }
  }

  lemma StepOnlyExtends(w: World, a: Act)
    requires Inv(w) && Enabled(w, a)
    ensures IsPrefix(w.file, Step(w, a).file) && IsPrefix(Stream(w), Stream(Step(w, a)))
    ensures w.spool.sent <= Step(w, a).spool.sent
    ensures w.sender.Returned? ==> Step(w, a).sender == w.sender && Step(w, a).spool.stopped == w.spool.stopped
  {
    if a.Answer? { AnswerInv(w, a.reply); }
  }

  /** Neither the file nor the stream is ever rewritten, and the worker's idea
      of what was received only moves forward. */
  lemma {:induction false} OnlyExtends(tr: seq<World>, acts: seq<Act>, i: nat, j: nat)
    requires Run(tr, acts) && i <= j <= |acts|
    ensures IsPrefix(tr[i].file, tr[j].file) && IsPrefix(Stream(tr[i]), Stream(tr[j]))
    ensures tr[i].spool.sent <= tr[j].spool.sent
    ensures tr[i].sender.Returned? ==> tr[j].sender == tr[i].sender && tr[j].spool.stopped == tr[i].spool.stopped
  {
    if i < j {
      OnlyExtends(tr, acts, i, j - 1);
      FileIsAPrefix(tr, acts, j - 1);
      assert StepAt(tr, acts, j - 1);
      StepOnlyExtends(tr[j - 1], acts[j - 1]);
    }
  }

  /** When the sender returns and the cap did not stop it, the file equals the
      whole stream of that moment, and it stays so: no duplicate or straggler
      still in the network can append to it. A completion is only reported
      after the sender has returned. */
  lemma ReturnedMeansWhole(tr: seq<World>, acts: seq<Act>, i: nat, j: nat)
    requires Run(tr, acts) && i < j <= |acts|
    requires acts[i].Poll? && tr[i + 1].sender.Returned?
    ensures tr[j].file == Stream(tr[i])
  {
    assert StepAt(tr, acts, i);
    FileIsAPrefix(tr, acts, i);
    FileIsAPrefix(tr, acts, j);
    OnlyExtends(tr, acts, i + 1, j);
  }

  /** A sender stopped by the server leaves a file that has reached the cap. */
  lemma StoppedMeansCapped(tr: seq<World>, acts: seq<Act>, n: nat)
    requires Run(tr, acts) && n <= |acts| && tr[n].sender.Returned? && tr[n].spool.stopped
    ensures tr[n].cap <= |tr[n].file|
  {
    FileIsAPrefix(tr, acts, n);
  }

  // What is printed arrives.

  /** A chunk delivered where an uncapped file ends is stored behind it, whole;
      any other changes nothing. The reply always says where the file ends now
      and whether it may grow further. */
  lemma DeliveryStores(tr: seq<World>, acts: seq<Act>, n: nat)
    requires Run(tr, acts) && n < |acts| && acts[n].Deliver?
    ensures var (w, w', r) := (tr[n], tr[n + 1], acts[n].r);
            && w'.file == (if r.offset == |w.file| && |w.file| < w.cap then w.file + r.data else w.file)
            && w'.replies == w.replies + {(r.number, Reply(|w'.file|, |w'.file| < w.cap))}
            && w' == w.(file := w'.file, replies := w'.replies)
  {
    assert StepAt(tr, acts, n);
  }

  /** A reply moves the sender to where the file ended, and a refusal ends it. */
  lemma AnswerMoves(tr: seq<World>, acts: seq<Act>, n: nat)
    requires Run(tr, acts) && n < |acts| && acts[n].Answer?
    ensures var (w', r) := (tr[n + 1], acts[n].reply);
            && w'.spool.sent == r.offset
            && (r.accepting ==> w'.sender.Idle? && !w'.spool.stopped)
            && (!r.accepting ==> w'.sender.Returned? && w'.spool.stopped)
  {
    assert StepAt(tr, acts, n);
    FileIsAPrefix(tr, acts, n);
  }

  /** These actions, each possible in its turn, lead from one world to another. */
  ghost predicate Leads(w: World, acts: seq<Act>, end: World)
    decreases |acts|
  {
    if acts == [] then end == w else Enabled(w, acts[0]) && Leads(Step(w, acts[0]), acts[1..], end)
  }

  lemma {:induction false} LeadsOn(w: World, acts: seq<Act>, mid: World, more: seq<Act>, end: World)
    requires Leads(w, acts, mid) && Leads(mid, more, end)
    ensures Leads(w, acts + more, end)
    decreases |acts|
  {
    if acts == [] {
      assert acts + more == more;
    } else {
      LeadsOn(Step(w, acts[0]), acts[1..], mid, more, end);
      assert (acts + more)[1..] == acts[1..] + more;
    }
  }

  /** Ready to send: the sender is between two requests and may go on. */
  ghost predicate Ready(w: World) {
    Inv(w) && w.sender.Idle? && !w.spool.stopped
  }

  /** The request that a sender with something unsent makes next. */
  function Upcoming(w: World): Request {
    Request(w.next, w.spool.sent, ReadAt(w.spool, w.spool.sent, CHUNK))
  }

  /** The world when that request has been delivered at once. */
  ghost function Landed(w: World): World
    requires Ready(w) && w.spool.sent < w.spool.Size()
  {
    Step(Step(w, Poll), Deliver(Upcoming(w)))
  }

  /** One request that nothing disturbs. */
  ghost function Round(w: World): World
    requires Ready(w) && w.spool.sent < w.spool.Size()
  {
    var file := Landed(w).file;
    Answered(Landed(w), Reply(|file|, |file| < w.cap))
  }

  lemma LeadsThree(w: World, a: Act, b: Act, c: Act)
    requires Enabled(w, a) && Enabled(Step(w, a), b) && Enabled(Step(Step(w, a), b), c)
    ensures Leads(w, [a, b, c], Step(Step(Step(w, a), b), c))
  {
    assert [a, b, c][1..] == [b, c] && [b, c][1..] == [c];
    assert Leads(Step(Step(w, a), b), [c], Step(Step(Step(w, a), b), c));
    assert Leads(Step(w, a), [b, c], Step(Step(Step(w, a), b), c));
  }

  lemma LandedInv(w: World)
    requires Ready(w) && w.spool.sent < w.spool.Size()
    ensures Inv(Landed(w)) && Landed(w).sender == Waiting(w.next) && Landed(w).cap == w.cap
    ensures (w.next, Reply(|Landed(w).file|, |Landed(w).file| < w.cap)) in Landed(w).replies
  {
    StepKeepsInv(w, Poll);
    StepKeepsInv(Step(w, Poll), Deliver(Upcoming(w)));
  }

  lemma RoundLeads(w: World)
    requires Ready(w) && w.spool.sent < w.spool.Size()
    ensures Inv(Round(w)) && exists acts :: Leads(w, acts, Round(w))
  {
    LandedInv(w);
    var answer := Answer(Reply(|Landed(w).file|, |Landed(w).file| < w.cap));
    AnswerInv(Landed(w), answer.reply);
    LeadsThree(w, Poll, Deliver(Upcoming(w)), answer);
    assert Leads(w, [Poll, Deliver(Upcoming(w)), answer], Round(w));
  }

  /** It brings the sender to where the file ends, and the file further if the
      sender was there already, or finds the file at its cap. */
  lemma RoundGains(w: World)
    requires Ready(w) && w.spool.sent < w.spool.Size()
    ensures var w' := Round(w);
            && w'.start == w.start && w'.spool.data == w.spool.data && w'.cap == w.cap && w'.finished == w.finished
            && w'.spool.sent == |w'.file| && IsPrefix(w.file, w'.file)
            && (w.spool.sent == |w.file| < w.cap ==> |w.file| < |w'.file|)
            && (if |w'.file| < w.cap then w'.sender.Idle? && !w'.spool.stopped
                else w'.sender.Returned? && w'.spool.stopped)
  {
  }

  /** The whole stream is stored and acknowledged, or the cap ended it. */
  ghost predicate SentAll(w: World, w': World) {
    && Stream(w') == Stream(w) && w'.finished == w.finished && w'.cap == w.cap
    && IsPrefix(w.file, w'.file) && IsPrefix(w'.file, Stream(w))
    && if w'.spool.stopped then w'.sender.Returned? && w.cap <= |w'.file|
       else w'.sender.Idle? && w'.file == Stream(w) && w'.spool.sent == w'.spool.Size()
  }

  ghost predicate CanSendAll(w: World) {
    exists acts, w' :: Leads(w, acts, w') && SentAll(w, w')
  }

  /** From wherever a sender has got to, whatever was lost, repeated or torn
      before, some steps store everything the task has printed. */
  lemma {:induction false} AllCanBeSent(w: World)
    requires Ready(w)
    ensures CanSendAll(w)
    decreases w.spool.Size() - w.spool.sent
  {
    if w.spool.sent == w.spool.Size() {
      assert Leads(w, [], w) && SentAll(w, w);
    } else {
      RoundLeads(w);
      RoundGains(w);
      var acts :| Leads(w, acts, Round(w));
      if Round(w).spool.stopped {
        assert SentAll(w, Round(w));
      } else {
        AllCanBeSent(Round(w));
        var more, end :| Leads(Round(w), more, end) && SentAll(Round(w), end);
        LeadsOn(w, acts, Round(w), more, end);
        assert SentAll(w, end);
      }
    }
  }

  /** So at any moment of any run a stream below the cap can be stored whole,
      and a sender whose task is over can return of its own accord. */
  lemma NothingGetsStuck(tr: seq<World>, acts: seq<Act>, n: nat)
    requires Run(tr, acts) && n <= |acts| && tr[n].sender.Idle? && |Stream(tr[n])| < tr[n].cap
    ensures exists more, end :: Leads(tr[n], more, end) && end.file == Stream(tr[n])
                                && (tr[n].finished ==> end.sender == Returned(Stream(tr[n])) && !end.spool.stopped)
  {
    var w := tr[n];
    FileIsAPrefix(tr, acts, n);
    AllCanBeSent(w);
    var more, end :| Leads(w, more, end) && SentAll(w, end);
    assert end.file == Stream(w);
    if w.finished {
      assert Leads(end, [Poll], Step(end, Poll));
      LeadsOn(w, more, end, [Poll], Step(end, Poll));
      assert Leads(w, more + [Poll], Step(end, Poll));
    }
  }

  // What the spool does with what the task prints.

  datatype Piece = Text(d: Bytes) | Gap(n: nat)

  datatype SpoolOp = Put(d: Bytes) | Progress(sent: int)

  function Rendered(ps: seq<Piece>): Bytes {
    if ps == [] then ""
    else Rendered(ps[..|ps| - 1]) + match ps[|ps| - 1] case Text(d) => d case Gap(n) => Marker(n)
  }

  function Spooled(sp: Spool, ops: seq<SpoolOp>): Spool {
    if ops == [] then sp
    else
      var before := Spooled(sp, ops[..|ops| - 1]);
      match ops[|ops| - 1]
      case Put(d) => WriteTo(before, d)
      case Progress(sent) => before.(sent := sent)
  }

  /** What the task printed, write by write. */
  function Payloads(ops: seq<SpoolOp>): seq<Bytes> {
    if ops == [] then []
    else Payloads(ops[..|ops| - 1]) + if ops[|ops| - 1].Put? then [ops[|ops| - 1].d] else []
  }

  function Total(writes: seq<Bytes>): nat {
    if writes == [] then 0 else Total(writes[..|writes| - 1]) + |writes[|writes| - 1]|
  }

  function Flat(groups: seq<seq<Bytes>>): seq<Bytes> {
    if groups == [] then [] else Flat(groups[..|groups| - 1]) + groups[|groups| - 1]
  }

  /** What a piece stands for: a text for one write, itself, perhaps after empty
      ones; a gap for a run of dropped writes with that many bytes. */
  predicate StandsFor(p: Piece, group: seq<Bytes>) {
    match p
    case Text(d) => group != [] && group[|group| - 1] == d && Total(group[..|group| - 1]) == 0
    case Gap(n) => n > 0 && Total(group) == n
  }

  /** The pieces stand for consecutive groups of the writes, and no gap is next
      to another or comes last: each is the whole of its run. */
  ghost predicate Accounts(ps: seq<Piece>, groups: seq<seq<Bytes>>) {
    && |groups| == |ps|
    && (forall i :: 0 <= i < |ps| ==> StandsFor(ps[i], groups[i]))
    && (forall i :: 0 <= i < |ps| && ps[i].Gap? ==> i + 1 < |ps| && ps[i + 1].Text?)
  }

  function Emptied(base: nat): Spool {
    Spool(base, "", base, 0, false)
  }

  /** The number that a run of digits stands for. */
  function Number(digits: Bytes): int {
    if digits == "" then 0
    else Number(digits[..|digits| - 1]) * 10 + digits[|digits| - 1] as int - '0' as int
  }

  lemma NumberAdds(digits: Bytes, k: nat)
    requires k < 10
    ensures Number(digits + ["0123456789"[k]]) == Number(digits) * 10 + k
  {
    var c := "0123456789"[k];
    assert (digits + [c])[..|digits|] == digits && c as int == '0' as int + k;
  }

  /** A marker states the count in decimal digits. */
  lemma {:induction false} DigitsTell(n: nat)
    ensures Number(Digits(n)) == n
    decreases n
  {
    if n < 10 {
      NumberAdds("", n);
      assert "" + ["0123456789"[n]] == Digits(n);
    } else {
      DigitsTell(n / 10);
      NumberAdds(Digits(n / 10), n % 10);
    }
  }

  /** Dropped output is never silent and kept output never altered: the spool is
      a run of pieces that stand, in order, for all the writes of the task but the
      last ones, and those are the bytes counted for the next marker. */
  lemma {:induction false} NothingVanishes(base: nat, ops: seq<SpoolOp>)
    returns (ps: seq<Piece>, groups: seq<seq<Bytes>>, rest: seq<Bytes>)
    ensures var sp := Spooled(Emptied(base), ops);
            && sp.data == Rendered(ps) && Accounts(ps, groups)
            && Flat(groups) + rest == Payloads(ops) && Total(rest) == sp.dropped
  {
    if ops == [] {
      ps, groups, rest := [], [], [];
    } else {
      var front := ops[..|ops| - 1];
      ps, groups, rest := NothingVanishes(base, front);
      NeverStopped(Emptied(base), front);
      match ops[|ops| - 1]
      case Progress(_) =>
      case Put(d) =>
        ghost var all := Flat(groups) + rest;
        ps, groups, rest := Written(Spooled(Emptied(base), front), ps, groups, rest, d);
        assert Flat(groups) + rest == all + [d];
    }
  }

  lemma TotalAdds(writes: seq<Bytes>, d: Bytes)
    ensures Total(writes + [d]) == Total(writes) + |d|
  {
    assert (writes + [d])[..|writes|] == writes;
  }

  lemma FlatAdds(groups: seq<seq<Bytes>>, g: seq<Bytes>)
    ensures Flat(groups + [g]) == Flat(groups) + g
  {
    assert (groups + [g])[..|groups|] == groups;
  }

  lemma RenderedAdds(ps: seq<Piece>, p: Piece)
    ensures Rendered(ps + [p]) == Rendered(ps) + match p case Text(d) => d case Gap(n) => Marker(n)
  {
    assert (ps + [p])[..|ps|] == ps;
  }

  /** One write: kept, after a gap if any was dropped before it, or dropped. */
  lemma Written(sp: Spool, ps: seq<Piece>, groups: seq<seq<Bytes>>, rest: seq<Bytes>, d: Bytes)
    returns (ps': seq<Piece>, groups': seq<seq<Bytes>>, rest': seq<Bytes>)
    requires !sp.stopped && sp.data == Rendered(ps) && Accounts(ps, groups) && Total(rest) == sp.dropped
    ensures WriteTo(sp, d).data == Rendered(ps') && Accounts(ps', groups')
    ensures Flat(groups') + rest' == Flat(groups) + rest + [d] && Total(rest') == WriteTo(sp, d).dropped
  {
    if sp.Size() - sp.sent > SPOOL_CAP {
      TotalAdds(rest, d);
      return ps, groups, rest + [d];
    } else if sp.dropped > 0 {
      ps', groups', rest' := Marked(sp, ps, groups, rest, d);
    } else {
      Plain(sp, d);
      ps', groups', rest' := Kept(sp, ps, groups, rest, d);
    }
  }

  lemma Plain(sp: Spool, d: Bytes)
    requires !sp.stopped && sp.dropped == 0 && sp.Size() - sp.sent <= SPOOL_CAP
    ensures WriteTo(sp, d).data == sp.data + d && WriteTo(sp, d).dropped == 0
  {
    assert sp.data + "" + d == sp.data + d;
  }

  lemma Kept(sp: Spool, ps: seq<Piece>, groups: seq<seq<Bytes>>, rest: seq<Bytes>, d: Bytes)
    returns (ps': seq<Piece>, groups': seq<seq<Bytes>>, rest': seq<Bytes>)
    requires Accounts(ps, groups) && Total(rest) == 0 && sp.data == Rendered(ps)
    ensures sp.data + d == Rendered(ps') && Accounts(ps', groups')
    ensures Flat(groups') + rest' == Flat(groups) + rest + [d] && rest' == []
  {
    RenderedAdds(ps, Text(d));
    FlatAdds(groups, rest + [d]);
    assert (rest + [d])[..|rest|] == rest;
    return ps + [Text(d)], groups + [rest + [d]], [];
  }

  lemma Marked(sp: Spool, ps: seq<Piece>, groups: seq<seq<Bytes>>, rest: seq<Bytes>, d: Bytes)
    returns (ps': seq<Piece>, groups': seq<seq<Bytes>>, rest': seq<Bytes>)
    requires Accounts(ps, groups) && Total(rest) == sp.dropped > 0 && sp.data == Rendered(ps)
    ensures sp.data + Marker(sp.dropped) + d == Rendered(ps') && Accounts(ps', groups')
    ensures Flat(groups') + rest' == Flat(groups) + rest + [d] && rest' == []
  {
    RenderedAdds(ps, Gap(sp.dropped));
    RenderedAdds(ps + [Gap(sp.dropped)], Text(d));
    FlatAdds(groups, rest);
    FlatAdds(groups + [rest], [d]);
    return ps + [Gap(sp.dropped)] + [Text(d)], groups + [rest] + [[d]], [];
  }

  /** And nothing is dropped while the backlog stays within the cap. */
  lemma {:induction false} AllKeptWithinTheCap(base: nat, ops: seq<SpoolOp>)
    requires forall i :: 0 <= i < |ops| && ops[i].Put? ==> Backlog(base, ops, i) <= SPOOL_CAP
    ensures var sp := Spooled(Emptied(base), ops);
            sp.dropped == 0 && sp.data == Joined(Payloads(ops))
  {
    if ops != [] {
      var front := ops[..|ops| - 1];
      forall i | 0 <= i < |front| && front[i].Put? ensures Backlog(base, front, i) <= SPOOL_CAP {
        assert front[..i] == ops[..i];
        assert Backlog(base, ops, i) <= SPOOL_CAP;
      }
      AllKeptWithinTheCap(base, front);
      NeverStopped(Emptied(base), front);
      var sp := Spooled(Emptied(base), front);
      if ops[|ops| - 1].Put? {
        assert Backlog(base, ops, |ops| - 1) <= SPOOL_CAP;
        var d := ops[|ops| - 1].d;
        Plain(sp, d);
      } else {
        assert Payloads(ops) == Payloads(front);
      }
    }
  }

  /** A write is counted as dropped exactly when the backlog is past the cap. */
  lemma DroppedIff(base: nat, ops: seq<SpoolOp>, d: Bytes)
    requires d != ""
    ensures var (sp, sp') := (Spooled(Emptied(base), ops), Spooled(Emptied(base), ops + [Put(d)]));
            if Backlog(base, ops, |ops|) > SPOOL_CAP then sp'.data == sp.data && sp'.dropped == sp.dropped + |d|
            else |sp'.data| >= |sp.data| + |d| && sp'.dropped == 0
  {
    assert (ops + [Put(d)])[..|ops|] == ops && ops[..|ops|] == ops;
    NeverStopped(Emptied(base), ops);
  }

  /** How many spooled bytes are not acknowledged when a write comes. */
  function Backlog(base: nat, ops: seq<SpoolOp>, i: nat): int
    requires i <= |ops|
  {
    var sp := Spooled(Emptied(base), ops[..i]);
    sp.Size() - sp.sent
  }

  lemma {:induction false} NeverStopped(sp: Spool, ops: seq<SpoolOp>)
    requires !sp.stopped
    ensures !Spooled(sp, ops).stopped
  {
    if ops != [] { NeverStopped(sp, ops[..|ops| - 1]); }
  }

  // What a task printed against what its log holds.

  /** The writes and acknowledgements among the actions of a run. */
  function SpoolOps(acts: seq<Act>): seq<SpoolOp> {
    if acts == [] then []
    else
      SpoolOps(acts[..|acts| - 1]) +
      match acts[|acts| - 1]
      case Print(d) => [Put(d)]
      case Answer(reply) => [Progress(reply.offset)]
      case _ => []
  }

  /** What the task printed in a run, write by write. */
  function Printed(acts: seq<Act>): seq<Bytes> {
    if acts == [] then []
    else Printed(acts[..|acts| - 1]) + if acts[|acts| - 1].Print? then [acts[|acts| - 1].d] else []
  }

  lemma {:induction false} PrintedArePayloads(acts: seq<Act>)
    ensures Payloads(SpoolOps(acts)) == Printed(acts)
  {
    if acts != [] {
      var front, ops := acts[..|acts| - 1], SpoolOps(acts[..|acts| - 1]);
      PrintedArePayloads(front);
      if acts[|acts| - 1].Print? {
        assert (ops + [Put(acts[|acts| - 1].d)])[..|ops|] == ops;
      } else if acts[|acts| - 1].Answer? {
        assert (ops + [Progress(acts[|acts| - 1].reply.offset)])[..|ops|] == ops;
      } else {
        assert ops + [] == ops;
      }
    }
  }

  lemma SpoolStep(w: World, a: Act, ops: seq<SpoolOp>)
    requires Inv(w) && Enabled(w, a) && !Step(w, a).spool.stopped
    ensures !w.spool.stopped
    ensures w.spool == Spooled(Emptied(w.spool.base), ops) ==>
              Step(w, a).spool == Spooled(Emptied(w.spool.base), ops + match a
                                                                       case Print(d) => [Put(d)]
                                                                       case Answer(reply) => [Progress(reply.offset)]
                                                                       case _ => [])
    ensures Step(w, a).spool.base == w.spool.base
  {
    match a
    case Print(d) => assert (ops + [Put(d)])[..|ops|] == ops;
    case Answer(reply) => assert (ops + [Progress(reply.offset)])[..|ops|] == ops;
    case Poll => assert w.spool.sent < w.spool.Size() ==> PollOnce(w).spool == w.spool;
      assert ops + [] == ops;
    case _ => assert ops + [] == ops;
  }

  /** The spool of a run is what the task's writes made of it. */
  lemma {:induction false} SpoolOfRun(tr: seq<World>, acts: seq<Act>, n: nat)
    requires Run(tr, acts) && n <= |acts| && !tr[n].spool.stopped
    ensures tr[n].start == tr[0].start && tr[n].spool.base == |tr[0].start|
    ensures tr[n].spool == Spooled(Emptied(|tr[0].start|), SpoolOps(acts[..n]))
  {
    if n > 0 {
      FileIsAPrefix(tr, acts, n - 1);
      assert StepAt(tr, acts, n - 1) && acts[..n][..n - 1] == acts[..n - 1];
      SpoolStep(tr[n - 1], acts[n - 1], SpoolOps(acts[..n - 1]));
      SpoolOfRun(tr, acts, n - 1);
    }
  }

  /** From the task's writes to the server's file: when a sender has returned and
      the cap did not stop it, the file is for good what it held at the lease and
      then, in order, every write of the task, unaltered or in a run of dropped
      ones whose size a marker states; only the last run lacks its marker. */
  lemma LogTellsAll(tr: seq<World>, acts: seq<Act>, i: nat, j: nat)
    returns (ps: seq<Piece>, groups: seq<seq<Bytes>>, rest: seq<Bytes>)
    requires Run(tr, acts) && i < j <= |acts|
    requires acts[i].Poll? && tr[i + 1].sender.Returned?
    ensures tr[j].file == tr[0].start + Rendered(ps) && Accounts(ps, groups)
    ensures Flat(groups) + rest == Printed(acts[..i]) && Total(rest) == tr[i].spool.dropped
  {
    ReturnedMeansWhole(tr, acts, i, j);
    FileIsAPrefix(tr, acts, i);
    assert StepAt(tr, acts, i);
    SpoolOfRun(tr, acts, i);
    ps, groups, rest := NothingVanishes(|tr[0].start|, SpoolOps(acts[..i]));
    PrintedArePayloads(acts[..i]);
  }

  // The two programs, as they change their fields.

  class SpoolFile {
    const base: nat
    var data: Bytes
    var sent: int
    var dropped: nat
    var stopped: bool

    function Abs(): Spool
      reads this
    {
      Spool(base, data, sent, dropped, stopped)
    }

    constructor (base: nat)
      ensures Abs() == Spool(base, "", base, 0, false)
    {
      this.base := base;
      data, sent, dropped, stopped := "", base, 0, false;
    }

    /** Keeps what the task printed, or counts it while the backlog is too long. */
    method Write(d: Bytes)
      modifies this
      ensures Abs() == WriteTo(old(Abs()), d)
    {
      if stopped { return; }
      if base + |data| - sent > SPOOL_CAP {
        dropped := dropped + |d|;
        return;
      }
      if dropped > 0 {
        data := data + Marker(dropped);
        dropped := 0;
      }
      data := data + d;
    }

    /** The sender's loop up to its next request, its nap or its end. */
    method Next(finished: bool) returns (m: Move)
      modifies this`sent
      ensures m == NextMove(old(Abs()), finished)
      ensures Abs() == if m.Skip? then old(Abs()).(sent := old(Abs()).Size()) else old(Abs())
    {
      var size := base + |data|;
      if stopped || sent >= size {
        return if finished && sent >= size then Leave else Rest;
      }
      var chunk := ReadAt(Abs(), sent, CHUNK);
      if chunk == "" {
        sent := size;
        return Skip;
      }
      return Send(chunk);
    }

    /** The reply to the current request; true when the sender must return. */
    method Acknowledge(r: Reply) returns (over: bool)
      modifies this
      ensures Abs() == Acknowledged(old(Abs()), r)
      ensures over <==> !r.accepting
    {
      sent := r.offset;
      if !r.accepting { stopped := true; }
      return !r.accepting;
    }
  }

  class EventFile {
    const cap: nat
    var file: Bytes

    constructor (cap: nat, file: Bytes)
      ensures this.cap == cap && this.file == file
    {
      this.cap, this.file := cap, file;
    }

    /** One append request, under the file's lock. */
    method Accept(offset: int, data: Bytes) returns (reply: Reply)
      modifies this`file
      ensures (file, reply) == Append(old(file), cap, offset, data)
      ensures file == if offset == |old(file)| && |old(file)| < cap then old(file) + data else old(file)
      ensures reply == Reply(|file|, |file| < cap)
    {
      var size := |file|;
      if size >= cap { return Reply(size, false); }
      if offset != size { return Reply(size, true); }
      if data != "" {
        file := file + data;
        size := |file|;
      } else {
        assert file == old(file) + data;
      }
      return Reply(size, size < cap);
    }
  }
}
