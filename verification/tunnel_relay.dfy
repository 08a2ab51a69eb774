/**
 The relay's end of a tunnel: many streams on one socket, each with a bounded
 queue. Every stretch of code between two awaits is one step. How the JSON of a
 frame reads is a parameter.
 */
module TunnelRelay {
  import opened Options
  import opened TunnelWire

  const QUEUE_SIZE: nat := 256

  datatype Note = Unreadable | Note(error: Option<string>)

  datatype Format = Format(head: Bytes -> bool, close: Bytes -> Note)

  datatype Reason = Behind | Away | Closed | Error(text: string)

  datatype Item = Piece(op: Op, payload: Bytes) | Broken(reason: Reason)

  datatype Heading = Awaited | Arrived(payload: Bytes) | Refused(reason: Reason)

  /** Where the reader stands: still reading, at the runner's clean end, told of
      the runner's error, at an end it cannot read, or told by the relay that
      the tunnel is down. */
  datatype Fate = Reading | Finished | Told(error: string) | Garbled | Broke(reason: Reason)

  /** One stream: `taken` is what its reader has taken from the queue that came
      off the socket, `why` the reason it was failed for. */
  datatype Side = Side(
    queue: seq<Item>,
    head: Heading,
    gone: bool,
    taken: seq<Item>,
    fate: Fate,
    why: Option<Reason>)

  const BLANK: Side := Side([], Awaited, false, [], Reading, None)

  function Failed(s: Side, reason: Reason): Side {
    s.(gone := true, why := Some(reason), queue := [Broken(reason)],
       head := if s.head.Awaited? then Refused(reason) else s.head)
  }

  function Complaint(error: Option<string>): Reason {
    if error.Some? && error.value != "" then Error(error.value) else Closed
  }

  function Queued(s: Side, item: Item): Side {
    if |s.queue| < QUEUE_SIZE then s.(queue := s.queue + [item]) else Failed(s, Behind)
  }

  /** A frame for the stream; None when its JSON makes the whole tunnel fail. */
  function Offered(f: Format, s: Side, op: Op, payload: Bytes): Option<Side> {
    if s.gone then Some(s)
    else if op.Head? then
      if !s.head.Awaited? then Some(s)
      else if f.head(payload) then Some(s.(head := Arrived(payload)))
      else None
    else if op.Close? && s.head.Awaited? then
      match f.close(payload)
      case Unreadable => None
      case Note(error) => Some(Failed(s, Complaint(error)))
    else Some(Queued(s, Piece(op, payload)))
  }

  /** What the reader makes of the payload of a CLOSE. */
  function Verdict(f: Format, payload: Bytes): Fate {
    match if payload == [] then Note(None) else f.close(payload)
    case Unreadable => Garbled
    case Note(None) => Finished
    case Note(Some(error)) => Told(error)
  }

  function Taken(f: Format, s: Side): Side
    requires s.queue != []
  {
    var rest := s.(queue := s.queue[1..]);
    match s.queue[0]
    case Broken(reason) => rest.(fate := Broke(reason))
    case Piece(op, payload) =>
      rest.(taken := s.taken + [s.queue[0]], fate := if op.Close? then Verdict(f, payload) else s.fate)
  }

  // The tunnel as a whole.

  /** `arrived` is every whole frame off the socket, `since` where in it each
      stream was opened, `left` the streams whose reader let go. */
  datatype World = World(
    format: Format,
    alive: bool,
    down: bool,
    next: nat,
    streams: set<nat>,
    sides: map<nat, Side>,
    arrived: seq<Parsed>,
    since: map<nat, nat>,
    left: set<nat>)

  datatype Act =
    | Open
    | OpenFails(id: nat)
    | SendFails
    | Receive(data: Bytes)
    | Shutdown
    | Take(id: nat)
    | Leave(id: nat)

  function Connected(f: Format): World {
    World(f, true, false, 0, {}, map[], [], map[], {})
  }

  function Opened(w: World): World {
    var id := w.next + 1;
    if !w.alive then w.(next := id)
    else w.(next := id, streams := w.streams + {id}, sides := w.sides[id := BLANK], since := w.since[id := |w.arrived|])
  }

  function Down(w: World): World {
    w.(alive := false, down := true, streams := {},
       sides := map id | id in w.sides :: if id in w.streams then Failed(w.sides[id], Away) else w.sides[id])
  }

  function With(w: World, id: nat, s: Side): World {
    w.(sides := w.sides[id := s], streams := if s.gone then w.streams - {id} else w.streams)
  }

  /** One whole frame off the socket. */
  function Routed(w: World, m: Parsed): World {
    var heard := w.(arrived := w.arrived + [m]);
    if m.Truncated? then Down(w)
    else if m.op.None? || m.stream !in w.streams || m.stream !in w.sides then heard
    else match Offered(w.format, w.sides[m.stream], m.op.value, m.payload)
      case None => Down(heard)
      case Some(s) => With(heard, m.stream, s)
  }

  function Left(w: World, id: nat): World
    requires id in w.sides
  {
    With(w, id, w.sides[id].(gone := true)).(left := w.left + {id})
  }

  ghost predicate Enabled(w: World, a: Act) {
    match a
    case Open => true
    case OpenFails(id) => id in w.sides
    case SendFails => true
    case Receive(_) => true
    case Shutdown => true
    case Take(id) => id in w.sides && w.sides[id].fate.Reading? && w.sides[id].queue != []
    case Leave(id) => id in w.sides
  }

  ghost function Step(w: World, a: Act): World
    requires Enabled(w, a)
  {
    match a
    case Open => Opened(w)
    case OpenFails(id) => Left(w, id).(alive := false)
    case SendFails => w.(alive := false)
    case Receive(data) => Routed(w, Parse(data))
    case Shutdown => Down(w)
    case Take(id) => w.(sides := w.sides[id := Taken(w.format, w.sides[id])])
    case Leave(id) => Left(w, id)
  }

  // What one stream was sent.

  predicate For(m: Parsed, id: nat) {
    m.Message? && m.op.Some? && m.stream == id
  }

  /** All that the frames bring into a stream's queue, in order of arrival. */
  function Inbox(ms: seq<Parsed>, id: nat): seq<Item> {
    if ms == [] then []
    else
      var m := ms[|ms| - 1];
      Inbox(ms[..|ms| - 1], id) + if For(m, id) && !m.op.value.Head? then [Piece(m.op.value, m.payload)] else []
  }

  /** The first head among the frames. */
  function FirstHead(ms: seq<Parsed>, id: nat): Option<Bytes> {
    if ms == [] then None
    else
      var before := FirstHead(ms[..|ms| - 1], id);
      var m := ms[|ms| - 1];
      if before.None? && For(m, id) && m.op.value.Head? then Some(m.payload) else before
  }

  ghost predicate IsPrefix(a: seq<Item>, b: seq<Item>) {
    |a| <= |b| && b[..|a|] == a
  }

  predicate IsClose(item: Item) {
    item.Piece? && item.op.Close?
  }

  ghost predicate NoClose(s: seq<Item>) {
    forall i :: 0 <= i < |s| ==> !IsClose(s[i])
  }

  /** The payload pieces handed to the reader: all it took but for a CLOSE. */
  function Got(s: Side): seq<Item> {
    if s.taken != [] && IsClose(s.taken[|s.taken| - 1]) then s.taken[..|s.taken| - 1] else s.taken
  }

  // The invariant, stream by stream.

  ghost predicate TakenOk(f: Format, s: Side) {
    && NoClose(Got(s))
    && (s.fate.Reading? || s.fate.Broke? ==> NoClose(s.taken))
    && (!s.fate.Reading? && !s.fate.Broke? ==>
          s.taken != [] && IsClose(s.taken[|s.taken| - 1])
          && s.fate == Verdict(f, s.taken[|s.taken| - 1].payload))
    && (s.fate.Broke? ==> s.why == Some(s.fate.reason))
  }

  ghost predicate WhyOk(s: Side) {
    && |s.queue| <= QUEUE_SIZE
    && (s.why.Some? ==> s.gone && !s.head.Awaited?)
    && (s.why.Some? && s.fate.Reading? ==> s.queue == [Broken(s.why.value)])
    && (s.why.None? ==> forall i :: 0 <= i < |s.queue| ==> s.queue[i].Piece?)
    && (s.head.Refused? ==> s.why == Some(s.head.reason))
  }

  ghost predicate BoxOk(s: Side, box: seq<Item>) {
    && IsPrefix(s.taken, box)
    && (s.why.None? ==> IsPrefix(s.taken + s.queue, box))
    && (!s.gone ==> s.taken + s.queue == box)
  }

  ghost predicate HeadOk(f: Format, s: Side, first: Option<Bytes>) {
    && (s.head.Arrived? ==> first == Some(s.head.payload) && f.head(s.head.payload))
    && (s.head.Awaited? && !s.gone ==> first.None?)
  }

  ghost predicate SideOk(f: Format, s: Side, since: seq<Parsed>, id: nat) {
    TakenOk(f, s) && WhyOk(s) && BoxOk(s, Inbox(since, id)) && HeadOk(f, s, FirstHead(since, id))
  }

  ghost predicate At(w: World, id: nat) {
    && (id in w.streams ==> id in w.sides)
    && (id in w.sides ==> id <= w.next && id in w.since && w.since[id] <= |w.arrived|)
    && (id in w.sides ==> SideOk(w.format, w.sides[id], w.arrived[w.since[id]..], id))
    && (id in w.sides ==> (id in w.streams <==> !w.sides[id].gone))
    && (id in w.sides && w.sides[id].gone ==> w.sides[id].why.Some? || id in w.left)
  }

  ghost predicate Inv(w: World) {
    && (forall id: nat :: At(w, id))
    && (w.down ==> !w.alive && w.streams == {})
  }

  lemma {:induction false} NothingYet(ms: seq<Parsed>, id: nat)
    requires ms == []
    ensures Inbox(ms, id) == [] && FirstHead(ms, id) == None
  {}

  lemma Arriving(ms: seq<Parsed>, m: Parsed, id: nat)
    ensures Inbox(ms + [m], id) ==
            Inbox(ms, id) + if For(m, id) && !m.op.value.Head? then [Piece(m.op.value, m.payload)] else []
    ensures FirstHead(ms + [m], id) ==
              if FirstHead(ms, id).None? && For(m, id) && m.op.value.Head? then Some(m.payload) else FirstHead(ms, id)
  {
    assert (ms + [m])[..|ms|] == ms;
  }

  lemma FailedOk(f: Format, s: Side, since: seq<Parsed>, id: nat, reason: Reason)
    requires SideOk(f, s, since, id) && !s.gone
    ensures SideOk(f, Failed(s, reason), since, id)
  {}

  lemma GoneOk(f: Format, s: Side, since: seq<Parsed>, id: nat)
    requires SideOk(f, s, since, id)
    ensures SideOk(f, s.(gone := true), since, id)
  {}

  /** A gone stream stays as it is whatever arrives; so does one that the frame
      is not for. */
  lemma HeardOk(f: Format, s: Side, since: seq<Parsed>, id: nat, m: Parsed)
    requires SideOk(f, s, since, id) && (s.gone || !For(m, id))
    ensures SideOk(f, s, since + [m], id)
  {
    Arriving(since, m, id);
  }

  lemma QueuedBox(a: seq<Item>, q: seq<Item>, item: Item)
    ensures a + (q + [item]) == (a + q) + [item]
    ensures IsPrefix(a, a + q + [item]) && IsPrefix(a, a + q)
  {
    assert (a + q + [item])[..|a|] == a;
  }

  lemma QueuedOk(f: Format, s: Side, since: seq<Parsed>, id: nat, m: Parsed)
    requires SideOk(f, s, since, id) && !s.gone
    requires For(m, id) && !m.op.value.Head?
    ensures SideOk(f, Queued(s, Piece(m.op.value, m.payload)), since + [m], id)
  {
    var item := Piece(m.op.value, m.payload);
    Arriving(since, m, id);
    QueuedBox(s.taken, s.queue, item);
    if |s.queue| >= QUEUE_SIZE { assert BoxOk(Failed(s, Behind), Inbox(since, id) + [item]); }
  }

  lemma BrokenOk(f: Format, s: Side, since: seq<Parsed>, id: nat, m: Parsed, reason: Reason)
    requires SideOk(f, s, since, id) && !s.gone
    requires s.head.Awaited? && For(m, id) && m.op.value.Close?
    ensures SideOk(f, Failed(s, reason), since + [m], id)
  {
    Arriving(since, m, id);
  }

  lemma HeadedOk(f: Format, s: Side, since: seq<Parsed>, id: nat, m: Parsed)
    requires SideOk(f, s, since, id) && !s.gone
    requires For(m, id) && m.op.value.Head? && (s.head.Awaited? ==> f.head(m.payload))
    ensures SideOk(f, if s.head.Awaited? then s.(head := Arrived(m.payload)) else s, since + [m], id)
  {
    Arriving(since, m, id);
  }

  lemma OfferedOk(f: Format, s: Side, since: seq<Parsed>, id: nat, m: Parsed)
    requires SideOk(f, s, since, id) && !s.gone && For(m, id)
    ensures var r := Offered(f, s, m.op.value, m.payload);
            r.Some? ==> SideOk(f, r.value, since + [m], id) && (r.value.gone ==> r.value.why.Some?)
  {
    if m.op.value.Head? {
      if s.head.Awaited? ==> f.head(m.payload) { HeadedOk(f, s, since, id, m); }
    } else if m.op.value.Close? && s.head.Awaited? {
      var note := f.close(m.payload);
      if note.Note? { BrokenOk(f, s, since, id, m, Complaint(note.error)); }
    } else {
      QueuedOk(f, s, since, id, m);
    }
  }

  /** A frame that fails the tunnel leaves the stream it was for in order. */
  lemma LostOk(f: Format, s: Side, since: seq<Parsed>, id: nat, m: Parsed, reason: Reason)
    requires SideOk(f, s, since, id) && !s.gone
    requires For(m, id) && s.head.Awaited?
    ensures SideOk(f, Failed(s, reason), since + [m], id)
  {
    Arriving(since, m, id);
  }

  lemma TakenBox(a: seq<Item>, q: seq<Item>, box: seq<Item>)
    requires q != [] && IsPrefix(a + q, box)
    ensures a + [q[0]] + q[1..] == a + q && IsPrefix(a + [q[0]], box)
  {
    var n := |a| + 1;
    assert (a + q)[..n] == a + [q[0]];
    assert box[..|a + q|][..n] == box[..n];
  }

  lemma TakenCloses(f: Format, s: Side)
    requires TakenOk(f, s) && s.fate.Reading? && s.why.None? && s.queue != [] && s.queue[0].Piece?
    ensures TakenOk(f, Taken(f, s))
  {
    var t := Taken(f, s);
    assert t.taken[..|s.taken|] == s.taken;
  }

  lemma TakenPieceOk(f: Format, s: Side, since: seq<Parsed>, id: nat)
    requires SideOk(f, s, since, id) && s.fate.Reading? && s.why.None? && s.queue != []
    ensures SideOk(f, Taken(f, s), since, id)
  {
    assert s.queue[0].Piece?;
    TakenCloses(f, s);
    TakenBox(s.taken, s.queue, Inbox(since, id));
  }

  lemma TakenOnceOk(f: Format, s: Side, since: seq<Parsed>, id: nat)
    requires SideOk(f, s, since, id) && s.fate.Reading? && s.queue != []
    ensures SideOk(f, Taken(f, s), since, id)
  {
    if s.why.None? { TakenPieceOk(f, s, since, id); }
  }

  // Every step keeps it.

  lemma OpenAt(w: World, id: nat)
    requires Inv(w)
    ensures At(Opened(w), id)
  {
    assert At(w, id) && At(w, w.next + 1);
    if id == w.next + 1 { NothingYet(w.arrived[|w.arrived|..], id); }
  }

  lemma DownAt(w: World, id: nat)
    requires At(w, id)
    ensures At(Down(w), id)
  {
    if id in w.streams { FailedOk(w.format, w.sides[id], w.arrived[w.since[id]..], id, Away); }
  }

  lemma LeftAt(w: World, k: nat, id: nat)
    requires At(w, id) && k in w.sides
    ensures At(Left(w, k), id)
  {
    if id == k { GoneOk(w.format, w.sides[id], w.arrived[w.since[id]..], id); }
  }

  lemma TakeAt(w: World, k: nat, id: nat)
    requires At(w, id) && Enabled(w, Take(k))
    ensures At(Step(w, Take(k)), id)
  {
    if id == k { TakenOnceOk(w.format, w.sides[id], w.arrived[w.since[id]..], id); }
  }

  lemma HeardAt(w: World, m: Parsed, id: nat)
    requires At(w, id) && (id in w.streams ==> !For(m, id))
    ensures At(w.(arrived := w.arrived + [m]), id)
  {
    if id in w.sides {
      assert (w.arrived + [m])[w.since[id]..] == w.arrived[w.since[id]..] + [m];
      HeardOk(w.format, w.sides[id], w.arrived[w.since[id]..], id, m);
    }
  }

  lemma RouteAt(w: World, m: Parsed)
    requires m.Message? && m.op.Some? && At(w, m.stream) && m.stream in w.streams
    ensures At(Routed(w, m), m.stream)
  {
    var id := m.stream;
    var s, since := w.sides[id], w.arrived[w.since[id]..];
    assert (w.arrived + [m])[w.since[id]..] == since + [m];
    var answer := Offered(w.format, s, m.op.value, m.payload);
    OfferedOk(w.format, s, since, id, m);
    if answer.None? {
      LostOk(w.format, s, since, id, m, Away);
      assert Routed(w, m).sides[id] == Failed(s, Away);
    } else {
      assert Routed(w, m) == With(w.(arrived := w.arrived + [m]), id, answer.value);
    }
  }

  lemma ReceiveAt(w: World, m: Parsed, id: nat)
    requires At(w, id)
    ensures At(Routed(w, m), id)
  {
    if m.Truncated? {
      DownAt(w, id);
    } else if For(m, id) && id in w.streams {
      RouteAt(w, m);
    } else {
      HeardAt(w, m, id);
      DownAt(w.(arrived := w.arrived + [m]), id);
    }
  }

  lemma StepKeepsInv(w: World, a: Act)
    requires Inv(w) && Enabled(w, a)
    ensures Inv(Step(w, a))
  {
    forall id: nat ensures At(Step(w, a), id) {
      assert At(w, id);
      match a
      case Open => OpenAt(w, id);
      case OpenFails(k) => LeftAt(w, k, id);
      case SendFails =>
      case Receive(data) => ReceiveAt(w, Parse(data), id);
      case Shutdown => DownAt(w, id);
      case Take(k) => TakeAt(w, k, id);
      case Leave(k) => LeftAt(w, k, id);
    }
  }

  ghost predicate StepAt(tr: seq<World>, acts: seq<Act>, i: nat)
    requires i < |acts| && |tr| == |acts| + 1
  {
    Enabled(tr[i], acts[i]) && tr[i + 1] == Step(tr[i], acts[i])
  }

  ghost predicate Run(tr: seq<World>, acts: seq<Act>) {
    && |tr| == |acts| + 1 && tr[0] == Connected(tr[0].format)
    && forall i: nat :: i < |acts| ==> StepAt(tr, acts, i)
  }

  lemma {:induction false} RunKeepsInv(tr: seq<World>, acts: seq<Act>, n: nat)
    requires Run(tr, acts) && n <= |acts|
    ensures Inv(tr[n])
  {
    if n > 0 {
      RunKeepsInv(tr, acts, n - 1);
      assert StepAt(tr, acts, n - 1);
      StepKeepsInv(tr[n - 1], acts[n - 1]);
    }
  }

  // What a reader may rely on.

  function BoxOf(w: World, id: nat): seq<Item>
    requires id in w.since && w.since[id] <= |w.arrived|
  {
    Inbox(w.arrived[w.since[id]..], id)
  }

  /** Whatever shares the socket, a reader gets payloads of its own stream, in
      order, from the first one after opening, none twice and none left out. */
  lemma OwnInOrder(tr: seq<World>, acts: seq<Act>, n: nat, id: nat)
    requires Run(tr, acts) && n <= |acts| && id in tr[n].sides
    ensures id in tr[n].since && tr[n].since[id] <= |tr[n].arrived|
    ensures IsPrefix(Got(tr[n].sides[id]), BoxOf(tr[n], id)) && NoClose(Got(tr[n].sides[id]))
  {
    RunKeepsInv(tr, acts, n);
    assert At(tr[n], id);
  }

  /** The reader took its box up to the first CLOSE, and handed over every
      payload before that. */
  ghost predicate AtClose(s: Side, box: seq<Item>) {
    var k := |Got(s)|;
    k < |box| && box[..k] == Got(s) && NoClose(box[..k]) && IsClose(box[k]) && s.taken == box[..k + 1]
  }

  /** What the CLOSE that comes after the payloads handed over says. */
  function Parting(f: Format, s: Side, box: seq<Item>): Note
    requires |Got(s)| < |box| && box[|Got(s)|].Piece?
  {
    if box[|Got(s)|].payload == [] then Note(None) else f.close(box[|Got(s)|].payload)
  }

  /** A reader is at a clean end exactly when it took the stream's first CLOSE,
      every payload before it was handed over, and that CLOSE carries no error;
      told of the runner's error exactly when it carries that error; and left
      with a CLOSE it cannot read exactly when nobody could. */
  lemma EndIff(tr: seq<World>, acts: seq<Act>, n: nat, id: nat)
    requires Run(tr, acts) && n <= |acts| && id in tr[n].sides
    ensures id in tr[n].since && tr[n].since[id] <= |tr[n].arrived|
    ensures var (f, s, box) := (tr[n].format, tr[n].sides[id], BoxOf(tr[n], id));
            && (s.fate.Finished? <==> AtClose(s, box) && Parting(f, s, box) == Note(None))
            && (s.fate.Garbled? <==> AtClose(s, box) && Parting(f, s, box).Unreadable?)
            && (forall e :: s.fate == Told(e) <==> AtClose(s, box) && Parting(f, s, box) == Note(Some(e)))
  {
    RunKeepsInv(tr, acts, n);
    assert At(tr[n], id);
    var s, box := tr[n].sides[id], BoxOf(tr[n], id);
    var k := |Got(s)|;
    assert s.taken == box[..|s.taken|];
    if s.taken != [] && IsClose(s.taken[|s.taken| - 1]) {
      assert s.taken[..k] == box[..k] && box[k] == s.taken[k];
    } else if k < |box| {
      assert |box[..k + 1]| == k + 1;
    }
  }

  /** A stream that failed tells its reader so at the very next read, and its
      head is settled; a reader that waits without end, for payloads or for the
      head, waits on a stream the socket still feeds. */
  lemma FailureSurfaces(tr: seq<World>, acts: seq<Act>, n: nat, id: nat)
    requires Run(tr, acts) && n <= |acts| && id in tr[n].sides
    ensures var (w, s) := (tr[n], tr[n].sides[id]);
            && (s.why.Some? && s.fate.Reading? ==> s.queue != [] && Taken(w.format, s).fate == Broke(s.why.value))
            && (s.why.Some? ==> !s.head.Awaited?)
            && (s.fate.Reading? && s.queue == [] && id !in w.left ==> id in w.streams && !w.down)
            && (s.head.Awaited? && id !in w.left ==> id in w.streams && !w.down)
  {
    RunKeepsInv(tr, acts, n);
    assert At(tr[n], id);
  }

  /** A frame for an open stream that fails the whole tunnel: a head or a CLOSE
      before the head whose JSON is not what it should be. */
  predicate Undoes(f: Format, s: Side, op: Op, payload: Bytes) {
    s.head.Awaited? && ((op.Head? && !f.head(payload)) || (op.Close? && f.close(payload).Unreadable?))
  }

  /** Why any other frame for an open stream fails it, if it does. */
  function FrameCause(f: Format, s: Side, op: Op, payload: Bytes): Option<Reason> {
    if op.Head? then None
    else if op.Close? && s.head.Awaited? then
      match f.close(payload)
      case Note(Some(error)) => if error != "" then Some(Error(error)) else Some(Closed)
      case _ => Some(Closed)
    else if |s.queue| >= 256 then Some(Behind)
    else None
  }

  /** Why a step fails an open stream, if it does. */
  function Cause(w: World, a: Act, id: nat): Option<Reason>
    requires w.streams <= w.sides.Keys && id in w.streams
  {
    if a.Shutdown? then Some(Away)
    else if !a.Receive? then None
    else
      var m := Parse(a.data);
      if m.Truncated? then Some(Away)
      else if m.op.None? || m.stream !in w.streams then None
      else if Undoes(w.format, w.sides[m.stream], m.op.value, m.payload) then Some(Away)
      else if m.stream != id then None
      else FrameCause(w.format, w.sides[id], m.op.value, m.payload)
  }

  /** Failed for that cause, an awaited head with it, or not failed. */
  predicate FailedAs(s: Side, t: Side, cause: Option<Reason>) {
    t.why == cause && (cause.Some? && s.head.Awaited? ==> t.head == Refused(cause.value))
  }

  lemma OfferedAs(f: Format, s: Side, op: Op, payload: Bytes)
    requires !s.gone && s.why.None?
    ensures Offered(f, s, op, payload).None? <==> Undoes(f, s, op, payload)
    ensures !Undoes(f, s, op, payload) ==>
              FailedAs(s, Offered(f, s, op, payload).value, FrameCause(f, s, op, payload))
  {
  }

  lemma RoutedAs(w: World, data: Bytes, id: nat)
    requires w.streams <= w.sides.Keys && id in w.streams
    requires forall i :: i in w.streams ==> !w.sides[i].gone && w.sides[i].why.None?
    ensures id in Routed(w, Parse(data)).sides
    ensures FailedAs(w.sides[id], Routed(w, Parse(data)).sides[id], Cause(w, Receive(data), id))
  {
    var m := Parse(data);
    if m.Message? && m.op.Some? && m.stream in w.streams {
      OfferedAs(w.format, w.sides[m.stream], m.op.value, m.payload);
    }
  }

  lemma OpenSides(w: World)
    requires Inv(w)
    ensures w.streams <= w.sides.Keys
    ensures forall i :: i in w.streams ==> !w.sides[i].gone && w.sides[i].why.None?
  {
    forall i | i in w.streams ensures i in w.sides && !w.sides[i].gone && w.sides[i].why.None? {
      assert At(w, i);
    }
  }

  /** An open stream is failed by the end of the tunnel, by a frame that cannot be
      read, by a CLOSE before its head, which tells why, or by a full queue, and
      by nothing else; a head still awaited is refused with the same reason. */
  lemma FailedFor(tr: seq<World>, acts: seq<Act>, n: nat, id: nat)
    requires Run(tr, acts) && n < |acts| && id in tr[n].streams
    ensures tr[n].streams <= tr[n].sides.Keys && id in tr[n + 1].sides
    ensures FailedAs(tr[n].sides[id], tr[n + 1].sides[id], Cause(tr[n], acts[n], id))
  {
    RunKeepsInv(tr, acts, n);
    OpenSides(tr[n]);
    assert StepAt(tr, acts, n) && At(tr[n], tr[n].next + 1);
    if acts[n].Receive? { RoutedAs(tr[n], acts[n].data, id); }
  }

  /** Once sending has failed or the tunnel was shut down it stays dead, and no
      stream is opened on it any more. */
  lemma {:induction false} DeadStaysDead(tr: seq<World>, acts: seq<Act>, i: nat, n: nat)
    requires Run(tr, acts) && i < n <= |acts|
    requires acts[i].SendFails? || acts[i].OpenFails? || acts[i].Shutdown?
    ensures !tr[n].alive && tr[n].streams <= tr[i].streams
  {
    assert StepAt(tr, acts, n - 1);
    if i < n - 1 { DeadStaysDead(tr, acts, i, n - 1); }
  }

  /** A reader that was failed before it reached an end never sees a clean one. */
  lemma {:induction false} FailureIsFinal(tr: seq<World>, acts: seq<Act>, m: nat, n: nat, id: nat)
    requires Run(tr, acts) && m <= n <= |acts| && id in tr[m].sides
    requires tr[m].sides[id].why.Some? && tr[m].sides[id].fate.Reading?
    ensures id in tr[n].sides && tr[n].sides[id].why == tr[m].sides[id].why
    ensures tr[n].sides[id].fate in {Reading, Broke(tr[m].sides[id].why.value)}
    ensures tr[n].sides[id].taken == tr[m].sides[id].taken
  {
    if m < n {
      FailureIsFinal(tr, acts, m, n - 1, id);
      RunKeepsInv(tr, acts, n - 1);
      assert StepAt(tr, acts, n - 1) && At(tr[n - 1], id);
      Final(tr[n - 1], acts[n - 1], id);
    }
  }

  lemma Final(w: World, a: Act, id: nat)
    requires Inv(w) && Enabled(w, a) && id in w.sides && w.sides[id].why.Some?
    requires w.sides[id].fate.Reading? || w.sides[id].fate.Broke?
    ensures id in Step(w, a).sides
    ensures var (s, t) := (w.sides[id], Step(w, a).sides[id]);
            t.why == s.why && t.taken == s.taken && t.fate in {s.fate, Broke(s.why.value)}
  {
    assert At(w, id) && At(w, w.next + 1);
  }

  /** A frame touches no stream but its own, unless it brings the tunnel down. */
  lemma FramesKeepApart(w: World, m: Parsed, id: nat)
    requires id in w.sides && !For(m, id) && !w.down
    ensures id in Routed(w, m).sides
    ensures var r := Routed(w, m);
            r.sides[id] == w.sides[id] || (r.down && r.sides[id] == Failed(w.sides[id], Away))
  {}

  /** A stream falls behind only with a full queue; then nothing of what was
      queued is handed over as if it were all. */
  lemma BehindMeansFull(f: Format, s: Side, op: Op, payload: Bytes)
    requires !s.gone && s.why.None?
    ensures Offered(f, s, op, payload) == Some(Failed(s, Behind)) <==>
              |s.queue| >= QUEUE_SIZE && !op.Head? && !(op.Close? && s.head.Awaited?)
  {}

  // The objects of the relay.

  class Stream {
    var queue: seq<Item>
    var head: Heading
    var gone: bool
    ghost var taken: seq<Item>
    ghost var fate: Fate
    ghost var why: Option<Reason>

    ghost function Abs(): Side
      reads this
    {
      Side(queue, head, gone, taken, fate, why)
    }

    constructor ()
      ensures Abs() == BLANK
    {
      queue, head, gone, taken, fate, why := [], Awaited, false, [], Reading, None;
    }

    method Fail(reason: Reason)
      modifies this
      ensures Abs() == Failed(old(Abs()), reason)
    {
      gone, why := true, Some(reason);
      if head.Awaited? { head := Refused(reason); }
      queue := [Broken(reason)];
    }

    /** False stands for the error that ends the whole tunnel. */
    method Offer(f: Format, op: Op, payload: Bytes) returns (ok: bool)
      modifies this
      ensures ok <==> Offered(f, old(Abs()), op, payload).Some?
      ensures Abs() == if ok then Offered(f, old(Abs()), op, payload).value else old(Abs())
    {
      ok := true;
      if gone { return; }
      if op.Head? {
        if head.Awaited? {
          if !f.head(payload) { return false; }
          head := Arrived(payload);
        }
        return;
      }
      if op.Close? && head.Awaited? {
        match f.close(payload)
        case Unreadable => return false;
        case Note(error) =>
          Fail(Complaint(error));
          return;
      }
      if |queue| < QUEUE_SIZE { queue := queue + [Piece(op, payload)]; } else { Fail(Behind); }
    }

    method Read(f: Format) returns (item: Item)
      requires queue != []
      modifies this
      ensures item == old(queue)[0] && Abs() == Taken(f, old(Abs()))
    {
      item := queue[0];
      queue := queue[1..];
      match item
      case Broken(reason) => fate := Broke(reason);
      case Piece(op, payload) =>
        taken := taken + [item];
        if op.Close? { fate := Verdict(f, payload); }
    }
  }

  /** The open streams after a frame; None for an error that ends the tunnel. */
  function Answer(f: Format, m: Parsed, sides: map<nat, Side>): (r: Option<map<nat, Side>>)
    ensures r.Some? ==> r.value.Keys == sides.Keys
  {
    if m.Truncated? then None
    else if m.op.None? || m.stream !in sides then Some(sides)
    else
      var s := Offered(f, sides[m.stream], m.op.value, m.payload);
      if s.None? then None else Some(sides[m.stream := s.value])
  }

  /** What the socket loop does with a frame is the step of the runs above: an
      error shuts the tunnel down, otherwise the open streams become those of
      the answer, and the failed ones are forgotten. */
  lemma AnswerRoutes(w: World, m: Parsed, sides: map<nat, Side>)
    requires Inv(w) && sides.Keys == w.streams
    requires forall i :: i in w.streams ==> i in w.sides && w.sides[i] == sides[i]
    ensures var (answer, r) := (Answer(w.format, m, sides), Routed(w, m));
            && (answer.None? ==> r == Down(if m.Truncated? then w else w.(arrived := w.arrived + [m])))
            && (answer.Some? ==>
                  (forall i :: i in w.streams ==> i in r.sides && r.sides[i] == answer.value[i])
                  && r.streams == set i | i in w.streams && !answer.value[i].gone)
  {
    forall i: nat | i in w.streams ensures !w.sides[i].gone {
      assert At(w, i);
    }
  }

  class Tunnel {
    var streams: map<nat, Stream>
    var next: nat
    var alive: bool
    const format: Format

    /** No stream goes by two numbers, none is numbered ahead, and one that is
        gone is forgotten. */
    ghost predicate Valid()
      reads this, streams.Values
    {
      && (forall i :: i in streams ==> !streams[i].gone)
      && (forall i, j :: i in streams && j in streams && streams[i] == streams[j] ==> i == j)
      && (forall i :: i in streams ==> i <= next)
    }

    ghost function View(): (v: map<nat, Side>)
      reads this, streams.Values
      ensures v.Keys == streams.Keys && forall i :: i in v ==> v[i] == streams[i].Abs()
    {
      map i | i in streams :: streams[i].Abs()
    }

    constructor (format: Format)
      ensures Valid() && alive && next == 0 && streams == map[] && this.format == format
    {
      streams, next, alive := map[], 0, true;
      this.format := format;
    }

    /** The new stream has a number never used before. */
    method Open() returns (stream: Option<Stream>)
      requires Valid()
      modifies this
      ensures Valid() && alive == old(alive) && next == old(next) + 1
      ensures stream.Some? <==> alive
      ensures stream.Some? ==> fresh(stream.value) && stream.value.Abs() == BLANK
      ensures streams == if stream.Some? then old(streams)[next := stream.value] else old(streams)
    {
      next := next + 1;
      if !alive { return None; }
      var made := new Stream();
      streams := streams[next := made];
      return Some(made);
    }

    /** One frame off the socket: it reaches the stream it names and no other,
        and a stream that failed is forgotten; false stands for the error that
        leads to the shutdown. */
    method Receive(data: Bytes) returns (ok: bool)
      requires Valid()
      modifies this, streams.Values
      ensures Valid() && alive == old(alive) && next == old(next)
      ensures forall i :: i in streams ==> i in old(streams) && streams[i] == old(streams)[i]
      ensures forall i :: i in old(streams) ==> i in streams || old(streams)[i].gone
      ensures ok <==> Answer(format, Parse(data), old(View())).Some?
      ensures forall i :: i in old(streams) ==>
                            old(streams)[i].Abs() ==
                            (var answer := Answer(format, Parse(data), old(View()));
                             if answer.Some? then answer.value[i] else old(streams[i].Abs()))
    {
      var m := Parse(data);
      if m.Truncated? { return false; }
      ok := true;
      if m.op.Some? && m.stream in streams {
        var stream := streams[m.stream];
        ok := stream.Offer(format, m.op.value, m.payload);
        if stream.gone { streams := streams - {m.stream}; }
      }
    }

    /** The reader of a stream lets go of it. */
    method Close(id: nat)
      requires Valid() && id in streams
      modifies this, streams[id]
      ensures Valid() && alive == old(alive) && next == old(next)
      ensures streams == old(streams) - {id}
      ensures old(streams[id]).Abs() == old(streams[id].Abs()).(gone := true)
    {
      streams[id].gone := true;
      streams := streams - {id};
    }

    /** Every stream still open is told that the runner went away. */
    method Shutdown()
      requires Valid()
      modifies this, streams.Values
      ensures Valid() && !alive && streams == map[] && next == old(next)
      ensures forall i :: i in old(streams) ==> old(streams)[i].Abs() == Failed(old(streams[i].Abs()), Away)
    {
      alive := false;
      ghost var was := View();
      var rest := streams.Keys;
      while rest != {}
        invariant !alive && next == old(next) && streams == old(streams)
        invariant rest <= streams.Keys == was.Keys
        invariant forall i :: i in streams ==>
                                streams[i].Abs() == if i in rest then was[i] else Failed(was[i], Away)
      {
        var i :| i in rest;
        streams[i].Fail(Away);
        rest := rest - {i};
      }
      streams := map[];
    }
  }
}
