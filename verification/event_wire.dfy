/**
 From the events on a connection to the client, byte for byte: the server prints
 each event as a frame, the connection may break anywhere, and the client reads
 whatever text reached it. How an event is written into a frame, and read back
 from a message, is a parameter.
 */
module EventWire {
  import opened Options
  import SessionLog
  import opened EventStream
  import Sse

  type Event = SessionLog.Event
  type Writing = Event -> Sse.Frame
  type Reading = Sse.Message -> Event

  /** Every event survives being written and read, and fits a frame. */
  ghost predicate Faithful(write: Writing, read: Reading) {
    forall e: Event :: Sse.Printable(write(e)) && read(Sse.AsMessage(write(e))) == e
  }

  /** The frames among the printer's ticks are those of the events, in order. */
  function Carried(ticks: seq<Option<Sse.Frame>>): seq<Sse.Frame> {
    if ticks == [] then []
    else Carried(ticks[..|ticks| - 1]) + match ticks[|ticks| - 1] case None => [] case Some(f) => [f]
  }

  function Written(write: Writing, es: seq<Event>): seq<Sse.Frame> {
    seq(|es|, i requires 0 <= i < |es| => write(es[i]))
  }

  function Understood(read: Reading, ms: seq<Sse.Message>): seq<Event> {
    seq(|ms|, i requires 0 <= i < |ms| => read(ms[i]))
  }

  lemma {:induction false} FramesAre(ticks: seq<Option<Sse.Frame>>)
    ensures |Sse.Frames(ticks)| == |Carried(ticks)|
    ensures forall i :: 0 <= i < |Carried(ticks)| ==> Sse.Frames(ticks)[i] == Sse.AsMessage(Carried(ticks)[i])
  {
    if ticks != [] { FramesAre(ticks[..|ticks| - 1]); }
  }

  lemma {:induction false} CarriedPrefix(ticks: seq<Option<Sse.Frame>>, m: nat)
    requires m <= |ticks|
    ensures Carried(ticks[..m]) <= Carried(ticks)
  {
    if m == |ticks| {
      assert ticks[..m] == ticks;
    } else {
      var less := ticks[..|ticks| - 1];
      CarriedPrefix(less, m);
      assert less[..m] == ticks[..m];
    }
  }

  lemma {:induction false} AllPrintable(ticks: seq<Option<Sse.Frame>>, write: Writing, es: seq<Event>)
    requires Carried(ticks) <= Written(write, es)
    requires forall e: Event :: Sse.Printable(write(e))
    ensures Sse.AllPrintable(ticks)
  {
    if ticks != [] {
      AllPrintable(ticks[..|ticks| - 1], write, es);
      var last := ticks[|ticks| - 1];
      if last.Some? {
        var n := |Carried(ticks)| - 1;
        assert Carried(ticks)[n] == last.value && Written(write, es)[n] == write(es[n]);
      }
    }
  }

  /** However the pings fall and wherever the text breaks off, what the client
      understands of it is a prefix of the events. */
  lemma TextDeliversAPrefix(write: Writing, read: Reading, es: seq<Event>, ticks: seq<Option<Sse.Frame>>, text: string)
    returns (m: nat)
    requires Faithful(write, read) && Carried(ticks) == Written(write, es) && text <= Sse.Output(ticks)
    ensures m <= |es| && Understood(read, Sse.Read(Sse.START, text).out) == es[..m]
    ensures text == Sse.Output(ticks) ==> m == |es|
  {
    AllPrintable(ticks, write, es);
    var t := Sse.CutDelivers(ticks, text);
    if text == Sse.Output(ticks) {
      Sse.OutputRead(ticks);
      t := |ticks|;
      assert ticks[..t] == ticks;
    }
    CarriedPrefix(ticks, t);
    FramesAre(ticks[..t]);
    m := |Carried(ticks[..t])|;
    var out := Sse.Read(Sse.START, text).out;
    forall i | 0 <= i < m ensures read(out[i]) == es[i] {
      assert Carried(ticks[..t])[i] == Written(write, es)[i];
    }
  }

  /** A client that takes m of the events on the wire before the connection breaks. */
  lemma {:induction false} TakesThenCut(w: World, m: nat) returns (tr: seq<World>, acts: seq<EventStream.Act>)
    requires w.stream.Some? && m <= |w.stream.value.wire|
    ensures Steps(tr, acts) && tr[0] == w && tr[|acts|].stream.None?
    ensures tr[|acts|].seen == w.seen + w.stream.value.wire[..m]
    ensures forall i :: 0 <= i < |acts| ==> acts[i] == Receive || acts[i] == Cut
    decreases m
  {
    if m == 0 {
      tr, acts := [w, EventStream.Step(w, Cut)], [Cut];
      assert w.seen + w.stream.value.wire[..0] == w.seen;
    } else {
      var next := EventStream.Step(w, Receive);
      var rest, moves := TakesThenCut(next, m - 1);
      tr, acts := [w] + rest, [Receive] + moves;
      forall i: nat | i < |acts| ensures EventStream.StepAt(tr, acts, i) {
        if i > 0 { assert EventStream.StepAt(rest, moves, i - 1); }
      }
      var wire := w.stream.value.wire;
      assert wire[..m] == [wire[0]] + wire[1..][..m - 1];
    }
  }

  /** A connection is the step relation's wire: whatever text of it reaches the
      client, the client processes exactly the events it understands, one reception
      each, and then the connection is gone. */
  lemma ConnectionIsTheWire(w: World, write: Writing, read: Reading, ticks: seq<Option<Sse.Frame>>, text: string)
    returns (tr: seq<World>, acts: seq<EventStream.Act>)
    requires w.stream.Some? && Faithful(write, read)
    requires Carried(ticks) == Written(write, w.stream.value.wire) && text <= Sse.Output(ticks)
    ensures Steps(tr, acts) && tr[0] == w && tr[|acts|].stream.None?
    ensures forall i :: 0 <= i < |acts| ==> acts[i] == Receive || acts[i] == Cut
    ensures tr[|acts|].seen == w.seen + Understood(read, Sse.Read(Sse.START, text).out)
  {
    var m := TextDeliversAPrefix(write, read, w.stream.value.wire, ticks, text);
    tr, acts := TakesThenCut(w, m);
  }
}
