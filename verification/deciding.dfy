/**
 Which event of a log decides a command's outcome for a client: of the terminal
 events about it the last that came before the answer to its submission, or
 else the first after that. A runner may have posted some of them.
 */
module Deciding {
  import opened Options
  import opened SessionLog
  import ClientSession

  type Outcome = ClientSession.Outcome

  /** A terminal event about a command, whoever published it. */
  predicate SaysEnded(e: Event, c: nat) {
    (e.data.CommandFinished? || e.data.CommandFailed?) && e.data.command == c
  }

  function OutcomeOf(e: Event): Outcome {
    match e.data
    case CommandFinished(_, result) => ClientSession.Value(result)
    case CommandFailed(_, error) => ClientSession.Error(error)
    case _ => ClientSession.DEAD
  }

  /** The number of the deciding event, given how many events had been seen when
      the answer came, if it has come. */
  function Decider(seen: seq<Event>, c: nat, answer: Option<nat>): (d: Option<nat>)
    ensures d.Some? ==> d.value < |seen| && SaysEnded(seen[d.value], c)
  {
    if seen == [] then None
    else
      var n := |seen| - 1;
      var before := Decider(seen[..n], c, answer);
      if !SaysEnded(seen[n], c) || (answer.Some? && answer.value <= n && before.Some?) then before else Some(n)
  }

  function Decided(seen: seq<Event>, c: nat, answer: Option<nat>): Option<Outcome> {
    match Decider(seen, c, answer)
    case None => None
    case Some(d) => Some(OutcomeOf(seen[d]))
  }

  lemma DecidedAdds(seen: seq<Event>, e: Event, c: nat, answer: Option<nat>)
    ensures var before := Decided(seen, c, answer);
            Decided(seen + [e], c, answer) ==
            if !SaysEnded(e, c) || (answer.Some? && answer.value <= |seen| && before.Some?) then before
            else Some(OutcomeOf(e))
  {
    assert (seen + [e])[..|seen|] == seen;
  }

  /** As long as nothing is seen after the answer, the answer changes nothing. */
  lemma {:induction false} AnswerComes(seen: seq<Event>, c: nat, r: nat)
    requires |seen| <= r
    ensures Decider(seen, c, Some(r)) == Decider(seen, c, None)
  {
    if seen != [] { AnswerComes(seen[..|seen| - 1], c, r); }
  }

  /** Does an event at i go before one at j in deciding, when the answer came at r? */
  predicate GoesBefore(i: nat, j: nat, r: nat) {
    if i < r then j < i || r <= j else i < j
  }

  /** Exactly that event decides which goes before all other terminal events: the
      last one before the answer, or the first one if none came before it. */
  lemma {:induction false} DecidesIff(seen: seq<Event>, c: nat, r: nat, i: nat)
    requires i < |seen| && SaysEnded(seen[i], c)
    ensures Decider(seen, c, Some(r)) == Some(i) <==>
            forall j: nat :: j < |seen| && j != i && SaysEnded(seen[j], c) ==> GoesBefore(i, j, r)
  {
    var n := |seen| - 1;
    var before := seen[..n];
    forall j: nat | j < n ensures before[j] == seen[j] {}
    if i < n { DecidesIff(before, c, r, i); }
    var d := Decider(before, c, Some(r));
    if d.Some? { DecidesIff(before, c, r, d.value); } else { NothingDecides(before, c, r); }
  }

  lemma {:induction false} NothingDecides(seen: seq<Event>, c: nat, r: nat)
    ensures Decider(seen, c, Some(r)).None? <==> forall j: nat :: j < |seen| ==> !SaysEnded(seen[j], c)
  {
    if seen != [] {
      var before := seen[..|seen| - 1];
      NothingDecides(before, c, r);
      forall j: nat | j < |before| ensures before[j] == seen[j] {}
    }
  }

  /** The outcome that the server itself published for a command, if it did. */
  function Recorded(log: seq<Event>, c: nat): Option<Outcome> {
    if log == [] then None
    else if Ends(log[|log| - 1], c) then Some(OutcomeOf(log[|log| - 1]))
    else Recorded(log[..|log| - 1], c)
  }

  lemma {:induction false} RecordedIff(log: seq<Event>, c: nat)
    ensures Recorded(log, c).Some? <==> EndCount(log, c) > 0
  {
    if log != [] { RecordedIff(log[..|log| - 1], c); }
  }

  /** With one end published at most, the event that is it is what is recorded. */
  lemma {:induction false} RecordedAt(log: seq<Event>, c: nat, i: nat)
    requires i < |log| && Ends(log[i], c) && EndCount(log, c) <= 1
    ensures Recorded(log, c) == Some(OutcomeOf(log[i]))
  {
    var n := |log| - 1;
    if i < n {
      RecordedAt(log[..n], c, i);
      RecordedIff(log[..n], c);
    }
  }

  lemma {:induction false} EndsGrow(log: seq<Event>, n: nat, c: nat)
    requires n <= |log|
    ensures EndCount(log[..n], c) <= EndCount(log, c)
    ensures (forall j :: n <= j < |log| ==> !Ends(log[j], c)) ==>
              EndCount(log[..n], c) == EndCount(log, c)
    ensures n < |log| && Ends(log[n], c) ==> EndCount(log[..n], c) < EndCount(log, c)
  {
    if n == |log| {
      assert log[..n] == log;
    } else {
      var less := log[..|log| - 1];
      EndsGrow(less, n, c);
      assert less[..n] == log[..n];
    }
  }

  lemma {:induction false} OwnEndIsOne(log: seq<Event>, c: nat, i: nat, j: nat)
    requires i < |log| && j < |log| && i != j && EndCount(log, c) <= 1 && Ends(log[i], c)
    ensures !Ends(log[j], c)
  {
    var n := |log| - 1;
    var lo := if i < j then i else j;
    EndsGrow(log, lo + 1, c);
    EndsGrow(log[..lo + 1], lo, c);
    EndsGrow(log, if i < j then j else i, c);
    EndsGrow(log[..if i < j then j else i], lo, c);
    assert log[..if i < j then j else i][..lo] == log[..lo];
  }

  /** Once the server's end has been seen, something decides. */
  lemma {:induction false} EndedIsDecided(seen: seq<Event>, c: nat, answer: Option<nat>)
    requires EndCount(seen, c) > 0
    ensures Decider(seen, c, answer).Some?
  {
    var n := |seen| - 1;
    if !Ends(seen[n], c) { EndedIsDecided(seen[..n], c, answer); }
  }

  /** If the runner posted no terminal event about the command, the server's own
      decides, whenever the answer came. */
  lemma OwnDecides(log: seq<Event>, n: nat, c: nat, r: nat)
    requires n <= |log| && EndCount(log, c) <= 1
    requires forall j :: 0 <= j < n && log[j].posted ==> !SaysEnded(log[j], c)
    requires Decider(log[..n], c, Some(r)).Some?
    ensures Decided(log[..n], c, Some(r)) == Recorded(log, c)
  {
    var d := Decider(log[..n], c, Some(r)).value;
    assert log[..n][d] == log[d];
    RecordedAt(log, c, d);
  }
}
