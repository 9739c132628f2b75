/** The guarantees of the reverse service, for every calm run from the start. */
module Theorems {
  import opened Wire
  import opened Framing
  import opened Audio
  import opened Service
  import opened Phases
  import opened Safety
  import opened Liveness
  import opened Completion

  /** No deadlock.  With queues that hold at least one chunk, the processes can stop only
  at rest, at their end, or with DSP waiting for the rest of an unframed channel. */
  lemma NoDeadlock(capacity: nat, acts: seq<Action>)
    requires capacity >= CHUNK_BYTES && CalmRun(capacity, INITIAL, acts)
    ensures var t := After(capacity, INITIAL, acts);
      Stuck(capacity, t) ==> Resting(t) || Ended(t) || Waiting(t, Left) || Waiting(t, Right)
  {
    InitialInv();
    RunKeepsInv(capacity, INITIAL, acts);
    var t := After(capacity, INITIAL, acts);
    var ph :| InPhase(ph, t);
    if Stuck(capacity, t) {
      OnlyUploadsStarve(capacity, ph, t);
    }
  }

  /** DSP has received all that the GUI sends of an unframed channel. */
  predicate Waiting(t: State, side: Side) {
    t.dsp.pc == Record(Upload, side) && !Framed(t.gui.audio.Channel(side)) && Silent(t)
  }

  lemma OnlyUploadsStarve(capacity: nat, ph: Phase, t: State)
    requires InPhase(ph, t) && Stuck(capacity, t) && capacity >= CHUNK_BYTES
    ensures Resting(t) || Ended(t) || Waiting(t, Left) || Waiting(t, Right)
  {
    if !Resting(t) && !Ended(t) && !Starved(ph, t) {
      var a := Progress(capacity, ph, t);
      assert false;
    }
    if Starved(ph, t) {
      ReversedKeepsLengths(t.gui.audio);
    }
  }

  /** Every message is read whole and alone. */
  lemma MessagesWhole(capacity: nat, acts: seq<Action>, p: Node, n: nat)
    requires CalmRun(capacity, INITIAL, acts)
    ensures var s := After(capacity, INITIAL, acts);
      Calm(capacity, s, Read(p, n)) && !s.At(p).pc.Record? ==> WholeMessage(s, p, n)
  {
    InitialInv();
    RunKeepsInv(capacity, INITIAL, acts);
    var s := After(capacity, INITIAL, acts);
    if Calm(capacity, s, Read(p, n)) && !s.At(p).pc.Record? {
      MessagesExact(capacity, s, Read(p, n));
    }
  }

  /** The reverse command, from the menu to the last step of any interleaving: the samples
  of both channels of the GUI have changed places, first with last, and all processes are
  back at their idle reads, if and only if neither length is a multiple of 1024. */
  lemma ReverseCommand(capacity: nat, before: seq<Action>, acts: seq<Action>)
    requires capacity >= CHUNK_BYTES && CalmRun(capacity, INITIAL, before)
    requires Calm(capacity, After(capacity, INITIAL, before), Choose(ReverseAudio))
    requires InternalRun(capacity, Next(capacity, After(capacity, INITIAL, before), Choose(ReverseAudio)), acts)
    ensures var s := After(capacity, INITIAL, before);
      var t := After(capacity, Next(capacity, s, Choose(ReverseAudio)), acts);
      && |acts| <= 22 * Unit(s.gui.audio) + 23
      && (Stuck(capacity, t) ==>
            && Outcome(s, t)
            && (Resting(t) <==> |s.gui.audio.left| % 1024 != 0 && |s.gui.audio.right| % 1024 != 0)
            && (Resting(t) ==>
                  && Backwards(s.gui.audio.left, t.gui.audio.left)
                  && Backwards(s.gui.audio.right, t.gui.audio.right)))
  {
    InitialInv();
    RunKeepsInv(capacity, INITIAL, before);
    ReverseCompletes(capacity, After(capacity, INITIAL, before), acts);
    ReversedBackwards(After(capacity, INITIAL, before).gui.audio);
  }

  /** The other commands. */
  lemma BriefCommand(capacity: nat, before: seq<Action>, c: Command, acts: seq<Action>)
    requires capacity >= CHUNK_BYTES && c != ReverseAudio && CalmRun(capacity, INITIAL, before)
    requires Calm(capacity, After(capacity, INITIAL, before), Choose(c))
    requires InternalRun(capacity, Next(capacity, After(capacity, INITIAL, before), Choose(c)), acts)
    ensures var s := After(capacity, INITIAL, before);
      var t := After(capacity, Next(capacity, s, Choose(c)), acts);
      && |acts| <= 44 && t.gui.audio == s.gui.audio && t.turns == s.turns
      && (Stuck(capacity, t) ==> if c == ExitProgram then Ended(t) else Resting(t))
  {
    InitialInv();
    RunKeepsInv(capacity, INITIAL, before);
    BriefCompletes(capacity, c, After(capacity, INITIAL, before), acts);
  }

  /** Every run can be continued without the user until nothing can move. */
  lemma AlwaysSettles(capacity: nat, acts: seq<Action>) returns (more: seq<Action>)
    requires CalmRun(capacity, INITIAL, acts)
    ensures InternalRun(capacity, After(capacity, INITIAL, acts), more)
    ensures Stuck(capacity, After(capacity, After(capacity, INITIAL, acts), more))
  {
    InitialInv();
    RunKeepsInv(capacity, INITIAL, acts);
    var s := After(capacity, INITIAL, acts);
    var ph :| InPhase(ph, s);
    ControlErrand(ph, s);
    more := RunsDry(capacity, ph, s);
  }
}
