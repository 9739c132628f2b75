/** What holds in every state of every calm run of the reverse service. */
module Safety {
  import opened Wire
  import opened Framing
  import opened Audio
  import opened Service
  import opened Phases

  lemma {:induction false} RunKeepsInv(capacity: nat, s: State, acts: seq<Action>)
    requires Inv(s) && CalmRun(capacity, s, acts)
    ensures Inv(After(capacity, s, acts))
    decreases |acts|
  {
    if acts != [] {
      StepKeepsInv(capacity, s, acts[0]);
      RunKeepsInv(capacity, Next(capacity, s, acts[0]), acts[1..]);
    }
  }

  /** The samples of `ys` are those of `xs` from the last to the first. */
  predicate Backwards(xs: seq<Sample>, ys: seq<Sample>) {
    |ys| == |xs| && forall k :: 0 <= k < |xs| ==> ys[k] == xs[|xs| - 1 - k]
  }

  lemma ReversedBackwards(a: Audio)
    ensures Backwards(a.left, ReversedAudio(a).left) && Backwards(a.right, ReversedAudio(a).right)
  {
  }

  /** The GUI always holds the loaded file, reversed as often as it asked: after an even
  number of completed commands the file itself, after an odd number each channel of it
  from the last sample to the first. */
  lemma GuiAudio(capacity: nat, acts: seq<Action>)
    requires CalmRun(capacity, INITIAL, acts)
    ensures var t := After(capacity, INITIAL, acts);
      if t.turns % 2 == 0 then t.gui.audio == t.original
      else Backwards(t.original.left, t.gui.audio.left) && Backwards(t.original.right, t.gui.audio.right)
  {
    InitialInv();
    RunKeepsInv(capacity, INITIAL, acts);
    var t := After(capacity, INITIAL, acts);
    var ph :| InPhase(ph, t);
    ReversedTimesParity(t.original, t.turns);
    ReversedBackwards(t.original);
  }

  /** Of the four queues of the two connections at most one holds anything. */
  predicate OneQueueInUse(s: State) {
    && (s.gd != "" ==> s.dg == "" && s.dr == "" && s.rd == "")
    && (s.dg != "" ==> s.gd == "" && s.dr == "" && s.rd == "")
    && (s.dr != "" ==> s.gd == "" && s.dg == "" && s.rd == "")
    && (s.rd != "" ==> s.gd == "" && s.dg == "" && s.dr == "")
  }

  lemma ControlHalfDuplex(ph: Phase, s: State)
    requires Control(ph, s)
    ensures OneQueueInUse(s)
  {
    if IsBurst(ph) {
      BurstFits(ph);
    }
  }

  lemma HalfDuplex(capacity: nat, acts: seq<Action>)
    requires CalmRun(capacity, INITIAL, acts)
    ensures OneQueueInUse(After(capacity, INITIAL, acts))
  {
    InitialInv();
    RunKeepsInv(capacity, INITIAL, acts);
    var t := After(capacity, INITIAL, acts);
    var ph :| InPhase(ph, t);
    ControlHalfDuplex(ph, t);
  }

  /** No process has failed, and none that writes, or that waits with nothing left to
  read, has lost its connection. */
  predicate Connected(s: State) {
    forall p :: s.At(p).pc != Failed && PeerThere(s, p)
  }

  predicate PeerThere(s: State, p: Node) {
    var pc := s.At(p).pc;
    && (Speaking(pc) ==> !Closed(s, Peer(pc), p))
    && (Listening(pc) && s.Queue(Peer(pc), p) == "" ==> !Closed(s, Peer(pc), p))
  }

  lemma NobodyFailed(ph: Phase, s: State, p: Node)
    requires Control(ph, s)
    ensures s.At(p).pc != Failed
  {
    if IsBurst(ph) {
      BurstFits(ph);
      assert p == BurstOf(ph).src || p == BurstOf(ph).dst || p == Third(BurstOf(ph));
    }
  }

  /** Only the sender of a burst writes, and its receiver is there. */
  lemma WriterHasReader(ph: Phase, s: State, p: Node)
    requires Control(ph, s) && Speaking(s.At(p).pc)
    ensures !Closed(s, Peer(s.At(p).pc), p)
  {
    OnlySenderWrites(ph, s, p);
    BurstFits(ph);
  }

  lemma OnlySenderWrites(ph: Phase, s: State, p: Node)
    requires Control(ph, s) && Speaking(s.At(p).pc)
    ensures IsBurst(ph) && p == BurstOf(ph).src && s.At(p).pc == BurstOf(ph).from
  {
    if IsBurst(ph) {
      BurstFits(ph);
    }
  }

  /** In every calm run no exception is thrown for a connection that its peer has closed. */
  lemma NobodyFails(capacity: nat, acts: seq<Action>)
    requires CalmRun(capacity, INITIAL, acts)
    ensures Connected(After(capacity, INITIAL, acts))
  {
    InitialInv();
    RunKeepsInv(capacity, INITIAL, acts);
    var t := After(capacity, INITIAL, acts);
    var ph :| InPhase(ph, t);
    forall p
      ensures t.At(p).pc != Failed && PeerThere(t, p)
    {
      NobodyFailed(ph, t, p);
      if Speaking(t.At(p).pc) {
        WriterHasReader(ph, t, p);
      }
      NoFailure(capacity, ph, t, p);
      NotEnabledThere(capacity, t, p);
    }
  }

  lemma NotEnabledThere(capacity: nat, s: State, p: Node)
    requires !Enabled(capacity, s, Fail(p)) && (Speaking(s.At(p).pc) ==> !Closed(s, Peer(s.At(p).pc), p))
    ensures PeerThere(s, p)
  {
  }

  /** A read of `n` bytes by `p` returns exactly one message, one that the caller knows,
  and leaves nothing behind. */
  ghost predicate WholeMessage(s: State, p: Node, n: nat)
    requires Listening(s.At(p).pc)
  {
    var pc := s.At(p).pc;
    var text := s.Queue(Peer(pc), p);
    && n == |text|
    && (pc.AwaitConfirm? ==> text == "CONFIRMED")
    && (pc.Hear? ==> exists m :: HeardAt(m) == pc.h && Author(m) == Peer(pc) && text == Text(m))
  }

  lemma MessagesExact(capacity: nat, s: State, a: Action)
    requires Inv(s) && Calm(capacity, s, a) && a.Read? && !s.At(a.p).pc.Record?
    ensures WholeMessage(s, a.p, a.n)
  {
    var ph :| InPhase(ph, s);
    ReaderInBurst(capacity, ph, s, a);
    BurstFits(ph);
    var b := BurstOf(ph);
    TextRead(capacity, s, b, Rest(ph, s), a);
    if ph.Talking? {
      assert HeardAt(ph.m) == b.at.h && Author(ph.m) == b.src;
    }
  }

  /** While a process writes its right channel, the other end is in its loop for the
  right channel and has the whole left one. */
  lemma RightAfterLeft(ph: Phase, leg: Leg, s: State)
    requires InPhase(ph, s) && s.At(Sender(leg)).pc == Play(leg, Right)
    ensures var y := s.At(Receiver(leg));
      y.pc == Record(leg, Right) && y.box.left == s.At(Sender(leg)).audio.left
  {
    OnlySenderWrites(ph, s, Sender(leg));
    BurstFits(ph);
  }

  lemma ServiceBarrier(capacity: nat, acts: seq<Action>, leg: Leg)
    requires CalmRun(capacity, INITIAL, acts)
    ensures var t := After(capacity, INITIAL, acts);
      t.At(Sender(leg)).pc == Play(leg, Right) ==>
        && t.At(Receiver(leg)).pc == Record(leg, Right)
        && t.At(Receiver(leg)).box.left == t.At(Sender(leg)).audio.left
  {
    InitialInv();
    RunKeepsInv(capacity, INITIAL, acts);
    var t := After(capacity, INITIAL, acts);
    var ph :| InPhase(ph, t);
    if t.At(Sender(leg)).pc == Play(leg, Right) {
      RightAfterLeft(ph, leg, t);
    }
  }
}
