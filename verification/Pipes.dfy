/** The `Pipe` class: messages and audio over one socket, as one process runs it. */
module Pipes {
  import opened Wire
  import opened Framing
  import opened Audio

  datatype Option<+T> = None | Some(value: T)

  /** How send_audio ends: it returned true or false, or it waits for ever. */
  datatype Verdict = Delivered | Refused | Blocked

  const ZERO := Sample('\0', '\0', '\0', '\0')

  class Pipe {
    /** What the successive `read_some` calls will find; a read after the last entry
    never returns. */
    var incoming: seq<string>
    /** What the completed `write` calls have sent, one entry for each call. */
    var outgoing: seq<string>
    var connected: bool

    constructor (incoming: seq<string>)
      ensures this.incoming == incoming && outgoing == [] && !connected
    {
      this.incoming := incoming;
      outgoing := [];
      connected := false;
    }

    method Connect()
      modifies `connected
      ensures connected
    {
      connected := true;
    }

    method Disconnect()
      modifies `connected
      ensures !connected
    {
      connected := false;
    }

    method SendMessage(message: string) returns (writeSize: nat)
      modifies `outgoing
      ensures outgoing == old(outgoing) + [message] && writeSize == |message|
    {
      outgoing := outgoing + [message];
      writeSize := |message|;
    }

    /** Returns nothing when the read never returns. */
    method RecvMessage() returns (message: Option<string>)
      requires NoEmptyRead(incoming)
      modifies `incoming
      ensures NoEmptyRead(incoming)
      ensures old(incoming) == [] ==> message == None && incoming == []
      ensures old(incoming) != [] ==>
        message == Some(ReadSome(old(incoming), CHUNK_SIZE).0) && incoming == ReadSome(old(incoming), CHUNK_SIZE).1
    {
      if incoming == [] {
        return None;
      }
      var (text, rest) := ReadSome(incoming, CHUNK_SIZE);
      incoming := rest;
      return Some(text);
    }

    /** The inner loop of send_audio: fills `chunkedSamples`, which is cut when the channel
    ends. */
    static method FillChunk(samples: seq<Sample>, start: nat, chunkedSamples: seq<Sample>)
      returns (chunk: seq<Sample>, bufferIdx: nat, writeDone: bool)
      requires start < |samples| && start % CHUNK_SIZE == 0 && |chunkedSamples| == CHUNK_SIZE
      ensures writeDone <==> |samples| - start <= CHUNK_SIZE
      ensures if writeDone then bufferIdx == |samples| && chunk == samples[start..][..|samples| % CHUNK_SIZE]
              else bufferIdx == start + CHUNK_SIZE && chunk == samples[start..][..CHUNK_SIZE]
    {
      chunk, bufferIdx, writeDone := chunkedSamples, start, false;
      var i := 0;
      while i < CHUNK_SIZE
        invariant i <= CHUNK_SIZE && |chunk| == CHUNK_SIZE
        invariant bufferIdx == start + i && bufferIdx < |samples|
        invariant forall k :: 0 <= k < i ==> chunk[k] == samples[start + k]
      {
        chunk := chunk[i := samples[bufferIdx]];
        bufferIdx := bufferIdx + 1;
        if bufferIdx >= |samples| {
          chunk := chunk[..bufferIdx % CHUNK_SIZE];
          return chunk, bufferIdx, true;
        }
        i := i + 1;
      }
    }

    /** The loop of send_audio for one channel.  Element 0 has to exist. */
    method SendChannel(samples: seq<Sample>)
      requires samples != []
      modifies `outgoing
      ensures outgoing == old(outgoing) + ChunkWrites(samples)
    {
      var chunkedSamples := seq(CHUNK_SIZE, _ => ZERO);
      var bufferIdx := 0;
      var writeDone := false;
      while !writeDone
        invariant |chunkedSamples| == CHUNK_SIZE || writeDone
        invariant bufferIdx % CHUNK_SIZE == 0 || writeDone
        invariant !writeDone ==> bufferIdx < |samples|
        invariant writeDone ==> outgoing == old(outgoing) + ChunkWrites(samples)
        invariant !writeDone ==> outgoing + ChunkWrites(samples[bufferIdx..]) == old(outgoing) + ChunkWrites(samples)
        decreases |samples| - bufferIdx, !writeDone
      {
        ghost var rest := samples[bufferIdx..];
        chunkedSamples, bufferIdx, writeDone := FillChunk(samples, bufferIdx, chunkedSamples);
        ChunkWritesStep(rest);
        MoveOne(outgoing, Encode(chunkedSamples), if writeDone then [] else ChunkWrites(rest[CHUNK_SIZE..]));
        if !writeDone {
          assert rest[CHUNK_SIZE..] == samples[bufferIdx..];
        }
        outgoing := outgoing + [Encode(chunkedSamples)];
      }
    }

    /** The inner loop of recv_audio: makes room in the container and copies. */
    static method Append(container: seq<Sample>, recv: seq<Sample>) returns (longer: seq<Sample>)
      ensures longer == container + recv
    {
      var bufferIdx := |container|;
      longer := container + seq(|recv|, _ => ZERO);
      for i := 0 to |recv|
        invariant bufferIdx == |container| + i && |longer| == |container| + |recv|
        invariant longer[..bufferIdx] == container + recv[..i]
      {
        longer := longer[bufferIdx := recv[i]];
        bufferIdx := bufferIdx + 1;
      }
    }

    /** The loop of recv_audio for one channel. */
    method RecvChannel() returns (container: seq<Sample>, ended: bool)
      requires NoEmptyRead(incoming)
      modifies `incoming
      ensures NoEmptyRead(incoming)
      ensures Reception(container, incoming, ended) == Receive(old(incoming))
    {
      container := [];
      ended := false;
      while incoming != [] && !ended
        invariant NoEmptyRead(incoming)
        invariant ended ==> Receive(old(incoming)) == Reception(container, incoming, true)
        invariant !ended ==> var r := Receive(incoming);
          Receive(old(incoming)) == r.(got := container + r.got)
        decreases |Flatten(incoming)|, !ended
      {
        ReadSomeKeepsBytes(incoming, CHUNK_BYTES);
        ReceiveTurn(incoming, container);
        var (bytes, rest) := ReadSome(incoming, CHUNK_BYTES);
        incoming := rest;
        var recv := Decode(bytes);
        container := Append(container, recv);
        if |recv| < CHUNK_SIZE {
          ended := true;
        }
      }
      assert container + [] == container;
    }

    /** Left channel, wait for "CONFIRMED", right channel. */
    method SendAudio(samples: Audio) returns (verdict: Verdict)
      requires samples.NonEmpty() && NoEmptyRead(incoming)
      modifies this
      ensures connected == old(connected) && NoEmptyRead(incoming)
      ensures verdict.Blocked? <==> old(incoming) == []
      ensures old(incoming) == [] ==> incoming == []
      ensures old(incoming) != [] ==>
        && incoming == ReadSome(old(incoming), CHUNK_SIZE).1
        && (verdict.Delivered? <==> ReadSome(old(incoming), CHUNK_SIZE).0 == "CONFIRMED")
      ensures outgoing == old(outgoing) + ChunkWrites(samples.left)
                          + (if verdict.Delivered? then ChunkWrites(samples.right) else [])
    {
      SendChannel(samples.left);
      var answer := RecvMessage();
      if answer.None? {
        return Blocked;
      }
      if answer.value != "CONFIRMED" {
        return Refused;
      }
      SendChannel(samples.right);
      return Delivered;
    }

    /** Returns nothing when one of the loops never ends. */
    method RecvAudio() returns (container: Option<Audio>)
      requires NoEmptyRead(incoming)
      modifies this
      ensures connected == old(connected) && NoEmptyRead(incoming)
      ensures var left := Receive(old(incoming)); var right := Receive(left.rest);
        && (container.Some? <==> left.ended && right.ended)
        && (container.Some? ==> container.value == Audio(left.got, right.got))
        && incoming == (if left.ended then right.rest else left.rest)
        && outgoing == old(outgoing) + (if left.ended then ["CONFIRMED"] else [])
    {
      var left, ended := RecvChannel();
      if !ended {
        return None;
      }
      var _ := SendMessage("CONFIRMED");
      var right;
      right, ended := RecvChannel();
      if !ended {
        return None;
      }
      return Some(Audio(left, right));
    }
  }

  /** One turn of the loop of recv_audio, with `container` already received. */
  lemma ReceiveTurn(incoming: seq<string>, container: seq<Sample>)
    requires incoming != [] && NoEmptyRead(incoming)
    ensures var (bytes, rest) := ReadSome(incoming, CHUNK_BYTES);
      var recv, r := Decode(bytes), Receive(incoming);
      && NoEmptyRead(rest)
      && r.(got := container + r.got) ==
           if |recv| < CHUNK_SIZE then Reception(container + recv, rest, true)
           else Receive(rest).(got := (container + recv) + Receive(rest).got)
  {
    var (bytes, rest) := ReadSome(incoming, CHUNK_BYTES);
    var recv, more := Decode(bytes), Receive(rest).got;
    assert container + (recv + more) == (container + recv) + more;
  }

  lemma MoveOne(front: seq<string>, x: string, back: seq<string>)
    ensures front + ([x] + back) == (front + [x]) + back
    ensures front + [x] + [] == front + [x]
  {
  }

  /** A framed audio buffer sent chunk by chunk arrives whole, and nothing that follows it
  is touched. */
  lemma AudioRoundTrip(a: Audio, tail: seq<string>)
    requires a.IsFramed() && NoEmptyRead(tail)
    ensures var incoming := ChunkWrites(a.left) + (ChunkWrites(a.right) + tail);
      && NoEmptyRead(incoming)
      && var left := Receive(incoming);
      && var right := Receive(left.rest);
      && left.ended && right.ended
      && Audio(left.got, right.got) == a && right.rest == tail
  {
    ReceiveChunks(a.right, tail);
    ReceiveChunks(a.left, ChunkWrites(a.right) + tail);
  }
}
