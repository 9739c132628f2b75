# WaveTech Audio Editor: reverse service, time stretcher and stream buffer

A Dafny model of three parts of WaveTech, with proofs.

* **The reverse service.** The GUI, the DSP coordinator and the Reverse service are three
  processes joined by two TCP connections. Audio goes from the GUI to DSP, to Reverse, back
  to DSP and back to the GUI. There are no length headers: a channel is cut into chunks of
  1024 floats and ends with a short chunk, and a `"CONFIRMED"` message separates the left
  channel from the right one.
* **The time stretcher** `sola`: overlap-add of frames of 4000 samples with a linear
  crossfade.
* **The sliding byte buffer** `basic_streambuf` of asio, seen as a queue of bytes.

## How the model is built

| file | what it holds |
|---|---|
| `Wire.dfy`, `Framing.dfy`, `Audio.dfy` | bytes, floats as four bytes, chunking, the receive loop as a function of the read schedule, reversal |
| `Pipes.dfy`, `Programs.dfy` | the `Pipe` class and one turn of each main program as imperative code; in-place reversal |
| `Service.dfy` | the three processes as a state machine: program points, blocking calls, queues of limited capacity |
| `Phases.dfy` | the invariant: which phases the processes go through together |
| `Safety.dfy`, `Liveness.dfy`, `Completion.dfy` | what holds in every run, what every step lowers, where runs end |
| `Theorems.dfy` | the guarantees of the service, for every calm run from the start |
| `Coalescing.dfy` | what happens when commands are not read one by one |
| `Transfer.dfy` | one transfer under every schedule of partial reads and writes |
| `Agreement.dfy` | the bytes that a run of the state machine hands over are those that the imperative programs write |
| `Conformance.dfy` | every turn of an imperative program is a path of its process in the state machine, whatever its reads find |
| `Sola.dfy`, `StretchTheory.dfy` | the stretcher in place, and what it computes |
| `StreamBuf.dfy`, `Fifo.dfy` | the buffer and its refinement of a queue |

A step of the state machine hands any number of bytes of a blocking write to a queue, lets
one `read_some` take any number of bytes that its buffer has room for, runs one local
statement, or ends a process by an exception because its read finds the queue empty and the
connection closed by the peer, or because its connect is refused. Runs interleave the
processes in any way. A run is *calm* when

* every read fills its buffer or takes the last bytes of what the peer is writing
  (`Settled`), and
* the user gives a command only when the previous one has been read (`Patient`).

Both are needed. Without the first a channel ends too early; `Transfer.dfy` says what still
holds then. Without the second, `"shift"` and `"stretch"`, which are never answered, are
still in the queue when the next command arrives, and DSP reads the queue in blocks of up to
1024 bytes. A `"reverse"` or `"exit"` is then understood if and only if what is unread in
front of it is a multiple of 1024 bytes long (`Coalescing.ImpatientCommand`). Otherwise it is
thrown away: after `"reverse"` the GUI and DSP wait for each other for ever; after `"exit"`
the GUI has closed the connection, DSP ends by an exception at the end of the stream without
a word to Reverse, and Reverse waits for a connection that never comes.

## Where the code does less than it promises

* A channel whose length is a multiple of 1024 is never received: its last chunk is cut to
  nothing, no short chunk is written, and the receiver waits for ever. A reverse command
  completes if and only if neither channel has such a length
  (`Theorems.ReverseCommand`).
* The guard of the stretcher's loop subtracts unsigned numbers. The loop stays inside its
  input if and only if the input is at least `2 * (frame_skip + 800)` samples long
  (`StretchTheory.ReadsInsideExactly`). On a shorter input the guard holds in every turn and
  both buffers grow until a `resize` throws; `sola` returns if and only if the input is long
  enough and the result fits in a vector (`Sola.Sola`).
* A `prepare` that throws has already compacted the vector but not moved the pointers, so the
  queue slides from under them. The bytes in the queue survive that, whatever they are, if
  and only if nothing has been taken out since the last compaction or at least as much as is
  left (`Fifo.FailedPrepareKeepsQueue`). A caller does not see when compactions happen. With
  a maximum of 128 bytes, 100 put in, 10 taken out and 100 asked for, the head of the queue
  changes from the eleventh byte to the twenty-first (`Fifo.FailedPrepareLosesBytes`).

## Model

| member | source | states |
|---|---|---|
| Wire.DecodePrefix | source/Pipe.hpp:301-311 | cutting a float stream after any number of bytes yields exactly the floats that arrived whole |
| Framing.ChunkSizes | source/Pipe.hpp:225-248 | the channel is cut into full chunks and one last chunk of length modulo 1024 |
| Framing.WriteSizes | source/Pipe.hpp:239-241 | the number of writes for a channel, and their sizes in bytes: 4096 each, and four times the length modulo 1024 for the last |
| Framing.ChunksFlatten | source/Pipe.hpp:225-248 | the chunks together are the channel, or all but its last 1024 samples when the length is a multiple of 1024 |
| Framing.WritesFlatten | source/Pipe.hpp:239-241 | the bytes of all the writes are the stream of the channel |
| Framing.SentWhole | source/Pipe.hpp:233-234 | the whole channel is sent exactly when its length is not a multiple of 1024 |
| Framing.ReceiveAnySchedule | source/Pipe.hpp:298-316 | for every read schedule the loop collects a prefix of the stream, and all of it exactly when the short read is the one that takes its end |
| Framing.ReceiveChunks | source/Pipe.hpp:295-316 | chunk by chunk, a framed channel comes back whole and nothing after it is touched |
| Framing.ReceiveBlocks | source/Pipe.hpp:295-316 | the same however much of the channel a read finds, as long as no chunk is cut |
| Framing.ReceiveUntilShort | source/Pipe.hpp:298-316 | whatever the bytes are, the loop is left by the first read below a full chunk, with all the floats up to there and the later reads untouched |
| Framing.ReceivePair | source/Pipe.hpp:295-341 | two framed channels back to back are decoded uniquely |
| Framing.ReceiveUnframedBlocks | source/Pipe.hpp:312-315 | for a multiple of 1024 the loop never ends |
| Audio.ReversedTimesParity | source/reverse.cpp:21-29 | an even number of reversals is the identity, an odd number is one reversal |
| Pipes.Pipe.FillChunk | source/Pipe.hpp:231-238 | one chunk is filled from the channel, and cut at the channel's end |
| Pipes.Pipe.SendChannel | source/Pipe.hpp:225-248 | the writes for a channel are exactly its chunks, in order |
| Pipes.Pipe.RecvChannel | source/Pipe.hpp:295-316 | the receive loop yields what `Receive` says, and leaves the other reads |
| Pipes.Pipe.SendAudio | source/Pipe.hpp:219-281 | left channel, then the right channel if and only if the answer is "CONFIRMED" |
| Pipes.Pipe.RecvAudio | source/Pipe.hpp:285-343 | both loops with one "CONFIRMED" between them |
| Pipes.AudioRoundTrip | source/Pipe.hpp:219-343 | what send_audio writes for framed audio, recv_audio turns back into that audio |
| Programs.ReverseChannel | source/reverse.cpp:27 | swapping inwards from both ends puts at every index the sample that was at the mirrored one |
| Programs.Reverse | source/reverse.cpp:21-29 | every channel of the buffer is reversed, sample by sample |
| Programs.ReverseTurn | source/reverse.cpp:36-64 | on "exit" Reverse disconnects and returns without a word; for whatever else its reads find, the turn ends, writes and leaves its pipe as `ReverseServes` says, which `Conformance.ReverseConforms` ties to the state machine |
| Programs.DspTurn | source/dsp.cpp:30-89 | on "exit" DSP sends exactly "exit" to Reverse, disconnects from the GUI and returns; "shift" and "stretch" change nothing; for whatever else the reads find, both pipes become what `DspServes` says, which `Conformance.DspTurnConforms` ties to the state machine |
| Programs.GuiProgram.ReverseAudioEffect | source/gui.cpp:95-117 | without a file nothing happens; with one, for whatever the reads find, the pipe and the samples become what `GuiReverses` says |
| Programs.ReverseFollowsOrders | source/reverse.cpp:43-57 | whenever the reads bring an order to reverse a, however they are cut, Reverse replies with the reversal of a and disconnects |
| Programs.DspFollowsCommands | source/dsp.cpp:43-77 | whenever the reads bring a reverse command for a from the GUI and a reply with b from Reverse, DSP passes a to Reverse and b to the GUI and reads no further |
| Programs.GuiFollowsAnswers | source/gui.cpp:103-108 | whenever the reads bring an answer with b, the GUI has written the command for its audio and ends with b |
| Programs.GuiProgram.ExitProgram | source/gui.cpp:55-59 | "exit" is sent and the exit flag set |
| Programs.Session | source/dsp.cpp:43-77 | the three programs fit together: each writes what the other was fed with, and the GUI ends with reversed audio |
| Programs.ExitSession | source/dsp.cpp:78-88 | what the GUI writes on exit makes DSP stop, and what DSP then writes makes Reverse stop; neither writes a word back, and both accepted pipes are disconnected |
| Conformance.ReverseConforms | source/reverse.cpp:36-64 | for whatever its reads find, a turn of the Reverse program and the path of the Reverse process write the same bytes, leave the same reads and end alike |
| Conformance.GuiConforms | source/gui.cpp:95-117 | the same for the reverse command of the GUI, with the same samples afterwards |
| Conformance.DspTurnConforms | source/dsp.cpp:30-89 | the same for a turn of DSP with both its pipes |
| Agreement.RunHands | source/Pipe.hpp:193-281 | along any calm run of a command, the bytes a process has handed over, followed by those that its write and the later phases still hold, stay the same |
| Agreement.PhasesFollowScript | source/dsp.cpp:43-77 | the bytes of all the phases, in each of the four directions, are those of the scripts that the programs write |
| Agreement.SameBytes | source/dsp.cpp:30-89 | in every calm run of any of the four commands each process has at every moment handed over a beginning of what its sequential program writes, and all of it when all are at rest or have ended |
| Phases.StepFollowsPhases | source/dsp.cpp:30-89 | one step of any process keeps the phase of the service or moves it to the next one |
| Phases.StepKeepsInv | source/dsp.cpp:30-89 | every calm step of every process, and of the user, keeps the invariant |
| Safety.GuiAudio | source/gui.cpp:95-117 | in every run the GUI holds the loaded file after an even number of completed commands, and after an odd number each of its channels from the last sample to the first |
| Safety.HalfDuplex | source/Pipe.hpp:193-214 | in every run at most one of the four queues holds anything |
| Theorems.MessagesWhole | source/Pipe.hpp:200-214 | in every calm run a recv_message returns exactly one sent message, known to its caller, never two joined |
| Safety.NobodyFails | source/Pipe.hpp:193-214 | in every calm run nobody writes to a closed connection or waits on one with nothing left to read, and no process has ended by an exception |
| Safety.ServiceBarrier | source/Pipe.hpp:250-258 | while a right channel is written its receiver is in the right loop and has the whole left channel |
| Liveness.StepLowersEnergy | source/dsp.cpp:43-77 | every step without the user lowers one measure over phases and bytes still to move |
| Theorems.NoDeadlock | source/Pipe.hpp:219-343 | with queues of any capacity of at least one chunk the processes stop only at rest, at their end, or with DSP waiting for the rest of a channel of a multiple of 1024 samples |
| Completion.RunBounded | source/dsp.cpp:43-77 | a run between two commands is no longer than the measure |
| Theorems.AlwaysSettles | source/dsp.cpp:30-89 | every run can go on without the user until nothing can move |
| Theorems.ReverseCommand | source/dsp.cpp:43-77 | a reverse command ends after a number of steps linear in the audio, with every sample of the GUI at the mirrored index and all processes at their idle reads, if and only if neither channel length is a multiple of 1024 |
| Theorems.BriefCommand | source/dsp.cpp:78-88 | after exit all three processes end; after shift or stretch all are at rest again with the audio unchanged |
| Coalescing.ImpatientCommand | source/dsp.cpp:32-89 | reverse or exit given behind unread commands: in every interleaving it is served in full if what is unread is a multiple of 1024 bytes, and has no effect otherwise, with the state in which everything then stops |
| Coalescing.Drained | source/Pipe.hpp:200-214 | the reads that empty the queue end with DSP answering or calling Reverse if and only if what was unread is a multiple of 1024 bytes |
| Coalescing.PilesUp | source/gui.cpp:119-127 | such states are reached from the start, for any unanswered commands that the queue can hold |
| Coalescing.ImpatientExit | source/gui.cpp:55-59 | from the start to the end: a run with unanswered commands just before exit; all processes end if they fill whole blocks, otherwise DSP ends by an exception and Reverse waits on |
| Transfer.ScheduleKeepsInv | source/Pipe.hpp:219-343 | under every schedule the bytes of both channels stay in order and whole |
| Transfer.Barrier | source/Pipe.hpp:250-258 | under every schedule no right-channel byte is under way before the receiver has left its left loop |
| Transfer.NeverMixed | source/Pipe.hpp:295-342 | under every schedule the left channel received is a prefix; if it is complete the right one is a prefix of the right channel |
| Transfer.EarlyEndMixes | source/Pipe.hpp:312-342 | a left loop that ends early leaves the rest of the left stream to the right loop |
| Transfer.WholeExactly | source/Pipe.hpp:295-342 | under every schedule the receiver has what was sent exactly when each loop has taken all the bytes of its channel |
| Transfer.Verdict | source/Pipe.hpp:250-280 | under every schedule send_audio goes on to the right channel, and returns true after it, exactly when its read returned the whole of "CONFIRMED"; it returns false exactly when that read was shorter |
| Transfer.LoopsEndOnShortReads | source/Pipe.hpp:312-342 | under every schedule each loop is left by its first read below 4096 bytes, and the receiver has finished only after both |
| Transfer.TransferCompletes | source/Pipe.hpp:219-343 | for framed audio, in every schedule whose reads fill their buffers or take the last bytes: when no such move is possible any more the receiver has finished with the audio sent, send_audio returns true and nothing is left; and that comes after a number of moves linear in the audio |
| Sola.BufferCopyPart | source/stretch.cpp:52-83 | a stretch of both channels is written over the destination, both buffers being made long enough, which throws exactly when one would exceed a vector |
| Sola.CopiedSample | source/stretch.cpp:61-82 | what each sample of the destination is after that copy |
| Sola.BufferCopyFull | source/stretch.cpp:29-50 | all channels are copied, whatever the destination held |
| Sola.WindowBuffers | source/stretch.cpp:88-121 | the first buffer becomes the linear crossfade of the two, in both channels |
| Sola.FadedSample | source/stretch.cpp:96-120 | what each sample is after the crossfade, for buffers of any two lengths |
| Sola.AddFrame | source/stretch.cpp:147-172 | one turn of the loop appends the frame of the input, grown by as much as the frame reads beyond its end; both cursors stay where the lengths say |
| Sola.OverlapAdd | source/stretch.cpp:145-173 | the loop returns exactly when the input is long enough and the result fits in a vector, and then with the stretched channels and the input untouched |
| Sola.Sola | source/stretch.cpp:123-177 | with the frame skip 3200 times the scale without the fraction, sola returns exactly when the input has 2 * (skip + 800) samples and the result fits in a vector; then the caller's buffer holds both channels stretched |
| Sola.FrameSkipExact | source/stretch.cpp:132 | the frame skip is the one number with skip <= 3200 * scale < skip + 1 |
| Sola.ClampedSkip | source/stretch.cpp:199-206 | up to a ratio of 0.5 the skip is 1600, from 2 on it is 6400, in between it is 3200 times the ratio without the fraction |
| StretchTheory.StretchRequest | source/stretch.cpp:199-212 | from the ratio and the received buffer alone: when the call throws, the length of the result, and every sample of both channels |
| StretchTheory.FrameCount | source/stretch.cpp:145 | the number of frames in closed form |
| StretchTheory.FramesFit | source/stretch.cpp:145 | the counted frames are exactly those that the guard lets in |
| StretchTheory.UnreadInput | source/stretch.cpp:145-172 | between frame_skip - 800 and 2 * frame_skip + 1600 input samples are left unread |
| StretchTheory.StretchedLength | source/stretch.cpp:131-175 | the exact length of the result |
| StretchTheory.ClosedForm | source/stretch.cpp:145-173 | every output sample as an expression of one or two input samples |
| StretchTheory.NoClick | source/stretch.cpp:112-120 | neighbours in the whole output, seams included, differ by at most d + m/400 when those of the input differ by at most d and no sample exceeds m |
| StretchTheory.StretchLinear | source/stretch.cpp:112-120 | stretching is linear in the samples |
| StretchTheory.StretchWithin | source/stretch.cpp:112-120 | the result stays in the range of the input |
| StretchTheory.StretchNeutral | source/stretch.cpp:157-172 | with frame_skip equal to the overlap the result is the beginning of the input |
| StretchTheory.StretchStable | source/stretch.cpp:145-175 | more input only adds to the end of the result |
| StretchTheory.ReadsInsideExactly | source/stretch.cpp:145 | every frame entered reads inside the input if and only if the input is long enough for the guard's subtraction |
| StreamBuf.BasicStreambuf.constructor | dependencies/asio/include/asio/basic_streambuf.hpp:131-141 | a new buffer is an empty queue and has min(max_size, 128) bytes of room |
| StreamBuf.BasicStreambuf.Reserve | dependencies/asio/include/asio/basic_streambuf.hpp:308-346 | exactly how much room is made, without touching the queue; it throws exactly when size() + n exceeds max_size(), and then the queue has slid by what was taken out since the last compaction |
| StreamBuf.BasicStreambuf.Prepare | dependencies/asio/include/asio/basic_streambuf.hpp:214-219 | n bytes behind the queue, or length_error exactly when size() + n exceeds max_size(); what the queue is after length_error, and when that is what it was |
| StreamBuf.BasicStreambuf.Commit | dependencies/asio/include/asio/basic_streambuf.hpp:233-238 | min(n, room) bytes of the put area join the queue |
| StreamBuf.BasicStreambuf.Consume | dependencies/asio/include/asio/basic_streambuf.hpp:247-254 | min(n, size) bytes leave the queue |
| StreamBuf.BasicStreambuf.Underflow | dependencies/asio/include/asio/basic_streambuf.hpp:263-274 | the head of the queue, or eof, and the whole queue becomes readable |
| StreamBuf.BasicStreambuf.Overflow | dependencies/asio/include/asio/basic_streambuf.hpp:283-306 | a character joins the queue, with exactly so much room made for more, and it throws exactly when the queue holds max_size() bytes; eof leaves the queue alone and is answered by something else than eof |
| StreamBuf.BasicStreambuf.Sputc | dependencies/asio/include/asio/basic_streambuf.hpp:110-112 | the inherited put appends through either path |
| StreamBuf.BasicStreambuf.Sbumpc | dependencies/asio/include/asio/basic_streambuf.hpp:110-112 | the inherited get takes the head through either path |
| StreamBuf.BasicStreambuf.ReadSizeHelper | dependencies/asio/include/asio/basic_streambuf.hpp:353-359 | a size for which prepare cannot throw, and the largest such within the caller's limit and the larger of 512 and what the vector has left |
| Fifo.Replay | dependencies/asio/include/asio/basic_streambuf.hpp:37-104 | over any run of calls the buffer answers as a queue does, up to the first exception, which comes at the same call |
| Fifo.FirstInFirstOut | dependencies/asio/include/asio/basic_streambuf.hpp:39-47 | the bytes taken out, as the replies tell them, followed by those inside, are the bytes put in; never more than max_size() inside |
| Fifo.PeekShowsNext | dependencies/asio/include/asio/basic_streambuf.hpp:263-274 | looking at the head changes nothing and shows what is taken out next |
| Fifo.FailedPrepare | dependencies/asio/include/asio/basic_streambuf.hpp:308-346 | a prepare made to fail from a new buffer: it throws exactly above the maximum, and leaves the queue slid by the bytes taken out before |
| Fifo.FailedPrepareKeepsQueue | dependencies/asio/include/asio/basic_streambuf.hpp:321-340 | a queue slid like that is the same, whatever its bytes, exactly when nothing was taken out or at least as much as is left |
| Fifo.FailedPrepareLosesBytes | dependencies/asio/include/asio/basic_streambuf.hpp:321-340 | a concrete case in which the head of the queue changes |

## Left out

- Sockets: connect is a rendezvous with accept, a close does not discard bytes in flight and bytes arrive in order (section 2.2 of RFC 9293). The end of a stream is modelled; connections do not break while both ends are open, and a write to a peer that has gone is not made to fail (`Safety.NobodyFails`: no calm run has one).
- The `Pipe` class: a read after the last that its peer serves does not return; whether it waits for ever or throws at the end of the stream is told apart by the state machine only.
- Start-up: runs begin with the GUI connected to DSP and Reverse listening; a new connect waits until Reverse listens again.
- Menus, prompts, console output and the file name shown with a star: user interface only. Choosing "Reverse Audio" without a loaded file does nothing and is not a step of the state machine.
- The AudioFile library is not part of this model: a file is two channels of samples, loaded at the menu.
- Empty channels: send_audio reads element 0 of each channel, so a reverse command needs both to have samples; the imperative programs answer `Undefined` there.
- Widths of counters: channels are shorter than 2^32 samples in the pipes and than 2^63 in the stretcher; sizes in the stream buffer are below 2^31, as its casts to int need.
- Sola.Sola: asks for a ratio of at least 0.25, below which the tail of a frame can reach past the guard; `main` clamps the ratio to 0.5 and above. The length at which `resize` throws is a parameter, at most that of a vector of 2^63 - 1 bytes; what the buffers hold after an exception is not said, as nothing catches it.
- Fifo.Replay: ends at the first exception; what a failed prepare leaves is said by `StreamBuf.BasicStreambuf.Prepare`.
- Sola.BufferCopyPart: asks for two different buffers of two channels of one length each, as in every call.
- Rounding and NaN: samples of the stretcher are real numbers.
- The main program of the stretcher beyond the clamp: `communication_protocols.hpp` is not part of this model.
- The rest of asio, and `shift.cpp`, which is empty.
