/** The sliding byte buffer of asio: a `std::streambuf` over one vector, with a get area,
a put area and a maximum size.  Pointers are offsets from the start of the vector. */
module StreamBuf {
  import opened Wire

  const BUFFER_DELTA: nat := 128
  const EOF: int := -1
  /** What `not_eof` makes of eof: some value that is not eof. */
  const NOT_EOF: int := 0

  datatype Result<+T> = Ok(value: T) | LengthError

  /** An `int_type`: a character or eof. */
  datatype Input = Eof | Char(c: Byte)

  function Min(a: nat, b: nat): nat {
    if a < b then a else b
  }

  function Max(a: nat, b: nat): nat {
    if a < b then b else a
  }

  /** `vector::resize`. */
  function Resized(xs: string, n: nat): (ys: string)
    ensures |ys| == n
  {
    if n <= |xs| then xs[..n] else xs + seq(n - |xs|, _ => '\0')
  }

  /** `memmove` of `xs[from..to]` to the front. */
  function MovedToFront(xs: string, from: nat, to: nat): (ys: string)
    requires from <= to <= |xs|
    ensures |ys| == |xs|
  {
    xs[from..to] + xs[to - from..]
  }

  /** What a queue behind a gap of `gap` bytes looks like when the vector has been compacted
  but the pointers have not moved: its own front is overwritten with what follows. */
  function Slid(queue: string, gap: nat): (q: string)
    ensures |q| == |queue|
  {
    if |queue| <= gap then queue else queue[gap..] + queue[|queue| - gap..]
  }

  /** The room behind the put pointer when `n` bytes are asked for: the room there is if that
  is enough, and otherwise what compacting gives, or `n` bytes if that is not enough. */
  function RoomMade(n: nat, room: nat, gap: nat): nat {
    if n <= room then room else Max(n, room + gap)
  }

  lemma MovedSlides(xs: string, from: nat, to: nat)
    requires from <= to <= |xs|
    ensures MovedToFront(xs, from, to)[from..to] == Slid(xs[from..to], from)
  {
    var queue, moved := xs[from..to], MovedToFront(xs, from, to);
    if |queue| <= from {
      assert moved[from..to] == xs[from..to];
    } else {
      assert moved[from..|queue|] == queue[from..];
      assert moved[|queue|..to] == xs[|queue|..to] == queue[|queue| - from..];
      assert moved[from..to] == moved[from..|queue|] + moved[|queue|..to];
    }
  }

  /** Compacted and resized, the vector begins with what was between the pointers. */
  lemma MovedAndResized(xs: string, from: nat, to: nat, n: nat)
    requires from <= to <= |xs| && to - from <= n
    ensures Resized(MovedToFront(xs, from, to), n)[0..to - from] == xs[from..to]
    ensures MovedToFront(xs, from, to)[0..to - from] == xs[from..to]
    ensures from == 0 ==> MovedToFront(xs, from, to) == xs
  {
  }

  lemma SliceStore(xs: string, from: nat, to: nat, c: Byte)
    requires from <= to < |xs|
    ensures xs[to := c][from..to + 1] == xs[from..to] + [c]
  {
  }

  lemma SliceDrop(xs: string, from: nat, to: nat, k: nat)
    requires from <= to <= |xs| && k <= to - from
    ensures xs[from..to][k..] == xs[from + k..to]
  {
  }

  lemma SliceExtend(xs: string, from: nat, to: nat, k: nat)
    requires from <= to <= to + k <= |xs|
    ensures xs[from..to + k] == xs[from..to] + xs[to..to + k]
  {
  }

  class BasicStreambuf {
    const maxSize: nat
    var buffer: string
    var gptr: nat
    var egptr: nat
    var pptr: nat
    var epptr: nat

    ghost predicate Valid()
      reads this
    {
      && gptr <= egptr <= pptr <= epptr <= maxSize
      && |buffer| == Max(epptr, 1)
    }

    /** The queue that the buffer stands for: the bytes put and not yet taken. */
    ghost function Queue(): (q: string)
      reads this
      requires Valid()
    {
      buffer[gptr..pptr]
    }

    /** The bytes taken out since the vector was last compacted. */
    ghost function Gap(): nat
      reads this
    {
      gptr
    }

    /** The space behind the put pointer. */
    ghost function Room(): nat
      reads this
      requires Valid()
    {
      epptr - pptr
    }

    constructor (maximumSize: nat)
      ensures Valid() && maxSize == maximumSize
      ensures Queue() == "" && Gap() == 0 && Room() == Min(maximumSize, BUFFER_DELTA)
    {
      maxSize := maximumSize;
      var pend := Min(maximumSize, BUFFER_DELTA);
      buffer := Resized("", Max(pend, 1));
      gptr, egptr, pptr := 0, 0, 0;
      epptr := pend;
    }

    method Size() returns (n: nat)
      requires Valid()
      ensures n == |Queue()| && n <= maxSize
    {
      n := pptr - gptr;
    }

    method Data() returns (bytes: string)
      requires Valid()
      ensures bytes == Queue()
    {
      bytes := buffer[gptr..pptr];
    }

    /** Makes room for `n` bytes, compacting and growing as needed; throws when the bytes
    in the queue and `n` more exceed the maximum.  The vector has been compacted by then,
    but the pointers have not moved, so the queue has slid from under them. */
    method Reserve(n: nat) returns (r: Result<()>)
      requires Valid()
      modifies this
      ensures r.LengthError? <==> |old(Queue())| + n > maxSize
      ensures Valid() && Gap() == (if r.Ok? && n > old(Room()) then 0 else old(Gap()))
      ensures r.Ok? ==> Queue() == old(Queue()) && Room() == RoomMade(n, old(Room()), old(Gap()))
      ensures n <= old(Room()) ==> unchanged(this)
      ensures r.LengthError? ==> Queue() == Slid(old(Queue()), old(Gap())) && Room() == old(Room())
    {
      if n <= epptr - pptr {
        return Ok(());
      }
      r := MakeRoom(n);
    }

    /** Shifts the queue to the front and lengthens the vector if that is not enough. */
    method MakeRoom(n: nat) returns (r: Result<()>)
      requires Valid() && n > Room()
      modifies this
      ensures r.LengthError? <==> |old(Queue())| + n > maxSize
      ensures Valid() && Gap() == if r.Ok? then 0 else old(Gap())
      ensures r.Ok? ==> Queue() == old(Queue()) && Room() == Max(n, old(Room()) + old(Gap()))
      ensures r.LengthError? ==> Queue() == Slid(old(Queue()), old(Gap())) && Room() == old(Room())
    {
      var gnext, pnext, pend := gptr, pptr, epptr;
      MovedSlides(buffer, gnext, pnext);
      MovedAndResized(buffer, gnext, pnext, Max(pnext - gnext + n, 1));
      if gnext > 0 {
        buffer := MovedToFront(buffer, gnext, pnext);
        pnext := pnext - gnext;
      }
      if n > pend - pnext {
        if n <= maxSize && pnext <= maxSize - n {
          pend := pnext + n;
          buffer := Resized(buffer, Max(pend, 1));
        } else {
          return LengthError;
        }
      }
      gptr, egptr := 0, pnext;
      pptr, epptr := pnext, pend;
      return Ok(());
    }

    /** Offers `n` bytes of space behind the queue.  When it throws, the queue is what it was
    if nothing was taken out since the last compaction, or at least as much as is left. */
    method Prepare(n: nat) returns (r: Result<(nat, nat)>)
      requires Valid()
      modifies this
      ensures r.LengthError? <==> |old(Queue())| + n > maxSize
      ensures Valid() && Gap() == (if r.Ok? && n > old(Room()) then 0 else old(Gap()))
      ensures r.Ok? ==> Queue() == old(Queue()) && r.value == (pptr, pptr + n)
      ensures r.Ok? ==> n <= Room() == RoomMade(n, old(Room()), old(Gap()))
      ensures r.LengthError? ==> Queue() == Slid(old(Queue()), old(Gap())) && Room() == old(Room())
      ensures old(Gap()) == 0 || |old(Queue())| <= old(Gap()) ==> Queue() == old(Queue())
    {
      var reserved := Reserve(n);
      if reserved.LengthError? {
        return LengthError;
      }
      return Ok((pptr, pptr + n));
    }

    /** What a caller does with the space it was offered. */
    method Fill(at: nat, bytes: string)
      requires Valid() && pptr <= at && at + |bytes| <= epptr
      modifies `buffer
      ensures Valid() && Queue() == old(Queue())
      ensures buffer == old(buffer)[..at] + bytes + old(buffer)[at + |bytes|..]
    {
      buffer := buffer[..at] + bytes + buffer[at + |bytes|..];
    }

    /** Moves up to `n` bytes from the put area to the queue. */
    method Commit(n: nat)
      requires Valid()
      modifies `pptr, `egptr
      ensures Valid() && Room() == old(Room()) - Min(n, old(Room()))
      ensures Queue() == old(Queue()) + old(buffer)[old(pptr)..old(pptr) + Min(n, old(Room()))]
    {
      var count := Min(n, epptr - pptr);
      SliceExtend(buffer, gptr, pptr, count);
      pptr := pptr + count;
      egptr := pptr;
    }

    /** Drops up to `n` bytes from the queue. */
    method Consume(n: nat)
      requires Valid()
      modifies `gptr, `egptr
      ensures Valid() && Room() == old(Room())
      ensures Queue() == old(Queue())[Min(n, |old(Queue())|)..]
      ensures Gap() == old(Gap()) + Min(n, |old(Queue())|)
    {
      var count := n;
      if egptr < pptr {
        egptr := pptr;
      }
      if gptr + count > pptr {
        count := pptr - gptr;
      }
      SliceDrop(buffer, gptr, pptr, count);
      gptr := gptr + count;
    }

    /** Makes the whole queue readable and shows its first byte. */
    method Underflow() returns (c: int)
      requires Valid()
      modifies `egptr
      ensures Valid() && Queue() == old(Queue()) && Room() == old(Room()) && egptr >= old(egptr)
      ensures c == if Queue() == "" then EOF else Queue()[0] as int
      ensures Queue() != "" ==> egptr == pptr
    {
      if gptr < pptr {
        egptr := pptr;
        c := buffer[gptr] as int;
      } else {
        c := EOF;
      }
    }

    /** Appends a character, making room first if the put area is full; eof is not appended
    and leaves everything as it was. */
    method Overflow(input: Input) returns (r: Result<int>)
      requires Valid()
      modifies this
      ensures r.LengthError? <==> input.Char? && |old(Queue())| == maxSize
      ensures r.Ok? ==> Valid() && r.value != EOF
      ensures input.Eof? ==> Queue() == old(Queue()) && Room() == old(Room())
      ensures r.Ok? && input.Char? ==>
        && r.value == input.c as int && Queue() == old(Queue()) + [input.c]
        && Room() + 1 == (if old(Room()) > 0 then old(Room())
                          else RoomMade(Min(BUFFER_DELTA, maxSize - |old(Queue())|), 0, old(Gap())))
    {
      if input.Eof? {
        return Ok(NOT_EOF);
      }
      var c := input.c;
      if pptr == epptr {
        var reserved := ReserveMore();
        if reserved.LengthError? {
          return LengthError;
        }
      }
      Store(c);
      return Ok(c as int);
    }

    /** Makes room for BUFFER_DELTA characters, or for as many as the maximum still allows. */
    method ReserveMore() returns (reserved: Result<()>)
      requires Valid()
      modifies this
      ensures reserved.LengthError? <==> |old(Queue())| == maxSize
      ensures reserved.Ok? ==> Valid() && Queue() == old(Queue())
      ensures reserved.Ok? ==> 0 < Room() == RoomMade(Min(BUFFER_DELTA, maxSize - |Queue()|), old(Room()), old(Gap()))
    {
      var bufferSize := pptr - gptr;
      if bufferSize < maxSize && maxSize - bufferSize < BUFFER_DELTA {
        reserved := Reserve(maxSize - bufferSize);
      } else {
        reserved := Reserve(BUFFER_DELTA);
      }
    }

    /** Puts a character into the put area. */
    method Store(c: Byte)
      requires Valid() && Room() > 0
      modifies `buffer, `pptr
      ensures Valid() && Queue() == old(Queue()) + [c] && Room() == old(Room()) - 1
    {
      SliceStore(buffer, gptr, pptr, c);
      buffer := buffer[pptr := c];
      pptr := pptr + 1;
    }

    /** The inherited `sputc`: into the put area if there is room, by Overflow if not. */
    method Sputc(c: Byte) returns (r: Result<int>)
      requires Valid()
      modifies this
      ensures r.LengthError? <==> |old(Queue())| == maxSize
      ensures r.Ok? ==> r.value == c as int && Valid() && Queue() == old(Queue()) + [c]
    {
      if pptr < epptr {
        Store(c);
        return Ok(c as int);
      }
      r := Overflow(Char(c));
    }

    /** The inherited `sbumpc`: from the get area if it has bytes, after Underflow if not. */
    method Sbumpc() returns (c: int)
      requires Valid()
      modifies `gptr, `egptr
      ensures Valid() && Room() == old(Room())
      ensures Gap() == old(Gap()) + (if old(Queue()) == "" then 0 else 1)
      ensures if old(Queue()) == "" then c == EOF && Queue() == ""
              else c == old(Queue())[0] as int && Queue() == old(Queue())[1..]
    {
      if gptr == egptr {
        c := Underflow();
        if c == EOF {
          return;
        }
      }
      SliceDrop(buffer, gptr, pptr, 1);
      c := buffer[gptr] as int;
      gptr := gptr + 1;
    }

    /** How much a read operation asks for, `capacity` being that of the vector: no more than
    the caller and the maximum allow, and otherwise 512 bytes or all that the vector has
    space for, whichever is more. */
    method ReadSizeHelper(capacity: nat, maxRead: nat) returns (n: nat)
      requires Valid() && capacity >= |buffer|
      ensures |Queue()| + n <= maxSize && n <= maxRead
      ensures n == maxRead || |Queue()| + n == maxSize || (n >= 512 && n + |Queue()| >= capacity)
      ensures n <= 512 || n + |Queue()| <= capacity
    {
      var size := pptr - gptr;
      n := Min(Max(512, capacity - size), Min(maxRead, maxSize - size));
    }
  }
}
