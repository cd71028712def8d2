/** The chunked uploader, net/chunked_data_stream_uploader.cc: the network asks for
    reads, the application announces data, and whichever comes second completes the
    read, by its return value or by a callback that may itself ask for the next read.

    `Event` and `PhaseOf` say which histories are right and what follows from that; the
    class `ChunkedDataStreamUploader` has the five fields of the source and proves that
    it only ever produces such histories, whatever its delegate and the network do. */
module ChunkedUploader {
  import opened Prelude
  import opened NetErrors

  type Byte = bv8
  type Buffer = nat

  datatype Event =
    | Read(buffer: Buffer, length: int)  // ReadInternal is called
    | Pended                             // and returns ERR_IO_PENDING
    | Returned(data: seq<Byte>)          // or returns |data|, the buffer then holding `data`
    | Completed(data: seq<Byte>)         // OnReadCompleted(|data|), the buffer then holding `data`
    | Fetched(data: seq<Byte>)           // OnRead has put `data` somewhere
    | Ended                              // SetIsFinalChunk
    | Ready(isFinalChunk: bool)          // UploadWhenReady is called
    | Reset

  /** Between two reads, or inside one: `got` is what is about to be answered, `waiting`
      says whether ERR_IO_PENDING has been returned. */
  datatype Phase = Quiet | Reading(got: Option<seq<Byte>>, waiting: bool)

  function NextPhase(p: Phase, e: Event): Option<Phase> {
    match e
    case Read(_, _) => if p.Quiet? then Some(Reading(None, false)) else None
    case Pended => if p == Reading(None, false) then Some(Reading(None, true)) else None
    case Fetched(d) => if p.Reading? && p.got.None? && d != [] then Some(p.(got := Some(d))) else None
    case Ended => if p.Reading? && p.got.None? then Some(p.(got := Some([]))) else None
    case Returned(d) => if p == Reading(Some(d), false) then Some(Quiet) else None
    case Completed(d) => if p == Reading(Some(d), true) then Some(Quiet) else None
    case Ready(_) => if p.Quiet? || p == Reading(None, true) then Some(p) else None
    case Reset => if p.Quiet? || p == Reading(None, true) then Some(Quiet) else None
  }

  /** The application has said that the last chunk is there: its last word since the last
      reset, if it said anything. */
  predicate Announced(log: seq<Event>) {
    log != [] &&
    match log[|log| - 1]
    case Ready(isFinalChunk) => isFinalChunk
    case Reset => false
    case _ => Announced(log[..|log| - 1])
  }

  /** The base class has been told the end since the last reset. */
  predicate AtEnd(log: seq<Event>) {
    log != [] &&
    match log[|log| - 1]
    case Ended => true
    case Reset => false
    case _ => AtEnd(log[..|log| - 1])
  }

  /** The end is told when the application has announced it; until then the delegate is
      asked. No read begins after the end. */
  predicate Timely(log: seq<Event>, e: Event) {
    && (e.Ended? ==> Announced(log))
    && (e.Fetched? ==> !Announced(log))
    && (e.Read? ==> !AtEnd(log))
  }

  /** Where a history has got to; None if it went wrong somewhere. */
  function PhaseOf(log: seq<Event>): Option<Phase> {
    if log == [] then Some(Quiet)
    else
      var p := PhaseOf(log[..|log| - 1]);
      if p.Some? && Timely(log[..|log| - 1], log[|log| - 1]) then NextPhase(p.value, log[|log| - 1]) else None
  }

  predicate NothingRead(log: seq<Event>) {
    log == [] || (NothingRead(log[..|log| - 1]) && !log[|log| - 1].Read?)
  }

  lemma OneMore(log: seq<Event>, e: Event)
    ensures PhaseOf(log + [e]) ==
            if PhaseOf(log).Some? && Timely(log, e) then NextPhase(PhaseOf(log).value, e) else None
    ensures NothingRead(log + [e]) <==> NothingRead(log) && !e.Read?
    ensures Announced(log + [e]) <==> if e.Ready? then e.isFinalChunk else !e.Reset? && Announced(log)
    ensures AtEnd(log + [e]) <==> e.Ended? || (!e.Reset? && AtEnd(log))
  {
    assert (log + [e])[..|log|] == log;
  }

  lemma {:induction false} LegalPrefix(log: seq<Event>, k: nat)
    requires PhaseOf(log).Some? && k <= |log|
    ensures PhaseOf(log[..k]).Some?
  {
    if k == |log| {
      assert log[..k] == log;
    } else {
      LegalPrefix(log[..|log| - 1], k);
      assert log[..|log| - 1][..k] == log[..k];
    }
  }

  // ---------------------------------------------------------------------------
  // The bytes

  function FetchedBytes(log: seq<Event>): seq<Byte> {
    if log == [] then []
    else
      var e := log[|log| - 1];
      FetchedBytes(log[..|log| - 1]) + if e.Fetched? then e.data else []
  }

  function DeliveredBytes(log: seq<Event>): seq<Byte> {
    if log == [] then []
    else
      var e := log[|log| - 1];
      DeliveredBytes(log[..|log| - 1]) + if e.Returned? || e.Completed? then e.data else []
  }

  /** Nothing is lost, duplicated or reordered: what the network was given, plus what it
      is about to be given, is what the delegate produced. Between calls nothing is in
      flight, so the two streams are equal, across pending retries, ends and resets. */
  lemma {:induction false} DeliveredIsFetched(log: seq<Event>)
    requires PhaseOf(log).Some?
    ensures var p := PhaseOf(log).value;
      FetchedBytes(log) == DeliveredBytes(log) + if p.Reading? && p.got.Some? then p.got.value else []
  {
    if log != [] {
      DeliveredIsFetched(log[..|log| - 1]);
    }
  }

  // ---------------------------------------------------------------------------
  // The answers

  predicate IsAnswer(e: Event) {
    e.Returned? || e.Completed?
  }

  /** The first answer or reset at or after `i`. */
  function EndOf(log: seq<Event>, i: nat): (j: Option<nat>)
    requires i <= |log|
    ensures j.Some? ==> i <= j.value < |log| && (IsAnswer(log[j.value]) || log[j.value].Reset?)
    ensures forall k :: i <= k < (if j.Some? then j.value else |log|) ==> !IsAnswer(log[k]) && !log[k].Reset?
    decreases |log| - i
  {
    if i == |log| then None
    else if IsAnswer(log[i]) || log[i].Reset? then Some(i)
    else EndOf(log, i + 1)
  }

  /** The read that a legal history is in the middle of: its last one, with no answer or
      reset since, and with ERR_IO_PENDING returned since iff the phase says so. */
  lemma {:induction false} ReadUnderWay(log: seq<Event>) returns (i: nat)
    requires PhaseOf(log).Some? && PhaseOf(log).value.Reading?
    ensures i < |log| && log[i].Read? && EndOf(log, i).None?
    ensures forall k :: i < k < |log| ==> !log[k].Read?
    ensures PhaseOf(log).value.waiting <==> exists k :: i < k < |log| && log[k].Pended?
  {
    var before, e := log[..|log| - 1], log[|log| - 1];
    if e.Read? {
      i := |log| - 1;
    } else {
      i := ReadUnderWay(before);
      assert forall k :: 0 <= k < |before| ==> log[k] == before[k];
      if e.Pended? {
        assert log[|log| - 1].Pended?;
      }
    }
  }

  /** Every answer belongs to a read: the last one before it, for which it is the first
      answer; it is a callback exactly when that read had returned ERR_IO_PENDING. */
  lemma AnswerHasItsRead(log: seq<Event>, j: nat) returns (i: nat)
    requires PhaseOf(log).Some? && j < |log| && IsAnswer(log[j])
    ensures i < j && log[i].Read? && EndOf(log, i) == Some(j)
    ensures forall k :: i < k <= j ==> !log[k].Read?
    ensures log[j].Completed? <==> exists k :: i < k < j && log[k].Pended?
  {
    LegalPrefix(log, j + 1);
    var before := log[..j];
    assert log[..j + 1][..j] == before;
    i := ReadUnderWay(before);
    assert forall k :: 0 <= k < j ==> log[k] == before[k];
  }

  /** Every read is answered exactly once, unless it is still under way or was reset:
      no other read begins before its answer, and an answer that is not its own
      belongs to another read. */
  lemma ReadHasOneAnswer(log: seq<Event>, i: nat, j: nat)
    requires PhaseOf(log).Some? && i < |log| && log[i].Read?
    requires j < |log| && IsAnswer(log[j]) && EndOf(log, i) != Some(j)
    ensures exists i' :: i' != i && 0 <= i' < |log| && log[i'].Read? && EndOf(log, i') == Some(j)
  {
    var i' := AnswerHasItsRead(log, j);
  }

  /** The end is only ever told after the application announced it, and data is only fetched
      while it has not. */
  lemma EndIsAnnounced(log: seq<Event>, j: nat)
    requires PhaseOf(log).Some? && j < |log|
    ensures log[j].Ended? ==> Announced(log[..j])
    ensures log[j].Fetched? ==> !Announced(log[..j])
  {
    LegalPrefix(log, j + 1);
    assert log[..j + 1][..j] == log[..j];
  }

  /** What Announced means: some call of UploadWhenReady said so, and no later call and no
      reset took it back. */
  lemma {:induction false} AnnouncedIff(log: seq<Event>)
    ensures Announced(log) <==>
            exists i :: 0 <= i < |log| && log[i] == Ready(true)
                        && forall k :: i < k < |log| ==> !log[k].Ready? && !log[k].Reset?
  {
    if log != [] {
      var before, e := log[..|log| - 1], log[|log| - 1];
      AnnouncedIff(before);
      assert forall k :: 0 <= k < |before| ==> log[k] == before[k];
      if e.Ready? {
        assert e.isFinalChunk ==> log[|log| - 1] == Ready(true);
      }
    }
  }

  /** A read without an answer is under way or was reset. */
  lemma {:induction false} UnansweredRead(log: seq<Event>, i: nat)
    requires PhaseOf(log).Some? && i < |log| && log[i].Read?
    ensures match EndOf(log, i)
      case None => PhaseOf(log).value.Reading? && forall k :: i < k < |log| ==> !log[k].Read?
      case Some(j) => forall k :: i < k <= j ==> !log[k].Read?
  {
    if i < |log| - 1 {
      var before, e := log[..|log| - 1], log[|log| - 1];
      UnansweredRead(before, i);
      assert forall k :: 0 <= k < |before| ==> log[k] == before[k];
    }
  }

  // ---------------------------------------------------------------------------
  // The uploader

  /** What one call of OnRead does: it provides data, of which as much is used as fits
      into the buffer, or it returns zero or an error. */
  datatype Outcome = Provides(data: seq<Byte>) | Fails(code: int)

  /** What the rest of the program may ask of the uploader. */
  datatype Request =
    | DoRead(buffer: Buffer, length: int)
    | DoReset
    | DoReady(isFinalChunk: bool)

  class ChunkedDataStreamUploader {
    var pendingReadBuffer: Option<Buffer>
    var pendingReadBufferLength: int
    var pendingInternalRead: bool
    var isFinalChunk: bool
    var isFrontOfStream: bool

    // The world around it: the contents of the buffers, what the delegate's next calls
    // will do, what the network does inside its next completion callbacks, and whether
    // the base class has seen the end of the stream.
    var memory: map<Buffer, seq<Byte>>
    var outcomes: seq<Outcome>
    var reactions: seq<seq<Request>>
    var eof: bool

    ghost var log: seq<Event>

    /** Both flags are what the history says. */
    ghost predicate FlagsFollow()
      reads this
    {
      isFinalChunk == Announced(log) && eof == AtEnd(log)
    }

    /** Holds between calls, and while the completion callback runs. */
    ghost predicate Valid()
      reads this
    {
      && PhaseOf(log) == Some(if pendingInternalRead then Reading(None, true) else Quiet)
      && (pendingInternalRead <==> pendingReadBuffer.Some?)
      && (pendingReadBuffer.Some? <==> pendingReadBufferLength > 0)
      && (pendingInternalRead ==> !eof && !isFrontOfStream)
      && (isFrontOfStream <==> NothingRead(log))
      && FlagsFollow()
    }

    /** Between calls the network has been given exactly what the delegate produced. */
    lemma StreamIsIntact()
      requires Valid()
      ensures DeliveredBytes(log) == FetchedBytes(log)
    {
      DeliveredIsFetched(log);
    }

    /** A read that is neither answered nor reset is the last one, and pending. */
    lemma OpenReadIsPending(i: nat)
      requires Valid() && i < |log| && log[i].Read? && EndOf(log, i).None?
      ensures pendingInternalRead && forall k :: i < k < |log| ==> !log[k].Read?
    {
      UnansweredRead(log, i);
    }

    constructor (outcomes: seq<Outcome>, reactions: seq<seq<Request>>)
      ensures Valid() && log == [] && !pendingInternalRead && !eof
      ensures this.outcomes == outcomes && this.reactions == reactions
    {
      pendingReadBuffer, pendingReadBufferLength, pendingInternalRead := None, 0, false;
      isFinalChunk, isFrontOfStream := false, true;
      memory, eof := map[], false;
      this.outcomes, this.reactions := outcomes, reactions;
      log := [];
    }

    /** Rewinding is not supported: only a stream that was never read can be initialized. */
    method InitInternal() returns (rv: int)
      requires Valid()
      ensures rv == OK <==> NothingRead(log)
      ensures rv == OK || rv == ERR_FAILED
    {
      rv := if isFrontOfStream then OK else ERR_FAILED;
    }

    /** The first `n` bytes of a buffer, which is what its owner reads when told `n`. */
    ghost function Held(buffer: Buffer, n: int): seq<Byte>
      reads this
    {
      if buffer in memory && 0 <= n <= |memory[buffer]| then memory[buffer][..n] else []
    }

    /** A read is answered at once if data or the end is there, with the data in the
        buffer, and stays pending otherwise. One outstanding read at a time, and none
        after the end, is what the base class sees to. */
    method ReadInternal(buffer: Buffer, length: int) returns (rv: int)
      requires Valid() && length > 0 && !pendingInternalRead && !eof
      modifies this
      ensures Valid() && reactions == old(reactions) && (pendingInternalRead <==> rv == ERR_IO_PENDING)
      ensures !isFrontOfStream && isFinalChunk == old(isFinalChunk)
      ensures outcomes == Later(old(isFinalChunk), old(outcomes))
      ensures match Offer(old(isFinalChunk), old(outcomes), length)
        case None =>
          && rv == ERR_IO_PENDING && log == old(log) + [Read(buffer, length)] + [Pended]
          && pendingReadBuffer == Some(buffer) && pendingReadBufferLength == length
        case Some(d) =>
          && rv == |d| && Held(buffer, rv) == d && (eof <==> old(isFinalChunk))
          && log == old(log) + [Read(buffer, length)] + [Arrival(old(isFinalChunk), d)] + [Returned(d)]
      decreases |reactions|, 3
    {
      OneMore(log, Read(buffer, length));
      log := log + [Read(buffer, length)];
      pendingReadBuffer := Some(buffer);
      pendingReadBufferLength := length;
      rv := Upload();
      Return(buffer, rv);
    }

    /** The value goes back to the caller of ReadInternal. */
    ghost method Return(buffer: Buffer, rv: int)
      requires if rv == ERR_IO_PENDING then PhaseOf(log) == Some(Reading(None, false))
               else PhaseOf(log) == Some(Reading(Some(Held(buffer, rv)), false))
      modifies this`log
      ensures log == old(log) + [if rv == ERR_IO_PENDING then Pended else Returned(Held(buffer, rv))]
      ensures PhaseOf(log) == Some(if rv == ERR_IO_PENDING then Reading(None, true) else Quiet)
      ensures NothingRead(log) <==> old(NothingRead(log))
      ensures Announced(log) == old(Announced(log)) && AtEnd(log) == old(AtEnd(log))
    {
      var e := if rv == ERR_IO_PENDING then Pended else Returned(Held(buffer, rv));
      OneMore(log, e);
      log := log + [e];
    }

    method ResetInternal()
      requires Valid()
      modifies this
      ensures Valid() && log == old(log) + [Reset]
      ensures !pendingInternalRead && !isFinalChunk && !eof && isFrontOfStream == old(isFrontOfStream)
      ensures reactions == old(reactions) && memory == old(memory) && outcomes == old(outcomes)
    {
      OneMore(log, Reset);
      pendingReadBuffer := None;
      pendingReadBufferLength := 0;
      pendingInternalRead := false;
      isFinalChunk := false;
      eof := false;
      log := log + [Reset];
    }

    /** A pending read is completed by its callback if data or the end is there, before
        anything that the callback starts; otherwise it stays pending. With no read
        pending nothing happens. */
    method UploadWhenReady(isFinal: bool)
      requires Valid()
      modifies this
      ensures Valid() && |reactions| <= old(|reactions|) && (!old(isFrontOfStream) ==> !isFrontOfStream)
      ensures !old(pendingInternalRead) ==>
                && log == old(log) + [Ready(isFinal)] && isFinalChunk == isFinal
                && outcomes == old(outcomes) && memory == old(memory)
      ensures old(pendingInternalRead) ==>
        match Offer(isFinal, old(outcomes), old(pendingReadBufferLength))
        case None =>
          && log == old(log) + [Ready(isFinal)] && pendingInternalRead && outcomes == Later(isFinal, old(outcomes))
          && pendingReadBuffer == old(pendingReadBuffer) && pendingReadBufferLength == old(pendingReadBufferLength)
        case Some(d) => old(log) + [Ready(isFinal)] + [Arrival(isFinal, d)] + [Completed(d)] <= log
      decreases |reactions|, 3
    {
      OneMore(log, Ready(isFinal));
      log := log + [Ready(isFinal)];
      isFinalChunk := isFinal;
      if pendingInternalRead {
        var _ := Upload();
      }
    }

    /** A read is to be answered, by its return value or by its callback. */
    ghost predicate ToAnswer(waiting: bool)
      reads this
    {
      && pendingReadBuffer.Some? && pendingReadBufferLength > 0 && !eof && FlagsFollow()
      && PhaseOf(log) == Some(Reading(None, waiting)) && !NothingRead(log)
    }

    /** No read is waiting for data. */
    ghost predicate NoneWaits()
      reads this
    {
      pendingReadBuffer.None? && pendingReadBufferLength == 0 && !pendingInternalRead && !isFrontOfStream
    }

    /** With nothing to answer with, the read waits. Otherwise it is answered: by the
        return value if it has not waited, and by the callback if it has, which may go on
        to anything else. */
    method Upload() returns (rv: int)
      requires ToAnswer(pendingInternalRead)
      modifies this
      ensures !isFrontOfStream && |reactions| <= old(|reactions|)
      ensures !old(pendingInternalRead) || rv == ERR_IO_PENDING ==>
                isFinalChunk == old(isFinalChunk) && outcomes == Later(old(isFinalChunk), old(outcomes))
      ensures match Offer(old(isFinalChunk), old(outcomes), old(pendingReadBufferLength))
        case None =>
          && rv == ERR_IO_PENDING && log == old(log) && pendingInternalRead && !eof && reactions == old(reactions)
          && pendingReadBuffer == old(pendingReadBuffer) && pendingReadBufferLength == old(pendingReadBufferLength)
        case Some(d) =>
          && rv == |d|
          && if old(pendingInternalRead) then
               Valid() && old(log) + [Arrival(old(isFinalChunk), d)] + [Completed(d)] <= log
             else
               && NoneWaits() && (eof <==> old(isFinalChunk)) && reactions == old(reactions)
               && log == old(log) + [Arrival(old(isFinalChunk), d)] && Held(old(pendingReadBuffer).value, rv) == d
               && PhaseOf(log) == Some(Reading(Some(d), false)) && !NothingRead(log) && FlagsFollow()
      decreases |reactions|, 2
    {
      isFrontOfStream := false;
      var buffer := pendingReadBuffer.value;
      var bytesRead := FillBuffer(buffer);
      if !isFinalChunk && bytesRead <= 0 {
        pendingInternalRead := true;
        return ERR_IO_PENDING;
      }
      Deliver(buffer, bytesRead);
      return bytesRead;
    }

    /** The first part of Upload: the end is announced, or the delegate is asked. */
    method FillBuffer(buffer: Buffer) returns (n: int)
      requires ToAnswer(pendingInternalRead)
      modifies this`memory, this`outcomes, this`log, this`eof
      ensures !NothingRead(log) && FlagsFollow() && outcomes == Later(isFinalChunk, old(outcomes))
      ensures match Offer(isFinalChunk, old(outcomes), pendingReadBufferLength)
        case None => n <= 0 && !isFinalChunk && log == old(log) && !eof
        case Some(d) =>
          && n == |d| && (isFinalChunk || n > 0) && Held(buffer, n) == d && (eof <==> isFinalChunk)
          && log == old(log) + [Arrival(isFinalChunk, d)]
          && PhaseOf(log) == Some(Reading(Some(d), pendingInternalRead))
    {
      n := 0;
      if isFinalChunk {
        SetIsFinalChunk();
      } else {
        n := OnRead(buffer, pendingReadBufferLength);
      }
    }

    /** The last part of Upload: the read is no longer pending, which is recorded before its
        callback runs. */
    method Deliver(buffer: Buffer, n: int)
      requires PhaseOf(log) == Some(Reading(Some(Held(buffer, n)), pendingInternalRead))
      requires !NothingRead(log) && !isFrontOfStream && FlagsFollow()
      modifies this
      ensures !isFrontOfStream && |reactions| <= old(|reactions|)
      ensures if old(pendingInternalRead) then Valid() && old(log) + [Completed(old(Held(buffer, n)))] <= log
              else NoneWaits() && unchanged(`log, `memory, `eof, `reactions, `isFinalChunk, `outcomes)
      decreases |reactions|, 1
    {
      pendingReadBuffer := None;
      pendingReadBufferLength := 0;
      if pendingInternalRead {
        pendingInternalRead := false;
        OnReadCompleted(buffer, n);
      }
    }

    /** The base class: no more data will come. */
    method SetIsFinalChunk()
      requires PhaseOf(log).Some? && PhaseOf(log).value.Reading? && PhaseOf(log).value.got.None? && Announced(log)
      modifies this`eof, this`log
      ensures eof && log == old(log) + [Ended]
      ensures PhaseOf(log) == Some(old(PhaseOf(log).value).(got := Some([])))
      ensures (NothingRead(log) <==> old(NothingRead(log))) && Announced(log) && AtEnd(log)
    {
      OneMore(log, Ended);
      eof := true;
      log := log + [Ended];
    }

    /** The delegate: it writes at most `length` bytes at the front of the buffer. */
    method OnRead(buffer: Buffer, length: int) returns (n: int)
      requires length > 0
      requires PhaseOf(log).Some? && PhaseOf(log).value.Reading? && PhaseOf(log).value.got.None? && !Announced(log)
      modifies this`memory, this`outcomes, this`log
      ensures outcomes == Later(false, old(outcomes))
      ensures var d := NextData(old(outcomes), length);
        if d == [] then n <= 0 && log == old(log) && memory == old(memory)
        else
          && n == |d| && Held(buffer, n) == d && (NothingRead(log) <==> old(NothingRead(log)))
          && log == old(log) + [Fetched(d)] && !Announced(log) && AtEnd(log) == old(AtEnd(log))
          && PhaseOf(log) == Some(old(PhaseOf(log).value).(got := Some(d)))
    {
      var outcome := if outcomes == [] then Fails(0) else outcomes[0];
      var d := NextData(outcomes, length);
      outcomes := if outcomes == [] then [] else outcomes[1..];
      if d == [] {
        return if outcome.Fails? && outcome.code < 0 then outcome.code else 0;
      }
      var before := if buffer in memory then memory[buffer] else [];
      memory := memory[buffer := d + if |d| <= |before| then before[|d|..] else []];
      OneMore(log, Fetched(d));
      log := log + [Fetched(d)];
      return |d|;
    }

    /** The base class runs the callback of the read, which reads its data out of the
        buffer and may then ask for more. */
    method OnReadCompleted(buffer: Buffer, n: int)
      requires PhaseOf(log) == Some(Reading(Some(Held(buffer, n)), true)) && !NothingRead(log)
      requires NoneWaits() && FlagsFollow()
      modifies this
      ensures Valid() && !isFrontOfStream && |reactions| <= old(|reactions|)
      ensures old(log) + [Completed(old(Held(buffer, n)))] <= log
      decreases |reactions|, 0
    {
      OneMore(log, Completed(Held(buffer, n)));
      log := log + [Completed(Held(buffer, n))];
      if reactions != [] {
        var todo := reactions[0];
        reactions := reactions[1..];
        Perform(todo);
      }
    }

    /** The rest of the program: any requests, as far as the base class lets them pass. */
    method Perform(todo: seq<Request>)
      requires Valid()
      modifies this
      ensures Valid() && |reactions| <= old(|reactions|) && old(log) <= log
      ensures !old(isFrontOfStream) ==> !isFrontOfStream
      decreases |reactions|, 4
    {
      for i := 0 to |todo|
        invariant Valid() && |reactions| <= old(|reactions|) && old(log) <= log
        invariant !old(isFrontOfStream) ==> !isFrontOfStream
      {
        match todo[i] {
          case DoRead(buffer, length) =>
            if length > 0 && !pendingInternalRead && !eof {
              var _ := ReadInternal(buffer, length);
            }
          case DoReset => ResetInternal();
          case DoReady(isFinal) => UploadWhenReady(isFinal);
        }
      }
    }
  }

  /** The data that the delegate's next call will put into a buffer of this length: what it
      provides, as far as that fits. */
  function NextData(outcomes: seq<Outcome>, length: int): (d: seq<Byte>)
    ensures length > 0 ==> |d| <= length
    ensures length > 0 && outcomes != [] && outcomes[0].Provides? ==>
              d <= outcomes[0].data && (d == outcomes[0].data || |d| == length)
  {
    if outcomes == [] || outcomes[0].Fails? || length <= 0 then []
    else if |outcomes[0].data| <= length then outcomes[0].data
    else outcomes[0].data[..length]
  }

  /** What there is to answer a read with: the end of the stream, or the delegate's next
      data, or nothing yet. */
  function Offer(isFinalChunk: bool, outcomes: seq<Outcome>, length: int): Option<seq<Byte>> {
    if isFinalChunk then Some([])
    else if NextData(outcomes, length) == [] then None
    else Some(NextData(outcomes, length))
  }

  /** What the delegate will do after being asked; at the end it is not asked. */
  function Later(isFinalChunk: bool, outcomes: seq<Outcome>): seq<Outcome> {
    if isFinalChunk || outcomes == [] then outcomes else outcomes[1..]
  }

  /** The event that makes it available. */
  function Arrival(isFinalChunk: bool, data: seq<Byte>): Event {
    if isFinalChunk then Ended else Fetched(data)
  }
}
