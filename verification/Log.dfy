/**
 The buffered log: messages wait in the ring behind a length byte and leave it one character
 at a time. What has been printed is always a prefix of the accepted messages in order.
 */
module BufferedLog {
  import opened Status
  import opened Arithmetic
  import opened RingBuffer

  const UINT_RANGE: int := 0x1_0000_0000

  /** A formatted text fits its length byte together with the terminator. */
  predicate IsText(text: seq<byte>) { |text| < 255 }

  /** What the log holds, and what it has taken in and put out since the start. */
  datatype Log = Log(ring: seq<byte>, remaining: byte, dropped: nat, accepted: seq<seq<byte>>, emitted: seq<byte>)

  function Fits(l: Log, cap: nat, text: seq<byte>): bool { |text| + 2 <= cap - |l.ring| }

  /** A message enters behind its length, or is counted as dropped. */
  function Printed(l: Log, cap: nat, text: seq<byte>): Log
    requires IsText(text)
  {
    if Fits(l, cap, text) then
      l.(ring := l.ring + ([|text| + 1] + (text + [0])), accepted := l.accepted + [text + [0]])
    else
      l.(dropped := (l.dropped + 1) % UINT_RANGE)
  }

  predicate AtEnd(l: Log) { l.remaining == 0 && l.ring == [] }

  /** Between messages, the length byte of the next one is fetched. */
  function Fetched(l: Log): Log {
    if l.remaining == 0 && l.ring != [] then l.(remaining := l.ring[0], ring := l.ring[1..]) else l
  }

  /** One character leaves for the stream. */
  function Sent(l: Log): Log {
    if l.ring == [] || l.remaining == 0 then l
    else l.(ring := l.ring[1..], remaining := l.remaining - 1, emitted := l.emitted + [l.ring[0]])
  }

  /** One unbuffering attempt, given what the stream would answer and the text of a drop report. */
  function Unbuffered(l: Log, cap: nat, answer: int, report: seq<byte>): Log
    requires IsText(report)
  {
    if AtEnd(l) then (if l.dropped > 0 then Printed(l, cap, report).(dropped := 0) else l)
    else if answer == SUCCESS then Sent(Fetched(l))
    else Fetched(l)
  }

  function UnbufferStatus(l: Log, answer: int): int {
    if AtEnd(l) then (if l.dropped > 0 then PENDING else SUCCESS)
    else if answer == SUCCESS || answer == E_BUSY then PENDING
    else answer
  }

  /** Messages behind their lengths. */
  function Frame(ms: seq<seq<byte>>): seq<byte>
    requires forall m <- ms :: 0 < |m| < 256
  {
    if ms == [] then [] else [|ms[0]|] + ms[0] + Frame(ms[1..])
  }

  function Flat(ms: seq<seq<byte>>): seq<byte> {
    if ms == [] then [] else ms[0] + Flat(ms[1..])
  }

  /** The rest of the current message, then whole messages, and nothing lost or reordered. */
  ghost predicate Framed(l: Log, rest: seq<byte>, pending: seq<seq<byte>>) {
    && (forall m <- pending :: 0 < |m| < 256)
    && l.ring == rest + Frame(pending)
    && |rest| == l.remaining
    && Flat(l.accepted) == l.emitted + rest + Flat(pending)
  }

  ghost predicate Inv(l: Log) {
    exists rest, pending :: Framed(l, rest, pending)
  }

  lemma {:induction false} FrameAppends(ms: seq<seq<byte>>, m: seq<byte>)
    requires 0 < |m| < 256 && forall k <- ms :: 0 < |k| < 256
    ensures Frame(ms + [m]) == Frame(ms) + ([|m|] + m)
  {
    if ms == [] {
      assert Frame([m][1..]) == [];
    } else {
      FrameAppends(ms[1..], m);
      assert (ms + [m])[1..] == ms[1..] + [m];
    }
  }

  lemma {:induction false} FlatAppends(ms: seq<seq<byte>>, m: seq<byte>)
    ensures Flat(ms + [m]) == Flat(ms) + m
  {
    if ms == [] {
      assert Flat([m][1..]) == [];
    } else {
      FlatAppends(ms[1..], m);
      assert (ms + [m])[1..] == ms[1..] + [m];
    }
  }

  lemma PrintKeeps(l: Log, cap: nat, text: seq<byte>)
    requires Inv(l) && IsText(text)
    ensures Inv(Printed(l, cap, text))
  {
    hide Frame, Flat;
    var t := Printed(l, cap, text);
    var rest, pending :| Framed(l, rest, pending);
    if Fits(l, cap, text) {
      var m := text + [0];
      FrameAppends(pending, m);
      FlatAppends(pending, m);
      FlatAppends(l.accepted, m);
      assert Framed(t, rest, pending + [m]);
    } else {
      assert Framed(t, rest, pending);
    }
  }

  /** At a message boundary the ring starts with a length and that many characters. */
  lemma FirstFrame(l: Log, pending: seq<seq<byte>>)
    requires Framed(l, [], pending) && l.ring != []
    ensures pending != [] && l.ring[0] == |pending[0]| > 0 && Framed(Fetched(l), pending[0], pending[1..])
  {
    var m, ms := pending[0], pending[1..];
    assert l.ring == [|m|] + (m + Frame(ms));
    assert Flat(pending) == m + Flat(ms);
  }

  lemma FetchKeeps(l: Log)
    requires Inv(l)
    ensures Inv(Fetched(l))
    ensures AtEnd(l) || (Fetched(l).remaining > 0 && Fetched(l).ring != [])
  {
    var rest, pending :| Framed(l, rest, pending);
    if l.remaining == 0 && l.ring != [] {
      assert rest == [];
      FirstFrame(l, pending);
    }
  }

  lemma SendKeeps(l: Log)
    requires Inv(l)
    ensures Inv(Sent(l))
  {
    var rest, pending :| Framed(l, rest, pending);
    if l.ring != [] && l.remaining > 0 {
      assert rest == [rest[0]] + rest[1..];
      assert Framed(Sent(l), rest[1..], pending);
    }
  }

  /** The character at the front is the first accepted one that has not come out. */
  predicate OffersNext(l: Log) {
    && Fetched(l).remaining > 0
    && Fetched(l).ring != []
    && |l.emitted| < |Flat(l.accepted)|
    && Fetched(l).ring[0] == Flat(l.accepted)[|l.emitted|]
  }

  /** Every attempt keeps the framing, and has a character to offer unless the log is at its end. */
  lemma UnbufferKeeps(l: Log, cap: nat, answer: int, report: seq<byte>)
    requires Inv(l) && IsText(report)
    ensures Inv(Unbuffered(l, cap, answer, report))
    ensures AtEnd(l) || (Fetched(l).remaining > 0 && Fetched(l).ring != [])
  {
    FetchKeeps(l);
    SendKeeps(Fetched(l));
    PrintKeeps(l, cap, report);
    var t := Printed(l, cap, report);
    var rest, pending :| Framed(t, rest, pending);
    assert Framed(t.(dropped := 0), rest, pending);
  }

  datatype Op = Print(text: seq<byte>) | Unbuffer(answer: int, report: seq<byte>)

  function Exec(l: Log, cap: nat, op: Op): Log {
    match op
    case Print(text) => if IsText(text) then Printed(l, cap, text) else l
    case Unbuffer(answer, report) => if IsText(report) then Unbuffered(l, cap, answer, report) else l
  }

  function Run(l: Log, cap: nat, ops: seq<Op>): Log
    decreases |ops|
  {
    if ops == [] then l else Run(Exec(l, cap, ops[0]), cap, ops[1..])
  }

  const Empty := Log([], 0, 0, [], [])

  lemma {:induction false} RunKeeps(l: Log, cap: nat, ops: seq<Op>)
    requires Inv(l)
    ensures Inv(Run(l, cap, ops))
    decreases |ops|
  {
    if ops != [] {
      match ops[0] {
        case Print(text) => if IsText(text) { PrintKeeps(l, cap, text); }
        case Unbuffer(answer, report) => if IsText(report) { UnbufferKeeps(l, cap, answer, report); }
      }
      RunKeeps(Exec(l, cap, ops[0]), cap, ops[1..]);
    }
  }

  /**
   Any interleaving of prints and unbuffering attempts: what came out is a prefix of what was
   accepted, the rest is in the ring, and an attempt that is not at the end finds its character.
   */
  lemma EmittedIsPrefix(cap: nat, ops: seq<Op>)
    ensures var l := Run(Empty, cap, ops);
      && l.emitted <= Flat(l.accepted)
      && (AtEnd(l) ==> l.emitted == Flat(l.accepted))
      && (AtEnd(l) || OffersNext(l))
  {
    var l := Run(Empty, cap, ops);
    assert Framed(Empty, [], []);
    RunKeeps(Empty, cap, ops);
    NextCharacter(l);
  }

  lemma NextCharacter(l: Log)
    requires Inv(l)
    ensures l.emitted <= Flat(l.accepted)
    ensures AtEnd(l) ==> l.emitted == Flat(l.accepted)
    ensures AtEnd(l) || OffersNext(l)
  {
    FetchKeeps(l);
    var f := Fetched(l);
    var rest, pending :| Framed(f, rest, pending);
    assert f.emitted <= Flat(f.accepted);
    if AtEnd(l) {
      assert rest == [] && pending == [];
    } else {
      assert f.ring[0] == rest[0] == Flat(f.accepted)[|f.emitted|];
    }
  }

  /** A busy stream loses nothing: at most the length byte was fetched. */
  lemma BusyLosesNothing(l: Log, cap: nat, report: seq<byte>)
    requires Inv(l) && IsText(report) && !AtEnd(l)
    ensures var t := Unbuffered(l, cap, E_BUSY, report);
      && t.accepted == l.accepted && t.emitted == l.emitted && t.dropped == l.dropped
      && Unbuffered(t, cap, E_BUSY, report) == t
      && Unbuffered(t, cap, SUCCESS, report) == Unbuffered(l, cap, SUCCESS, report)
  {
    UnbufferKeeps(l, cap, E_BUSY, report);
  }

  /**
   One attempt, on the bytes: l.remaining of the current message are left, and l.ring holds them
   and the messages behind. With a character left, it leaves the ring and comes out exactly if
   the stream accepts it; the length byte ahead of it is taken in any case. At the end the drop
   count is cleared, and a report enters if it fits.
   */
  ghost predicate AttemptOutcome(l: Log, cap: nat, answer: int, report: seq<byte>, t: Log, status: int) {
    if l.remaining == 0 && l.ring == [] then
      && t.dropped == 0 && t.remaining == 0 && t.emitted == l.emitted
      && t.accepted == l.accepted + (if l.dropped > 0 then Reported(cap, report) else [])
      && t.ring == (if l.dropped > 0 && |report| + 2 <= cap then [(|report| + 1) % 256] + report + [0] else [])
      && status == if l.dropped > 0 then PENDING else SUCCESS
    else
      var rest, left := if l.remaining == 0 then l.ring[1..] else l.ring, if l.remaining == 0 then l.ring[0] else l.remaining;
      && rest != [] && left > 0 && t.dropped == l.dropped && t.accepted == l.accepted
      && (if answer == SUCCESS then t.ring == rest[1..] && t.remaining == left - 1 && t.emitted == l.emitted + [rest[0]]
          else t.ring == rest && t.remaining == left && t.emitted == l.emitted)
      && status == if answer == SUCCESS || answer == E_BUSY then PENDING else answer
  }

  lemma AttemptIs(l: Log, cap: nat, answer: int, report: seq<byte>)
    requires Inv(l) && IsText(report)
    ensures AttemptOutcome(l, cap, answer, report, Unbuffered(l, cap, answer, report), UnbufferStatus(l, answer))
  {
    hide Inv, Framed;
    FetchKeeps(l);
  }

  // ---- Flushing ----

  /** Answers of the stream after which the same character is offered again. */
  predicate NotNow(answer: int) { answer == E_BUSY || answer == PENDING }

  ghost predicate ReadyAfter(stream: nat -> int, i: nat) { exists j: nat :: i <= j && !NotNow(stream(j)) }

  /** The stream does not stay busy for good. */
  ghost predicate NeverStuck(stream: nat -> int) { forall i: nat :: ReadyAfter(stream, i) }

  /** The first attempt from i on, not after j, that does not find the stream busy. */
  ghost function FirstReady(stream: nat -> int, i: nat, j: nat): (k: nat)
    requires i <= j && !NotNow(stream(j))
    ensures i <= k <= j && !NotNow(stream(k)) && forall x: nat :: i <= x < k ==> NotNow(stream(x))
    decreases j - i
  {
    if !NotNow(stream(i)) then i else FirstReady(stream, i + 1, j)
  }

  /** The first attempt from i on that does not find the stream busy. */
  ghost function NextReady(stream: nat -> int, i: nat): (k: nat)
    requires NeverStuck(stream)
    ensures i <= k && !NotNow(stream(k)) && forall x: nat :: i <= x < k ==> NotNow(stream(x))
  {
    assert ReadyAfter(stream, i);
    var j: nat :| i <= j && !NotNow(stream(j));
    FirstReady(stream, i, j)
  }

  lemma PatienceShrinks(stream: nat -> int, i: nat)
    requires NeverStuck(stream) && NotNow(stream(i))
    ensures NextReady(stream, i + 1) == NextReady(stream, i)
  {
    var k, m := NextReady(stream, i), NextReady(stream, i + 1);
    assert !NotNow(stream(k)) && !NotNow(stream(m));
  }

  /**
   What an attempt does to the lexicographic measure of a flush: at the end it clears the drop
   count, and otherwise it takes bytes out of the ring unless the stream did not accept.
   */
  lemma AttemptEffect(l: Log, cap: nat, answer: int, report: seq<byte>)
    requires Inv(l) && IsText(report)
    ensures var t := Unbuffered(l, cap, answer, report);
      && t.dropped == (if AtEnd(l) then 0 else l.dropped)
      && t.accepted == l.accepted + (if AtEnd(l) && l.dropped > 0 then Reported(cap, report) else [])
      && (AtEnd(l) && l.dropped == 0 ==> t == l)
      && (!AtEnd(l) ==> |t.ring| <= |l.ring|)
      && (!AtEnd(l) && answer == SUCCESS ==> |t.ring| < |l.ring|)
      && l.emitted <= t.emitted
  {
    FetchKeeps(l);
  }

  class Logger {
    const ring: Ring
    var remaining: byte
    var dropped: nat
    ghost var accepted: seq<seq<byte>>
    ghost var emitted: seq<byte>

    ghost function View(): Log
      requires ring.Valid()
      reads this, ring, ring.storage
    {
      Log(ring.Contents(), remaining, dropped, accepted, emitted)
    }

    ghost predicate Valid()
      reads this, ring, ring.storage
    {
      ring.Valid() && Inv(View())
    }

    constructor (storage: array<byte>)
      requires storage.Length > 0
      ensures ring.storage == storage && fresh(ring) && Valid() && View() == Empty
    {
      ring := new Ring(storage);
      remaining, dropped, accepted, emitted := 0, 0, [], [];
      new;
      assert Framed(Empty, [], []);
    }

    /** Stores the message behind its length if both fit. */
    method Buffer(message: seq<byte>) returns (ok: bool)
      requires Valid() && IsText(message)
      modifies this`accepted, ring, ring.storage
      ensures ring.Valid()
      ensures ok == (|message| + 2 <= ring.storage.Length - |old(ring.Contents())|)
      ensures ring.Contents() == old(ring.Contents()) + (if ok then [|message| + 1] + message + [0] else [])
      ensures accepted == old(accepted) + (if ok then [message + [0]] else [])
      ensures View() == if ok then Printed(old(View()), ring.storage.Length, message) else old(View())
    {
      var length := |message| + 1;
      if 1 + length > ring.Free() {
        return false;
      }
      ghost var was := ring.Contents();
      var _ := ring.Push([length]);
      assert ring.Contents() == was + [length];
      var _ := ring.Push(message + [0]);
      assert ring.Contents() == was + [length] + (message + [0]) == was + ([length] + (message + [0]));
      accepted := accepted + [message + [0]];
      return true;
    }

    /** Buffers the message or counts it as dropped. */
    method Printf(message: seq<byte>)
      requires Valid() && IsText(message)
      modifies this`accepted, this`dropped, ring, ring.storage
      ensures Valid() && View() == Printed(old(View()), ring.storage.Length, message)
      ensures var ok := |message| + 2 <= ring.storage.Length - |old(ring.Contents())|;
        && accepted == old(accepted) + (if ok then [message + [0]] else [])
        && ring.Contents() == old(ring.Contents()) + (if ok then [|message| + 1] + message + [0] else [])
        && dropped == (if ok then old(dropped) else (old(dropped) + 1) % UINT_RANGE)
        && remaining == old(remaining) && emitted == old(emitted)
    {
      PrintKeeps(View(), ring.storage.Length, message);
      var ok := Buffer(message);
      if !ok {
        dropped := (dropped + 1) % UINT_RANGE;
      }
    }

    /** Offers one character to the stream, which gives the answer; at the end, reports dropped messages. */
    method Unbuffer(answer: int, report: seq<byte>) returns (status: int)
      requires Valid() && IsText(report)
      modifies this, ring, ring.storage
      ensures Valid() && View() == Unbuffered(old(View()), ring.storage.Length, answer, report)
      ensures status == UnbufferStatus(old(View()), answer)
      ensures AttemptOutcome(old(View()), ring.storage.Length, answer, report, View(), status)
    {
      AttemptIs(View(), ring.storage.Length, answer, report);
      ghost var l := View();
      UnbufferKeeps(l, ring.storage.Length, answer, report);
      var empty := Fetch();
      if !empty {
        status := Offer(answer);
        return;
      }
      status := SUCCESS;
      if dropped > 0 {
        Printf(report);
        dropped := 0;
        status := PENDING;
      }
    }

    /** Between messages, takes the length of the next one; says whether there is none. */
    method Fetch() returns (empty: bool)
      requires ring.Valid()
      modifies this`remaining, ring
      ensures ring.Valid() && View() == Fetched(old(View())) && empty == AtEnd(old(View()))
    {
      if remaining > 0 {
        return false;
      }
      var length := new byte[1];
      var n := ring.Pop(length, 1);
      if n == 0 {
        return true;
      }
      assert length[..][0] == old(ring.Contents())[0];
      remaining := length[0];
      return false;
    }

    /** Offers the next character; a success takes it out. */
    method Offer(answer: int) returns (status: int)
      requires ring.Valid() && ring.Contents() != [] && remaining > 0
      modifies this, ring, ring.storage
      ensures ring.Valid() && View() == if answer == SUCCESS then Sent(old(View())) else old(View())
      ensures status == if answer == SUCCESS || answer == E_BUSY then PENDING else answer
    {
      var ch := new byte[1];
      var fetched := ring.Peek(ch, 1);
      assert fetched == 1;
      status := answer;
      if status == SUCCESS {
        emitted := emitted + [ch[0]];
        var _ := ring.Pop(ch, 1);
        remaining := remaining - 1;
        status := PENDING;
      } else if status == E_BUSY {
        status := PENDING;
      }
    }

    /**
     Repeats until nothing is left or the stream fails. The stream answers the i-th attempt with
     stream(i), if that attempt offers it a character; used counts the attempts made.
     */
    method Flush(stream: nat -> int, report: seq<byte>) returns (status: int, used: nat)
      requires Valid() && IsText(report) && NeverStuck(stream)
      modifies this, ring, ring.storage
      ensures Valid() && status != PENDING && status != E_BUSY && old(emitted) <= emitted
      ensures accepted == old(accepted)
        || (old(dropped) > 0 == dropped && accepted == old(accepted) + Reported(ring.storage.Length, report))
      ensures status == SUCCESS ==> emitted == Flat(accepted) && dropped == 0 && ring.Contents() == [] && remaining == 0
      ensures status == SUCCESS && old(dropped) > 0 ==>
        accepted == old(accepted) + Reported(ring.storage.Length, report)
      ensures status != SUCCESS ==> used > 0 && status == stream(used - 1)
    {
      hide AttemptOutcome, Unbuffered, UnbufferStatus, Framed;
      used := 0;
      status := PENDING;
      ghost var n, extra := ring.storage.Length, Reported(ring.storage.Length, report);
      while status == PENDING
        invariant Valid() && old(emitted) <= emitted
        invariant (dropped == old(dropped) && accepted == old(accepted))
          || (old(dropped) > 0 == dropped && accepted == old(accepted) + extra)
        invariant status == SUCCESS ==> AtEnd(View()) && dropped == 0
        invariant status != E_BUSY
        invariant status != SUCCESS && status != PENDING ==> used > 0 && status == stream(used - 1)
        decreases if dropped > 0 then 1 else 0, |ring.Contents()|, status == PENDING, NextReady(stream, used) - used
      {
        ghost var l, answer := View(), stream(used);
        status := Unbuffer(stream(used), report);
        AttemptEffect(l, n, answer, report);
        if NotNow(answer) {
          PatienceShrinks(stream, used);
        }
        used := used + 1;
      }
      NextCharacter(View());
    }
  }

  /** What reporting dropped messages adds to the accepted ones, the ring being empty. */
  function Reported(cap: nat, report: seq<byte>): seq<seq<byte>> {
    if |report| + 2 <= cap then [report + [0]] else []
  }
}
