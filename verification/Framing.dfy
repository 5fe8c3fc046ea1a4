/** Binary feed framing (dhan_feed.py): one message carries packets end to end, each with its length in its header. */
module Framing {
  import opened Wrappers

  newtype byte = x: int | 0 <= x < 256

  type Packet = seq<byte>

  function Word(lo: byte, hi: byte): (w: int)
    ensures 0 <= w < 65536
  {
    lo as int + 256 * (hi as int)
  }

  const HEADER: int := 8
  const DISCONNECT: byte := 50

  /** The packet's own header states its length, and it is no disconnect notice. */
  predicate Framed(k: Packet) {
    |k| >= HEADER && Word(k[1], k[2]) == |k| && k[0] != DISCONNECT
  }

  predicate AllFramed(ks: seq<Packet>) {
    forall j :: 0 <= j < |ks| ==> Framed(ks[j])
  }

  function Concat(ks: seq<Packet>): seq<byte> {
    if ks == [] then [] else ks[0] + Concat(ks[1..])
  }

  datatype End = Complete | TruncatedHeader | BadLength | Disconnected(code: Option<int>)

  /** What a consumer of the generator sees: the packets yielded, and how it ended. */
  datatype Outcome = Outcome(packets: seq<Packet>, end: End)

  /** The observed empty startup snapshot: a contract header of length 70 over 100 bytes of empty depth. */
  predicate Startup(p: seq<byte>) {
    && |p| == 162 && p[0] == 8 && Word(p[1], p[2]) == 70 && p[3] == 2
    && (p[4] != 0 || p[5] != 0 || p[6] != 0 || p[7] != 0)
    && forall j :: 62 <= j < 162 ==> p[j] == 0
  }

  function Frames(p: seq<byte>): Outcome
    decreases |p|
  {
    if p == [] then Outcome([], Complete)
    else if |p| < HEADER then Outcome([], TruncatedHeader)
    else
      var length := Word(p[1], p[2]);
      if length < HEADER || length > |p| then Outcome([], BadLength)
      else if p[0] == DISCONNECT then Outcome([], Disconnected(if length >= 10 then Some(Word(p[8], p[9])) else None))
      else
        var rest := Frames(p[length..]);
        Outcome([p[..length]] + rest.packets, rest.end)
  }

  function Split(p: seq<byte>): Outcome {
    if Startup(p) then Outcome([p], Complete) else Frames(p)
  }

  // ---------- Round trips ----------

  lemma OneFrame(k: Packet, rest: seq<byte>)
    requires Framed(k)
    ensures Frames(k + rest) == Outcome([k] + Frames(rest).packets, Frames(rest).end)
  {
    var p := k + rest;
    assert p[0] == k[0] && p[1] == k[1] && p[2] == k[2];
    assert p[..|k|] == k && p[|k|..] == rest;
  }

  lemma {:induction false} FramesOfConcat(ks: seq<Packet>, tail: seq<byte>)
    requires AllFramed(ks)
    ensures Frames(Concat(ks) + tail) == Outcome(ks + Frames(tail).packets, Frames(tail).end)
  {
    hide Frames, Framed;
    if ks == [] {
      assert Concat(ks) + tail == tail && ks + Frames(tail).packets == Frames(tail).packets;
    } else {
      var rest := Concat(ks[1..]) + tail;
      FramesOfConcat(ks[1..], tail);
      OneFrame(ks[0], rest);
      assert Concat(ks) + tail == ks[0] + rest;
      assert ks + Frames(tail).packets == [ks[0]] + (ks[1..] + Frames(tail).packets);
    }
  }

  /** The startup exception can never swallow a message of well-formed packets. */
  lemma StartupIsNoConcat(ks: seq<Packet>)
    requires AllFramed(ks)
    ensures !Startup(Concat(ks))
  {
    var p := Concat(ks);
    if ks != [] && |p| == 162 && |ks[0]| == 70 {
      assert p == ks[0] + Concat(ks[1..]);
      var next := ks[1..];
      assert next != [];
      assert Concat(next) == next[0] + Concat(next[1..]);
      assert p[71] == next[0][1] && p[72] == next[0][2];
    }
  }

  /** Splitting a message of any well-formed packets gives back exactly those packets. */
  lemma {:induction false} RoundTrip(ks: seq<Packet>)
    requires AllFramed(ks)
    ensures Split(Concat(ks)) == Outcome(ks, Complete)
  {
    StartupIsNoConcat(ks);
    FramesOfConcat(ks, []);
    assert Concat(ks) + [] == Concat(ks);
  }

  /** A packet as the feed writes it: a code, its own length with the low byte first, and the rest. */
  function Build(code: byte, rest: seq<byte>): (k: Packet)
    requires 5 <= |rest| <= 65532
    ensures |k| == |rest| + 3
  {
    var n := |rest| + 3;
    [code, (n % 256) as byte, (n / 256) as byte] + rest
  }

  datatype Part = Part(code: byte, rest: seq<byte>)

  /** No disconnect notice, at least a whole header, and short enough for two bytes of length. */
  predicate Sendable(x: Part) { x.code != 50 && 5 <= |x.rest| <= 65532 }

  function BuildAll(xs: seq<Part>): (ks: seq<Packet>)
    requires forall j :: 0 <= j < |xs| ==> Sendable(xs[j])
    ensures |ks| == |xs|
  {
    if xs == [] then [] else assert Sendable(xs[0]); [Build(xs[0].code, xs[0].rest)] + BuildAll(xs[1..])
  }

  lemma BuiltIsFramed(code: byte, rest: seq<byte>)
    requires code != 50 && 5 <= |rest| <= 65532
    ensures Framed(Build(code, rest))
  {}

  /** Packets written with little-endian lengths come back from one message as they were, each with its code and rest. */
  lemma {:induction false} WrittenIsRead(xs: seq<Part>)
    requires forall j :: 0 <= j < |xs| ==> Sendable(xs[j])
    ensures Split(Concat(BuildAll(xs))) == Outcome(BuildAll(xs), Complete)
    ensures forall j :: 0 <= j < |xs| ==> var k := BuildAll(xs)[j]; |k| >= 8 && k[0] == xs[j].code && k[3..] == xs[j].rest
  {
    BuildAllFramed(xs);
    RoundTrip(BuildAll(xs));
  }

  lemma {:induction false} BuildAllFramed(xs: seq<Part>)
    requires forall j :: 0 <= j < |xs| ==> Sendable(xs[j])
    ensures AllFramed(BuildAll(xs))
    ensures forall j :: 0 <= j < |xs| ==> var k := BuildAll(xs)[j]; |k| >= 8 && k[0] == xs[j].code && k[3..] == xs[j].rest
  {
    if xs != [] {
      BuiltIsFramed(xs[0].code, xs[0].rest);
      BuildAllFramed(xs[1..]);
      var head := Build(xs[0].code, xs[0].rest);
      assert head[3..] == xs[0].rest;
      hide Build, Framed;
      forall j | 0 <= j < |xs|
        ensures Framed(BuildAll(xs)[j])
        ensures var k := BuildAll(xs)[j]; |k| >= 8 && k[0] == xs[j].code && k[3..] == xs[j].rest
      {
        if j > 0 {
          assert BuildAll(xs)[j] == BuildAll(xs[1..])[j - 1] && xs[j] == xs[1..][j - 1];
        }
      }
    }
  }

  /** A notice to disconnect ends the message after the packets before it, with its little-endian code if it has one. */
  lemma DisconnectIsRead(xs: seq<Part>, rest: seq<byte>, after: seq<byte>)
    requires (forall j :: 0 <= j < |xs| ==> Sendable(xs[j])) && 5 <= |rest| <= 65532
    ensures Split(Concat(BuildAll(xs)) + (Build(50, rest) + after)) ==
            Outcome(BuildAll(xs), Disconnected(if |rest| >= 7 then Some(rest[5] as int + 256 * (rest[6] as int)) else None))
  {
    var tail := Build(50, rest) + after;
    BuildAllFramed(xs);
    NoticeIsRead(rest, after);
    hide Build, BuildAll, Frames, Framed, Startup, Word, Concat;
    FramesOfConcat(BuildAll(xs), tail);
    assert BuildAll(xs) + [] == BuildAll(xs);
    StartupIsNotCut(BuildAll(xs), tail);
  }

  lemma NoticeIsRead(rest: seq<byte>, after: seq<byte>)
    requires 5 <= |rest| <= 65532
    ensures var tail := Build(50, rest) + after;
            && |tail| >= HEADER && Word(tail[1], tail[2]) >= HEADER && tail[0] == 50
            && Frames(tail) == Outcome([], Disconnected(if |rest| >= 7 then Some(rest[5] as int + 256 * (rest[6] as int)) else None))
  {
    var notice := Build(50, rest);
    var tail := notice + after;
    assert tail[0] == 50 && tail[1] == notice[1] && tail[2] == notice[2];
    assert Word(tail[1], tail[2]) == |notice|;
    assert |rest| >= 7 ==> tail[8] == rest[5] && tail[9] == rest[6];
  }

  /** Nor can it swallow a message with another packet, or a notice, after them. */
  lemma StartupIsNotCut(ks: seq<Packet>, tail: seq<byte>)
    requires AllFramed(ks) && |tail| >= HEADER && Word(tail[1], tail[2]) >= HEADER && tail[0] != 8
    ensures !Startup(Concat(ks) + tail)
  {
    var p := Concat(ks) + tail;
    if ks == [] {
      assert p == tail;
    } else if |p| == 162 && |ks[0]| == 70 {
      var after := Concat(ks[1..]) + tail;
      assert p == ks[0] + after;
      if ks[1..] == [] {
        assert after == tail;
      } else {
        assert Concat(ks[1..]) == ks[1] + Concat(ks[1..][1..]);
        assert after[1] == ks[1][1] && after[2] == ks[1][2];
      }
      assert p[71] == after[1] && p[72] == after[2];
    }
  }

  /** The one message kept whole: 162 bytes, code 8, a stated length of 70 low byte first, segment 2, a contract, and no depth. */
  lemma SnapshotIsWhole(p: seq<byte>)
    requires |p| == 162 && p[0] == 8 && p[1] == 70 && p[2] == 0 && p[3] == 2
    requires (exists j :: 4 <= j < 8 && p[j] != 0) && forall j :: 62 <= j < 162 ==> p[j] == 0
    ensures Split(p) == Outcome([p], Complete)
  {}

  /** A sequence of packets can be read in one way only. */
  lemma OneReading(ks: seq<Packet>, ls: seq<Packet>)
    requires AllFramed(ks) && AllFramed(ls) && Concat(ks) == Concat(ls)
    ensures ks == ls
  {
    RoundTrip(ks);
    RoundTrip(ls);
  }

  lemma {:induction false} FramesCover(p: seq<byte>)
    ensures var r := Frames(p);
            && AllFramed(r.packets) && Concat(r.packets) <= p
            && Stops(p[|Concat(r.packets)|..], r.end)
    decreases |p|
  {
    if Frames(p).packets == [] {
      assert p[0..] == p;
    } else {
      var length := Word(p[1], p[2]);
      FramesCover(p[length..]);
      CoverOneMore(p, p[..length], p[length..], Frames(p[length..]).packets);
    }
  }

  lemma CoverOneMore(p: seq<byte>, k: Packet, tail: seq<byte>, rest: seq<Packet>)
    requires p == k + tail && Concat(rest) <= tail
    ensures Concat([k] + rest) == k + Concat(rest) && Concat([k] + rest) <= p
    ensures p[|Concat([k] + rest)|..] == tail[|Concat(rest)|..]
  {
    assert ([k] + rest)[1..] == rest;
  }

  /** Why nothing more can be read from here. */
  predicate Stops(tail: seq<byte>, end: End) {
    match end
    case Complete => tail == []
    case TruncatedHeader => 0 < |tail| < HEADER
    case BadLength => |tail| >= HEADER && !(HEADER <= Word(tail[1], tail[2]) <= |tail|)
    case Disconnected(code) =>
      && |tail| >= HEADER && tail[0] == DISCONNECT && HEADER <= Word(tail[1], tail[2]) <= |tail|
      && code == if Word(tail[1], tail[2]) >= 10 then Some(Word(tail[8], tail[9])) else None
  }

  /**
   Of any message, the packets yielded are its longest readable beginning, cut into well-formed packets;
   what is left says how it ended. Only the startup snapshot is yielded whole.
   */
  lemma SplitCovers(p: seq<byte>)
    ensures var r := Split(p);
            && Concat(r.packets) <= p && (r.end == Complete <==> Concat(r.packets) == p)
            && (Startup(p) ==> r == Outcome([p], Complete))
            && (!Startup(p) ==> AllFramed(r.packets) && Stops(p[|Concat(r.packets)|..], r.end))
  {
    if Startup(p) {
      assert Concat([p]) == p + Concat([]);
    } else {
      FramesCover(p);
      assert p == Concat(Split(p).packets) + p[|Concat(Split(p).packets)|..];
    }
  }

  /** Beside the startup snapshot, the readable messages are exactly the concatenations of well-formed packets. */
  lemma ReadableIff(p: seq<byte>, ks: seq<Packet>)
    requires !Startup(p)
    ensures Split(p) == Outcome(ks, Complete) <==> AllFramed(ks) && Concat(ks) == p
  {
    SplitCovers(p);
    if AllFramed(ks) && Concat(ks) == p {
      RoundTrip(ks);
    }
  }

  // ---------- The loop ----------

  lemma NextFrame(payload: seq<byte>, offset: nat, length: nat)
    requires HEADER <= length <= |payload| - offset
    requires Word(payload[offset + 1], payload[offset + 2]) == length && payload[offset] != DISCONNECT
    ensures var rest := Frames(payload[offset + length..]);
            Frames(payload[offset..]) == Outcome([payload[offset..offset + length]] + rest.packets, rest.end)
  {
    var tail := payload[offset..];
    assert tail[..length] == payload[offset..offset + length] && tail[length..] == payload[offset + length..];
  }

  lemma NoFrame(tail: seq<byte>, end: End)
    requires Stops(tail, end)
    ensures Frames(tail) == Outcome([], end)
  {}

  method Packets(payload: seq<byte>) returns (r: Outcome)
    ensures r == Split(payload)
  {
    hide Frames, Startup, Word, Stops;
    if Startup(payload) {
      return Outcome([payload], Complete);
    }
    var offset, yielded := 0, [];
    assert payload[0..] == payload;
    while offset < |payload|
      invariant 0 <= offset <= |payload|
      invariant var rest := Frames(payload[offset..]); Frames(payload) == Outcome(yielded + rest.packets, rest.end)
    {
      if |payload| - offset < HEADER {
        StopsAt(payload, offset, TruncatedHeader);
        return Outcome(yielded, TruncatedHeader);
      }
      var length := Word(payload[offset + 1], payload[offset + 2]);
      if length < HEADER || offset + length > |payload| {
        StopsAt(payload, offset, BadLength);
        return Outcome(yielded, BadLength);
      }
      var packet := payload[offset..offset + length];
      if packet[0] == DISCONNECT {
        var code := if |packet| >= 10 then Some(Word(packet[8], packet[9])) else None;
        StopsAt(payload, offset, Disconnected(code));
        return Outcome(yielded, Disconnected(code));
      }
      NextFrame(payload, offset, length);
      assert yielded + ([packet] + Frames(payload[offset + length..]).packets)
          == yielded + [packet] + Frames(payload[offset + length..]).packets;
      yielded := yielded + [packet];
      offset := offset + length;
    }
    StopsAt(payload, offset, Complete);
    r := Outcome(yielded, Complete);
  }

  lemma StopsAt(payload: seq<byte>, offset: nat, end: End)
    requires offset <= |payload|
    requires match end
             case Complete => offset == |payload|
             case TruncatedHeader => offset < |payload| < offset + HEADER
             case BadLength => |payload| - offset >= HEADER
                               && !(HEADER <= Word(payload[offset + 1], payload[offset + 2]) <= |payload| - offset)
             case Disconnected(code) =>
               && |payload| - offset >= HEADER && payload[offset] == DISCONNECT
               && HEADER <= Word(payload[offset + 1], payload[offset + 2]) <= |payload| - offset
               && code == if Word(payload[offset + 1], payload[offset + 2]) >= 10
                          then Some(Word(payload[offset + 8], payload[offset + 9])) else None
    ensures Frames(payload[offset..]) == Outcome([], end)
    ensures forall before: seq<Packet> :: before + Frames(payload[offset..]).packets == before
  {
    NoFrame(payload[offset..], end);
  }
}
