/**
 Message blocks: `command_add_frame` and `command_find_block` of `src/command.c`, and
 `check_packet` of `klippy/msgproto.py`.
 */
module Frames {
  import opened Checksums
  import opened Messages
  import opened Vlq

  const MIN := 5
  const MAX := 64
  const DEST: byte := 0x10

  /** A block: length, sequence number, payload, checksum and SYNC. */
  function Frame(payload: seq<byte>, seqno: byte): (s: seq<byte>)
    requires |payload| <= MAX - MIN
    ensures |s| == |payload| + MIN
  {
    var body := [|payload| + MIN, seqno] + payload;
    body + [High(Crc(body)), Low(Crc(body)), SYNC]
  }

  /** `command_add_frame`, around a payload already in the buffer. */
  method AddFrame(buf: array<byte>, msglen: nat, nextSequence: byte)
    requires MIN <= msglen <= MAX && msglen <= buf.Length
    modifies buf
    ensures buf[..msglen] == Frame(old(buf[HEADER..msglen - TRAILER]), nextSequence)
    ensures buf[msglen..] == old(buf[msglen..])
  {
    hide Crc, High, Low;
    buf[0] := msglen;
    buf[1] := nextSequence;
    var crc := CrcC(buf[..msglen - TRAILER]);
    ghost var payload := old(buf[HEADER..msglen - TRAILER]);
    assert buf[..msglen - TRAILER] == [|payload| + MIN, nextSequence] + payload;
    buf[msglen - 3] := High(crc);
    buf[msglen - 2] := Low(crc);
    buf[msglen - 1] := SYNC;
  }

  /** What stands at the front of a buffer. */
  datatype Look = NeedMore | Bad | Good(len: nat)

  function LookAt(s: seq<byte>): (l: Look)
    ensures l.Good? ==> MIN <= l.len <= MAX && l.len <= |s|
  {
    if |s| < MIN then NeedMore
    else if s[0] < MIN || s[0] > MAX then Bad
    else if s[1] / 16 != 1 then Bad
    else if |s| < s[0] then NeedMore
    else if s[s[0] - 1] != SYNC then Bad
    else if s[s[0] - 3] != High(Crc(s[..s[0] - TRAILER])) || s[s[0] - 2] != Low(Crc(s[..s[0] - TRAILER])) then Bad
    else Good(s[0])
  }

  /** Only a frame is good. */
  lemma GoodIsFrame(s: seq<byte>)
    requires LookAt(s).Good?
    ensures var len := LookAt(s).len; s[..len] == Frame(s[HEADER..len - TRAILER], s[1]) && s[1] / 16 == 1
  {
    hide Crc, High, Low;
    var len := LookAt(s).len;
    assert s[..len - TRAILER] == [len, s[1]] + s[HEADER..len - TRAILER];
    assert s[..len] == s[..len - TRAILER] + [s[len - 3], s[len - 2], s[len - 1]];
  }

  /** Every frame is good, whatever comes after it. */
  lemma FrameIsGood(payload: seq<byte>, seqno: byte, after: seq<byte>)
    requires |payload| <= MAX - MIN && seqno / 16 == 1
    ensures LookAt(Frame(payload, seqno) + after) == Good(|payload| + MIN)
  {
    hide Crc, High, Low;
    var s, len := Frame(payload, seqno) + after, |payload| + MIN;
    assert s[..len - TRAILER] == [len, seqno] + payload;
  }

  /** Byte by byte: what stands where in a block. */
  lemma FrameLayout(payload: seq<byte>, seqno: byte)
    requires |payload| <= 59
    ensures var s := Frame(payload, seqno); var n := |payload| + 5;
            && |s| == n && s[0] == n && s[1] == seqno && s[2..n - 3] == payload
            && (s[n - 3] as int) * 256 + s[n - 2] == Crc(s[..n - 3]) as int
            && s[n - 1] == 0x7e
  {
    hide Crc, High, Low;
    var body := [|payload| + 5, seqno] + payload;
    Halves(Crc(body));
    assert Frame(payload, seqno)[..|payload| + 2] == body;
  }

  /** A block is good only if its trailer is that of its body. */
  lemma GoodTrailer(s: seq<byte>, after: seq<byte>)
    requires MIN <= |s| <= MAX && s[0] == |s|
    ensures LookAt(s + after) == Bad || LookAt(s + after) == Good(|s|)
    ensures LookAt(s + after).Good? ==> var crc := Crc(s[..|s| - TRAILER]);
              s[|s| - 3] == High(crc) && s[|s| - 2] == Low(crc) && s[|s| - 1] == SYNC
  {
    hide Crc, High, Low;
    assert (s + after)[..|s| - TRAILER] == s[..|s| - TRAILER];
  }

  /**
   A block with damage is rejected: up to two adjacent bytes between its length and its
   checksum, or any one byte but its length.
   */
  lemma DamageIsSeen(payload: seq<byte>, seqno: byte, damaged: seq<byte>, j: nat, after: seq<byte>)
    requires |payload| <= MAX - MIN && 1 <= j
    requires Burst(Frame(payload, seqno), damaged, j)
    requires j + 1 < |payload| + HEADER || (j + 1 < |damaged| ==> damaged[j + 1] == Frame(payload, seqno)[j + 1])
    ensures LookAt(damaged + after) == Bad
  {
    hide Crc, High, Low, LookAt;
    var s, n := Frame(payload, seqno), |payload| + MIN;
    var body, body' := s[..n - TRAILER], damaged[..n - TRAILER];
    assert body == [n, seqno] + payload;
    GoodTrailer(damaged, after);
    if body != body' {
      CrcSeesBurst(body, body', j);
      PairsDiffer(Crc(body), Crc(body'));
    } else {
      assert s == body + s[n - TRAILER..] && damaged == body' + damaged[n - TRAILER..];
      assert s[n - TRAILER..] == [s[n - 3], s[n - 2], s[n - 1]];
      assert damaged[n - TRAILER..] == [damaged[n - 3], damaged[n - 2], damaged[n - 1]];
    }
  }

  /** Exactly when more data is asked for: a short buffer, or a plausible header and less than it announces. */
  lemma NeedMoreIs(s: seq<byte>)
    ensures LookAt(s).NeedMore? <==> |s| < 5 || (5 <= s[0] <= 64 && 0x10 <= s[1] < 0x20 && |s| < s[0])
  {
  }

  /** No part of a frame is given up: what can still become one is not bad. */
  lemma NeverGivesUp(s: seq<byte>, t: seq<byte>)
    requires LookAt(s + t).Good?
    ensures LookAt(s).NeedMore? || LookAt(s) == LookAt(s + t)
  {
    hide Crc, High, Low;
    if |s| >= MIN && MIN <= s[0] <= |s| {
      assert (s + t)[..s[0] - TRAILER] == s[..s[0] - TRAILER];
    }
  }

  /** And what is waited for can come: while the checksum is outstanding, some continuation is a frame. */
  lemma CanComplete(s: seq<byte>) returns (t: seq<byte>)
    requires LookAt(s).NeedMore? && |s| >= 5 && |s| <= s[0] - 3
    ensures LookAt(s + t) == Good(s[0])
  {
    hide Crc, High, Low;
    var body := s + seq(s[0] - TRAILER - |s|, _ => 0);
    t := body[|s|..] + [High(Crc(body)), Low(Crc(body)), SYNC];
    assert s + t == body + [High(Crc(body)), Low(Crc(body)), SYNC];
    assert (s + t)[..s[0] - TRAILER] == body;
  }

  /** `check_packet` of the host: the length of a good block, 0 for more data, -1 for a bad one. */
  method CheckPacket(s: seq<byte>) returns (r: int)
    ensures r == match LookAt(s) case NeedMore => 0 case Bad => -1 case Good(len) => len
  {
    hide Crc, High, Low;
    if |s| < MIN {
      return 0;
    }
    var msglen := s[0];
    if msglen < MIN || msglen > MAX {
      return -1;
    }
    if s[1] / 16 * 16 != DEST {
      return -1;
    }
    if |s| < msglen {
      return 0;
    }
    if s[msglen - 1] != SYNC {
      return -1;
    }
    var msgcrc := s[msglen - 3..msglen - 1];
    var crc := Crc(s[..msglen - TRAILER]);
    if [High(crc), Low(crc)] != msgcrc {
      return -1;
    }
    return msglen;
  }
}
