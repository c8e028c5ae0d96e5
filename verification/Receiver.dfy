/**
 The firmware's receiver, `command_find_block` of `src/command.c`, over whole byte
 streams: it finds blocks, skips noise up to the next SYNC byte and takes blocks in
 sequence.
 */
module Receivers {
  import opened Checksums
  import opened Frames
  import opened Messages
  import opened Vlq

  /** `sync_state` and `next_sequence`. */
  datatype State = State(needSync: bool, needValid: bool, next: byte)

  /** What a call leads to: a block to dispatch, or a nak for a stale block or for noise. */
  datatype Outcome = Accept(block: seq<byte>) | Stale(block: seq<byte>) | Noise

  datatype Found = Found(result: int, pop: nat, state: State, outcomes: seq<Outcome>)

  /** The sequence byte of block number `n`. */
  function SeqByte(n: int): byte {
    n % 16 + DEST
  }

  /** The place of the first SYNC byte, or the length. */
  function FirstSync(s: seq<byte>): (k: nat)
    ensures k <= |s| && SYNC !in s[..k] && (k < |s| ==> s[k] == SYNC)
  {
    if s == [] then 0 else if s[0] == SYNC then 0
    else
      var k := FirstSync(s[1..]) + 1;
      assert s[..k] == [s[0]] + s[1..][..k - 1];
      k
  }

  lemma FirstSyncIs(s: seq<byte>, k: nat)
    requires k <= |s| && SYNC !in s[..k] && (k < |s| ==> s[k] == SYNC)
    ensures FirstSync(s) == k
  {
  }

  function Resync(st: State, s: seq<byte>): Found {
    var k := FirstSync(s);
    var after := if k < |s| then st.(needSync := false) else st;
    var pop := if k < |s| then k + 1 else |s|;
    if st.needValid then Found(-1, pop, after, []) else Found(-1, pop, after.(needValid := true), [Noise])
  }

  function Find(st: State, s: seq<byte>): Found {
    if s != [] && st.needSync then Resync(st, s)
    else
      match LookAt(s)
      case NeedMore => Found(0, 0, st, [])
      case Bad => if s[0] == SYNC then Found(-1, 1, st, []) else Resync(st.(needSync := true), s)
      case Good(len) =>
        if s[1] != st.next then Found(-1, len, st.(needValid := false), [Stale(s[..len])])
        else Found(1, len, st.(needValid := false, next := SeqByte(s[1] + 1)), [Accept(s[..len])])
  }

  /** Every call that is not for more data consumes something; more data is asked for only below 64 bytes. */
  lemma Progress(st: State, s: seq<byte>)
    ensures var f := Find(st, s);
            && (f.result != 0 ==> 1 <= f.pop <= |s|)
            && (f.result == 0 ==> f.pop == 0 && |s| < MAX && f.state == st && f.outcomes == [])
  {
  }

  class Receiver {
    var needSync: bool
    var needValid: bool
    var next: byte

    ghost function Status(): State
      reads this
    {
      State(needSync, needValid, next)
    }

    constructor ()
      ensures Status() == State(false, false, DEST)
    {
      needSync, needValid, next := false, false, DEST;
    }

    /** `command_find_block`. */
    method FindBlock(buf: seq<byte>) returns (result: int, pop: nat, ghost outcomes: seq<Outcome>)
      modifies this
      ensures Find(old(Status()), buf) == Found(result, pop, Status(), outcomes)
      ensures result != 0 ==> 1 <= pop <= |buf|
      ensures result == 0 ==> pop == 0 && |buf| < MAX
    {
      hide Crc, High, Low, FirstSync;
      Progress(Status(), buf);
      outcomes := [];
      if |buf| > 0 && needSync {
        result, pop, outcomes := NeedSync(buf);
        return;
      }
      if |buf| < MIN {
        return 0, 0, [];
      }
      var msglen := buf[0];
      if MIN <= msglen <= MAX {
        var msgseq := buf[1];
        if msgseq / 16 * 16 == DEST {
          if |buf| < msglen {
            return 0, 0, [];
          }
          var crc := CrcC(buf[..msglen - TRAILER]);
          if buf[msglen - 1] == SYNC && buf[msglen - 3] == High(crc) && buf[msglen - 2] == Low(crc) {
            needValid := false;
            if msgseq != next {
              return -1, msglen, [Stale(buf[..msglen])];
            }
            next := (msgseq + 1) % 16 + DEST;
            return 1, msglen, [Accept(buf[..msglen])];
          }
        }
      }
      if buf[0] == SYNC {
        return -1, 1, [];
      }
      needSync := true;
      result, pop, outcomes := NeedSync(buf);
    }

    /** The part of `command_find_block` that discards bytes. */
    method NeedSync(buf: seq<byte>) returns (result: int, pop: nat, ghost outcomes: seq<Outcome>)
      modifies this
      ensures Resync(old(Status()), buf) == Found(result, pop, Status(), outcomes)
    {
      var k := 0;
      while k < |buf| && buf[k] != SYNC
        invariant k <= |buf| && SYNC !in buf[..k]
      {
        k := k + 1;
      }
      FirstSyncIs(buf, k);
      if k < |buf| {
        needSync := false;
        pop := k + 1;
      } else {
        pop := |buf|;
      }
      outcomes := if needValid then [] else [Noise];
      needValid := true;
      result := -1;
    }
  }

  // ----- whole streams -----------------------------------------------------------------------

  /** What is left after a run, and what came of it. */
  datatype Run = Run(outcomes: seq<Outcome>, rest: seq<byte>, state: State)

  /** Calls `command_find_block` until it asks for more data. */
  function Drain(st: State, s: seq<byte>): Run
    decreases |s|
  {
    var f := Find(st, s);
    Progress(st, s);
    if f.result == 0 then Run([], s, st) else After(f.outcomes, Drain(f.state, s[f.pop..]))
  }

  function After(outcomes: seq<Outcome>, r: Run): Run {
    Run(outcomes + r.outcomes, r.rest, r.state)
  }

  /** More bytes do not change what is seen at the front. */
  lemma LookStable(a: seq<byte>, b: seq<byte>)
    requires !LookAt(a).NeedMore?
    ensures LookAt(a + b) == LookAt(a) && |a| >= MIN
  {
    hide Crc, High, Low;
    if |a| >= MIN && MIN <= a[0] <= |a| {
      assert (a + b)[..a[0] - TRAILER] == a[..a[0] - TRAILER];
    }
  }

  lemma NothingToSee()
    ensures LookAt([]) == NeedMore
  {
  }

  lemma FirstSyncStable(a: seq<byte>, b: seq<byte>)
    ensures FirstSync(a + b) == if FirstSync(a) < |a| then FirstSync(a) else |a| + FirstSync(b)
  {
    var k := FirstSync(a);
    if k < |a| {
      assert (a + b)[..k] == a[..k];
      FirstSyncIs(a + b, k);
    } else {
      var j := FirstSync(b);
      assert a[..k] == a && (a + b)[..|a| + j] == a + b[..j];
      FirstSyncIs(a + b, |a| + j);
    }
  }

  /** The receiver discards all of `s` and is still looking for a SYNC byte. */
  predicate Swallows(st: State, s: seq<byte>) {
    s != [] && (st.needSync || (LookAt(s).Bad? && s[0] != SYNC)) && FirstSync(s) == |s|
  }

  /** A call that found what it was looking for does the same with more bytes behind. */
  lemma FindStable(st: State, a: seq<byte>, b: seq<byte>)
    requires Find(st, a).result != 0 && !Swallows(st, a)
    ensures Find(st, a + b) == Find(st, a)
  {
    hide LookAt, FirstSync;
    NothingToSee();
    if !st.needSync {
      LookStable(a, b);
      if LookAt(a).Good? {
        assert (a + b)[..LookAt(a).len] == a[..LookAt(a).len];
      }
    }
    FirstSyncStable(a, b);
  }

  /** A call that discards everything leaves the search to the next one. */
  lemma SwallowThenMore(st: State, a: seq<byte>, b: seq<byte>)
    requires Swallows(st, a)
    ensures var f := Find(st, a);
            && f.result == -1 && f.pop == |a| && f.state.needSync && f.state.needValid
            && (b != [] ==>
                  var g := Find(f.state, b);
                  && g.result == -1 && g.outcomes == []
                  && Find(st, a + b) == Found(-1, |a| + g.pop, g.state, f.outcomes))
  {
    hide LookAt, FirstSync;
    if !st.needSync {
      LookStable(a, b);
    }
    FirstSyncStable(a, b);
  }

  /**
   What the receiver makes of a stream does not depend on where it is cut: draining it
   in two parts is draining it at once.
   */
  lemma {:induction false} ChunksDoNotMatter(st: State, a: seq<byte>, b: seq<byte>)
    ensures var first := Drain(st, a);
            Drain(st, a + b) == After(first.outcomes, Drain(first.state, first.rest + b))
    decreases |a|
  {
    hide Find, After;
    var f := Find(st, a);
    Progress(st, a);
    if f.result == 0 {
      AfterNothing(Drain(st, a + b));
    } else if Swallows(st, a) {
      Swallowed(st, a, b);
    } else {
      FindStable(st, a, b);
      Progress(st, a + b);
      assert (a + b)[f.pop..] == a[f.pop..] + b;
      ChunksDoNotMatter(f.state, a[f.pop..], b);
      var later := Drain(f.state, a[f.pop..]);
      AfterAfter(f.outcomes, later.outcomes, Drain(later.state, later.rest + b));
      AfterFields(f.outcomes, later);
    }
  }

  lemma Swallowed(st: State, a: seq<byte>, b: seq<byte>)
    requires Swallows(st, a)
    ensures var first := Drain(st, a);
            Drain(st, a + b) == After(first.outcomes, Drain(first.state, first.rest + b))
  {
    hide Find, After, Swallows, Drain;
    SwallowThenMore(st, a, b);
    var f := Find(st, a);
    DrainStep(st, a);
    assert a[f.pop..] == [];
    DrainNothing(f.state);
    AfterFields(f.outcomes, Run([], [], f.state));
    assert [] + b == b && f.outcomes + [] == f.outcomes;
    if b == [] {
      assert a + b == a;
    } else {
      var g := Find(f.state, b);
      DrainStep(f.state, b);
      DrainStep(st, a + b);
      assert (a + b)[|a| + g.pop..] == b[g.pop..];
      AfterNothing(Drain(g.state, b[g.pop..]));
    }
  }

  lemma DrainStep(st: State, s: seq<byte>)
    requires Find(st, s).result != 0
    ensures var f := Find(st, s); f.pop <= |s| && Drain(st, s) == After(f.outcomes, Drain(f.state, s[f.pop..]))
  {
    Progress(st, s);
  }

  lemma DrainNothing(st: State)
    ensures Drain(st, []) == Run([], [], st)
  {
  }

  lemma AfterNothing(r: Run)
    ensures After([], r) == r
  {
    assert [] + r.outcomes == r.outcomes;
  }

  lemma AfterFields(outcomes: seq<Outcome>, r: Run)
    ensures After(outcomes, r).outcomes == outcomes + r.outcomes
    ensures After(outcomes, r).rest == r.rest && After(outcomes, r).state == r.state
  {
  }

  lemma AfterAfter(x: seq<Outcome>, y: seq<Outcome>, r: Run)
    ensures After(x, After(y, r)) == After(x + y, r)
  {
    assert x + (y + r.outcomes) == x + y + r.outcomes;
  }

  function Concat(chunks: seq<seq<byte>>): seq<byte> {
    if chunks == [] then [] else Concat(chunks[..|chunks| - 1]) + chunks[|chunks| - 1]
  }

  /** The commands dispatched for the blocks that were taken. */
  ghost function Dispatched(outcomes: seq<Outcome>, table: Table): seq<(seq<Call>, Ending)> {
    if outcomes == [] then []
    else
      (if outcomes[0].Accept? && Block(outcomes[0].block) then [Calls(outcomes[0].block, HEADER, table)] else []) +
      Dispatched(outcomes[1..], table)
  }

  lemma {:induction false} DispatchedMore(x: seq<Outcome>, y: seq<Outcome>, table: Table)
    ensures Dispatched(x + y, table) == Dispatched(x, table) + Dispatched(y, table)
  {
    if x == [] {
      assert x + y == y;
    } else {
      assert (x + y)[1..] == x[1..] + y;
      DispatchedMore(x[1..], y, table);
    }
  }

  lemma TakenIsBlock(st: State, s: seq<byte>, table: Table)
    requires Find(st, s).result != 0
    ensures var f := Find(st, s);
            && (f.result == 1 ==> f.pop <= |s| && Block(s[..f.pop]))
            && Dispatched(f.outcomes, table) == if f.result == 1 then [Calls(s[..f.pop], HEADER, table)] else []
  {
    hide Crc, High, Low, FirstSync, Calls;
  }

  /** `command_find_and_dispatch`. */
  method FindAndDispatch(r: Receiver, buf: seq<byte>, table: Table)
    returns (result: int, pop: nat, handled: seq<(seq<Call>, Ending)>, ghost outcomes: seq<Outcome>)
    modifies r
    ensures Find(old(r.Status()), buf) == Found(result, pop, r.Status(), outcomes)
    ensures handled == Dispatched(outcomes, table)
    ensures (result != 0 ==> 1 <= pop <= |buf|) && (result == 0 ==> |buf| < MAX)
  {
    hide Find, Calls;
    ghost var before := r.Status();
    Progress(before, buf);
    result, pop, outcomes := r.FindBlock(buf);
    handled := [];
    if result != 0 {
      TakenIsBlock(before, buf, table);
      if result == 1 {
        var calls, ending := Dispatch(buf[..pop], table);
        handled := [(calls, ending)];
      }
    }
  }

  /** Works off a buffer as the console task does, returning what is left in it. */
  method Take(r: Receiver, buf: seq<byte>, table: Table)
    returns (rest: seq<byte>, handled: seq<(seq<Call>, Ending)>, ghost outcomes: seq<Outcome>)
    modifies r
    ensures Drain(old(r.Status()), buf) == Run(outcomes, rest, r.Status()) && |rest| < MAX
    ensures handled == Dispatched(outcomes, table)
  {
    hide Find, After, Dispatched;
    rest, handled, outcomes := buf, [], [];
    NothingDispatched(table);
    AfterNothing(Drain(r.Status(), rest));
    while true
      invariant Drain(old(r.Status()), buf) == After(outcomes, Drain(r.Status(), rest))
      invariant handled == Dispatched(outcomes, table)
      decreases |rest|
    {
      ghost var before, was := r.Status(), rest;
      var result, pop, calls, came := FindAndDispatch(r, rest, table);
      Progress(before, was);
      if result == 0 {
        AfterFields(outcomes, Run([], rest, before));
        assert outcomes + [] == outcomes;
        break;
      }
      rest := rest[pop..];
      AfterAfter(outcomes, came, Drain(r.Status(), rest));
      DispatchedMore(outcomes, came, table);
      handled, outcomes := handled + calls, outcomes + came;
    }
  }

  lemma NothingDispatched(table: Table)
    ensures Dispatched([], table) == []
  {
  }

  /** Bytes arriving in any chunks: the outcome is that of the whole stream. */
  method ReceiveAll(r: Receiver, chunks: seq<seq<byte>>, table: Table)
    returns (rest: seq<byte>, handled: seq<(seq<Call>, Ending)>, ghost outcomes: seq<Outcome>)
    modifies r
    ensures Drain(old(r.Status()), Concat(chunks)) == Run(outcomes, rest, r.Status())
    ensures handled == Dispatched(outcomes, table)
  {
    hide Drain, After, Dispatched;
    rest, handled, outcomes := [], [], [];
    NothingDispatched(table);
    DrainNothing(r.Status());
    for k := 0 to |chunks|
      invariant Drain(old(r.Status()), Concat(chunks[..k])) == Run(outcomes, rest, r.Status())
      invariant handled == Dispatched(outcomes, table)
    {
      assert chunks[..k + 1][..k] == chunks[..k];
      ChunksDoNotMatter(old(r.Status()), Concat(chunks[..k]), chunks[k]);
      var left, calls, came := Take(r, rest + chunks[k], table);
      AfterFields(outcomes, Run(came, left, r.Status()));
      DispatchedMore(outcomes, came, table);
      rest, handled, outcomes := left, handled + calls, outcomes + came;
    }
    assert chunks[..|chunks|] == chunks;
  }

  // ----- in order, exactly once ----------------------------------------------------------------

  /** Each block taken has the next sequence number, from block `e` on; each stale one has not. */
  ghost predicate Numbered(outcomes: seq<Outcome>, e: nat) {
    outcomes == [] ||
    match outcomes[0]
    case Accept(block) => |block| >= MIN && block[1] == SeqByte(e) && Numbered(outcomes[1..], e + 1)
    case Stale(block) => |block| >= MIN && block[1] != SeqByte(e) && Numbered(outcomes[1..], e)
    case Noise => Numbered(outcomes[1..], e)
  }

  lemma {:induction false} DrainNumbers(st: State, s: seq<byte>, e: nat)
    requires st.next == SeqByte(e)
    ensures Numbered(Drain(st, s).outcomes, e)
    decreases |s|
  {
    var f := Find(st, s);
    Progress(st, s);
    if f.result != 0 {
      var later := Drain(f.state, s[f.pop..]).outcomes;
      OneOutcome(st, s, e);
      DrainNumbers(f.state, s[f.pop..], if f.result == 1 then e + 1 else e);
      if f.outcomes == [] {
        assert [] + later == later;
      } else {
        assert f.outcomes == [f.outcomes[0]] && (f.outcomes + later)[1..] == later;
      }
    }
  }

  lemma OneOutcome(st: State, s: seq<byte>, e: nat)
    requires st.next == SeqByte(e) && Find(st, s).result != 0
    ensures var f := Find(st, s);
            && |f.outcomes| <= 1 && f.state.next == SeqByte(if f.result == 1 then e + 1 else e)
            && (f.result == 1 <==> f.outcomes != [] && f.outcomes[0].Accept?)
            && (f.result == 1 ==> |f.outcomes[0].block| >= MIN && f.outcomes[0].block[1] == SeqByte(e))
            && (f.outcomes != [] && f.outcomes[0].Stale? ==>
                  |f.outcomes[0].block| >= MIN && f.outcomes[0].block[1] != SeqByte(e))
  {
    hide Crc, High, Low, FirstSync;
  }

  /**
   Which block each intact arrival really is: its sequence byte fits, and it is less than
   a whole cycle of 16 away from the one expected.
   */
  ghost predicate Plausible(outcomes: seq<Outcome>, labels: seq<nat>, e: nat) {
    && |labels| == |outcomes|
    && (outcomes == [] ||
        (&& (!outcomes[0].Noise? ==>
               && |outcomes[0].block| >= MIN && outcomes[0].block[1] == SeqByte(labels[0])
               && -15 <= labels[0] - e <= 15)
         && Plausible(outcomes[1..], labels[1..], if outcomes[0].Accept? then e + 1 else e)))
  }

  lemma SameBlock(n: nat, e: nat)
    requires SeqByte(n) == SeqByte(e) && -15 <= n - e <= 15
    ensures n == e
  {
  }

  ghost function Taken(outcomes: seq<Outcome>, labels: seq<nat>): seq<nat>
    requires |labels| == |outcomes|
  {
    if outcomes == [] then []
    else (if outcomes[0].Accept? then [labels[0]] else []) + Taken(outcomes[1..], labels[1..])
  }

  ghost predicate CountsFrom(numbers: seq<nat>, e: nat) {
    forall k :: 0 <= k < |numbers| ==> numbers[k] == e + k
  }

  /** The blocks taken are e, e + 1, e + 2, ...: each once, in order, none skipped. */
  lemma {:induction false} ExactlyOnce(outcomes: seq<Outcome>, labels: seq<nat>, e: nat)
    requires Numbered(outcomes, e) && Plausible(outcomes, labels, e)
    ensures CountsFrom(Taken(outcomes, labels), e)
  {
    if outcomes != [] {
      var more := Taken(outcomes[1..], labels[1..]);
      if outcomes[0].Accept? {
        ExactlyOnce(outcomes[1..], labels[1..], e + 1);
        SameBlock(labels[0], e);
        assert Taken(outcomes, labels) == [e] + more;
      } else {
        ExactlyOnce(outcomes[1..], labels[1..], e);
        assert Taken(outcomes, labels) == more;
      }
    }
  }

  /** So over any stream, however damaged, blocks are received in order and exactly once. */
  lemma InOrderReceipt(st: State, s: seq<byte>, labels: seq<nat>, e: nat)
    requires st.next == SeqByte(e) && Plausible(Drain(st, s).outcomes, labels, e)
    ensures CountsFrom(Taken(Drain(st, s).outcomes, labels), e)
  {
    DrainNumbers(st, s, e);
    ExactlyOnce(Drain(st, s).outcomes, labels, e);
  }

  ghost function AcceptCount(outcomes: seq<Outcome>): nat {
    if outcomes == [] then 0 else (if outcomes[0].Accept? then 1 else 0) + AcceptCount(outcomes[1..])
  }

  /** And none is left behind: an intact arrival is taken exactly when it is the one expected then. */
  lemma {:induction false} TakenWhenExpected(outcomes: seq<Outcome>, labels: seq<nat>, e: nat, k: nat)
    requires k < |outcomes| && !outcomes[k].Noise? && Numbered(outcomes, e) && Plausible(outcomes, labels, e)
    ensures outcomes[k].Accept? <==> labels[k] == e + AcceptCount(outcomes[..k])
    decreases k
  {
    if k == 0 {
      if outcomes[0].Accept? {
        SameBlock(labels[0], e);
      }
    } else {
      var e' := if outcomes[0].Accept? then e + 1 else e;
      TakenWhenExpected(outcomes[1..], labels[1..], e', k - 1);
      assert outcomes[..k][1..] == outcomes[1..][..k - 1] && outcomes[..k][0] == outcomes[0];
    }
  }

  // ----- from the host's commands to the firmware's ----------------------------------------------

  /** A message: the payload of one block. */
  function Stream(payloads: seq<seq<byte>>, e: nat): seq<byte>
    requires forall p :: p in payloads ==> |p| <= MAX - MIN
  {
    if payloads == [] then [] else Frame(payloads[0], SeqByte(e)) + Stream(payloads[1..], e + 1)
  }

  function Accepts(payloads: seq<seq<byte>>, e: nat): seq<Outcome>
    requires forall p :: p in payloads ==> |p| <= MAX - MIN
  {
    if payloads == [] then [] else [Accept(Frame(payloads[0], SeqByte(e)))] + Accepts(payloads[1..], e + 1)
  }

  lemma FrameTaken(payload: seq<byte>, valid: bool, e: nat, after: seq<byte>)
    requires |payload| <= MAX - MIN
    ensures var block := Frame(payload, SeqByte(e));
            Find(State(false, valid, SeqByte(e)), block + after)
              == Found(1, |block|, State(false, false, SeqByte(e + 1)), [Accept(block)])
  {
    hide LookAt, Crc, High, Low;
    var block := Frame(payload, SeqByte(e));
    FrameIsGood(payload, SeqByte(e), after);
    assert (block + after)[1] == SeqByte(e) && (block + after)[..|block|] == block;
  }

  /** A frame out of sequence is answered too, and leaves the number expected as it was. */
  lemma FrameRefused(payload: seq<byte>, seqno: byte, st: State, after: seq<byte>)
    requires |payload| <= MAX - MIN && seqno / 16 == 1 && seqno != st.next && !st.needSync
    ensures var block := Frame(payload, seqno);
            Find(st, block + after) == Found(-1, |block|, State(false, false, st.next), [Stale(block)])
  {
    hide LookAt, Crc, High, Low;
    var block := Frame(payload, seqno);
    FrameIsGood(payload, seqno, after);
    assert (block + after)[1] == seqno && (block + after)[..|block|] == block;
  }

  /** Noise is answered once: again only after an intact block. `quiet` says that it has been already. */
  ghost predicate AnsweredOnce(outcomes: seq<Outcome>, quiet: bool) {
    outcomes == [] ||
    (if outcomes[0].Noise? then !quiet && AnsweredOnce(outcomes[1..], true) else AnsweredOnce(outcomes[1..], false))
  }

  lemma OneAnswer(st: State, s: seq<byte>)
    requires Find(st, s).result != 0
    ensures var f := Find(st, s);
            && |f.outcomes| <= 1
            && (f.outcomes == [] ==> f.state.needValid == st.needValid)
            && (f.outcomes != [] ==> f.state.needValid == f.outcomes[0].Noise?)
            && (f.outcomes != [] && f.outcomes[0].Noise? ==> !st.needValid)
  {
    hide Crc, High, Low, FirstSync;
  }

  lemma {:induction false} NoiseAnsweredOnce(st: State, s: seq<byte>)
    ensures AnsweredOnce(Drain(st, s).outcomes, st.needValid)
    decreases |s|
  {
    hide Find, After;
    var f := Find(st, s);
    Progress(st, s);
    if f.result != 0 {
      var later := Drain(f.state, s[f.pop..]).outcomes;
      OneAnswer(st, s);
      AfterFields(f.outcomes, Drain(f.state, s[f.pop..]));
      NoiseAnsweredOnce(f.state, s[f.pop..]);
      if f.outcomes == [] {
        assert [] + later == later;
      } else {
        assert f.outcomes == [f.outcomes[0]] && (f.outcomes + later)[1..] == later;
      }
    }
  }

  /** An intact stream in sequence is taken block by block, with nothing left. */
  lemma {:induction false} StreamTaken(payloads: seq<seq<byte>>, valid: bool, e: nat)
    requires forall p :: p in payloads ==> |p| <= MAX - MIN
    ensures var r := Drain(State(false, valid, SeqByte(e)), Stream(payloads, e));
            && r.outcomes == Accepts(payloads, e) && r.rest == []
            && r.state.next == SeqByte(e + |payloads|) && !r.state.needSync
    decreases |payloads|
  {
    hide Drain, After, Find, Frame, SeqByte;
    var st := State(false, valid, SeqByte(e));
    if payloads == [] {
      DrainNothing(st);
    } else {
      var block, after := Frame(payloads[0], SeqByte(e)), Stream(payloads[1..], e + 1);
      FrameTaken(payloads[0], valid, e, after);
      DrainStep(st, block + after);
      assert (block + after)[|block|..] == after;
      StreamTaken(payloads[1..], false, e + 1);
      AfterFields([Accept(block)], Drain(State(false, false, SeqByte(e + 1)), after));
    }
  }

  /** What a receiver that has lost step makes of a buffer: everything up to the first SYNC byte goes. */
  lemma SkipsNoise(st: State, noise: seq<byte>, after: seq<byte>)
    requires SYNC !in noise && (st.needSync || LookAt(noise + [SYNC] + after).Bad?)
    ensures var s := noise + [SYNC] + after; var f := Find(st, s);
            && f.result == -1 && f.pop == |noise| + 1 && !f.state.needSync && f.state.next == st.next
            && f.outcomes == if (st.needSync || noise != []) && !st.needValid then [Noise] else []
  {
    hide LookAt;
    var s := noise + [SYNC] + after;
    assert s[..|noise|] == noise && s[|noise|] == SYNC;
    FirstSyncIs(s, |noise|);
    assert noise != [] ==> s[0] == noise[0] && s[0] != SYNC;
  }

  /**
   From any state that has lost step, because it is looking for a SYNC byte or because what
   it sees is no block, one SYNC byte is enough: the frames behind it are all taken.
   */
  lemma Recovers(st: State, noise: seq<byte>, payloads: seq<seq<byte>>, e: nat)
    requires SYNC !in noise && st.next == SeqByte(e) && forall p :: p in payloads ==> |p| <= MAX - MIN
    requires st.needSync || LookAt(noise + [SYNC] + Stream(payloads, e)).Bad?
    ensures var r := Drain(st, noise + [SYNC] + Stream(payloads, e));
            && r.rest == [] && !r.state.needSync && r.state.next == SeqByte(e + |payloads|)
            && r.outcomes ==
               (if (st.needSync || noise != []) && !st.needValid then [Noise] else []) + Accepts(payloads, e)
  {
    hide Drain, After, Find, LookAt, Frame, Stream, Accepts, SeqByte;
    var after := Stream(payloads, e);
    var s := noise + [SYNC] + after;
    SkipsNoise(st, noise, after);
    var f := Find(st, s);
    DrainStep(st, s);
    assert s[|noise| + 1..] == after;
    StreamTaken(payloads, f.state.needValid, e);
    AfterFields(f.outcomes, Drain(f.state, after));
  }

  /** The payloads of the host's messages, each a list of commands for one block. */
  ghost function Payloads(messages: seq<seq<Command>>, table: Table): seq<seq<byte>>
    requires AllFit(messages, table)
  {
    if messages == [] then []
    else
      assert Fits(messages[0], table);
      [Payload(messages[0], table)] + Payloads(messages[1..], table)
  }

  ghost predicate Fits(commands: seq<Command>, table: Table) {
    (forall c :: c in commands ==> Sendable(c, table)) && |Payload(commands, table)| <= MAX - MIN
  }

  ghost predicate AllFit(messages: seq<seq<Command>>, table: Table) {
    forall m :: m in messages ==> Fits(m, table)
  }

  lemma {:induction false} PayloadsFit(messages: seq<seq<Command>>, table: Table)
    requires AllFit(messages, table)
    ensures forall p :: p in Payloads(messages, table) ==> |p| <= MAX - MIN
  {
    if messages != [] {
      assert Fits(messages[0], table);
      PayloadsFit(messages[1..], table);
    }
  }

  lemma FrameDispatches(commands: seq<Command>, table: Table, seqno: byte)
    requires Fits(commands, table)
    ensures var block := Frame(Payload(commands, table), seqno);
            Block(block) && Reached(Calls(block, HEADER, table), block, commands)
  {
    hide Calls, CallsArrive, Payload, Crc, High, Low;
    var payload := Payload(commands, table);
    var block := Frame(payload, seqno);
    assert block[HEADER..HEADER + |payload|] == payload;
    PayloadArrives(block, HEADER, commands, table);
  }

  /** Dispatch of `block` ended at the end of its payload, having called exactly `commands`. */
  ghost predicate Reached(handled: (seq<Call>, Ending), block: seq<byte>, commands: seq<Command>) {
    |block| >= MIN && handled.1 == Ended(|block| - TRAILER) && CallsArrive(block, handled.0, commands)
  }

  /** Message after message: the next block was dispatched as the next list of commands. */
  ghost predicate AllReached(handled: seq<(seq<Call>, Ending)>, messages: seq<seq<Command>>, table: Table, e: nat) {
    && |handled| == |messages|
    && (messages == [] ||
        (&& Fits(messages[0], table)
         && Reached(handled[0], Frame(Payload(messages[0], table), SeqByte(e)), messages[0])
         && AllReached(handled[1..], messages[1..], table, e + 1)))
  }

  lemma {:induction false} AcceptedAreReached(messages: seq<seq<Command>>, table: Table, e: nat)
    requires AllFit(messages, table)
    ensures forall p :: p in Payloads(messages, table) ==> |p| <= MAX - MIN
    ensures AllReached(Dispatched(Accepts(Payloads(messages, table), e), table), messages, table, e)
    decreases |messages|
  {
    hide Reached, Frame, SeqByte, Block, Calls, Payload;
    PayloadsFit(messages, table);
    if messages != [] {
      var m := messages[0];
      assert Fits(m, table);
      FrameDispatches(m, table, SeqByte(e));
      AcceptedAreReached(messages[1..], table, e + 1);
      var later := Accepts(Payloads(messages[1..], table), e + 1);
      assert Accepts(Payloads(messages, table), e)[1..] == later;
      assert Dispatched(Accepts(Payloads(messages, table), e), table)[1..] == Dispatched(later, table);
    }
  }

  /**
   The host's messages, framed in sequence and delivered in any chunks, reach dispatch as
   the same commands with the same arguments, in order, and nothing else does.
   */
  method Deliver(r: Receiver, chunks: seq<seq<byte>>, table: Table, ghost messages: seq<seq<Command>>, ghost e: nat)
    returns (rest: seq<byte>, handled: seq<(seq<Call>, Ending)>)
    requires AllFit(messages, table) && r.next == SeqByte(e) && !r.needSync
    requires (forall p :: p in Payloads(messages, table) ==> |p| <= MAX - MIN)
    requires Concat(chunks) == Stream(Payloads(messages, table), e)
    modifies r
    ensures rest == [] && AllReached(handled, messages, table, e) && r.next == SeqByte(e + |messages|)
  {
    hide Drain, Stream, Dispatched, AllReached, AllFit, Accepts, Concat, SeqByte;
    StreamTaken(Payloads(messages, table), r.needValid, e);
    AcceptedAreReached(messages, table, e);
    ghost var outcomes;
    rest, handled, outcomes := ReceiveAll(r, chunks, table);
    PayloadsCount(messages, table);
  }

  lemma {:induction false} PayloadsCount(messages: seq<seq<Command>>, table: Table)
    requires AllFit(messages, table)
    ensures |Payloads(messages, table)| == |messages|
  {
    if messages != [] {
      PayloadsCount(messages[1..], table);
    }
  }
}
