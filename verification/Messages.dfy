/**
 Commands in a message block: `MessageFormat.encode` of `klippy/msgproto.py` on the
 host, `command_parsef` and `command_dispatch` of `src/command.c` on the firmware.
 */
module Messages {
  import opened Ticks
  import opened Vlq

  const HEADER := 2
  const TRAILER := 3
  const SYNC: byte := 0x7e

  /** Parameter types as the firmware sees them; it rejects the others in a command. */
  datatype ParamType = Integer | Buffer | Other

  /** `command_index`: the parameter types of each command number. */
  type Table = seq<seq<ParamType>>

  // ----- host ------------------------------------------------------------------------------

  datatype Arg = Number(v: int) | Bytes(b: seq<byte>)

  datatype Command = Command(id: byte, args: seq<Arg>)

  predicate Encodable(a: Arg) {
    match a
    case Number(v) => -HALF <= v < WORD
    case Bytes(b) => |b| < 256
  }

  function EncodeArg(a: Arg): seq<byte>
    requires Encodable(a)
  {
    match a
    case Number(v) => EncodePy(v)
    case Bytes(b) => [|b|] + b
  }

  function EncodeArgs(args: seq<Arg>): seq<byte>
    requires forall a :: a in args ==> Encodable(a)
  {
    if args == [] then [] else EncodeArg(args[0]) + EncodeArgs(args[1..])
  }

  predicate Sendable(c: Command, table: Table) {
    && 0 < c.id < |table| && |c.args| == |table[c.id]|
    && (forall a :: a in c.args ==> Encodable(a))
    && (forall k :: 0 <= k < |c.args| ==> table[c.id][k] == if c.args[k].Number? then Integer else Buffer)
  }

  function Encode(c: Command): seq<byte>
    requires forall a :: a in c.args ==> Encodable(a)
  {
    [c.id] + EncodeArgs(c.args)
  }

  function Payload(commands: seq<Command>, table: Table): seq<byte>
    requires forall c :: c in commands ==> Sendable(c, table)
  {
    if commands == [] then []
    else
      assert Sendable(commands[0], table);
      Encode(commands[0]) + Payload(commands[1..], table)
  }

  lemma {:induction false} EncodeArgsAppend(args: seq<Arg>, a: Arg)
    requires Encodable(a) && forall b :: b in args ==> Encodable(b)
    ensures EncodeArgs(args + [a]) == EncodeArgs(args) + EncodeArg(a)
  {
    if args == [] {
      assert [a][1..] == [];
    } else {
      assert (args + [a])[1..] == args[1..] + [a];
      EncodeArgsAppend(args[1..], a);
    }
  }

  lemma NoArgs()
    ensures EncodeArgs([]) == []
  {
  }

  /** `MessageFormat.encode`. */
  method EncodeMessage(c: Command) returns (out: seq<byte>)
    requires forall a :: a in c.args ==> Encodable(a)
    ensures out == Encode(c)
  {
    hide Encodable, EncodeArg, EncodeArgs;
    out := [c.id];
    NoArgs();
    for i := 0 to |c.args|
      invariant out == [c.id] + EncodeArgs(c.args[..i])
    {
      EncodeArgsAppend(c.args[..i], c.args[i]);
      assert c.args[..i + 1] == c.args[..i] + [c.args[i]];
      out := out + EncodeArg(c.args[i]);
    }
    assert c.args[..|c.args|] == c.args;
  }

  // ----- firmware --------------------------------------------------------------------------

  /** An argument word, or the place of a buffer in the block. */
  datatype Value = Word(v: uint32) | Span(offset: nat, length: nat)

  datatype Call = Call(id: byte, args: seq<Value>)

  /** How dispatching ends: at a position, or with a shutdown. */
  datatype Ending = Ended(p: nat) | InvalidCommand | ParserError

  /** A block ends in a SYNC byte, so that every number in it ends. */
  ghost predicate Block(s: seq<byte>) {
    |s| >= HEADER + TRAILER && s[|s| - 1] == SYNC
  }

  lemma AlwaysTerminated(s: seq<byte>, p: nat)
    requires Block(s) && p < |s|
    ensures Terminated(s, p)
  {
    assert s[|s| - 1] < 128;
  }

  datatype ArgsResult = Values(values: seq<Value>, p: nat) | Failed

  /** What `command_parsef` makes of the bytes from `p` on. */
  ghost function Arguments(s: seq<byte>, p: nat, types: seq<ParamType>): (r: ArgsResult)
    requires Block(s)
    ensures r.Values? ==> p <= r.p && |r.values| == |types|
    ensures r.Values? && types != [] ==> r.p <= |s|
    ensures r.Values? ==> forall k :: 0 <= k < |r.values| && r.values[k].Span? ==>
              p < r.values[k].offset && r.values[k].offset + r.values[k].length <= |s| - TRAILER
    decreases |types|
  {
    if types == [] then Values([], p)
    else if p > |s| - TRAILER then Failed
    else
      match types[0]
      case Integer =>
        AlwaysTerminated(s, p);
        var (v, end) := Parsed(s, p);
        Prepend(Word(Wrap(v)), Arguments(s, end, types[1..]))
      case Buffer =>
        var start, len := p + 1, s[p];
        if start + len > |s| - TRAILER then Failed
        else Prepend(Span(start, len), Arguments(s, start + len, types[1..]))
      case Other => Failed
  }

  ghost function Prepend(v: Value, r: ArgsResult): ArgsResult {
    if r.Failed? then Failed else Values([v] + r.values, r.p)
  }

  /** `command_parsef`; every read is inside the block. */
  method ParseArguments(s: seq<byte>, start: nat, types: seq<ParamType>) returns (r: ArgsResult)
    requires Block(s)
    ensures r == Arguments(s, start, types)
  {
    hide Parsed, Terminated, Wrap, Prepend, PrependAll;
    var p: nat := start;
    var args: seq<Value> := [];
    assert types[0..] == types;
    PrependNone(Arguments(s, start, types));
    for k := 0 to |types|
      invariant Arguments(s, start, types) == PrependAll(args, Arguments(s, p, types[k..]))
    {
      PrependFailed(args);
      if p > |s| - TRAILER {
        return Failed;
      }
      assert types[k..][1..] == types[k + 1..];
      match types[k] {
        case Integer =>
          AlwaysTerminated(s, p);
          var v, end := ParseInt(s, p);
          PrependMore(args, Word(v), Arguments(s, end, types[k + 1..]));
          args, p := args + [Word(v)], end;
        case Buffer =>
          var len := s[p];
          p := p + 1;
          if p + len > |s| - TRAILER {
            return Failed;
          }
          PrependMore(args, Span(p, len), Arguments(s, p + len, types[k + 1..]));
          args, p := args + [Span(p, len)], p + len;
        case Other =>
          return Failed;
      }
    }
    assert types[|types|..] == [];
    PrependEnd(args, p);
    r := Values(args, p);
  }

  ghost function PrependAll(args: seq<Value>, r: ArgsResult): ArgsResult {
    if r.Failed? then Failed else Values(args + r.values, r.p)
  }

  lemma PrependNone(r: ArgsResult)
    ensures PrependAll([], r) == r
  {
    if r.Values? {
      assert [] + r.values == r.values;
    }
  }

  lemma PrependEnd(args: seq<Value>, p: nat)
    ensures PrependAll(args, Values([], p)) == Values(args, p)
  {
    assert args + [] == args;
  }

  lemma PrependFailed(args: seq<Value>)
    ensures PrependAll(args, Failed) == Failed
  {
  }

  lemma PrependMore(args: seq<Value>, v: Value, r: ArgsResult)
    ensures PrependAll(args, Prepend(v, r)) == PrependAll(args + [v], r)
  {
    if r.Values? {
      assert args + ([v] + r.values) == args + [v] + r.values;
    }
  }

  /** The commands found from `p` on, up to an error. */
  ghost function Calls(s: seq<byte>, p: nat, table: Table): (seq<Call>, Ending)
    requires Block(s)
    decreases |s| - p
  {
    if p >= |s| - TRAILER then ([], Ended(p))
    else if s[p] == 0 || s[p] >= |table| then ([], InvalidCommand)
    else
      var r := Arguments(s, p + 1, table[s[p]]);
      if r.Failed? then ([], ParserError)
      else
        var (more, ending) := Calls(s, r.p, table);
        ([Call(s[p], r.values)] + more, ending)
  }

  ghost function Onto(calls: seq<Call>, r: (seq<Call>, Ending)): (seq<Call>, Ending) {
    (calls + r.0, r.1)
  }

  lemma OntoNothing(r: (seq<Call>, Ending))
    ensures Onto([], r) == r
  {
    assert [] + r.0 == r.0;
  }

  lemma OntoEnd(calls: seq<Call>, ending: Ending)
    ensures Onto(calls, ([], ending)) == (calls, ending)
  {
    assert calls + [] == calls;
  }

  lemma OntoMore(calls: seq<Call>, call: Call, r: (seq<Call>, Ending))
    ensures Onto(calls, ([call] + r.0, r.1)) == Onto(calls + [call], r)
  {
    assert calls + ([call] + r.0) == calls + [call] + r.0;
  }

  /** `command_dispatch`: total on every block, whatever is in it. */
  method Dispatch(s: seq<byte>, table: Table) returns (calls: seq<Call>, ending: Ending)
    requires Block(s)
    ensures (calls, ending) == Calls(s, HEADER, table)
  {
    hide Arguments, Onto;
    var p := HEADER;
    calls := [];
    OntoNothing(Calls(s, HEADER, table));
    while p < |s| - TRAILER
      invariant p >= 0 && Calls(s, HEADER, table) == Onto(calls, Calls(s, p, table))
      decreases |s| - p
    {
      var id := s[p];
      if id == 0 || id >= |table| {
        OntoEnd(calls, InvalidCommand);
        return calls, InvalidCommand;
      }
      var r := ParseArguments(s, p + 1, table[id]);
      if r.Failed? {
        OntoEnd(calls, ParserError);
        return calls, ParserError;
      }
      OntoMore(calls, Call(id, r.values), Calls(s, r.p, table));
      calls := calls + [Call(id, r.values)];
      p := r.p;
    }
    OntoEnd(calls, Ended(p));
    ending := Ended(p);
  }

  // ----- round trip ------------------------------------------------------------------------

  /** `v` is argument `a` as it stands in block `s`; numbers arrive modulo 2^32. */
  ghost predicate Arrives(s: seq<byte>, v: Value, a: Arg) {
    match a
    case Number(x) => v == Word(Wrap(x))
    case Bytes(b) => v.Span? && v.length == |b| && v.offset + v.length <= |s| && s[v.offset..v.offset + v.length] == b
  }

  ghost predicate ArriveAll(s: seq<byte>, values: seq<Value>, args: seq<Arg>) {
    |values| == |args| && forall k :: 0 <= k < |args| ==> Arrives(s, values[k], args[k])
  }

  /** The bytes `part` stand at `p`, in front of the trailer. */
  ghost predicate At(s: seq<byte>, p: nat, part: seq<byte>) {
    p + |part| <= |s| - TRAILER && s[p..p + |part|] == part
  }

  lemma AtSplit(s: seq<byte>, p: nat, left: seq<byte>, right: seq<byte>)
    requires At(s, p, left + right)
    ensures At(s, p, left) && At(s, p + |left|, right)
  {
    var whole := left + right;
    assert s[p..p + |left|] == whole[..|left|];
    assert s[p + |left|..p + |whole|] == whole[|left|..];
  }

  lemma NumberArrives(s: seq<byte>, p: nat, v: int)
    requires Block(s) && -HALF <= v < WORD && At(s, p, EncodePy(v))
    ensures Terminated(s, p) && Parsed(s, p) == (v, p + |EncodePy(v)|)
  {
    hide EncodePy, Parsed, Terminated;
    var code := EncodePy(v);
    assert s == s[..p] + code + s[p + |code|..];
    PythonRoundTrip(v, s[..p], s[p + |code|..]);
  }

  ghost predicate Typed(args: seq<Arg>, types: seq<ParamType>) {
    && |args| == |types|
    && (forall a :: a in args ==> Encodable(a))
    && (forall k :: 0 <= k < |args| ==> types[k] == if args[k].Number? then Integer else Buffer)
  }

  lemma NumberIsFirst(s: seq<byte>, p: nat, v: int, types: seq<ParamType>)
    requires Block(s) && -HALF <= v < WORD && types != [] && types[0] == Integer && At(s, p, EncodePy(v))
    ensures Arguments(s, p, types) == Prepend(Word(Wrap(v)), Arguments(s, p + |EncodePy(v)|, types[1..]))
  {
    hide EncodePy, Parsed, Terminated, Prepend, Wrap;
    AlwaysTerminated(s, p);
    NumberArrives(s, p, v);
  }

  lemma BytesAreFirst(s: seq<byte>, p: nat, b: seq<byte>, types: seq<ParamType>)
    requires Block(s) && |b| < 256 && types != [] && types[0] == Buffer && At(s, p, [|b|] + b)
    ensures Arguments(s, p, types) == Prepend(Span(p + 1, |b|), Arguments(s, p + 1 + |b|, types[1..]))
    ensures p + 1 + |b| <= |s| && s[p + 1..p + 1 + |b|] == b
  {
    hide Prepend;
    AtSplit(s, p, [|b|], b);
    assert s[p..p + 1][0] == |b|;
  }

  lemma FirstArrives(s: seq<byte>, p: nat, a: Arg, types: seq<ParamType>) returns (v: Value)
    requires Block(s) && Encodable(a) && types != [] && At(s, p, EncodeArg(a))
    requires types[0] == if a.Number? then Integer else Buffer
    ensures Arguments(s, p, types) == Prepend(v, Arguments(s, p + |EncodeArg(a)|, types[1..])) && Arrives(s, v, a)
  {
    hide Arguments, At, EncodePy, Prepend, Wrap;
    if a.Number? {
      NumberIsFirst(s, p, a.v, types);
      v := Word(Wrap(a.v));
    } else {
      BytesAreFirst(s, p, a.b, types);
      v := Span(p + 1, |a.b|);
    }
  }

  /** Encoded arguments are what `command_parsef` finds. */
  lemma {:induction false} ArgumentsArrive(s: seq<byte>, p: nat, args: seq<Arg>, types: seq<ParamType>)
    requires Block(s) && Typed(args, types) && At(s, p, EncodeArgs(args))
    ensures var r := Arguments(s, p, types);
            r.Values? && r.p == p + |EncodeArgs(args)| && ArriveAll(s, r.values, args)
    decreases |args|
  {
    hide At, EncodeArg, Arrives, Block;
    if args != [] {
      var a, code := args[0], EncodeArg(args[0]);
      AtSplit(s, p, code, EncodeArgs(args[1..]));
      var v := FirstArrives(s, p, a, types);
      ArgumentsArrive(s, p + |code|, args[1..], types[1..]);
      var r := Arguments(s, p + |code|, types[1..]);
      forall k | 0 <= k < |args|
        ensures Arrives(s, ([v] + r.values)[k], args[k])
      {
        if k > 0 {
          assert args[k] == args[1..][k - 1];
        }
      }
    }
  }

  ghost predicate CallsArrive(s: seq<byte>, calls: seq<Call>, commands: seq<Command>) {
    && |calls| == |commands|
    && forall k :: 0 <= k < |calls| ==> calls[k].id == commands[k].id && ArriveAll(s, calls[k].args, commands[k].args)
  }

  lemma FirstCall(s: seq<byte>, p: nat, c: Command, table: Table)
    requires Block(s) && Sendable(c, table) && At(s, p, Encode(c))
    ensures var r := Arguments(s, p + 1, table[c.id]); var next := p + |Encode(c)|;
            && r.Values? && ArriveAll(s, r.values, c.args)
            && Calls(s, p, table) == ([Call(c.id, r.values)] + Calls(s, next, table).0, Calls(s, next, table).1)
  {
    hide Arguments, ArriveAll;
    AtSplit(s, p, [c.id], EncodeArgs(c.args));
    assert s[p..p + 1][0] == c.id;
    ArgumentsArrive(s, p + 1, c.args, table[c.id]);
  }

  /** Dispatch finds exactly the commands that were encoded, in order, and stops at the end of the payload. */
  lemma {:induction false} PayloadArrives(s: seq<byte>, p: nat, commands: seq<Command>, table: Table)
    requires Block(s) && (forall c :: c in commands ==> Sendable(c, table))
    requires At(s, p, Payload(commands, table)) && p + |Payload(commands, table)| == |s| - TRAILER
    ensures Calls(s, p, table).1 == Ended(|s| - TRAILER) && CallsArrive(s, Calls(s, p, table).0, commands)
    decreases |commands|
  {
    hide At, Encode, Arguments, ArriveAll, Block, Sendable;
    if commands == [] {
      NoCalls(s, p, table);
    } else {
      var c := commands[0];
      assert Sendable(c, table);
      var rest := Payload(commands[1..], table);
      SendableEncodes(c, table);
      AtSplit(s, p, Encode(c), rest);
      FirstCall(s, p, c, table);
      PayloadArrives(s, p + |Encode(c)|, commands[1..], table);
    }
  }

  lemma NoCalls(s: seq<byte>, p: nat, table: Table)
    requires Block(s) && p >= |s| - TRAILER
    ensures Calls(s, p, table) == ([], Ended(p))
  {
  }

  lemma SendableEncodes(c: Command, table: Table)
    requires Sendable(c, table)
    ensures forall a :: a in c.args ==> Encodable(a)
  {
  }
}
