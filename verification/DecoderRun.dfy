/** The decoder as src/luv_codec.c runs it: one pass over the bytes that makes objects as it
    goes. It agrees with parsing everything first and building the objects afterwards. */
module DecoderRun {
  import opened Options
  import opened Uleb128
  import opened ByteBuffer
  import opened LuaHeap
  import opened Wire
  import opened Decoder
  import opened Codec

  /** Parsing, then building: a value, the state after it and the bytes after it. */
  datatype Staged<T> = Broke | Out(v: T, st: State, rest: seq<byte>)

  function Stage(env: Env, bs: seq<byte>, st: State): (o: Staged<Value>)
    ensures o.Out? ==> |o.rest| < |bs|
  {
    BuildParsed(env, Parse(bs), st)
  }

  function BuildParsed(env: Env, p: Parsed<Code>, st: State): Staged<Value>
  {
    match p
    case Bad => Broke
    case Got(c, rest) => Leaving(Build(env, c, st), rest)
  }

  function StageTwo(env: Env, bs: seq<byte>, st: State): (o: Staged<(Value, Value)>)
    ensures o.Out? ==> |o.rest| < |bs|
  {
    match ParseTwo(bs)
    case Bad => Broke
    case Got((a, b), rest) =>
      match BuildTwo(env, a, b, st) case Failed => Broke case Built(v, t) => Out(v, t, rest)
  }

  function StageEntries(env: Env, bs: seq<byte>, t: Id, st: State): (o: Staged<()>)
    ensures o.Out? ==> |o.rest| < |bs|
  {
    match ParseEntries(bs)
    case Bad => Broke
    case Got(es, rest) => Leaving(BuildEntries(env, es, t, st), rest)
  }

  lemma StageTwoStep(env: Env, bs: seq<byte>, st: State)
    ensures StageTwo(env, bs, st) ==
            match Stage(env, bs, st)
            case Broke => Broke
            case Out(a, st1, rest1) =>
              match Stage(env, rest1, st1) case Broke => Broke case Out(b, st2, rest2) => Out((a, b), st2, rest2)
  {
  }

  /** One turn of the loop over the pairs of a table. */
  lemma StageEntriesStep(env: Env, bs: seq<byte>, t: Id, st: State)
    requires bs != [] && bs[0] != TNIL
    ensures StageEntries(env, bs, t, st) ==
            match StageTwo(env, bs, st)
            case Broke => Broke
            case Out((k, v), st1, rest) =>
              if k != Nil && t in st1.heap && st1.heap[t].TableObj?
              then StageEntries(env, rest, t, StorePair(st1, t, k, v))
              else Broke
  {
  }

  lemma StageEntriesEnd(env: Env, bs: seq<byte>, t: Id, st: State)
    ensures bs == [] ==> StageEntries(env, bs, t, st) == Broke
    ensures bs != [] && bs[0] == TNIL ==> StageEntries(env, bs, t, st) == Out((), st, bs[1..])
  {
  }

  function ThenHook(env: Env, o: Staged<(Value, Value)>): Staged<Value>
  {
    match o
    case Broke => Broke
    case Out((f, arg), st, rest) =>
      match CallHook(env, f, arg, st) case Failed => Broke case Built(v, t) => Out(v, t, rest)
  }

  // The rules for values with something inside, after their two tag bytes.

  lemma StageTable(env: Env, tag: byte, more: seq<byte>, st: State, o: Staged<Value>)
    requires tag != TREF && tag != TUSR && o == Stage(env, [TTABLE, tag] + more, st)
    ensures o == match StageEntries(env, more, st.next, Enter(st, TableObj([], NoHook), Table(st.next)))
                 case Broke => Broke
                 case Out(_, u, rest) => Out(Table(st.next), u, rest)
  {
    assert ([TTABLE, tag] + more)[1..][1..] == more;
    if ParseEntries(more).Got? { TableSteps(env, ParseEntries(more).value, st); }
  }

  lemma TableSteps(env: Env, es: Codes, st: State)
    ensures Build(env, CTab(es), st) ==
            match BuildEntries(env, es, st.next, Enter(st, TableObj([], NoHook), Table(st.next)))
            case Failed => Failed
            case Built(_, u) => Built(Table(st.next), u)
  {
  }

  lemma StageHooked(env: Env, more: seq<byte>, st: State, o: Staged<Value>)
    requires o == Stage(env, [TTABLE, TUSR] + more, st)
    ensures o == match ThenHook(env, StageTwo(env, more, st.(entered := st.entered + 1)))
                 case Broke => Broke
                 case Out(v, u, rest) => Out(v, Decoder.Register(u, v, st.entered + 1), rest)
  {
    assert ([TTABLE, TUSR] + more)[1..][1..] == more;
    var p := ParseTwo(more);
    if p.Got? { HookedSteps(env, p.value.0, p.value.1, st); }
  }

  lemma HookedSteps(env: Env, cb: Code, p: Code, st: State)
    ensures Build(env, CHook(cb, p), st) ==
            match BuildTwo(env, cb, p, st.(entered := st.entered + 1))
            case Failed => Failed
            case Built((f, arg), st1) =>
              match CallHook(env, f, arg, st1)
              case Failed => Failed
              case Built(v, st2) => Built(v, Decoder.Register(st2, v, st.entered + 1))
  {
  }

  lemma StageUser(env: Env, tag: byte, more: seq<byte>, st: State, o: Staged<Value>)
    requires o == Stage(env, [TUSERDATA, tag] + more, st)
    ensures o == if tag == TUSR then ThenHook(env, StageTwo(env, more, st)) else Broke
  {
    assert ([TUSERDATA, tag] + more)[1..][1..] == more;
    var p := ParseTwo(more);
    if p.Got? { UserSteps(env, p.value.0, p.value.1, st); }
  }

  lemma UserSteps(env: Env, cb: Code, p: Code, st: State)
    ensures Build(env, CUser(cb, p), st) ==
            match BuildTwo(env, cb, p, st)
            case Failed => Failed
            case Built((f, arg), st1) => CallHook(env, f, arg, st1)
  {
  }

  lemma StageRef(env: Env, t: byte, more: seq<byte>, st: State, o: Staged<Value>)
    requires (t == TTABLE || t == TFUNCTION) && o == Stage(env, [t, TREF] + more, st)
    ensures o == match Decode(more)
                 case Truncated => Broke
                 case Read(r, rest) => Out(LookUp(r, st).v, LookUp(r, st).st, rest)
  {
    assert ([t, TREF] + more)[1..][1..] == more;
  }

  function Finish(st: State, f: Id, temp: Id, code: seq<byte>): State
    requires temp in st.heap && st.heap[temp].TableObj?
  {
    st.(heap := st.heap[f := LuaFunc(code, Upvalues(st.heap[temp].entries))])
  }

  /** The state in which the upvalues of a function are read. */
  function EnterFunction(st: State, code: seq<byte>): State
  {
    Alloc(Enter(st, LuaFunc(code, []), Func(st.next)), TableObj([], NoHook))
  }

  function FinishStage(o: Staged<()>, f: Id, code: seq<byte>): Staged<Value>
  {
    match o
    case Broke => Broke
    case Out(_, u, rest) =>
      if f + 1 in u.heap && u.heap[f + 1].TableObj? then Out(Func(f), Finish(u, f, f + 1, code), rest) else Broke
  }

  /** What becomes of a function once its upvalues are read into the table after it. */
  function FinishBuilt(e: Built<()>, f: Id, code: seq<byte>): Built<Value>
  {
    match e
    case Failed => Failed
    case Built(_, u) =>
      if f + 1 in u.heap && u.heap[f + 1].TableObj? then Built(Func(f), Finish(u, f, f + 1, code)) else Failed
  }

  lemma FunctionSteps(env: Env, code: seq<byte>, ups: Codes, st: State)
    ensures Build(env, CFun(code, ups), st)
         == FinishBuilt(BuildEntries(env, ups, st.next + 1, EnterFunction(st, code)), st.next, code)
  {
  }

  function Leaving<T>(b: Built<T>, rest: seq<byte>): Staged<T>
  {
    match b case Failed => Broke case Built(v, t) => Out(v, t, rest)
  }

  lemma FinishSame(e: Built<()>, rest: seq<byte>, f: Id, code: seq<byte>)
    ensures FinishStage(Leaving(e, rest), f, code) == Leaving(FinishBuilt(e, f, code), rest)
  {
  }

  function ParsedFunction(code: seq<byte>, p: Parsed<Codes>): Parsed<Code>
  {
    match p case Bad => Bad case Got(ups, rest) => Got(CFun(code, ups), rest)
  }

  lemma ParseFunctionRule(tag: byte, more: seq<byte>)
    requires tag != TREF
    ensures Parse([TFUNCTION, tag] + more) ==
            match TakeString(more)
            case Bad => Bad
            case Got(code, rest0) => ParsedFunction(code, ParseEntries(rest0))
  {
    assert ([TFUNCTION, tag] + more)[1..][1..] == more;
  }

  /** The rule for a function: its code, then a table of upvalues. */
  function FunctionStage(env: Env, more: seq<byte>, st: State): Staged<Value>
  {
    match TakeString(more)
    case Bad => Broke
    case Got(code, rest0) =>
      FinishStage(StageEntries(env, rest0, st.next + 1, EnterFunction(st, code)), st.next, code)
  }

  lemma FunctionStageIs(env: Env, more: seq<byte>, st: State, code: seq<byte>, rest: seq<byte>)
    requires TakeString(more) == Got(code, rest)
    ensures FunctionStage(env, more, st)
         == FinishStage(StageEntries(env, rest, st.next + 1, EnterFunction(st, code)), st.next, code)
  {
  }

  lemma StageFunction(env: Env, tag: byte, more: seq<byte>, st: State, o: Staged<Value>)
    requires tag != TREF && o == Stage(env, [TFUNCTION, tag] + more, st)
    ensures o == FunctionStage(env, more, st)
  {
    ParseFunctionRule(tag, more);
    StageCode(env, more, st, Parse([TFUNCTION, tag] + more), TakeString(more), o);
  }

  lemma StageCode(env: Env, more: seq<byte>, st: State, p: Parsed<Code>, s: Parsed<seq<byte>>, o: Staged<Value>)
    requires s == TakeString(more) && o == BuildParsed(env, p, st)
    requires p == if s.Got? then ParsedFunction(s.value, ParseEntries(s.rest)) else Bad
    ensures o == FunctionStage(env, more, st)
  {
    if s.Got? {
      StageUpvalues(env, s.value, s.rest, st, p, o);
      FunctionStageIs(env, more, st, s.value, s.rest);
    }
  }

  /** Reading the upvalues on the way is the same as parsing them first and building the function
      then. */
  lemma StageUpvalues(env: Env, code: seq<byte>, more: seq<byte>, st: State, p: Parsed<Code>, o: Staged<Value>)
    requires p == ParsedFunction(code, ParseEntries(more)) && o == BuildParsed(env, p, st)
    ensures o == FinishStage(StageEntries(env, more, st.next + 1, EnterFunction(st, code)), st.next, code)
  {
    if p.Got? {
      var e := BuildEntries(env, p.value.ups, st.next + 1, EnterFunction(st, code));
      FunctionSteps(env, code, p.value.ups, st);
      FinishSame(e, p.rest, st.next, code);
    }
  }

  class Run {
    const data: seq<byte>
    var pos: nat
    var heap: Heap
    var next: Id
    var seen: seq<Value>
    ghost var entered: nat
    ghost var marks: seq<nat>
    ghost var nils: nat
    ghost var missed: nat

    ghost predicate Valid()
      reads this
    {
      pos <= |data|
    }

    ghost function St(): State
      reads this
    {
      State(heap, next, seen, entered, marks, nils, missed)
    }

    constructor (data: seq<byte>, heap: Heap, next: Id)
      ensures Valid() && this.data == data && pos == 0 && St() == Start(heap, next)
    {
      this.data := data;
      this.heap := heap;
      this.next := next;
      pos, seen, entered, marks, nils, missed := 0, [], 0, [], 0, 0;
    }

    ghost predicate Did<T(!new)>(r: Option<T>, o: Staged<T>)
      reads this
    {
      match o
      case Broke => r == None
      case Out(v, st, rest) => r == Some(v) && Valid() && St() == st && data[pos..] == rest
    }

    method ReadNumber() returns (r: Option<nat>)
      requires Valid()
      modifies this`pos
      ensures Valid()
      ensures match Decode(data[old(pos)..])
              case Truncated => r == None
              case Read(v, rest) => r == Some(v) && data[pos..] == rest
    {
      var ok, v, p := ReadUleb128(data, pos);
      if ok {
        pos := p;
        r := Some(v);
      } else {
        r := None;
      }
    }

    method ReadBytes(n: nat) returns (r: Option<seq<byte>>)
      requires Valid()
      modifies this`pos
      ensures Valid()
      ensures match Take(data[old(pos)..], n)
              case Bad => r == None
              case Got(s, rest) => r == Some(s) && data[pos..] == rest
    {
      if n <= |data| - pos {
        r := Some(data[pos..pos + n]);
        assert data[pos..][..n] == data[pos..pos + n] && data[pos..][n..] == data[pos + n..];
        pos := pos + n;
      } else {
        r := None;
      }
    }

    method ReadString() returns (r: Option<seq<byte>>)
      requires Valid()
      modifies this`pos
      ensures Valid()
      ensures match TakeString(data[old(pos)..])
              case Bad => r == None
              case Got(s, rest) => r == Some(s) && data[pos..] == rest
    {
      var n := ReadNumber();
      if n == None { return None; }
      r := ReadBytes(n.value);
    }

    /** `decode_value`. */
    method DecodeValue(env: Env) returns (r: Option<Value>)
      requires Valid()
      modifies this
      ensures Valid() && Did(r, Stage(env, data[old(pos)..], old(St())))
      decreases |data| - pos, 0
    {
      ghost var bs, st := data[pos..], St();
      if pos == |data| { return None; }
      var t := data[pos];
      pos := pos + 1;
      assert bs[1..] == data[pos..];
      if t == TTABLE || t == TFUNCTION || t == TUSERDATA {
        if pos == |data| { return None; }
        var tag := data[pos];
        pos := pos + 1;
        assert bs == [t, tag] + data[pos..];
        r := DecodeCompound(env, t, tag, Stage(env, bs, st));
      } else {
        r := DecodeScalar(env, t);
      }
    }

    method DecodeScalar(env: Env, t: byte) returns (r: Option<Value>)
      requires Valid() && t != TTABLE && t != TFUNCTION && t != TUSERDATA
      modifies this`pos
      ensures Valid() && Did(r, Stage(env, [t] + data[old(pos)..], old(St())))
    {
      assert ([t] + data[pos..])[1..] == data[pos..];
      if t == TNIL {
        r := Some(Nil);
      } else if t == TBOOLEAN {
        if pos == |data| { return None; }
        r := Some(Bool(data[pos] != 0));
        assert data[pos..][1..] == data[pos + 1..];
        pos := pos + 1;
      } else if t == TNUMBER || t == TLIGHTUSERDATA {
        var w := ReadBytes(8);
        if w == None { return None; }
        r := Some(if t == TNUMBER then Num(w.value) else Light(w.value));
      } else if t == TSTRING {
        var s := ReadString();
        if s == None { return None; }
        r := Some(Str(s.value));
      } else {
        r := None;
      }
    }

    method DecodeCompound(env: Env, t: byte, tag: byte, ghost o: Staged<Value>) returns (r: Option<Value>)
      requires Valid() && (t == TTABLE || t == TFUNCTION || t == TUSERDATA)
      requires o == Stage(env, [t, tag] + data[pos..], St())
      modifies this
      ensures Valid() && Did(r, o)
      decreases |data| - pos, 7
    {
      if t == TUSERDATA {
        r := DecodeUser(env, tag, o);
      } else if tag == TREF {
        r := DecodeRef(env, t, o);
      } else if t == TFUNCTION {
        r := DecodeFunction(env, tag, o);
      } else if tag == TUSR {
        r := DecodeHooked(env, o);
      } else {
        r := DecodePlainTable(env, tag, o);
      }
    }

    method DecodeUser(env: Env, tag: byte, ghost o: Staged<Value>) returns (r: Option<Value>)
      requires Valid() && o == Stage(env, [TUSERDATA, tag] + data[pos..], St())
      modifies this
      ensures Valid() && Did(r, o)
      decreases |data| - pos, 6
    {
      StageUser(env, tag, data[pos..], St(), o);
      if tag != TUSR { return None; }
      r := DecodeHook(env);
    }

    method DecodeRef(env: Env, t: byte, ghost o: Staged<Value>) returns (r: Option<Value>)
      requires Valid() && (t == TTABLE || t == TFUNCTION) && o == Stage(env, [t, TREF] + data[pos..], St())
      modifies this`pos, this`missed
      ensures Valid() && Did(r, o)
    {
      StageRef(env, t, data[pos..], St(), o);
      var n := ReadNumber();
      if n == None { return None; }
      if 1 <= n.value <= |seen| {
        r := Some(seen[n.value - 1]);
      } else {
        r := Some(Nil);
        missed := missed + 1;
      }
    }

    method DecodeHooked(env: Env, ghost o: Staged<Value>) returns (r: Option<Value>)
      requires Valid() && o == Stage(env, [TTABLE, TUSR] + data[pos..], St())
      modifies this
      ensures Valid() && Did(r, o)
      decreases |data| - pos, 5
    {
      StageHooked(env, data[pos..], St(), o);
      ghost var mark := entered + 1;
      entered := mark;
      r := DecodeHook(env);
      if r.Some? { Register(r.value, mark); }
    }

    /** `decoder_seen`. */
    method Register(v: Value, ghost mark: nat)
      modifies this`seen, this`marks, this`nils
      ensures St() == Decoder.Register(old(St()), v, mark)
    {
      if v != Nil {
        seen, marks := seen + [v], marks + [mark];
      } else {
        nils := nils + 1;
      }
    }

    method DecodePlainTable(env: Env, tag: byte, ghost o: Staged<Value>) returns (r: Option<Value>)
      requires Valid() && tag != TREF && tag != TUSR && o == Stage(env, [TTABLE, tag] + data[pos..], St())
      modifies this
      ensures Valid() && Did(r, o)
      decreases |data| - pos, 5
    {
      StageTable(env, tag, data[pos..], St(), o);
      var t := NewObject(TableObj([], NoHook), true);
      var ok := DecodeTable(env, t);
      r := if ok == None then None else Some(Table(t));
    }

    /** Make an object and register it. */
    method NewObject(o: Obj, isTable: bool) returns (id: Id)
      requires Valid()
      modifies this`heap, this`next, this`seen, this`entered, this`marks
      ensures Valid() && id == old(next)
      ensures St() == Enter(old(St()), o, if isTable then Table(id) else Func(id))
    {
      id := next;
      heap, next := heap[id := o], id + 1;
      seen := seen + [if isTable then Table(id) else Func(id)];
      entered, marks := entered + 1, marks + [entered + 1];
    }

    method DecodeFunction(env: Env, tag: byte, ghost o: Staged<Value>) returns (r: Option<Value>)
      requires Valid() && tag != TREF && o == Stage(env, [TFUNCTION, tag] + data[pos..], St())
      modifies this
      ensures Valid() && Did(r, o)
      decreases |data| - pos, 6
    {
      StageFunction(env, tag, data[pos..], St(), o);
      r := DecodeCode(env);
    }

    method DecodeCode(env: Env) returns (r: Option<Value>)
      requires Valid()
      modifies this
      ensures Valid() && Did(r, FunctionStage(env, data[old(pos)..], old(St())))
      decreases |data| - pos, 5
    {
      ghost var o, st, more := FunctionStage(env, data[pos..], St()), St(), data[pos..];
      var code := ReadString();
      if code == None { return None; }
      FunctionStageIs(env, more, st, code.value, data[pos..]);
      assert St() == st;
      r := DecodeBody(env, code.value, o);
    }

    /** The function with the code read, registered, and then its upvalues. */
    method DecodeBody(env: Env, code: seq<byte>, ghost o: Staged<Value>) returns (r: Option<Value>)
      requires Valid()
      requires o == FinishStage(StageEntries(env, data[pos..], next + 1, EnterFunction(St(), code)), next, code)
      modifies this
      ensures Valid() && Did(r, o)
      decreases |data| - pos, 4, 2
    {
      var f := next;
      EnterUpvalues(code);
      r := DecodeUpvalues(env, f, code);
    }

    method DecodeUpvalues(env: Env, f: Id, code: seq<byte>) returns (r: Option<Value>)
      requires Valid()
      modifies this
      ensures Valid() && Did(r, FinishStage(StageEntries(env, data[old(pos)..], f + 1, old(St())), f, code))
      decreases |data| - pos, 4, 1
    {
      var temp := f + 1;
      var ok := DecodeTable(env, temp);
      if ok == None || temp !in heap || !heap[temp].TableObj? { return None; }
      SetUpvalues(f, temp, code);
      r := Some(Func(f));
    }

    /** Make the function, and a table for its upvalues. */
    method EnterUpvalues(code: seq<byte>)
      requires Valid()
      modifies this`heap, this`next, this`seen, this`entered, this`marks
      ensures Valid() && St() == EnterFunction(old(St()), code)
    {
      var f := NewObject(LuaFunc(code, []), false);
      heap, next := heap[next := TableObj([], NoHook)], next + 1;
    }

    /** Move the upvalues from their table into the function. */
    method SetUpvalues(f: Id, temp: Id, code: seq<byte>)
      requires Valid() && temp in heap && heap[temp].TableObj?
      modifies this`heap
      ensures Valid() && St() == Finish(old(St()), f, temp, code)
    {
      heap := heap[f := LuaFunc(code, Upvalues(heap[temp].entries))];
    }

    /** Read a hook and its payload and call the one on the other. */
    method DecodeHook(env: Env) returns (r: Option<Value>)
      requires Valid()
      modifies this
      ensures Valid() && Did(r, ThenHook(env, StageTwo(env, data[old(pos)..], old(St()))))
      decreases |data| - pos, 4
    {
      var two := DecodeTwo(env);
      if two == None { return None; }
      var f := FindDecoder(env, two.value.0);
      if !f.Func? { return None; }
      match env.call(heap, f, two.value.1)
      case Raised => r := None;
      case Returned(v, made) =>
        AddAll(made);
        r := Some(v);
    }

    /** The objects a hook made. */
    method AddAll(os: seq<Obj>)
      modifies this`heap, this`next
      ensures St() == AllocAll(old(St()), os)
    {
      var i := 0;
      assert os[0..] == os;
      while i < |os|
        invariant i <= |os| && AllocAll(St(), os[i..]) == AllocAll(old(St()), os)
      {
        assert os[i..][1..] == os[i + 1..];
        heap, next := heap[next := os[i]], next + 1;
        i := i + 1;
      }
    }

    method DecodeTwo(env: Env) returns (r: Option<(Value, Value)>)
      requires Valid()
      modifies this
      ensures Valid() && Did(r, StageTwo(env, data[old(pos)..], old(St())))
      decreases |data| - pos, 3
    {
      StageTwoStep(env, data[pos..], St());
      var a := DecodeValue(env);
      if a == None { return None; }
      var b := DecodeValue(env);
      r := if b == None then None else Some((a.value, b.value));
    }

    /** `decode_table`: pairs up to a nil, stored into table `t` one after another. */
    method DecodeTable(env: Env, t: Id) returns (r: Option<()>)
      requires Valid()
      modifies this
      ensures Valid() && Did(r, StageEntries(env, data[old(pos)..], t, old(St())))
      decreases |data| - pos, 4, 0
    {
      ghost var all := StageEntries(env, data[pos..], t, St());
      while pos < |data| && data[pos] != TNIL
        invariant Valid() && old(pos) <= pos
        invariant StageEntries(env, data[pos..], t, St()) == all
        decreases |data| - pos
      {
        StageEntriesStep(env, data[pos..], t, St());
        var two := DecodeTwo(env);
        if two == None || two.value.0 == Nil || t !in heap || !heap[t].TableObj? { return None; }
        heap := heap[t := heap[t].(entries := Store(heap[t].entries, two.value.0, two.value.1))];
      }
      StageEntriesEnd(env, data[pos..], t, St());
      if pos == |data| { return None; }
      assert data[pos..][1..] == data[pos + 1..];
      pos := pos + 1;
      r := Some(());
    }
  }

  method DecodeValues(run: Run, env: Env, n: nat, ghost all: Built<seq<Value>>) returns (r: Option<seq<Value>>)
    requires run.Valid() && all == StageTuple(env, run.data[run.pos..], n, run.St())
    modifies run
    ensures match all
            case Failed => r == None
            case Built(vs, st) => r == Some(vs) && run.St() == st
  {
    var left := n;
    r := Some([]);
    PrependNone(all);
    while left > 0 && r.Some?
      invariant run.Valid() && Resumed(env, run.data[run.pos..], left, run.St(), r, all)
    {
      r := DecodeNext(run, env, left, r.value, all);
      left := left - 1;
    }
    ResumedEnd(env, run.data[run.pos..], left, run.St(), r, all);
  }

  /** Part way through a tuple, what is left completes the whole. */
  ghost predicate Resumed(env: Env, bs: seq<byte>, n: nat, st: State, r: Option<seq<Value>>, all: Built<seq<Value>>)
  {
    match r
    case None => all == Failed
    case Some(vs) => all == Prepend(vs, StageTuple(env, bs, n, st))
  }

  lemma ResumedEnd(env: Env, bs: seq<byte>, n: nat, st: State, r: Option<seq<Value>>, all: Built<seq<Value>>)
    requires Resumed(env, bs, n, st, r, all) && (n == 0 || r == None)
    ensures match all case Failed => r == None case Built(vs, t) => r == Some(vs) && st == t
  {
    if r.Some? { assert r.value + [] == r.value; }
  }

  method DecodeNext(run: Run, env: Env, n: nat, vs: seq<Value>, ghost all: Built<seq<Value>>)
    returns (r: Option<seq<Value>>)
    requires run.Valid() && n > 0 && Resumed(env, run.data[run.pos..], n, run.St(), Some(vs), all)
    modifies run
    ensures run.Valid() && Resumed(env, run.data[run.pos..], n - 1, run.St(), r, all)
  {
    ghost var now := StageTuple(env, run.data[run.pos..], n, run.St());
    var v := run.DecodeValue(env);
    if v == None { return None; }
    ghost var later := StageTuple(env, run.data[run.pos..], n - 1, run.St());
    assert now == Prepend([v.value], later);
    PrependStep(vs, v.value, later);
    r := Some(vs + [v.value]);
  }

  /** `luvL_codec_decode`: one pass over the bytes comes to the same as `DecodeTuple`. */
  method DecodeAll(env: Env, bs: seq<byte>, heap: Heap, next: Id)
    returns (r: Option<seq<Value>>, after: Heap)
    ensures match DecodeTuple(env, bs, Start(heap, next))
            case Failed => r == None
            case Built(vs, st) => r == Some(vs) && after == st.heap
  {
    var run := new Run(bs, heap, next);
    assert bs[0..] == bs;
    r, after := None, heap;
    var n := run.ReadNumber();
    if n != None && n.value <= INT_MAX {
      StageTupleIs(env, run.data[run.pos..], n.value, run.St());
      r := DecodeValues(run, env, n.value, StageTuple(env, run.data[run.pos..], n.value, run.St()));
      after := run.heap;
    }
  }

  lemma PrependNone(r: Built<seq<Value>>)
    ensures Prepend([], r) == r
  {
    if r.Built? { assert [] + r.v == r.v; }
  }

  /** The values of a tuple, parsed and built one after another. */
  function StageTuple(env: Env, bs: seq<byte>, n: nat, st: State): Built<seq<Value>>
    decreases n
  {
    if n == 0 then Built([], st)
    else
      match Stage(env, bs, st)
      case Broke => Failed
      case Out(v, st1, rest) => Prepend([v], StageTuple(env, rest, n - 1, st1))
  }

  function Prepend(vs: seq<Value>, r: Built<seq<Value>>): Built<seq<Value>>
  {
    match r case Failed => Failed case Built(ws, st) => Built(vs + ws, st)
  }

  lemma PrependStep(vs: seq<Value>, v: Value, r: Built<seq<Value>>)
    ensures Prepend(vs, Prepend([v], r)) == Prepend(vs + [v], r)
  {
    if r.Built? { assert vs + ([v] + r.v) == (vs + [v]) + r.v; }
  }

  /** Going value by value comes to the same as parsing all and then building all. */
  lemma {:induction false} StageTupleIs(env: Env, bs: seq<byte>, n: nat, st: State)
    ensures StageTuple(env, bs, n, st) ==
            match ParseTuple(bs, n) case Bad => Failed case Got(cs, _) => BuildTuple(env, cs, st)
    decreases n
  {
    if n > 0 {
      var p := Parse(bs);
      if p.Got? {
        var q := ParseTuple(p.rest, n - 1);
        var b := Build(env, p.value, st);
        if b.Built? { StageTupleIs(env, p.rest, n - 1, b.st); }
        if q.Got? { assert ([p.value] + q.value)[1..] == q.value; }
      }
    }
  }
}
