/** The interpreter's semantics as pure functions over a value `State`.
    Every step function here is the specification that the imperative
    `Interpreter.Processor` methods are proved against. */
module Semantics {

  /** The eight instruction bytes (ASCII). Every other byte is ignored. */
  const RIGHT: bv8 := 0x3E  // '>'
  const LEFT: bv8 := 0x3C   // '<'
  const ADD: bv8 := 0x2B    // '+'
  const SUB: bv8 := 0x2D    // '-'
  const PRINT: bv8 := 0x2E  // '.'
  const READ: bv8 := 0x2C   // ','
  const START: bv8 := 0x5B  // '['
  const END: bv8 := 0x5D    // ']'

  predicate IsInstruction(b: bv8) {
    b == RIGHT || b == LEFT || b == ADD || b == SUB ||
    b == PRINT || b == READ || b == START || b == END
  }

  datatype Option<T> = None | Some(value: T)

  /** Ways a step can go wrong. `LeftLimit` and `ReadFailed` are the error
      values the handlers return; `IndexOutOfRange` is the runtime panic of
      indexing the trace at -1; `OutOfFuel` means the loop bound given to the
      model ran out (the program itself would keep looping). */
  datatype Fault = LeftLimit | ReadFailed | IndexOutOfRange | OutOfFuel

  /** The processor's state: the byte tape (`stack`), the pointer, the trace of
      program bytes stored so far (`memory`), everything printed so far and the
      bytes still unread on standard input. */
  datatype State = State(stack: seq<bv8>, pointer: nat, memory: seq<bv8>,
                         output: seq<bv8>, input: seq<bv8>)
  {
    ghost predicate Valid() {
      pointer < |stack|
    }

    function Cell(): bv8
      requires Valid()
    {
      stack[pointer]
    }
  }

  /** What a step returns: `None` for Go's nil error, and the state afterwards. */
  datatype Outcome = Outcome(fault: Option<Fault>, st: State)

  /** The state of a freshly created processor reading `input`. */
  function NewState(input: seq<bv8>): State {
    State([0], 0, [], [], input)
  }

  function Zeros(n: nat): seq<bv8> {
    seq(n, _ => 0)
  }

  /** `>`: grow the tape by one zero cell when the pointer is on the last
      cell, then move right. */
  function Right(s: State): (r: State)
    requires s.Valid()
    ensures r.Valid() && r.pointer == s.pointer + 1
    ensures |r.stack| == if s.pointer == |s.stack| - 1 then |s.stack| + 1 else |s.stack|
    ensures r.stack[..|s.stack|] == s.stack
    ensures forall i | |s.stack| <= i < |r.stack| :: r.stack[i] == 0
    ensures r.memory == s.memory && r.output == s.output && r.input == s.input
  {
    var stack := if |s.stack| - 1 <= s.pointer then s.stack + [0] else s.stack;
    s.(stack := stack, pointer := s.pointer + 1)
  }

  /** `<`: an error at the left end, otherwise move left. */
  function Left(s: State): (o: Outcome)
    requires s.Valid()
    ensures o.st.Valid()
    ensures o.fault.Some? <==> s.pointer == 0
    ensures o.fault.Some? ==> o.fault == Some(LeftLimit) && o.st == s
    ensures o.fault.None? ==> o.st == s.(pointer := s.pointer - 1)
  {
    if s.pointer == 0 then Outcome(Some(LeftLimit), s)
    else Outcome(None, s.(pointer := s.pointer - 1))
  }

  function SetCell(s: State, v: bv8): (r: State)
    requires s.Valid()
    ensures r.Valid()
  {
    s.(stack := s.stack[s.pointer := v])
  }

  /** `+`: the current cell plus one, wrapping at 256. */
  function Add(s: State): (r: State)
    requires s.Valid()
    ensures r.Valid() && r.pointer == s.pointer && |r.stack| == |s.stack|
    ensures r.Cell() as int == (s.Cell() as int + 1) % 256
    ensures forall i | 0 <= i < |s.stack| && i != s.pointer :: r.stack[i] == s.stack[i]
    ensures r.memory == s.memory && r.output == s.output && r.input == s.input
  {
    SetCell(s, s.Cell() + 1)
  }

  /** `-`: the current cell minus one, wrapping at 256. */
  function Sub(s: State): (r: State)
    requires s.Valid()
    ensures r.Valid() && r.pointer == s.pointer && |r.stack| == |s.stack|
    ensures r.Cell() as int == (s.Cell() as int - 1) % 256
    ensures forall i | 0 <= i < |s.stack| && i != s.pointer :: r.stack[i] == s.stack[i]
    ensures r.memory == s.memory && r.output == s.output && r.input == s.input
  {
    SetCell(s, s.Cell() - 1)
  }

  /** `.`: the current cell is written to the output. */
  function Print(s: State): (r: State)
    requires s.Valid()
    ensures r.Valid()
    ensures r.output == s.output + [s.Cell()]
    ensures r.(output := s.output) == s
  {
    s.(output := s.output + [s.Cell()])
  }

  /** `,`: one byte from the input into the current cell; an error, with
      nothing changed, when the input is exhausted. */
  function Read(s: State): (o: Outcome)
    requires s.Valid()
    ensures o.st.Valid()
    ensures o.fault.Some? <==> s.input == []
    ensures o.fault.Some? ==> o.fault == Some(ReadFailed) && o.st == s
    ensures o.fault.None? ==>
      o.st.Cell() == s.input[0] && o.st.input == s.input[1..] &&
      o.st.pointer == s.pointer && |o.st.stack| == |s.stack| &&
      (forall i | 0 <= i < |s.stack| && i != s.pointer :: o.st.stack[i] == s.stack[i]) &&
      o.st.memory == s.memory && o.st.output == s.output
  {
    if s.input == [] then Outcome(Some(ReadFailed), s)
    else Outcome(None, SetCell(s.(input := s.input[1..]), s.input[0]))
  }

  /** `[` does nothing. */
  function Start(s: State): State {
    s
  }

  /** Index of the last `[` in the trace, if any. */
  function LastStart(m: seq<bv8>): (r: Option<nat>)
    ensures r.Some? ==>
      r.value < |m| && m[r.value] == START &&
      forall j | r.value < j < |m| :: m[j] != START
    ensures r.None? ==> forall j | 0 <= j < |m| :: m[j] != START
  {
    if m == [] then None
    else if m[|m| - 1] == START then Some(|m| - 1)
    else LastStart(m[..|m| - 1])
  }

  /** The bytes `]` re-runs: everything after the last `[` of the trace, then
      as many zero bytes as the trace is long. No `[` at all means the
      backward scan indexes the trace at -1. */
  function LoopBody(m: seq<bv8>): Option<seq<bv8>> {
    match LastStart(m)
    case None => None
    case Some(k) => Some(m[k + 1..] + Zeros(|m|))
  }

  /** The state with `b` appended to the trace when `store`. */
  function Stored(s: State, b: bv8, store: bool): State {
    if store then s.(memory := s.memory + [b]) else s
  }

  /** One byte: store it in the trace when `store`, then dispatch. */
  function Process(s: State, b: bv8, store: bool, fuel: nat): (o: Outcome)
    requires s.Valid()
    ensures o.st.Valid() && |o.st.stack| >= |s.stack|
    ensures o.st.memory == if store then s.memory + [b] else s.memory
    decreases fuel, 2
  {
    var s := Stored(s, b, store);
    if b == RIGHT then Outcome(None, Right(s))
    else if b == LEFT then Left(s)
    else if b == ADD then Outcome(None, Add(s))
    else if b == SUB then Outcome(None, Sub(s))
    else if b == PRINT then Outcome(None, Print(s))
    else if b == READ then Read(s)
    else if b == START then Outcome(None, Start(s))
    else if b == END then End(s, fuel)
    else Outcome(None, s)
  }

  /** `]`: while the current cell is non-zero, run the loop body again,
      byte by byte and without storing it. The body runs through a clone whose
      operation table holds this processor's own handlers, so it acts on this
      processor's tape, pointer and trace; a `]` in the body re-enters `]` on
      the same state. Each iteration spends one unit of fuel. */
  function End(s: State, fuel: nat): (o: Outcome)
    requires s.Valid()
    ensures o.st.Valid() && |o.st.stack| >= |s.stack|
    ensures o.st.memory == s.memory
    ensures o.fault.None? ==> o.st.Cell() == 0
    decreases fuel, 1
  {
    if s.Cell() == 0 then Outcome(None, s)
    else match LoopBody(s.memory)
      case None => Outcome(Some(IndexOutOfRange), s)
      case Some(body) =>
        if fuel == 0 then Outcome(Some(OutOfFuel), s)
        else
          var o := Exec(s, body, false, fuel - 1);
          if o.fault.Some? then o else End(o.st, fuel - 1)
  }

  /** Process `bytes` in order, stopping at the first fault. */
  function Exec(s: State, bytes: seq<bv8>, store: bool, fuel: nat): (o: Outcome)
    requires s.Valid()
    ensures o.st.Valid() && |o.st.stack| >= |s.stack|
    ensures !store ==> o.st.memory == s.memory
    ensures store && o.fault.None? ==> o.st.memory == s.memory + bytes
    decreases fuel, 3, |bytes|
  {
    if bytes == [] then Outcome(None, s)
    else
      var o := Process(s, bytes[0], store, fuel);
      if o.fault.Some? then o else Exec(o.st, bytes[1..], store, fuel)
  }
}
