/** Properties of the interpreter's semantics: what each handler does, how
    `]` finds and runs its loop body, and whole programs. */
module Properties {
  import opened Semantics

  function Repeat(b: bv8, n: nat): seq<bv8> {
    seq(n, _ => b)
  }

  function Max(a: int, b: int): int {
    if a < b then b else a
  }

  // ---------------------------------------------------------------------
  // Single handlers

  /** `-` undoes `+`, and `+` undoes `-`: the whole state is restored. */
  lemma AddSubInverse(s: State)
    requires s.Valid()
    ensures Sub(Add(s)) == s && Add(Sub(s)) == s
  {
  }

  /** Writing the current cell and reading it back gives the value written,
      and no other cell changes. */
  lemma SetThenGet(s: State, v: bv8)
    requires s.Valid()
    ensures SetCell(s, v).Cell() == v
    ensures forall i | 0 <= i < |s.stack| && i != s.pointer :: SetCell(s, v).stack[i] == s.stack[i]
    ensures SetCell(s, v).pointer == s.pointer && |SetCell(s, v).stack| == |s.stack|
  {
  }

  /** A byte that is not one of the eight instructions changes nothing but
      the trace, and is never an error. */
  lemma UnknownByteIsIgnored(s: State, b: bv8, store: bool, fuel: nat)
    requires s.Valid() && !IsInstruction(b)
    ensures Process(s, b, store, fuel) == Outcome(None, Stored(s, b, store))
  {
  }

  /** `[` changes nothing but the trace, and is never an error. */
  lemma StartIsIgnored(s: State, store: bool, fuel: nat)
    requires s.Valid()
    ensures Process(s, START, store, fuel) == Outcome(None, Stored(s, START, store))
  {
  }

  // ---------------------------------------------------------------------
  // Finding the loop body

  /** There is a loop body exactly when the trace holds a `[`. */
  lemma LoopBodyExists(m: seq<bv8>)
    ensures LoopBody(m).Some? <==> exists k | 0 <= k < |m| :: m[k] == START
  {
  }

  /** The body is what follows the NEAREST `[`, whatever comes before it:
      inside nested loops an outer `]` gets the innermost body. */
  lemma LoopBodyAfterNearestStart(a: seq<bv8>, b: seq<bv8>)
    requires forall j | 0 <= j < |b| :: b[j] != START
    ensures LoopBody(a + [START] + b) == Some(b + Zeros(|a| + 1 + |b|))
  {
    var m := a + [START] + b;
    assert m[|a|] == START;
    assert m[|a| + 1..] == b;
  }

  /** For the trace seen by `]` (it ends with the `]` just stored), the body
      holds no `[`, ends with that `]` and is padded with one zero per byte
      of the trace. */
  lemma LoopBodyShape(m: seq<bv8>, body: seq<bv8>)
    requires |m| > 0 && m[|m| - 1] == END
    requires LoopBody(m) == Some(body)
    ensures |m| < |body| && body[|body| - |m| - 1] == END
    ensures forall j | 0 <= j < |body| :: body[j] != START
    ensures forall j | |body| - |m| <= j < |body| :: body[j] == 0
  {
  }

  // ---------------------------------------------------------------------
  // `]`

  /** `]` on a zero cell does nothing. */
  lemma EndOnZeroCell(s: State, fuel: nat)
    requires s.Valid() && s.Cell() == 0
    ensures End(s, fuel) == Outcome(None, s)
  {
  }

  /** `]` on a non-zero cell with no `[` in the trace panics, before any
      body runs. */
  lemma EndWithoutStartPanics(s: State, fuel: nat)
    requires s.Valid() && s.Cell() != 0
    requires forall j | 0 <= j < |s.memory| :: s.memory[j] != START
    ensures End(s, fuel) == Outcome(Some(IndexOutOfRange), s)
  {
  }

  /** Unfolds one iteration of `]` on a non-zero cell: the body runs on the
      state itself without storing, and a fault ends the loop. */
  lemma EndIteration(s: State, fuel: nat, body: seq<bv8>)
    requires s.Valid() && s.Cell() != 0 && fuel >= 1
    requires LoopBody(s.memory) == Some(body)
    ensures End(s, fuel) ==
      var o := Exec(s, body, false, fuel - 1);
      if o.fault.Some? then o else End(o.st, fuel - 1)
  {
  }

  /** The zero padding of a body is inert. */
  lemma {:induction false} ExecZeros(c: State, n: nat, fuel: nat)
    requires c.Valid()
    ensures Exec(c, Zeros(n), false, fuel) == Outcome(None, c)
  {
    if n > 0 {
      assert Zeros(n)[0] == 0 && Zeros(n)[1..] == Zeros(n - 1);
      ExecZeros(c, n - 1, fuel);
    }
  }

  /** A body with its zero padding does what the body does. */
  lemma ExecPadded(c: State, b: seq<bv8>, n: nat, fuel: nat)
    requires c.Valid()
    ensures Exec(c, b + Zeros(n), false, fuel) == Exec(c, b, false, fuel)
  {
    ExecAppend(c, b, Zeros(n), false, fuel);
    var o := Exec(c, b, false, fuel);
    if o.fault.None? {
      ExecZeros(o.st, n, fuel);
    }
  }

  // ---------------------------------------------------------------------
  // Fuel

  /** More fuel changes nothing about a step that did not run out: the
      result is not an artefact of the fuel chosen. */
  lemma {:induction false} ProcessMoreFuel(s: State, b: bv8, store: bool, f: nat, g: nat)
    requires s.Valid() && f <= g
    requires Process(s, b, store, f).fault != Some(OutOfFuel)
    ensures Process(s, b, store, g) == Process(s, b, store, f)
    decreases f, 2
  {
    if b == END {
      EndMoreFuel(Stored(s, b, store), f, g);
    }
  }

  /** A `]` that did not run out of fuel does the same with more. */
  lemma {:induction false} EndMoreFuel(s: State, f: nat, g: nat)
    requires s.Valid() && f <= g
    requires End(s, f).fault != Some(OutOfFuel)
    ensures End(s, g) == End(s, f)
    decreases f, 1
  {
    if s.Cell() != 0 && LoopBody(s.memory).Some? && f > 0 {
      var body := LoopBody(s.memory).value;
      var o := Exec(s, body, false, f - 1);
      if o.fault != Some(OutOfFuel) {
        ExecMoreFuel(s, body, false, f - 1, g - 1);
        if o.fault.None? {
          EndMoreFuel(o.st, f - 1, g - 1);
        }
      }
    }
  }

  /** A run that did not run out of fuel does the same with more. */
  lemma {:induction false} ExecMoreFuel(s: State, bytes: seq<bv8>, store: bool, f: nat, g: nat)
    requires s.Valid() && f <= g
    requires Exec(s, bytes, store, f).fault != Some(OutOfFuel)
    ensures Exec(s, bytes, store, g) == Exec(s, bytes, store, f)
    decreases f, 3, |bytes|
  {
    if bytes != [] {
      var o := Process(s, bytes[0], store, f);
      ProcessMoreFuel(s, bytes[0], store, f, g);
      if o.fault.None? {
        ExecMoreFuel(o.st, bytes[1..], store, f, g);
      }
    }
  }

  // ---------------------------------------------------------------------
  // Whole programs

  /** A byte handled without a fault leaves the rest of the program to run
      from the state it produced. */
  lemma Advance(s: State, b: bv8, rest: seq<bv8>, store: bool, fuel: nat, t: State)
    requires s.Valid() && Process(s, b, store, fuel) == Outcome(None, t)
    ensures Exec(s, [b] + rest, store, fuel) == Exec(t, rest, store, fuel)
  {
  }

  /** A one-byte program is that byte's step. */
  lemma ExecSingle(s: State, b: bv8, store: bool, fuel: nat)
    requires s.Valid()
    ensures Exec(s, [b], store, fuel) == Process(s, b, store, fuel)
  {
  }

  /** A fault on the first byte ends the run there. */
  lemma Halt(s: State, b: bv8, rest: seq<bv8>, store: bool, fuel: nat)
    requires s.Valid() && Process(s, b, store, fuel).fault.Some?
    ensures Exec(s, [b] + rest, store, fuel) == Process(s, b, store, fuel)
  {
  }

  // The handler each instruction byte dispatches to.

  lemma ProcessRight(s: State, store: bool, fuel: nat)
    requires s.Valid()
    ensures Process(s, RIGHT, store, fuel) == Outcome(None, Right(Stored(s, RIGHT, store)))
  {
  }

  lemma ProcessLeft(s: State, store: bool, fuel: nat)
    requires s.Valid()
    ensures Process(s, LEFT, store, fuel) == Left(Stored(s, LEFT, store))
  {
  }

  lemma ProcessAdd(s: State, store: bool, fuel: nat)
    requires s.Valid()
    ensures Process(s, ADD, store, fuel) == Outcome(None, Add(Stored(s, ADD, store)))
  {
  }

  lemma ProcessSub(s: State, store: bool, fuel: nat)
    requires s.Valid()
    ensures Process(s, SUB, store, fuel) == Outcome(None, Sub(Stored(s, SUB, store)))
  {
  }

  lemma ProcessPrint(s: State, store: bool, fuel: nat)
    requires s.Valid()
    ensures Process(s, PRINT, store, fuel) == Outcome(None, Print(Stored(s, PRINT, store)))
  {
  }

  lemma ProcessEnd(s: State, store: bool, fuel: nat)
    requires s.Valid()
    ensures Process(s, END, store, fuel) == End(Stored(s, END, store), fuel)
  {
  }

  /** Running two programs one after the other is running their
      concatenation; a fault in the first stops the run. */
  lemma {:induction false} ExecAppend(s: State, p: seq<bv8>, q: seq<bv8>, store: bool, fuel: nat)
    requires s.Valid()
    ensures Exec(s, p + q, store, fuel) ==
      var o := Exec(s, p, store, fuel);
      if o.fault.Some? then o else Exec(o.st, q, store, fuel)
    decreases |p|
  {
    if p != [] {
      assert (p + q)[0] == p[0] && (p + q)[1..] == p[1..] + q;
      var o := Process(s, p[0], store, fuel);
      if o.fault.None? {
        ExecAppend(o.st, p[1..], q, store, fuel);
      }
    } else {
      assert p + q == q;
    }
  }

  /** `n` times `>`: the pointer moves `n` cells right, the tape grows with
      zero cells just enough to hold it, and nothing else changes. */
  lemma {:induction false} ExecRights(s: State, n: nat, store: bool, fuel: nat)
    requires s.Valid()
    ensures var o := Exec(s, Repeat(RIGHT, n), store, fuel);
      o.fault.None? && o.st.pointer == s.pointer + n &&
      |o.st.stack| == Max(|s.stack|, s.pointer + n + 1) &&
      o.st.stack[..|s.stack|] == s.stack &&
      (forall i | |s.stack| <= i < |o.st.stack| :: o.st.stack[i] == 0) &&
      o.st.output == s.output && o.st.input == s.input
    decreases n
  {
    if n > 0 {
      assert Repeat(RIGHT, n)[0] == RIGHT && Repeat(RIGHT, n)[1..] == Repeat(RIGHT, n - 1);
      var s1 := Process(s, RIGHT, store, fuel).st;
      assert s1 == Right(Stored(s, RIGHT, store));
      ExecRights(s1, n - 1, store, fuel);
      var o := Exec(s1, Repeat(RIGHT, n - 1), store, fuel);
      assert o.st.stack[..|s1.stack|][..|s.stack|] == o.st.stack[..|s.stack|];
    }
  }

  /** `n` times `<`, with the pointer at least `n`: the pointer moves `n`
      cells left and nothing else changes. */
  lemma {:induction false} ExecLefts(s: State, n: nat, store: bool, fuel: nat)
    requires s.Valid() && n <= s.pointer
    ensures var o := Exec(s, Repeat(LEFT, n), store, fuel);
      o.fault.None? && o.st.pointer == s.pointer - n && o.st.stack == s.stack &&
      o.st.output == s.output && o.st.input == s.input
    decreases n
  {
    if n > 0 {
      assert Repeat(LEFT, n)[0] == LEFT && Repeat(LEFT, n)[1..] == Repeat(LEFT, n - 1);
      var s1 := Process(s, LEFT, store, fuel).st;
      ExecLefts(s1, n - 1, store, fuel);
    }
  }

  /** `n` times `>` then `n` times `<` puts the pointer back, leaves every
      cell that existed unchanged and every new cell zero. */
  lemma RightsThenLefts(s: State, n: nat, store: bool, fuel: nat)
    requires s.Valid()
    ensures var o := Exec(s, Repeat(RIGHT, n) + Repeat(LEFT, n), store, fuel);
      o.fault.None? && o.st.pointer == s.pointer &&
      |o.st.stack| == Max(|s.stack|, s.pointer + n + 1) &&
      o.st.stack[..|s.stack|] == s.stack &&
      (forall i | |s.stack| <= i < |o.st.stack| :: o.st.stack[i] == 0)
  {
    ExecAppend(s, Repeat(RIGHT, n), Repeat(LEFT, n), store, fuel);
    ExecRights(s, n, store, fuel);
    ExecLefts(Exec(s, Repeat(RIGHT, n), store, fuel).st, n, store, fuel);
  }
}
