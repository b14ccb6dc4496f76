/** The processor as an object whose methods update its fields in place,
    each proved against the matching function of `Semantics`. */
module Interpreter {
  import S = Semantics
  import Properties

  /** The console a processor prints to and reads from. It is shared by a
      processor and its clones, as the printer and standard input are. */
  class Console {
    var output: seq<bv8>
    var input: seq<bv8>

    constructor (input: seq<bv8>)
      ensures output == [] && this.input == input
    {
      output := [];
      this.input := input;
    }

    /** Prints one byte as a character. */
    method Printf(v: bv8)
      modifies this
      ensures output == old(output) + [v] && input == old(input)
    {
      output := output + [v];
    }

    /** Reads one byte; `None` at the end of the input. */
    method ReadByte() returns (r: S.Option<bv8>)
      modifies this
      ensures output == old(output)
      ensures old(input) == [] ==> r.None? && input == old(input)
      ensures old(input) != [] ==> r == S.Some(old(input)[0]) && input == old(input)[1..]
    {
      if input == [] {
        r := S.None;
      } else {
        r := S.Some(input[0]);
        input := input[1..];
      }
    }
  }

  class Processor {
    var stack: seq<bv8>
    var pointer: nat
    var memory: seq<bv8>
    /** The processor whose handlers fill the operation table: the processor
        itself when it is built new, the original when it is a clone. */
    var operations: Processor?
    const console: Console

    /** The pointer is on the tape and the operation table holds this
        processor's own handlers. */
    ghost predicate Valid()
      reads this
    {
      pointer < |stack| && operations == this
    }

    /** The table's processor is valid and prints and reads on the same
        console. */
    ghost predicate Dispatches()
      reads this, operations
    {
      operations != null && operations.Valid() && operations.console == console
    }

    ghost function Abstract(): S.State
      reads this, console
    {
      S.State(stack, pointer, memory, console.output, console.input)
    }

    /** A new processor: one zero cell, pointer 0, empty trace, and a table
        of its own handlers. */
    constructor (console: Console)
      ensures Valid() && this.console == console
      ensures stack == [0] && pointer == 0 && memory == []
    {
      stack := [0];
      pointer := 0;
      memory := [];
      this.console := console;
      new;
      operations := this;
    }

    /** A clone of `p`: its tape, pointer, operation table and console, and
        a fresh trace. */
    constructor Clone(p: Processor)
      ensures stack == p.stack && pointer == p.pointer && memory == []
      ensures operations == p.operations && console == p.console
    {
      stack := p.stack;
      pointer := p.pointer;
      memory := [];
      operations := p.operations;
      console := p.console;
    }

    method Right()
      requires Valid()
      modifies this
      ensures Valid()
      ensures Abstract() == S.Right(old(Abstract()))
    {
      if |stack| - 1 <= pointer {
        stack := stack + [0];
      }
      pointer := pointer + 1;
    }

    method Left() returns (fault: S.Option<S.Fault>)
      requires Valid()
      modifies this
      ensures Valid()
      ensures S.Outcome(fault, Abstract()) == S.Left(old(Abstract()))
    {
      if pointer == 0 {
        return S.Some(S.LeftLimit);
      }
      pointer := pointer - 1;
      return S.None;
    }

    method Add()
      requires Valid()
      modifies this
      ensures Valid()
      ensures Abstract() == S.Add(old(Abstract()))
    {
      stack := stack[pointer := stack[pointer] + 1];
    }

    method Sub()
      requires Valid()
      modifies this
      ensures Valid()
      ensures Abstract() == S.Sub(old(Abstract()))
    {
      stack := stack[pointer := stack[pointer] - 1];
    }

    method Print()
      requires Valid()
      modifies console
      ensures Abstract() == S.Print(old(Abstract()))
    {
      var v := GetPointerVal();
      console.Printf(v);
    }

    method Read() returns (fault: S.Option<S.Fault>)
      requires Valid()
      modifies this, console
      ensures Valid()
      ensures S.Outcome(fault, Abstract()) == S.Read(old(Abstract()))
    {
      var b := console.ReadByte();
      if b.None? {
        return S.Some(S.ReadFailed);
      }
      SetPointerVal(b.value);
      return S.None;
    }

    /** Handles one program byte: stores it in this processor's trace when
        `shouldStore`, then runs the handler the operation table holds for
        it, on the table's processor; unknown bytes do nothing. On a
        processor of its own that is the step of `Semantics.Process`; on a
        clone the step acts on the original and the clone keeps only the
        stored byte. */
    method Process(b: bv8, shouldStore: bool, fuel: nat) returns (fault: S.Option<S.Fault>)
      requires Dispatches()
      modifies this, operations, console
      ensures operations == old(operations) && Dispatches()
      ensures operations == this ==>
        S.Outcome(fault, Abstract()) == S.Process(old(Abstract()), b, shouldStore, fuel)
      ensures operations != this ==>
        stack == old(stack) && pointer == old(pointer) &&
        memory == old(memory) + (if shouldStore then [b] else []) &&
        S.Outcome(fault, operations.Abstract()) == S.Process(old(operations.Abstract()), b, false, fuel)
      decreases fuel, 2
    {
      if shouldStore {
        memory := memory + [b];
      }
      var handlers := operations;
      fault := S.None;
      if b == S.RIGHT {
        handlers.Right();
      } else if b == S.LEFT {
        fault := handlers.Left();
      } else if b == S.ADD {
        handlers.Add();
      } else if b == S.SUB {
        handlers.Sub();
      } else if b == S.PRINT {
        handlers.Print();
      } else if b == S.READ {
        fault := handlers.Read();
      } else if b == S.START {
        // `[` does nothing
      } else if b == S.END {
        fault := handlers.End(fuel);
      }
    }

    /** `]`: while the current cell is non-zero, hands each byte of the loop
        body, unstored, to a clone, whose table runs it on this processor.
        Each iteration spends one unit of `fuel`. */
    method End(fuel: nat) returns (fault: S.Option<S.Fault>)
      requires Valid()
      modifies this, console
      ensures Valid()
      ensures S.Outcome(fault, Abstract()) == S.End(old(Abstract()), fuel)
      decreases fuel, 1
    {
      var f: nat := fuel;
      while stack[pointer] != 0
        invariant Valid() && f <= fuel
        invariant S.End(old(Abstract()), fuel) == S.End(Abstract(), f)
        decreases f
      {
        var body := GetLoopBody();
        if body.None? {
          return S.Some(S.IndexOutOfRange);
        }
        if f == 0 {
          return S.Some(S.OutOfFuel);
        }
        ghost var s0 := Abstract();
        Properties.EndIteration(s0, f, body.value);
        fault := RunBody(body.value, f - 1);
        if fault.Some? {
          return;
        }
        f := f - 1;
      }
      return S.None;
    }

    /** One iteration of `]`: hands each byte of `ops`, unstored, to a fresh
        clone, whose table runs it on this processor, and stops at the first
        error. */
    method RunBody(ops: seq<bv8>, fuel: nat) returns (fault: S.Option<S.Fault>)
      requires Valid()
      modifies this, console
      ensures Valid()
      ensures S.Outcome(fault, Abstract()) == S.Exec(old(Abstract()), ops, false, fuel)
      decreases fuel, 3
    {
      var c := new Processor.Clone(this);
      var i := 0;
      while i < |ops|
        invariant 0 <= i <= |ops| && Valid()
        invariant c.operations == this && c.console == console
        invariant S.Exec(old(Abstract()), ops, false, fuel) == S.Exec(Abstract(), ops[i..], false, fuel)
      {
        assert ops[i..][1..] == ops[i + 1..];
        fault := c.Process(ops[i], false, fuel);
        if fault.Some? {
          return;
        }
        i := i + 1;
      }
      return S.None;
    }

    /** The loop body for `]`: scans the trace backwards to the nearest `[`,
        appending each byte after a block of zeros, then reverses the whole
        block in place. `None` when the scan runs off the front of the trace. */
    method GetLoopBody() returns (body: S.Option<seq<bv8>>)
      ensures body == S.LoopBody(memory)
    {
      var n := |memory|;
      var ops: seq<bv8> := S.Zeros(n);
      var i := n - 1;
      while i >= 0 && memory[i] != S.START
        invariant -1 <= i < n
        invariant |ops| == 2 * n - 1 - i
        invariant forall j | 0 <= j < n :: ops[j] == 0
        invariant forall j | n <= j < |ops| :: ops[j] == memory[2 * n - 1 - j]
        invariant forall j | i < j < n :: memory[j] != S.START
      {
        ops := ops + [memory[i]];
        i := i - 1;
      }
      if i < 0 {
        return S.None;
      }
      assert S.LastStart(memory) == S.Some(i);
      var a := new bv8[|ops|](j requires 0 <= j < |ops| => ops[j]);
      ReverseInPlace(a);
      ghost var expected := memory[i + 1..] + S.Zeros(n);
      assert |a[..]| == |expected|;
      forall k | 0 <= k < a.Length
        ensures a[..][k] == expected[k]
      {
        if k < n - 1 - i {
          assert a[k] == ops[n + (n - 2 - i - k)];
        } else {
          assert a[k] == ops[a.Length - 1 - k] == 0;
        }
      }
      assert a[..] == expected;
      return S.Some(a[..]);
    }

    /** Reverses `a` in place by swapping from both ends inward. */
    static method ReverseInPlace(a: array<bv8>)
      modifies a
      ensures forall k | 0 <= k < a.Length :: a[k] == old(a[a.Length - 1 - k])
    {
      var lo, hi := 0, a.Length - 1;
      while lo < hi
        invariant 0 <= lo && hi == a.Length - 1 - lo && lo <= a.Length - lo
        invariant forall k | 0 <= k < lo :: a[k] == old(a[a.Length - 1 - k]) && a[a.Length - 1 - k] == old(a[k])
        invariant forall k | lo <= k < a.Length - lo :: a[k] == old(a[k])
      {
        a[lo], a[hi] := a[hi], a[lo];
        lo, hi := lo + 1, hi - 1;
      }
    }

    method GetPointerVal() returns (v: bv8)
      requires Valid()
      ensures v == Abstract().Cell()
    {
      return stack[pointer];
    }

    method SetPointerVal(v: bv8)
      requires Valid()
      modifies this
      ensures Valid()
      ensures Abstract() == S.SetCell(old(Abstract()), v)
    {
      stack := stack[pointer := v];
    }
  }
}
