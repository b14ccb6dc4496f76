/** Whole programs run through the semantics, showing how the loop
    mechanism behaves: a body runs once as it streams past, `]` re-runs it
    as a do-while, a `]` inside a re-run body re-enters the loop on the
    same state, and an outer `]` re-runs the inner loop's body. */
module Scenarios {
  import opened Semantics
  import opened Properties

  /** `[` is a no-op, so a body runs once as it streams past even when the
      cell is zero at `[`: `[.]` on a zero cell prints one zero byte. */
  lemma BodyRunsOnceOnZeroCell(s: State, fuel: nat)
    requires s.Valid() && s.Cell() == 0
    ensures var o := Exec(s, [START, PRINT, END], true, fuel);
      o.fault.None? && o.st.output == s.output + [0] && o.st.stack == s.stack
  {
    var s1 := Stored(s, START, true);
    var s2 := Print(Stored(s1, PRINT, true));
    StartIsIgnored(s, true, fuel);
    Advance(s, START, [PRINT, END], true, fuel, s1);
    ProcessPrint(s1, true, fuel);
    Advance(s1, PRINT, [END], true, fuel, s2);
    ProcessEnd(s2, true, fuel);
    Advance(s2, END, [], true, fuel, Stored(s2, END, true));
  }

  /** One iteration of `]` after `[-]` on a non-zero cell: the body `-]`
      lowers the cell and its `]` re-enters the loop on that state. */
  lemma ClearIteration(s: State, pre: seq<bv8>, fuel: nat)
    requires s.Valid() && s.memory == pre + [START, SUB, END]
    requires s.Cell() != 0 && fuel >= 1
    ensures End(s, fuel) ==
      var o := End(Sub(s), fuel - 1);
      if o.fault.Some? then o else End(o.st, fuel - 1)
  {
    var m := s.memory;
    LoopBodyAfterNearestStart(pre, [SUB, END]);
    assert pre + [START] + [SUB, END] == m;
    EndIteration(s, fuel, [SUB, END] + Zeros(|m|));
    ExecPadded(s, [SUB, END], |m|, fuel - 1);
    ProcessSub(s, false, fuel - 1);
    Advance(s, SUB, [END], false, fuel - 1, Sub(s));
    ProcessEnd(Sub(s), false, fuel - 1);
    ExecSingle(Sub(s), END, false, fuel - 1);
  }

  /** `]` after `[-]` on a non-zero cell with no fuel left gives out. */
  lemma ClearWithoutFuel(s: State, pre: seq<bv8>)
    requires s.Valid() && s.memory == pre + [START, SUB, END] && s.Cell() != 0
    ensures End(s, 0) == Outcome(Some(OutOfFuel), s)
  {
    LoopBodyAfterNearestStart(pre, [SUB, END]);
    assert pre + [START] + [SUB, END] == s.memory;
  }

  /** The inductive step of `ClearEnd`: what `]` does on the cell lowered by
      one, with one unit of fuel less, carries over to the cell itself. */
  lemma ClearStep(s: State, pre: seq<bv8>, fuel: nat)
    requires s.Valid() && s.memory == pre + [START, SUB, END]
    requires s.Cell() != 0 && fuel >= 1
    requires var s1 := Sub(s);
      (fuel - 1 >= s1.Cell() as int ==>
         End(s1, fuel - 1) == Outcome(None, s1.(stack := s1.stack[s1.pointer := 0]))) &&
      (fuel - 1 < s1.Cell() as int ==> End(s1, fuel - 1).fault == Some(OutOfFuel))
    ensures fuel >= s.Cell() as int ==>
      End(s, fuel) == Outcome(None, s.(stack := s.stack[s.pointer := 0]))
    ensures fuel < s.Cell() as int ==> End(s, fuel).fault == Some(OutOfFuel)
  {
    ClearIteration(s, pre, fuel);
    var s1 := Sub(s);
    var t := s.(stack := s.stack[s.pointer := 0]);
    assert s1.Cell() as int == s.Cell() as int - 1;
    if fuel >= s.Cell() as int {
      assert s1.(stack := s1.stack[s1.pointer := 0]) == t;
      EndOnZeroCell(t, fuel - 1);
    }
  }

  /** `]` after `[-]`: every re-run of the body `-]` lowers the cell by one,
      and its own `]` re-enters the loop on the same state, so the cell is
      cleared when there is at least as much fuel as its value, and nothing
      else changes; with less fuel the run gives out first. */
  lemma {:induction false} ClearEnd(s: State, pre: seq<bv8>, fuel: nat)
    requires s.Valid() && s.memory == pre + [START, SUB, END]
    ensures fuel >= s.Cell() as int ==>
      End(s, fuel) == Outcome(None, s.(stack := s.stack[s.pointer := 0]))
    ensures fuel < s.Cell() as int ==> End(s, fuel).fault == Some(OutOfFuel)
    decreases s.Cell() as int
  {
    if s.Cell() == 0 {
      assert s.stack[s.pointer := 0] == s.stack;
    } else if fuel == 0 {
      ClearWithoutFuel(s, pre);
    } else {
      assert Sub(s).Cell() as int == s.Cell() as int - 1;
      ClearEnd(Sub(s), pre, fuel - 1);
      ClearStep(s, pre, fuel);
    }
  }

  /** `[-]` streams `-` past once, so the loop starts from the cell minus one
      (a zero cell wraps to 255), then clears the cell given that much fuel;
      only the cell and the trace change. */
  lemma ClearLoop(s: State, fuel: nat)
    requires s.Valid()
    ensures var o := Exec(s, [START, SUB, END], true, fuel);
      var v := (s.Cell() as int - 1) % 256;
      (fuel >= v ==>
         o == Outcome(None, s.(stack := s.stack[s.pointer := 0], memory := s.memory + [START, SUB, END]))) &&
      (fuel < v ==> o.fault == Some(OutOfFuel))
  {
    var s1 := Stored(s, START, true);
    var s2 := Sub(Stored(s1, SUB, true));
    var s3 := Stored(s2, END, true);
    StartIsIgnored(s, true, fuel);
    Advance(s, START, [SUB, END], true, fuel, s1);
    ProcessSub(s1, true, fuel);
    Advance(s1, SUB, [END], true, fuel, s2);
    ProcessEnd(s2, true, fuel);
    ExecSingle(s2, END, true, fuel);
    assert s3.memory == s.memory + [START, SUB, END];
    ClearEnd(s3, s.memory, fuel);
    assert s3.(stack := s3.stack[s3.pointer := 0]) ==
      s.(stack := s.stack[s.pointer := 0], memory := s.memory + [START, SUB, END]);
  }

  /** `+++` streams past a new processor: cell 0 holds 3. */
  lemma ThreePluses(input: seq<bv8>, rest: seq<bv8>, fuel: nat)
    ensures Exec(NewState(input), [ADD, ADD, ADD] + rest, true, fuel) ==
      Exec(State([3], 0, [ADD, ADD, ADD], [], input), rest, true, fuel)
  {
    var s1 := State([1], 0, [ADD], [], input);
    var s2 := State([2], 0, [ADD, ADD], [], input);
    var s3 := State([3], 0, [ADD, ADD, ADD], [], input);
    ProcessAdd(NewState(input), true, fuel);
    Advance(NewState(input), ADD, [ADD, ADD] + rest, true, fuel, s1);
    ProcessAdd(s1, true, fuel);
    Advance(s1, ADD, [ADD] + rest, true, fuel, s2);
    ProcessAdd(s2, true, fuel);
    Advance(s2, ADD, rest, true, fuel, s3);
    assert [ADD, ADD, ADD] + rest == [ADD] + ([ADD, ADD] + rest);
    assert [ADD, ADD] + rest == [ADD] + ([ADD] + rest);
  }

  /** `+++[-]` on a new processor clears cell 0 after two re-runs of the
      body; with less fuel it gives out. */
  lemma ThreePlusesThenClear(input: seq<bv8>, fuel: nat)
    ensures var o := Exec(NewState(input), [ADD, ADD, ADD, START, SUB, END], true, fuel);
      (fuel >= 2 ==> o == Outcome(None, State([0], 0, [ADD, ADD, ADD, START, SUB, END], [], input))) &&
      (fuel < 2 ==> o.fault == Some(OutOfFuel))
  {
    var s3 := State([3], 0, [ADD, ADD, ADD], [], input);
    ThreePluses(input, [START, SUB, END], fuel);
    assert [ADD, ADD, ADD] + [START, SUB, END] == [ADD, ADD, ADD, START, SUB, END];
    ClearLoop(s3, fuel);
    assert (s3.Cell() as int - 1) % 256 == 2;
    assert s3.(stack := s3.stack[0 := 0], memory := s3.memory + [START, SUB, END]) ==
      State([0], 0, [ADD, ADD, ADD, START, SUB, END], [], input);
  }

  /** `+.` on a new processor prints the byte 1. */
  lemma PlusThenPrint(input: seq<bv8>, fuel: nat)
    ensures Exec(NewState(input), [ADD, PRINT], true, fuel) ==
      Outcome(None, State([1], 0, [ADD, PRINT], [1], input))
  {
    var s1 := State([1], 0, [ADD], [], input);
    ProcessAdd(NewState(input), true, fuel);
    Advance(NewState(input), ADD, [PRINT], true, fuel, s1);
    ProcessPrint(s1, true, fuel);
    Advance(s1, PRINT, [], true, fuel, State([1], 0, [ADD, PRINT], [1], input));
  }

  /** The inner body `>+<-]` re-run at cell 1 of [2, 1, 1]. */
  lemma InnerBody(m: seq<bv8>, input: seq<bv8>, fuel: nat)
    ensures Exec(State([2, 1, 1], 1, m, [], input), [RIGHT, ADD, LEFT, SUB, END], false, fuel) ==
      Outcome(None, State([2, 0, 2], 1, m, [], input))
  {
    var c := State([2, 1, 1], 1, m, [], input);
    var c1 := State([2, 1, 1], 2, m, [], input);
    var c2 := State([2, 1, 2], 2, m, [], input);
    var c3 := State([2, 1, 2], 1, m, [], input);
    var c4 := State([2, 0, 2], 1, m, [], input);
    ProcessRight(c, false, fuel);
    Advance(c, RIGHT, [ADD, LEFT, SUB, END], false, fuel, c1);
    ProcessAdd(c1, false, fuel);
    Advance(c1, ADD, [LEFT, SUB, END], false, fuel, c2);
    ProcessLeft(c2, false, fuel);
    Advance(c2, LEFT, [SUB, END], false, fuel, c3);
    ProcessSub(c3, false, fuel);
    Advance(c3, SUB, [END], false, fuel, c4);
    ProcessEnd(c4, false, fuel);
    EndOnZeroCell(c4, fuel);
    Advance(c4, END, [], false, fuel, c4);
  }

  /** The inner `]` of `++[>++[>+<-]<-]`: cell 1 holds 1, the body `>+<-]`
      re-runs once and clears it. */
  lemma InnerEnd(input: seq<bv8>, fuel: nat)
    requires fuel >= 1
    ensures var m := [ADD, ADD, START, RIGHT, ADD, ADD, START, RIGHT, ADD, LEFT, SUB, END];
      End(State([2, 1, 1], 1, m, [], input), fuel) ==
      Outcome(None, State([2, 0, 2], 1, m, [], input))
  {
    var a := [ADD, ADD, START, RIGHT, ADD, ADD];
    var b := [RIGHT, ADD, LEFT, SUB, END];
    var m := a + [START] + b;
    assert m == [ADD, ADD, START, RIGHT, ADD, ADD, START, RIGHT, ADD, LEFT, SUB, END];
    LoopBodyAfterNearestStart(a, b);
    var s := State([2, 1, 1], 1, m, [], input);
    EndIteration(s, fuel, b + Zeros(|m|));
    ExecPadded(s, b, |m|, fuel - 1);
    InnerBody(m, input, fuel - 1);
    EndOnZeroCell(State([2, 0, 2], 1, m, [], input), fuel - 1);
  }

  /** The outer `]`'s body `>+<-]<-]` re-run at cell 0 of [1, 0, 2]: its
      second `<` is at the left end. */
  lemma OuterBody(m: seq<bv8>, input: seq<bv8>, fuel: nat)
    ensures Exec(State([1, 0, 2], 0, m, [], input), [RIGHT, ADD, LEFT, SUB, END, LEFT, SUB, END], false, fuel) ==
      Outcome(Some(LeftLimit), State([0, 1, 2], 0, m, [], input))
  {
    var d := State([1, 0, 2], 0, m, [], input);
    var d1 := State([1, 0, 2], 1, m, [], input);
    var d2 := State([1, 1, 2], 1, m, [], input);
    var d3 := State([1, 1, 2], 0, m, [], input);
    var d4 := State([0, 1, 2], 0, m, [], input);
    ProcessRight(d, false, fuel);
    Advance(d, RIGHT, [ADD, LEFT, SUB, END, LEFT, SUB, END], false, fuel, d1);
    ProcessAdd(d1, false, fuel);
    Advance(d1, ADD, [LEFT, SUB, END, LEFT, SUB, END], false, fuel, d2);
    ProcessLeft(d2, false, fuel);
    Advance(d2, LEFT, [SUB, END, LEFT, SUB, END], false, fuel, d3);
    ProcessSub(d3, false, fuel);
    Advance(d3, SUB, [END, LEFT, SUB, END], false, fuel, d4);
    ProcessEnd(d4, false, fuel);
    EndOnZeroCell(d4, fuel);
    Advance(d4, END, [LEFT, SUB, END], false, fuel, d4);
    ProcessLeft(d4, false, fuel);
    Halt(d4, LEFT, [SUB, END], false, fuel);
  }

  /** The outer `]` of `++[>++[>+<-]<-]`: the trace's nearest `[` is the
      inner one, so the re-run body is `>+<-]<-]`, and its second `<` moves
      off the left end of the tape. */
  lemma OuterEnd(input: seq<bv8>, fuel: nat)
    requires fuel >= 1
    ensures var m := [ADD, ADD, START, RIGHT, ADD, ADD, START, RIGHT, ADD, LEFT, SUB, END, LEFT, SUB, END];
      End(State([1, 0, 2], 0, m, [], input), fuel) ==
      Outcome(Some(LeftLimit), State([0, 1, 2], 0, m, [], input))
  {
    var a := [ADD, ADD, START, RIGHT, ADD, ADD];
    var b := [RIGHT, ADD, LEFT, SUB, END, LEFT, SUB, END];
    var m := a + [START] + b;
    assert m == [ADD, ADD, START, RIGHT, ADD, ADD, START, RIGHT, ADD, LEFT, SUB, END, LEFT, SUB, END];
    LoopBodyAfterNearestStart(a, b);
    var s := State([1, 0, 2], 0, m, [], input);
    EndIteration(s, fuel, b + Zeros(|m|));
    ExecPadded(s, b, |m|, fuel - 1);
    OuterBody(m, input, fuel - 1);
  }

  /** `++[` streams past: cell 0 holds 2. */
  lemma NestedStage1(input: seq<bv8>, fuel: nat)
    ensures Exec(NewState(input), [ADD, ADD, START, RIGHT, ADD, ADD, START, RIGHT, ADD, LEFT, SUB, END, LEFT, SUB, END], true, fuel) ==
      Exec(State([2], 0, [ADD, ADD, START], [], input), [RIGHT, ADD, ADD, START, RIGHT, ADD, LEFT, SUB, END, LEFT, SUB, END], true, fuel)
  {
    ProcessAdd(NewState(input), true, fuel);
    Advance(NewState(input), ADD, [ADD, START, RIGHT, ADD, ADD, START, RIGHT, ADD, LEFT, SUB, END, LEFT, SUB, END], true, fuel, State([1], 0, [ADD], [], input));
    ProcessAdd(State([1], 0, [ADD], [], input), true, fuel);
    Advance(State([1], 0, [ADD], [], input), ADD, [START, RIGHT, ADD, ADD, START, RIGHT, ADD, LEFT, SUB, END, LEFT, SUB, END], true, fuel, State([2], 0, [ADD, ADD], [], input));
    StartIsIgnored(State([2], 0, [ADD, ADD], [], input), true, fuel);
    Advance(State([2], 0, [ADD, ADD], [], input), START, [RIGHT, ADD, ADD, START, RIGHT, ADD, LEFT, SUB, END, LEFT, SUB, END], true, fuel, State([2], 0, [ADD, ADD, START], [], input));
  }

  /** `>++[` streams past: cells [2, 2], pointer at cell 1. */
  lemma NestedStage2(input: seq<bv8>, fuel: nat)
    ensures Exec(State([2], 0, [ADD, ADD, START], [], input), [RIGHT, ADD, ADD, START, RIGHT, ADD, LEFT, SUB, END, LEFT, SUB, END], true, fuel) ==
      Exec(State([2, 2], 1, [ADD, ADD, START, RIGHT, ADD, ADD, START], [], input), [RIGHT, ADD, LEFT, SUB, END, LEFT, SUB, END], true, fuel)
  {
    ProcessRight(State([2], 0, [ADD, ADD, START], [], input), true, fuel);
    Advance(State([2], 0, [ADD, ADD, START], [], input), RIGHT, [ADD, ADD, START, RIGHT, ADD, LEFT, SUB, END, LEFT, SUB, END], true, fuel, State([2, 0], 1, [ADD, ADD, START, RIGHT], [], input));
    ProcessAdd(State([2, 0], 1, [ADD, ADD, START, RIGHT], [], input), true, fuel);
    Advance(State([2, 0], 1, [ADD, ADD, START, RIGHT], [], input), ADD, [ADD, START, RIGHT, ADD, LEFT, SUB, END, LEFT, SUB, END], true, fuel, State([2, 1], 1, [ADD, ADD, START, RIGHT, ADD], [], input));
    ProcessAdd(State([2, 1], 1, [ADD, ADD, START, RIGHT, ADD], [], input), true, fuel);
    Advance(State([2, 1], 1, [ADD, ADD, START, RIGHT, ADD], [], input), ADD, [START, RIGHT, ADD, LEFT, SUB, END, LEFT, SUB, END], true, fuel, State([2, 2], 1, [ADD, ADD, START, RIGHT, ADD, ADD], [], input));
    StartIsIgnored(State([2, 2], 1, [ADD, ADD, START, RIGHT, ADD, ADD], [], input), true, fuel);
    Advance(State([2, 2], 1, [ADD, ADD, START, RIGHT, ADD, ADD], [], input), START, [RIGHT, ADD, LEFT, SUB, END, LEFT, SUB, END], true, fuel, State([2, 2], 1, [ADD, ADD, START, RIGHT, ADD, ADD, START], [], input));
  }

  /** `>+<-` streams past: the inner body runs once, leaving [2, 1, 1]. */
  lemma NestedStage3(input: seq<bv8>, fuel: nat)
    ensures Exec(State([2, 2], 1, [ADD, ADD, START, RIGHT, ADD, ADD, START], [], input), [RIGHT, ADD, LEFT, SUB, END, LEFT, SUB, END], true, fuel) ==
      Exec(State([2, 1, 1], 1, [ADD, ADD, START, RIGHT, ADD, ADD, START, RIGHT, ADD, LEFT, SUB], [], input), [END, LEFT, SUB, END], true, fuel)
  {
    ProcessRight(State([2, 2], 1, [ADD, ADD, START, RIGHT, ADD, ADD, START], [], input), true, fuel);
    Advance(State([2, 2], 1, [ADD, ADD, START, RIGHT, ADD, ADD, START], [], input), RIGHT, [ADD, LEFT, SUB, END, LEFT, SUB, END], true, fuel, State([2, 2, 0], 2, [ADD, ADD, START, RIGHT, ADD, ADD, START, RIGHT], [], input));
    ProcessAdd(State([2, 2, 0], 2, [ADD, ADD, START, RIGHT, ADD, ADD, START, RIGHT], [], input), true, fuel);
    Advance(State([2, 2, 0], 2, [ADD, ADD, START, RIGHT, ADD, ADD, START, RIGHT], [], input), ADD, [LEFT, SUB, END, LEFT, SUB, END], true, fuel, State([2, 2, 1], 2, [ADD, ADD, START, RIGHT, ADD, ADD, START, RIGHT, ADD], [], input));
    ProcessLeft(State([2, 2, 1], 2, [ADD, ADD, START, RIGHT, ADD, ADD, START, RIGHT, ADD], [], input), true, fuel);
    Advance(State([2, 2, 1], 2, [ADD, ADD, START, RIGHT, ADD, ADD, START, RIGHT, ADD], [], input), LEFT, [SUB, END, LEFT, SUB, END], true, fuel, State([2, 2, 1], 1, [ADD, ADD, START, RIGHT, ADD, ADD, START, RIGHT, ADD, LEFT], [], input));
    ProcessSub(State([2, 2, 1], 1, [ADD, ADD, START, RIGHT, ADD, ADD, START, RIGHT, ADD, LEFT], [], input), true, fuel);
    Advance(State([2, 2, 1], 1, [ADD, ADD, START, RIGHT, ADD, ADD, START, RIGHT, ADD, LEFT], [], input), SUB, [END, LEFT, SUB, END], true, fuel, State([2, 1, 1], 1, [ADD, ADD, START, RIGHT, ADD, ADD, START, RIGHT, ADD, LEFT, SUB], [], input));
  }

  /** `]<-`: the inner `]` clears cell 1, then cell 0 goes down to 1. */
  lemma NestedStage4(input: seq<bv8>, fuel: nat)
    requires fuel >= 1
    ensures Exec(State([2, 1, 1], 1, [ADD, ADD, START, RIGHT, ADD, ADD, START, RIGHT, ADD, LEFT, SUB], [], input), [END, LEFT, SUB, END], true, fuel) ==
      Exec(State([1, 0, 2], 0, [ADD, ADD, START, RIGHT, ADD, ADD, START, RIGHT, ADD, LEFT, SUB, END, LEFT, SUB], [], input), [END], true, fuel)
  {
    InnerEnd(input, fuel);
    assert Stored(State([2, 1, 1], 1, [ADD, ADD, START, RIGHT, ADD, ADD, START, RIGHT, ADD, LEFT, SUB], [], input), END, true) ==
      State([2, 1, 1], 1, [ADD, ADD, START, RIGHT, ADD, ADD, START, RIGHT, ADD, LEFT, SUB, END], [], input);
    ProcessEnd(State([2, 1, 1], 1, [ADD, ADD, START, RIGHT, ADD, ADD, START, RIGHT, ADD, LEFT, SUB], [], input), true, fuel);
    Advance(State([2, 1, 1], 1, [ADD, ADD, START, RIGHT, ADD, ADD, START, RIGHT, ADD, LEFT, SUB], [], input), END, [LEFT, SUB, END], true, fuel, State([2, 0, 2], 1, [ADD, ADD, START, RIGHT, ADD, ADD, START, RIGHT, ADD, LEFT, SUB, END], [], input));
    ProcessLeft(State([2, 0, 2], 1, [ADD, ADD, START, RIGHT, ADD, ADD, START, RIGHT, ADD, LEFT, SUB, END], [], input), true, fuel);
    Advance(State([2, 0, 2], 1, [ADD, ADD, START, RIGHT, ADD, ADD, START, RIGHT, ADD, LEFT, SUB, END], [], input), LEFT, [SUB, END], true, fuel, State([2, 0, 2], 0, [ADD, ADD, START, RIGHT, ADD, ADD, START, RIGHT, ADD, LEFT, SUB, END, LEFT], [], input));
    ProcessSub(State([2, 0, 2], 0, [ADD, ADD, START, RIGHT, ADD, ADD, START, RIGHT, ADD, LEFT, SUB, END, LEFT], [], input), true, fuel);
    Advance(State([2, 0, 2], 0, [ADD, ADD, START, RIGHT, ADD, ADD, START, RIGHT, ADD, LEFT, SUB, END, LEFT], [], input), SUB, [END], true, fuel, State([1, 0, 2], 0, [ADD, ADD, START, RIGHT, ADD, ADD, START, RIGHT, ADD, LEFT, SUB, END, LEFT, SUB], [], input));
  }

  /** The nested program `++[>++[>+<-]<-]` does not leave [0, 4] on the
      tape: it stops with the left-limit error and the tape [0, 1, 2]. */
  lemma NestedLoopsMisbehave(input: seq<bv8>, fuel: nat)
    requires fuel >= 1
    ensures var p := [ADD, ADD, START, RIGHT, ADD, ADD, START, RIGHT, ADD, LEFT, SUB, END, LEFT, SUB, END];
      Exec(NewState(input), p, true, fuel) ==
      Outcome(Some(LeftLimit), State([0, 1, 2], 0, p, [], input))
  {
    NestedStage1(input, fuel);
    NestedStage2(input, fuel);
    NestedStage3(input, fuel);
    NestedStage4(input, fuel);
    ProcessEnd(State([1, 0, 2], 0, [ADD, ADD, START, RIGHT, ADD, ADD, START, RIGHT, ADD, LEFT, SUB, END, LEFT, SUB], [], input), true, fuel);
    ExecSingle(State([1, 0, 2], 0, [ADD, ADD, START, RIGHT, ADD, ADD, START, RIGHT, ADD, LEFT, SUB, END, LEFT, SUB], [], input), END, true, fuel);
    OuterEnd(input, fuel);
    assert Stored(State([1, 0, 2], 0, [ADD, ADD, START, RIGHT, ADD, ADD, START, RIGHT, ADD, LEFT, SUB, END, LEFT, SUB], [], input), END, true) ==
      State([1, 0, 2], 0, [ADD, ADD, START, RIGHT, ADD, ADD, START, RIGHT, ADD, LEFT, SUB, END, LEFT, SUB, END], [], input);
  }
}
