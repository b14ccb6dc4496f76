/** The program's driver: a new processor gets every byte of the program,
    in order and stored in its trace, and the run stops at the first error.
    Reading the program file and reporting the error are not modelled. */
module Driver {
  import S = Semantics
  import opened Interpreter

  method Run(console: Console, program: seq<bv8>, fuel: nat) returns (p: Processor, fault: S.Option<S.Fault>)
    modifies console
    ensures p.Valid() && p.console == console
    ensures S.Outcome(fault, p.Abstract()) ==
      S.Exec(S.State([0], 0, [], old(console.output), old(console.input)), program, true, fuel)
  {
    p := new Processor(console);
    var i := 0;
    while i < |program|
      invariant 0 <= i <= |program| && p.Valid() && p.console == console
      invariant S.Exec(S.State([0], 0, [], old(console.output), old(console.input)), program, true, fuel) ==
        S.Exec(p.Abstract(), program[i..], true, fuel)
    {
      assert program[i..][1..] == program[i + 1..];
      fault := p.Process(program[i], true, fuel);
      if fault.Some? {
        return;
      }
      i := i + 1;
    }
    fault := S.None;
  }
}
