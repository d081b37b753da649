/**
 * The run-time behaviour of the wrapper class the generator emits: its static
 * `ProgramID` and its static reference counter `Ctr`, whose destructor deletes
 * the program and resets `ProgramID`. Every instance's `Compile`, `Recompile`
 * and `Dispose` act on that shared state. The program calls the wrapper makes
 * are recorded as a trace; the program name `GL.CreateProgram` hands out is an
 * input.
 */
module GeneratedShader {
  import opened Wrappers
  import opened Utility

  /** The delegate the emitted `Ctr` field is built with. */
  datatype Release = DeleteProgramAndReset

  /** The calls the wrapper makes on program objects. */
  datatype ProgramCall = CreateProgram(id: int) | DeleteProgram(id: int) | DeleteShader(id: int)

  /** `ShaderNotInitializedException`, raised by the wrapper class named `className`. */
  datatype ShaderNotInitialized = ShaderNotInitialized(className: string)
  {
    function Message(): string {
      "The shader \"" + className
      + "\" has not been initialized. Call Compile() on one of the instances or CompileShader() to compile the shader"
    }
  }

  /** The wrapper's static state. */
  datatype State = State(programID: int, count: uint32)

  function Initial(): State {
    State(0, 0)
  }

  /** What one instance does to the shared state. */
  datatype Event = Compile(newId: int) | Recompile(newId: int) | Dispose

  /** `Compile`: builds the program (named `newId`) only when there is none, then takes a reference. */
  function CompileStep(s: State, newId: int): (State, seq<ProgramCall>) {
    var (id, calls) := if s.programID == 0 then (newId, [CreateProgram(newId)]) else (s.programID, []);
    (State(id, Step(s.count, Increment).0), calls)
  }

  /** `Dispose`: drops a reference; at zero the destructor deletes the program and resets `ProgramID`. */
  function DisposeStep(s: State): (State, seq<ProgramCall>) {
    var (count, fired) := Step(s.count, Decrement);
    if fired then (State(0, count), [DeleteProgram(s.programID)]) else (State(s.programID, count), [])
  }

  /** `Recompile`: as written, hands the program to `DeleteShader`, forgets it, and compiles again. */
  function RecompileStep(s: State, newId: int): (State, seq<ProgramCall>) {
    var (t, calls) := CompileStep(s.(programID := 0), newId);
    (t, [DeleteShader(s.programID)] + calls)
  }

  function EventStep(s: State, e: Event): (State, seq<ProgramCall>) {
    match e
    case Compile(newId) => CompileStep(s, newId)
    case Recompile(newId) => RecompileStep(s, newId)
    case Dispose => DisposeStep(s)
  }

  /** A run of events on the shared state: the final state and the program calls made, in order. */
  function Lifecycle(s: State, events: seq<Event>): (State, seq<ProgramCall>)
    decreases events
  {
    if events == [] then (s, [])
    else
      var (t, calls) := EventStep(s, events[0]);
      var (u, more) := Lifecycle(t, events[1..]);
      (u, calls + more)
  }

  /** `GetShaderID`. */
  function ShaderID(s: State, className: string): (r: Result<int, ShaderNotInitialized>)
    ensures r.Success? <==> s.programID != 0
    ensures r.Success? ==> r.value == s.programID
    ensures r.Failure? ==> r.error.className == className
  {
    if s.programID != 0 then Success(s.programID) else Failure(ShaderNotInitialized(className))
  }

  /**
   * The static members of one emitted wrapper class. `calls` is the trace of
   * program calls made so far.
   */
  class WrapperStatics {
    var programID: int
    const ctr: Counter<Release>
    var calls: seq<ProgramCall>

    /** The static initialiser: no program, and a counter at 0 holding the release delegate. */
    constructor()
      ensures programID == 0 && fresh(ctr) && ctr.Count() == 0 && ctr.Destructor() == DeleteProgramAndReset
      ensures calls == []
    {
      programID := 0;
      ctr := new Counter(DeleteProgramAndReset);
      calls := [];
    }

    function Current(): State
      reads this, ctr
    {
      State(programID, ctr.Count())
    }

    /** The destructor: delete the program and reset `ProgramID`. */
    method RunRelease()
      modifies this
      ensures programID == 0 && calls == old(calls) + [DeleteProgram(old(programID))]
    {
      calls := calls + [DeleteProgram(programID)];
      programID := 0;
    }

    /** `CompileShader`, as far as the program object goes: `ProgramID = GL.CreateProgram()`. */
    method CompileShader(newId: int)
      modifies this
      ensures programID == newId && calls == old(calls) + [CreateProgram(newId)]
    {
      programID := newId;
      calls := calls + [CreateProgram(newId)];
    }

    method Compile(newId: int)
      modifies this, ctr
      ensures (Current(), calls) == (CompileStep(old(Current()), newId).0, old(calls) + CompileStep(old(Current()), newId).1)
      ensures ctr.Destructor() == old(ctr.Destructor())
    {
      ghost var s := Current();
      if programID == 0 {
        CompileShader(newId);
      }
      var c := Counter.PlusPlus(ctr);
      assert ctr.Count() == Step(s.count, Increment).0;
      assert programID == CompileStep(s, newId).0.programID;
      assert calls == old(calls) + CompileStep(s, newId).1;
    }

    method Recompile(newId: int)
      modifies this, ctr
      ensures (Current(), calls) == (RecompileStep(old(Current()), newId).0, old(calls) + RecompileStep(old(Current()), newId).1)
      ensures ctr.Destructor() == old(ctr.Destructor())
    {
      ghost var s := Current();
      calls := calls + [DeleteShader(programID)];
      programID := 0;
      Compile(newId);
      ghost var cs := CompileStep(s.(programID := 0), newId).1;
      assert calls == (old(calls) + [DeleteShader(s.programID)]) + cs;
      assert calls == old(calls) + ([DeleteShader(s.programID)] + cs);
    }

    method Dispose()
      modifies this, ctr
      ensures (Current(), calls) == (DisposeStep(old(Current())).0, old(calls) + DisposeStep(old(Current())).1)
      ensures ctr.Destructor() == old(ctr.Destructor())
    {
      ghost var s := Current();
      var c, fired := Counter.MinusMinus(ctr);
      if fired.Some? {
        RunRelease();
      }
      assert ctr.Count() == DisposeStep(s).0.count;
      assert programID == DisposeStep(s).0.programID;
      assert calls == old(calls) + DisposeStep(s).1;
    }

    method GetShaderID(className: string) returns (r: Result<int, ShaderNotInitialized>)
      ensures r == ShaderID(Current(), className)
    {
      if programID != 0 {
        return Success(programID);
      }
      return Failure(ShaderNotInitialized(className));
    }
  }

  // ---------------------------------------------------------------------------
  // Properties of the lifecycle
  // ---------------------------------------------------------------------------

  function Compiles(ids: seq<int>): (es: seq<Event>)
    ensures |es| == |ids|
  {
    if ids == [] then [] else [Compile(ids[0])] + Compiles(ids[1..])
  }

  function Disposes(n: nat): (es: seq<Event>)
    ensures |es| == n
  {
    if n == 0 then [] else [Dispose] + Disposes(n - 1)
  }

  lemma {:induction false} LifecycleConcat(s: State, a: seq<Event>, b: seq<Event>)
    ensures Lifecycle(s, a + b)
            == (Lifecycle(Lifecycle(s, a).0, b).0, Lifecycle(s, a).1 + Lifecycle(Lifecycle(s, a).0, b).1)
    decreases a
  {
    if a == [] {
      assert a + b == b;
      assert [] + Lifecycle(s, b).1 == Lifecycle(s, b).1;
    } else {
      var (t, calls) := EventStep(s, a[0]);
      assert (a + b)[0] == a[0] && (a + b)[1..] == a[1..] + b;
      LifecycleConcat(t, a[1..], b);
      var p := Lifecycle(t, a[1..]).1;
      var q := Lifecycle(Lifecycle(t, a[1..]).0, b).1;
      assert calls + (p + q) == (calls + p) + q;
    }
  }

  /** While a program exists, further compiles only take references. */
  lemma {:induction false} CompilesWhileLoadedOnlyCount(s: State, ids: seq<int>)
    requires s.programID != 0 && s.count as int + |ids| < 0x1_0000_0000
    ensures Lifecycle(s, Compiles(ids)) == (State(s.programID, (s.count as int + |ids|) as uint32), [])
    decreases ids
  {
    if ids != [] {
      var t := State(s.programID, s.count + 1);
      assert EventStep(s, Compile(ids[0])) == (t, []);
      assert Compiles(ids)[0] == Compile(ids[0]) && Compiles(ids)[1..] == Compiles(ids[1..]);
      CompilesWhileLoadedOnlyCount(t, ids[1..]);
      assert [] + Lifecycle(t, Compiles(ids[1..])).1 == [];
    }
  }

  /** From `n` references, `n` disposes delete the program once, at the last, and reset the state. */
  lemma {:induction false} DisposesReleaseAtTheLast(p: int, n: nat)
    requires 0 < n < 0x1_0000_0000
    ensures Lifecycle(State(p, n as uint32), Disposes(n)) == (Initial(), [DeleteProgram(p)])
  {
    assert Disposes(n)[1..] == Disposes(n - 1);
    if n == 1 {
      assert Lifecycle(Initial(), []) == (Initial(), []);
      assert [DeleteProgram(p)] + [] == [DeleteProgram(p)];
    } else {
      DisposesReleaseAtTheLast(p, n - 1);
      assert [] + [DeleteProgram(p)] == [DeleteProgram(p)];
    }
  }

  /** The first compile creates the program; the ones after it only take references. */
  lemma CompilesCreateOnce(ids: seq<int>)
    requires 0 < |ids| < 0x1_0000_0000 && ids[0] != 0
    ensures Lifecycle(Initial(), Compiles(ids)) == (State(ids[0], |ids| as uint32), [CreateProgram(ids[0])])
  {
    var first := State(ids[0], 1);
    assert EventStep(Initial(), Compile(ids[0])) == (first, [CreateProgram(ids[0])]);
    assert Compiles(ids)[0] == Compile(ids[0]) && Compiles(ids)[1..] == Compiles(ids[1..]);
    CompilesWhileLoadedOnlyCount(first, ids[1..]);
    assert [CreateProgram(ids[0])] + [] == [CreateProgram(ids[0])];
  }

  /**
   * Instances sharing the class: `n` compiles and then `n` disposes create
   * the program once, with the first name handed out, delete it once, at the
   * last dispose, and leave the class as it started.
   */
  lemma SharedProgramLifecycle(ids: seq<int>)
    requires 0 < |ids| < 0x1_0000_0000 && ids[0] != 0
    ensures Lifecycle(Initial(), Compiles(ids) + Disposes(|ids|))
            == (Initial(), [CreateProgram(ids[0]), DeleteProgram(ids[0])])
  {
    LifecycleConcat(Initial(), Compiles(ids), Disposes(|ids|));
    CompilesCreateOnce(ids);
    DisposesReleaseAtTheLast(ids[0], |ids|);
    assert [CreateProgram(ids[0])] + [DeleteProgram(ids[0])] == [CreateProgram(ids[0]), DeleteProgram(ids[0])];
  }

  /**
   * As written, `Recompile` takes a second reference for the same instance,
   * so compiling, recompiling and disposing once leaves the new program
   * alive; the old one only ever reaches `DeleteShader`.
   */
  lemma RecompileKeepsAnExtraReference(a: int, b: int)
    requires a != 0 && b != 0
    ensures Lifecycle(Initial(), [Compile(a), Recompile(b), Dispose])
            == (State(b, 1), [CreateProgram(a), DeleteShader(a), CreateProgram(b)])
  {
    var es: seq<Event> := [Compile(a), Recompile(b), Dispose];
    assert es[1..] == [Recompile(b), Dispose] && es[1..][1..] == [Dispose] && es[1..][1..][1..] == [];
    assert EventStep(Initial(), Compile(a)) == (State(a, 1), [CreateProgram(a)]);
    assert CompileStep(State(0, 1), b) == (State(b, 2), [CreateProgram(b)]);
    assert [DeleteShader(a)] + [CreateProgram(b)] == [DeleteShader(a), CreateProgram(b)];
    assert EventStep(State(a, 1), Recompile(b)) == (State(b, 2), [DeleteShader(a), CreateProgram(b)]);
    assert EventStep(State(b, 2), Dispose) == (State(b, 1), []);
    assert [Dispose][1..] == [];
    var none: seq<ProgramCall> := [];
    assert none + none == none;
    assert Lifecycle(State(b, 1), []) == (State(b, 1), []);
    assert Lifecycle(State(b, 2), [Dispose]) == (State(b, 1), []);
    assert [DeleteShader(a), CreateProgram(b)] + [] == [DeleteShader(a), CreateProgram(b)];
    assert Lifecycle(State(a, 1), es[1..]) == (State(b, 1), [DeleteShader(a), CreateProgram(b)]);
    assert [CreateProgram(a)] + [DeleteShader(a), CreateProgram(b)] == [CreateProgram(a), DeleteShader(a), CreateProgram(b)];
  }

  /** `GetShaderID` fails before the first compile and after the last dispose. */
  lemma NoShaderIDOutsideTheLifecycle(ids: seq<int>, className: string)
    requires 0 < |ids| < 0x1_0000_0000 && ids[0] != 0
    ensures ShaderID(Initial(), className).Failure?
    ensures ShaderID(Lifecycle(Initial(), Compiles(ids) + Disposes(|ids|)).0, className).Failure?
  {
    SharedProgramLifecycle(ids);
  }
}
