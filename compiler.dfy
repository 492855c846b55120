/**
 * The compiler front-end skeleton of xacc/compiler/Compiler.hpp.
 *
 * ICompiler offers one operation, compile(src, accelerator) -> IR. The
 * template base Compiler<Derived> implements it in four fixed steps: stage the
 * source in the field kernelSource, bind the accelerator in the field
 * hardware, run the modifySource() hook (a no-op by default), and return what
 * the derived class's parameterless compile() produces (the base version of
 * that hook calls QCIError).
 *
 * The accelerator handle and the IR are opaque here: they are the type
 * parameters Acc and IR.
 */
module Compiler {
  import opened Wrappers

  /** How a compilation can fail. */
  datatype CompileError =
    | Defect(message: string)           // the base compile() hook was not overridden
    | CompilationError(reason: string)  // the front-end could not parse or lower the source
    | UnsupportedTarget(reason: string) // the front-end cannot target the accelerator

  /** The message the base compile() hook reports (Compiler.hpp:127). */
  const MissingOverrideMessage: string := "Compile must be overridden by derived types.\n"

  /**
   * The two hooks a derived compiler may override. None means the derived
   * class inherits the base version. A hook reads the staged fields, so it
   * receives the staged source and the bound accelerator.
   */
  datatype FrontEnd<!Acc, !IR> = FrontEnd(
    modifySource: Option<(string, Acc) -> string>,
    compile: Option<(string, Acc) -> Result<IR, CompileError>>)

  /** modifySource() as dispatched on a front-end: the override, or the base no-op. */
  function ModifySourceHook<Acc, IR>(fe: FrontEnd<Acc, IR>, kernelSource: string, hardware: Acc): (s: string)
    ensures fe.modifySource.None? ==> s == kernelSource
  {
    match fe.modifySource
    case None => kernelSource
    case Some(hook) => hook(kernelSource, hardware)
  }

  /** The parameterless compile() as dispatched: the override, or the base, which calls QCIError;
      QCIError.hpp is not part of this model, so that outcome is the Defect error value. */
  function CompileHook<Acc, IR>(fe: FrontEnd<Acc, IR>, kernelSource: string, hardware: Acc): (r: Result<IR, CompileError>)
    ensures fe.compile.None? ==> r == Failure(Defect(MissingOverrideMessage))
  {
    match fe.compile
    case None => Failure(Defect(MissingOverrideMessage))
    case Some(hook) => hook(kernelSource, hardware)
  }

  /** True of a front-end whose compile() override never reports a Defect itself. */
  ghost predicate OverrideReportsNoDefect<Acc(!new), IR>(fe: FrontEnd<Acc, IR>)
  {
    fe.compile.Some? ==>
      forall s, a :: !(fe.compile.value(s, a).Failure? && fe.compile.value(s, a).error.Defect?)
  }

  /**
   * ICompiler::compile(src, acc) for a front-end: the staged source the hook
   * sees is modifySource applied to src, and the result is what the
   * parameterless compile() returns on it.
   */
  function CompileResult<Acc, IR>(fe: FrontEnd<Acc, IR>, src: string, acc: Acc): (r: Result<IR, CompileError>)
    ensures fe.compile.None? ==> r == Failure(Defect(MissingOverrideMessage))
    ensures fe.compile.Some? ==> r == fe.compile.value(ModifySourceHook(fe, src, acc), acc)
    ensures fe.modifySource.None? && fe.compile.Some? ==> r == fe.compile.value(src, acc)
  {
    CompileHook(fe, ModifySourceHook(fe, src, acc), acc)
  }

  /** A missing compile() override always ends in a Defect, never in an IR. */
  lemma MissingOverrideIsDefect<Acc, IR>(fe: FrontEnd<Acc, IR>, src: string, acc: Acc)
    requires fe.compile.None?
    ensures !CompileResult(fe, src, acc).Success?
    ensures CompileResult(fe, src, acc).error == Defect(MissingOverrideMessage)
  {
  }

  /** For a front-end whose override reports no Defect, a Defect means exactly a missing override. */
  lemma DefectIffMissingOverride<Acc(!new), IR>(fe: FrontEnd<Acc, IR>, src: string, acc: Acc)
    requires OverrideReportsNoDefect(fe)
    ensures var r := CompileResult(fe, src, acc); (r.Failure? && r.error.Defect?) <==> fe.compile.None?
  {
  }

  // ---------------------------------------------------------------------
  // The staged state of one Compiler instance, and repeated calls on it
  // ---------------------------------------------------------------------

  /** The two fields of a Compiler instance; hardware is empty until the first call. */
  datatype Staging<Acc> = Staging(kernelSource: string, hardware: Option<Acc>)

  /** The fields of a freshly constructed instance. */
  function Unbound<Acc>(): Staging<Acc>
  {
    Staging("", None)
  }

  /** The arguments of one compile(src, acc) call. */
  datatype Call<Acc> = Call(src: string, acc: Acc)

  /** The binding steps of compile(src, acc): the source is staged, then the accelerator is bound. */
  function Bind<Acc>(st: Staging<Acc>, c: Call<Acc>): (st': Staging<Acc>)
    ensures st' == Staging(c.src, Some(c.acc))  // both fields rebound; nothing of st survives
  {
    st.(kernelSource := c.src).(hardware := Some(c.acc))
  }

  /**
   * One compile(src, acc) call on an instance in state st: bind, run
   * modifySource() on the staged fields, then run compile() on them. Yields
   * the new fields and the returned value.
   */
  function Step<Acc, IR>(fe: FrontEnd<Acc, IR>, st: Staging<Acc>, c: Call<Acc>): (out: (Staging<Acc>, Result<IR, CompileError>))
    ensures out.0 == Staging(ModifySourceHook(fe, c.src, c.acc), Some(c.acc))
    ensures out.1 == CompileResult(fe, c.src, c.acc)
  {
    var bound := Bind(st, c);
    var staged := bound.(kernelSource := ModifySourceHook(fe, bound.kernelSource, bound.hardware.value));
    (staged, CompileHook(fe, staged.kernelSource, staged.hardware.value))
  }

  /** A sequence of compile calls on one instance: the final fields and the returned values in order. */
  function Run<Acc, IR>(fe: FrontEnd<Acc, IR>, st: Staging<Acc>, calls: seq<Call<Acc>>): (out: (Staging<Acc>, seq<Result<IR, CompileError>>))
    decreases |calls|
  {
    if calls == [] then (st, [])
    else
      var (st1, r) := Step(fe, st, calls[0]);
      var (stN, rs) := Run(fe, st1, calls[1..]);
      (stN, [r] + rs)
  }

  /** Each call's returned value depends only on that call's arguments, never on earlier calls. */
  lemma {:induction false} RunResultsIndependent<Acc, IR>(fe: FrontEnd<Acc, IR>, st: Staging<Acc>, calls: seq<Call<Acc>>)
    decreases |calls|
    ensures |Run(fe, st, calls).1| == |calls|
    ensures forall k :: 0 <= k < |calls| ==> Run(fe, st, calls).1[k] == CompileResult(fe, calls[k].src, calls[k].acc)
  {
    if calls != [] {
      var st1 := Step(fe, st, calls[0]).0;
      RunResultsIndependent(fe, st1, calls[1..]);
      forall k | 0 <= k < |calls|
        ensures Run(fe, st, calls).1[k] == CompileResult(fe, calls[k].src, calls[k].acc)
      {
        if k > 0 {
          assert calls[1..][k - 1] == calls[k];
        }
      }
    }
  }

  /**
   * After a non-empty sequence of calls, the fields reflect the last call
   * alone: whatever state the instance started in, and whatever came before.
   */
  lemma {:induction false} RunKeepsOnlyLastCall<Acc, IR>(fe: FrontEnd<Acc, IR>, st: Staging<Acc>, calls: seq<Call<Acc>>)
    requires calls != []
    decreases |calls|
    ensures var last := calls[|calls| - 1];
      Run(fe, st, calls).0 == Staging(ModifySourceHook(fe, last.src, last.acc), Some(last.acc))
  {
    var st1 := Step(fe, st, calls[0]).0;
    if |calls| > 1 {
      RunKeepsOnlyLastCall(fe, st1, calls[1..]);
      assert calls[1..][|calls[1..]| - 1] == calls[|calls| - 1];
    }
  }

  // ---------------------------------------------------------------------
  // The order of the pipeline's steps
  // ---------------------------------------------------------------------

  /**
   * One step of compile(src, acc), with what it saw and produced. The hooks
   * are pure functions here, so what a trace captures is the data flow between
   * the steps: modifySource() sees the bound source and accelerator, compile()
   * sees what modifySource() left. The events are written by the step methods
   * of Pipeline themselves; the trace does not observe the C++ call order
   * independently of them.
   */
  datatype Event<Acc, IR> =
    | SourceBound(source: string)
    | HardwareBound(hardware: Acc)
    | SourceModified(before: string, seen: Acc, after: string)
    | CompileCalled(staged: string, target: Acc, result: Result<IR, CompileError>)

  /** The steps one compile(src, acc) call takes, in the order Compiler.hpp:91-102 takes them. */
  ghost function CallEvents<Acc, IR>(fe: FrontEnd<Acc, IR>, src: string, acc: Acc): seq<Event<Acc, IR>>
  {
    var staged := ModifySourceHook(fe, src, acc);
    [SourceBound(src), HardwareBound(acc), SourceModified(src, acc, staged), CompileCalled(staged, acc, CompileResult(fe, src, acc))]
  }

  /**
   * Event i of trace t is in place: a source binding is followed by the
   * accelerator binding, which is followed by modifySource(), which is
   * followed by compile(); modifySource() saw exactly the source and
   * accelerator just bound and produced what the hook produces on them;
   * compile() saw exactly what modifySource() left and that accelerator, and
   * produced what the hook produces on them.
   */
  ghost predicate InPlace<Acc, IR>(fe: FrontEnd<Acc, IR>, t: seq<Event<Acc, IR>>, i: int)
    requires 0 <= i < |t|
  {
    match t[i]
    case SourceBound(_) =>
      i + 1 < |t| && t[i + 1].HardwareBound?
    case HardwareBound(_) =>
      1 <= i && t[i - 1].SourceBound? && i + 1 < |t| && t[i + 1].SourceModified?
    case SourceModified(before, seen, after) =>
      2 <= i && t[i - 2] == SourceBound(before) && t[i - 1] == HardwareBound(seen)
      && after == ModifySourceHook(fe, before, seen)
      && i + 1 < |t| && t[i + 1].CompileCalled?
    case CompileCalled(staged, target, result) =>
      1 <= i && t[i - 1].SourceModified? && t[i - 1].after == staged && t[i - 1].seen == target
      && result == CompileHook(fe, staged, target)
  }

  /** Every event of the trace is in place. */
  ghost predicate Ordered<Acc, IR>(fe: FrontEnd<Acc, IR>, t: seq<Event<Acc, IR>>)
  {
    forall i :: 0 <= i < |t| ==> InPlace(fe, t, i)
  }

  /** One more compile call keeps a well-ordered trace well-ordered. */
  lemma OrderedAppendCall<Acc, IR>(fe: FrontEnd<Acc, IR>, t: seq<Event<Acc, IR>>, src: string, acc: Acc)
    requires Ordered(fe, t)
    ensures Ordered(fe, t + CallEvents(fe, src, acc))
  {
    var e := CallEvents(fe, src, acc);
    var u := t + e;
    forall i | 0 <= i < |u|
      ensures InPlace(fe, u, i)
    {
      if i < |t| {
        assert InPlace(fe, t, i);
        assert u[i] == t[i];
        if i + 1 < |t| { assert u[i + 1] == t[i + 1]; }
        if 1 <= i { assert u[i - 1] == t[i - 1]; }
        if 2 <= i { assert u[i - 2] == t[i - 2]; }
        if i == |t| - 1 {
          assert !t[i].SourceBound? && !t[i].HardwareBound? && !t[i].SourceModified?;
        }
      } else {
        var j := i - |t|;
        assert u[i] == e[j];
        if j > 0 { assert u[i - 1] == e[j - 1]; }
        if j > 1 { assert u[i - 2] == e[j - 2]; }
        if j < 3 { assert u[i + 1] == e[j + 1]; }
      }
    }
  }

  // ---------------------------------------------------------------------
  // Compiler<Derived>: the instance with its two fields
  // ---------------------------------------------------------------------

  /**
   * An instance of a derived Compiler. frontEnd fixes the derived class's
   * hooks; kernelSource and hardware are the staged fields; trace records the
   * steps taken so far.
   */
  class Pipeline<Acc, IR> {
    const frontEnd: FrontEnd<Acc, IR>
    var kernelSource: string
    var hardware: Option<Acc>
    ghost var trace: seq<Event<Acc, IR>>

    /** The object invariant: the recorded steps follow the pipeline's data flow, call after call. */
    ghost predicate Valid()
      reads this
    {
      Ordered(frontEnd, trace)
    }

    /** The two fields as a value. */
    function State(): Staging<Acc>
      reads this
    {
      Staging(kernelSource, hardware)
    }

    constructor (frontEnd: FrontEnd<Acc, IR>)
      ensures Valid()
      ensures this.frontEnd == frontEnd && State() == Unbound() && trace == []
    {
      this.frontEnd := frontEnd;
      kernelSource := "";
      hardware := None;
      trace := [];
    }

    /**
     * compile(src, acc): binds both fields, runs modifySource(), then returns
     * what compile() returns. The new fields are a function of this call's
     * arguments alone.
     */
    method Compile(src: string, acc: Acc) returns (r: Result<IR, CompileError>)
      requires Valid()
      modifies this
      ensures Valid()
      ensures (State(), r) == Step(frontEnd, old(State()), Call(src, acc))
      ensures kernelSource == ModifySourceHook(frontEnd, src, acc) && hardware == Some(acc)
      ensures r == CompileResult(frontEnd, src, acc)
      ensures trace == old(trace) + CallEvents(frontEnd, src, acc)
    {
      kernelSource := src;
      trace := trace + [SourceBound(src)];
      hardware := Some(acc);
      trace := trace + [HardwareBound(acc)];
      ModifySource();
      r := CompileStaged();
      assert trace == old(trace) + CallEvents(frontEnd, src, acc);
      OrderedAppendCall(frontEnd, old(trace), src, acc);
    }

    /** modifySource(): rewrites the staged source in place; the accelerator is left as bound. */
    method ModifySource()
      requires hardware.Some?
      modifies this`kernelSource, this`trace
      ensures kernelSource == ModifySourceHook(frontEnd, old(kernelSource), hardware.value)
      ensures trace == old(trace) + [SourceModified(old(kernelSource), hardware.value, kernelSource)]
    {
      var before := kernelSource;
      kernelSource := ModifySourceHook(frontEnd, kernelSource, hardware.value);
      trace := trace + [SourceModified(before, hardware.value, kernelSource)];
    }

    /** The parameterless compile(): reads the staged fields and produces the result. */
    method CompileStaged() returns (r: Result<IR, CompileError>)
      requires hardware.Some?
      modifies this`trace
      ensures r == CompileHook(frontEnd, kernelSource, hardware.value)
      ensures trace == old(trace) + [CompileCalled(kernelSource, hardware.value, r)]
    {
      r := CompileHook(frontEnd, kernelSource, hardware.value);
      trace := trace + [CompileCalled(kernelSource, hardware.value, r)];
    }
  }
}
