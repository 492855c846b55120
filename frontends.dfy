/**
 * Small front-ends plugged into the Compiler skeleton, and what the skeleton's
 * contracts let a caller conclude about them.
 */
module FrontEndExamples {
  import opened Wrappers
  import opened Compiler

  /** Overrides modifySource() to wrap the body, and compile() to return the staged text as its IR. */
  function Wrapping<Acc>(): FrontEnd<Acc, string>
  {
    FrontEnd(Some((s: string, a: Acc) => "BEGIN " + s + " END"), Some((s: string, a: Acc) => Success(s)))
  }

  /** Overrides only compile(), returning the staged text as its IR; modifySource() is inherited. */
  function Verbatim<Acc>(): FrontEnd<Acc, string>
  {
    FrontEnd(None, Some((s: string, a: Acc) => Success(s)))
  }

  /** With modifySource() overridden, compile() sees the wrapped body. */
  lemma WrappingSeesModifiedSource<Acc>(acc: Acc)
    ensures CompileResult(Wrapping(), "x", acc) == Success("BEGIN x END")
  {
    assert "BEGIN " + "x" + " END" == "BEGIN x END";
  }

  /** With modifySource() inherited, compile() sees the caller's source unchanged. */
  lemma VerbatimSeesCallerSource<Acc>(src: string, acc: Acc)
    ensures CompileResult(Verbatim(), src, acc) == Success(src)
  {
  }

  /**
   * A usage example, not a model of a source function: two calls on one
   * instance, where the second call's fields and result owe nothing to the first.
   */
  method TwoCallsOnOneInstance<Acc>(acc1: Acc, acc2: Acc)
  {
    var p := new Pipeline(Wrapping<Acc>());
    var r1 := p.Compile("first", acc1);
    assert "BEGIN " + "first" + " END" == "BEGIN first END";
    assert r1 == Success("BEGIN first END");
    var r2 := p.Compile("second", acc2);
    assert "BEGIN " + "second" + " END" == "BEGIN second END";
    assert r2 == Success("BEGIN second END");
    assert p.kernelSource == "BEGIN second END" && p.hardware == Some(acc2);
    assert |p.trace| == 8 && p.trace[7].staged == "BEGIN second END";
  }
}
