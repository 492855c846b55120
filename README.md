# xacc compiler skeleton in Dafny

This project models the compiler front-end skeleton of xacc, found in
`xacc/compiler/Compiler.hpp`. The model is split across three files:

- `wrappers.dfy` holds the `Option` and `Result` datatypes.
- `compiler.dfy` holds module `Compiler`.
- `frontends.dfy` holds module `FrontEndExamples`, a few small front-ends and what the contracts say about them.

`ICompiler` gives callers one operation: `compile(src, accelerator)`, which
returns IR. The template base `Compiler<Derived>` implements that operation in
four steps, always in this order:

1. Copy the caller's source into the field `kernelSource`.
2. Bind the accelerator into the field `hardware`.
3. Run the `modifySource()` hook. Its base version does nothing.
4. Return what the derived class's parameterless `compile()` returns. Its base version calls `QCIError`.

How the model represents this:

- **Accelerator and IR.** Both are opaque, so they are the type parameters `Acc` and `IR`.
- **The derived class.** It is a `FrontEnd` value with one `Option` per hook. `None` means the derived class inherits the base version of that hook.
  - `ModifySourceHook` is `modifySource()` after dispatch.
  - `CompileHook` is the parameterless `compile()` after dispatch.
  - Both hooks receive the staged source and the bound accelerator, because those are what the C++ hooks read from the fields.
- **One compiler instance.** This is the class `Compiler.Pipeline`.
  - It has the two fields `kernelSource` and `hardware`.
  - `hardware` is an `Option`: a default-constructed `shared_ptr` is empty until the first call.
  - A ghost `trace`, written by the step methods, records the data flow of each call: what each step saw and produced.
  - The object invariant `Valid()` says the recorded steps follow that data flow, call after call (`Ordered`).
- **Pure view of the same pipeline.** `Step` is one call as a function of the old fields. `Run` is a sequence of calls on one instance. `CompileResult` is what `ICompiler::compile` returns.
- **Error taxonomy.** `CompileError` has three variants:
  - `Defect` is the base `compile()` hook. It carries the hook's message.
  - `CompilationError` and `UnsupportedTarget` are failures that an overriding hook reports through the same result.

## Model

| member | source | states |
|---|---|---|
| `Compiler.ModifySourceHook` | xacc/compiler/Compiler.hpp:133-135 | If `modifySource()` is not overridden, the staged source is left exactly as it was. |
| `Compiler.CompileHook` | xacc/compiler/Compiler.hpp:126-128 | If the parameterless `compile()` is not overridden, the result is the `Defect` error with the base hook's message. It is never an IR. |
| `Compiler.CompileResult` | xacc/compiler/Compiler.hpp:86-102 | `compile(src, acc)` returns exactly what the derived `compile()` returns when it runs on `modifySource` applied to `src` and on `acc`. With the default `modifySource`, that hook sees `src` itself. With no `compile()` override, the call fails with a `Defect`. |
| `Compiler.MissingOverrideIsDefect` | xacc/compiler/Compiler.hpp:126-128 | For every source and accelerator, a front-end without a `compile()` override ends in `Defect(MissingOverrideMessage)` and never in an IR. |
| `Compiler.DefectIffMissingOverride` | xacc/compiler/Compiler.hpp:126-128 | Assume the front-end's own `compile()` override never reports a `Defect`. Then a call ends in a `Defect` exactly when the override is missing, in both directions. |
| `Compiler.Bind` | xacc/compiler/Compiler.hpp:91-93 | Binding overwrites both fields: the staged source becomes `src` and the accelerator becomes `acc`, whatever the instance held before. |
| `Compiler.Step` | xacc/compiler/Compiler.hpp:86-102 | One call on an instance, from any old field values, produces these new fields: the staged source is `modifySource(src, acc)` and the accelerator is `acc`. Nothing from before the call carries over. The call returns `CompileResult(src, acc)`. |
| `Compiler.RunResultsIndependent` | xacc/compiler/Compiler.hpp:91-102 | Over any sequence of calls on one instance, the k-th returned value equals `CompileResult` of the k-th call's arguments. It does not depend on earlier calls or on the starting fields. |
| `Compiler.RunKeepsOnlyLastCall` | xacc/compiler/Compiler.hpp:91-93 | After any non-empty sequence of calls, both fields reflect only the last call's arguments, whatever the instance held before. |
| `Compiler.OrderedAppendCall` | xacc/compiler/Compiler.hpp:91-102 | Appending one call's steps keeps a trace ordered. The steps come in this order: source bound, accelerator bound, `modifySource()` on exactly those values, `compile()` on exactly what `modifySource()` left. Each hook's output is recorded as the hook produced it. |
| `Compiler.Pipeline.constructor` | xacc/compiler/Compiler.hpp:114-116 | A new instance has an empty staged source, no accelerator and an empty (ordered) trace. |
| `Compiler.Pipeline.Compile` | xacc/compiler/Compiler.hpp:86-103 | The new fields are `Step` applied to the old ones: `kernelSource` is `modifySource(src, acc)` and `hardware` is `acc`. The result is `CompileResult(src, acc)`. The trace grows by exactly the four steps of this call, in order, and stays ordered. |
| `Compiler.Pipeline.ModifySource` | xacc/compiler/Compiler.hpp:100 | Rewrites only `kernelSource`, in place, using the hook on the bound accelerator. `hardware` is left unchanged. It records what it saw and what it produced. |
| `Compiler.Pipeline.CompileStaged` | xacc/compiler/Compiler.hpp:102 | Changes no field. Returns the dispatched `compile()` on the staged fields and records what it saw and returned. |
| `FrontEndExamples.WrappingSeesModifiedSource` | xacc/compiler/Compiler.hpp:95-102 | A front-end whose `modifySource` wraps the body in `BEGIN`/`END` compiles `"x"` to `"BEGIN x END"`. |
| `FrontEndExamples.VerbatimSeesCallerSource` | xacc/compiler/Compiler.hpp:133-135 | A front-end that inherits `modifySource` passes the caller's source to `compile()` unchanged. |

Three further points:

- **The caller's `src` is never mutated.** In Dafny, `src` is a value parameter, so `Compile` cannot change it. Only the staging field `kernelSource` is rewritten, by `ModifySource`.
- **The missing override.** The base `compile()` (Compiler.hpp:126-128) calls `QCIError` and has no `return` after it. `QCIError.hpp` is not part of this model, so the outcome is represented as the `Defect` error value, never an IR.
- **What the trace records.** The hooks are pure functions in this model, so the trace records the data flow between the steps: `modifySource()` sees the bound source and accelerator, and `compile()` sees what `modifySource()` left. The events are written by `Pipeline`'s step methods themselves.

## Left out

- Registry and factory injection (`QCIObject`, `AbstractFactory`, which select a compiler by name) are left out. Their headers are not part of this model.
- `QCIError`'s process-wide reporting, and whatever else it does, are left out. Only the outcome is modelled, as the `Defect` error value.
- Concurrency is left out. The code defines no threading, and the model treats one instance as serving one call at a time.
- The concrete `IR` and `Accelerator` types are left out, and so is `shared_ptr` ownership. They are opaque type parameters. A null accelerator handle is one of the values of `Acc`.
- CRTP dispatch (`getAsDerived()`'s `static_cast`) is represented as an ordinary hook call on the `FrontEnd` value.
- Hooks are modelled as pure functions of the staged source and the accelerator. An override that changes other members or has side effects is left out.
- `ICompiler` implementations other than `Compiler<Derived>` are left out. The interface is modelled through `Pipeline.Compile` and `CompileResult`.
- `tpls/ensmallen/ensmallen_bits/adam/adam.hpp` is left out. It is a floating-point optimiser with no coupling to the compiler skeleton.
