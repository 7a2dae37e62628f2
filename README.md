# phper function registration and dispatch, in Dafny

This project models how phper, a Rust framework for writing PHP extensions,
registers native functions and methods with the PHP engine and dispatches
calls to them (`phper/src/functions.rs`).

An extension describes each callable as a `FunctionEntity`: a name, a handler
(`Callable::Function`, or `Callable::Method` together with an `AtomicPtr` to
the class entry) and a list of `Argument` descriptors. `FunctionEntity::entry`
turns it into the engine's `zend_function_entry`. The record's handler is
always the single trampoline `invoke`, and its argument-info table is built
cell by cell:

| cell | content |
|---|---|
| 0 | header: the number of required arguments, cast to a pointer |
| 1 .. n | one cell per declared argument: its NUL-terminated name and, under the PHP 7.x layouts, its pass-by-reference flag |
| n + 1 | a zeroed cell |
| n + 2 | a cell whose `name` field is the address of the entity's own handler |

When PHP registers the record, it keeps the table from cell 1 on as
`common.arg_info`, the declared count `n` as `common.num_args`, and the
header's count as `common.required_num_args`. So when `invoke` indexes
`common.arg_info` at `num_args + 1`, it reads cell `n + 2` of the table and
recovers the handler. It then checks the number of arguments actually given
against the required count. On a shortfall it warns and returns null.
Otherwise it calls the handler once with every given argument. A method also
gets a receiver: `$this` paired with the class entry its slot holds at the
moment of the call.

Files and modules:

- `cstrings.dfy` (`CStrings`): `push('\0')` and how the engine reads such a
  buffer back.
- `decimal.dfy` (`DecimalText`): the `{}` rendering of the two counts in the
  warning, and its inverse.
- `engine.dfy` (`Engine`): the engine values the code only passes along
  (`Val`, class entry pointers, `Object`, `E_WARNING`).
- `functions.dfy` (`Functions`): the model of `functions.rs`.

Modelling choices:

- `FunctionEntity` is a class with constant fields. The handler cell holds
  the address of an entity's `handler`, so the round trip is stated as
  reference identity (`Callee(data) == e`), not as equality of values.
- The `AtomicPtr<ClassEntry>` is the class `ClassSlot`, whose `entry` field
  class registration assigns after the entity exists.
- The user closures behind the `Function` and `Method` trait impls, composed
  with the `SetVal` conversion of their results, are uninterpreted Dafny
  functions (`seq<Val> -> Val`, `(Object, seq<Val>) -> Val`).
- `Invoke` is a method. It writes the return slot (`ReturnSlot`) and returns
  the `Effect` the engine observes: a panic, a warning (level and the C
  string passed to `php_error_docref1`), or the one call it made together
  with the value that call produced. `Outcome` is the function that
  specifies it.
- The `name` field of an argument-info cell is a `NamePtr`: null, a count
  cast to a pointer, a C string, or a handler address. A count of zero cast
  to a pointer is null (`IsNull`).

## Model

| member | source | states |
|---|---|---|
| `Functions.ByVal` | phper/src/functions.rs:113-121 | the name gets exactly one NUL appended; the argument is required and passed by value |
| `Functions.ByRef` | phper/src/functions.rs:123-131 | the name gets exactly one NUL appended; the argument is required and passed by reference |
| `Functions.ByValOptional` | phper/src/functions.rs:133-141 | the name gets exactly one NUL appended; the argument is optional and passed by value |
| `Functions.ByRefOptional` | phper/src/functions.rs:143-151 | the name gets exactly one NUL appended; the argument is optional and passed by reference |
| `Functions.ArgumentConstructors` | phper/src/functions.rs:112-152 | the four constructors give four distinct descriptors; the engine reads each name back unchanged exactly when the name has no NUL of its own |
| `CStrings.ReadTerminated` | phper/src/functions.rs:64-65 | reading back a NUL-terminated name gives the name if and only if it has no NUL; otherwise the engine sees a strictly shorter name |
| `Functions.FunctionEntity.constructor` | phper/src/functions.rs:63-71 | the stored name is the given name plus one NUL; the handler and the argument list are stored unchanged |
| `Functions.RequiredCount` | phper/src/functions.rs:77 | the number of required arguments never exceeds the declared count |
| `Functions.RequiredCountBounds` | phper/src/functions.rs:77 | the required count equals the declared count if and only if every argument is required, and is zero if and only if none is |
| `Functions.RequiredCountAppend` | phper/src/functions.rs:77 | the required count of a concatenation is the sum of the two counts |
| `Functions.ArgCellsAt` | phper/src/functions.rs:83-88 | the i-th argument cell is built from the i-th declared argument, in declared order |
| `Functions.FunctionEntity.Entry` | phper/src/functions.rs:74-103 | the record built by pushing cells one at a time is the record `Record` specifies |
| `Functions.TableLayout` | phper/src/functions.rs:75-94 | the table has n + 3 cells: the header holds the required count; cell i + 1 holds argument i's name and, except under PHP 8.0 (create_zend_arg_info, lines 198-240), its by-reference flag; cell n + 1 is zeroed; cell n + 2 holds the entity's own handler address |
| `Functions.RecordFields` | phper/src/functions.rs:96-102 | the record's handler is always the trampoline, its name is the entity's name, its flags are 0, and its argument count is the declared arity modulo 2^32 (`len() as u32`), which is the arity itself when it fits in 32 bits |
| `Functions.HandlerOffset` | phper/src/functions.rs:164 | the offset `num_args + 1` is computed on a `u32`: it is `num_args + 1` below 2^32 and wraps to 0 at `u32::MAX` |
| `Functions.Invoke` | phper/src/functions.rs:154-196 | the trampoline's effect is `Outcome` of the frame and the class its slot holds at call time; the return slot is left alone on a panic, null after a warning, and the handler's result after a call |
| `Functions.RecoverHandler` | phper/src/functions.rs:161-166 | for a frame registered from a record built by `Entry` with an arity below 2^32 - 1, the cell at `num_args + 1` exists and points to that very entity, and the engine's required count is the declared required count |
| `Functions.HandlerOffsetWrapsAtMaxArity` | phper/src/functions.rs:100-164 | at arity 2^32 - 1 the offset wraps to 0: `invoke` reads the first argument's cell, which holds a name and not a handler address, so the round trip does not hold there |
| `Functions.NullHandlerPanics` | phper/src/functions.rs:164-166 | a null handler pointer panics with "handler is null" before the argument count is checked, and the return slot is untouched |
| `Functions.ArityCheck` | phper/src/functions.rs:169-183 | with a handler recovered, a warning is emitted if and only if fewer arguments were given than are required; it has level `E_WARNING`, reads "expects at least R parameter(s), A given", and the return value becomes null |
| `Functions.WarningTextReadable` | phper/src/functions.rs:170-180 | the warning text has no NUL, so the engine reads all of it from the terminated buffer, and no `%`, so the engine's printf-style formatting leaves it unchanged |
| `Functions.WarningTextInjective` | phper/src/functions.rs:170-174 | the warning text determines both counts: equal texts mean equal required and given counts |
| `DecimalText.DecimalRoundTrip` | phper/src/functions.rs:170-174 | parsing the decimal rendering of a count gives the count back |
| `Functions.DispatchAllArguments` | phper/src/functions.rs:185-195 | with enough arguments, exactly one call is made, with all given arguments even beyond the declared count; a function gets no receiver, a method gets `$this` and the loaded class; the return value is the call's result |
| `Functions.EntryThenInvoke` | phper/src/functions.rs:161-195 | a call through `e`'s record warns exactly when fewer than `e`'s required arguments are given; otherwise it runs `e`'s own handler on all given arguments, and a method sees the class its slot holds at call time |
| `Functions.TwoArgumentScenario` | phper/src/functions.rs:75-94 | registering `[by_val("a"), by_ref_optional("b")]` gives a header of 1, the two name cells in order with flags false and true (false and false under PHP 8.0), and a handler cell that leads back to the entity |
| `Functions.ShortCallScenario` | phper/src/functions.rs:169-183 | two required arguments and one given produce the warning "expects at least 2 parameter(s), 1 given" |
| `Functions.LateClassScenario` | phper/src/functions.rs:191-193 | a class entry stored in the slot after `Entry` has run is the class the method's receiver carries |

## Left out

- `phper/src/zend/api.rs` is not part of this model. `ModuleGlobals` and `FunctionEntries` only hand back raw addresses, their `Sync` impls are thread-safety claims with no behaviour to verify, and `create_ini_entry_def` only copies fields.
- Memory is not modelled. The leaked `Box` of the table becomes an immutable sequence. The pointer casts become the `NamePtr` variants.
- The `SeqCst` ordering of the `AtomicPtr` load is not modelled, because the model has no concurrency. The load reads the slot's current value.
- The engine is not modelled. It supplies the frame (`ExecuteData`, with `get_parameters_array` as a given sequence), converts results (`SetVal`), and displays warnings (`php_error_docref1`, recorded as the `Warned` effect). The null and `"\0"` docref arguments of that call are not recorded. The warning buffer is passed as the format string of that call; it holds no `%` directive (`WarningTextReadable`), so the displayed text equals the buffer, and the engine's formatting is not modelled.
- The link between a registered record and a frame is the engine's doing (`zend_register_functions` keeps `arg_info + 1`, `num_args` and the header's count). It is stated as the predicate `RegisteredFrom` and assumed by the lemmas that use it.
- The user closures are uninterpreted and pure. Changes they make to their argument slice, to by-reference arguments or to the receiver object are not modelled.
- `Functions.Invoke`: requires that the cell at `num_args + 1` exists and holds null or a handler address. A frame that breaks this is undefined behaviour in the source, with nothing to model.
- A panic is modelled as the `Panicked` effect. Unwinding out of an `extern "C"` function is not modelled.
- Only the name and the pass-by-reference flag of the version-specific `zend_internal_arg_info` layouts are modelled. Type hints, `allow_null`, `is_variadic` and default values are always zero or null. Under the PHP 8.0 layout the flag is not stored, so the engine sees every argument as passed by value.
- `Functions.Invoke`: the `u32` addition `num_args + 1` is modelled as a release build computes it, wrapping to 0 at `u32::MAX` (`HandlerOffset`). A debug build panics on that overflow instead; that panic is not modelled. `RecoverHandler` and `EntryThenInvoke` therefore hold only for arities below 2^32 - 1, and `HandlerOffsetWrapsAtMaxArity` shows the round trip failing at 2^32 - 1.
- The `Function` and `Method` traits and their blanket impls (functions.rs:15-43) are folded into the uninterpreted closures. `FunctionEntry` (functions.rs:50-54) is a transparent wrapper with no behaviour.
