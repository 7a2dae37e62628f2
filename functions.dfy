/** Registration and dispatch of native functions and methods
    (phper/src/functions.rs).

    A `FunctionEntity` owns one handler and its argument descriptors. Its
    `Entry` builds the record the engine registers: the record's handler is
    always the trampoline `Invoke`, and the handler the entity owns travels
    in the `name` field of an extra argument-info cell placed after the
    declared arguments. At call time `Invoke` finds that cell again, checks
    the argument count, and dispatches to the handler. */
module Functions {
  import opened CStrings
  import opened DecimalText
  import opened Engine

  /** The user closure behind `impl Function for F`, followed by the
      `SetVal` conversion of its result into the return slot. The closure
      is user code: the model treats it as an uninterpreted function. */
  type FunctionBody = seq<Val> -> Val

  /** The same for `impl Method for F`, which also receives the receiver. */
  type MethodBody = (Object, seq<Val>) -> Val

  /** The `AtomicPtr<ClassEntry>` of a method handler. Class registration
      stores the class entry here after the handler has been built; every
      call loads the value it holds at that moment. */
  class ClassSlot {
    var entry: ClassPtr

    constructor (initial: ClassPtr)
      ensures entry == initial
    {
      entry := initial;
    }
  }

  /** `enum Callable`. */
  datatype Callable =
    | Function(f: FunctionBody)
    | Method(m: MethodBody, classSlot: ClassSlot)

  /** `struct Argument`: a NUL-terminated name and two flags. */
  datatype Argument = Argument(name: string, passByRef: bool, required: bool)

  /** `Argument::by_val`: required, passed by value. */
  function ByVal(name: string): (a: Argument)
    ensures |a.name| == |name| + 1 && a.name[..|name|] == name && a.name[|name|] == '\0'
    ensures !a.passByRef && a.required
  {
    Argument(Terminated(name), false, true)
  }

  /** `Argument::by_ref`: required, passed by reference. */
  function ByRef(name: string): (a: Argument)
    ensures |a.name| == |name| + 1 && a.name[..|name|] == name && a.name[|name|] == '\0'
    ensures a.passByRef && a.required
  {
    Argument(Terminated(name), true, true)
  }

  /** `Argument::by_val_optional`: optional, passed by value. */
  function ByValOptional(name: string): (a: Argument)
    ensures |a.name| == |name| + 1 && a.name[..|name|] == name && a.name[|name|] == '\0'
    ensures !a.passByRef && !a.required
  {
    Argument(Terminated(name), false, false)
  }

  /** `Argument::by_ref_optional`: optional, passed by reference. */
  function ByRefOptional(name: string): (a: Argument)
    ensures |a.name| == |name| + 1 && a.name[..|name|] == name && a.name[|name|] == '\0'
    ensures a.passByRef && !a.required
  {
    Argument(Terminated(name), true, false)
  }

  /** The four constructors give the four flag combinations, and an
      argument name reads back unchanged exactly when it has no NUL. */
  lemma ArgumentConstructors(name: string)
    ensures var all := [ByVal(name), ByRef(name), ByValOptional(name), ByRefOptional(name)];
      forall i, j :: 0 <= i < j < 4 ==> all[i] != all[j]
    ensures ReadCString(ByVal(name).name) == name <==> '\0' !in name
    ensures ReadCString(ByRef(name).name) == name <==> '\0' !in name
    ensures ReadCString(ByValOptional(name).name) == name <==> '\0' !in name
    ensures ReadCString(ByRefOptional(name).name) == name <==> '\0' !in name
  {
    ReadTerminated(name);
  }

  /** `self.arguments.iter().filter(|arg| arg.required).count()`. */
  function RequiredCount(arguments: seq<Argument>): (n: nat)
    ensures n <= |arguments|
  {
    if arguments == [] then 0
    else (if arguments[0].required then 1 else 0) + RequiredCount(arguments[1..])
  }

  /** The count is the declared arity exactly when every argument is
      required, and zero exactly when none is. */
  lemma {:induction false} RequiredCountBounds(arguments: seq<Argument>)
    ensures RequiredCount(arguments) == |arguments| <==> forall i :: 0 <= i < |arguments| ==> arguments[i].required
    ensures RequiredCount(arguments) == 0 <==> forall i :: 0 <= i < |arguments| ==> !arguments[i].required
  {
    if arguments != [] {
      RequiredCountBounds(arguments[1..]);
      assert forall i :: 1 <= i < |arguments| ==> arguments[i] == arguments[1..][i - 1];
    }
  }

  /** Counting over a concatenation adds the counts. */
  lemma {:induction false} RequiredCountAppend(xs: seq<Argument>, ys: seq<Argument>)
    ensures RequiredCount(xs + ys) == RequiredCount(xs) + RequiredCount(ys)
  {
    if xs != [] {
      assert (xs + ys)[0] == xs[0];
      assert (xs + ys)[1..] == xs[1..] + ys;
      RequiredCountAppend(xs[1..], ys);
    } else {
      assert xs + ys == ys;
    }
  }

  /** The PHP versions whose `zend_internal_arg_info` layouts the source
      selects between at compile time. */
  datatype PhpVersion = Php70 | Php71 | Php72 | Php73 | Php74 | Php80

  /** The `name` field of a `zend_internal_arg_info`. It is a
      `*const c_char`, and `entry` overloads it. */
  datatype NamePtr =
    | NullPtr                           // a zeroed cell
    | CountAsPtr(count: nat)            // `require_arg_count as *const c_char`
    | CStr(chars: string)               // `arg.name.as_ptr()`
    | HandlerAddr(owner: FunctionEntity)  // `&owner.handler as *const Callable`

  /** A count cast to a pointer is null when the count is zero. */
  predicate IsNull(p: NamePtr) {
    p.NullPtr? || (p.CountAsPtr? && p.count == 0)
  }

  /** The part of `zend_internal_arg_info` that functions.rs fills in: the
      name and the engine-visible pass-by-reference flag. Type hints,
      nullability and variadic flags are always zero. */
  datatype ArgInfo = ArgInfo(name: NamePtr, passByReference: bool)

  /** `zeroed::<zend_internal_arg_info>()`. */
  const Zeroed: ArgInfo := ArgInfo(NullPtr, false)

  /** `create_zend_arg_info`: the 7.x layouts carry the flag; the 8.0
      layout has no such field (its zero type mask reads as by-value). */
  function CreateArgInfo(version: PhpVersion, name: NamePtr, passByRef: bool): ArgInfo {
    ArgInfo(name, if version == Php80 then false else passByRef)
  }

  /** The cell `entry` pushes for one declared argument. */
  function ArgCell(version: PhpVersion, arg: Argument): ArgInfo {
    CreateArgInfo(version, CStr(arg.name), arg.passByRef)
  }

  /** The cells of the declared arguments, in declared order. */
  function ArgCells(version: PhpVersion, arguments: seq<Argument>): (cells: seq<ArgInfo>)
    ensures |cells| == |arguments|
  {
    if arguments == [] then []
    else ArgCells(version, arguments[..|arguments| - 1]) + [ArgCell(version, arguments[|arguments| - 1])]
  }

  lemma {:induction false} ArgCellsAt(version: PhpVersion, arguments: seq<Argument>, i: nat)
    requires i < |arguments|
    ensures ArgCells(version, arguments)[i] == ArgCell(version, arguments[i])
  {
    if i < |arguments| - 1 {
      var front := arguments[..|arguments| - 1];
      ArgCellsAt(version, front, i);
      assert front[i] == arguments[i];
    }
  }

  /** The engine's `handler` field: `Some(invoke)` is the only value the
      source ever stores. */
  datatype HandlerPtr = NoHandler | Trampoline

  /** The part of `zend_function_entry` that functions.rs fills in. */
  datatype FunctionEntry = FunctionEntry(
    fname: string,
    handler: HandlerPtr,
    argInfo: seq<ArgInfo>,
    numArgs: nat,
    flags: nat)

  /** `num_args` is a `u32`: `len() as u32` keeps the low 32 bits. */
  const U32_LIMIT: nat := 0x1_0000_0000

  /** `struct FunctionEntity`. The record built by `Entry` holds the address
      of this entity's `handler`, so an entity is a reference: the handler
      `Invoke` recovers is this entity's own, not an equal copy. */
  class FunctionEntity {
    const name: string
    const handler: Callable
    const arguments: seq<Argument>

    /** `FunctionEntity::new`. */
    constructor (name: string, handler: Callable, arguments: seq<Argument>)
      ensures this.name == Terminated(name)
      ensures this.handler == handler && this.arguments == arguments
    {
      this.name := Terminated(name);
      this.handler := handler;
      this.arguments := arguments;
    }

    /** The argument-info table of this entity: a header carrying the
        required count, one cell per declared argument, a zeroed cell and a
        cell whose name is the address of this entity's handler. */
    function InfoTable(version: PhpVersion): seq<ArgInfo> {
      [CreateArgInfo(version, CountAsPtr(RequiredCount(arguments)), false)]
        + ArgCells(version, arguments)
        + [Zeroed, ArgInfo(HandlerAddr(this), false)]
    }

    /** The record `entry` returns. */
    function Record(version: PhpVersion): FunctionEntry {
      FunctionEntry(name, Trampoline, InfoTable(version), |arguments| % U32_LIMIT, 0)
    }

    /** `FunctionEntity::entry`: builds the table by pushing cell after
        cell. The leaked box becomes an immutable sequence. */
    method Entry(version: PhpVersion) returns (r: FunctionEntry)
      ensures r == Record(version)
    {
      var infos: seq<ArgInfo> := [];
      var requireArgCount := RequiredCount(arguments);
      var header := CreateArgInfo(version, CountAsPtr(requireArgCount), false);
      infos := infos + [header];
      for i := 0 to |arguments|
        invariant infos == [header] + ArgCells(version, arguments[..i])
      {
        var arg := arguments[i];
        infos := infos + [CreateArgInfo(version, CStr(arg.name), arg.passByRef)];
        assert arguments[..i + 1][..i] == arguments[..i];
      }
      assert arguments[..|arguments|] == arguments;
      infos := infos + [Zeroed];
      var lastArgInfo := ArgInfo(HandlerAddr(this), false);
      infos := infos + [lastArgInfo];
      r := FunctionEntry(name, Trampoline, infos, |arguments| % U32_LIMIT, 0);
    }
  }

  /** The layout of the table `entry` builds, cell by cell. */
  lemma TableLayout(version: PhpVersion, e: FunctionEntity)
    ensures var t := e.InfoTable(version); var n := |e.arguments|;
      |t| == n + 3
      && t[0] == ArgInfo(CountAsPtr(RequiredCount(e.arguments)), false)
      && (forall i :: 0 <= i < n ==>
            t[i + 1] == ArgInfo(CStr(e.arguments[i].name), e.arguments[i].passByRef && version != Php80))
      && t[n + 1] == Zeroed
      && t[n + 2] == ArgInfo(HandlerAddr(e), false)
  {
    var t := e.InfoTable(version);
    var n := |e.arguments|;
    forall i | 0 <= i < n
      ensures t[i + 1] == ArgInfo(CStr(e.arguments[i].name), e.arguments[i].passByRef && version != Php80)
    {
      ArgCellsAt(version, e.arguments, i);
    }
  }

  /** The record always names the trampoline, never the user closure, and
      declares the arity truncated to 32 bits, which is the arity itself
      whenever it fits. */
  lemma RecordFields(version: PhpVersion, e: FunctionEntity)
    ensures e.Record(version).handler == Trampoline
    ensures e.Record(version).fname == e.name
    ensures e.Record(version).flags == 0
    ensures e.Record(version).numArgs == |e.arguments| % U32_LIMIT
    ensures |e.arguments| < U32_LIMIT ==> e.Record(version).numArgs == |e.arguments|
  {
  }

  /** What `invoke` reads from `zend_execute_data`. */
  datatype ExecuteData = ExecuteData(
    commonNumArgs: nat,          // `common_num_args()`
    commonRequiredNumArgs: nat,  // `common_required_num_args()`
    commonArgInfo: seq<ArgInfo>, // `common_arg_info()`
    parameters: seq<Val>,        // `get_parameters_array()`; `num_args()` is its length
    thisValue: Val)                 // `get_this()`

  /** A frame of a call to a function the engine registered from `record`.
      When registering, the engine keeps the table from its second cell on,
      the declared count, and the header's count as the required count.
      That is the engine's doing, not this code's. */
  predicate RegisteredFrom(data: ExecuteData, record: FunctionEntry) {
    && |record.argInfo| >= 1
    && record.argInfo[0].name.CountAsPtr?
    && data.commonArgInfo == record.argInfo[1..]
    && data.commonNumArgs == record.numArgs
    && data.commonRequiredNumArgs == record.argInfo[0].name.count
  }

  /** `num_args + 1`, computed on the engine's `u32` count before the cast
      to `isize`. A release build wraps at 2^32. */
  function HandlerOffset(numArgs: nat): (k: nat)
    ensures k < U32_LIMIT
    ensures numArgs + 1 < U32_LIMIT ==> k == numArgs + 1
    ensures numArgs + 1 == U32_LIMIT ==> k == 0
  {
    (numArgs + 1) % U32_LIMIT
  }

  /** What `invoke`, an unsafe function, needs of its frame: the cell at
      offset `num_args + 1` exists, and its name is either null or the
      address of a handler. */
  predicate HandlerCellReadable(data: ExecuteData) {
    && HandlerOffset(data.commonNumArgs) < |data.commonArgInfo|
    && var p := data.commonArgInfo[HandlerOffset(data.commonNumArgs)].name;
       IsNull(p) || p.HandlerAddr?
  }

  /** The entity whose handler the cell at `num_args + 1` points to, or
      null (`handler.as_ref()`). */
  function Callee(data: ExecuteData): FunctionEntity?
    requires HandlerCellReadable(data)
  {
    var p := data.commonArgInfo[HandlerOffset(data.commonNumArgs)].name;
    if IsNull(p) then null else p.owner
  }

  /** The class slot a call reads, if the recovered handler is a method. */
  function CalleeSlots(data: ExecuteData): set<object>
    requires HandlerCellReadable(data)
  {
    var owner := Callee(data);
    if owner != null && owner.handler.Method? then {owner.handler.classSlot} else {}
  }

  /** `class.load(Ordering::SeqCst)`: the class entry the slot holds now. */
  function ClassAtCall(data: ExecuteData): ClassPtr
    requires HandlerCellReadable(data)
    reads CalleeSlots(data)
  {
    var owner := Callee(data);
    if owner != null && owner.handler.Method? then owner.handler.classSlot.entry else NullClass
  }

  /** A call the trampoline made to a handler. */
  datatype Call =
    | FunctionCall(arguments: seq<Val>)
    | MethodCall(receiver: Object, arguments: seq<Val>)

  /** What one run of the trampoline does, as the engine observes it. */
  datatype Effect =
    | Panicked(message: string)          // `expect("handler is null")`
    | Warned(level: int, message: string) // `php_error_docref1`, then the slot is set to null
    | Dispatched(call: Call, result: Val) // the handler ran once and produced `result`

  const WarningPrefix: string := "expects at least "
  const WarningMiddle: string := " parameter(s), "
  const WarningSuffix: string := " given"

  /** The text of the arity warning, without its C terminator. */
  function WarningText(required: nat, given: nat): string {
    WarningPrefix + (Decimal(required) + (WarningMiddle + (Decimal(given) + WarningSuffix)))
  }

  /** The behaviour of `invoke` on a frame, when a method's class slot
      holds `loaded` at the time of the call. */
  function Outcome(data: ExecuteData, loaded: ClassPtr): Effect
    requires HandlerCellReadable(data)
  {
    var owner := Callee(data);
    if owner == null then Panicked("handler is null")
    else if |data.parameters| < data.commonRequiredNumArgs then
      Warned(E_WARNING, Terminated(WarningText(data.commonRequiredNumArgs, |data.parameters|)))
    else
      match owner.handler
      case Function(f) =>
        Dispatched(FunctionCall(data.parameters), f(data.parameters))
      case Method(m, _) =>
        var receiver := Object(data.thisValue, loaded);
        Dispatched(MethodCall(receiver, data.parameters), m(receiver, data.parameters))
  }

  /** The return slot after a run with `effect`, given its value before. */
  function ReturnAfter(effect: Effect, before: Val): Val {
    match effect
    case Panicked(_) => before
    case Warned(_, _) => Null
    case Dispatched(_, result) => result
  }

  /** The `zval` behind `return_value`. */
  class ReturnSlot {
    var value: Val

    constructor (initial: Val)
      ensures value == initial
    {
      value := initial;
    }
  }

  /** `invoke`, the trampoline every registered record names. */
  method Invoke(data: ExecuteData, returnValue: ReturnSlot) returns (effect: Effect)
    requires HandlerCellReadable(data)
    modifies returnValue
    ensures effect == Outcome(data, ClassAtCall(data))
    ensures returnValue.value == ReturnAfter(effect, old(returnValue.value))
  {
    var numArgs := data.commonNumArgs;
    var argInfo := data.commonArgInfo;
    var lastArgInfo := argInfo[HandlerOffset(numArgs)];
    if IsNull(lastArgInfo.name) {
      effect := Panicked("handler is null");
      return;
    }
    var handler := lastArgInfo.name.owner.handler;

    if |data.parameters| < data.commonRequiredNumArgs {
      var s := Terminated(WarningText(data.commonRequiredNumArgs, |data.parameters|));
      effect := Warned(E_WARNING, s);
      returnValue.value := Null;
      return;
    }

    var arguments := data.parameters;
    match handler
    case Function(f) =>
      returnValue.value := f(arguments);
      effect := Dispatched(FunctionCall(arguments), returnValue.value);
    case Method(m, classSlot) =>
      var receiver := Object(data.thisValue, classSlot.entry);
      returnValue.value := m(receiver, arguments);
      effect := Dispatched(MethodCall(receiver, arguments), returnValue.value);
  }

  /** Round trip: the frame of a call through a record built by `Entry`
      leads `invoke` back to the very entity that built it. */
  lemma RecoverHandler(version: PhpVersion, e: FunctionEntity, data: ExecuteData)
    requires |e.arguments| < U32_LIMIT - 1
    requires RegisteredFrom(data, e.Record(version))
    ensures HandlerCellReadable(data)
    ensures Callee(data) == e
    ensures data.commonRequiredNumArgs == RequiredCount(e.arguments)
  {
    TableLayout(version, e);
    var t := e.InfoTable(version);
    var n := |e.arguments|;
    assert data.commonArgInfo[n + 1] == t[n + 2];
  }

  /** At the largest `u32` arity the round trip breaks: `num_args + 1`
      wraps to 0, so `invoke` reads the first declared argument's cell,
      whose name is a C string and not a handler address. */
  lemma HandlerOffsetWrapsAtMaxArity(version: PhpVersion, e: FunctionEntity, data: ExecuteData)
    requires |e.arguments| == U32_LIMIT - 1
    requires RegisteredFrom(data, e.Record(version))
    ensures HandlerOffset(data.commonNumArgs) == 0
    ensures data.commonArgInfo[0] == ArgCell(version, e.arguments[0])
    ensures !HandlerCellReadable(data)
  {
    TableLayout(version, e);
    assert data.commonArgInfo[0] == e.InfoTable(version)[1];
  }

  /** A null handler cell panics before the argument count is looked at,
      and leaves the return slot alone. */
  lemma NullHandlerPanics(data: ExecuteData, loaded: ClassPtr, before: Val)
    requires HandlerCellReadable(data) && Callee(data) == null
    ensures Outcome(data, loaded) == Panicked("handler is null")
    ensures ReturnAfter(Outcome(data, loaded), before) == before
  {
  }

  /** The warning text contains no NUL, so the engine reads all of it, and
      no `%`, so the engine's printf-style formatting of it leaves it as it
      is. */
  lemma WarningTextReadable(required: nat, given: nat)
    ensures '\0' !in WarningText(required, given)
    ensures '%' !in WarningText(required, given)
    ensures ReadCString(Terminated(WarningText(required, given))) == WarningText(required, given)
  {
    var w := WarningText(required, given);
    var r, g := Decimal(required), Decimal(given);
    assert '\0' !in r && '\0' !in g && '%' !in r && '%' !in g;
    assert '\0' !in WarningPrefix && '\0' !in WarningMiddle && '\0' !in WarningSuffix;
    assert '%' !in WarningPrefix && '%' !in WarningMiddle && '%' !in WarningSuffix;
    ReadTerminated(w);
  }

  /** The warning text names the required and the given count: two
      warnings read the same only for the same two numbers. */
  lemma WarningTextInjective(r1: nat, a1: nat, r2: nat, a2: nat)
    requires WarningText(r1, a1) == WarningText(r2, a2)
    ensures r1 == r2 && a1 == a2
  {
    var tail1 := WarningMiddle + (Decimal(a1) + WarningSuffix);
    var tail2 := WarningMiddle + (Decimal(a2) + WarningSuffix);
    assert Decimal(r1) + tail1 == Decimal(r2) + tail2 by {
      assert WarningText(r1, a1)[|WarningPrefix|..] == Decimal(r1) + tail1;
      assert WarningText(r2, a2)[|WarningPrefix|..] == Decimal(r2) + tail2;
    }
    DigitRunUnique(Decimal(r1), tail1, Decimal(r2), tail2);
    DecimalInjective(r1, r2);
    assert Decimal(a1) + WarningSuffix == Decimal(a2) + WarningSuffix by {
      assert tail1[|WarningMiddle|..] == Decimal(a1) + WarningSuffix;
      assert tail2[|WarningMiddle|..] == Decimal(a2) + WarningSuffix;
    }
    DigitRunUnique(Decimal(a1), WarningSuffix, Decimal(a2), WarningSuffix);
    DecimalInjective(a1, a2);
  }

  /** The arity rule: a recovered handler is skipped, with one warning at
      `E_WARNING` naming both counts and a null return value, exactly when
      fewer arguments were given than are required. */
  lemma ArityCheck(data: ExecuteData, loaded: ClassPtr, before: Val)
    requires HandlerCellReadable(data) && Callee(data) != null
    ensures Outcome(data, loaded).Warned? <==> |data.parameters| < data.commonRequiredNumArgs
    ensures Outcome(data, loaded).Warned? ==>
      && Outcome(data, loaded).level == E_WARNING
      && ReadCString(Outcome(data, loaded).message)
           == WarningText(data.commonRequiredNumArgs, |data.parameters|)
      && ReturnAfter(Outcome(data, loaded), before) == Null
  {
    WarningTextReadable(data.commonRequiredNumArgs, |data.parameters|);
  }

  /** When enough arguments were given, the recovered handler runs once on
      all of them, however many the record declared. A function gets no
      receiver; a method gets `$this` and the class its slot holds. */
  lemma DispatchAllArguments(data: ExecuteData, loaded: ClassPtr, before: Val)
    requires HandlerCellReadable(data) && Callee(data) != null
    requires |data.parameters| >= data.commonRequiredNumArgs
    ensures Outcome(data, loaded).Dispatched?
    ensures Outcome(data, loaded).call.arguments == data.parameters
    ensures Outcome(data, loaded).call.FunctionCall? <==> Callee(data).handler.Function?
    ensures Outcome(data, loaded).call.MethodCall? ==>
      Outcome(data, loaded).call.receiver == Object(data.thisValue, loaded)
    ensures ReturnAfter(Outcome(data, loaded), before) == Outcome(data, loaded).result
  {
  }

  /** Registration and invocation together: a call through the record of
      `e` warns exactly when fewer than the required arguments are given,
      and otherwise runs `e`'s own handler on all given arguments, a method
      seeing the class its slot holds at the time of the call. */
  lemma EntryThenInvoke(version: PhpVersion, e: FunctionEntity, data: ExecuteData)
    requires |e.arguments| < U32_LIMIT - 1
    requires RegisteredFrom(data, e.Record(version))
    ensures HandlerCellReadable(data)
    ensures var effect := Outcome(data, ClassAtCall(data));
      var given := |data.parameters|;
      var required := RequiredCount(e.arguments);
      && (given < required ==> effect == Warned(E_WARNING, Terminated(WarningText(required, given))))
      && (given >= required && e.handler.Function? ==>
            effect == Dispatched(FunctionCall(data.parameters), e.handler.f(data.parameters)))
      && (given >= required && e.handler.Method? ==>
            var receiver := Object(data.thisValue, e.handler.classSlot.entry);
            effect == Dispatched(MethodCall(receiver, data.parameters), e.handler.m(receiver, data.parameters)))
  {
    RecoverHandler(version, e, data);
  }

  /** Registering `[by_val("a"), by_ref_optional("b")]`: one required
      argument, the two cells in declared order, and the entity itself
      recovered from the record. */
  lemma TwoArgumentScenario(version: PhpVersion, e: FunctionEntity, data: ExecuteData)
    requires e.arguments == [ByVal("a"), ByRefOptional("b")]
    requires RegisteredFrom(data, e.Record(version))
    ensures e.Record(version).argInfo[0] == ArgInfo(CountAsPtr(1), false)
    ensures e.Record(version).argInfo[1] == ArgInfo(CStr("a\0"), false)
    ensures e.Record(version).argInfo[2] == ArgInfo(CStr("b\0"), version != Php80)
    ensures HandlerCellReadable(data) && Callee(data) == e
  {
    TableLayout(version, e);
    RecoverHandler(version, e, data);
    assert ByVal("a").name == "a\0" && ByRefOptional("b").name == "b\0";
  }

  /** The arity scenario: two required arguments, one given. */
  lemma ShortCallScenario(data: ExecuteData, loaded: ClassPtr)
    requires HandlerCellReadable(data) && Callee(data) != null
    requires data.commonRequiredNumArgs == 2 && |data.parameters| == 1
    ensures Outcome(data, loaded) == Warned(E_WARNING, "expects at least 2 parameter(s), 1 given\0")
  {
    assert Decimal(2) == "2" && Decimal(1) == "1";
    var text := WarningText(2, 1);
    assert text == WarningPrefix + ("2" + (WarningMiddle + ("1" + WarningSuffix)));
    assert text == "expects at least 2 parameter(s), 1 given";
    assert Terminated(text) == "expects at least 2 parameter(s), 1 given\0";
  }

  /** A method registered before its class: the class entry is stored in
      the slot after `Entry` has run, and the call still sees it. */
  method LateClassScenario(m: MethodBody, id: nat, thisValue: Val, version: PhpVersion)
    returns (effect: Effect)
    ensures effect.Dispatched? && effect.call.MethodCall?
    ensures effect.call.receiver == Object(thisValue, ClassAt(id))
    ensures effect.result == m(Object(thisValue, ClassAt(id)), [])
  {
    var slot := new ClassSlot(NullClass);
    var e := new FunctionEntity("m", Method(m, slot), []);
    var record := e.Entry(version);
    slot.entry := ClassAt(id);
    var data := ExecuteData(record.numArgs, record.argInfo[0].name.count, record.argInfo[1..], [], thisValue);
    RecoverHandler(version, e, data);
    var returnValue := new ReturnSlot(Null);
    effect := Invoke(data, returnValue);
  }
}
