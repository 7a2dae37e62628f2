/** The parts of the PHP engine that functions.rs only passes around.
    Values, objects and class entries are opaque here: their conversion and
    storage rules belong to the engine, not to the dispatch logic. */
module Engine {

  /** A script value (`zval`). `Null` is what `return_value.set(())` stores;
      the others stand for whatever a handler's result converts to. */
  datatype Val = Null | Long(n: int) | Str(s: string) | Other(handle: nat)

  /** A `*mut ClassEntry` as held by an `AtomicPtr`: possibly null. */
  datatype ClassPtr = NullClass | ClassAt(id: nat)

  /** `Object::new(this, class)`: the receiver handed to a method handler,
      the `$this` value of the frame paired with a class entry pointer. */
  datatype Object = Object(receiver: Val, classEntry: ClassPtr)

  /** The engine's `E_WARNING` severity (bit 1). */
  const E_WARNING: int := 2
}
