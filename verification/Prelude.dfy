/** Types shared by the whole project. */
module Prelude {

  datatype Option<+T> = None | Some(value: T)

  /** One data member of one instance: what a read request names and a write stream sets. */
  datatype Cell = Cell(typeId: nat, instance: nat)

  /** The values of data members, by the shape their encoders give them (api/egcomponent/traits.hpp:20-256). */
  datatype Value =
    | Plain(datum: int)                                             // one packed object
    | Reference(instance: nat, typeId: nat, timestamp: nat)         // eg::reference
    | Bits(bits: seq<bool>)                                         // Bitmask32Allocator, Bitmask64Allocator
    | Ring(head: nat, tail: nat, full: bool, slots: seq<nat>)       // RingAllocator

  type Store = map<Cell, Value>

  /** The (coordinator, host) pair that routing stamps on a request. */
  datatype Addr = Addr(coordinator: nat, host: nat)
}
