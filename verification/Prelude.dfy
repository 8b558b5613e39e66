// Types shared by every component.
module Prelude {
  datatype Option<+T> = None | Some(value: T)

  datatype Result<+T, +E> = Ok(value: T) | Err(error: E)

  type byte = x: int | 0 <= x < 0x100

  type uint16 = x: int | 0 <= x < 0x1_0000

  type uint32 = x: int | 0 <= x < 0x1_0000_0000

  // Concatenation of a list of lists, in order.
  function Flatten<T>(parts: seq<seq<T>>): seq<T> {
    if parts == [] then [] else parts[0] + Flatten(parts[1..])
  }

  lemma FlattenCons<T>(first: seq<T>, more: seq<seq<T>>)
    ensures Flatten([first] + more) == first + Flatten(more)
  {
    assert ([first] + more)[1..] == more;
  }

  lemma FlattenNil<T>()
    ensures Flatten<T>([]) == []
  {
  }

  lemma {:induction false} FlattenConcat<T>(a: seq<seq<T>>, b: seq<seq<T>>)
    ensures Flatten(a + b) == Flatten(a) + Flatten(b)
  {
    hide *;
    FlattenNil<T>();
    if a == [] {
      assert a + b == b;
    } else {
      var first, more := a[0], a[1..];
      FlattenConcat(more, b);
      assert a == [first] + more && a + b == [first] + (more + b);
      FlattenCons(first, more);
      FlattenCons(first, more + b);
    }
  }

  // The low 16 bits of a number, from any way of splitting it.
  lemma Low16(a: int, q: int, r: int)
    requires a == 0x1_0000 * q + r && 0 <= r < 0x1_0000
    ensures a % 0x1_0000 == r
  {
  }
}
