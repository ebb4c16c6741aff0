/** Types and small sequence facts shared by the whole model. */
module Basics {

  datatype Option<+T> = None | Some(value: T)

  /** One octet of a Go string or byte slice. */
  type Byte = x: int | 0 <= x < 256

  /** A base64 field of a message, decoded. */
  datatype Base64 = Missing | Undecodable | Decoded(bytes: seq<Byte>)

  /** The octets of an ASCII literal. */
  function Ascii(s: string): (r: seq<Byte>) {
    seq(|s|, i requires 0 <= i < |s| => s[i] as int % 128)
  }

  function Repeat<T>(x: T, n: nat): (r: seq<T>)
    ensures |r| == n && forall i :: 0 <= i < n ==> r[i] == x
  {
    seq(n, _ => x)
  }

  /** All parts one after the other. */
  function Concat<T>(parts: seq<seq<T>>): seq<T> {
    if parts == [] then [] else parts[0] + Concat(parts[1..])
  }

  lemma AppendAssociates<T>(a: seq<T>, b: seq<T>, c: seq<T>)
    ensures a + (b + c) == (a + b) + c
  {
  }

  lemma {:induction false} ConcatAppend<T>(a: seq<seq<T>>, b: seq<seq<T>>)
    ensures Concat(a + b) == Concat(a) + Concat(b)
  {
    if a == [] {
      assert a + b == b;
    } else {
      ConcatAppend(a[1..], b);
      assert (a + b)[1..] == a[1..] + b && (a + b)[0] == a[0];
      AppendAssociates(a[0], Concat(a[1..]), Concat(b));
    }
  }

  lemma ConcatOne<T>(x: seq<T>)
    ensures Concat([x]) == x
  {
    assert [x][1..] == [];
  }
}
