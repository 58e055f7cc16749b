/** Value types shared by the whole model: C#'s nullable references and its fixed-width integers. */
module Tipos {

  /** A C# reference that may be null: `None` is `null`. */
  datatype Option<+T> = None | Some(value: T)

  /** `byte`: one octet of a message body. */
  newtype byte = x: int | 0 <= x < 0x100

  /** `ushort`, the type of `Prefetch`. */
  newtype uint16 = x: int | 0 <= x < 0x1_0000

  /** `int`, the type of `Puerto`, `TiempoMaximoEsperaSegundos` and `MaximoMensajes`. */
  newtype int32 = x: int | -0x8000_0000 <= x < 0x8000_0000

  /** `uint`, the type of the message and consumer counts a queue declaration reports. */
  newtype uint32 = x: int | 0 <= x < 0x1_0000_0000

  const DosALa32: int := 0x1_0000_0000

  /** `xs` with `f` applied to each element, in the same order: how a rule list becomes its message list. */
  function Mapear<A, B>(xs: seq<A>, f: A -> B): (ys: seq<B>)
    ensures |ys| == |xs| && forall i | 0 <= i < |xs| :: ys[i] == f(xs[i])
  {
    if xs == [] then [] else [f(xs[0])] + Mapear(xs[1..], f)
  }

  /** The cast `(uint)n` of a non-negative count: the low 32 bits. */
  function ComoUint32(n: nat): (r: uint32)
    ensures n < DosALa32 ==> r as int == n
  {
    (n % DosALa32) as uint32
  }
}
