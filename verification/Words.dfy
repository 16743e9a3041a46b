/** Machine words and other small things that several modules share. */
module Words {

  /** Address 0 is never allocated. */
  const NULL: nat := 0

  /** Adding 1 to a queue counter is pointer arithmetic on `struct queue_element *`,
      so the counter advances by the size of a queue element. */
  const STRIDE: nat := 32

  type Tid = nat

  /** A `void *`; NULL is a legal value. */
  type Value = nat

  /** A (pointer, counter) double word, the unit of a double-word compare-and-swap. */
  datatype Pair = Pair(ptr: nat, ctr: nat)

  /** The next pair of an empty freelist. */
  const NONE := Pair(NULL, 0)

  /** History information: where an element is.  `Free(c)` means on the freelist, put
      there by the push that drew counter `c`; `Live(i)` means in the queue's chain, dummy
      included, as the `i`-th node ever linked; `Held(t)` means that only thread `t` may
      write the element's fields; `Behind(p)` means linked to `p` while `p` was outside the
      chain, and not in the chain itself yet. */
  datatype Place = Free(ctr: nat) | Live(at: nat) | Held(owner: Tid) | Behind(parent: nat)

  datatype Option<+T> = None | Some(value: T)
}
