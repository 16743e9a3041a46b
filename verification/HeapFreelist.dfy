/** The freelist as sequential code on real objects: what its calls do when no other thread
    runs.  Every freelist element is paired, at allocation, with a queue element. */
module HeapFreelist {
  import opened Words

  class FreelistElement {
    var next: FreelistElement?
    var nextCtr: nat
    var userData: QueueElement?
  }

  class QueueElement {
    var next: QueueElement?
    var nextCtr: nat
    var fe: FreelistElement?
    var data: Value
  }

  ghost predicate Distinct<T>(s: seq<T>) {
    forall i, j | 0 <= i < j < |s| :: s[i] != s[j]
  }

  /** What the allocator grants for a new element: the element itself, and what the init
      function asks for. */
  datatype Grant = Grant(element: bool, data: bool) {
    predicate Full() { element && data }
  }

  class FreelistState {
    /** Whether an init function was given; the queue's one allocates a queue element. */
    const hasInit: bool
    var top: FreelistElement?
    var topCtr: nat
    var aba: nat
    var elementCount: nat
    /** The elements on the freelist, top first. */
    ghost var stack: seq<FreelistElement>

    ghost predicate Valid()
      reads this, stack
    {
      && Distinct(stack)
      && top == (if stack == [] then null else stack[0])
      && (forall i, j | 0 <= i && j == i + 1 && j < |stack| :: stack[i].next == stack[j])
      && (stack != [] ==> stack[|stack| - 1].next == null)
    }

    constructor Empty(hasInit: bool)
      ensures Valid() && stack == [] && elementCount == 0 && Numbered() && this.hasInit == hasInit
    {
      this.hasInit := hasInit;
      top, topCtr, aba, elementCount, stack := null, 0, 0, 0, [];
    }

    /** The counters of a freelist on which elements have only been pushed. */
    ghost predicate Numbered()
      reads this, stack
    {
      aba == topCtr == |stack| && forall i | 0 <= i < |stack| :: stack[i].nextCtr == |stack| - 1 - i
    }

    /** Takes the top element off, or returns NULL from an empty freelist. */
    method Pop() returns (fe: FreelistElement?)
      requires Valid()
      modifies this
      ensures Valid() && elementCount == old(elementCount) && aba == old(aba)
      ensures old(stack) == [] ==> fe == null && stack == []
      ensures old(stack) != [] ==> fe == old(stack)[0] && stack == old(stack)[1..]
      ensures topCtr == if old(stack) == [] then old(topCtr) else old(stack)[0].nextCtr
    {
      var localCtr, local := topCtr, top;
      var swapped := false;
      while !swapped
        invariant swapped ==> local != null && old(stack) != [] && local == old(stack)[0] && stack == old(stack)[1..]
        invariant !swapped ==> local == top && localCtr == topCtr && stack == old(stack) && topCtr == old(topCtr)
        invariant swapped ==> topCtr == local.nextCtr
        invariant Valid() && elementCount == old(elementCount) && aba == old(aba)
        decreases !swapped
      {
        if local == null {
          return null;
        }
        if top == local && topCtr == localCtr {
          top, topCtr := local.next, local.nextCtr;
          stack := stack[1..];
          swapped := true;
        } else {
          local, localCtr := top, topCtr;
        }
      }
      return local;
    }

    /** Puts an element on top. */
    method Push(fe: FreelistElement)
      requires Valid() && fe !in stack
      modifies this, fe`next, fe`nextCtr
      ensures Valid() && elementCount == old(elementCount) && stack == [fe] + old(stack)
      ensures fe.userData == old(fe.userData)
      ensures aba == topCtr == old(aba) + 1 && fe.nextCtr == old(topCtr)
    {
      aba := aba + 1;
      var ticket := aba;
      var below, belowCtr := top, topCtr;
      var swapped := false;
      while !swapped
        invariant swapped ==> Valid() && stack == [fe] + old(stack)
        invariant !swapped ==> Valid() && stack == old(stack) && below == top && belowCtr == topCtr == old(topCtr)
        invariant aba == ticket && (swapped ==> topCtr == ticket && fe.nextCtr == old(topCtr))
        invariant elementCount == old(elementCount) && fe.userData == old(fe.userData)
        invariant fe !in old(stack)
        decreases !swapped
      {
        fe.next := below;
        fe.nextCtr := belowCtr;
        if top == below && topCtr == belowCtr {
          top, topCtr := fe, ticket;
          stack := [fe] + stack;
          swapped := true;
        } else {
          below, belowCtr := top, topCtr;
        }
      }
    }

    /** Allocates an element and lets the init function allocate its user data; if either
        fails, nothing is kept. */
    method NewElement(grant: Grant) returns (fe: FreelistElement?)
      requires Valid()
      modifies this`elementCount
      ensures Valid()
      ensures fe != null <==> grant.element && (hasInit ==> grant.data)
      ensures fe != null ==> fresh(fe) && elementCount == old(elementCount) + 1
      ensures fe != null ==> if hasInit then fe.userData != null && fresh(fe.userData) else fe.userData == null
      ensures fe == null ==> elementCount == old(elementCount)
    {
      if !grant.element {
        return null;
      }
      var element := new FreelistElement;
      if hasInit {
        if !grant.data {
          return null;
        }
        element.userData := new QueueElement;
      } else {
        element.userData := null;
      }
      elementCount := elementCount + 1;
      return element;
    }
  }

  /** Every element of the freelist has a queue element of its own. */
  ghost predicate Paired(stack: seq<FreelistElement>)
    reads stack
  {
    && (forall i | 0 <= i < |stack| :: stack[i].userData != null)
    && (forall i, j | 0 <= i < j < |stack| :: stack[i].userData != stack[j].userData)
  }

  /** The number of allocations that succeed. */
  function Granted(grants: seq<Grant>): (n: nat)
    ensures n <= |grants|
    ensures n == |grants| <==> forall i | 0 <= i < |grants| :: grants[i].Full()
  {
    if grants == [] then 0
    else Granted(grants[..|grants| - 1]) + (if grants[|grants| - 1].Full() then 1 else 0)
  }

  lemma PairedPush(fe: FreelistElement, stack: seq<FreelistElement>)
    requires Paired(stack) && fe.userData != null && forall i | 0 <= i < |stack| :: stack[i].userData != fe.userData
    ensures Paired([fe] + stack)
  {
    var s := [fe] + stack;
    assert forall i | 0 < i < |s| :: s[i] == stack[i - 1];
  }

  /** Allocates an element and pushes it, if memory is granted. */
  method AddElement(fs: FreelistState, grant: Grant)
    requires fs.Valid() && Paired(fs.stack) && fs.hasInit
    modifies fs
    ensures fs.Valid() && Paired(fs.stack)
    ensures !grant.Full() ==> fs.stack == old(fs.stack) && fs.elementCount == old(fs.elementCount)
    ensures grant.Full() ==>
      && |fs.stack| == |old(fs.stack)| + 1 && fs.stack == [fs.stack[0]] + old(fs.stack)
      && fresh(fs.stack[0]) && fresh(fs.stack[0].userData) && fs.elementCount == old(fs.elementCount) + 1
    ensures old(fs.Numbered()) ==> fs.Numbered()
  {
    var fe := fs.NewElement(grant);
    if fe != null {
      fs.Push(fe);
      PairedPush(fe, old(fs.stack));
    }
  }

  /** The first `n` elements and their queue elements are new. */
  twostate predicate New(new stack: seq<FreelistElement>, n: nat)
    reads stack
  {
    n <= |stack| && forall i | 0 <= i < n :: fresh(stack[i]) && stack[i].userData != null && fresh(stack[i].userData)
  }

  /** Allocates and pushes `number` elements, as far as memory is granted. */
  method NewElements(fs: FreelistState, number: nat, grants: seq<Grant>) returns (count: nat)
    requires fs.Valid() && Paired(fs.stack) && fs.hasInit && |grants| == number
    modifies fs
    ensures fs.Valid() && Paired(fs.stack)
    ensures count == Granted(grants) && fs.elementCount == old(fs.elementCount) + count
    ensures count <= |fs.stack| && fs.stack[count..] == old(fs.stack) && New(fs.stack, count)
    ensures old(fs.Numbered()) ==> fs.Numbered()
  {
    hide FreelistState.Valid, FreelistState.Numbered, Paired;
    count := 0;
    for loop := 0 to number
      invariant fs.Valid() && Paired(fs.stack)
      invariant count == Granted(grants[..loop]) && fs.elementCount == old(fs.elementCount) + count
      invariant count <= |fs.stack| && fs.stack[count..] == old(fs.stack) && New(fs.stack, count)
      invariant old(fs.Numbered()) ==> fs.Numbered()
    {
      assert grants[..loop + 1][..loop] == grants[..loop];
      AddElement(fs, grants[loop]);
      if grants[loop].Full() {
        count := count + 1;
      }
    }
    assert grants[..number] == grants;
  }

  /** Builds a freelist of `number` elements, or none at all. */
  method NewFreelist(number: nat, grants: seq<Grant>) returns (fs: FreelistState?)
    requires |grants| == number
    ensures fs != null <==> forall i | 0 <= i < number :: grants[i].Full()
    ensures fs != null ==>
      && fresh(fs) && fs.Valid() && Paired(fs.stack) && |fs.stack| == fs.elementCount == number
      && New(fs.stack, number) && fs.hasInit && fs.Numbered()
  {
    var state := new FreelistState.Empty(true);
    var count := NewElements(state, number, grants);
    if count != number {
      return null;
    }
    return state;
  }

  /** Pops and frees every element together with its queue element.  The calls of the
      allocator's free function are returned in order. */
  method DeleteFreelist(fs: FreelistState) returns (freed: seq<FreelistElement>, freedPairs: seq<QueueElement>)
    requires fs.Valid() && Paired(fs.stack)
    modifies fs
    ensures freed == old(fs.stack) && Distinct(freed)
    ensures |freedPairs| == |freed| && Distinct(freedPairs)
    ensures forall i | 0 <= i < |freed| :: freedPairs[i] == old(fs.stack[i].userData)
    ensures fs.Valid() && fs.stack == []
  {
    freed, freedPairs := [], [];
    var fe := fs.Pop();
    while fe != null
      invariant fs.Valid() && fs.elementCount == old(fs.elementCount)
      invariant fe == null ==> fs.stack == [] && freed == old(fs.stack)
      invariant fe != null ==> freed + [fe] + fs.stack == old(fs.stack)
      invariant |freedPairs| == |freed| && freed <= old(fs.stack)
      invariant forall i | 0 <= i < |freed| :: freedPairs[i] == old(fs.stack[i].userData)
      decreases |fs.stack|, fe != null
    {
      assert fe == old(fs.stack)[|freed|];
      freedPairs := freedPairs + [fe.userData];
      freed := freed + [fe];
      assert fs.stack != [] ==> freed + [fs.stack[0]] + fs.stack[1..] == old(fs.stack);
      fe := fs.Pop();
    }
  }
}
