/** The cast list of a type in the wrapper runtime: a doubly linked list searched from the
    head, with the entry that was found moved to the front. */
module CastLists {

  class TypeInfo {
    const name: string
    var clientData: nat
    var cast: CastInfo?
    /** The entries of the list, in order. */
    ghost var casts: seq<CastInfo>

    constructor (name: string)
      ensures this.name == name && clientData == 0 && casts == [] && WellLinked()
    {
      this.name := name;
      clientData, cast, casts := 0, null, [];
    }

    ghost predicate WellLinked()
      reads this`cast, this`casts, casts
    {
      && (forall i, j | 0 <= i < j < |casts| :: casts[i] != casts[j])
      && cast == (if casts == [] then null else casts[0])
      && (forall i, j | 0 <= i && j == i + 1 && j < |casts| :: casts[i].next == casts[j] && casts[j].prev == casts[i])
      && (casts != [] ==> casts[0].prev == null && casts[|casts| - 1].next == null)
    }
  }

  class CastInfo {
    const target: TypeInfo
    const hasConverter: bool
    var next: CastInfo?
    var prev: CastInfo?

    constructor (target: TypeInfo, hasConverter: bool)
      ensures this.target == target && this.hasConverter == hasConverter && next == prev == null
    {
      this.target, this.hasConverter := target, hasConverter;
      next, prev := null, null;
    }
  }

  // ------------------------------------------------------------ lists of entries

  /** A lookup is by the name of the type or by the type itself. */
  datatype Query = ByName(name: string) | ByType(ty: TypeInfo)

  predicate Matches(e: CastInfo, q: Query) {
    match q
    case ByName(name) => e.target.name == name
    case ByType(ty) => e.target == ty
  }

  /** Plain linear search: the position of the first match, or the length. */
  function First(s: seq<CastInfo>, q: Query): (i: nat)
    ensures i <= |s|
    ensures i < |s| ==> Matches(s[i], q)
    ensures forall j | 0 <= j < i :: !Matches(s[j], q)
  {
    if s == [] then 0
    else if Matches(s[0], q) then 0
    else 1 + First(s[1..], q)
  }

  function Front(s: seq<CastInfo>, i: nat): seq<CastInfo> {
    if i < |s| then [s[i]] + s[..i] + s[i + 1..] else s
  }

  /** What a lookup returns and what list it leaves. */
  function Search(s: seq<CastInfo>, q: Query): CastInfo? {
    if First(s, q) < |s| then s[First(s, q)] else null
  }

  function Lookup(s: seq<CastInfo>, q: Query): seq<CastInfo> {
    Front(s, First(s, q))
  }

  // ------------------------------------------------------------------- methods

  /** Takes an entry that is not the first one out of the list. */
  method Unhook(ty: TypeInfo, iter: CastInfo, ghost i: nat)
    requires ty.WellLinked() && 0 < i < |ty.casts| && ty.casts[i] == iter
    modifies ty`casts, ty.casts
    ensures ty.WellLinked() && ty.casts == old(ty.casts)[..i] + old(ty.casts)[i + 1..] && iter !in ty.casts
  {
    ghost var was := ty.casts;
    ghost var before, after := i - 1, i + 1;
    assert iter.prev == was[before];
    assert after < |was| ==> iter.next == was[after];
    iter.prev.next := iter.next;
    if iter.next != null {
      iter.next.prev := iter.prev;
    }
    ty.casts := was[..i] + was[after..];
    ghost var now := ty.casts;
    assert forall k | 0 <= k < |now| :: now[k] == was[if k < i then k else k + 1];
    forall k, j | 0 <= k && j == k + 1 && j < |now| ensures now[k].next == now[j] && now[j].prev == now[k] {
      if k < before {
        assert now[k] == was[k] && now[j] == was[j];
      } else if k > before {
        var l := j + 1;
        assert now[k] == was[j] && now[j] == was[l];
      }
    }
  }

  /** Puts an entry in front. */
  method PutFront(ty: TypeInfo, iter: CastInfo)
    requires ty.WellLinked() && iter !in ty.casts && ty.casts != []
    modifies ty`cast, ty`casts, ty.casts, iter
    ensures ty.WellLinked() && ty.casts == [iter] + old(ty.casts)
  {
    iter.next := ty.cast;
    iter.prev := null;
    if ty.cast != null {
      ty.cast.prev := iter;
    }
    ty.cast := iter;
    ty.casts := [iter] + ty.casts;
  }

  method MoveToFront(ty: TypeInfo, iter: CastInfo, ghost i: nat)
    requires ty.WellLinked() && 0 < i < |ty.casts| && ty.casts[i] == iter
    modifies ty`cast, ty`casts, ty.casts
    ensures ty.WellLinked() && ty.casts == Front(old(ty.casts), i)
  {
    Unhook(ty, iter, i);
    PutFront(ty, iter);
  }

  /** SWIG_TypeCheck and SWIG_TypeCheckStruct, which differ in the test only: the entry
      plain search finds is returned and is moved to the front, the others keep their order. */
  method TypeCheck(q: Query, ty: TypeInfo?) returns (r: CastInfo?)
    requires ty != null ==> ty.WellLinked()
    modifies ty, if ty == null then [] else ty.casts
    ensures ty == null ==> r == null
    ensures ty != null ==> ty.WellLinked() && ty.clientData == old(ty.clientData)
    ensures ty != null ==> r == Search(old(ty.casts), q) && ty.casts == Lookup(old(ty.casts), q)
    ensures ty != null && r == null ==> forall e | e in old(ty.casts) :: !(IsNamed(e, q) || IsOf(e, q))
    ensures ty != null && r != null ==>
      r in old(ty.casts) && ty.casts[0] == r && if q.ByName? then r.target.name == q.name else r.target == q.ty
  {
    if ty == null {
      return null;
    }
    SearchFinds(ty.casts, q);
    r := Scan(q, ty);
  }

  predicate IsNamed(e: CastInfo, q: Query) {
    q.ByName? && e.target.name == q.name
  }

  predicate IsOf(e: CastInfo, q: Query) {
    q.ByType? && e.target == q.ty
  }

  /** Plain search finds an entry of the name, or for the type, if there is one. */
  lemma SearchFinds(s: seq<CastInfo>, q: Query)
    ensures Search(s, q) == null ==> forall e | e in s :: !(IsNamed(e, q) || IsOf(e, q))
    ensures Search(s, q) != null ==>
      Search(s, q) in s && Lookup(s, q)[0] == Search(s, q) && (IsNamed(Search(s, q), q) || IsOf(Search(s, q), q))
  {
  }

  method Scan(q: Query, ty: TypeInfo) returns (r: CastInfo?)
    requires ty.WellLinked()
    modifies ty`cast, ty`casts, ty.casts
    ensures ty.WellLinked()
    ensures r == Search(old(ty.casts), q) && ty.casts == Lookup(old(ty.casts), q)
  {
    ghost var i := 0;
    var iter := ty.cast;
    while iter != null
      invariant i <= |ty.casts| && iter == if i < |ty.casts| then ty.casts[i] else null
      invariant i <= First(ty.casts, q)
      decreases |ty.casts| - i
    {
      if Matches(iter, q) {
        if iter != ty.cast {
          MoveToFront(ty, iter, i);
        }
        return iter;
      }
      iter := iter.next;
      i := i + 1;
    }
    return null;
  }

  // --------------------------------------------------- every sequence of lookups

  function After(s: seq<CastInfo>, qs: seq<Query>): seq<CastInfo> {
    if qs == [] then s else Lookup(After(s, qs[..|qs| - 1]), qs[|qs| - 1])
  }

  /** Types of the same name are the same type. */
  ghost predicate Consistent(s: seq<CastInfo>) {
    forall a, b | a in s && b in s && a.target.name == b.target.name :: a.target == b.target
  }

  predicate SameKind(p: Query, q: Query) {
    p.ByName? == q.ByName?
  }

  lemma FrontHas(s: seq<CastInfo>, i: nat)
    ensures |Front(s, i)| == |s|
    ensures forall e :: e in Front(s, i) <==> e in s
    ensures multiset(Front(s, i)) == multiset(s)
  {
    if i < |s| {
      assert s == s[..i] + [s[i]] + s[i + 1..];
    }
  }

  lemma FirstInFront(s: seq<CastInfo>, i: nat, p: Query)
    requires i < |s| && !Matches(s[i], p)
    ensures |Front(s, i)| == |s|
    ensures var j := First(s, p);
      First(Front(s, i), p) == if j < i then j + 1 else j
    ensures First(s, p) < |s| ==> Front(s, i)[First(Front(s, i), p)] == s[First(s, p)]
  {
    hide Matches;
    var s', j := Front(s, i), First(s, p);
    var j' := if j < i then j + 1 else j;
    forall k | 0 <= k < |s| ensures s'[k] == if k == 0 then s[i] else if k <= i then s[k - 1] else s[k] {
    }
    hide Front;
    forall k | 0 <= k < j' ensures !Matches(s'[k], p) {
    }
    assert j < |s| ==> s'[j'] == s[j];
    assert !(First(s', p) < j');
    assert !(First(s', p) > j');
  }

  /** A lookup does not change what another lookup finds. */
  lemma LookupKeepsSearch(s: seq<CastInfo>, q: Query, p: Query)
    requires Consistent(s) || SameKind(q, p)
    ensures Search(Lookup(s, q), p) == Search(s, p)
  {
    var i, j := First(s, q), First(s, p);
    var s' := Lookup(s, q);
    FrontHas(s, i);
    if i < |s| {
      var e := s[i];
      if Matches(e, p) {
        assert s'[0] == e;
        assert j == i;
      } else {
        FirstInFront(s, i, p);
      }
    }
  }

  lemma {:induction false} AfterHas(s: seq<CastInfo>, qs: seq<Query>)
    ensures |After(s, qs)| == |s|
    ensures forall e :: e in After(s, qs) <==> e in s
    ensures multiset(After(s, qs)) == multiset(s)
  {
    if qs != [] {
      var before := After(s, qs[..|qs| - 1]);
      AfterHas(s, qs[..|qs| - 1]);
      FrontHas(before, First(before, qs[|qs| - 1]));
    }
  }

  lemma {:induction false} LookupsKeepSearch(s: seq<CastInfo>, qs: seq<Query>, p: Query)
    requires Consistent(s) || forall k | 0 <= k < |qs| :: SameKind(qs[k], p)
    ensures Search(After(s, qs), p) == Search(s, p)
  {
    if qs != [] {
      var init := qs[..|qs| - 1];
      AfterHas(s, init);
      assert forall k | 0 <= k < |init| :: init[k] == qs[k];
      LookupsKeepSearch(s, init, p);
      assert Consistent(s) ==> Consistent(After(s, init));
      LookupKeepsSearch(After(s, init), qs[|qs| - 1], p);
    }
  }

  /** If two types share a name, a lookup by type changes what a lookup by name finds. */
  lemma SharedNameDisagrees(s: seq<CastInfo>, a: CastInfo, b: CastInfo) returns (q: Query, p: Query)
    requires a in s && b in s && a.target.name == b.target.name && a.target != b.target
    ensures Search(Lookup(s, q), p) != Search(s, p)
  {
    p := ByName(a.target.name);
    var found := s[First(s, p)];
    q := ByType(if found.target == a.target then b.target else a.target);
    var moved := s[First(s, q)];
    assert Lookup(s, q)[0] == moved;
    assert Matches(moved, p);
  }

  /** Lookups by name and by type, in any order, find what plain search finds in the original
      list, for every sequence of them exactly if types of the same name are the same type. */
  lemma LookupsAgreeExactly(s: seq<CastInfo>)
    ensures (forall qs, p :: Search(After(s, qs), p) == Search(s, p)) <==> Consistent(s)
  {
    if Consistent(s) {
      forall qs, p ensures Search(After(s, qs), p) == Search(s, p) {
        LookupsKeepSearch(s, qs, p);
      }
    } else {
      var a, b :| a in s && b in s && a.target.name == b.target.name && a.target != b.target;
      var q, p := SharedNameDisagrees(s, a, b);
      assert After(s, [q][..0]) == s;
      assert After(s, [q]) == Lookup(s, q);
    }
  }

  /** A sequence of lookups on the list itself. */
  method Lookups(ty: TypeInfo, qs: seq<Query>) returns (found: seq<CastInfo?>)
    requires ty.WellLinked()
    modifies ty, ty.casts
    ensures ty.WellLinked() && ty.casts == After(old(ty.casts), qs)
    ensures |found| == |qs|
    ensures forall k | 0 <= k < |qs| :: found[k] == Search(After(old(ty.casts), qs[..k]), qs[k])
    ensures Consistent(old(ty.casts)) ==> forall k | 0 <= k < |qs| :: found[k] == Search(old(ty.casts), qs[k])
  {
    hide After, Search, Lookup, Matches;
    ghost var was := ty.casts;
    found := [];
    AfterNone(was, qs);
    for i := 0 to |qs|
      invariant ty.WellLinked() && ty.casts == After(was, qs[..i])
      invariant forall k | 0 <= k < |ty.casts| :: ty.casts[k] in was
      invariant |found| == i
      invariant forall k | 0 <= k < i :: found[k] == Search(After(was, qs[..k]), qs[k])
    {
      var r := Scan(qs[i], ty);
      found := found + [r];
      AfterOne(was, qs, i);
      AfterHas(was, qs[..i + 1]);
    }
    assert qs[..|qs|] == qs;
    if Consistent(was) {
      forall k | 0 <= k < |qs| ensures found[k] == Search(was, qs[k]) {
        LookupsKeepSearch(was, qs[..k], qs[k]);
      }
    }
  }

  lemma AfterNone(s: seq<CastInfo>, qs: seq<Query>)
    ensures After(s, qs[..0]) == s
  {
  }

  lemma AfterOne(s: seq<CastInfo>, qs: seq<Query>, i: nat)
    requires i < |qs|
    ensures After(s, qs[..i + 1]) == Lookup(After(s, qs[..i]), qs[i])
  {
    assert qs[..i + 1][..i] == qs[..i];
  }
}
