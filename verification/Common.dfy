/** Small types shared by the other modules. */
module Common {

  datatype Option<+T> = None | Some(value: T)

  /** The lists that `f` gives for the items, one after the other. */
  function FlatMap<A, B>(f: A -> seq<B>, items: seq<A>): seq<B> {
    if items == [] then [] else FlatMap(f, items[..|items| - 1]) + f(items[|items| - 1])
  }

  lemma {:induction false} FlatMapHas<A, B>(f: A -> seq<B>, items: seq<A>, x: B)
    ensures x in FlatMap(f, items) <==> exists i | 0 <= i < |items| :: x in f(items[i])
  {
    if items != [] {
      var k := |items| - 1;
      FlatMapHas(f, items[..k], x);
      assert forall i | 0 <= i < k :: items[..k][i] == items[i];
      if x in FlatMap(f, items[..k]) {
        var i :| 0 <= i < k && x in f(items[..k][i]);
        assert x in f(items[i]);
      }
      if i :| 0 <= i < |items| && x in f(items[i]) {
        assert i < k ==> x in f(items[..k][i]);
      }
    }
  }

  lemma {:induction false} FlatMapSplit<A, B>(f: A -> seq<B>, items: seq<A>, i: nat)
    requires i < |items|
    ensures FlatMap(f, items) == FlatMap(f, items[..i]) + f(items[i]) + FlatMap(f, items[i + 1..])
  {
    var k := |items| - 1;
    if i < k {
      FlatMapSplit(f, items[..k], i);
      var rest := items[i + 1..];
      assert items[..k][..i] == items[..i] && items[..k][i + 1..] == rest[..|rest| - 1] && rest[|rest| - 1] == items[k];
    } else {
      assert items[i + 1..] == [];
    }
  }
}
