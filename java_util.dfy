/** java.util.List<String> as a heap object, so that two holders of one list see each
    other's changes. */
module JavaUtil {

  class StringList {
    var elems: seq<string>

    /** new ArrayList<String>(init) */
    constructor (init: seq<string>)
      ensures elems == init
    {
      elems := init;
    }

    /** List.add(x): appends at the end. */
    method Add(x: string)
      modifies this
      ensures elems == old(elems) + [x]
    {
      elems := elems + [x];
    }

    /** List.add(i, x): inserts at position i, shifting the rest right. */
    method Insert(i: nat, x: string)
      requires i <= |elems|
      modifies this
      ensures elems == old(elems[..i]) + [x] + old(elems[i..])
    {
      elems := elems[..i] + [x] + elems[i..];
    }

    /** List.remove(i): removes and returns the element at position i. */
    method RemoveAt(i: nat) returns (x: string)
      requires i < |elems|
      modifies this
      ensures x == old(elems[i])
      ensures elems == old(elems[..i]) + old(elems[i + 1..])
    {
      x := elems[i];
      elems := elems[..i] + elems[i + 1..];
    }
  }
}
