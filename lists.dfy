/** System.Collections.Generic.List<T>: a growable list object that several owners may share. */
module Lists {
  import opened Wrappers
  import Seqs

  class List<T(==)> {
    var Elements: seq<T>

    constructor (elements: seq<T>)
      ensures Elements == elements
    {
      Elements := elements;
    }

    method Add(x: T)
      modifies this
      ensures Elements == old(Elements) + [x]
    {
      Elements := Elements + [x];
    }

    method AddRange(xs: seq<T>)
      modifies this
      ensures Elements == old(Elements) + xs
    {
      Elements := Elements + xs;
    }

    /** RemoveAt throws ArgumentOutOfRange for an index outside the list and then changes nothing. */
    method RemoveAt(index: int) returns (error: Option<Exception>)
      modifies this
      ensures error.Some? <==> !(0 <= index < |old(Elements)|)
      ensures error.Some? ==> error.value == ArgumentOutOfRange && Elements == old(Elements)
      ensures error.None? ==> Elements == Seqs.RemoveAt(old(Elements), index)
    {
      if !(0 <= index < |Elements|) {
        return Some(ArgumentOutOfRange);
      }
      Elements := Seqs.RemoveAt(Elements, index);
      return None;
    }

    /** The indexer's setter, which throws ArgumentOutOfRange outside the list. */
    method Set(index: int, x: T) returns (error: Option<Exception>)
      modifies this
      ensures error.Some? <==> !(0 <= index < |old(Elements)|)
      ensures error.Some? ==> error.value == ArgumentOutOfRange && Elements == old(Elements)
      ensures error.None? ==> Elements == old(Elements)[index := x]
    {
      if !(0 <= index < |Elements|) {
        return Some(ArgumentOutOfRange);
      }
      Elements := Elements[index := x];
      return None;
    }

    method Clear()
      modifies this
      ensures Elements == []
    {
      Elements := [];
    }
  }
}
