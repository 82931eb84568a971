/**
 * The `string_list` container of libretro-common: an array of elements, each
 * a string with an integer attribute, of which the first `size` are in use.
 * Its allocator lives in string_list.c, which is not part of this model; the
 * model keeps only what dir_list.c relies on: appending one element at the end
 * (which may fail for lack of memory), and freeing the whole list.
 */
module StringLists {

  /* File-type attribute codes, in the order of the enum in file_path.h. */
  const FILETYPE_UNSET: int := 0
  const PLAIN_FILE: int := 1
  const COMPRESSED_FILE_IN_ARCHIVE: int := 2
  const COMPRESSED_ARCHIVE: int := 3
  const DIRECTORY: int := 4

  /** One element: the path and its attribute (`attr.i`). */
  datatype Elem = Elem(data: string, attr: int)

  class StringList {
    var elems: array<Elem>
    var size: nat
    /** False once the list has been handed to `string_list_free`. */
    var live: bool

    ghost predicate Valid()
      reads this
    {
      0 < elems.Length && size <= elems.Length
    }

    /** The elements in use, in order. */
    function Contents(): seq<Elem>
      reads this, elems
      requires Valid()
    {
      elems[..size]
    }

    /** `string_list_new`: an empty, live list with room for a few elements. */
    constructor Init()
      ensures Valid() && live && Contents() == [] && fresh(elems)
    {
      elems := new Elem[32];
      size := 0;
      live := true;
    }

    /** A live list holding `strings`, each with attribute 0 (what `string_split` yields). */
    constructor FromStrings(strings: seq<string>)
      ensures Valid() && live && fresh(elems)
      ensures Contents() == seq(|strings|, i requires 0 <= i < |strings| => Elem(strings[i], 0))
    {
      var n := |strings|;
      elems := new Elem[n + 1](i => if 0 <= i < n then Elem(strings[i], 0) else Elem("", 0));
      size := n;
      live := true;
    }

    /**
     * `string_list_append`: adds `Elem(data, attr)` at the end, growing the
     * array when it is full. `memOk` is the allocator's answer for this call;
     * when it is false the list is left as it was and false is returned.
     */
    method Append(data: string, attr: int, memOk: bool) returns (ok: bool)
      requires Valid() && live
      modifies this, elems
      ensures Valid() && live
      ensures elems == old(elems) || fresh(elems)
      ensures ok == memOk
      ensures Contents() == if ok then old(Contents()) + [Elem(data, attr)] else old(Contents())
    {
      if !memOk {
        return false;
      }
      if size == elems.Length {
        var grown := new Elem[2 * elems.Length];
        forall i | 0 <= i < size {
          grown[i] := elems[i];
        }
        elems := grown;
      }
      elems[size] := Elem(data, attr);
      size := size + 1;
      ok := true;
    }

    /** `string_list_free`: releases every element and the list itself. */
    method Free()
      modifies this
      ensures !live && size == 0
    {
      size := 0;
      live := false;
    }
  }
}
