/**
 * The directory lister of libretro-common (file/dir_list.c): it walks the
 * entries of a directory, decides for each whether it is skipped or appended,
 * and which file-type attribute it gets, and returns the listing or NULL.
 *
 * The platform directory primitive (opendir/readdir, FindFirstFile/FindNextFile,
 * sceIoDopen/sceIoDread) is an abstract sequence of entries, or None when the
 * directory cannot be opened. Each entry carries the platform's directory test
 * as a flag. Two backend quirks are not part of the model: the directory test is
 * made before `file_path` is filled in, and the Win32 loop begins with
 * FindNextFile, so the entry returned by FindFirstFile is never examined.
 */
module DirList {
  import opened Base
  import opened StringLists

  /** One entry yielded by the platform primitive. */
  datatype DirEntry = DirEntry(name: string, isDir: bool)

  /**
   * The helpers dir_list.c calls but does not define, as opaque functions:
   * `fill_pathname_join`, `path_get_extension`, `path_is_compressed_file`,
   * `string_list_find_elem_prefix(ext_list, ".", ext)` on a present list, and
   * `string_split(ext, "|")`, which gives None when it runs out of memory.
   */
  datatype Env = Env(
    join: (string, string) -> string,
    extension: string -> string,
    isCompressed: string -> bool,
    findExt: (seq<string>, string) -> bool,
    split: string -> Option<seq<string>>)

  /** The caller's request to `dir_list_new`, apart from the extension string. */
  datatype Query = Query(dir: string, includeDirs: bool, includeCompressed: bool)

  /**
   * What the allocator answers: whether `string_list_new` succeeds, and the
   * index of the first `string_list_append` call that fails, if any (every
   * failure ends the listing, so later answers never matter).
   */
  datatype Memory = Memory(newListOk: bool, appendFailsAt: Option<nat>)

  /** The decision of `parse_dir_entry` about one entry. */
  datatype Verdict = Skip | Accept(attr: int)

  predicate IsDotName(name: string)
  {
    name == "." || name == ".."
  }

  /**
   * The decision table of `parse_dir_entry`. `pathCompressed` and `extMatched`
   * are what `path_is_compressed_file` and the extension lookup would answer;
   * the source asks them only for non-directories, and the lookup on a missing
   * extension list matches nothing.
   */
  function EntryVerdict(name: string, isDir: bool, includeDirs: bool, includeCompressed: bool,
                        hasExtList: bool, pathCompressed: bool, extMatched: bool): (v: Verdict)
    // `.` and `..` are never appended, whatever the flags and the filter
    ensures IsDotName(name) ==> v == Skip
    // without include_dirs no directory is appended
    ensures isDir && !includeDirs ==> v == Skip
    // an admitted directory is always a directory: the filter does not apply to it
    ensures isDir && includeDirs && !IsDotName(name) ==> v == Accept(DIRECTORY)
    // with an extension list, the filter skips a file exactly in these cases
    ensures !isDir && !IsDotName(name) && hasExtList ==>
      (v == Skip <==> (!pathCompressed && !extMatched) || (!extMatched && !includeCompressed))
    // with no extension list, the filter never skips a file
    ensures !isDir && !IsDotName(name) && !hasExtList ==> v.Accept?
    // classification precedence for files: extension match, then compression, then unset
    ensures v.Accept? && !isDir && hasExtList && extMatched ==> v.attr == PLAIN_FILE
    ensures v.Accept? && !isDir && pathCompressed && !(hasExtList && extMatched) ==> v.attr == COMPRESSED_ARCHIVE
    ensures v.Accept? && !isDir && !pathCompressed && !(hasExtList && extMatched) ==>
      v.attr == FILETYPE_UNSET && !hasExtList
  {
    var compressed := !isDir && pathCompressed;
    var supported := !isDir && hasExtList && extMatched;
    if !includeDirs && isDir then Skip
    else if IsDotName(name) then Skip
    else if !isDir && hasExtList && ((!compressed && !supported) || (!supported && !includeCompressed)) then Skip
    else
      var attr :=
        if supported then PLAIN_FILE
        else if compressed then COMPRESSED_ARCHIVE
        else if isDir then DIRECTORY
        else FILETYPE_UNSET;
      Accept(attr)
  }

  /** The extension list `dir_list_new` builds from `ext`, if any. */
  function ExtList(ext: Option<string>, env: Env): Option<seq<string>>
  {
    if ext.Some? then env.split(ext.value) else None
  }

  /** The verdict for one enumerated entry, with the helpers applied as in `dir_list_new`. */
  function VerdictOf(q: Query, extList: Option<seq<string>>, env: Env, e: DirEntry): Verdict
  {
    var path := env.join(q.dir, e.name);
    EntryVerdict(e.name, e.isDir, q.includeDirs, q.includeCompressed, extList.Some?,
                 env.isCompressed(path),
                 extList.Some? && env.findExt(extList.value, env.extension(e.name)))
  }

  /** What one entry contributes to the listing: nothing, or its joined path and attribute. */
  function EntryElems(q: Query, extList: Option<seq<string>>, env: Env, e: DirEntry): (r: seq<Elem>)
    ensures |r| <= 1
  {
    match VerdictOf(q, extList, env, e)
    case Skip => []
    case Accept(attr) => [Elem(env.join(q.dir, e.name), attr)]
  }

  /** The listing a successful `dir_list_new` returns for the entries `es`, in enumeration order. */
  function Listing(q: Query, extList: Option<seq<string>>, env: Env, es: seq<DirEntry>): (r: seq<Elem>)
    ensures |r| <= |es|
  {
    if es == [] then []
    else Listing(q, extList, env, es[..|es| - 1]) + EntryElems(q, extList, env, es[|es| - 1])
  }

  /** Accepted entries appear in enumeration order: the listing of a concatenation is the concatenation. */
  lemma {:induction false} ListingAppend(q: Query, extList: Option<seq<string>>, env: Env,
                                         a: seq<DirEntry>, b: seq<DirEntry>)
    ensures Listing(q, extList, env, a + b) == Listing(q, extList, env, a) + Listing(q, extList, env, b)
    decreases |b|
  {
    if b == [] {
      assert a + b == a;
    } else {
      var b' := b[..|b| - 1];
      assert (a + b)[..|a + b| - 1] == a + b';
      assert (a + b)[|a + b| - 1] == b[|b| - 1];
      ListingAppend(q, extList, env, a, b');
    }
  }

  /**
   * One turn of the `dir_list_new` loop: joins the path, takes the extension
   * and hands the entry to `parse_dir_entry`.
   */
  method ReadEntry(q: Query, exts: Option<seq<string>>, env: Env, entry: DirEntry, l: StringList, memOk: bool)
    returns (ret: int)
    requires l.Valid() && l.live
    modifies l, l.elems
    ensures l.Valid() && l.live
    ensures l.elems == old(l.elems) || fresh(l.elems)
    ensures ret == -1 <==> EntryElems(q, exts, env, entry) != [] && !memOk
    ensures l.Contents() == if ret == -1 then old(l.Contents()) else old(l.Contents()) + EntryElems(q, exts, env, entry)
  {
    var filePath := env.join(q.dir, entry.name);
    var fileExt := env.extension(entry.name);
    ret := ParseDirEntry(entry.name, filePath, entry.isDir, q.includeDirs, q.includeCompressed,
                         l, exts, fileExt, env, memOk);
  }

  /** One more entry adds what that entry contributes. */
  lemma ListingStep(q: Query, extList: Option<seq<string>>, env: Env, es: seq<DirEntry>, i: nat)
    requires i < |es|
    ensures Listing(q, extList, env, es[..i + 1]) == Listing(q, extList, env, es[..i]) + EntryElems(q, extList, env, es[i])
  {
    assert es[..i + 1][..i] == es[..i];
  }

  /** The listing of a prefix of the entries is a prefix of the listing. */
  lemma ListingPrefix(q: Query, extList: Option<seq<string>>, env: Env, es: seq<DirEntry>, i: nat)
    requires i <= |es|
    ensures Listing(q, extList, env, es[..i]) <= Listing(q, extList, env, es)
  {
    assert es == es[..i] + es[i..];
    ListingAppend(q, extList, env, es[..i], es[i..]);
  }

  /** An entry that is admitted after the first `i` entries lies within the whole listing. */
  lemma FailedAppendWithinListing(q: Query, extList: Option<seq<string>>, env: Env, es: seq<DirEntry>, i: nat)
    requires i < |es| && EntryElems(q, extList, env, es[i]) != []
    ensures |Listing(q, extList, env, es[..i])| < |Listing(q, extList, env, es)|
  {
    ListingStep(q, extList, env, es, i);
    ListingPrefix(q, extList, env, es, i + 1);
  }

  /** The entries that are not `.` or `..`, in order. */
  function WithoutDots(es: seq<DirEntry>): (r: seq<DirEntry>)
  {
    if es == [] then []
    else if IsDotName(es[|es| - 1].name) then WithoutDots(es[..|es| - 1])
    else WithoutDots(es[..|es| - 1]) + [es[|es| - 1]]
  }

  /** Whether the primitive yields `.` and `..` or not makes no difference to the listing. */
  lemma {:induction false} DotEntriesIgnored(q: Query, extList: Option<seq<string>>, env: Env, es: seq<DirEntry>)
    ensures Listing(q, extList, env, es) == Listing(q, extList, env, WithoutDots(es))
  {
    if es != [] {
      var init, last := es[..|es| - 1], es[|es| - 1];
      DotEntriesIgnored(q, extList, env, init);
      if !IsDotName(last.name) {
        ListingAppend(q, extList, env, WithoutDots(init), [last]);
        assert [last][..0] == [];
      }
    }
  }

  /** A directory holding only `.` and `..` gives an empty listing. */
  lemma OnlyDotsGiveEmptyListing(q: Query, extList: Option<seq<string>>, env: Env, es: seq<DirEntry>)
    requires forall i :: 0 <= i < |es| ==> IsDotName(es[i].name)
    ensures Listing(q, extList, env, es) == []
  {
    DotEntriesIgnored(q, extList, env, es);
    WithoutDotsOnlyDots(es);
  }

  lemma {:induction false} WithoutDotsOnlyDots(es: seq<DirEntry>)
    requires forall i :: 0 <= i < |es| ==> IsDotName(es[i].name)
    ensures WithoutDots(es) == []
  {
    if es != [] {
      WithoutDotsOnlyDots(es[..|es| - 1]);
    }
  }

  /**
   * Every listed element has one of the four attributes `parse_dir_entry`
   * gives; UNSET only when there is no extension list; no directory when
   * directories are excluded.
   */
  lemma {:induction false} ListingAttributes(q: Query, extList: Option<seq<string>>, env: Env, es: seq<DirEntry>)
    ensures forall k :: 0 <= k < |Listing(q, extList, env, es)| ==>
      var a := Listing(q, extList, env, es)[k].attr;
      && (a == PLAIN_FILE || a == COMPRESSED_ARCHIVE || a == DIRECTORY || a == FILETYPE_UNSET)
      && (a == FILETYPE_UNSET ==> extList.None?)
      && (a == DIRECTORY ==> q.includeDirs)
  {
    if es != [] {
      ListingAttributes(q, extList, env, es[..|es| - 1]);
    }
  }

  /**
   * `parse_dir_entry` as a method on the list: 1 when the entry is skipped
   * (list unchanged), 0 after appending exactly `Elem(filePath, attr)` at the
   * end, -1 when the append fails (list unchanged).
   */
  method ParseDirEntry(name: string, filePath: string, isDir: bool, includeDirs: bool,
                       includeCompressed: bool, list: StringList, extList: Option<seq<string>>,
                       fileExt: string, env: Env, memOk: bool) returns (ret: int)
    requires list.Valid() && list.live
    modifies list, list.elems
    ensures list.Valid() && list.live
    ensures list.elems == old(list.elems) || fresh(list.elems)
    ensures var v := EntryVerdict(name, isDir, includeDirs, includeCompressed, extList.Some?,
                                  env.isCompressed(filePath),
                                  extList.Some? && env.findExt(extList.value, fileExt));
      && (ret == 1 <==> v == Skip)
      && (ret == 0 <==> v.Accept? && memOk)
      && (ret == -1 <==> v.Accept? && !memOk)
      && list.Contents() == (if ret == 0 then old(list.Contents()) + [Elem(filePath, v.attr)]
                             else old(list.Contents()))
  {
    var attr := FILETYPE_UNSET;
    var isCompressedFile := false;
    var supportedByCore := false;
    if !isDir {
      isCompressedFile := env.isCompressed(filePath);
      if extList.Some? && env.findExt(extList.value, fileExt) {
        supportedByCore := true;
      }
    }
    if !includeDirs && isDir {
      return 1;
    }
    if name == "." || name == ".." {
      return 1;
    }
    if !isDir && extList.Some? &&
       ((!isCompressedFile && !supportedByCore) || (!supportedByCore && !includeCompressed)) {
      return 1;
    }
    if isDir {
      attr := DIRECTORY;
    }
    if isCompressedFile {
      attr := COMPRESSED_ARCHIVE;
    }
    // An extension the core supports wins over the archive classification.
    if supportedByCore {
      attr := PLAIN_FILE;
    }
    var ok := list.Append(filePath, attr, memOk);
    if !ok {
      return -1;
    }
    return 0;
  }

  /**
   * `dir_list_new`. `fs` is the directory as the platform primitive yields it
   * (None when it cannot be opened). Returns the listing, or null when
   * `string_list_new` fails, the directory does not open, or an append fails.
   * `list` and `extList` are the two lists the call allocated, if any: on every
   * path the extension list is freed, and the listing is either returned live
   * or freed.
   */
  method DirListNew(q: Query, ext: Option<string>, env: Env, fs: Option<seq<DirEntry>>, mem: Memory)
    returns (r: StringList?, ghost list: StringList?, ghost extList: StringList?)
    ensures r == null <==>
      || !mem.newListOk
      || fs.None?
      || (mem.appendFailsAt.Some? && mem.appendFailsAt.value < |Listing(q, ExtList(ext, env), env, fs.value)|)
    ensures r != null ==>
      && r == list && r.Valid() && r.live
      && r.Contents() == Listing(q, ExtList(ext, env), env, fs.value)
    // the listing is allocated exactly when `string_list_new` succeeds, and it is a new list
    ensures list != null <==> mem.newListOk
    ensures list != null ==> fresh(list)
    ensures r == null && list != null ==> !list.live
    ensures extList != null <==> mem.newListOk && ExtList(ext, env).Some?
    ensures extList != null ==> fresh(extList) && extList != list && !extList.live
  {
    list, extList := null, null;
    if !mem.newListOk {
      return null, list, extList;
    }
    var l := new StringList.Init();
    list := l;

    var exts: Option<seq<string>> := None;
    var e: StringList? := null;
    if ext.Some? {
      exts := env.split(ext.value);
      if exts.Some? {
        e := new StringList.FromStrings(exts.value);
      }
    }
    extList := e;

    if fs.None? {
      l.Free();
      if e != null { e.Free(); }
      return null, list, extList;
    }

    var ok := ReadEntries(q, exts, env, fs.value, mem, l);
    if e != null { e.Free(); }
    if !ok {
      l.Free();
      return null, list, extList;
    }
    return l, list, extList;
  }

  /**
   * The `while (dirent_readdir(...))` loop of `dir_list_new`: feeds every entry
   * to `parse_dir_entry` and stops at the first failed append. On success the
   * list holds the whole listing; on failure an append index within the
   * listing was refused.
   */
  method ReadEntries(q: Query, exts: Option<seq<string>>, env: Env, entries: seq<DirEntry>,
                     mem: Memory, l: StringList) returns (ok: bool)
    requires l.Valid() && l.live && l.Contents() == []
    modifies l, l.elems
    ensures l.Valid() && l.live
    ensures ok <==> !(mem.appendFailsAt.Some? && mem.appendFailsAt.value < |Listing(q, exts, env, entries)|)
    ensures ok ==> l.Contents() == Listing(q, exts, env, entries)
  {
    var i := 0;
    while i < |entries|
      invariant 0 <= i <= |entries|
      invariant l.Valid() && l.live
      invariant l.elems == old(l.elems) || fresh(l.elems)
      invariant l.Contents() == Listing(q, exts, env, entries[..i])
      invariant mem.appendFailsAt.Some? ==> l.size <= mem.appendFailsAt.value
    {
      var size := l.size;
      var memOk := mem.appendFailsAt != Some(size);
      ghost var added := EntryElems(q, exts, env, entries[i]);
      ListingStep(q, exts, env, entries, i);
      var ret := ReadEntry(q, exts, env, entries[i], l, memOk);
      if ret == -1 {
        FailedAppendWithinListing(q, exts, env, entries, i);
        return false;
      }
      assert l.size == size + |added|;
      i := i + 1;
    }
    assert entries[..i] == entries;
    return true;
  }

  /** `dir_list_free`: frees a listing; a NULL listing is left alone. */
  method DirListFree(list: StringList?)
    modifies list
    ensures list != null ==> !list.live && list.size == 0
  {
    if list != null {
      list.Free();
    }
  }
}
