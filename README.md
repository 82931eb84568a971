# RetroArch core pieces: directory listing, Wayland EGL context, Vita frontend

This project is a Dafny model of three parts of RetroArch. It proves properties of each model.

- **Directory listing** (`libretro-common/file/dir_list.c`). `dir_list_new` enumerates a
  directory. For each entry, `parse_dir_entry` decides whether to skip it or append it to a
  string list, and which file-type attribute it gets:
  - directory;
  - plain file, when the extension is supported by the core;
  - compressed archive;
  - unset.
  
  `dir_list_sort` orders the list with `qsort`, using one of two comparators:
  - `qstrcmp_dir` puts directories first and compares names case-insensitively within one type;
  - `qstrcmp_plain` compares names case-insensitively only.
  
  `dir_list_free` releases the list. Module `DirList` (`dir_list.dfy`) models the listing and
  module `DirSort` (`dir_sort.dfy`) models sorting. The string list itself is the class
  `StringLists.StringList` (`string_lists.dfy`): a growable array of `(data, attr)` elements
  with a liveness flag, and an explicit failure input on every append.
- **Wayland EGL context driver** (`gfx/context/wayland_ctx.c`), module `WaylandCtx`. It covers:
  - the EGL config attribute list that `gfx_ctx_init` picks for the bound API;
  - the context attribute list `egl_fill_attribs` writes into a 16-slot `EGLint` array, with
    EGL_KHR_create_context defined;
  - the version gate of `gfx_ctx_bind_api`;
  - the handle reset of `gfx_ctx_destroy`;
  - the resize detection of `gfx_ctx_check_window`.
  
  The driver's static globals are the fields of the class `EglState`.
- **PS Vita frontend** (`frontend/drivers/platform_vita.c`), module `PlatformVita`. It covers:
  - `frontend_vita_get_powerstate`;
  - the 512-byte argument block that `frontend_vita_exec` packs for `exitspawn_kernel`, using a
    `char` array, `strlcpy` and `strlen`, all modelled as loops;
  - the respawn flags of `frontend_vita_set_fork` and `frontend_vita_exitspawn`.

Platform primitives are parameters of the model. For the directory listing, the bundle `Env`
holds path joining, extension lookup, the compressed-file test, the extension-list search and
`string_split`. A directory is the sequence of entries it yields, or `None` when it cannot be
opened. Allocation failures are inputs: `Memory` says whether `string_list_new` succeeds and at
which list size an append fails. EGL and SDK calls are inputs (`eglBindOk`, the battery
readings) or recorded outputs (the `EglCall` sequence of `Destroy`, the `SpawnCall` of
`Exec`).

The header `file_path.h` is not part of this model. The file-type codes follow its enumeration:
- `RARCH_FILETYPE_UNSET` = 0
- `RARCH_PLAIN_FILE` = 1
- `RARCH_COMPRESSED_FILE_IN_ARCHIVE` = 2
- `RARCH_COMPRESSED_ARCHIVE` = 3
- `RARCH_DIRECTORY` = 4

Because `qstrcmp_dir` returns `b_type - a_type`, higher codes come first, so directories lead.

Without an extension list, an uncompressed file is appended with `RARCH_FILETYPE_UNSET`
(dir_list.c:170, 185-203); `DirList.ListingAttributes` states where UNSET can appear.

## Model

| member | source | states |
|---|---|---|
| DirList.EntryVerdict | libretro-common/file/dir_list.c:161-209 | `.` and `..` are always skipped. Directories are skipped without include_dirs and are otherwise admitted as DIRECTORY. With an extension list, a file is skipped exactly when it is neither compressed nor supported, or unsupported while compressed files are excluded. Without a list, every file is admitted. A supported extension wins over the archive classification, which wins over UNSET. UNSET only occurs without an extension list. |
| DirList.ParseDirEntry | libretro-common/file/dir_list.c:161-209 | Returns 1 exactly when the entry is skipped, 0 when it is appended, and -1 when the append fails. The list gains exactly `(file_path, attr)` at its end on 0 and is unchanged otherwise. |
| DirList.EntryElems | libretro-common/file/dir_list.c:299-307 | One enumerated entry contributes at most one element to the listing. |
| DirList.Listing | libretro-common/file/dir_list.c:288-314 | The listing a successful enumeration produces never has more elements than the directory has entries. |
| DirList.ListingAppend | libretro-common/file/dir_list.c:288-314 | Entries are processed independently and in order: the listing of `a + b` is the listing of `a` followed by the listing of `b`. |
| DirList.ListingStep | libretro-common/file/dir_list.c:288-314 | Reading one more entry extends the listing by exactly that entry's contribution. |
| DirList.ListingPrefix | libretro-common/file/dir_list.c:288-314 | What has been appended after any number of entries is a prefix of the final listing. |
| DirList.FailedAppendWithinListing | libretro-common/file/dir_list.c:305-310 | An entry admitted after the first `i` entries sits at a position inside the final listing, so a failed append there cuts the listing short. |
| DirList.DotEntriesIgnored | libretro-common/file/dir_list.c:182-183 | Removing the `.` and `..` entries from a directory does not change its listing. |
| DirList.OnlyDotsGiveEmptyListing | libretro-common/file/dir_list.c:182-183 | A directory holding only `.` and `..` yields an empty listing. |
| DirList.WithoutDotsOnlyDots | libretro-common/file/dir_list.c:182-183 | Filtering out dot names from a directory of dot names leaves nothing. |
| DirList.ListingAttributes | libretro-common/file/dir_list.c:179-203 | Every listed element is PLAIN, COMPRESSED_ARCHIVE, DIRECTORY or UNSET. UNSET appears only without an extension list, and DIRECTORY only with include_dirs. |
| DirList.ReadEntry | libretro-common/file/dir_list.c:299-313 | One loop iteration joins the path, takes the extension and parses the entry. It returns -1 exactly when the entry is admitted but its append fails, and otherwise adds the entry's contribution to the list. |
| DirList.ReadEntries | libretro-common/file/dir_list.c:288-314 | The read loop succeeds exactly when no append fails before the whole listing is built, and then the list holds exactly `Listing` of the entries. |
| DirList.DirListNew | libretro-common/file/dir_list.c:261-327 | NULL exactly when `string_list_new` fails, the directory cannot be opened, or an append fails. Otherwise the result is the list it allocated, holding the listing of the entries in enumeration order. A list is allocated exactly when `string_list_new` succeeds, and on every NULL return after that it is freed. The extension list exists exactly when `ext` is given and splitting succeeds, and it is freed on every path. |
| DirList.DirListFree | libretro-common/file/dir_list.c:100-103 | Freeing a non-NULL listing leaves it released and empty; NULL is accepted. |
| StringLists.StringList.Append | libretro-common/file/dir_list.c:205-206 | The append succeeds exactly when allocation succeeds. On success the element is added at the end; on failure the list is unchanged. |
| StringLists.StringList.Init | libretro-common/file/dir_list.c:277-278 | A new list is live and empty. |
| StringLists.StringList.FromStrings | libretro-common/file/dir_list.c:280-281 | The split extension list holds each piece, in order. |
| StringLists.StringList.Free | libretro-common/file/dir_list.c:318-325 | A freed list is no longer live and holds nothing. |
| DirSort.LowerStr | libretro-common/file/dir_list.c:61 | Case folding keeps the length of a name. |
| DirSort.CaseCmp | libretro-common/file/dir_list.c:61 | The case-insensitive comparison answers -1, 0 or 1. |
| DirSort.CaseCmpFlip | libretro-common/file/dir_list.c:56-62 | Swapping the operands negates the case-insensitive comparison. |
| DirSort.CaseCmpZero | libretro-common/file/dir_list.c:56-62 | Two names compare equal exactly when they agree after case folding. |
| DirSort.CaseCmpTrans | libretro-common/file/dir_list.c:56-62 | The case-insensitive comparison is transitive. |
| DirSort.ComparePlain | libretro-common/file/dir_list.c:56-62 | `qstrcmp_plain` answers -1, 0 or 1 and ties exactly the paths that differ only in letter case; CompareFlip and CompareTrans make it a consistent order. |
| DirSort.CompareDir | libretro-common/file/dir_list.c:64-76 | `qstrcmp_dir` puts the higher attribute code first whatever the paths, so a DIRECTORY precedes any file type; within one attribute it is `qstrcmp_plain`. CompareFlip and CompareTrans make it a consistent order. |
| DirSort.CompareFlip | libretro-common/file/dir_list.c:56-76 | Both comparators are antisymmetric: `b` sorts before `a` exactly when `a` sorts after `b`. |
| DirSort.CompareTrans | libretro-common/file/dir_list.c:56-76 | Both comparators are transitive, so `qsort` gets a consistent order. |
| DirSort.SortedDirFirst | libretro-common/file/dir_list.c:64-76 | A list sorted by `qstrcmp_dir` has non-increasing attributes, so directories come before everything else. Names are in case-insensitive order within each attribute. |
| DirSort.SortedPlain | libretro-common/file/dir_list.c:56-62 | A list sorted by `qstrcmp_plain` is in case-insensitive name order. |
| DirSort.SortElems | libretro-common/file/dir_list.c:86-91 | Sorting the first `size` elements in place leaves them ordered by the chosen comparator and a permutation of what they were. The rest of the array is untouched. |
| DirSort.MinIndex | libretro-common/file/dir_list.c:86-91 | Finds an element of the unsorted range that is no greater than any other in it. |
| DirSort.Swap | libretro-common/file/dir_list.c:86-91 | Exchanges two elements, keeping the multiset of the sorted range and everything beyond it. |
| DirSort.SwapPermutes | libretro-common/file/dir_list.c:86-91 | Exchanging two elements inside the range is a permutation of the range. |
| DirSort.SelectionStep | libretro-common/file/dir_list.c:86-91 | Moving a least element of the unsorted range to its front extends the sorted, partitioned prefix by one. |
| DirSort.DirListSort | libretro-common/file/dir_list.c:86-91 | A non-NULL list ends up sorted by the comparator `dir_first` selects, as a permutation of its former contents; NULL is ignored. |
| WaylandCtx.LookupAppend | gfx/context/wayland_ctx.c:218-236 | Reading a key from an attribute list made of whole pairs finds the first occurrence, in the first part before the second. |
| WaylandCtx.ConfigAttribs | gfx/context/wayland_ctx.c:218-236 | A list exists exactly for GL, GLES and VG; each is `EGL_ATTRIBS_BASE`, one renderable-type pair and EGL_NONE. ConfigAttribsSpec states which renderable bit each API gets. |
| WaylandCtx.ConfigAttribsSpec | gfx/context/wayland_ctx.c:184-236 | There is a config list exactly for GL, GLES and VG, and it ends with EGL_NONE. It asks for a window surface. Its renderable type is the OpenGL bit for GL, the ES3 bit for GLES from major version 3 on and the ES2 bit below it, and the OpenVG bit for VG. |
| WaylandCtx.BaseLookups | gfx/context/wayland_ctx.c:184-190 | `EGL_ATTRIBS_BASE` asks for a window surface and says nothing about the renderable type. |
| WaylandCtx.AttribPairs | gfx/context/wayland_ctx.c:292-350 | The context attributes come in whole pairs, at most four. Nothing is written, so a NULL list is passed on, exactly for GL below 3.1 without debugging and for any API other than GL and GLES. |
| WaylandCtx.OpenGLAttribs | gfx/context/wayland_ctx.c:296-329 | For desktop GL, the major and minor version are requested from 3.1 on (`major*1000+minor` in unsigned arithmetic) and the core profile from 3.2 on. The debug flag is requested exactly when debugging is asked for, as the last pair. |
| WaylandCtx.LookupPair | gfx/context/wayland_ctx.c:307-326 | A list that starts with a pair answers that pair's key with its value and defers every other key to the rest. |
| WaylandCtx.DebugPairLookup | gfx/context/wayland_ctx.c:322-326 | The debug pair answers only the flags key. |
| WaylandCtx.OpenGLESAttribs | gfx/context/wayland_ctx.c:332-342 | For GLES the client version comes first and is the major version, or 2 when the major version is 0. A minor version is requested exactly when it is positive. |
| WaylandCtx.FillAttribs | gfx/context/wayland_ctx.c:292-350 | Writes the pairs for the bound API from the start position, terminates them with EGL_NONE and returns the terminator's position. No other slot changes. |
| WaylandCtx.FillOpenGL | gfx/context/wayland_ctx.c:296-329 | Writes the desktop GL pairs and changes nothing outside them. |
| WaylandCtx.FillOpenGLES | gfx/context/wayland_ctx.c:332-342 | Writes the GLES pairs and changes nothing outside them. |
| WaylandCtx.PutPair | gfx/context/wayland_ctx.c:306-326 | Each `*attr++` pair store extends the written prefix by that pair and changes nothing else. |
| WaylandCtx.ContextAttribList | gfx/context/wayland_ctx.c:363-373 | The list handed to `eglCreateContext` is NULL exactly when nothing was written. Otherwise it is the pairs followed by EGL_NONE, and it fits the 16-slot array. |
| WaylandCtx.BindGate | gfx/context/wayland_ctx.c:463-481 | Unknown APIs are refused and OpenVG always passes; with EGL_KHR_create_context every known API passes. Without it, desktop GL passes exactly below version 3.1 and GLES exactly below major version 3. |
| WaylandCtx.BindGateMatchesVersionRequest | gfx/context/wayland_ctx.c:457-482 | Without EGL_KHR_create_context, `gfx_ctx_bind_api` refuses desktop GL exactly when `egl_fill_attribs` would request an explicit version (3.1 and later). |
| WaylandCtx.BindGateMatchesConfig | gfx/context/wayland_ctx.c:472-474 | Without EGL_KHR_create_context, `gfx_ctx_bind_api` refuses GLES exactly when the config selection of `gfx_ctx_init` would ask for an ES3-renderable config (wayland_ctx.c:224-228). |
| WaylandCtx.EglState.BindApi | gfx/context/wayland_ctx.c:457-482 | Records api, major and minor, and succeeds exactly when the version gate lets the API through and `eglBindAPI` succeeds. Unknown APIs always fail. No EGL handle changes. |
| WaylandCtx.EglState.Destroy | gfx/context/wayland_ctx.c:408-434 | With an EGL display: first `eglMakeCurrent` to nothing and the destruction of the context when there is one, then the shared context and then the surface exactly when they exist, with `eglTerminate` last; one call per existing handle (two for the context), so the whole call sequence is fixed. Without a display no call is made. All five EGL handles end up NULL, and the Wayland display is kept. |
| WaylandCtx.EglState.constructor | gfx/context/wayland_ctx.c:28-32 | The static handles start out NULL. |
| WaylandCtx.VideoSize | gfx/context/wayland_ctx.c:152-157 | The reported size is always 640x480, the size of the window `gfx_ctx_set_video_mode` creates (wayland_ctx.c:368). |
| WaylandCtx.CheckWindow | gfx/context/wayland_ctx.c:108-127 | The size becomes the reported 640x480. `resize` is raised when that differs from the incoming size and left alone otherwise. `quit` reports the signal flag. |
| PlatformVita.GetPowerState | frontend/drivers/platform_vita.c:198-215 | Reports Charging while charging whatever the plug says, then Charged when plugged, and otherwise On power source; never None or No source. The seconds are the minutes times 60 and the percent is passed through. |
| PlatformVita.Prefix | frontend/drivers/platform_vita.c:154 | A bounded copy keeps at most `n` leading characters. |
| PlatformVita.ArgBlock | frontend/drivers/platform_vita.c:150-165 | The packed block never exceeds 512 bytes and always starts with `retroarch_path`, cut to 511 characters, and its NUL. |
| PlatformVita.ArgBlockLayout | frontend/drivers/platform_vita.c:150-165 | When both paths fit, the block is `retroarch_path` NUL `fullpath` NUL for a non-empty game to load, and `retroarch_path` NUL otherwise; `args` is the total length. |
| PlatformVita.NulIndex | frontend/drivers/platform_vita.c:155 | Finds the first NUL, as `strlen` does. |
| PlatformVita.FieldsCons | frontend/drivers/platform_vita.c:150-165 | A terminated string at the head of a block reads back as the first argument. |
| PlatformVita.FieldsOne | frontend/drivers/platform_vita.c:150-165 | A block of one terminated string reads back as that string. |
| PlatformVita.ArgBlockRoundTrip | frontend/drivers/platform_vita.c:150-165 | When both paths fit, reading the block's NUL-separated strings gives back exactly `retroarch_path`, and then the content path when a non-empty game is loaded. |
| PlatformVita.AsWrittenGameWriteOverruns | frontend/drivers/platform_vita.c:153-162 | As written, the store `argp[args] = '\0'` is at the length of the packed head, which is at most 512 and equals 512 exactly when `retroarch_path` has 511 characters or more (for example 511 `a`s): one past the 512-byte buffer. |
| PlatformVita.StrlCopy | frontend/drivers/platform_vita.c:154 | `strlcpy` copies `min(len, size-1)` characters and a NUL and changes nothing else. |
| PlatformVita.StrLen | frontend/drivers/platform_vita.c:155 | `strlen` finds the first NUL from the offset. |
| PlatformVita.PackPath | frontend/drivers/platform_vita.c:154-164 | Copying a path at an offset and measuring it advances by the copied length plus one, leaves the cut path and its NUL there, and changes nothing else. |
| PlatformVita.FirstNul | frontend/drivers/platform_vita.c:155 | A C string has one end: two positions that are both its first NUL agree. |
| PlatformVita.PackArgs | frontend/drivers/platform_vita.c:150-165 | The first `args` bytes of the zeroed 512-byte `argp` are exactly `ArgBlock`, and the remaining bytes stay NUL. `args` after the `retroarch_path` copy is the as-written store index, and the game part is added exactly when a non-empty game is wanted and that index is inside `argp`, which is the corrected guard. |
| PlatformVita.Exec | frontend/drivers/platform_vita.c:147-173 | Spawns exactly when built with kernel PRX support or as Salamander. It passes `path` and the packed block, and considers the content path only outside Salamander. |
| PlatformVita.ForkState.constructor | frontend/drivers/platform_vita.c:37-38 | Both respawn flags start out false. |
| PlatformVita.ForkState.SetFork | frontend/drivers/platform_vita.c:175-179 | Always arms the respawn, whatever `exit` says, and records `start_game`. |
| PlatformVita.ForkState.ExitSpawn | frontend/drivers/platform_vita.c:181-191 | Outside Salamander nothing is spawned until the respawn is armed, and the recorded start-game flag decides whether the game is loaded. Salamander always execs, without a game. |

## Left out

- Directory enumeration backends (`opendir`/`readdir`, `FindFirstFile`, `sceIoDopen`) are not modelled. A directory is the sequence of entries it yields; closing the handle is not represented. On Win32 the read loop starts with `FindNextFile`, so the entry that `FindFirstFile` returned is never examined (dir_list.c:216, 233, 288); the model treats every entry of the sequence as read.
- `dirent_is_directory` is called on every backend before `fill_pathname_join` fills `file_path` for the current entry (dir_list.c:294, 297, 300 against 304). The Win32 and Vita versions never read the path (dir_list.c:119-129). The POSIX version does: for a `DT_UNKNOWN` or `DT_LNK` entry, or for every entry when `DT_DIR` is not defined, it runs `path_is_directory` on the previous entry's path or on an uninitialised buffer (dir_list.c:131-141). The model takes whether an entry is a directory from the entry itself, so it does not capture that misclassification on the POSIX backend.
- `path_get_extension`, `fill_pathname_join`, `path_is_compressed_file`, `string_list_find_elem_prefix` and `string_split` are opaque functions in `Env`. Their own code is not part of this model.
- `string_list.c` is not part of this model. `StringLists.StringList` models only what `dir_list.c` relies on: append at the end or fail with the list unchanged, and free. The growth policy (doubling from 32) is an assumption.
- `file_path.h` is not part of this model; the attribute codes are the ones listed above.
- DirSort.SortElems: `qsort` is not stable and its algorithm is unspecified. The model uses a selection sort and proves only what any correct `qsort` guarantees: sorted by the comparator, and a permutation. The relative order of elements that compare equal is not fixed.
- DirSort.CaseCmp: `strcasecmp` is modelled by its sign, with ASCII case folding only; locale-dependent folding is not modelled.
- Wayland plumbing (registry, surfaces, `wl_display_dispatch_pending`, swap buffers, swap interval, window title, input driver) and EGL initialisation, config choice and error reporting are left out; they are foreign calls.
- The signal handler is left out; only its flag `g_quit` appears, as the `quitFlag` input of `CheckWindow`.
- `egl_fill_attribs` and the config selection of `gfx_ctx_init` (`ConfigAttribs`, whose GLES 3 branch is guarded at wayland_ctx.c:203-209 and 224-228) without EGL_KHR_create_context are not modelled. The build with the extension is the one modelled; `BindApi` takes whether the extension is defined as a parameter.
- `frontend_vita_get_environment_settings`, `deinit`, `shutdown`, `init`, `get_rating`, `get_architecture` and `parse_drive_list` are left out: they are directory setup and constant answers around SDK calls.
- `exitspawn_kernel` (platform_vita.c:170) is a foreign call; `Exec` returns the call it would make as a `SpawnCall` value.
- PlatformVita.GetPowerState: `scePowerGetBatteryLifeTime() * 60` is modelled on unbounded integers, so 32-bit overflow of `seconds` is not modelled. SDK values stay far below that.
- Logging (`RARCH_LOG`, `RARCH_ERR`) is left out.

## Findings

| source | as written | input that shows it | evidently intended | confidence | as-written member | corrected member |
|---|---|---|---|---|---|---|
| frontend/drivers/platform_vita.c:153-164 | `args = strlen(argp) + 1` can reach 512 when `retroarch_path` fills the buffer, and `argp[args] = '\0'` is then stored unchecked | any `retroarch_path` of 511 characters or more (e.g. 511 `a`s) with a non-empty content path to load: `args` is 512 and the store lands one past the 512-byte `argp` | the content path is only appended while room is left (`args < sizeof(argp)`) | low, not executed | PlatformVita.AsWrittenGameWriteOverruns | PlatformVita.PackArgs |
