/**
 * The stateable logic of the Wayland/EGL graphics context driver
 * (gfx/context/wayland_ctx.c): the config attribute list chosen by
 * `gfx_ctx_init`, the context attribute list `egl_fill_attribs` writes, the
 * version gate of `gfx_ctx_bind_api`, the resize detection of
 * `gfx_ctx_check_window`, and the handle reset of `gfx_ctx_destroy`.
 * EGL and Wayland calls are foreign: their results are inputs, and the calls
 * `gfx_ctx_destroy` makes are returned as a trace.
 */
module WaylandCtx {
  import opened Base

  newtype u32 = x: int | 0 <= x < 0x1_0000_0000

  /* EGL tokens, with the values of the Khronos EGL 1.4 headers and EGL_KHR_create_context. */
  const EGL_NONE: int := 0x3038
  const EGL_ALPHA_SIZE: int := 0x3021
  const EGL_BLUE_SIZE: int := 0x3022
  const EGL_GREEN_SIZE: int := 0x3023
  const EGL_RED_SIZE: int := 0x3024
  const EGL_DEPTH_SIZE: int := 0x3025
  const EGL_SURFACE_TYPE: int := 0x3033
  const EGL_RENDERABLE_TYPE: int := 0x3040
  const EGL_WINDOW_BIT: int := 0x0004
  const EGL_OPENVG_BIT: int := 0x0002
  const EGL_OPENGL_ES2_BIT: int := 0x0004
  const EGL_OPENGL_BIT: int := 0x0008
  const EGL_OPENGL_ES3_BIT_KHR: int := 0x0040
  const EGL_CONTEXT_CLIENT_VERSION: int := 0x3098
  const EGL_CONTEXT_MAJOR_VERSION_KHR: int := 0x3098
  const EGL_CONTEXT_MINOR_VERSION_KHR: int := 0x30FB
  const EGL_CONTEXT_FLAGS_KHR: int := 0x30FC
  const EGL_CONTEXT_OPENGL_PROFILE_MASK_KHR: int := 0x30FD
  const EGL_CONTEXT_OPENGL_CORE_PROFILE_BIT_KHR: int := 0x1
  const EGL_CONTEXT_OPENGL_DEBUG_BIT_KHR: int := 0x1

  /** The slots of `egl_attribs` in `gfx_ctx_set_video_mode`. */
  const ATTRIB_SLOTS: nat := 16

  /** `enum gfx_ctx_api`; `OtherApi` stands for every value the driver does not handle. */
  datatype GfxApi = OpenGL | OpenGLES | OpenVG | OtherApi

  /** `g_major * 1000 + g_minor` in unsigned arithmetic, wrapping modulo 2^32. */
  function Version(major: u32, minor: u32): u32
  {
    ((major as int * 1000 + minor as int) % 0x1_0000_0000) as u32
  }

  /** An unsigned value stored into an `EGLint` (32-bit two's complement). */
  function EglInt(u: u32): int
  {
    if u < 0x8000_0000 then u as int else u as int - 0x1_0000_0000
  }

  /**
   * The value bound to `key` in a key/value attribute list, read pair by pair
   * as EGL reads it (a trailing unpaired slot is ignored).
   */
  function Lookup(attribs: seq<int>, key: int): Option<int>
  {
    if |attribs| < 2 then None
    else if attribs[0] == key then Some(attribs[1])
    else Lookup(attribs[2..], key)
  }

  /** Reading a list made of whole pairs followed by more: the first part is searched first. */
  lemma {:induction false} LookupAppend(a: seq<int>, b: seq<int>, key: int)
    requires |a| % 2 == 0
    ensures Lookup(a + b, key) == if Lookup(a, key).Some? then Lookup(a, key) else Lookup(b, key)
  {
    if |a| >= 2 {
      assert (a + b)[0] == a[0] && (a + b)[1] == a[1];
      assert (a + b)[2..] == a[2..] + b;
      LookupAppend(a[2..], b, key);
    } else {
      assert a + b == b;
    }
  }

  // ---------------------------------------------------------------------------
  // Config attributes chosen by gfx_ctx_init

  /** `EGL_ATTRIBS_BASE`: a window surface with at least one bit per colour channel. */
  const ATTRIBS_BASE: seq<int> := [
    EGL_SURFACE_TYPE, EGL_WINDOW_BIT,
    EGL_RED_SIZE, 1,
    EGL_GREEN_SIZE, 1,
    EGL_BLUE_SIZE, 1,
    EGL_ALPHA_SIZE, 0,
    EGL_DEPTH_SIZE, 0]

  /**
   * The `switch (g_api)` of `gfx_ctx_init`, with EGL_KHR_create_context
   * defined: the config attribute list, or None (a NULL `attrib_ptr`).
   */
  function ConfigAttribs(api: GfxApi, major: u32): (r: Option<seq<int>>)
    ensures r.None? <==> api == OtherApi
    // the shared base, one renderable-type pair, and the terminator
    ensures r.Some? ==>
      && |r.value| == |ATTRIBS_BASE| + 3
      && r.value[..|ATTRIBS_BASE|] == ATTRIBS_BASE
      && r.value[|ATTRIBS_BASE|] == EGL_RENDERABLE_TYPE
      && r.value[|r.value| - 1] == EGL_NONE
  {
    match api
    case OpenGL => Some(ATTRIBS_BASE + [EGL_RENDERABLE_TYPE, EGL_OPENGL_BIT, EGL_NONE])
    case OpenGLES =>
      if major >= 3 then Some(ATTRIBS_BASE + [EGL_RENDERABLE_TYPE, EGL_OPENGL_ES3_BIT_KHR, EGL_NONE])
      else Some(ATTRIBS_BASE + [EGL_RENDERABLE_TYPE, EGL_OPENGL_ES2_BIT, EGL_NONE])
    case OpenVG => Some(ATTRIBS_BASE + [EGL_RENDERABLE_TYPE, EGL_OPENVG_BIT, EGL_NONE])
    case OtherApi => None
  }

  /**
   * What the chosen config list asks EGL for: a window surface, and the
   * renderable type of the API — the GL bit, the ES3 bit for ES 3 and above,
   * the ES2 bit below, the VG bit; no list for any other API. Every list ends
   * with EGL_NONE.
   */
  lemma ConfigAttribsSpec(api: GfxApi, major: u32)
    ensures ConfigAttribs(api, major).None? <==> api == OtherApi
    ensures ConfigAttribs(api, major).Some? ==>
      var r := ConfigAttribs(api, major).value;
      && r[|r| - 1] == EGL_NONE
      && Lookup(r, EGL_SURFACE_TYPE) == Some(EGL_WINDOW_BIT)
      && Lookup(r, EGL_RENDERABLE_TYPE) == Some(
           match api
           case OpenGL => EGL_OPENGL_BIT
           case OpenGLES => if major >= 3 then EGL_OPENGL_ES3_BIT_KHR else EGL_OPENGL_ES2_BIT
           case _ => EGL_OPENVG_BIT)
  {
    if api != OtherApi {
      var r := ConfigAttribs(api, major).value;
      var tail := r[|ATTRIBS_BASE|..];
      assert r == ATTRIBS_BASE + tail;
      BaseLookups();
      LookupAppend(ATTRIBS_BASE, tail, EGL_SURFACE_TYPE);
      LookupAppend(ATTRIBS_BASE, tail, EGL_RENDERABLE_TYPE);
    }
  }

  /** `EGL_ATTRIBS_BASE` asks for a window surface and leaves the renderable type to the API's pair. */
  lemma BaseLookups()
    ensures Lookup(ATTRIBS_BASE, EGL_SURFACE_TYPE) == Some(EGL_WINDOW_BIT)
    ensures Lookup(ATTRIBS_BASE, EGL_RENDERABLE_TYPE) == None
  {
    var b := ATTRIBS_BASE;
    assert b == b[..2] + b[2..];
    LookupAppend(b[..2], b[2..], EGL_RENDERABLE_TYPE);
    assert b[2..] == b[2..4] + b[4..];
    LookupAppend(b[2..4], b[4..], EGL_RENDERABLE_TYPE);
    assert b[4..] == b[4..6] + b[6..];
    LookupAppend(b[4..6], b[6..], EGL_RENDERABLE_TYPE);
    assert b[6..] == b[6..8] + b[8..];
    LookupAppend(b[6..8], b[8..], EGL_RENDERABLE_TYPE);
    assert b[8..] == b[8..10] + b[10..];
    LookupAppend(b[8..10], b[10..], EGL_RENDERABLE_TYPE);
  }

  // ---------------------------------------------------------------------------
  // Context attributes written by egl_fill_attribs

  /**
   * The key/value pairs `egl_fill_attribs` writes before the terminator, with
   * EGL_KHR_create_context defined; `debug` is the debug-context request.
   */
  function AttribPairs(api: GfxApi, major: u32, minor: u32, debug: bool): (r: seq<int>)
    ensures |r| % 2 == 0 && |r| <= 8
    // nothing is written, and a NULL list is passed on, exactly in these cases
    ensures r == [] <==>
      || (api == OpenGL && Version(major, minor) < 3001 && !debug)
      || (api != OpenGL && api != OpenGLES)
  {
    match api
    case OpenGL =>
      var version := Version(major, minor);
      var versionPairs :=
        if version >= 3001 then
          [EGL_CONTEXT_MAJOR_VERSION_KHR, EglInt(major), EGL_CONTEXT_MINOR_VERSION_KHR, EglInt(minor)]
          + (if version >= 3002 then [EGL_CONTEXT_OPENGL_PROFILE_MASK_KHR, EGL_CONTEXT_OPENGL_CORE_PROFILE_BIT_KHR] else [])
        else [];
      versionPairs + (if debug then [EGL_CONTEXT_FLAGS_KHR, EGL_CONTEXT_OPENGL_DEBUG_BIT_KHR] else [])
    case OpenGLES =>
      [EGL_CONTEXT_CLIENT_VERSION, if major != 0 then EglInt(major) else 2]
      + (if minor > 0 then [EGL_CONTEXT_MINOR_VERSION_KHR, EglInt(minor)] else [])
    case _ => []
  }

  /**
   * The OpenGL context request: major and minor version from 3.1 on, the core
   * profile from 3.2 on, the debug flag exactly when debugging is asked for,
   * and then after any version pairs.
   */
  lemma {:induction false} OpenGLAttribs(major: u32, minor: u32, debug: bool)
    ensures var r := AttribPairs(OpenGL, major, minor, debug);
      var v := Version(major, minor);
      && Lookup(r, EGL_CONTEXT_MAJOR_VERSION_KHR) == (if v >= 3001 then Some(EglInt(major)) else None)
      && Lookup(r, EGL_CONTEXT_MINOR_VERSION_KHR) == (if v >= 3001 then Some(EglInt(minor)) else None)
      && Lookup(r, EGL_CONTEXT_OPENGL_PROFILE_MASK_KHR) ==
           (if v >= 3002 then Some(EGL_CONTEXT_OPENGL_CORE_PROFILE_BIT_KHR) else None)
      && Lookup(r, EGL_CONTEXT_FLAGS_KHR) == (if debug then Some(EGL_CONTEXT_OPENGL_DEBUG_BIT_KHR) else None)
      && (debug ==> r[|r| - 2..] == [EGL_CONTEXT_FLAGS_KHR, EGL_CONTEXT_OPENGL_DEBUG_BIT_KHR])
  {
    var v := Version(major, minor);
    var dbg := if debug then [EGL_CONTEXT_FLAGS_KHR, EGL_CONTEXT_OPENGL_DEBUG_BIT_KHR] else [];
    var profile := if v >= 3002 then [EGL_CONTEXT_OPENGL_PROFILE_MASK_KHR, EGL_CONTEXT_OPENGL_CORE_PROFILE_BIT_KHR] else [];
    DebugPairLookup(debug);
    if v >= 3002 {
      LookupPair(EGL_CONTEXT_OPENGL_PROFILE_MASK_KHR, EGL_CONTEXT_OPENGL_CORE_PROFILE_BIT_KHR, dbg);
    }
    if v >= 3001 {
      var rest := [EGL_CONTEXT_MINOR_VERSION_KHR, EglInt(minor)] + (profile + dbg);
      assert AttribPairs(OpenGL, major, minor, debug) ==
             [EGL_CONTEXT_MAJOR_VERSION_KHR, EglInt(major)] + rest;
      LookupPair(EGL_CONTEXT_MAJOR_VERSION_KHR, EglInt(major), rest);
      LookupPair(EGL_CONTEXT_MINOR_VERSION_KHR, EglInt(minor), profile + dbg);
    } else {
      assert AttribPairs(OpenGL, major, minor, debug) == dbg;
    }
  }

  /** Reading a list that starts with the pair `(k, val)`. */
  lemma LookupPair(k: int, val: int, rest: seq<int>)
    ensures forall key :: Lookup([k, val] + rest, key) == if k == key then Some(val) else Lookup(rest, key)
  {
    assert ([k, val] + rest)[2..] == rest;
  }

  /** The debug pair alone, as the OpenGL request ends. */
  lemma DebugPairLookup(debug: bool)
    ensures var dbg := if debug then [EGL_CONTEXT_FLAGS_KHR, EGL_CONTEXT_OPENGL_DEBUG_BIT_KHR] else [];
      && Lookup(dbg, EGL_CONTEXT_FLAGS_KHR) == (if debug then Some(EGL_CONTEXT_OPENGL_DEBUG_BIT_KHR) else None)
      && Lookup(dbg, EGL_CONTEXT_MAJOR_VERSION_KHR) == None
      && Lookup(dbg, EGL_CONTEXT_MINOR_VERSION_KHR) == None
      && Lookup(dbg, EGL_CONTEXT_OPENGL_PROFILE_MASK_KHR) == None
  {
    if debug {
      LookupPair(EGL_CONTEXT_FLAGS_KHR, EGL_CONTEXT_OPENGL_DEBUG_BIT_KHR, []);
      assert [EGL_CONTEXT_FLAGS_KHR, EGL_CONTEXT_OPENGL_DEBUG_BIT_KHR] + [] ==
             [EGL_CONTEXT_FLAGS_KHR, EGL_CONTEXT_OPENGL_DEBUG_BIT_KHR];
    }
  }

  /**
   * The OpenGL ES context request: the client version is the major version,
   * or 2 when it is 0; a minor version follows only when it is positive.
   */
  lemma OpenGLESAttribs(major: u32, minor: u32, debug: bool)
    ensures var r := AttribPairs(OpenGLES, major, minor, debug);
      && r[..2] == [EGL_CONTEXT_CLIENT_VERSION, if major != 0 then EglInt(major) else 2]
      && Lookup(r, EGL_CONTEXT_MINOR_VERSION_KHR) == (if minor > 0 then Some(EglInt(minor)) else None)
  {
    var head := [EGL_CONTEXT_CLIENT_VERSION, if major != 0 then EglInt(major) else 2];
    var tail := if minor > 0 then [EGL_CONTEXT_MINOR_VERSION_KHR, EglInt(minor)] else [];
    LookupAppend(head, tail, EGL_CONTEXT_MINOR_VERSION_KHR);
  }

  /**
   * `egl_fill_attribs`: writes the pairs for the bound API from `start` on and
   * terminates them with EGL_NONE, returning the position of the terminator
   * (the advanced `attr` pointer). No other slot of the array changes.
   */
  method FillAttribs(attr: array<int>, start: nat, api: GfxApi, major: u32, minor: u32, debug: bool)
    returns (end: nat)
    requires start + |AttribPairs(api, major, minor, debug)| < attr.Length
    modifies attr
    ensures end == start + |AttribPairs(api, major, minor, debug)|
    ensures attr[start..end] == AttribPairs(api, major, minor, debug)
    ensures attr[end] == EGL_NONE
    ensures forall i :: 0 <= i < attr.Length && !(start <= i <= end) ==> attr[i] == old(attr[i])
  {
    ghost var orig := attr[..];
    ghost var written: seq<int> := [];
    var p := start;
    match api {
      case OpenGL =>
        p, written := FillOpenGL(attr, start, major, minor, debug, orig);
      case OpenGLES =>
        p, written := FillOpenGLES(attr, start, major, minor, orig);
      case _ =>
    }
    assert written == AttribPairs(api, major, minor, debug);
    ghost var filled := attr[..];
    attr[p] := EGL_NONE;
    assert attr[start..p] == filled[start..p];
    end := p;
  }

  /** The `GFX_CTX_OPENGL_ES_API` case of `egl_fill_attribs`, up to the terminator. */
  method FillOpenGLES(attr: array<int>, start: nat, major: u32, minor: u32, ghost orig: seq<int>)
    returns (p: nat, ghost written: seq<int>)
    requires start + |AttribPairs(OpenGLES, major, minor, false)| < attr.Length
    requires attr[..] == orig
    modifies attr
    ensures written == AttribPairs(OpenGLES, major, minor, false) && p == start + |written|
    ensures attr[start..p] == written && SameOutside(attr[..], orig, start, p)
  {
    written := [];
    p := start;
    p, written := PutPair(attr, start, p, EGL_CONTEXT_CLIENT_VERSION,
                          if major != 0 then EglInt(major) else 2, written, orig);
    if minor > 0 {
      p, written := PutPair(attr, start, p, EGL_CONTEXT_MINOR_VERSION_KHR, EglInt(minor), written, orig);
    }
  }

  /** The `GFX_CTX_OPENGL_API` case of `egl_fill_attribs`, up to the terminator. */
  method FillOpenGL(attr: array<int>, start: nat, major: u32, minor: u32, debug: bool, ghost orig: seq<int>)
    returns (p: nat, ghost written: seq<int>)
    requires start + |AttribPairs(OpenGL, major, minor, debug)| < attr.Length
    requires attr[..] == orig
    modifies attr
    ensures written == AttribPairs(OpenGL, major, minor, debug) && p == start + |written|
    ensures attr[start..p] == written && SameOutside(attr[..], orig, start, p)
  {
    written := [];
    p := start;
    var version := Version(major, minor);
    var core := version >= 3001;
    if core {
      p, written := PutPair(attr, start, p, EGL_CONTEXT_MAJOR_VERSION_KHR, EglInt(major), written, orig);
      p, written := PutPair(attr, start, p, EGL_CONTEXT_MINOR_VERSION_KHR, EglInt(minor), written, orig);
      // No core/compatibility distinction before 3.2.
      if version >= 3002 {
        p, written := PutPair(attr, start, p, EGL_CONTEXT_OPENGL_PROFILE_MASK_KHR,
                              EGL_CONTEXT_OPENGL_CORE_PROFILE_BIT_KHR, written, orig);
      }
    }
    if debug {
      p, written := PutPair(attr, start, p, EGL_CONTEXT_FLAGS_KHR, EGL_CONTEXT_OPENGL_DEBUG_BIT_KHR, written, orig);
    }
  }

  /** The slots of `a` outside `[lo, hi)` hold what they held in `orig`. */
  ghost predicate SameOutside(a: seq<int>, orig: seq<int>, lo: nat, hi: nat)
  {
    |a| == |orig| && forall i :: 0 <= i < |a| && !(lo <= i < hi) ==> a[i] == orig[i]
  }

  /** `*attr++ = key; *attr++ = val;`: one pair written at `p`, right after the pairs already written. */
  method PutPair(attr: array<int>, start: nat, p: nat, key: int, val: int,
                 ghost written: seq<int>, ghost orig: seq<int>) returns (q: nat, ghost written': seq<int>)
    requires start <= p && p + 1 < attr.Length
    requires attr[start..p] == written && SameOutside(attr[..], orig, start, p)
    modifies attr
    ensures q == p + 2 && written' == written + [key, val]
    ensures attr[start..q] == written' && SameOutside(attr[..], orig, start, q)
  {
    attr[p] := key;
    attr[p + 1] := val;
    q := p + 2;
    written' := written + [key, val];
    assert attr[start..q] == attr[start..p] + [key, val];
  }

  /**
   * The attribute argument `gfx_ctx_set_video_mode` gives `eglCreateContext`:
   * the filled 16-slot buffer up to and including its terminator, or NULL
   * when nothing was written before the terminator.
   */
  method ContextAttribList(api: GfxApi, major: u32, minor: u32, debug: bool) returns (r: Option<seq<int>>)
    ensures r.None? <==> AttribPairs(api, major, minor, debug) == []
    ensures r.Some? ==> r.value == AttribPairs(api, major, minor, debug) + [EGL_NONE]
    ensures r.Some? ==> |r.value| <= 9 < ATTRIB_SLOTS
  {
    var eglAttribs := new int[ATTRIB_SLOTS];
    var end := FillAttribs(eglAttribs, 0, api, major, minor, debug);
    r := if end != 0 then Some(eglAttribs[..end + 1]) else None;
  }

  // ---------------------------------------------------------------------------
  // Driver globals: gfx_ctx_bind_api and gfx_ctx_destroy

  /** A foreign EGL call made by `gfx_ctx_destroy`. */
  datatype EglCall =
    | MakeCurrentNone(dpy: nat)
    | DestroyContext(dpy: nat, ctx: nat)
    | DestroySurface(dpy: nat, surf: nat)
    | Terminate(dpy: nat)

  /**
   * Whether `gfx_ctx_bind_api` lets `api` through to `eglBindAPI`. Built
   * without EGL_KHR_create_context it refuses desktop GL 3.1 and later and
   * GLES 3 and later; it always refuses an API it does not know.
   */
  function BindGate(api: GfxApi, major: u32, minor: u32, createContextExt: bool): (ok: bool)
    ensures api == OtherApi ==> !ok
    ensures api == OpenVG ==> ok
    // with the extension every known API passes, whatever version is asked for
    ensures createContextExt ==> (ok <==> api != OtherApi)
    // GL 3.0 and GLES 2 pass on any build
    ensures api == OpenGL && major <= 3 && minor == 0 ==> ok
    ensures api == OpenGLES && major <= 2 ==> ok
    // without the extension the version requests it would carry are refused
    ensures !createContextExt && api == OpenGL ==> (ok <==> Version(major, minor) < 3001)
    ensures !createContextExt && api == OpenGLES ==> (ok <==> major < 3)
  {
    match api
    case OpenGL => createContextExt || Version(major, minor) < 3001
    case OpenGLES => createContextExt || major < 3
    case OpenVG => true
    case OtherApi => false
  }

  /**
   * The gate turns away a desktop GL version exactly when `egl_fill_attribs`
   * (which needs the extension) would ask for an explicit version.
   */
  lemma BindGateMatchesVersionRequest(major: u32, minor: u32, debug: bool)
    ensures !BindGate(OpenGL, major, minor, false) <==>
            Lookup(AttribPairs(OpenGL, major, minor, debug), EGL_CONTEXT_MAJOR_VERSION_KHR).Some?
  {
    OpenGLAttribs(major, minor, debug);
  }

  /**
   * The gate turns away a GLES version exactly when the config selection
   * would ask for an ES3-renderable config.
   */
  lemma BindGateMatchesConfig(major: u32, minor: u32)
    ensures !BindGate(OpenGLES, major, minor, false) <==>
            Lookup(ConfigAttribs(OpenGLES, major).value, EGL_RENDERABLE_TYPE) == Some(EGL_OPENGL_ES3_BIT_KHR)
  {
    ConfigAttribsSpec(OpenGLES, major);
  }

  /** The static globals of the driver; handles are numbers, 0 standing for NULL. */
  class EglState {
    var eglCtx: nat
    var eglHwCtx: nat
    var eglSurf: nat
    var eglDpy: nat
    var config: nat
    /** `g_dpy`, the Wayland display, kept for the application's lifetime. */
    var dpy: nat
    var api: GfxApi
    var major: u32
    var minor: u32

    constructor()
      ensures eglCtx == 0 && eglHwCtx == 0 && eglSurf == 0 && eglDpy == 0 && config == 0 && dpy == 0
    {
      eglCtx, eglHwCtx, eglSurf, eglDpy, config, dpy := 0, 0, 0, 0, 0, 0;
      // `g_api`, `g_major` and `g_minor` are only read after `gfx_ctx_bind_api`
      // has set them, so their start values are arbitrary here
      api, major, minor := OtherApi, 0, 0;
    }

    /**
     * `gfx_ctx_bind_api`: records the request, then answers what `eglBindAPI`
     * answers (`eglBindOk`) when the gate lets the API through, and false
     * otherwise. `createContextExt` is whether EGL_KHR_create_context is defined.
     */
    method BindApi(api: GfxApi, major: u32, minor: u32, createContextExt: bool, eglBindOk: bool)
      returns (ok: bool)
      modifies this
      ensures this.api == api && this.major == major && this.minor == minor
      ensures ok <==> BindGate(api, major, minor, createContextExt) && eglBindOk
      ensures !ok ==> api == OtherApi || !eglBindOk || !createContextExt
      ensures eglCtx == old(eglCtx) && eglHwCtx == old(eglHwCtx) && eglSurf == old(eglSurf)
      ensures eglDpy == old(eglDpy) && config == old(config) && dpy == old(dpy)
    {
      this.major := major;
      this.minor := minor;
      this.api := api;
      match api {
        case OpenGL =>
          if !createContextExt && Version(major, minor) >= 3001 {
            return false;
          }
          return eglBindOk;
        case OpenGLES =>
          if !createContextExt && major >= 3 {
            return false;
          }
          return eglBindOk;
        case OpenVG =>
          return eglBindOk;
        case OtherApi =>
          return false;
      }
    }

    /**
     * `gfx_ctx_destroy`: with an EGL display, releases the current binding and
     * context, the shared context and the surface that exist, then terminates
     * the display; on every path the five EGL handles end up NULL, and the
     * Wayland display `g_dpy` is kept.
     */
    method Destroy() returns (calls: seq<EglCall>)
      modifies this
      ensures eglCtx == 0 && eglHwCtx == 0 && eglSurf == 0 && eglDpy == 0 && config == 0
      ensures dpy == old(dpy) && api == old(api) && major == old(major) && minor == old(minor)
      ensures old(eglDpy) == 0 <==> calls == []
      ensures old(eglDpy) != 0 ==> calls[|calls| - 1] == Terminate(old(eglDpy))
      ensures DestroyContext(old(eglDpy), old(eglCtx)) in calls <==> old(eglDpy) != 0 && old(eglCtx) != 0
      ensures DestroySurface(old(eglDpy), old(eglSurf)) in calls <==> old(eglDpy) != 0 && old(eglSurf) != 0
      // the shared context is destroyed exactly when both it and the display exist
      ensures DestroyContext(old(eglDpy), old(eglHwCtx)) in calls <==> old(eglDpy) != 0 && old(eglHwCtx) != 0
      // the current binding is released first, and only when there is a context to destroy
      ensures MakeCurrentNone(old(eglDpy)) in calls <==> old(eglDpy) != 0 && old(eglCtx) != 0
      ensures old(eglDpy) != 0 && old(eglCtx) != 0 ==>
        calls[0] == MakeCurrentNone(old(eglDpy)) && calls[1] == DestroyContext(old(eglDpy), old(eglCtx))
      // the surface goes right before eglTerminate, the shared context right before that
      ensures old(eglDpy) != 0 && old(eglSurf) != 0 ==>
        calls[|calls| - 2] == DestroySurface(old(eglDpy), old(eglSurf))
      ensures old(eglDpy) != 0 && old(eglHwCtx) != 0 ==>
        calls[|calls| - (if old(eglSurf) != 0 then 3 else 2)] == DestroyContext(old(eglDpy), old(eglHwCtx))
      // one call per existing handle (two for the context), then eglTerminate
      ensures |calls| == if old(eglDpy) == 0 then 0 else
        1 + (if old(eglCtx) != 0 then 2 else 0) + (if old(eglHwCtx) != 0 then 1 else 0) + (if old(eglSurf) != 0 then 1 else 0)
    {
      calls := [];
      if eglDpy != 0 {
        if eglCtx != 0 {
          calls := calls + [MakeCurrentNone(eglDpy), DestroyContext(eglDpy, eglCtx)];
        }
        if eglHwCtx != 0 {
          calls := calls + [DestroyContext(eglDpy, eglHwCtx)];
        }
        if eglSurf != 0 {
          calls := calls + [DestroySurface(eglDpy, eglSurf)];
        }
        calls := calls + [Terminate(eglDpy)];
      }
      eglCtx := 0;
      eglHwCtx := 0;
      eglSurf := 0;
      eglDpy := 0;
      config := 0;
    }
  }

  // ---------------------------------------------------------------------------
  // gfx_ctx_check_window

  /** `gfx_ctx_get_video_size`: the driver always reports 640x480. */
  function VideoSize(): (r: (u32, u32))
    ensures r.0 == 640 && r.1 == 480
  {
    (640, 480)
  }

  /**
   * The resize detection of `gfx_ctx_check_window`: the reported size replaces
   * the incoming one and raises `resize` only when it differs; otherwise
   * `resize`, `width` and `height` come back as they went in. `quitFlag` is the
   * signal flag `g_quit`.
   */
  method CheckWindow(quitFlag: bool, resize: bool, width: u32, height: u32)
    returns (quitOut: bool, resizeOut: bool, widthOut: u32, heightOut: u32)
    ensures quitOut == quitFlag
    ensures (widthOut, heightOut) == VideoSize()
    ensures (width, height) != VideoSize() ==> resizeOut
    ensures (width, height) == VideoSize() ==> resizeOut == resize && widthOut == width && heightOut == height
  {
    resizeOut, widthOut, heightOut := resize, width, height;
    var newWidth, newHeight := width, height;
    newWidth, newHeight := VideoSize().0, VideoSize().1;
    if newWidth != width || newHeight != height {
      resizeOut := true;
      widthOut := newWidth;
      heightOut := newHeight;
    }
    quitOut := quitFlag;
  }
}
