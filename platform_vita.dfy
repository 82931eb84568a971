/**
 * The stateable logic of the PS Vita frontend driver
 * (frontend/drivers/platform_vita.c): the power-state decision, the packing
 * of the argument block handed to `exitspawn_kernel`, and the two static
 * flags that gate the respawn. SDK queries (`scePower*`), `retroarch_path`
 * and the content path `global->path.fullpath` are inputs; build options
 * (IS_SALAMANDER, HAVE_KERNEL_PRX) are a parameter.
 */
module PlatformVita {
  import opened Base

  // ---------------------------------------------------------------------------
  // frontend_vita_get_powerstate

  /** `enum frontend_powerstate`. */
  datatype PowerState = PowerNone | NoSource | Charging | Charged | OnPowerSource

  /** The return value and the two out-parameters of `frontend_vita_get_powerstate`. */
  datatype PowerReport = PowerReport(state: PowerState, seconds: int, percent: int)

  /**
   * `frontend_vita_get_powerstate`, given what the SDK reports: whether power
   * is online and the battery is charging (C truth values), the battery
   * percentage and the remaining life in minutes.
   */
  function GetPowerState(plugged: int, charging: int, lifePercent: int, lifeMinutes: int): (r: PowerReport)
    // charging wins whatever the plug says
    ensures charging != 0 ==> r.state == Charging
    ensures charging == 0 && plugged != 0 ==> r.state == Charged
    ensures charging == 0 && plugged == 0 ==> r.state == OnPowerSource
    // the driver never answers "no information" or "no battery"
    ensures r.state != PowerNone && r.state != NoSource
    ensures r.seconds == lifeMinutes * 60 && r.percent == lifePercent
  {
    var state :=
      if charging != 0 then Charging
      else if plugged != 0 then Charged
      else OnPowerSource;
    PowerReport(state, lifeMinutes * 60, lifePercent)
  }

  // ---------------------------------------------------------------------------
  // frontend_vita_exec: the argument block

  /** The size of `argp`. */
  const ARGP_SIZE: nat := 512

  /** A C string holds no NUL before its end. */
  predicate IsCString(s: string)
  {
    '\0' !in s
  }

  /** At most the first `n` characters of `s`, as a bounded copy keeps them. */
  function Prefix(s: string, n: nat): (r: string)
    ensures |r| == Min(|s|, n) && r == s[..|r|]
  {
    if |s| <= n then s else s[..n]
  }

  /**
   * The first `args` bytes of `argp` that `frontend_vita_exec` hands over:
   * `retroarch_path` (cut to fit) and a NUL, then, when a game is to be
   * loaded, its path is non-empty and room is left, the path (cut to fit)
   * and a NUL.
   */
  function ArgBlock(retroarchPath: string, fullpath: string, loadGame: bool): (b: seq<char>)
    ensures |b| <= ARGP_SIZE
    ensures Prefix(retroarchPath, ARGP_SIZE - 1) + ['\0'] <= b
  {
    var head := Prefix(retroarchPath, ARGP_SIZE - 1) + ['\0'];
    if loadGame && |fullpath| > 0 && |head| < ARGP_SIZE then
      head + Prefix(fullpath, ARGP_SIZE - |head| - 1) + ['\0']
    else
      head
  }

  /**
   * When both paths fit, the block is `retroarch_path` NUL, followed by the
   * content path and a NUL exactly when a non-empty game is to be loaded,
   * and `args` is the sum of the lengths plus one per NUL.
   */
  lemma ArgBlockLayout(retroarchPath: string, fullpath: string, loadGame: bool)
    requires |retroarchPath| + 1 < ARGP_SIZE
    ensures loadGame && |fullpath| > 0 && |retroarchPath| + |fullpath| + 2 <= ARGP_SIZE ==>
      ArgBlock(retroarchPath, fullpath, loadGame) == retroarchPath + ['\0'] + fullpath + ['\0']
    ensures !(loadGame && |fullpath| > 0) ==>
      ArgBlock(retroarchPath, fullpath, loadGame) == retroarchPath + ['\0']
  {
  }

  /** The position of the first NUL in `s`. */
  function NulIndex(s: seq<char>): (k: nat)
    requires '\0' in s
    ensures k < |s| && s[k] == '\0' && '\0' !in s[..k]
  {
    if s[0] == '\0' then 0
    else
      var k := NulIndex(s[1..]);
      assert s[..k + 1] == [s[0]] + s[1..][..k];
      k + 1
  }

  /** The NUL-terminated strings of a block, in order, as the spawned process reads its arguments. */
  function Fields(s: seq<char>): seq<string>
    decreases |s|
  {
    if '\0' !in s then []
    else
      var k := NulIndex(s);
      [s[..k]] + Fields(s[k + 1..])
  }

  lemma FieldsCons(a: string, rest: seq<char>)
    requires IsCString(a)
    ensures Fields(a + ['\0'] + rest) == [a] + Fields(rest)
  {
    var s := a + ['\0'] + rest;
    assert s[..|a|] == a && s[|a|] == '\0';
    assert NulIndex(s) == |a|;
    assert s[|a| + 1..] == rest;
  }

  /** A block of one terminated string reads back as that string. */
  lemma FieldsOne(a: string)
    requires IsCString(a)
    ensures Fields(a + ['\0']) == [a]
  {
    FieldsCons(a, []);
    assert a + ['\0'] + [] == a + ['\0'];
    assert '\0' !in [];
  }

  /** Reading the block back gives the arguments that were packed: packing and reading are inverse. */
  lemma ArgBlockRoundTrip(retroarchPath: string, fullpath: string, loadGame: bool)
    requires IsCString(retroarchPath) && IsCString(fullpath)
    requires |retroarchPath| + |fullpath| + 2 <= ARGP_SIZE
    ensures Fields(ArgBlock(retroarchPath, fullpath, loadGame)) ==
            [retroarchPath] + (if loadGame && |fullpath| > 0 then [fullpath] else [])
  {
    ArgBlockLayout(retroarchPath, fullpath, loadGame);
    if loadGame && |fullpath| > 0 {
      var tail := fullpath + ['\0'];
      assert retroarchPath + ['\0'] + fullpath + ['\0'] == retroarchPath + ['\0'] + tail;
      FieldsCons(retroarchPath, tail);
      FieldsOne(fullpath);
    } else {
      FieldsOne(retroarchPath);
    }
  }

  /**
   * Where `frontend_vita_exec` as written stores the NUL before the content
   * path (`argp[args]`), when it loads a game: one past the copied
   * `retroarch_path` and its terminator.
   */
  function GameWriteIndexAsWritten(retroarchPath: string): nat
  {
    Min(|retroarchPath|, ARGP_SIZE - 1) + 1
  }

  /**
   * The as-written store `argp[args] = '\0'` falls outside the 512-byte
   * buffer exactly when `retroarch_path` has 511 characters or more, so that
   * it and its NUL fill `argp`; `args` then equals the whole packed head.
   * A 511-character path of `a`s is one such input.
   */
  lemma AsWrittenGameWriteOverruns(retroarchPath: string, fullpath: string)
    ensures GameWriteIndexAsWritten(retroarchPath) <= ARGP_SIZE
    ensures GameWriteIndexAsWritten(retroarchPath) == ARGP_SIZE <==> |retroarchPath| >= ARGP_SIZE - 1
    ensures GameWriteIndexAsWritten(retroarchPath) == |ArgBlock(retroarchPath, fullpath, false)|
    ensures var rp := seq(511, _ => 'a'); IsCString(rp) && GameWriteIndexAsWritten(rp) == ARGP_SIZE
  {
    var rp := seq(511, _ => 'a');
    assert forall i :: 0 <= i < |rp| ==> rp[i] == 'a';
  }

  /**
   * `strlcpy(dst + off, src, size)`: copies as much of `src` as fits in
   * `size - 1` bytes and terminates it; nothing else in `dst` changes.
   */
  method StrlCopy(dst: array<char>, off: nat, src: string, size: nat) returns (n: nat)
    requires 1 <= size && off + size <= dst.Length && IsCString(src)
    modifies dst
    ensures n == Min(|src|, size - 1)
    ensures dst[off..off + n] == src[..n] && dst[off + n] == '\0'
    ensures forall i :: 0 <= i < dst.Length && !(off <= i <= off + n) ==> dst[i] == old(dst[i])
  {
    n := 0;
    while n < |src| && n < size - 1
      invariant n <= |src| && n <= size - 1
      invariant dst[off..off + n] == src[..n]
      invariant forall i :: 0 <= i < dst.Length && !(off <= i < off + n) ==> dst[i] == old(dst[i])
    {
      dst[off + n] := src[n];
      n := n + 1;
    }
    dst[off + n] := '\0';
  }

  /** `strlen(a + off)`: the distance to the first NUL at or after `off`. */
  method StrLen(a: array<char>, off: nat) returns (n: nat)
    requires off <= a.Length && '\0' in a[off..]
    ensures off + n < a.Length && a[off + n] == '\0'
    ensures forall i :: off <= i < off + n ==> a[i] != '\0'
  {
    n := 0;
    while a[off + n] != '\0'
      invariant off + n < a.Length
      invariant forall i :: off <= i < off + n ==> a[i] != '\0'
      invariant '\0' in a[off + n..]
      decreases a.Length - off - n
    {
      assert a[off + n..] == [a[off + n]] + a[off + n + 1..];
      n := n + 1;
    }
  }

  /**
   * The buffer work of `frontend_vita_exec`: `argp` starts zeroed,
   * `retroarch_path` is copied in, `args` is its length plus one, and in a
   * build that loads games (`withGame`) the content path follows when it is
   * wanted, non-empty and there is room left.
   */
  method PackArgs(retroarchPath: string, fullpath: string, shouldLoadGame: bool, withGame: bool)
    returns (argp: array<char>, args: nat)
    requires IsCString(retroarchPath) && IsCString(fullpath)
    ensures argp.Length == ARGP_SIZE && args <= ARGP_SIZE
    ensures argp[..args] == ArgBlock(retroarchPath, fullpath, shouldLoadGame && withGame)
    ensures forall i :: args <= i < ARGP_SIZE ==> argp[i] == '\0'
    // the head ends where the code as written stores the game's first byte,
    // and the game part is added exactly when that store is inside `argp`
    ensures args >= GameWriteIndexAsWritten(retroarchPath)
    ensures args > GameWriteIndexAsWritten(retroarchPath) <==>
      shouldLoadGame && withGame && |fullpath| > 0 && GameWriteIndexAsWritten(retroarchPath) < ARGP_SIZE
  {
    argp := new char[ARGP_SIZE](_ => '\0');
    args := PackPath(argp, 0, retroarchPath);
    ghost var store := GameWriteIndexAsWritten(retroarchPath);
    assert args == store;
    assert argp[..args] == Prefix(retroarchPath, ARGP_SIZE - 1) + ['\0'];
    if withGame && shouldLoadGame && |fullpath| > 0 && args < ARGP_SIZE {
      ghost var head := argp[..args];
      argp[args] := '\0';
      // argp + args now holds the empty string, so strlcat into it copies like strlcpy.
      var added := PackPath(argp, args, fullpath);
      assert argp[..args] == head;
      assert argp[..args + added] == head + argp[args..args + added];
      assert added >= 1;
      args := args + added;
    }
  }

  /**
   * One `strlcpy(argp + off, src, sizeof(argp) - off)` followed by
   * `strlen(argp + off) + 1`: the number of bytes the copied string and its
   * NUL take, which are all that changes in `argp`.
   */
  method PackPath(argp: array<char>, off: nat, src: string) returns (used: nat)
    requires argp.Length == ARGP_SIZE && off < ARGP_SIZE && IsCString(src)
    modifies argp
    ensures used == Min(|src|, ARGP_SIZE - off - 1) + 1
    ensures argp[off..off + used] == Prefix(src, ARGP_SIZE - off - 1) + ['\0']
    ensures forall i :: 0 <= i < ARGP_SIZE && !(off <= i < off + used) ==> argp[i] == old(argp[i])
  {
    var n := StrlCopy(argp, off, src, ARGP_SIZE - off);
    assert argp[off..][n] == '\0';
    var len := StrLen(argp, off);
    assert forall k :: off <= k < off + n ==> argp[k] == src[k - off];
    FirstNul(argp[..], off, n, len);
    used := len + 1;
    assert argp[off..off + used] == argp[off..off + n] + [argp[off + n]];
  }

  /** A string has one end: two candidate positions of its first NUL agree. */
  lemma FirstNul(s: seq<char>, off: nat, n: nat, len: nat)
    requires off + n < |s| && off + len < |s|
    requires s[off + n] == '\0' && s[off + len] == '\0'
    requires forall k :: off <= k < off + n ==> s[k] != '\0'
    requires forall k :: off <= k < off + len ==> s[k] != '\0'
    ensures n == len
  {
  }

  /** Build options of the driver. */
  datatype Build = Build(isSalamander: bool, haveKernelPrx: bool)

  /** A call to `exitspawn_kernel(path, args, argp)`, with the `args` bytes it is given. */
  datatype SpawnCall = SpawnCall(path: string, argBlock: seq<char>)

  /**
   * `frontend_vita_exec`: without kernel PRX support (and outside Salamander)
   * it does nothing; otherwise it spawns `path` with the packed block. The
   * content path is only considered outside Salamander.
   */
  method Exec(build: Build, path: string, retroarchPath: string, fullpath: string, shouldLoadGame: bool)
    returns (call: Option<SpawnCall>)
    requires IsCString(retroarchPath) && IsCString(fullpath)
    ensures call.Some? <==> build.haveKernelPrx || build.isSalamander
    ensures call.Some? ==>
      call.value == SpawnCall(path, ArgBlock(retroarchPath, fullpath, shouldLoadGame && !build.isSalamander))
  {
    if !(build.haveKernelPrx || build.isSalamander) {
      return None;
    }
    var argp, args := PackArgs(retroarchPath, fullpath, shouldLoadGame, !build.isSalamander);
    return Some(SpawnCall(path, argp[..args]));
  }

  // ---------------------------------------------------------------------------
  // frontend_vita_set_fork / frontend_vita_exitspawn

  /** The static flags `exit_spawn` and `exitspawn_start_game`. */
  class ForkState {
    var exitSpawn: bool
    var exitspawnStartGame: bool

    constructor()
      ensures !exitSpawn && !exitspawnStartGame
    {
      exitSpawn := false;
      exitspawnStartGame := false;
    }

    /** `frontend_vita_set_fork`: always arms the respawn, whatever `exit` says, and records `startGame`. */
    method SetFork(exit: bool, startGame: bool)
      modifies this
      ensures exitSpawn && exitspawnStartGame == startGame
    {
      exitSpawn := true;
      exitspawnStartGame := startGame;
    }

    /**
     * `frontend_vita_exitspawn`: outside Salamander nothing is spawned until
     * the respawn is armed, and the recorded start-game flag becomes
     * `should_load_game`; Salamander always execs, without a game.
     */
    method ExitSpawn(build: Build, s: string, retroarchPath: string, fullpath: string)
      returns (call: Option<SpawnCall>)
      requires IsCString(retroarchPath) && IsCString(fullpath)
      ensures !build.isSalamander && !exitSpawn ==> call.None?
      ensures call.Some? <==> (build.isSalamander || exitSpawn) && (build.haveKernelPrx || build.isSalamander)
      ensures call.Some? ==>
        call.value == SpawnCall(s, ArgBlock(retroarchPath, fullpath, !build.isSalamander && exitspawnStartGame))
    {
      var shouldLoadGame := false;
      if !build.isSalamander {
        shouldLoadGame := exitspawnStartGame;
        if !exitSpawn {
          return None;
        }
      }
      call := Exec(build, s, retroarchPath, fullpath, shouldLoadGame);
    }
  }
}
