/** The argument vectors the shim hands to the system when it starts a process: the
    engine invocation (root remaps, then environment, then the program's own
    arguments) and the sandbox invocation that runs the program directly. */
module Launch {

  const MapDirFlag := "--mapdir="
  const EnvFlag := "--env="

  /** `prefix + x` for each `x` of `xs`, in order. */
  function Flags(prefix: string, xs: seq<string>): (r: seq<string>)
    ensures |r| == |xs|
    ensures forall i :: 0 <= i < |xs| ==> r[i] == prefix + xs[i]
  {
    if xs == [] then [] else Flags(prefix, xs[..|xs| - 1]) + [prefix + xs[|xs| - 1]]
  }

  /** The arguments an engine is started with: one `--mapdir=` flag per remap, then one
      `--env=` flag per environment entry, then the program arguments. */
  function EngineArgv(remaps: seq<string>, env: seq<string>, args: seq<string>): (argv: seq<string>)
    ensures |argv| == |remaps| + |env| + |args|
    ensures argv[|remaps| + |env|..] == args
  {
    Flags(MapDirFlag, remaps) + Flags(EnvFlag, env) + args
  }

  /** The remap that presents `rootfs` as the guest's `/`. */
  function RootRemap(rootfs: string): string
  {
    "/:" + rootfs
  }

  /** The guest-mode arguments of wasm/process.go: the single root remap, then the
      environment, then the program arguments. */
  function GuestArgv(rootfs: string, env: seq<string>, args: seq<string>): seq<string>
  {
    EngineArgv([RootRemap(rootfs)], env, args)
  }

  /** Where each part of the engine arguments sits: every remap flag first, each in
      order, then every environment flag, then the program arguments unchanged. */
  lemma EngineArgvLayout(remaps: seq<string>, env: seq<string>, args: seq<string>)
    ensures var a := EngineArgv(remaps, env, args);
            && |a| == |remaps| + |env| + |args|
            && (forall i :: 0 <= i < |remaps| ==> a[i] == MapDirFlag + remaps[i])
            && (forall i :: 0 <= i < |env| ==> a[|remaps| + i] == EnvFlag + env[i])
            && a[|remaps| + |env|..] == args
  {
    var a := EngineArgv(remaps, env, args);
    var f := Flags(MapDirFlag, remaps) + Flags(EnvFlag, env);
    assert a == f + args;
  }

  /** `s` without `prefix`, when it starts with it. */
  function Strip(prefix: string, s: string): string
  {
    if |prefix| <= |s| && s[..|prefix|] == prefix then s[|prefix|..] else s
  }

  /** Each element of `flags` without `prefix`. */
  function Unflag(prefix: string, flags: seq<string>): (r: seq<string>)
    ensures |r| == |flags|
  {
    if flags == [] then [] else Unflag(prefix, flags[..|flags| - 1]) + [Strip(prefix, flags[|flags| - 1])]
  }

  lemma {:induction false} UnflagFlags(prefix: string, xs: seq<string>)
    ensures Unflag(prefix, Flags(prefix, xs)) == xs
    decreases |xs|
  {
    if xs != [] {
      var fs := Flags(prefix, xs);
      var n := |xs| - 1;
      assert fs[..n] == Flags(prefix, xs[..n]);
      UnflagFlags(prefix, xs[..n]);
      assert (prefix + xs[n])[..|prefix|] == prefix;
      assert (prefix + xs[n])[|prefix|..] == xs[n];
      assert xs == xs[..n] + [xs[n]];
    }
  }

  /** Recovers the remaps, environment and program arguments from engine arguments,
      given how many remaps and environment entries they hold. */
  function ParseEngineArgv(argv: seq<string>, remapCount: nat, envCount: nat): (seq<string>, seq<string>, seq<string>)
    requires remapCount + envCount <= |argv|
  {
    (Unflag(MapDirFlag, argv[..remapCount]),
     Unflag(EnvFlag, argv[remapCount..remapCount + envCount]),
     argv[remapCount + envCount..])
  }

  /** The engine arguments lose nothing: parsing them gives back the remaps, the
      environment and the program arguments they were built from. */
  lemma ParseEngineArgvInverts(remaps: seq<string>, env: seq<string>, args: seq<string>)
    ensures |remaps| + |env| <= |EngineArgv(remaps, env, args)|
    ensures ParseEngineArgv(EngineArgv(remaps, env, args), |remaps|, |env|) == (remaps, env, args)
  {
    var a := EngineArgv(remaps, env, args);
    var fr, fe := Flags(MapDirFlag, remaps), Flags(EnvFlag, env);
    assert a == fr + fe + args;
    assert a[..|remaps|] == fr;
    assert a[|remaps|..|remaps| + |env|] == fe;
    assert a[|remaps| + |env|..] == args;
    UnflagFlags(MapDirFlag, remaps);
    UnflagFlags(EnvFlag, env);
  }

  /** The guest-mode arguments are exactly the root remap flag, the environment flags
      in order, then the program arguments. */
  lemma GuestArgvExact(rootfs: string, env: seq<string>, args: seq<string>)
    ensures GuestArgv(rootfs, env, args) == ["--mapdir=/:" + rootfs] + Flags(EnvFlag, env) + args
  {
    assert Flags(MapDirFlag, [RootRemap(rootfs)]) == [MapDirFlag + RootRemap(rootfs)];
    assert MapDirFlag + RootRemap(rootfs) == "--mapdir=/:" + rootfs;
  }

  lemma GuestArgvExample()
    ensures GuestArgv("/r", ["A=1", "B=2"], ["/bin/app", "x"])
            == ["--mapdir=/:/r", "--env=A=1", "--env=B=2", "/bin/app", "x"]
  {
    GuestArgvExact("/r", ["A=1", "B=2"], ["/bin/app", "x"]);
    var fe := Flags(EnvFlag, ["A=1", "B=2"]);
    assert EnvFlag + "A=1" == "--env=A=1" && EnvFlag + "B=2" == "--env=B=2";
    assert fe[0] == "--env=A=1" && fe[1] == "--env=B=2";
    assert "--mapdir=/:" + "/r" == "--mapdir=/:/r";
    assert fe == ["--env=A=1", "--env=B=2"];
  }

  /** Builds the engine arguments the way both Start methods do, appending to a list. */
  method BuildEngineArgv(remaps: seq<string>, env: seq<string>, args: seq<string>) returns (argv: seq<string>)
    ensures argv == EngineArgv(remaps, env, args)
  {
    argv := [];
    var i := 0;
    while i < |remaps|
      invariant 0 <= i <= |remaps|
      invariant argv == Flags(MapDirFlag, remaps[..i])
    {
      assert remaps[..i + 1][..i] == remaps[..i];
      argv := argv + [MapDirFlag + remaps[i]];
      i := i + 1;
    }
    assert remaps[..i] == remaps;
    var head := argv;
    var j := 0;
    while j < |env|
      invariant 0 <= j <= |env|
      invariant argv == head + Flags(EnvFlag, env[..j])
    {
      assert env[..j + 1][..j] == env[..j];
      argv := argv + [EnvFlag + env[j]];
      j := j + 1;
    }
    assert env[..j] == env;
    argv := argv + args;
  }

  /** The sandbox invocation runs the first program argument with the remaining ones
      and no engine in between. */
  function SandboxLaunch(args: seq<string>): (r: (string, seq<string>))
    requires |args| > 0
    ensures [r.0] + r.1 == args
  {
    (args[0], args[1..])
  }
}
