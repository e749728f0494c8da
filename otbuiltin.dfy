/**
 * The Go side of package otbuiltin: the `Repo` handle, opening a repository,
 * resolving a revision, building the options of a pull, enabling tombstone
 * commits, and turning a `GError` into a Go error.
 */
module OtBuiltin {
  import opened Wrappers
  import opened GLib
  import opened Ostree

  // ---------------------------------------------------------------------------
  // gboolean and C strings

  /** `gobool`: any non-zero `gboolean` is true, not only TRUE. */
  function GoBool(b: GBoolean): (r: bool)
    ensures r <==> b != FALSE
    ensures b == TRUE ==> r
  {
    b != FALSE
  }

  /** `glib.GBool`: the `gboolean` handed to C for a Go bool. */
  function GBool(b: bool): (g: GBoolean)
    ensures g == TRUE || g == FALSE
  {
    if b then TRUE else FALSE
  }

  /** Converting a Go bool to C and back gives the bool back. */
  lemma GoBoolGBool(b: bool)
    ensures GoBool(GBool(b)) == b
  {
  }

  /**
   * `C.CString` as C code reads it: a Go string may hold NUL bytes, and C stops
   * at the first one, so what C sees is the longest NUL-free prefix.
   */
  function CString(s: string): (c: string)
    ensures c <= s
    ensures '\0' !in c
    ensures |c| < |s| ==> s[|c|] == '\0'
  {
    if s == [] || s[0] == '\0' then "" else [s[0]] + CString(s[1..])
  }

  /** A Go string without NUL bytes reaches C whole. */
  lemma CStringWithoutNul(s: string)
    requires '\0' !in s
    ensures CString(s) == s
  {
  }

  /** Each string of a slice as C sees it. */
  function CStrings(ss: seq<string>): (cs: seq<string>)
    ensures |cs| == |ss|
    ensures forall k :: 0 <= k < |ss| ==> cs[k] == CString(ss[k])
  {
    seq(|ss|, k requires 0 <= k < |ss| => CString(ss[k]))
  }

  /** `C.GoString`: a NULL `char *` reads as the empty string. */
  function GoString(s: Option<string>): (r: string)
    ensures s.None? ==> r == ""
    ensures s.Some? ==> r == s.value
  {
    if s.Some? then s.value else ""
  }

  // ---------------------------------------------------------------------------
  // Errors

  /** A non-nil Go `error`: one made by `errors.New`, or one converted from a `GError`. */
  datatype Error = Message(text: string) | Converted(gerror: GError)

  const EmptyPathError := Message("empty path")
  const NotInitializedError := Message("repo not initialized")
  const NilGErrorError := Message("nil GError")

  /**
   * `generateError`: never nil. A NULL `GError` becomes "nil GError"; any other
   * is converted, keeping the `GError` it came from.
   */
  function GenerateError(cerr: Option<GError>): (e: Error)
    ensures cerr.None? <==> e == NilGErrorError
    ensures cerr.Some? ==> e.Converted? && e.gerror == cerr.value
    ensures e != EmptyPathError && e != NotInitializedError
  {
    match cerr
    case None => NilGErrorError
    case Some(g) => Converted(g)
  }

  /** The `if !gobool(r) { return generateError(cerr) }` step after a native call. */
  function CallError(out: Outcome): (err: Option<Error>)
    ensures err.None? <==> out.ret != FALSE
    ensures err.Some? ==> err.value == GenerateError(out.error)
  {
    if GoBool(out.ret) then None else Some(GenerateError(out.error))
  }

  // ---------------------------------------------------------------------------
  // The repository handle

  /** `Repo`: a Go struct around a C pointer that may be NULL. A nil `*Repo` is `null`. */
  class Repo {
    const ptr: NativeRepo?

    constructor (p: NativeRepo?)
      ensures ptr == p
    {
      ptr := p;
    }
  }

  /** `isInitialized`: false exactly for a nil receiver or a NULL pointer. */
  function IsInitialized(r: Repo?): (b: bool)
    ensures b <==> r != null && r.ptr != null
  {
    r != null && r.ptr != null
  }

  /** `native`: the C pointer of an initialized handle, NULL otherwise. */
  function Native(r: Repo?): (p: NativeRepo?)
    ensures p == null <==> !IsInitialized(r)
    ensures p != null ==> r != null && p == r.ptr
  {
    if !IsInitialized(r) then null else r.ptr
  }

  /** `repoFromNative`: nil for NULL, otherwise a new handle whose `native()` is the pointer given. */
  method RepoFromNative(p: NativeRepo?) returns (r: Repo?)
    ensures p == null ==> r == null
    ensures p != null ==> r != null && fresh(r) && IsInitialized(r) && Native(r) == p
  {
    if p == null {
      return null;
    }
    r := new Repo(p);
  }

  /**
   * `OpenRepo`: an empty Go path is refused before anything native happens.
   * Otherwise a native repository is created for the path as C reads it and then
   * opened. Since the object being opened is new, the outcome of `ostree_repo_open`
   * is taken as a function of that path. A failed open yields nil and the converted
   * error, a successful one a new initialized handle on the configuration the open
   * loaded.
   */
  method OpenRepo(path: string, open: string -> OpenOutcome) returns (repo: Repo?, err: Option<Error>)
    ensures (repo == null) <==> err.Some?
    ensures path == "" ==> repo == null && err == Some(EmptyPathError)
    ensures path != "" && !GoBool(open(CString(path)).ret) ==> err == Some(GenerateError(open(CString(path)).error))
    ensures path != "" && GoBool(open(CString(path)).ret) ==>
      && repo != null && fresh(repo) && fresh(repo.ptr)
      && IsInitialized(repo)
      && repo.ptr.config == open(CString(path)).config && repo.ptr.configWrites == 0
  {
    if path == "" {
      return null, Some(EmptyPathError);
    }
    var crepo := new NativeRepo();
    repo := RepoFromNative(crepo);
    var out := open(CString(path));
    if !GoBool(out.ret) {
      return null, Some(GenerateError(out.error));
    }
    crepo.config := out.config;
    err := None;
  }

  // ---------------------------------------------------------------------------
  // Resolving a revision

  /**
   * `ResolveRev`: the handle's pointer goes to the native call unchecked, with
   * the refspec as C reads it. On
   * failure the result is "" with the converted error; on success the resolved
   * string (empty when the native call set no revision) and no error.
   */
  function ResolveRev(repo: Repo?, refspec: string, allowNoent: bool,
                      resolve: (NativeRepo?, string, GBoolean) -> ResolveOutcome): (r: (string, Option<Error>))
    ensures var out := resolve(Native(repo), CString(refspec), GBool(allowNoent));
      && (r.1.None? <==> GoBool(out.ret))
      && (r.1.Some? ==> r.0 == "" && r.1.value == GenerateError(out.error))
      && (r.1.None? ==> r.0 == GoString(out.rev))
  {
    var out := resolve(Native(repo), CString(refspec), GBool(allowNoent));
    if !GoBool(out.ret) then ("", Some(GenerateError(out.error)))
    else (GoString(out.rev), None)
  }

  /** An absent revision that the engine accepted (no `out_rev`) comes back as "" with no error. */
  lemma ResolveRevMissingAllowed(repo: Repo?, refspec: string, allowNoent: bool,
                                 resolve: (NativeRepo?, string, GBoolean) -> ResolveOutcome)
    requires resolve(Native(repo), CString(refspec), GBool(allowNoent)).ret != FALSE
    requires resolve(Native(repo), CString(refspec), GBool(allowNoent)).rev.None?
    ensures ResolveRev(repo, refspec, allowNoent, resolve) == ("", None)
  {
  }

  /**
   * `ResolveRev` has no initialization guard of its own: it never reports
   * "repo not initialized", whatever the handle.
   */
  lemma ResolveRevHasNoGuard(repo: Repo?, refspec: string, allowNoent: bool,
                             resolve: (NativeRepo?, string, GBoolean) -> ResolveOutcome)
    ensures ResolveRev(repo, refspec, allowNoent, resolve).1 != Some(NotInitializedError)
  {
  }

  // ---------------------------------------------------------------------------
  // Pull options

  /** `PullOptions`; the zero value `PullOptions{}` is `PullOptions("", [])`. */
  datatype PullOptions = PullOptions(overrideRemoteName: string, refs: seq<string>)

  const OverrideRemoteNameKey := "override-remote-name"
  const RefsKey := "refs"

  /**
   * The `a{sv}` dictionary `PullWithOptions` builds: an `override-remote-name`
   * entry when a name is given, then a `refs` entry when refs are given. The
   * tests are on the Go values; the values stored are the strings as C reads them.
   */
  function OptionsBag(o: PullOptions): (bag: VariantDict)
    ensures |bag| <= 2
    ensures Lookup(bag, OverrideRemoteNameKey) ==
      if o.overrideRemoteName != "" then Some(VString(CString(o.overrideRemoteName))) else None
    ensures Lookup(bag, RefsKey) == if |o.refs| != 0 then Some(VStrv(CStrings(o.refs))) else None
    ensures forall e :: e in bag ==> e.0 == OverrideRemoteNameKey || e.0 == RefsKey
    ensures |bag| == 2 ==> bag[0].0 == OverrideRemoteNameKey && bag[1].0 == RefsKey
    ensures o == PullOptions("", []) ==> bag == []
  {
    (if o.overrideRemoteName != "" then [(OverrideRemoteNameKey, VString(CString(o.overrideRemoteName)))] else [])
    + (if |o.refs| != 0 then [(RefsKey, VStrv(CStrings(o.refs)))] else [])
  }

  /** How the options are read back out of a dictionary: an absent entry gives the zero value. */
  function ParsePullOptions(bag: VariantDict): (o: PullOptions)
    ensures Lookup(bag, OverrideRemoteNameKey).None? ==> o.overrideRemoteName == ""
    ensures Lookup(bag, RefsKey).None? ==> o.refs == []
  {
    var name := match Lookup(bag, OverrideRemoteNameKey)
      case Some(VString(s)) => s
      case _ => "";
    var refs := match Lookup(bag, RefsKey)
      case Some(VStrv(a)) => a
      case _ => [];
    PullOptions(name, refs)
  }

  /** Reading the dictionary back gives the options as C reads them. */
  lemma OptionsBagReadBack(o: PullOptions)
    ensures ParsePullOptions(OptionsBag(o)) == PullOptions(CString(o.overrideRemoteName), CStrings(o.refs))
  {
  }

  /** Options whose strings hold no NUL byte come back whole: the dictionary loses nothing. */
  lemma OptionsBagRoundTrip(o: PullOptions)
    requires '\0' !in o.overrideRemoteName
    requires forall k :: 0 <= k < |o.refs| ==> '\0' !in o.refs[k]
    ensures ParsePullOptions(OptionsBag(o)) == o
  {
    OptionsBagReadBack(o);
    CStringWithoutNul(o.overrideRemoteName);
    forall k | 0 <= k < |o.refs|
      ensures CStrings(o.refs)[k] == o.refs[k]
    {
      CStringWithoutNul(o.refs[k]);
    }
  }

  /** A name holding a NUL byte is cut there: the entry is present, with the part before the NUL. */
  lemma OptionsBagCutsAtNul()
    ensures OptionsBag(PullOptions("a\0b", [])) == [(OverrideRemoteNameKey, VString("a"))]
    ensures OptionsBag(PullOptions("\0", [])) == [(OverrideRemoteNameKey, VString(""))]
  {
    assert CString("a\0b") == "a" by {
      assert "a\0b"[1..] == "\0b";
    }
  }

  /**
   * The builder part of `PullWithOptions`: entries are added one by one and the
   * refs are copied into a C array element by element before becoming a `strv`.
   */
  method BuildPullOptions(options: PullOptions) returns (bag: VariantDict)
    ensures bag == OptionsBag(options)
  {
    bag := [];
    if options.overrideRemoteName != "" {
      bag := bag + [(OverrideRemoteNameKey, VString(CString(options.overrideRemoteName)))];
    }
    if |options.refs| != 0 {
      var crefs := new string[|options.refs|];
      for i := 0 to |options.refs|
        invariant crefs[..i] == CStrings(options.refs)[..i]
      {
        crefs[i] := CString(options.refs[i]);
      }
      assert crefs[..] == CStrings(options.refs) by {
        assert crefs[..] == crefs[..|options.refs|];
      }
      bag := bag + [(RefsKey, VStrv(crefs[..]))];
    }
  }

  /**
   * `PullWithOptions`: builds the options dictionary and hands the handle's
   * pointer, unchecked, to the native pull with the remote name as C reads it; a
   * failed pull gives the converted error.
   */
  method PullWithOptions(repo: Repo?, remoteName: string, options: PullOptions,
                         pull: (NativeRepo?, string, VariantDict) -> Outcome) returns (err: Option<Error>)
    ensures err == CallError(pull(Native(repo), CString(remoteName), OptionsBag(options)))
    ensures err != Some(NotInitializedError)
  {
    var coptions := BuildPullOptions(options);
    var out := pull(Native(repo), CString(remoteName), coptions);
    err := CallError(out);
  }

  // ---------------------------------------------------------------------------
  // Tombstone commits

  const CoreGroup := "core"
  const TombstoneCommitsKey := "tombstone-commits"

  /** Whether `core.tombstone-commits` reads as true. */
  function TombstoneCommitsEnabled(kf: KeyFile): (b: bool)
    ensures b <==> (CoreGroup, TombstoneCommitsKey) in kf && kf[(CoreGroup, TombstoneCommitsKey)]
  {
    GoBool(KeyFileGetBoolean(kf, CoreGroup, TombstoneCommitsKey))
  }

  /**
   * The key file after `enableTombstoneCommits`: unchanged if the key already
   * reads true, otherwise the key set to true and every other key kept.
   */
  function EnableTombstoneCommitsIn(kf: KeyFile): (r: KeyFile)
    ensures TombstoneCommitsEnabled(r)
    ensures r - {(CoreGroup, TombstoneCommitsKey)} == kf - {(CoreGroup, TombstoneCommitsKey)}
    ensures TombstoneCommitsEnabled(kf) ==> r == kf
  {
    if TombstoneCommitsEnabled(kf) then kf
    else KeyFileSetBoolean(kf, CoreGroup, TombstoneCommitsKey, TRUE)
  }

  /** Writes `enableTombstoneCommits` performs on a repository whose key file is `kf`. */
  function TombstoneWrites(kf: KeyFile): (n: nat)
    ensures n == 0 <==> TombstoneCommitsEnabled(kf)
    ensures n <= 1
  {
    if TombstoneCommitsEnabled(kf) then 0 else 1
  }

  /** Enabling twice is enabling once, and the second time needs no write. */
  lemma EnableTombstoneCommitsInIdempotent(kf: KeyFile)
    ensures EnableTombstoneCommitsIn(EnableTombstoneCommitsIn(kf)) == EnableTombstoneCommitsIn(kf)
    ensures TombstoneWrites(EnableTombstoneCommitsIn(kf)) == 0
  {
  }

  /**
   * `enableTombstoneCommits`: refuses an uninitialized handle. Otherwise reads the
   * key; if it is not already true, sets it in the repository's own key file and
   * writes the configuration once, returning the converted error if that write fails.
   */
  method EnableTombstoneCommits(r: Repo?, write: (NativeRepo, KeyFile) -> Outcome) returns (err: Option<Error>)
    modifies Native(r)
    ensures !IsInitialized(r) ==> err == Some(NotInitializedError)
    ensures IsInitialized(r) ==>
      && r.ptr.config == EnableTombstoneCommitsIn(old(r.ptr.config))
      && r.ptr.configWrites == old(r.ptr.configWrites) + TombstoneWrites(old(r.ptr.config))
      && err == (if TombstoneCommitsEnabled(old(r.ptr.config)) then None
                 else CallError(write(r.ptr, r.ptr.config)))
  {
    if !IsInitialized(r) {
      return Some(NotInitializedError);
    }
    var crepo := Native(r);
    var tombstoneCommits := GoBool(KeyFileGetBoolean(crepo.config, CoreGroup, TombstoneCommitsKey));
    if !tombstoneCommits {
      crepo.config := KeyFileSetBoolean(crepo.config, CoreGroup, TombstoneCommitsKey, TRUE);
      var out := crepo.WriteConfig(crepo.config, write);
      if !GoBool(out.ret) {
        return Some(GenerateError(out.error));
      }
    }
    return None;
  }

  /**
   * Calling `enableTombstoneCommits` twice: the second call finds the key already
   * set in memory, so it succeeds without writing, even when the first call's
   * write failed.
   */
  method EnableTombstoneCommitsTwice(r: Repo, write: (NativeRepo, KeyFile) -> Outcome)
    returns (first: Option<Error>, second: Option<Error>)
    requires IsInitialized(r)
    modifies r.ptr
    ensures second == None
    ensures r.ptr.config == EnableTombstoneCommitsIn(old(r.ptr.config))
    ensures r.ptr.configWrites == old(r.ptr.configWrites) + TombstoneWrites(old(r.ptr.config))
  {
    first := EnableTombstoneCommits(r, write);
    second := EnableTombstoneCommits(r, write);
  }
}
