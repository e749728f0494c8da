# ostree-go `otbuiltin`: a verified model of the Go binding layer

Package `otbuiltin` is a thin cgo binding over libostree. Almost all of its work is done
by the native library. This project models the Go-side logic that is left once every
native call is treated as an opaque outcome:

- **The `Repo` handle.** A Go `*Repo` is a nullable reference to a `Repo` object. That
  object holds a nullable pointer to the native `OstreeRepo`, which is the `NativeRepo`
  class here. `isInitialized`, `native` and `repoFromNative` turn null-ness into validity.
  The native object owns the repository's in-memory key file and counts configuration
  writes. Two handles that wrap the same pointer therefore share one configuration.
- **`OpenRepo`.** An empty path is refused before anything native happens. Otherwise a
  native repository is created and opened. The outcome of the open is a parameter.
- **`ResolveRev`.** Returns `""` plus the converted error when the native call fails.
  Otherwise it returns the resolved string, where a NULL `out_rev` reads as `""`.
- **`PullWithOptions`.** `PullOptions` becomes an `a{sv}` dictionary, modelled as a
  sequence of `(key, variant)` entries built by conditional appends. The refs are copied
  into a C array in a loop. The pull itself is an uninterpreted function.
- **`enableTombstoneCommits`.** Reads `core.tombstone-commits` (an absent key reads as
  false). Sets the key and writes the configuration only when the key is not already true.
- **`generateError` and `gobool`.** A NULL `GError` becomes the "nil GError" error, never
  nil. Any non-zero `gboolean` is true.

Native calls are passed in as functions. `ostree_repo_resolve_rev` and
`ostree_repo_pull_with_options` receive the repository pointer the Go code actually passes.
This shows that `ResolveRev` and `PullWithOptions` have no initialization guard: on
an uninitialized handle they hand NULL to the engine. Only `enableTombstoneCommits` checks
initialization. `ostree_repo_open` is called on a repository object that was just created,
so its outcome is taken as a function of the path that object was created for.

Every string handed to C goes through `C.CString`. Go strings may hold NUL bytes, and C
reads only up to the first one. The model states what C sees: the Go string cut at its
first NUL. The empty-path test and the tests on the pull options look at the Go values,
so a name `"\x00"` still produces an `override-remote-name` entry, and that entry's value
is `""`.

The model assumes that `ostree_repo_get_config` returns the repository's own key file, and
that `ostree_repo_write_config` leaves that key file as it is whether it succeeds or fails.
Under that assumption, `g_key_file_set_boolean` changes the repository's own key file before
`ostree_repo_write_config` is called. So after a failed write, the in-memory key already
reads true, and a second call returns nil without writing anything. This is stated as
`EnableTombstoneCommitsTwice`.

Files: `wrappers.dfy` (Option), `glib.dfy` (gboolean, GError, key-file booleans, the
`a{sv}` dictionary), `ostree.dfy` (the native repository object and the outcomes of native
calls), `otbuiltin.dfy` (the package itself).

## Model

| member | source | states |
|---|---|---|
| `OtBuiltin.GoBool` | pkg/otbuiltin/builtin.go:193-195 | the result is true exactly when the gboolean is not FALSE, so any non-zero value counts as true |
| `OtBuiltin.GBool` | pkg/otbuiltin/builtin.go:62 | a Go bool becomes exactly TRUE or FALSE when passed to C |
| `OtBuiltin.GoBoolGBool` | pkg/otbuiltin/builtin.go:62-63 | converting a Go bool to a gboolean and back gives the same bool |
| `OtBuiltin.CString` | pkg/otbuiltin/builtin.go:118 | what C reads is a prefix of the Go string with no NUL byte in it, and it stops only at a NUL byte of the Go string |
| `OtBuiltin.CStringWithoutNul` | pkg/otbuiltin/builtin.go:118 | a Go string with no NUL byte reaches C whole |
| `OtBuiltin.GoString` | pkg/otbuiltin/builtin.go:67 | a NULL C string reads as "", any other string reads as itself |
| `OtBuiltin.GenerateError` | pkg/otbuiltin/builtin.go:174-185 | never nil; a NULL GError gives exactly "nil GError"; a non-NULL GError is converted and keeps that GError; the result is never "empty path" or "repo not initialized" |
| `OtBuiltin.CallError` | pkg/otbuiltin/builtin.go:138-142 | after a native call, the error is nil exactly when the gboolean result is not FALSE; otherwise it is generateError of the GError the call set |
| `OtBuiltin.Repo.constructor` | pkg/otbuiltin/builtin.go:21-24 | a handle holds the pointer it was built with; the pointer may be NULL |
| `OtBuiltin.IsInitialized` | pkg/otbuiltin/builtin.go:31-36 | false exactly when the receiver is nil or its pointer is NULL |
| `OtBuiltin.Native` | pkg/otbuiltin/builtin.go:39-44 | NULL exactly when the handle is not initialized; otherwise the handle's own pointer |
| `OtBuiltin.RepoFromNative` | pkg/otbuiltin/builtin.go:47-53 | NULL gives a nil handle; a non-NULL pointer gives a new initialized handle whose native() is that pointer |
| `OtBuiltin.OpenRepo` | pkg/otbuiltin/builtin.go:74-93 | exactly one of the handle and the error is nil; an empty Go path gives nil plus "empty path"; a non-empty path is opened as C reads it, so `"\x00"` passes the test and reaches C as ""; a failed open gives nil plus generateError of the open's GError; a successful open gives a new initialized handle on a new native repository holding the loaded configuration and no writes; the method modifies no existing object |
| `Ostree.NativeRepo.constructor` | pkg/otbuiltin/builtin.go:83 | a new native repository has an empty configuration and no writes |
| `OtBuiltin.ResolveRev` | pkg/otbuiltin/builtin.go:55-71 | the native call receives native() unchecked, even when it is NULL, and the refspec as C reads it; the error is nil exactly when the native result is true; on failure the string is "" and the error is generateError of the GError; on success the string is the native out_rev read as a Go string |
| `OtBuiltin.ResolveRevMissingAllowed` | pkg/otbuiltin/builtin.go:62-70 | a successful resolve that sets no out_rev, as with an absent ref and allowNoent, returns "" with no error |
| `OtBuiltin.ResolveRevHasNoGuard` | pkg/otbuiltin/builtin.go:55-65 | ResolveRev never reports "repo not initialized", whatever the handle |
| `OtBuiltin.OptionsBag` | pkg/otbuiltin/builtin.go:106-134 | at most two entries and no other keys; `override-remote-name` is present exactly when the Go name is non-empty, and its value is the name as C reads it; `refs` is present exactly when refs is non-empty, and its value has the same length and holds each ref, in order, as C reads it; when both are present, `override-remote-name` comes first; `PullOptions{}` gives an empty dictionary |
| `OtBuiltin.OptionsBagRoundTrip` | pkg/otbuiltin/builtin.go:106-134 | for options whose strings hold no NUL byte, reading the two keys back out of the dictionary gives back the original PullOptions |
| `OtBuiltin.OptionsBagReadBack` | pkg/otbuiltin/builtin.go:106-134 | for any options, reading the dictionary back gives the name and the refs as C reads them |
| `OtBuiltin.OptionsBagCutsAtNul` | pkg/otbuiltin/builtin.go:107-113 | the name `"a\x00b"` gives an `override-remote-name` entry holding "a"; the name `"\x00"` gives an entry holding "" |
| `OtBuiltin.BuildPullOptions` | pkg/otbuiltin/builtin.go:106-134 | the dictionary built by conditional appends, with each ref converted by `C.CString` and copied element by element into a C array, equals OptionsBag of the options |
| `OtBuiltin.PullWithOptions` | pkg/otbuiltin/builtin.go:100-143 | the native pull receives native() unchecked, the remote name as C reads it, and OptionsBag of the options; the error is CallError of the pull's outcome, so it is never "repo not initialized" |
| `GLib.KeyFileGetBoolean` | pkg/otbuiltin/builtin.go:159-162 | TRUE exactly when the key is present and true; an absent key reads as FALSE |
| `GLib.KeyFileSetBoolean` | pkg/otbuiltin/builtin.go:165 | the key is then present with the value `value != FALSE`, and every other key is unchanged |
| `OtBuiltin.TombstoneCommitsEnabled` | pkg/otbuiltin/builtin.go:154-160 | true exactly when `core.tombstone-commits` is present and true |
| `OtBuiltin.EnableTombstoneCommitsIn` | pkg/otbuiltin/builtin.go:159-169 | afterwards the key reads true and no other key has changed; the key file is unchanged when the key was already true |
| `OtBuiltin.TombstoneWrites` | pkg/otbuiltin/builtin.go:163-169 | no write is needed exactly when the key already reads true; otherwise exactly one |
| `OtBuiltin.EnableTombstoneCommitsInIdempotent` | pkg/otbuiltin/builtin.go:159-170 | enabling twice gives the same key file as enabling once, and the second time needs no write |
| `Ostree.NativeRepo.WriteConfig` | pkg/otbuiltin/builtin.go:166 | each call to ostree_repo_write_config adds exactly one write; its outcome is the engine's |
| `OtBuiltin.EnableTombstoneCommits` | pkg/otbuiltin/builtin.go:149-171 | an uninitialized handle gives "repo not initialized" and nothing can change; if the key already reads true, the configuration and write count are unchanged and the error is nil; otherwise the key is set in place, no other key changes, exactly one write happens, and the error is nil or generateError of a failed write |
| `OtBuiltin.EnableTombstoneCommitsTwice` | pkg/otbuiltin/builtin.go:159-170 | a second call always returns nil and performs no write, even when the first call's write failed; the two calls together give the same configuration and write count as one call |

## Left out

- The libostree and GLib engine: `ostree_repo_new`, `ostree_repo_open`, `ostree_repo_resolve_rev`,
  `ostree_repo_pull_with_options` and `ostree_repo_write_config`. Each is an uninterpreted
  function or a given outcome, because the engine's behaviour is not part of this package.
  A resolve on a NULL repository, for example, fails however the engine decides.
- What a pull does to the repository's objects and refs. The object store is not modelled,
  so `PullWithOptions` changes no modelled state.
- `AsyncProgress`, `GCancellable`, `cCancellable`, progress reporting and cancellation. These
  are opaque pass-throughs to the native pull.
- OtBuiltin.GenerateError: the `file:line - ` prefix from `runtime.Caller` and the message
  text produced by `glib.ConvertGError` are not modelled. The converted error keeps the
  GError it came from instead. Both depend on runtime reflection and on foreign code.
- C memory handling: `C.CString`/`C.free`, `defer`, `g_object_unref`, clearing `crefs`
  after `g_variant_new_strv`, and the type-string C strings that are never freed. The native
  repository that `OpenRepo` leaks after a failed open is not modelled either.
- The GVariant type strings `a{sv}`/`{sv}` and the binary encoding of the dictionary. The
  dictionary is an abstract sequence of entries.
- `isOk`, which nothing calls, and the `AsyncProgress.native` accessor.
- The persisted configuration on disk. `ostree_repo_write_config` is counted and its outcome
  is given, but what it stores is the engine's business.
- Key-file values that are present but are not booleans: `g_key_file_get_boolean` reads them
  as FALSE, and the model gives them no entry, which reads the same way.
- OtBuiltin.OptionsBag: Go strings that are not valid UTF-8 cannot be written as Dafny strings, so the
  model does not cover them. GVariant refuses such strings as well.
- Ostree.NativeRepo.WriteConfig: assumed to leave the repository's in-memory key file as it is,
  whether the write succeeds or fails. `ostree_repo_get_config` is assumed to hand out that same
  key file. Neither behaviour is visible in this package.
- `glib.GoBool` is taken to be the same conversion as this package's `gobool`, and
  `glib.GBool` to give TRUE or FALSE. The glibobject package is not part of this model.
