/**
 * The part of libostree the binding talks to. The engine itself is not
 * modelled: its calls are taken as given outcomes (uninterpreted functions
 * passed in by the caller); only the repository's in-memory configuration and
 * a count of configuration writes are kept as state.
 */
module Ostree {
  import opened Wrappers
  import opened GLib

  /** A native `OstreeRepo` object, reached through a C pointer. */
  class NativeRepo {
    /** The repository's own key file, as `ostree_repo_get_config` hands it out. */
    var config: KeyFile
    /** How many times `ostree_repo_write_config` has been called on this repository. */
    var configWrites: nat

    /** `ostree_repo_new`: a repository object not yet opened, with an empty configuration. */
    constructor ()
      ensures config == map[] && configWrites == 0
    {
      config := map[];
      configWrites := 0;
    }

    /**
     * `ostree_repo_write_config`: one write attempt, whose outcome the engine
     * decides. The in-memory key file is not touched here.
     */
    method WriteConfig(newConfig: KeyFile, write: (NativeRepo, KeyFile) -> Outcome) returns (out: Outcome)
      modifies this`configWrites
      ensures configWrites == old(configWrites) + 1
      ensures out == write(this, newConfig)
    {
      configWrites := configWrites + 1;
      out := write(this, newConfig);
    }
  }

  /** What a native call returns: its `gboolean` result and the `GError` it set, if any. */
  datatype Outcome = Outcome(ret: GBoolean, error: Option<GError>)

  /** `ostree_repo_open`: the result, the configuration it loaded, and the error it set. */
  datatype OpenOutcome = OpenOutcome(ret: GBoolean, config: KeyFile, error: Option<GError>)

  /** `ostree_repo_resolve_rev`: the result, the `out_rev` string (NULL when absent) and the error. */
  datatype ResolveOutcome = ResolveOutcome(ret: GBoolean, rev: Option<string>, error: Option<GError>)
}
