/**
 * The preference set as the command layer uses it: a persisted hash merged
 * with command-line options, and the two `*_disabled` switches read with
 * the tri-state rule of `start_services`.
 */
module Preferences {
  import opened RubyValues

  const CREATE_KEY := "create"
  const PROVIDER_KEY := "provider"
  const PROXY_DISABLED_KEY := "proxy_disabled"
  const FSEVENTS_DISABLED_KEY := "fsevents_disabled"

  // Option names of the `up`, `destroy` commands.
  const PROXY_FLAG := "proxy"
  const FSEVENTS_FLAG := "fsevents"
  const FORCE_FLAG := "force"

  /**
   * `base.merge(overrides)`, also the shallow merge of `preferences.update`:
   * every key of `overrides` wins, every other key of `base` is inherited.
   */
  function Merge(base: Dict, overrides: Dict): Dict {
    base + overrides
  }

  lemma MergeOverrides(base: Dict, overrides: Dict)
    ensures Merge(base, overrides).Keys == base.Keys + overrides.Keys
    ensures forall k :: Lookup(Merge(base, overrides), k) == if k in overrides then overrides[k] else Lookup(base, k)
  {
  }

  /** `preferences[:create] || {}`: the create options persisted by the last `create`. */
  function PersistedCreate(prefs: Dict): Dict {
    match Lookup(prefs, CREATE_KEY)
    case Hash(h) => h
    case _ => map[]
  }

  /**
   * `preferences[:create] || {}` falls back to no options exactly when
   * nothing usable is stored, and otherwise yields the stored hash.
   */
  lemma PersistedCreateFallsBack(prefs: Dict)
    ensures !Truthy(Lookup(prefs, CREATE_KEY)) ==> PersistedCreate(prefs) == map[]
    ensures CREATE_KEY !in prefs ==> PersistedCreate(prefs) == map[]
    ensures Lookup(prefs, CREATE_KEY).Hash? ==> PersistedCreate(prefs) == prefs[CREATE_KEY].entries
  {
  }

  /** `proxy_disabled?`: only a persisted value that is exactly `true` disables. */
  predicate ProxyDisabled(prefs: Dict) {
    Lookup(prefs, PROXY_DISABLED_KEY) == Bool(true)
  }

  /** `fsevents_disabled?`: only a persisted value that is exactly `true` disables. */
  predicate FseventsDisabled(prefs: Dict) {
    Lookup(prefs, FSEVENTS_DISABLED_KEY) == Bool(true)
  }

  /**
   * A switch is set only by a stored `true`: a missing key, `nil`, `false`
   * and every other value `v`, truthy or not, leave the daemon enabled.
   */
  lemma SwitchesNeedExactTrue(prefs: Dict, v: Value)
    ensures ProxyDisabled(prefs) ==> PROXY_DISABLED_KEY in prefs && Truthy(prefs[PROXY_DISABLED_KEY])
    ensures FseventsDisabled(prefs) ==> FSEVENTS_DISABLED_KEY in prefs && Truthy(prefs[FSEVENTS_DISABLED_KEY])
    ensures ProxyDisabled(prefs[PROXY_DISABLED_KEY := Bool(true)])
    ensures FseventsDisabled(prefs[FSEVENTS_DISABLED_KEY := Bool(true)])
    ensures v != Bool(true) ==> !ProxyDisabled(prefs[PROXY_DISABLED_KEY := v])
    ensures v != Bool(true) ==> !FseventsDisabled(prefs[FSEVENTS_DISABLED_KEY := v])
    ensures !ProxyDisabled(prefs - {PROXY_DISABLED_KEY}) && !FseventsDisabled(prefs - {FSEVENTS_DISABLED_KEY})
  {
  }

  /**
   * The tri-state decision `flag || (flag.nil? && !disabled)`: an explicit
   * flag decides, an absent flag defers to the persisted switch.
   */
  function Enabled(flag: Value, disabled: bool): (r: bool)
    ensures Truthy(flag) ==> r
    ensures flag == Bool(false) ==> !r
    ensures flag == Nil ==> (r <==> !disabled)
    ensures r ==> flag != Bool(false)
  {
    Truthy(flag) || (flag == Nil && !disabled)
  }
}
