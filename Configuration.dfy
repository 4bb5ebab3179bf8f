/**
 * The specification bundle a component is built from, as an explicit record.
 *
 * `LogicComponent` merges a configuration object onto itself with
 * `Object.assign`; here the capacity fields it relies on are named, and a
 * level's upgrade bundle is a partial override whose absent fields leave the
 * current value in place.
 */
module Configuration {
  import opened Wrappers

  /** The capacity fields of a component. */
  datatype Specs = Specs(
    maxInputs: int,
    maxOutputs: int,
    requestCapacity: int,
    containedRequests: int,
    numProcessing: int)

  /** A partial bundle: `None` means the bundle does not mention that field. */
  datatype Override = Override(
    maxInputs: Option<int>,
    maxOutputs: Option<int>,
    requestCapacity: Option<int>,
    containedRequests: Option<int>,
    numProcessing: Option<int>)

  /** Upgrade bundles keyed by the level they are applied at. */
  type UpgradeTable = map<nat, Override>

  /** What the constructor receives: base specs and, optionally, an upgrade table. */
  datatype Config = Config(specs: Specs, upgrades: Option<UpgradeTable>)

  /** Names of the fields, so that statements can range over all of them. */
  datatype Field = MaxInputs | MaxOutputs | RequestCapacity | ContainedRequests | NumProcessing

  function Get(s: Specs, f: Field): int {
    match f
    case MaxInputs => s.maxInputs
    case MaxOutputs => s.maxOutputs
    case RequestCapacity => s.requestCapacity
    case ContainedRequests => s.containedRequests
    case NumProcessing => s.numProcessing
  }

  function Mentioned(o: Override, f: Field): Option<int> {
    match f
    case MaxInputs => o.maxInputs
    case MaxOutputs => o.maxOutputs
    case RequestCapacity => o.requestCapacity
    case ContainedRequests => o.containedRequests
    case NumProcessing => o.numProcessing
  }

  /** Two spec records are equal when they agree on every field. */
  lemma SpecsExtensional(a: Specs, b: Specs)
    requires forall f :: Get(a, f) == Get(b, f)
    ensures a == b
  {
    assert Get(a, MaxInputs) == Get(b, MaxInputs);
    assert Get(a, MaxOutputs) == Get(b, MaxOutputs);
    assert Get(a, RequestCapacity) == Get(b, RequestCapacity);
    assert Get(a, ContainedRequests) == Get(b, ContainedRequests);
    assert Get(a, NumProcessing) == Get(b, NumProcessing);
  }

  /** `Object.assign(specs, o)`: every field `o` mentions is overwritten, the rest is kept. */
  function Overlay(s: Specs, o: Override): (r: Specs)
    ensures forall f :: Get(r, f) == Mentioned(o, f).GetOr(Get(s, f))
  {
    Specs(
      o.maxInputs.GetOr(s.maxInputs),
      o.maxOutputs.GetOr(s.maxOutputs),
      o.requestCapacity.GetOr(s.requestCapacity),
      o.containedRequests.GetOr(s.containedRequests),
      o.numProcessing.GetOr(s.numProcessing))
  }

  /** Overlaying the same bundle twice is the same as overlaying it once. */
  lemma OverlayIdempotent(s: Specs, o: Override)
    ensures Overlay(Overlay(s, o), o) == Overlay(s, o)
  {
  }

  /**
   * The bundle for `level` applied to `s`. A level the table has no entry for
   * is `Object.assign(this, undefined)`, which changes nothing.
   */
  function AtLevel(table: UpgradeTable, level: nat, s: Specs): (r: Specs)
    ensures forall f :: Get(r, f) == if Overrides(table, level, f) then Mentioned(table[level], f).value else Get(s, f)
  {
    if level in table then Overlay(s, table[level]) else s
  }

  /** The bundle of `level` exists and mentions field `f`. */
  predicate Overrides(table: UpgradeTable, level: nat, f: Field) {
    level in table && Mentioned(table[level], f).Some?
  }

  /**
   * Reference definition of upgrading field `f` through levels lo+1 .. hi in
   * order, starting from `base`: the value written by the highest of those
   * levels whose bundle mentions `f`, or `base` when none does.
   */
  function LatestValue(table: UpgradeTable, lo: nat, hi: nat, f: Field, base: int): int
    decreases hi
  {
    if hi <= lo then base
    else if Overrides(table, hi, f) then Mentioned(table[hi], f).value
    else LatestValue(table, lo, hi - 1, f, base)
  }
}
