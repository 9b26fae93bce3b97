/**
 * Configuration objects and the shallow merge `{ ...base, ...over }` that every
 * configuration slot of the editor factory is updated and read through.
 *
 * An object is a map from own property name to value. A property whose value is
 * JavaScript `undefined` is still one of the object's own properties, so it is a
 * key of the map and it still overrides under spread.
 */
module Config {
  import opened Wrappers

  /** `r` is `base` with every property of `over` written over it, and nothing else. */
  ghost predicate IsOverride<V>(r: map<string, V>, base: map<string, V>, over: map<string, V>)
  {
    && r.Keys == base.Keys + over.Keys
    && (forall k :: k in over ==> r[k] == over[k])
    && (forall k :: k in base && k !in over ==> r[k] == base[k])
  }

  /** The object literal `{ ...base, ...over }`. */
  function Spread<V>(base: map<string, V>, over: map<string, V>): (r: map<string, V>)
    ensures IsOverride(r, base, over)
  {
    base + over
  }

  /** Property lookup: `Some(o[k])` when `k` is an own property of `o`. */
  function Get<V>(o: map<string, V>, k: string): Option<V>
  {
    if k in o then Some(o[k]) else None
  }

  /**
   * Reference definition of layered configuration: the value of `k` is taken
   * from the LAST layer that has `k` as a property; absent when no layer has it.
   */
  function Resolve<V>(layers: seq<map<string, V>>, k: string): (r: Option<V>)
    ensures r.Some? <==> exists i :: 0 <= i < |layers| && k in layers[i]
    ensures r.Some? ==>
      exists i :: 0 <= i < |layers| && k in layers[i] && r.value == layers[i][k] &&
        forall j :: i < j < |layers| ==> k !in layers[j]
    decreases |layers|
  {
    if layers == [] then None
    else if k in layers[|layers| - 1] then Some(layers[|layers| - 1][k])
    else
      var r := Resolve(layers[..|layers| - 1], k);
      assert forall i :: 0 <= i < |layers| - 1 ==> layers[..|layers| - 1][i] == layers[i];
      r
  }

  /** A slot after the calls `set(calls[0])`, ..., `set(calls[|calls| - 1])`, in that order. */
  function ApplyAll<V>(slot: map<string, V>, calls: seq<map<string, V>>): map<string, V>
    decreases |calls|
  {
    if calls == [] then slot
    else Spread(ApplyAll(slot, calls[..|calls| - 1]), calls[|calls| - 1])
  }

  /** Spreading an empty object changes nothing, on either side. */
  lemma SpreadIdentity<V>(o: map<string, V>)
    ensures Spread(o, map[]) == o
    ensures Spread(map[], o) == o
  {
  }

  /** Merging the same object a second time gives what merging it once gave. */
  lemma SpreadIdempotent<V>(base: map<string, V>, over: map<string, V>)
    ensures Spread(Spread(base, over), over) == Spread(base, over)
  {
  }

  /** Two successive merges are one merge of the two objects merged together. */
  lemma SpreadAssociative<V>(a: map<string, V>, b: map<string, V>, c: map<string, V>)
    ensures Spread(Spread(a, b), c) == Spread(a, Spread(b, c))
  {
  }

  /** `IsOverride` determines the merged object completely. */
  lemma OverrideUnique<V>(r1: map<string, V>, r2: map<string, V>, base: map<string, V>, over: map<string, V>)
    requires IsOverride(r1, base, over) && IsOverride(r2, base, over)
    ensures r1 == r2
  {
  }

  /**
   * After a history of merges, each property reads as the reference layering
   * says: the latest call that names it wins, the initial slot counts as the
   * oldest layer.
   */
  lemma {:induction false} ApplyAllResolves<V>(slot: map<string, V>, calls: seq<map<string, V>>, k: string)
    ensures Get(ApplyAll(slot, calls), k) == Resolve([slot] + calls, k)
    decreases |calls|
  {
    var layers := [slot] + calls;
    if calls == [] {
      assert layers == [slot];
    } else {
      var init := calls[..|calls| - 1];
      ApplyAllResolves(slot, init, k);
      assert layers[..|layers| - 1] == [slot] + init;
      assert layers[|layers| - 1] == calls[|calls| - 1];
    }
  }

  /** A history of merges into a slot equals one merge of the history collected from `{}`. */
  lemma {:induction false} ApplyAllIsOneCall<V>(slot: map<string, V>, calls: seq<map<string, V>>)
    ensures ApplyAll(slot, calls) == Spread(slot, ApplyAll(map[], calls))
    decreases |calls|
  {
    if calls == [] {
      SpreadIdentity(slot);
    } else {
      var init, last := calls[..|calls| - 1], calls[|calls| - 1];
      ApplyAllIsOneCall(slot, init);
      SpreadAssociative(slot, ApplyAll(map[], init), last);
    }
  }

  /**
   * The config `create*` passes on after a history of `set*Config` calls: each
   * property comes from the per-call config if it has it, otherwise from the
   * latest setter call that named it, otherwise from the initial slot.
   */
  lemma {:induction false} EffectiveAfterHistory<V>(slot: map<string, V>, calls: seq<map<string, V>>, perCall: map<string, V>, k: string)
    ensures Get(Spread(ApplyAll(slot, calls), perCall), k) == Resolve([slot] + calls + [perCall], k)
  {
    var all := calls + [perCall];
    assert all[..|all| - 1] == calls;
    ApplyAllResolves(slot, all, k);
    assert [slot] + all == [slot] + calls + [perCall];
  }
}
