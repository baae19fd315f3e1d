/**
 Merging one tier (transient or persistent) of a cluster settings update into
 the tier's current settings, as the cluster-update-settings task does for each
 tier: the builder is seeded with the current settings, and every entry of the
 request's delta whose key is dynamically updatable overwrites the builder's
 value; every other key is skipped with a warning.
 */
module SettingsMerge {

  /** A settings snapshot: an immutable map from setting key to value. */
  type Settings = map<string, string>

  /** Keys with this prefix set logger levels; they are always updatable. */
  const LoggerPrefix: string := "logger."

  predicate IsLoggerKey(key: string) {
    LoggerPrefix <= key
  }

  /**
   Whether a key may be changed on a running cluster: the settings registry
   (`isDynamic`, which this model takes as a parameter) says so, or the key
   is a logger key.
   */
  predicate IsUpdatable(isDynamic: string -> bool, key: string) {
    isDynamic(key) || IsLoggerKey(key)
  }

  /** The entries of `delta` whose key lies in `keys` and is updatable. */
  function AcceptedIn(delta: Settings, keys: set<string>, isDynamic: string -> bool): (a: Settings)
    ensures a.Keys <= delta.Keys
    ensures forall k :: k in a <==> k in keys && k in delta && IsUpdatable(isDynamic, k)
    ensures forall k :: k in a ==> a[k] == delta[k]
  {
    map k | k in keys && k in delta && IsUpdatable(isDynamic, k) :: delta[k]
  }

  /** The entries of `delta` the merge accepts. */
  function Accepted(delta: Settings, isDynamic: string -> bool): Settings {
    AcceptedIn(delta, delta.Keys, isDynamic)
  }

  /** The keys of `delta` the merge skips with a warning. */
  function Rejected(delta: Settings, isDynamic: string -> bool): set<string> {
    set k | k in delta && !IsUpdatable(isDynamic, k)
  }

  /** Whether the merge of `delta` sets the task's `changed` flag. */
  predicate AnyAccepted(delta: Settings, isDynamic: string -> bool) {
    exists k :: k in delta && IsUpdatable(isDynamic, k)
  }

  /**
   The closed form of one tier's merge: accepted keys take the delta's value,
   every other key keeps exactly its base entry, present or absent.
   */
  function Merge(base: Settings, delta: Settings, isDynamic: string -> bool): (merged: Settings)
    ensures forall k :: k in delta && IsUpdatable(isDynamic, k) ==> k in merged && merged[k] == delta[k]
    ensures forall k :: k !in delta || !IsUpdatable(isDynamic, k) ==> (k in merged <==> k in base)
    ensures forall k :: k in merged && (k !in delta || !IsUpdatable(isDynamic, k)) ==> merged[k] == base[k]
    ensures merged.Keys == base.Keys + Accepted(delta, isDynamic).Keys
  {
    base + Accepted(delta, isDynamic)
  }

  /** Keys appearing at most once in a sequence. */
  predicate Distinct(keys: seq<string>) {
    forall i, j :: 0 <= i < j < |keys| ==> keys[i] != keys[j]
  }

  /** The keys listed in a sequence. */
  function KeySet(keys: seq<string>): set<string> {
    set k | k in keys
  }

  /** Accepting one more key extends the accepted map by exactly that key. */
  lemma AcceptedInAddKey(delta: Settings, keys: set<string>, key: string, isDynamic: string -> bool)
    requires key in delta
    ensures IsUpdatable(isDynamic, key) ==>
              AcceptedIn(delta, keys + {key}, isDynamic) == AcceptedIn(delta, keys, isDynamic)[key := delta[key]]
    ensures !IsUpdatable(isDynamic, key) ==>
              AcceptedIn(delta, keys + {key}, isDynamic) == AcceptedIn(delta, keys, isDynamic)
  {
  }

  /**
   One tier's merge as the Java action runs it: a loop over the delta's entries in
   whatever order the map yields them. Returns the merged settings, whether any
   key was accepted, and the skipped keys in the order they were met (the
   code logs a warning for each).
   */
  method MergeTier(base: Settings, delta: Settings, isDynamic: string -> bool)
    returns (merged: Settings, changed: bool, rejected: seq<string>)
    ensures merged == Merge(base, delta, isDynamic)
    ensures changed <==> AnyAccepted(delta, isDynamic)
    ensures forall k :: k in rejected <==> k in Rejected(delta, isDynamic)
    ensures Distinct(rejected)
  {
    merged := base;
    changed := false;
    rejected := [];
    var remaining := delta.Keys;
    while remaining != {}
      invariant remaining <= delta.Keys
      invariant merged == base + AcceptedIn(delta, delta.Keys - remaining, isDynamic)
      invariant changed <==> exists k :: k in delta && k !in remaining && IsUpdatable(isDynamic, k)
      invariant forall k :: k in rejected <==> k in delta && k !in remaining && !IsUpdatable(isDynamic, k)
      invariant Distinct(rejected)
      decreases remaining
    {
      var key :| key in remaining;
      AcceptedInAddKey(delta, delta.Keys - remaining, key, isDynamic);
      assert delta.Keys - (remaining - {key}) == (delta.Keys - remaining) + {key};
      if IsUpdatable(isDynamic, key) {
        merged := merged[key := delta[key]];
        changed := true;
      } else {
        rejected := rejected + [key];
      }
      remaining := remaining - {key};
    }
    assert delta.Keys - remaining == delta.Keys;
  }

  /** Puts one delta entry into the builder when its key is updatable. */
  function PutIfUpdatable(m: Settings, delta: Settings, key: string, isDynamic: string -> bool): Settings
    requires key in delta
  {
    if IsUpdatable(isDynamic, key) then m[key := delta[key]] else m
  }

  /** The merge performed entry by entry in a fixed key order. */
  function MergeInOrder(m: Settings, delta: Settings, order: seq<string>, isDynamic: string -> bool): Settings
    requires forall i :: 0 <= i < |order| ==> order[i] in delta
    decreases |order|
  {
    if order == [] then m
    else MergeInOrder(PutIfUpdatable(m, delta, order[0], isDynamic), delta, order[1..], isDynamic)
  }

  /** Merging entry by entry in any order accepts each listed key on its own. */
  lemma {:induction false} MergeInOrderAcceptsEachKey(m: Settings, delta: Settings, order: seq<string>, isDynamic: string -> bool)
    requires forall i :: 0 <= i < |order| ==> order[i] in delta
    ensures MergeInOrder(m, delta, order, isDynamic) == m + AcceptedIn(delta, KeySet(order), isDynamic)
    decreases |order|
  {
    var listed := KeySet(order);
    if order == [] {
      assert AcceptedIn(delta, listed, isDynamic) == map[];
    } else {
      var key, rest := order[0], order[1..];
      var restKeys := KeySet(rest);
      assert listed == restKeys + {key} by {
        assert order == [key] + rest;
      }
      var m' := PutIfUpdatable(m, delta, key, isDynamic);
      MergeInOrderAcceptsEachKey(m', delta, rest, isDynamic);
      AcceptedInAddKey(delta, restKeys, key, isDynamic);
      if IsUpdatable(isDynamic, key) {
        PutThenUnion(m, AcceptedIn(delta, restKeys, isDynamic), key, delta[key]);
      }
    }
  }

  /** Putting a key before a union is putting it into the right operand, when they agree on it. */
  lemma PutThenUnion(m: Settings, a: Settings, key: string, value: string)
    requires key in a ==> a[key] == value
    ensures m[key := value] + a == m + a[key := value]
  {
  }

  /**
   The merge decides key by key: applying the accepted entries one at a time,
   in any order that lists every key of the delta, yields the closed form.
   */
  lemma MergeIsPerKey(base: Settings, delta: Settings, order: seq<string>, isDynamic: string -> bool)
    requires forall i :: 0 <= i < |order| ==> order[i] in delta
    requires forall k :: k in delta ==> k in order
    ensures MergeInOrder(base, delta, order, isDynamic) == Merge(base, delta, isDynamic)
  {
    MergeInOrderAcceptsEachKey(base, delta, order, isDynamic);
    assert KeySet(order) == delta.Keys;
  }

  /** `changed` is set exactly when the accepted part of the delta is non-empty. */
  lemma AnyAcceptedIffAcceptedNonEmpty(delta: Settings, isDynamic: string -> bool)
    ensures AnyAccepted(delta, isDynamic) <==> Accepted(delta, isDynamic) != map[]
  {
  }

  /** A delta nobody accepts leaves the tier exactly as it was. */
  lemma NothingAcceptedKeepsBase(base: Settings, delta: Settings, isDynamic: string -> bool)
    requires !AnyAccepted(delta, isDynamic)
    ensures Merge(base, delta, isDynamic) == base
  {
  }

  /**
   A logger key is accepted whatever the settings registry says, overwriting
   any current value.
   */
  lemma LoggerKeyAlwaysAccepted(base: Settings, delta: Settings, key: string, isDynamic: string -> bool)
    requires key in delta && IsLoggerKey(key)
    ensures key in Merge(base, delta, isDynamic) && Merge(base, delta, isDynamic)[key] == delta[key]
    ensures AnyAccepted(delta, isDynamic)
  {
  }

  /**
   A rejected key has no influence on the merge: dropping it from the delta
   changes neither the merged settings nor whether anything was accepted.
   */
  lemma RejectedKeyIsIgnored(base: Settings, delta: Settings, key: string, isDynamic: string -> bool)
    requires key in Rejected(delta, isDynamic)
    ensures Merge(base, delta - {key}, isDynamic) == Merge(base, delta, isDynamic)
    ensures AnyAccepted(delta - {key}, isDynamic) <==> AnyAccepted(delta, isDynamic)
  {
  }
}
