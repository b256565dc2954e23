/**
 * Feature toggles (`feature-flags.ts`): a list of enabled feature names kept
 * in browser storage under one key, which the `features` URL parameter can
 * override. The storage entry is the field of a class; the URL parameter is
 * given to each query as its decoded value, or none when absent.
 */
module FeatureFlags {
  import opened Common

  /** The features the application declares. */
  datatype Feature = EditMode

  /** The name each feature is stored and matched under. */
  function FeatureName(f: Feature): (r: string)
    ensures r != "" && ',' !in r
  {
    match f
    case EditMode => "editMode"
  }

  /** `Object.values(Feature)`. */
  const AllFeatureList: seq<Feature> := [EditMode]

  lemma AllFeatureListComplete(f: Feature)
    ensures f in AllFeatureList
  {
  }

  datatype FeatureConfig = FeatureConfig(labelText: string, description: string, icon: Option<string>)

  /** `FEATURE_CONFIG`. */
  function Config(f: Feature): FeatureConfig {
    match f
    case EditMode => FeatureConfig("Edit Mode", "Enable inline editing of CV nodes", Some("edit"))
  }

  /**
   * The storage entry: absent (or empty), a JSON array of names, or text that
   * does not parse as one; JSON parsing itself is not modelled.
   */
  datatype StoredValue = NotStored | Stored(names: seq<string>) | Malformed

  /** `urlParams.get('features')?.split(',').includes(name)`. */
  predicate UrlEnables(urlFeatures: Option<string>, name: string) {
    urlFeatures.Some? && name in Split(urlFeatures.value, ',')
  }

  /** `isFeatureEnabled`: the URL first, then the stored list, false otherwise. */
  function Enabled(stored: StoredValue, urlFeatures: Option<string>, f: Feature): (r: bool)
    ensures UrlEnables(urlFeatures, FeatureName(f)) ==> r
    ensures !UrlEnables(urlFeatures, FeatureName(f)) ==> (r <==> stored.Stored? && FeatureName(f) in stored.names)
  {
    if UrlEnables(urlFeatures, FeatureName(f)) then true
    else match stored
      case Stored(names) => FeatureName(f) in names
      case _ => false
  }

  /** `features.indexOf(name)`: the first position of `name`, or -1. */
  function IndexOf(names: seq<string>, name: string): (r: int)
    ensures -1 <= r < |names|
    ensures r == -1 <==> name !in names
    ensures r >= 0 ==> names[r] == name && name !in names[..r]
  {
    if names == [] then -1
    else if names[0] == name then 0
    else
      var i := IndexOf(names[1..], name);
      if i == -1 then -1
      else
        assert names[..i + 1] == [names[0]] + names[1..][..i];
        i + 1
  }

  /**
   * The list `setFeatureEnabled` writes back: the name appended when it is
   * enabled and missing, its first occurrence removed when it is disabled.
   */
  function UpdatedNames(names: seq<string>, name: string, enabled: bool): (r: seq<string>)
    ensures enabled && name in names ==> r == names
    ensures enabled && name !in names ==> r == names + [name]
    ensures !enabled && name !in names ==> r == names
    ensures !enabled && name in names ==>
      exists i :: 0 <= i < |names| && names[i] == name && name !in names[..i] && r == names[..i] + names[i + 1..]
  {
    if enabled then (if name in names then names else names + [name])
    else
      var i := IndexOf(names, name);
      if i > -1 then names[..i] + names[i + 1..] else names
  }

  /** The storage entry after `setFeatureEnabled`: malformed text is left as it is. */
  function StoredAfter(stored: StoredValue, name: string, enabled: bool): StoredValue {
    match stored
    case NotStored => Stored(UpdatedNames([], name, enabled))
    case Stored(names) => Stored(UpdatedNames(names, name, enabled))
    case Malformed => Malformed
  }

  /** No name occurs twice. */
  predicate NoDuplicates(names: seq<string>) {
    forall i, j :: 0 <= i < j < |names| ==> names[i] != names[j]
  }

  /** Updating a list without duplicates leaves it without duplicates: enabling twice stores the name once. */
  lemma UpdatedKeepsNoDuplicates(names: seq<string>, name: string, enabled: bool)
    requires NoDuplicates(names)
    ensures NoDuplicates(UpdatedNames(names, name, enabled))
  {
    var r := UpdatedNames(names, name, enabled);
    if !enabled && name in names {
      var i := IndexOf(names, name);
      forall a, b | 0 <= a < b < |r| ensures r[a] != r[b] {
        var a' := if a < i then a else a + 1;
        var b' := if b < i then b else b + 1;
        assert r[a] == names[a'] && r[b] == names[b'];
      }
    }
  }

  /** Disabling removes the name entirely from a list without duplicates. */
  lemma DisableRemoves(names: seq<string>, name: string)
    requires NoDuplicates(names)
    ensures name !in UpdatedNames(names, name, false)
  {
    var r := UpdatedNames(names, name, false);
    if name in names {
      var i := IndexOf(names, name);
      forall k | 0 <= k < |r| ensures r[k] != name {
        if k < i {
          assert names[k] == names[..i][k];
        } else {
          assert r[k] == names[k + 1];
        }
      }
    }
  }

  /** Enabling or disabling one name leaves every other name's presence as it was. */
  lemma UpdatedOthers(names: seq<string>, name: string, enabled: bool, other: string)
    requires other != name
    ensures other in UpdatedNames(names, name, enabled) <==> other in names
  {
    var r := UpdatedNames(names, name, enabled);
    if !enabled && name in names {
      var i := IndexOf(names, name);
      assert names == names[..i] + [names[i]] + names[i + 1..];
    }
  }

  /** The state of one feature, as `getAllFeatures` lists it. */
  datatype FeatureInfo = FeatureInfo(feature: Feature, config: FeatureConfig, enabled: bool)

  /** The browser's storage entry for the feature list. */
  class FeatureStore {
    var stored: StoredValue

    constructor(stored: StoredValue)
      ensures this.stored == stored
    {
      this.stored := stored;
    }

    /** `isFeatureEnabled(f)` with the URL parameter `urlFeatures`. */
    function IsFeatureEnabled(urlFeatures: Option<string>, f: Feature): (r: bool)
      reads this
      ensures r <==> UrlEnables(urlFeatures, FeatureName(f)) || (stored.Stored? && FeatureName(f) in stored.names)
    {
      Enabled(stored, urlFeatures, f)
    }

    /** `setFeatureEnabled`: reads the list, appends or splices, and writes it back. */
    method SetFeatureEnabled(f: Feature, enabled: bool)
      modifies this
      ensures stored == StoredAfter(old(stored), FeatureName(f), enabled)
    {
      if stored.Malformed? {
        return;
      }
      var name := FeatureName(f);
      var features := if stored.Stored? then stored.names else [];
      if enabled && name !in features {
        features := features + [name];
      } else if !enabled {
        var index := IndexOf(features, name);
        if index > -1 {
          features := features[..index] + features[index + 1..];
        }
      }
      stored := Stored(features);
    }

    /** `getAllFeatureStates`: every declared feature with its state. */
    function AllFeatureStates(urlFeatures: Option<string>): (r: map<Feature, bool>)
      reads this
      ensures forall f: Feature :: f in r
      ensures forall f :: f in r ==> r[f] == IsFeatureEnabled(urlFeatures, f)
    {
      assert forall f: Feature :: f in AllFeatureList by {
        forall f: Feature ensures f in AllFeatureList {
          AllFeatureListComplete(f);
        }
      }
      map f | f in AllFeatureList :: IsFeatureEnabled(urlFeatures, f)
    }

    /** `getAllFeatures`: every declared feature in declaration order, with its configuration and state. */
    function AllFeatures(urlFeatures: Option<string>): (r: seq<FeatureInfo>)
      reads this
      ensures |r| == |AllFeatureList|
      ensures forall i :: 0 <= i < |r| ==>
        r[i].feature == AllFeatureList[i] && r[i].config == Config(AllFeatureList[i])
        && r[i].enabled == IsFeatureEnabled(urlFeatures, AllFeatureList[i])
    {
      seq(|AllFeatureList|, i requires 0 <= i < |AllFeatureList| reads this =>
        FeatureInfo(AllFeatureList[i], Config(AllFeatureList[i]), IsFeatureEnabled(urlFeatures, AllFeatureList[i])))
    }
  }

  /** With nothing stored and no URL override a feature is off. */
  lemma DefaultDisabled(f: Feature)
    ensures !Enabled(NotStored, None, f)
  {
  }

  /** Enabling a feature turns it on, unless the stored text is malformed, which it leaves untouched. */
  lemma EnableThenCheck(stored: StoredValue, urlFeatures: Option<string>, f: Feature)
    ensures stored != Malformed ==> Enabled(StoredAfter(stored, FeatureName(f), true), urlFeatures, f)
    ensures stored == Malformed ==>
      Enabled(StoredAfter(stored, FeatureName(f), true), urlFeatures, f) == UrlEnables(urlFeatures, FeatureName(f))
  {
  }

  /**
   * Enabling and then disabling a feature turns it off when the URL does not
   * override it and the stored list held it at most once; a name stored twice
   * would survive, since only the first occurrence is removed.
   */
  lemma EnableDisableThenCheck(stored: StoredValue, urlFeatures: Option<string>, f: Feature)
    requires !UrlEnables(urlFeatures, FeatureName(f))
    requires stored.Stored? ==> NoDuplicates(stored.names)
    ensures !Enabled(StoredAfter(StoredAfter(stored, FeatureName(f), true), FeatureName(f), false), urlFeatures, f)
  {
    var name := FeatureName(f);
    if stored.Stored? {
      UpdatedKeepsNoDuplicates(stored.names, name, true);
      DisableRemoves(UpdatedNames(stored.names, name, true), name);
    } else if stored.NotStored? {
      DisableRemoves([name], name);
    }
  }
}
