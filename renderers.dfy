/**
 * `ProductRenderer.build` and `clone_properties`: a renderer for a requested
 * frequency is composed from the first stored renderer of a sibling
 * frequency (in the order daily, monthly, weekly), keeping its properties
 * but for the date buckets and the count, which the caller supplies.
 */
module Renderers {
  import opened Wrappers
  import opened Calendar
  import opened Entities
  import opened FrequencyKeys
  import opened Stores
  import opened Construction

  /** `no_copy` in `clone_properties`. */
  const NoCopy: seq<Prop> := [Day, Week, Month, Year, Count]

  /** `no_copy` names exactly the bucket properties and the count. */
  lemma NoCopyListed()
    ensures forall p :: p in NoCopy <==> IsBucket(p) || p == Count
    ensures forall i, j :: 0 <= i < j < |NoCopy| ==> NoCopy[i] != NoCopy[j]
  {
  }

  /** Whether a clone carries a declared property: every one but the buckets and the count. */
  predicate Cloned(p: Prop) {
    !IsBucket(p) && p != Count
  }

  /**
   * `clone_properties`: a dictionary of every declared property of the
   * renderer (a reference as its key), from which the bucket properties and
   * the count are then popped.
   */
  method CloneProperties(renderer: Entity) returns (props: map<Prop, Value>)
    requires renderer.kind == ProductRenderer && WellFormed(renderer)
    ensures forall p :: p in props <==> p in renderer.props && Cloned(p)
    ensures forall p :: p in props ==> props[p] == renderer.props[p]
  {
    NoCopyListed();
    props := Collect(renderer.props, PropertySet(ProductRenderer));
    props := PopEach(props, NoCopy);
  }

  /**
   * `for k, v in properties.iteritems(): props[k] = ...`: a dictionary of the
   * named entries, read one at a time in no particular order (a Python
   * dictionary's).
   */
  method Collect<K, V>(m: map<K, V>, names: set<K>) returns (r: map<K, V>)
    requires names <= m.Keys
    ensures r.Keys == names
    ensures forall k :: k in r ==> r[k] == m[k]
  {
    r := map[];
    var rest := names;
    while rest != {}
      invariant rest <= names && r.Keys == names - rest
      invariant forall k :: k in r ==> r[k] == m[k]
      decreases |rest|
    {
      var k :| k in rest;
      r := r[k := m[k]];
      rest := rest - {k};
    }
  }

  /**
   * `for item in names: props.pop(item)`: each name is removed in turn, and
   * every other entry is kept. `pop` raises `KeyError` on a missing name, so
   * the names must be present and distinct.
   */
  method PopEach<K, V>(m: map<K, V>, names: seq<K>) returns (r: map<K, V>)
    requires forall i :: 0 <= i < |names| ==> names[i] in m
    requires forall i, j :: 0 <= i < j < |names| ==> names[i] != names[j]
    ensures forall k :: k in r <==> k in m && k !in names
    ensures forall k :: k in r ==> r[k] == m[k]
  {
    r := m;
    var j := 0;
    while j < |names|
      invariant 0 <= j <= |names|
      invariant forall k :: k in r <==> k in m && k !in names[..j]
      invariant forall k :: k in r ==> r[k] == m[k]
    {
      assert names[..j + 1] == names[..j] + [names[j]];
      assert names[j] !in names[..j];
      r := r - {names[j]};
      j := j + 1;
    }
    assert names[..j] == names;
  }

  /** The position of the first occurrence of `x` in `s`. */
  function FirstIndex<T(==)>(s: seq<T>, x: T): (i: nat)
    requires x in s
    ensures i < |s| && s[i] == x && x !in s[..i]
  {
    if s[0] == x then 0
    else
      var i := FirstIndex(s[1..], x);
      assert s[..i + 1] == [s[0]] + s[1..][..i];
      i + 1
  }

  /** `list.remove(x)`: the list without its first `x`. */
  function RemoveFirst<T(==)>(s: seq<T>, x: T): (r: seq<T>)
    requires x in s
    ensures |r| == |s| - 1 && forall i :: 0 <= i < |r| ==> r[i] in s
  {
    if s[0] == x then s[1..] else [s[0]] + RemoveFirst(s[1..], x)
  }

  /** `remove` cuts out exactly the first occurrence: what precedes it and what follows it stay, in order. */
  lemma {:induction false} RemoveFirstCutsFirst<T>(s: seq<T>, x: T)
    requires x in s
    ensures RemoveFirst(s, x) == s[..FirstIndex(s, x)] + s[FirstIndex(s, x) + 1..]
  {
    if s[0] != x {
      var t := s[1..];
      RemoveFirstCutsFirst(t, x);
      var i := FirstIndex(t, x);
      assert FirstIndex(s, x) == i + 1;
      assert s[..i + 1] == [s[0]] + t[..i];
      assert s[i + 2..] == t[i + 1..];
      assert RemoveFirst(s, x) == [s[0]] + (t[..i] + t[i + 1..]);
      assert [s[0]] + (t[..i] + t[i + 1..]) == ([s[0]] + t[..i]) + t[i + 1..];
    }
  }

  /** `frequency_set` before the requested frequency is removed. */
  const FallbackOrder: seq<string> := [Daily, Monthly, Weekly]

  /** The siblings are searched in a fixed order: monthly then weekly for daily, daily then weekly for monthly, daily then monthly for weekly. */
  lemma SiblingOrder(frequency: string)
    requires frequency in ValidFrequencies
    ensures frequency in FallbackOrder
    ensures RemoveFirst(FallbackOrder, frequency) ==
      if frequency == Daily then [Monthly, Weekly]
      else if frequency == Monthly then [Daily, Weekly]
      else [Daily, Monthly]
  {
    var tail := [Monthly, Weekly];
    assert FallbackOrder[1..] == tail && tail[1..] == [Weekly];
    if frequency == Monthly {
      assert RemoveFirst(tail, Monthly) == [Weekly];
    } else if frequency == Weekly {
      assert RemoveFirst([Weekly], Weekly) == [];
      assert RemoveFirst(tail, Weekly) == [Monthly];
    }
  }

  /** The key of the renderer of `root` for a frequency and date. */
  function RendererKey(root: string, frequency: string, date: Date): string
    requires frequency in ValidFrequencies
  {
    BuildKeyName(root, frequency, date).value
  }

  /** The stored entity under the first of `keys` that the store holds, if any. */
  function FirstStored<V(==)>(durable: map<string, V>, keys: seq<string>): (r: Option<V>)
    ensures r.Some? ==> r.value in durable.Values
  {
    if |keys| == 0 then None
    else if keys[0] in durable then Some(durable[keys[0]])
    else FirstStored(durable, keys[1..])
  }

  /**
   * The search finds nothing exactly when no key is stored, and otherwise
   * finds the entity under the earliest key that is.
   */
  lemma {:induction false} FirstStoredFinds<V>(durable: map<string, V>, keys: seq<string>)
    ensures FirstStored(durable, keys).None? <==> forall i :: 0 <= i < |keys| ==> keys[i] !in durable
    ensures FirstStored(durable, keys).Some? ==>
            exists i :: 0 <= i < |keys| && keys[i] in durable && FirstStored(durable, keys).value == durable[keys[i]]
                     && forall j :: 0 <= j < i ==> keys[j] !in durable
  {
    if |keys| > 0 && keys[0] !in durable {
      var rest := keys[1..];
      FirstStoredFinds(durable, rest);
      assert forall i :: 1 <= i < |keys| ==> keys[i] == rest[i - 1];
      if FirstStored(durable, rest).Some? {
        var i :| 0 <= i < |rest| && rest[i] in durable && FirstStored(durable, rest).value == durable[rest[i]]
                 && forall j :: 0 <= j < i ==> rest[j] !in durable;
        assert keys[i + 1] == rest[i];
      }
    }
  }

  /** The siblings of a frequency, in the order `build` looks them up. */
  function Siblings(frequency: string): (r: seq<string>)
    requires frequency in ValidFrequencies
    ensures |r| == 2 && frequency !in r && forall f :: f in r ==> f in ValidFrequencies
  {
    SiblingOrder(frequency);
    RemoveFirst(FallbackOrder, frequency)
  }

  /**
   * What a composed renderer is: the renderer for the requested frequency
   * and date, with that frequency's buckets and no others, the caller's
   * count, `store` and `url` derived from the root, and every other property
   * taken from the sibling it was cloned from.
   */
  predicate Composed(e: Entity, source: Entity, root: string, frequency: string, date: Date, count: Value, parser: UrlParser)
    requires frequency in ValidFrequencies
  {
    && e.kind == ProductRenderer
    && e.keyName == RendererKey(root, frequency, date)
    && WellFormed(e)
    && HasBuckets(e, frequency, date)
    && OnlyBuckets(e, frequency)
    && e.props[Count] == count
    && e.props[Store] == KeyV(StoreKey(parser.rootUrl(root)))
    && e.props[Url] == StrV(parser.productUrl(root))
    && forall p :: Cloned(p) && p != Store && p != Url ==> p in source.props && e.props[p] == source.props[p]
  }

  /** The stored renderers: `ProductRenderer` entities by key name, as `get_by_key_name` finds them. */
  predicate RendererStore(durable: map<string, Entity>) {
    forall k :: k in durable ==> durable[k].kind == ProductRenderer && WellFormed(durable[k])
  }

  /** The key names `build` looks up for a frequency: its siblings' renderer keys, in order. */
  function SiblingKeys(root: string, frequency: string, date: Date): (keys: seq<string>)
    requires frequency in ValidFrequencies
    ensures |keys| == 2
  {
    var siblings := Siblings(frequency);
    [RendererKey(root, siblings[0], date), RendererKey(root, siblings[1], date)]
  }

  /**
   * The last step of `build`: `ProductRenderer.new(product_key_name,
   * frequency, date, count=count, **renderer.clone_properties)`.
   */
  method NewFromSibling(renderer: Entity, productKeyName: string, frequency: string, date: Date,
                        count: Value, parser: UrlParser)
    returns (e: Entity)
    requires frequency in ValidFrequencies
    requires renderer.kind == ProductRenderer && WellFormed(renderer)
    ensures Composed(e, renderer, productKeyName, frequency, date, count, parser)
  {
    var props := CloneProperties(renderer);
    var built := RendererNew(productKeyName, frequency, date, true, props[Count := count], parser);
    e := built.value;
    NewFromClone(e, renderer, props, productKeyName, frequency, date, count, parser);
  }

  /** The keywords `build` passes to `new`: no buckets, the caller's count, and the clone's other properties. */
  lemma CloneKeywords(source: Entity, props: map<Prop, Value>, count: Value)
    requires source.kind == ProductRenderer && WellFormed(source)
    requires forall p :: p in props <==> p in source.props && Cloned(p)
    requires forall p :: p in props ==> props[p] == source.props[p]
    ensures NoBucketKeywords(props[Count := count])
    ensures Given(props[Count := count], Count) == count
    ensures forall p :: Cloned(p) ==> Given(props[Count := count], p) == source.props[p]
  {
  }

  /** A renderer made by `new` from a clone's properties and a count is composed from the clone's source. */
  lemma NewFromClone(e: Entity, source: Entity, props: map<Prop, Value>, root: string, frequency: string, date: Date,
                     count: Value, parser: UrlParser)
    requires frequency in ValidFrequencies
    requires source.kind == ProductRenderer && WellFormed(source)
    requires forall p :: p in props <==> p in source.props && Cloned(p)
    requires forall p :: p in props ==> props[p] == source.props[p]
    requires IsNewRenderer(e, root, frequency, date, true, props[Count := count], parser)
    ensures Composed(e, source, root, frequency, date, count, parser)
  {
    CloneKeywords(source, props, count);
    assert Declares(ProductRenderer, Count) && !InBucket(Count, frequency);
    forall p | Cloned(p) && p != Store && p != Url
      ensures p in source.props && e.props[p] == source.props[p]
    {
      assert Declares(ProductRenderer, p) && !InBucket(p, frequency);
    }
  }

  /**
   * `ProductRenderer.build(product_key_name, frequency, date, count=count)`:
   * the stored renderers of the sibling frequencies are looked up in order
   * until one is found; a renderer is composed from it, or nothing is
   * returned when there is none. `count` is `Null` when the caller passes
   * none (`kwds.get('count')`). A frequency outside the three raises
   * `ValueError` from `remove`.
   */
  method Build(durable: map<string, Entity>, productKeyName: string, frequency: string, date: Date,
               count: Value, parser: UrlParser)
    returns (r: Result<Option<Entity>, Error>)
    requires RendererStore(durable)
    ensures r.Failure? <==> frequency !in ValidFrequencies
    ensures r.Failure? ==> r.error == ValueError
    ensures r.Success? ==>
      (r.value.Some? <==> FirstStored(durable, SiblingKeys(productKeyName, frequency, date)).Some?)
    ensures r.Success? && r.value.Some? ==>
      Composed(r.value.value, FirstStored(durable, SiblingKeys(productKeyName, frequency, date)).value,
               productKeyName, frequency, date, count, parser)
  {
    var frequencySet := [Daily, Monthly, Weekly];
    if frequency !in frequencySet {
      return Failure(ValueError);
    }
    frequencySet := RemoveFirst(frequencySet, frequency);
    ghost var keys := SiblingKeys(productKeyName, frequency, date);
    ghost var found := FirstStored(durable, keys);
    assert frequencySet == Siblings(frequency);
    var renderer: Option<Entity> := None;
    var i := 0;
    while i < |frequencySet|
      invariant 0 <= i <= |frequencySet|
      invariant renderer.None? && found == FirstStored(durable, keys[i..])
    {
      var keyName := BuildKeyName(productKeyName, frequencySet[i], date).value;
      assert keyName == keys[i];
      if keyName in durable {
        renderer := Some(durable[keyName]);
        break;
      }
      assert keys[i..][1..] == keys[i + 1..];
      i := i + 1;
    }
    assert renderer == found;
    if renderer.None? {
      return Success(None);
    }
    var built := NewFromSibling(renderer.value, productKeyName, frequency, date, count, parser);
    return Success(Some(built));
  }
}
