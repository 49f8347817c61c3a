/**
 * `FrequencyBase.new` with the overrides the subclasses chain onto it:
 * `StoreFrequencyBase.new` then points `store` at the store of the root, and
 * `ProductRenderer.new` then sets `url` to the product URL of the root.
 */
module Construction {
  import opened Wrappers
  import opened Calendar
  import opened Entities
  import opened FrequencyKeys
  import opened Stores

  /** Whether `new` sets bucket property `p` for the frequency: the day, the ISO week and year, or the month and year. */
  predicate InBucket(p: Prop, frequency: string) {
    match p
    case Day => frequency == Daily
    case Week => frequency == Weekly
    case Month => frequency == Monthly
    case Year => frequency == Weekly || frequency == Monthly
    case _ => false
  }

  /** The bucket properties of the frequency hold the date's values (`week` is `date.isocalendar()[1]`). */
  predicate HasBuckets(e: Entity, frequency: string, date: Date) {
    && (frequency == Daily ==> Day in e.props && e.props[Day] == DateV(date))
    && (frequency == Weekly ==>
          Week in e.props && e.props[Week] == IntV(IsoWeek(date)) && Year in e.props && e.props[Year] == IntV(date.year))
    && (frequency == Monthly ==>
          Month in e.props && e.props[Month] == IntV(date.month) && Year in e.props && e.props[Year] == IntV(date.year))
  }

  /** A bucket property holds a value exactly when it belongs to the frequency. */
  predicate OnlyBuckets(e: Entity, frequency: string) {
    && Day in e.props && Week in e.props && Month in e.props && Year in e.props
    && (e.props[Day] != Null <==> InBucket(Day, frequency))
    && (e.props[Week] != Null <==> InBucket(Week, frequency))
    && (e.props[Month] != Null <==> InBucket(Month, frequency))
    && (e.props[Year] != Null <==> InBucket(Year, frequency))
  }

  /** No bucket property is given a value by the keywords (so construction leaves them `None`). */
  predicate NoBucketKeywords(kwds: map<Prop, Value>) {
    Given(kwds, Day) == Null && Given(kwds, Week) == Null && Given(kwds, Month) == Null && Given(kwds, Year) == Null
  }

  /** Assigning a declared property outside the buckets keeps the buckets and every other property. */
  lemma AssignOutsideBuckets(e: Entity, p: Prop, v: Value, frequency: string, date: Date)
    requires p in e.props && !IsBucket(p)
    ensures e.With(p, v).props.Keys == e.props.Keys && e.With(p, v).props[p] == v
    ensures WellFormed(e) ==> WellFormed(e.With(p, v))
    ensures forall q :: q in e.props && q != p ==> e.With(p, v).props[q] == e.props[q]
    ensures HasBuckets(e, frequency, date) ==> HasBuckets(e.With(p, v), frequency, date)
    ensures OnlyBuckets(e, frequency) ==> OnlyBuckets(e.With(p, v), frequency)
  {
  }

  /** The key name `new` gives the entity: the built key, or the root itself when key building is off. */
  function NewKeyName(keyRoot: string, frequency: string, date: Date, buildKeyName: bool): (r: string)
    requires buildKeyName ==> frequency in ValidFrequencies
    ensures !buildKeyName ==> r == keyRoot
    // a built key name extends the root by the delimiter and the frequency
    ensures buildKeyName ==>
      |r| > |keyRoot| + 1 && r[..|keyRoot|] == keyRoot && r[|keyRoot|] == Delimiter && r[|keyRoot| + 1] == frequency[0]
  {
    if buildKeyName then
      FrequencyFollowsRoot(keyRoot, frequency, date);
      BuildKeyName(keyRoot, frequency, date).value
    else keyRoot
  }

  /** The second half of `FrequencyBase.new`: the date's bucket values are assigned for the frequency. */
  method AssignBuckets(e: Entity, frequency: string, date: Date) returns (r: Entity)
    requires Day in e.props && Week in e.props && Month in e.props && Year in e.props
    ensures r.kind == e.kind && r.keyName == e.keyName && r.props.Keys == e.props.Keys
    ensures HasBuckets(r, frequency, date)
    ensures forall p :: p in r.props && !InBucket(p, frequency) ==> r.props[p] == e.props[p]
    ensures e.props[Day] == e.props[Week] == e.props[Month] == e.props[Year] == Null ==> OnlyBuckets(r, frequency)
  {
    r := e;
    if frequency == Daily {
      r := r.With(Day, DateV(date));
    } else if frequency == Weekly {
      r := r.With(Week, IntV(IsoWeek(date)));
      r := r.With(Year, IntV(date.year));
    } else if frequency == Monthly {
      r := r.With(Month, IntV(date.month));
      r := r.With(Year, IntV(date.year));
    }
  }

  /**
   * `FrequencyBase.new(key_root, frequency, date, _build_key_name, **kwds)`:
   * builds the key name (or takes the root as the key name), constructs the
   * entity from the keywords and sets the bucket properties of the frequency,
   * and no others.
   */
  method FrequencyNew(kind: Kind, keyRoot: string, frequency: string, date: Date, buildKeyName: bool,
                      kwds: map<Prop, Value>)
    returns (r: Result<Entity, Error>)
    ensures r.Failure? <==> buildKeyName && frequency !in ValidFrequencies
    ensures r.Failure? ==> r.error == FrequencyError(frequency)
    ensures r.Success? ==>
      && r.value.kind == kind
      && r.value.keyName == NewKeyName(keyRoot, frequency, date, buildKeyName)
      && WellFormed(r.value)
      && HasBuckets(r.value, frequency, date)
      && (forall p :: p in r.value.props && !InBucket(p, frequency) ==> r.value.props[p] == Given(kwds, p))
    ensures r.Success? && NoBucketKeywords(kwds) ==> OnlyBuckets(r.value, frequency)
  {
    var keyName := keyRoot;
    if buildKeyName {
      var built := BuildKeyName(keyRoot, frequency, date);
      if built.Failure? {
        return Failure(built.error);
      }
      keyName := built.value;
    }
    var entity := Construct(kind, keyName, kwds);
    entity := AssignBuckets(entity, frequency, date);
    return Success(entity);
  }

  /**
   * `StoreFrequencyBase.new`: `FrequencyBase.new`, then `store` is pointed at
   * the store named by `AmazonURLParser.root_url(key_root)`, whatever the
   * keywords gave it.
   */
  method StoreNew(kind: Kind, keyRoot: string, frequency: string, date: Date, buildKeyName: bool,
                  kwds: map<Prop, Value>, parser: UrlParser)
    returns (r: Result<Entity, Error>)
    requires HasStore(kind)
    ensures r.Failure? <==> buildKeyName && frequency !in ValidFrequencies
    ensures r.Failure? ==> r.error == FrequencyError(frequency)
    ensures r.Success? ==>
      && r.value.kind == kind
      && r.value.keyName == NewKeyName(keyRoot, frequency, date, buildKeyName)
      && WellFormed(r.value)
      && HasBuckets(r.value, frequency, date)
      && r.value.props[Store] == KeyV(StoreKey(parser.rootUrl(keyRoot)))
      && (forall p :: p in r.value.props && !InBucket(p, frequency) && p != Store ==>
            r.value.props[p] == Given(kwds, p))
    ensures r.Success? && NoBucketKeywords(kwds) ==> OnlyBuckets(r.value, frequency)
  {
    var bucketed := FrequencyNew(kind, keyRoot, frequency, date, buildKeyName, kwds);
    if bucketed.Failure? {
      return Failure(bucketed.error);
    }
    var entity := bucketed.value;
    AssignOutsideBuckets(entity, Store, KeyV(StoreKey(parser.rootUrl(keyRoot))), frequency, date);
    entity := entity.With(Store, KeyV(StoreKey(parser.rootUrl(keyRoot))));
    return Success(entity);
  }

  /**
   * What `ProductRenderer.new` returns: a well-formed renderer under the new
   * key name, with the frequency's buckets (and, when the keywords set none,
   * no others), `store` and `url` derived from the root, and every other
   * property as the keywords or the defaults give it.
   */
  predicate IsNewRenderer(e: Entity, keyRoot: string, frequency: string, date: Date, buildKeyName: bool,
                          kwds: map<Prop, Value>, parser: UrlParser)
    requires buildKeyName ==> frequency in ValidFrequencies
  {
    && e.kind == ProductRenderer
    && e.keyName == NewKeyName(keyRoot, frequency, date, buildKeyName)
    && WellFormed(e)
    && HasBuckets(e, frequency, date)
    && (NoBucketKeywords(kwds) ==> OnlyBuckets(e, frequency))
    && e.props[Store] == KeyV(StoreKey(parser.rootUrl(keyRoot)))
    && e.props[Url] == StrV(parser.productUrl(keyRoot))
    && (forall p :: p in e.props && !InBucket(p, frequency) && p != Store && p != Url ==> e.props[p] == Given(kwds, p))
  }

  /**
   * `ProductRenderer.new`: `StoreFrequencyBase.new`, then `url` is set to
   * `AmazonURLParser.product_url(key_root)`, whatever the keywords gave it.
   */
  method RendererNew(keyRoot: string, frequency: string, date: Date, buildKeyName: bool,
                     kwds: map<Prop, Value>, parser: UrlParser)
    returns (r: Result<Entity, Error>)
    ensures r.Failure? <==> buildKeyName && frequency !in ValidFrequencies
    ensures r.Failure? ==> r.error == FrequencyError(frequency)
    ensures r.Success? ==> IsNewRenderer(r.value, keyRoot, frequency, date, buildKeyName, kwds, parser)
  {
    var stored := StoreNew(ProductRenderer, keyRoot, frequency, date, buildKeyName, kwds, parser);
    if stored.Failure? {
      return Failure(stored.error);
    }
    var entity := stored.value;
    AssignOutsideBuckets(entity, Url, StrV(parser.productUrl(keyRoot)), frequency, date);
    entity := entity.With(Url, StrV(parser.productUrl(keyRoot)));
    return Success(entity);
  }
}
