/**
 * The datastore entities of the core as values. A `db.Model` instance is its
 * kind, its key name and its declared properties by name; the properties are
 * kept in a map so that the keyword construction `cls(key_name=..., **kwds)`
 * and `clone_properties` (which hands a property dictionary back to that
 * construction) read as they do in the source.
 */
module Entities {
  import opened Calendar

  /** `db.Key.from_path(kind, name)`. */
  datatype Key = Key(kind: string, name: string)

  /** A property value: `None`, an integer, a boolean, a string or link, a date, or a reference stored as its key. */
  datatype Value = Null | IntV(i: int) | BoolV(b: bool) | StrV(s: string) | DateV(date: Date) | KeyV(key: Key)

  /** The exceptions the core raises. */
  datatype Error =
    | FrequencyError(frequency: string)  // an invalid frequency reached key derivation
    | IndexError                          // a key name or URL with too few segments
    | StoreException(message: string)     // a locale without a store
    | ValueError                          // `list.remove` of an element the list does not hold

  /** The frequency-keyed models of the core. */
  datatype Kind = UserCounter | ProductCounter | ProductRenderer

  function KindName(k: Kind): string {
    match k
    case UserCounter => "UserCounter"
    case ProductCounter => "ProductCounter"
    case ProductRenderer => "ProductRenderer"
  }

  /**
   * The declared property names: `day`, `week`, `month`, `year` (the date
   * buckets), `count`, `is_banned`, `is_ban_synched`, `store`, `url`,
   * `image_small`, `image_medium`, `image_large`, `product_group`, `title`.
   */
  datatype Prop =
    | Day | Week | Month | Year
    | Count | IsBanned | IsBanSynched | Store | Url
    | ImageSmall | ImageMedium | ImageLarge | ProductGroup | Title

  datatype Entity = Entity(kind: Kind, keyName: string, props: map<Prop, Value>)
  {
    /** `model.key()`. */
    function KeyOf(): Key {
      Key(KindName(kind), keyName)
    }

    /** `entity.<p> = v`. */
    function With(p: Prop, v: Value): Entity {
      this.(props := props[p := v])
    }
  }

  /** The date-bucket properties every `FrequencyBase` model declares. */
  predicate IsBucket(p: Prop) {
    p == Day || p == Week || p == Month || p == Year
  }

  /** Kinds that inherit `StoreFrequencyBase` and so hold a `store` reference. */
  predicate HasStore(k: Kind) {
    k == ProductCounter || k == ProductRenderer
  }

  /**
   * Whether a kind declares a property, inherited ones included: the buckets
   * come from `FrequencyBase`; `count` and `is_banned` from `CounterBase`
   * (and `ProductRenderer` declares its own); `store` from
   * `StoreFrequencyBase`; the rest only `ProductRenderer` declares.
   */
  predicate Declares(k: Kind, p: Prop) {
    match p
    case Day | Week | Month | Year | Count | IsBanned => true
    case Store => HasStore(k)
    case _ => k == ProductRenderer
  }

  /** `klass.properties()`: the declared properties of a kind. */
  function PropertySet(k: Kind): set<Prop> {
    set p: Prop | Declares(k, p)
  }

  /** The declared defaults: `count` 0, the ban flags `False`, everything else `None`. */
  function Default(p: Prop): Value {
    match p
    case Count => IntV(0)
    case IsBanned | IsBanSynched => BoolV(false)
    case _ => Null
  }

  /**
   * `cls(key_name=keyName, **kwds)`: every declared property takes its keyword
   * value when one is given and its default otherwise; keywords that name
   * properties the kind does not declare are ignored.
   */
  function Construct(kind: Kind, keyName: string, kwds: map<Prop, Value>): (e: Entity)
    ensures e.kind == kind && e.keyName == keyName && WellFormed(e)
    ensures forall p :: p in e.props ==> e.props[p] == Given(kwds, p)
  {
    Entity(kind, keyName, map p: Prop | Declares(kind, p) :: Given(kwds, p))
  }

  /**
   * Keywords naming properties the kind does not declare are ignored: two
   * keyword sets that agree on the declared properties construct the same
   * entity.
   */
  lemma ConstructIgnoresUndeclared(kind: Kind, keyName: string, kw1: map<Prop, Value>, kw2: map<Prop, Value>)
    requires forall p :: Declares(kind, p) ==> Given(kw1, p) == Given(kw2, p)
    ensures Construct(kind, keyName, kw1) == Construct(kind, keyName, kw2)
  {
    var e1, e2 := Construct(kind, keyName, kw1), Construct(kind, keyName, kw2);
    assert e1.props == e2.props;
  }

  /** The value a keyword construction gives property `p`. */
  function Given(kwds: map<Prop, Value>, p: Prop): Value {
    if p in kwds then kwds[p] else Default(p)
  }

  /** An entity as the datastore holds it: exactly its kind's declared properties. */
  predicate WellFormed(e: Entity) {
    forall p :: p in e.props <==> Declares(e.kind, p)
  }
}
