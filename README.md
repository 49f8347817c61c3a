# TweetHit key, counter and renderer core in Dafny

This project models the storage core of TweetHit (`tweethit/model.py`), a
service that counts mentions of Amazon products and Twitter users by day,
ISO week and month. It has five parts:

- **Frequency keys** (`frequency_keys.dfy`). Every counter and renderer lives
  under a key name made of an entity root, a frequency (`daily`, `weekly` or
  `monthly`) and the date components of that frequency, joined with the delimiter, a vertical bar.
  `build_key_name`, `build_key`, `frequency_from_key_name` and `key_root` are
  functions. `calendar.dfy` gives `date.isocalendar()` in CPython's own integer
  arithmetic. `strings.dfy` gives `str.split`, `str.join`, `str(int)` and
  zero padding.
- **Store keys** (`stores.dfy`). `Store.key_for_locale` is a closed six-entry
  table. `Store.key_from_product_url` keeps the third `/`-separated segment of a product URL, which is the host for a URL of the form `scheme://host/...`.
- **Entity construction** (`entities.dfy`, `construction.dfy`).
  - A `db.Model` instance is an `Entity`: its kind, its key name and its
    declared properties.
  - `FrequencyBase.new` and the overrides chained onto it are methods that
    assign the fields step by step:
    - `StoreFrequencyBase.new` sets `store`.
    - `ProductRenderer.new` sets `url`.
- **Counter buffering** (`counters.dfy`).
  - The volatile tier (memcache) is a class holding the counter entities and
    the `counter_keys` list.
  - A counter class is a class with its own `_MIN_COUNT_FOR_DB_WRITE`.
  - `filtered_update` writes every counter to the tier. It registers only the
    counters at or above the threshold.
- **Renderer composition and the banlist** (`renderers.dfy`, `banlists.dfy`).
  - `ProductRenderer.build` clones the first stored sibling renderer.
  - `clone_properties` fills a dictionary and then pops the excluded names.
  - `Banlist.retrieve` is a lazily created singleton.

Some parts of the source cannot run inside the model, so they become
parameters:

- `AmazonURLParser.root_url` and `AmazonURLParser.product_url` are a pair of
  functions (`Stores.UrlParser`).
- The datastore is a map from key name to entity.
- The datastore queries of `Banlist.retrieve` are their results, newest first.

The weekly key (`tweethit/model.py:47`) is `date.year`, the calendar year,
followed by the ISO week number `date.isocalendar()[1]`, and the model writes
it the same way. `FrequencyKeys.WeeklyKeyUsesCalendarYear` shows what follows:
2008-12-29 (ISO week 1 of 2009) and 2008-01-01 (ISO week 1 of 2008) share one
weekly key.

A `db.Model` keyword construction `cls(key_name=..., **kwds)` is modelled by
`Entities.Construct`: every declared property takes its keyword value when one
is given and its declared default otherwise.

## Model

| member | source | states |
|---|---|---|
| FrequencyKeys.BuildKeyName | tweethit/model.py:38-52 | key building fails, with `FrequencyError(frequency)`, exactly when the frequency is not daily, weekly or monthly; what a built key holds is stated by `KeySegments`, `FrequencyFollowsRoot` and `KeyNameInjective` |
| FrequencyKeys.DateString | tweethit/model.py:45 | `str(date)` is `YYYY-MM-DD`: ten characters with dashes at positions 4 and 7, where the first four digits read as the year, the next two as the month and the last two as the day; `DateStringInjective` shows it tells dates apart |
| FrequencyKeys.KeySegments | tweethit/model.py:43-52 | for a root without the delimiter, the built key splits back into the root, the frequency and the frequency's date segments (the date string; the calendar year and ISO week; or the year and month) |
| FrequencyKeys.KeyRoundTrip | tweethit/model.py:25-31 | for a root without the delimiter, `frequency_from_key_name` of a built key returns the frequency, and `key_root` returns the root |
| FrequencyKeys.FrequencyFromKeyName | tweethit/model.py:25-26 | the text after the first delimiter, up to the next one; it fails with `IndexError` exactly when the key name holds no delimiter, and a result never holds the delimiter |
| FrequencyKeys.KeyRoot | tweethit/model.py:28-31 | the root is the longest prefix of the key name without the delimiter |
| FrequencyKeys.BuildKey | tweethit/model.py:33-36 | the key has the class's kind and `build_key_name`'s result as its name; it fails exactly on an invalid frequency; for a root without the delimiter, the frequency reads back from the key's name |
| FrequencyKeys.DateStringInjective | tweethit/model.py:45 | two dates with the same `str(date)` are the same date |
| FrequencyKeys.KeyNameInjective | tweethit/model.py:39-52 | for roots without the delimiter, two keys are equal exactly when their roots, frequencies and date buckets are equal |
| FrequencyKeys.FrequenciesNeverCollide | tweethit/model.py:43-52 | keys of one root under two different frequencies always differ, whatever the dates, even when the root holds the delimiter |
| FrequencyKeys.FrequencyFollowsRoot | tweethit/model.py:43-52 | a built key is the root, then the delimiter, then the first letter of the frequency |
| FrequencyKeys.WeeklyKeyUsesCalendarYear | tweethit/model.py:46-47 | the weekly key pairs the calendar year with the ISO week, so dates in different ISO weeks can share a weekly key |
| Calendar.IsoCalendar | tweethit/model.py:47 | `date.isocalendar()` gives a week number in 1..53, a weekday in 1..7, and an ISO year within one of the calendar year |
| Stores.KeyForLocale | tweethit/model.py:108-126 | a store key always extends `http://www.amazon.`; any locale outside the table fails with `StoreException("Store not found for locale: " + locale)` |
| Stores.KeyForLocaleMatchesTable | tweethit/model.py:108-126 | the locale succeeds exactly for us, uk, de, ca, fr and jp, and gets `http://` plus that locale's host |
| Stores.KeyForLocaleInjective | tweethit/model.py:108-126 | two locales never share a store |
| Stores.KeyFromProductUrl | tweethit/model.py:103-106 | the store is `http://` followed by a segment without `/`, and any failure is `IndexError` |
| Stores.KeyFromShortUrlFails | tweethit/model.py:105 | a URL with no `/`, or with one, fails with `IndexError` |
| Stores.KeyFromUrlWithPath | tweethit/model.py:103-106 | for slash-free `a`, `b` and `host`, the URL `a/b/host`, alone or followed by `/` and anything, gives the store `http://host` |
| Stores.ProductUrlUnderLocaleRoot | tweethit/model.py:103-126 | a product URL under a locale's storefront gives the same store as that locale |
| Entities.ConstructIgnoresUndeclared | tweethit/model.py:61 | keywords that name properties the kind does not declare have no effect: keyword sets agreeing on the declared properties construct the same entity |
| Construction.NewKeyName | tweethit/model.py:56-59 | without key building the key name is the root; with it, the name is the root, then the delimiter, then the frequency's first letter |
| Construction.AssignOutsideBuckets | tweethit/model.py:183-185 | assigning a declared property outside the buckets (as `new` does with `store` and `url`) sets it and keeps the property set, every other property and the bucket facts |
| Construction.AssignBuckets | tweethit/model.py:63-70 | `day`, `week` with `year`, or `month` with `year` are set from the date for the frequency; other properties are untouched; when all buckets started unset, only that frequency's buckets hold values |
| Construction.FrequencyNew | tweethit/model.py:54-72 | fails exactly when the key is built and the frequency is invalid; otherwise gives a well-formed entity under the new key name, with the frequency's buckets and every other property from the keywords or defaults |
| Construction.StoreNew | tweethit/model.py:181-186 | as `FrequencyBase.new`, with `store` pointing at the store named by `root_url(key_root)`, whatever the keywords gave |
| Construction.RendererNew | tweethit/model.py:213-218 | as `StoreFrequencyBase.new`, with `url` set to `product_url(key_root)`, whatever the keywords gave |
| Counters.DbTargets | tweethit/model.py:146-147 | the registered keys are exactly the keys of the counters whose count is at least the threshold; a counter without a count never qualifies |
| Counters.PutAll | tweethit/model.py:148 | the tier's keys become the old keys together with every counter's key; `PutAllStores`, `PutAllLastWins` and `PutAllKeeps` give the entries |
| Counters.PutAllStores | tweethit/model.py:148 | after the put every counter's key is in the tier |
| Counters.PutAllLastWins | tweethit/model.py:148 | of the counters written under one key, the last one is the one the tier keeps |
| Counters.PutAllKeeps | tweethit/model.py:148 | an entry under a key no counter is written under is kept, and an absent one stays absent |
| Counters.Union | tweethit/model.py:156 | `list(set(a + b))` holds each key of `a` or `b` exactly once |
| Counters.CounterClass.GetCachedCounterKeys | tweethit/model.py:159-166 | returns the stored list, first creating an empty one when it is missing |
| Counters.CounterClass.SetCachedCounterKeys | tweethit/model.py:168-170 | the stored list becomes the given one |
| Counters.CounterClass.UpdateCachedCounterKeys | tweethit/model.py:152-157 | the stored keys become the old ones together with the new ones, without duplicates and without losing any |
| Counters.CounterClass.FilteredUpdate | tweethit/model.py:144-150 | every counter is put into the tier; `counter_keys` gains exactly the qualifying keys, and is left alone when none qualify |
| Renderers.NoCopyListed | tweethit/model.py:222 | `no_copy` names each bucket property and `count`, each once |
| Renderers.CloneProperties | tweethit/model.py:220-235 | the clone holds every declared property except the buckets and `count`, each with the renderer's value |
| Renderers.Collect | tweethit/model.py:227-231 | the dictionary holds exactly the named properties, each with the entity's value |
| Renderers.PopEach | tweethit/model.py:233-234 | popping removes exactly the named entries and keeps every other one |
| Renderers.FirstIndex | tweethit/model.py:203 | the position of the first occurrence of an element |
| Renderers.RemoveFirst | tweethit/model.py:203 | `list.remove` shortens the list by one and keeps only elements of the list; `RemoveFirstCutsFirst` says which one goes |
| Renderers.RemoveFirstCutsFirst | tweethit/model.py:203 | `list.remove` cuts out exactly the first occurrence and keeps the rest in order |
| Renderers.SiblingOrder | tweethit/model.py:202-203 | the siblings are monthly then weekly for daily, daily then weekly for monthly, and daily then monthly for weekly |
| Renderers.Siblings | tweethit/model.py:202-203 | two sibling frequencies, both valid, neither the requested one |
| Renderers.FirstStored | tweethit/model.py:204-208 | whatever the search finds is a stored renderer; `FirstStoredFinds` says which one |
| Renderers.FirstStoredFinds | tweethit/model.py:204-208 | the search finds nothing exactly when no sibling key is stored; otherwise it returns the renderer of the earliest stored sibling |
| Renderers.CloneKeywords | tweethit/model.py:210-211 | the keywords passed to `new` set no bucket, carry the caller's count, and carry every cloned property |
| Renderers.NewFromClone | tweethit/model.py:210-218 | a renderer made by `new` from a clone and a count is composed from the clone's source |
| Renderers.NewFromSibling | tweethit/model.py:210-211 | the composed renderer has the requested key name and only its frequency's buckets. It carries the caller's count, `store` and `url` derived from the root, and every other property of the sibling |
| Renderers.Build | tweethit/model.py:200-211 | a frequency outside the three fails with `ValueError`. Otherwise a renderer is returned exactly when a sibling renderer is stored, and it is composed from the first such sibling |
| Banlists.Backfill | tweethit/model.py:268-271 | the first `min(n, 1000)` names, newest first |
| Banlists.BanlistStore.Retrieve | tweethit/model.py:259-274 | an existing banlist is returned unchanged. Otherwise, when the storage names the datastore, a banlist backfilled from the newest products and users is stored and returned. Otherwise nothing is returned. The backfill runs at most once |
| Banlists.RetrieveTwice | tweethit/model.py:267 | once a retrieval has returned the banlist, the next one returns the same entity, and the backfill has run at most once |

## Left out

- `AmazonURLParser` is not part of this model. `root_url` and `product_url` are uninterpreted function parameters. `extract_asin` and `ROOT_URL_SET` are not modelled, so `Store.get_all_store_keys` and the `Url` model's properties are left out.
- Storage tiers (PerformanceEngine `pdb`, memcache, the App Engine datastore) are in-memory values: a map from key to entity for the volatile tier, a map from key name to renderer for stored renderers, and one optional banlist. The caching, expiry and consistency semantics of the real tiers are not modelled.
- Roots and key names are sequences of characters. Python 2's split between `str` and `unicode`, and the ASCII encoding `str()` applies in `map(str, key_arr)`, are not modelled: a `unicode` root holding a non-ASCII character raises `UnicodeEncodeError` there, while the model builds its key. Roots are taken to be ASCII, as product URLs and user names are.
- `str(model.key())` is modelled as the `Key` value itself. The datastore's encoded key string is engine-internal.
- Renderers.Build: requires every stored renderer to be a well-formed `ProductRenderer`. This stands for `get_by_key_name` on the `ProductRenderer` kind, which only returns entities of that kind.
- Concurrent read-modify-write of `counter_keys`, and two first retrievals of the banlist racing each other, are not modelled. The model is sequential.
- Counters.Union: its contract leaves the order of the merged list unspecified, because `list(set(...))` has no defined order.
- Renderers.Collect: its contract leaves the order in which the properties are read unspecified, because `properties()` is a dictionary.
- `CounterBase._MIN_COUNT_FOR_DB_WRITE = None` is not modelled. Each counter class is built with an integer threshold, as `UserCounter` and `ProductCounter` set one from configuration.
- Property type validation by `db.Model` (for example that `count` is an integer) is not modelled. A value of any `Value` shape is accepted.
- `FrequencyError.__str__`, which reads an attribute the constructor never sets, is not modelled. The error carries the frequency.
- `Payload`, `OperationFlags`, `Response`, `Product`, `TwitterUser` and `Url` are not modelled. They are wrappers without logic, or depend on `repr` and `eval`.
- The `add_date` ordering of the banlist queries is not modelled. The caller passes the key names already sorted newest first.
