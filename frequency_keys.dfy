/**
 * `FrequencyBase`'s key scheme: a key name is the entity root, the frequency
 * and the frequency's date components, turned into strings and joined with
 * `|`. A daily key carries `str(date)`, a weekly key the calendar year and
 * the ISO week number, a monthly key the year and the month.
 */
module FrequencyKeys {
  import opened Wrappers
  import opened Strings
  import opened Calendar
  import opened Entities

  const Daily: string := "daily"
  const Weekly: string := "weekly"
  const Monthly: string := "monthly"

  /** `FrequencyBase._valid_frequencies`. */
  const ValidFrequencies: set<string> := {Daily, Weekly, Monthly}

  /** `FrequencyBase._default_delimiter`. */
  const Delimiter: char := '|'

  /** `str(date)`: the ISO form YYYY-MM-DD, ten characters with dashes at positions 4 and 7. */
  function DateString(d: Date): (r: string)
    ensures |r| == 10 && r[4] == '-' && r[7] == '-'
    ensures forall i :: 0 <= i < |r| && i != 4 && i != 7 ==> IsDigit(r[i])
    // the fields are the year, the month and the day, in that order
    ensures AllDigits(r[..4]) && AllDigits(r[5..7]) && AllDigits(r[8..])
    ensures ParseNat(r[..4]) == d.year && ParseNat(r[5..7]) == d.month && ParseNat(r[8..]) == d.day
  {
    var y, m, dd := ZeroPad(d.year, 4), ZeroPad(d.month, 2), ZeroPad(d.day, 2);
    NatToStringLength(d.year);
    NatToStringLength(d.month);
    NatToStringLength(d.day);
    DateFields(y, m, dd);
    ParseNatZeroPad(d.year, 4);
    ParseNatZeroPad(d.month, 2);
    ParseNatZeroPad(d.day, 2);
    Join([y, m, dd], '-')
  }

  /** Where the three fields and the two dashes of a dash-joined date sit. */
  lemma DateFields(y: string, m: string, dd: string)
    requires |y| == 4 && |m| == 2 && |dd| == 2
    ensures var s := Join([y, m, dd], '-');
            |s| == 10 && s[..4] == y && s[4] == '-' && s[5..7] == m && s[7] == '-' && s[8..] == dd
  {
    JoinCons(y, [m, dd], '-');
    JoinCons(m, [dd], '-');
    assert [y] + [m, dd] == [y, m, dd] && [m] + [dd] == [m, dd];
    var tail := m + ['-'] + dd;
    var s := y + ['-'] + tail;
    assert s[5..] == tail && tail[3..] == dd;
  }

  /** The segments a frequency appends after the root and the frequency itself. */
  function DateSegments(frequency: string, d: Date): seq<string> {
    if frequency == Daily then [DateString(d)]
    else if frequency == Weekly then [NatToString(d.year), NatToString(IsoWeek(d))]
    else if frequency == Monthly then [NatToString(d.year), NatToString(d.month)]
    else []
  }

  /**
   * `FrequencyBase.build_key_name`: fails with `FrequencyError` exactly for a
   * frequency outside daily, weekly and monthly. What a built key holds is
   * stated by `KeySegments`, `FrequencyFollowsRoot` and `KeyNameInjective`.
   */
  function BuildKeyName(root: string, frequency: string, date: Date): (r: Result<string, Error>)
    ensures r.Failure? <==> frequency !in ValidFrequencies
    ensures r.Failure? ==> r.error == FrequencyError(frequency)
  {
    if frequency !in ValidFrequencies then Failure(FrequencyError(frequency))
    else Success(Join([root, frequency] + DateSegments(frequency, date), Delimiter))
  }

  /**
   * `FrequencyBase.build_key`: the key of the built key name under the
   * class's kind, from which the frequency reads back when the root is free
   * of the delimiter.
   */
  function BuildKey(kind: Kind, root: string, frequency: string, date: Date): (r: Result<Key, Error>)
    ensures r.Failure? <==> frequency !in ValidFrequencies
    ensures r.Failure? ==> r.error == FrequencyError(frequency)
    ensures r.Success? ==> r.value.kind == KindName(kind) && r.value.name == BuildKeyName(root, frequency, date).value
    ensures r.Success? && Delimiter !in root ==> FrequencyFromKeyName(r.value.name) == Success(frequency)
  {
    var name := BuildKeyName(root, frequency, date);
    if name.Failure? then Failure(name.error)
    else
      var key := Key(KindName(kind), name.value);
      assert Delimiter !in root ==> FrequencyFromKeyName(key.name) == Success(frequency) by {
        if Delimiter !in root {
          KeySegments(root, frequency, date);
        }
      }
      Success(key)
  }

  /** `FrequencyBase.frequency_from_key_name`: the second segment; a key without a delimiter raises `IndexError`. */
  function FrequencyFromKeyName(keyName: string): (r: Result<string, Error>)
    ensures r.Success? ==> Delimiter !in r.value
    ensures r.Failure? <==> Delimiter !in keyName
    ensures r.Failure? ==> r.error == IndexError
    // the result is the text after the first delimiter, up to the next one
    ensures r.Success? ==>
      var i := |Split(keyName, Delimiter)[0]|;
      i < |keyName| && r.value <= keyName[i + 1..] && (|r.value| == |keyName| - i - 1 || keyName[i + 1 + |r.value|] == Delimiter)
  {
    var segments := Split(keyName, Delimiter);
    if |segments| < 2 then
      assert Delimiter !in keyName by {
        if Delimiter in keyName {
          JoinSplit(keyName, Delimiter);
        }
      }
      Failure(IndexError)
    else
      assert Delimiter in keyName by {
        JoinSplit(keyName, Delimiter);
        assert keyName[|segments[0]|] == Delimiter;
      }
      var i := |segments[0]|;
      assert keyName == segments[0] + [Delimiter] + keyName[i + 1..];
      SplitAfterSegment(segments[0], Delimiter, keyName[i + 1..]);
      Success(segments[1])
  }

  /** `FrequencyBase.key_root`: the first segment of the entity's key name. */
  function KeyRoot(e: Entity): (r: string)
    ensures r <= e.keyName && Delimiter !in r
    ensures |r| == |e.keyName| || e.keyName[|r|] == Delimiter
  {
    Split(e.keyName, Delimiter)[0]
  }

  /** What the date segments of a key identify: the day, the calendar year and ISO week, or the year and month. */
  predicate SameBucket(frequency: string, d1: Date, d2: Date) {
    if frequency == Daily then d1 == d2
    else if frequency == Weekly then d1.year == d2.year && IsoWeek(d1) == IsoWeek(d2)
    else d1.year == d2.year && d1.month == d2.month
  }

  lemma DateSegmentsAvoid(frequency: string, d: Date, c: char)
    requires !IsDigit(c) && c != '-'
    ensures forall i :: 0 <= i < |DateSegments(frequency, d)| ==> c !in DateSegments(frequency, d)[i]
  {
    var parts := [ZeroPad(d.year, 4), ZeroPad(d.month, 2), ZeroPad(d.day, 2)];
    forall i | 0 <= i < |parts| ensures c !in parts[i] {
      DigitsAvoid(parts[i], c);
    }
    JoinAvoids(parts, '-', c);
    DigitsAvoid(NatToString(d.year), c);
    DigitsAvoid(NatToString(IsoWeek(d)), c);
    DigitsAvoid(NatToString(d.month), c);
  }

  /** Splitting a built key at the delimiter gives back its root, its frequency and its date segments. */
  lemma {:induction false} KeySegments(root: string, frequency: string, date: Date)
    requires Delimiter !in root
    requires frequency in ValidFrequencies
    ensures Split(BuildKeyName(root, frequency, date).value, Delimiter) == [root, frequency] + DateSegments(frequency, date)
  {
    var segs := [root, frequency] + DateSegments(frequency, date);
    DateSegmentsAvoid(frequency, date, Delimiter);
    forall i | 0 <= i < |segs| ensures Delimiter !in segs[i] {
      if i >= 2 {
        assert segs[i] == DateSegments(frequency, date)[i - 2];
      }
    }
    SplitJoin(segs, Delimiter);
  }

  /** A root free of the delimiter and a valid frequency are read back from the key built from them. */
  lemma {:induction false} KeyRoundTrip(root: string, frequency: string, date: Date, e: Entity)
    requires Delimiter !in root
    requires frequency in ValidFrequencies
    requires e.keyName == BuildKeyName(root, frequency, date).value
    ensures FrequencyFromKeyName(e.keyName) == Success(frequency)
    ensures KeyRoot(e) == root
  {
    KeySegments(root, frequency, date);
  }

  /** `str(date)` tells dates apart. */
  lemma {:induction false} DateStringInjective(d1: Date, d2: Date)
    requires DateString(d1) == DateString(d2)
    ensures d1 == d2
  {
    var p1 := [ZeroPad(d1.year, 4), ZeroPad(d1.month, 2), ZeroPad(d1.day, 2)];
    var p2 := [ZeroPad(d2.year, 4), ZeroPad(d2.month, 2), ZeroPad(d2.day, 2)];
    forall i | 0 <= i < 3 ensures '-' !in p1[i] && '-' !in p2[i] {
      DigitsAvoid(p1[i], '-');
      DigitsAvoid(p2[i], '-');
    }
    SplitJoin(p1, '-');
    SplitJoin(p2, '-');
    assert p1 == p2;
    ParseNatZeroPad(d1.year, 4);
    ParseNatZeroPad(d2.year, 4);
    ParseNatZeroPad(d1.month, 2);
    ParseNatZeroPad(d2.month, 2);
    ParseNatZeroPad(d1.day, 2);
    ParseNatZeroPad(d2.day, 2);
  }

  /**
   * For roots free of the delimiter, two keys are equal exactly when root,
   * frequency and date bucket are: keys are deterministic and never collide.
   */
  lemma {:induction false} KeyNameInjective(r1: string, f1: string, d1: Date, r2: string, f2: string, d2: Date)
    requires Delimiter !in r1 && Delimiter !in r2
    requires f1 in ValidFrequencies && f2 in ValidFrequencies
    ensures BuildKeyName(r1, f1, d1) == BuildKeyName(r2, f2, d2) <==> r1 == r2 && f1 == f2 && SameBucket(f1, d1, d2)
  {
    if BuildKeyName(r1, f1, d1) == BuildKeyName(r2, f2, d2) {
      KeySegments(r1, f1, d1);
      KeySegments(r2, f2, d2);
      var s1 := [r1, f1] + DateSegments(f1, d1);
      var s2 := [r2, f2] + DateSegments(f2, d2);
      assert s1 == s2;
      assert s1[0] == r1 && s2[0] == r2 && s1[1] == f1 && s2[1] == f2;
      if f1 == Daily {
        assert s1[2] == DateString(d1) && s2[2] == DateString(d2);
        DateStringInjective(d1, d2);
      } else {
        assert s1[2] == NatToString(d1.year) && s2[2] == NatToString(d2.year);
        NatToStringInjective(d1.year, d2.year);
        if f1 == Weekly {
          assert s1[3] == NatToString(IsoWeek(d1)) && s2[3] == NatToString(IsoWeek(d2));
          NatToStringInjective(IsoWeek(d1), IsoWeek(d2));
        } else {
          assert s1[3] == NatToString(d1.month) && s2[3] == NatToString(d2.month);
          NatToStringInjective(d1.month, d2.month);
        }
      }
    }
  }

  /**
   * Keys of one root never collide across frequencies, whatever the dates and
   * even for a root that holds the delimiter: the character after the root's
   * delimiter is the first letter of the frequency.
   */
  lemma FrequenciesNeverCollide(root: string, f1: string, d1: Date, f2: string, d2: Date)
    requires f1 in ValidFrequencies && f2 in ValidFrequencies && f1 != f2
    ensures BuildKeyName(root, f1, d1).value != BuildKeyName(root, f2, d2).value
  {
    FrequencyFollowsRoot(root, f1, d1);
    FrequencyFollowsRoot(root, f2, d2);
  }

  /** In a built key, the root and one delimiter are followed by the frequency's first letter. */
  lemma FrequencyFollowsRoot(root: string, frequency: string, date: Date)
    requires frequency in ValidFrequencies
    ensures var k := BuildKeyName(root, frequency, date).value;
            |k| > |root| + 1 && k[..|root|] == root && k[|root|] == Delimiter && k[|root| + 1] == frequency[0]
  {
    var tail := [frequency] + DateSegments(frequency, date);
    assert [root, frequency] + DateSegments(frequency, date) == [root] + tail;
    JoinCons(root, tail, Delimiter);
    JoinHead(tail, Delimiter);
  }

  /**
   * The weekly key pairs the calendar year with the ISO week number, so
   * 2008-12-29 (ISO week 1 of 2009) and 2008-01-01 (ISO week 1 of 2008) share
   * a weekly key although they fall in different ISO weeks.
   */
  lemma WeeklyKeyUsesCalendarYear(root: string)
    ensures IsoCalendar(YearMonthDay(2008, 12, 29)) == IsoDate(2009, 1, 1)
    ensures IsoCalendar(YearMonthDay(2008, 1, 1)) == IsoDate(2008, 1, 2)
    ensures BuildKeyName(root, Weekly, YearMonthDay(2008, 12, 29)) == BuildKeyName(root, Weekly, YearMonthDay(2008, 1, 1))
  {
    assert Ordinal(2008, 1, 1) == 733042;
    assert IsoWeek1Monday(2008) == 733041;
    assert Ordinal(2008, 12, 29) == 733405;
    assert IsoWeek1Monday(2009) == 733405;
  }
}
