/**
 * Loading the application settings: the built-in defaults, overridden key by
 * key by a JSON object read from the settings file, with the year keys of
 * `EPS_PROJECTIONS` turned into integers.
 *
 * Reading and parsing the file are an input (`ConfigSource`). A dict is an
 * entry list in insertion order, as Python keeps it.
 */
module Config {
  import opened Wrappers
  import opened PyNum

  /** A dict key: the JSON text only has strings, normalisation adds integers. */
  datatype Key = StrKey(s: string) | IntKey(n: int)

  datatype Json =
    | Null
    | Bool(b: bool)
    | Int(i: int)
    | Float(r: real)
    | Str(s: string)
    | Arr(items: seq<Json>)
    | Obj(entries: seq<Entry>)

  datatype Entry = Entry(key: Key, value: Json)

  type Dict = seq<Entry>

  /** What reading the settings file yields. */
  datatype ConfigSource =
    | Missing
    | Unreadable          // reading or parsing raised
    | Parsed(value: Json)

  /** A Python dict never holds a key twice. */
  predicate DistinctKeys(d: Dict)
  {
    forall i, j :: 0 <= i < j < |d| ==> d[i].key != d[j].key
  }

  /** `d.get(k)`. */
  function Get(d: Dict, k: Key): Option<Json>
  {
    if d == [] then None
    else if d[0].key == k then Some(d[0].value)
    else Get(d[1..], k)
  }

  /** A key is found exactly when some entry holds it, and then with that entry's value. */
  lemma {:induction false} GetFinds(d: Dict, k: Key)
    ensures Get(d, k).Some? <==> exists i :: 0 <= i < |d| && d[i].key == k
    ensures Get(d, k).Some? ==> exists i :: 0 <= i < |d| && d[i] == Entry(k, Get(d, k).value)
  {
    if d != [] && d[0].key != k {
      GetFinds(d[1..], k);
      assert forall i :: 1 <= i < |d| ==> d[i] == d[1..][i - 1];
    }
  }

  /** The first entry holding a key is the one found. */
  lemma {:induction false} GetFirst(d: Dict, i: nat)
    requires i < |d|
    requires forall j :: 0 <= j < i ==> d[j].key != d[i].key
    ensures Get(d, d[i].key) == Some(d[i].value)
  {
    if i > 0 {
      GetFirst(d[1..], i - 1);
    }
  }

  /** `d[k] = v`: replaces the value of an existing key in place, appends a new key at the end. */
  function Put(d: Dict, k: Key, v: Json): (r: Dict)
    ensures forall k' :: Get(r, k') == if k' == k then Some(v) else Get(d, k')
    ensures DistinctKeys(d) ==> DistinctKeys(r)
  {
    if d == [] then [Entry(k, v)]
    else if d[0].key == k then
      assert forall k' :: Get([Entry(k, v)] + d[1..], k') == if k' == k then Some(v) else Get(d[1..], k');
      [Entry(k, v)] + d[1..]
    else
      var rest := Put(d[1..], k, v);
      assert DistinctKeys(d) ==> forall j :: 0 <= j < |rest| ==> rest[j].key != d[0].key by {
        if DistinctKeys(d) {
          GetFinds(d[1..], d[0].key);
          forall j | 0 <= j < |rest|
            ensures rest[j].key != d[0].key
          {
            GetFinds(rest, rest[j].key);
          }
        }
      }
      [d[0]] + rest
  }

  /** `d.update(other)`: the entries of `other` put into `d` in order. */
  function Merge(d: Dict, other: Dict): Dict
  {
    if other == [] then d
    else
      var last := other[|other| - 1];
      Put(Merge(d, other[..|other| - 1]), last.key, last.value)
  }

  /** After an update every key of `other` holds its value there and every other key of `d` is kept. */
  lemma {:induction false} MergeGet(d: Dict, other: Dict)
    requires DistinctKeys(other)
    ensures forall k :: Get(Merge(d, other), k) == if Get(other, k).Some? then Get(other, k) else Get(d, k)
  {
    if other != [] {
      var init, last := other[..|other| - 1], other[|other| - 1];
      assert DistinctKeys(init);
      MergeGet(d, init);
      assert other == init + [last];
      GetSnoc(init, last);
      GetFinds(init, last.key);
    }
  }

  lemma GetSnoc(d: Dict, e: Entry)
    ensures forall k :: Get(d + [e], k) == if Get(d, k).Some? then Get(d, k) else if k == e.key then Some(e.value) else None
  {
    if d != [] {
      GetSnoc(d[1..], e);
      assert (d + [e])[1..] == d[1..] + [e];
    }
  }

  /** Whitespace `int()` strips around its argument. */
  predicate IsSpace(c: char)
  {
    || c == ' ' || '\t' <= c <= '\r' || '\U{1c}' <= c <= '\U{1f}' || c == '\U{85}' || c == '\U{a0}'
    || c == '\U{1680}' || '\U{2000}' <= c <= '\U{200a}' || c == '\U{2028}' || c == '\U{2029}'
    || c == '\U{202f}' || c == '\U{205f}' || c == '\U{3000}'
  }

  predicate IsDigit(c: char)
  {
    '0' <= c <= '9'
  }

  /** `s.strip()`: `s` without the whitespace at both ends. */
  function Strip(s: string): (t: string)
    ensures |t| <= |s|
    ensures t != [] ==> !IsSpace(t[0]) && !IsSpace(t[|t| - 1])
    ensures s != [] && !IsSpace(s[0]) && !IsSpace(s[|s| - 1]) ==> t == s
  {
    if s == [] then []
    else if IsSpace(s[0]) then Strip(s[1..])
    else if IsSpace(s[|s| - 1]) then Strip(s[..|s| - 1])
    else s
  }

  /** `s[i..j]` is `s` with only whitespace cut from each end. */
  ghost predicate TrimmedSlice(s: string, i: int, j: int)
  {
    && 0 <= i <= j <= |s|
    && (forall k :: 0 <= k < i ==> IsSpace(s[k]))
    && (forall k :: j <= k < |s| ==> IsSpace(s[k]))
  }

  /** Cutting a leading space: a trimmed slice of the rest is one of the whole, one position further. */
  lemma TrimmedSliceFront(s: string, i: int, j: int)
    requires s != [] && IsSpace(s[0]) && TrimmedSlice(s[1..], i, j)
    ensures TrimmedSlice(s, i + 1, j + 1) && s[1..][i..j] == s[i + 1..j + 1]
  {
    var u := s[1..];
    assert forall k :: 1 <= k < |s| ==> s[k] == u[k - 1];
  }

  /** Cutting a trailing space: a trimmed slice of the rest is one of the whole. */
  lemma TrimmedSliceBack(s: string, i: int, j: int)
    requires s != [] && IsSpace(s[|s| - 1]) && TrimmedSlice(s[..|s| - 1], i, j)
    ensures TrimmedSlice(s, i, j) && s[..|s| - 1][i..j] == s[i..j]
  {
    var u := s[..|s| - 1];
    assert forall k :: 0 <= k < |u| ==> s[k] == u[k];
  }

  /** What `Strip` returns is a slice of its argument, and only whitespace is cut away. */
  lemma {:induction false} StripIsTrimmedSlice(s: string)
    ensures exists i, j :: TrimmedSlice(s, i, j) && Strip(s) == s[i..j]
  {
    if s == [] {
      assert TrimmedSlice(s, 0, 0) && Strip(s) == s[0..0];
    } else if IsSpace(s[0]) {
      StripIsTrimmedSlice(s[1..]);
      var i, j :| TrimmedSlice(s[1..], i, j) && Strip(s[1..]) == s[1..][i..j];
      TrimmedSliceFront(s, i, j);
      assert TrimmedSlice(s, i + 1, j + 1) && Strip(s) == s[i + 1..j + 1];
    } else if IsSpace(s[|s| - 1]) {
      StripIsTrimmedSlice(s[..|s| - 1]);
      var i, j :| TrimmedSlice(s[..|s| - 1], i, j) && Strip(s[..|s| - 1]) == s[..|s| - 1][i..j];
      TrimmedSliceBack(s, i, j);
      assert TrimmedSlice(s, i, j) && Strip(s) == s[i..j];
    } else {
      assert TrimmedSlice(s, 0, |s|) && Strip(s) == s[0..|s|];
    }
  }

  /** A digit string in which single underscores may separate digits. */
  predicate WellFormedDigits(s: string)
  {
    && s != [] && IsDigit(s[0]) && IsDigit(s[|s| - 1])
    && (forall i :: 0 <= i < |s| ==> IsDigit(s[i]) || s[i] == '_')
    && (forall i :: 0 <= i < |s| - 1 && s[i] == '_' ==> s[i + 1] != '_')
  }

  /** The number the digits of `s` spell, underscores skipped. */
  function DigitsValue(s: string): nat
  {
    if s == [] then 0
    else
      var c := s[|s| - 1];
      if IsDigit(c) then DigitsValue(s[..|s| - 1]) * 10 + (c as int - '0' as int)
      else DigitsValue(s[..|s| - 1])
  }

  /** `int(s)` for a string: None where Python raises `ValueError`. */
  function ParseInt(s: string): (r: Option<int>)
    ensures r.Some? ==> Strip(s) != []
  {
    var t := Strip(s);
    if t != [] && (t[0] == '+' || t[0] == '-') then
      var v: int := DigitsValue(t[1..]);
      if WellFormedDigits(t[1..]) then Some(if t[0] == '-' then -v else v)
      else None
    else if WellFormedDigits(t) then Some(DigitsValue(t))
    else None
  }

  lemma {:induction false} DigitsValueOfNat(n: nat)
    ensures DigitsValue(NatToString(n)) == n
  {
    var d := [(('0' as int) + n % 10) as char];
    if n >= 10 {
      DigitsValueOfNat(n / 10);
      assert (NatToString(n / 10) + d)[..|NatToString(n / 10) + d| - 1] == NatToString(n / 10);
    }
  }

  /** `str(m)` of a natural is a well-formed digit string spelling `m`. */
  lemma NatStringDigits(m: nat)
    ensures WellFormedDigits(NatToString(m)) && DigitsValue(NatToString(m)) == m
  {
    DigitsValueOfNat(m);
    var digits := NatToString(m);
    assert IsDigit(digits[0]) && IsDigit(digits[|digits| - 1]);
  }

  /** `str(n)` has no surrounding whitespace. */
  lemma IntStringStripped(n: int)
    ensures Strip(IntToString(n)) == IntToString(n)
  {
    var s := IntToString(n);
    var digits := NatToString(if n < 0 then -n else n);
    assert s == if n < 0 then "-" + digits else digits;
    assert !IsSpace(s[0]) && !IsSpace(s[|s| - 1]);
  }

  /** `int(str(n)) == n`. */
  lemma ParseIntOfString(n: int)
    ensures ParseInt(IntToString(n)) == Some(n)
  {
    var m: nat := if n < 0 then -n else n;
    NatStringDigits(m);
    IntStringStripped(n);
    var digits := NatToString(m);
    if n < 0 {
      assert IntToString(n)[0] == '-' && IntToString(n)[1..] == digits;
    } else {
      assert IntToString(n) == digits;
      assert IsDigit(digits[0]);
    }
  }

  /** The key `int(key)` makes of a year key, or the key itself when that raises. */
  function NormalKey(k: Key): (r: Key)
    ensures k.StrKey? && ParseInt(k.s).Some? ==> r == IntKey(ParseInt(k.s).value)
    ensures k.StrKey? && ParseInt(k.s).None? ==> r == k
    ensures k.IntKey? ==> r == k
  {
    match k
    case StrKey(s) => (match ParseInt(s) case Some(n) => IntKey(n) case None => k)
    case IntKey(_) => k
  }

  /** The dict the normalisation loop builds: `normalized[int(key)] = value` in entry order. */
  function Normalized(entries: Dict): Dict
  {
    if entries == [] then []
    else
      var last := entries[|entries| - 1];
      Put(Normalized(entries[..|entries| - 1]), NormalKey(last.key), last.value)
  }

  /**
   * The normalised dict has exactly the normalised keys; a key holds the
   * value of the last entry normalising to it, so a value whose key does not
   * collide is kept as it was, and no key appears twice.
   */
  lemma {:induction false} NormalizedGet(entries: Dict)
    ensures forall k :: Get(Normalized(entries), k).Some? <==>
                        exists i :: 0 <= i < |entries| && NormalKey(entries[i].key) == k
    ensures forall i :: 0 <= i < |entries| && (forall j :: i < j < |entries| ==> NormalKey(entries[j].key) != NormalKey(entries[i].key))
                        ==> Get(Normalized(entries), NormalKey(entries[i].key)) == Some(entries[i].value)
    ensures DistinctKeys(Normalized(entries))
  {
    if entries != [] {
      var init, last := entries[..|entries| - 1], entries[|entries| - 1];
      NormalizedGet(init);
      assert forall i :: 0 <= i < |init| ==> init[i] == entries[i];
    }
  }

  /** The normalisation loop of `_load_config`. */
  method NormalizeKeys(entries: Dict) returns (normalized: Dict)
    ensures normalized == Normalized(entries)
  {
    normalized := [];
    for i := 0 to |entries|
      invariant normalized == Normalized(entries[..i])
    {
      assert entries[..i + 1][..i] == entries[..i];
      normalized := Put(normalized, NormalKey(entries[i].key), entries[i].value);
    }
    assert entries[..|entries|] == entries;
  }

  const EpsKey: Key := StrKey("EPS_PROJECTIONS")

  /** The settings with `EPS_PROJECTIONS` normalised when it is a dict. */
  function WithNormalizedEps(config: Dict): Dict
  {
    match Get(config, EpsKey)
    case Some(Obj(entries)) => Put(config, EpsKey, Obj(Normalized(entries)))
    case _ => config
  }

  /** Normalising touches only `EPS_PROJECTIONS`, and only when it holds a dict. */
  lemma WithNormalizedEpsGet(config: Dict)
    ensures forall k :: k != EpsKey ==> Get(WithNormalizedEps(config), k) == Get(config, k)
    ensures Get(WithNormalizedEps(config), EpsKey) ==
              match Get(config, EpsKey)
              case Some(Obj(entries)) => Some(Obj(Normalized(entries)))
              case other => other
  {
  }

  /** The built-in earnings-per-share projections, keyed by year strings. */
  function DefaultEps(): Dict
  {
    [ Entry(StrKey("2025"), Float(1.64)), Entry(StrKey("2026"), Float(2.17)), Entry(StrKey("2030"), Float(11.24)) ]
  }

  /** The built-in defaults. */
  function Defaults(): Dict
  {
    [ Entry(StrKey("TSLA_SHARES"), Int(525)),
      Entry(StrKey("CASH_AVAILABLE"), Int(0)),
      Entry(StrKey("RISK_TOLERANCE"), Float(0.05)),
      Entry(EpsKey, Obj(DefaultEps())),
      Entry(StrKey("BULLISH_THRESHOLD"), Int(50)),
      Entry(StrKey("DIP_THRESHOLD"), Int(30)),
      Entry(StrKey("OPTIONS_MIN_WEEKS"), Int(2)),
      Entry(StrKey("OPTIONS_MAX_WEEKS"), Int(4)),
      Entry(StrKey("ENABLE_COVERED_CALLS"), Bool(true)),
      Entry(StrKey("ENABLE_WHEEL_STRATEGY"), Bool(true)),
      Entry(StrKey("WHEEL_PUT_OTM_PCT"), Arr([Float(0.05), Float(0.075), Float(0.10)])),
      Entry(StrKey("WHEEL_MIN_CASH_RATIO"), Float(1.1)) ]
  }

  /** A source `_load_config` merges: a parsed JSON object. */
  predicate Overrides(source: ConfigSource)
  {
    source.Parsed? && source.value.Obj?
  }

  /** The settings `_load_config` returns. */
  function LoadedConfig(source: ConfigSource): Dict
    requires Overrides(source) ==> DistinctKeys(source.value.entries)
  {
    if Overrides(source) then WithNormalizedEps(Merge(Defaults(), source.value.entries)) else Defaults()
  }

  /** `base.update(data)` on a copy of `base`. */
  method Update(base: Dict, data: Dict) returns (merged: Dict)
    ensures merged == Merge(base, data)
  {
    merged := base;
    for i := 0 to |data|
      invariant merged == Merge(base, data[..i])
    {
      assert data[..i + 1][..i] == data[..i];
      merged := Put(merged, data[i].key, data[i].value);
    }
    assert data[..|data|] == data;
  }

  /** Replaces a dict under `EPS_PROJECTIONS` by its normalised form. */
  method NormalizeEps(config: Dict) returns (r: Dict)
    ensures r == WithNormalizedEps(config)
  {
    r := config;
    var eps := Get(config, EpsKey);
    if eps.Some? && eps.value.Obj? {
      var normalized := NormalizeKeys(eps.value.entries);
      r := Put(config, EpsKey, Obj(normalized));
    }
  }

  /** `_load_config`. A parsed JSON object is a dict, so its keys are distinct. */
  method LoadConfig(source: ConfigSource) returns (config: Dict)
    requires Overrides(source) ==> DistinctKeys(source.value.entries)
    ensures config == LoadedConfig(source)
  {
    if !Overrides(source) {
      return Defaults();
    }
    var merged := Update(Defaults(), source.value.entries);
    config := NormalizeEps(merged);
  }

  /** A missing, unreadable or non-object settings file yields exactly the defaults. */
  lemma FallbackIsDefaults(source: ConfigSource)
    requires !Overrides(source)
    ensures LoadedConfig(source) == Defaults()
  {
  }

  /**
   * With a settings object, the keys are those of the defaults and of the
   * object; every overridden key holds its override and every other key its
   * default, except that a dict under `EPS_PROJECTIONS` has its keys
   * normalised.
   */
  lemma LoadedConfigMerges(data: Dict)
    requires DistinctKeys(data)
    ensures var config := LoadedConfig(Parsed(Obj(data)));
      && (forall k :: Get(config, k).Some? <==> Get(Defaults(), k).Some? || Get(data, k).Some?)
      && (forall k :: k != EpsKey ==> Get(config, k) == if Get(data, k).Some? then Get(data, k) else Get(Defaults(), k))
      && var eps := if Get(data, EpsKey).Some? then Get(data, EpsKey).value else Get(Defaults(), EpsKey).value;
         Get(config, EpsKey) == Some(if eps.Obj? then Obj(Normalized(eps.entries)) else eps)
  {
    GetFirst(Defaults(), 3);
    MergedNormalized(Defaults(), data);
  }

  /** `LoadedConfigMerges` for any base dict holding `EPS_PROJECTIONS`. */
  lemma MergedNormalized(base: Dict, data: Dict)
    requires DistinctKeys(data)
    requires Get(base, EpsKey).Some?
    ensures var config := WithNormalizedEps(Merge(base, data));
      && (forall k :: Get(config, k).Some? <==> Get(base, k).Some? || Get(data, k).Some?)
      && (forall k :: k != EpsKey ==> Get(config, k) == if Get(data, k).Some? then Get(data, k) else Get(base, k))
      && var eps := if Get(data, EpsKey).Some? then Get(data, EpsKey).value else Get(base, EpsKey).value;
         Get(config, EpsKey) == Some(if eps.Obj? then Obj(Normalized(eps.entries)) else eps)
  {
    MergeGet(base, data);
    WithNormalizedEpsGet(Merge(base, data));
  }

  /** `EPS_PROJECTIONS[year]` as `project_yield` looks it up; None where that raises `KeyError`. */
  function EpsFor(config: Dict, year: int): Option<Json>
  {
    match Get(config, EpsKey)
    case Some(Obj(entries)) => Get(entries, IntKey(year))
    case _ => None
  }

  /** The default projections are keyed by strings, so an integer year is not found in them. */
  lemma DefaultsLackIntegerYears(year: int)
    ensures EpsFor(Defaults(), year) == None
  {
    GetFirst(Defaults(), 3);
    GetFinds(DefaultEps(), IntKey(year));
  }

  /** Without a settings file the year lookup fails, while an empty settings object makes it succeed. */
  lemma MissingFileBreaksYearLookup()
    ensures EpsFor(LoadedConfig(Missing), 2025) == None
    ensures EpsFor(LoadedConfig(Parsed(Obj([]))), 2025) == Some(Float(1.64))
  {
    DefaultsLackIntegerYears(2025);
    NormalizedDefaultsHaveYears();
  }

  function DigitAt(s: string, i: nat): int
    requires i < |s|
  {
    s[i] as int - '0' as int
  }

  /** A four-digit string parses as the number it spells. */
  lemma ParseFourDigits(s: string)
    requires |s| == 4 && forall i :: 0 <= i < 4 ==> IsDigit(s[i])
    ensures ParseInt(s) == Some(1000 * DigitAt(s, 0) + 100 * DigitAt(s, 1) + 10 * DigitAt(s, 2) + DigitAt(s, 3))
  {
    assert Strip(s) == s;
    assert WellFormedDigits(s);
    assert DigitsValue(s[..1]) == DigitAt(s, 0) by {
      assert s[..1][..0] == [];
    }
    assert DigitsValue(s[..2]) == DigitsValue(s[..1]) * 10 + DigitAt(s, 1) by {
      assert s[..2][..1] == s[..1];
    }
    assert DigitsValue(s[..3]) == DigitsValue(s[..2]) * 10 + DigitAt(s, 2) by {
      assert s[..3][..2] == s[..2];
    }
  }

  /** The default year strings parse as the years. */
  lemma DefaultYearKeys()
    ensures NormalKey(DefaultEps()[0].key) == IntKey(2025)
    ensures NormalKey(DefaultEps()[1].key) == IntKey(2026)
    ensures NormalKey(DefaultEps()[2].key) == IntKey(2030)
  {
    YearKey("2025", 2025);
    YearKey("2026", 2026);
    YearKey("2030", 2030);
  }

  lemma YearKey(s: string, year: int)
    requires |s| == 4 && forall i :: 0 <= i < 4 ==> IsDigit(s[i])
    requires 1000 * DigitAt(s, 0) + 100 * DigitAt(s, 1) + 10 * DigitAt(s, 2) + DigitAt(s, 3) == year
    ensures NormalKey(StrKey(s)) == IntKey(year)
  {
    ParseFourDigits(s);
  }

  /** The default projections with their keys normalised. */
  lemma NormalizedDefaultsHaveYears()
    ensures EpsFor(WithNormalizedEps(Defaults()), 2025) == Some(Float(1.64))
    ensures EpsFor(WithNormalizedEps(Defaults()), 2026) == Some(Float(2.17))
    ensures EpsFor(WithNormalizedEps(Defaults()), 2030) == Some(Float(11.24))
  {
    GetFirst(Defaults(), 3);
    NormalizedYears(Defaults());
  }

  /** Normalising a dict whose projections are the default ones makes the years integer keys. */
  lemma NormalizedYears(config: Dict)
    requires Get(config, EpsKey) == Some(Obj(DefaultEps()))
    ensures EpsFor(WithNormalizedEps(config), 2025) == Some(Float(1.64))
    ensures EpsFor(WithNormalizedEps(config), 2026) == Some(Float(2.17))
    ensures EpsFor(WithNormalizedEps(config), 2030) == Some(Float(11.24))
  {
    var eps := DefaultEps();
    DefaultYearKeys();
    NormalizedGet(eps);
    WithNormalizedEpsGet(config);
  }

  /** The settings with the normalisation applied on every path. */
  function LoadedConfigNormalized(source: ConfigSource): (config: Dict)
    requires Overrides(source) ==> DistinctKeys(source.value.entries)
    ensures !Overrides(source) ==> EpsFor(config, 2025) == Some(Float(1.64))
  {
    NormalizedDefaultsHaveYears();
    if Overrides(source) then LoadedConfig(source) else WithNormalizedEps(Defaults())
  }

  /** With normalisation on every path, the year lookup succeeds whenever the projections are not overridden. */
  lemma NormalizedYearLookup(source: ConfigSource)
    requires Overrides(source) ==> DistinctKeys(source.value.entries)
    requires Overrides(source) ==> Get(source.value.entries, EpsKey).None?
    ensures EpsFor(LoadedConfigNormalized(source), 2025) == Some(Float(1.64))
  {
    if Overrides(source) {
      LoadedConfigMerges(source.value.entries);
      NormalizedDefaultsHaveYears();
    }
  }

  /** The documented defaults: three wheel put distances, and a dip threshold below the bullish one. */
  lemma DefaultValues()
    ensures Get(Defaults(), StrKey("WHEEL_PUT_OTM_PCT")) == Some(Arr([Float(0.05), Float(0.075), Float(0.10)]))
    ensures Get(Defaults(), StrKey("DIP_THRESHOLD")) == Some(Int(30))
    ensures Get(Defaults(), StrKey("BULLISH_THRESHOLD")) == Some(Int(50))
  {
    GetFirst(Defaults(), 4);
    GetFirst(Defaults(), 5);
    GetFirst(Defaults(), 10);
  }
}
