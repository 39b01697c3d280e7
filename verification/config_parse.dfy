/**
 * The settings file read at start-up (`/etc/default/usbvol`).
 *
 * The file is read line by line, twice: once for the device identity
 * (`VENDOR_ID`, `PRODUCT_ID`, hexadecimal) and once for the volume settings
 * (`MIN_VOLUME`, `DEFAULT_VOLUME`, `MUTE_VOLUME`, `STEP_SIZE`, decibels).
 * Every line is trimmed; empty lines and lines starting with `#` are skipped;
 * the rest is split on `=` and accepted only when there are exactly two
 * parts, whose trimmed left part is the key and trimmed right part the value.
 * Unknown keys are ignored, and a later line for a key overrides an earlier one.
 *
 * A file that cannot be opened reads like an empty file: every setting keeps
 * its default. The numeric conversions (`toDouble`, `toUInt(…, 16)`) are
 * parameters of the readers.
 */
module ConfigParse {
  import opened Wrappers

  // ---------------------------------------------------------------------------
  // Trimming
  // ---------------------------------------------------------------------------

  /** The characters that trimming removes: the ASCII white space and the Unicode separators. */
  predicate IsSpace(c: char) {
    c == ' ' || c == '\t' || c == '\n' || c == '\U{0B}' || c == '\U{0C}' || c == '\r'
    || c == '\U{85}' || c == '\U{A0}' || c == '\U{1680}'
    || ('\U{2000}' <= c <= '\U{200A}')
    || c == '\U{2028}' || c == '\U{2029}' || c == '\U{202F}' || c == '\U{205F}' || c == '\U{3000}'
  }

  /** A string that neither starts nor ends with white space. */
  predicate Trimmed(s: string) {
    |s| == 0 || (!IsSpace(s[0]) && !IsSpace(s[|s| - 1]))
  }

  /** Every character of `s` is white space. */
  predicate AllSpace(s: string) {
    |s| == 0 || (IsSpace(s[0]) && AllSpace(s[1..]))
  }

  /** Drops the leading white space: the result is a suffix of `s` and only spaces are dropped. */
  function TrimStart(s: string): (r: string)
    ensures |r| <= |s| && r == s[|s| - |r|..]
    ensures forall k :: 0 <= k < |s| - |r| ==> IsSpace(s[k])
    ensures |r| > 0 ==> !IsSpace(r[0])
    ensures |s| > 0 && !IsSpace(s[0]) ==> r == s
  {
    if |s| > 0 && IsSpace(s[0]) then
      var r := TrimStart(s[1..]);
      assert s[1..][|s| - 1 - |r|..] == s[|s| - |r|..];
      assert forall k | 1 <= k < |s| - |r| :: s[k] == s[1..][k - 1];
      r
    else s
  }

  /** Drops the trailing white space: the result is a prefix of `s` and only spaces are dropped. */
  function TrimEnd(s: string): (r: string)
    ensures |r| <= |s| && r == s[..|r|]
    ensures forall k :: |r| <= k < |s| ==> IsSpace(s[k])
    ensures |r| > 0 ==> !IsSpace(r[|r| - 1])
    ensures |s| > 0 && !IsSpace(s[|s| - 1]) ==> r == s
  {
    if |s| > 0 && IsSpace(s[|s| - 1]) then
      var r := TrimEnd(s[..|s| - 1]);
      assert s[..|s| - 1][..|r|] == s[..|r|];
      assert forall k | |r| <= k < |s| - 1 :: s[k] == s[..|s| - 1][k];
      r
    else s
  }

  /**
   * Drops the white space at both ends: the result is the slice of `s`
   * between its leading and its trailing white space; a string that is
   * already trimmed is returned as it is.
   */
  function Trim(s: string): (r: string)
    ensures Trimmed(r)
    ensures Trimmed(s) ==> r == s
    ensures exists i, j :: 0 <= i <= j <= |s| && r == s[i..j] && AllSpace(s[..i]) && AllSpace(s[j..])
  {
    TrimBothEnds(s);
    TrimEnd(TrimStart(s))
  }

  /** The two trimming steps give a trimmed slice of `s` between its leading and trailing white space. */
  lemma TrimBothEnds(s: string)
    ensures var r := TrimEnd(TrimStart(s));
            && Trimmed(r)
            && (Trimmed(s) ==> r == s)
            && exists i, j :: 0 <= i <= j <= |s| && r == s[i..j] && AllSpace(s[..i]) && AllSpace(s[j..])
  {
    var t := TrimStart(s);
    var r := TrimEnd(t);
    TrimIsSlice(s, t, r);
    assert |r| > 0 ==> r[0] == t[0];
  }

  /** A string whose every character is white space is all white space. */
  lemma {:induction false} AllSpaceByIndex(x: string)
    requires forall k :: 0 <= k < |x| ==> IsSpace(x[k])
    ensures AllSpace(x)
  {
    if |x| > 0 {
      assert forall k | 0 <= k < |x| - 1 :: x[1..][k] == x[k + 1];
      AllSpaceByIndex(x[1..]);
    }
  }

  /** Dropping white space from the front of `s` and then from the back of the rest keeps a slice of `s`. */
  lemma TrimIsSlice(s: string, t: string, r: string)
    requires |t| <= |s| && t == s[|s| - |t|..] && forall k :: 0 <= k < |s| - |t| ==> IsSpace(s[k])
    requires |r| <= |t| && r == t[..|r|] && forall k :: |r| <= k < |t| ==> IsSpace(t[k])
    ensures exists i, j :: 0 <= i <= j <= |s| && r == s[i..j] && AllSpace(s[..i]) && AllSpace(s[j..])
  {
    var i, j := |s| - |t|, |s| - |t| + |r|;
    assert r == s[i..j];
    assert forall k | 0 <= k < |s| - j :: s[j..][k] == t[|r| + k];
    AllSpaceByIndex(s[j..]);
    assert forall k | 0 <= k < i :: s[..i][k] == s[k];
    AllSpaceByIndex(s[..i]);
  }

  // ---------------------------------------------------------------------------
  // Splitting on a separator (empty parts are kept)
  // ---------------------------------------------------------------------------

  /** Glues `parts` back together with `sep` between consecutive parts. */
  function Join(parts: seq<string>, sep: char): string {
    if |parts| == 0 then ""
    else if |parts| == 1 then parts[0]
    else parts[0] + [sep] + Join(parts[1..], sep)
  }

  /** The number of occurrences of `c` in `s`. */
  function Count(s: string, c: char): nat {
    if |s| == 0 then 0 else (if s[0] == c then 1 else 0) + Count(s[1..], c)
  }

  /**
   * Splits `s` at every occurrence of `sep`, keeping empty parts: there is one
   * part more than there are separators and no part holds a separator.
   */
  function Split(s: string, sep: char): (parts: seq<string>)
    ensures |parts| == Count(s, sep) + 1
    ensures forall i :: 0 <= i < |parts| ==> sep !in parts[i]
  {
    if |s| == 0 then [""]
    else
      var rest := Split(s[1..], sep);
      if s[0] == sep then [""] + rest
      else [[s[0]] + rest[0]] + rest[1..]
  }

  // ---------------------------------------------------------------------------
  // One line of the settings file
  // ---------------------------------------------------------------------------

  datatype Setting = Setting(key: string, value: string)

  /**
   * The key/value pair a line sets, if any: the trimmed line is skipped when
   * it is empty or a `#` comment, and accepted when splitting it on `=` gives
   * exactly two parts, which are then trimmed (see ParseLineAccepts).
   */
  function ParseLine(line: string): Option<Setting> {
    var t := Trim(line);
    if |t| == 0 || t[0] == '#' then None
    else
      var parts := Split(t, '=');
      if |parts| == 2 then Some(Setting(Trim(parts[0]), Trim(parts[1]))) else None
  }

  /** The line that writes `key=value`. */
  function FormatLine(s: Setting): string {
    s.key + "=" + s.value
  }

  /** `f` applied to each element of `xs`. */
  function MapSeq<A, B>(f: A -> B, xs: seq<A>): (ys: seq<B>)
    ensures |ys| == |xs| && forall k :: 0 <= k < |xs| ==> ys[k] == f(xs[k])
  {
    seq(|xs|, k requires 0 <= k < |xs| => f(xs[k]))
  }

  lemma MapSeqSnoc<A, B>(f: A -> B, xs: seq<A>, i: nat)
    requires i < |xs|
    ensures MapSeq(f, xs[..i + 1]) == MapSeq(f, xs[..i]) + [f(xs[i])]
  {
  }

  /** The settings file as parsed, one entry per line. */
  function Entries(lines: seq<string>): seq<Option<Setting>> {
    MapSeq(ParseLine, lines)
  }

  /** True when `entry` is an accepted line that sets `key`. */
  predicate Defines(entry: Option<Setting>, key: string) {
    entry.Some? && entry.value.key == key
  }

  /**
   * The value of the last entry that sets `key`, or None when no entry sets
   * it: later lines override earlier ones.
   */
  function LastValue(entries: seq<Option<Setting>>, key: string): Option<string> {
    if |entries| == 0 then None
    else if Defines(entries[|entries| - 1], key) then Some(entries[|entries| - 1].value.value)
    else LastValue(entries[..|entries| - 1], key)
  }

  /** Handling one more line: it decides the value of `key` when it sets `key`, and leaves it otherwise. */
  lemma LastValueStep(lines: seq<string>, i: nat, key: string)
    requires i < |lines|
    ensures LastValue(Entries(lines[..i + 1]), key)
            == if Defines(ParseLine(lines[i]), key) then Some(ParseLine(lines[i]).value.value)
               else LastValue(Entries(lines[..i]), key)
  {
    MapSeqSnoc(ParseLine, lines, i);
    var e := Entries(lines[..i + 1]);
    assert e[..|e| - 1] == Entries(lines[..i]);
  }

  /** The configured decibel value of `key`, or `default` when no line sets it. */
  function DecibelSetting(lines: seq<string>, key: string, toDouble: string -> real, default: real): real {
    match LastValue(Entries(lines), key)
    case Some(v) => toDouble(v)
    case None => default
  }

  // ---------------------------------------------------------------------------
  // The volume settings (read by the controller's constructor)
  // ---------------------------------------------------------------------------

  datatype VolumeSettings = VolumeSettings(
    minVolume: real,      // MIN_VOLUME
    defaultVolume: real,  // DEFAULT_VOLUME, the initial current volume
    muteVolume: real,     // MUTE_VOLUME, the initial pre-mute volume
    stepSize: real)       // STEP_SIZE

  const DefaultVolumeSettings := VolumeSettings(-144.0, -144.0, -144.0, 1.0)

  /** The settings a file with `lines` gives: each key's last accepted value, or its default. */
  function ConfiguredVolumeSettings(lines: seq<string>, toDouble: string -> real): VolumeSettings {
    VolumeSettings(
      DecibelSetting(lines, "MIN_VOLUME", toDouble, DefaultVolumeSettings.minVolume),
      DecibelSetting(lines, "DEFAULT_VOLUME", toDouble, DefaultVolumeSettings.defaultVolume),
      DecibelSetting(lines, "MUTE_VOLUME", toDouble, DefaultVolumeSettings.muteVolume),
      DecibelSetting(lines, "STEP_SIZE", toDouble, DefaultVolumeSettings.stepSize))
  }

  /** Reads the volume settings line by line, starting from the defaults. */
  method ReadVolumeSettings(lines: seq<string>, toDouble: string -> real) returns (settings: VolumeSettings)
    ensures settings == ConfiguredVolumeSettings(lines, toDouble)
  {
    settings := DefaultVolumeSettings;
    var i := 0;
    while i < |lines|
      invariant 0 <= i <= |lines|
      invariant settings == ConfiguredVolumeSettings(lines[..i], toDouble)
    {
      var parsed := ParseLine(lines[i]);
      LastValueStep(lines, i, "MIN_VOLUME");
      LastValueStep(lines, i, "DEFAULT_VOLUME");
      LastValueStep(lines, i, "MUTE_VOLUME");
      LastValueStep(lines, i, "STEP_SIZE");
      if parsed.Some? {
        var key, value := parsed.value.key, parsed.value.value;
        if key == "MIN_VOLUME" {
          settings := settings.(minVolume := toDouble(value));
        } else if key == "DEFAULT_VOLUME" {
          settings := settings.(defaultVolume := toDouble(value));
        } else if key == "MUTE_VOLUME" {
          settings := settings.(muteVolume := toDouble(value));
        } else if key == "STEP_SIZE" {
          settings := settings.(stepSize := toDouble(value));
        }
      }
      i := i + 1;
    }
    assert lines[..i] == lines;
  }

  // ---------------------------------------------------------------------------
  // The device identity (read before the input devices are scanned)
  // ---------------------------------------------------------------------------

  datatype DeviceIds = DeviceIds(vendorId: nat, productId: nat)

  const DefaultDeviceIds := DeviceIds(0x68e, 0x566)

  /** A parsed identifier stored into an `unsigned short`: only its low 16 bits are kept. */
  function ToUShort(n: nat): (r: nat)
    ensures r < 0x1_0000
    ensures (n - r) % 0x1_0000 == 0
    ensures n < 0x1_0000 ==> r == n
  {
    n % 0x1_0000
  }

  /** The configured identifier `key`, truncated, or `default` when no line sets it. */
  function IdSetting(lines: seq<string>, key: string, toUInt: string -> nat, default: nat): nat {
    match LastValue(Entries(lines), key)
    case Some(v) => ToUShort(toUInt(v))
    case None => default
  }

  /** The identity a file with `lines` gives: each key's last accepted value, truncated, or its default. */
  function ConfiguredDeviceIds(lines: seq<string>, toUInt: string -> nat): DeviceIds {
    DeviceIds(
      IdSetting(lines, "VENDOR_ID", toUInt, DefaultDeviceIds.vendorId),
      IdSetting(lines, "PRODUCT_ID", toUInt, DefaultDeviceIds.productId))
  }

  /** Reads the vendor and product identifiers line by line, starting from the defaults. */
  method ReadDeviceIds(lines: seq<string>, toUInt: string -> nat) returns (ids: DeviceIds)
    ensures ids == ConfiguredDeviceIds(lines, toUInt)
    ensures ids.vendorId < 0x1_0000 && ids.productId < 0x1_0000
  {
    ids := DefaultDeviceIds;
    var i := 0;
    while i < |lines|
      invariant 0 <= i <= |lines|
      invariant ids == ConfiguredDeviceIds(lines[..i], toUInt)
    {
      var parsed := ParseLine(lines[i]);
      LastValueStep(lines, i, "VENDOR_ID");
      LastValueStep(lines, i, "PRODUCT_ID");
      if parsed.Some? {
        var key, value := parsed.value.key, parsed.value.value;
        if key == "VENDOR_ID" {
          ids := ids.(vendorId := ToUShort(toUInt(value)));
        } else if key == "PRODUCT_ID" {
          ids := ids.(productId := ToUShort(toUInt(value)));
        }
      }
      i := i + 1;
    }
    assert lines[..i] == lines;
  }

  // ---------------------------------------------------------------------------
  // Properties
  // ---------------------------------------------------------------------------

  /** Joining the parts of a split gives the string back. */
  lemma {:induction false} JoinSplit(s: string, sep: char)
    ensures Join(Split(s, sep), sep) == s
  {
    if |s| > 0 {
      JoinSplit(s[1..], sep);
      var rest := Split(s[1..], sep);
      if s[0] == sep {
        assert Join([""] + rest, sep) == [sep] + Join(rest, sep);
      } else {
        var parts := [[s[0]] + rest[0]] + rest[1..];
        assert parts[1..] == rest[1..];
        assert Join(parts, sep) == [s[0]] + Join(rest, sep) by {
          if |rest| >= 2 {
            assert Join(rest, sep) == rest[0] + [sep] + Join(rest[1..], sep);
          }
        }
        assert s == [s[0]] + s[1..];
      }
    }
  }

  /** Splitting a string without separators gives the string itself. */
  lemma {:induction false} SplitNoSeparator(s: string, sep: char)
    requires sep !in s
    ensures Split(s, sep) == [s]
  {
    if |s| > 0 {
      SplitNoSeparator(s[1..], sep);
      assert [s[0]] + s[1..] == s;
    }
  }

  /** A separator-free first part is split off as it is. */
  lemma {:induction false} SplitFirstPart(p: string, sep: char, t: string)
    requires sep !in p
    ensures Split(p + [sep] + t, sep) == [p] + Split(t, sep)
  {
    if |p| == 0 {
      assert p + [sep] + t == [sep] + t;
      assert ([sep] + t)[1..] == t;
    } else {
      SplitFirstPart(p[1..], sep, t);
      assert (p + [sep] + t)[1..] == p[1..] + [sep] + t;
      assert [p[0]] + p[1..] == p;
    }
  }

  /** Split undoes Join when no part holds the separator. */
  lemma {:induction false} SplitJoin(parts: seq<string>, sep: char)
    requires |parts| >= 1
    requires forall i :: 0 <= i < |parts| ==> sep !in parts[i]
    ensures Split(Join(parts, sep), sep) == parts
  {
    if |parts| == 1 {
      SplitNoSeparator(parts[0], sep);
    } else {
      SplitJoin(parts[1..], sep);
      SplitFirstPart(parts[0], sep, Join(parts[1..], sep));
      assert [parts[0]] + parts[1..] == parts;
    }
  }

  /**
   * A line is accepted exactly when, once trimmed, it is not empty, does not
   * start with `#` and holds exactly one `=`; the key is then the trimmed text
   * before the `=` and the value the trimmed text after it, neither holding `=`.
   */
  lemma ParseLineAccepts(line: string)
    ensures ParseLine(line).Some? <==>
              var t := Trim(line); |t| > 0 && t[0] != '#' && Count(t, '=') == 1
    ensures ParseLine(line).Some? ==>
              exists k, v :: Trim(line) == k + "=" + v && ParseLine(line).value == Setting(Trim(k), Trim(v))
    ensures ParseLine(line).Some? ==> '=' !in ParseLine(line).value.key && '=' !in ParseLine(line).value.value
  {
    var t := Trim(line);
    if ParseLine(line).Some? {
      var parts := Split(t, '=');
      JoinSplit(t, '=');
      assert Join(parts, '=') == parts[0] + "=" + parts[1];
      assert t == parts[0] + "=" + parts[1];
    }
  }

  /**
   * An accepted line's key and value carry no surrounding white space, and
   * white space around the whole line makes no difference.
   */
  lemma ParseLineTrimmed(line: string)
    ensures ParseLine(line).Some? ==> Trimmed(ParseLine(line).value.key) && Trimmed(ParseLine(line).value.value)
    ensures ParseLine(Trim(line)) == ParseLine(line)
  {
    assert Trim(Trim(line)) == Trim(line);
  }

  /**
   * Round trip: a line written as `key=value`, with a trimmed key and value
   * free of `=` and a key that does not start with `#`, parses back to the
   * same key and value.
   */
  lemma ParseFormatLine(s: Setting)
    requires Trimmed(s.key) && Trimmed(s.value)
    requires '=' !in s.key && '=' !in s.value
    requires |s.key| > 0 ==> s.key[0] != '#'
    ensures ParseLine(FormatLine(s)) == Some(s)
  {
    var line := FormatLine(s);
    assert line == Join([s.key, s.value], '=');
    assert Trimmed(line) by {
      assert line[0] == if |s.key| > 0 then s.key[0] else '=';
      assert line[|line| - 1] == if |s.value| > 0 then s.value[|s.value| - 1] else '=';
    }
    SplitJoin([s.key, s.value], '=');
  }

  /**
   * LastValue against a declarative reading: `key` is configured to `v`
   * exactly when some entry sets `key` to `v` and no later entry sets `key`.
   */
  lemma {:induction false} LastValueIsLastDefinition(entries: seq<Option<Setting>>, key: string, v: string)
    ensures LastValue(entries, key) == Some(v) <==>
              exists i :: 0 <= i < |entries| && entries[i] == Some(Setting(key, v))
                          && forall j :: i < j < |entries| ==> !Defines(entries[j], key)
  {
    if |entries| > 0 {
      var n := |entries| - 1;
      var init := entries[..n];
      LastValueIsLastDefinition(init, key, v);
      if Defines(entries[n], key) {
        if LastValue(entries, key) == Some(v) {
          assert entries[n] == Some(Setting(key, v));
        }
      } else {
        if LastValue(entries, key) == Some(v) {
          var i :| 0 <= i < n && init[i] == Some(Setting(key, v))
                   && forall j :: i < j < n ==> !Defines(init[j], key);
          assert entries[i] == Some(Setting(key, v));
        }
        forall i | 0 <= i < |entries| && entries[i] == Some(Setting(key, v))
                   && (forall j :: i < j < |entries| ==> !Defines(entries[j], key))
          ensures LastValue(entries, key) == Some(v)
        {
          assert i < n;
          assert init[i] == Some(Setting(key, v));
          assert forall j :: i < j < n ==> !Defines(init[j], key);
        }
      }
    }
  }

  /** A key keeps its default exactly when no entry sets it. */
  lemma {:induction false} LastValueNoneIffUndefined(entries: seq<Option<Setting>>, key: string)
    ensures LastValue(entries, key).None? <==> forall i :: 0 <= i < |entries| ==> !Defines(entries[i], key)
  {
    if |entries| > 0 {
      var n := |entries| - 1;
      LastValueNoneIffUndefined(entries[..n], key);
      assert forall i :: 0 <= i < n ==> entries[..n][i] == entries[i];
    }
  }

  /** A file without accepted lines (or no file at all) leaves every setting at its default. */
  lemma DefaultsWithoutSettings(lines: seq<string>, toDouble: string -> real, toUInt: string -> nat)
    requires forall i :: 0 <= i < |lines| ==> ParseLine(lines[i]).None?
    ensures ConfiguredVolumeSettings(lines, toDouble) == DefaultVolumeSettings
    ensures ConfiguredDeviceIds(lines, toUInt) == DefaultDeviceIds
  {
    LastValueNoneIffUndefined(Entries(lines), "MIN_VOLUME");
    LastValueNoneIffUndefined(Entries(lines), "DEFAULT_VOLUME");
    LastValueNoneIffUndefined(Entries(lines), "MUTE_VOLUME");
    LastValueNoneIffUndefined(Entries(lines), "STEP_SIZE");
    LastValueNoneIffUndefined(Entries(lines), "VENDOR_ID");
    LastValueNoneIffUndefined(Entries(lines), "PRODUCT_ID");
  }
}
