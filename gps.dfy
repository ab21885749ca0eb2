/**
 * GPS sentence acceptance and the fix cache: parseNmeaSentence keeps only the
 * RMC sentence ($GNRMC or $GPRMC, the Recommended Minimum data of NMEA 0183)
 * with at least 12 comma-separated fields, and the serial-line handler stores
 * what it accepts; the reporting path asks whether the cache is fresh.
 */
module Gps {
  import opened Wrappers

  /** JS `s.split(sep)` for a one-character separator: the pieces between separators, empty ones included. */
  function Split(s: string, sep: char): (parts: seq<string>)
    ensures |parts| >= 1
    ensures forall i :: 0 <= i < |parts| ==> sep !in parts[i]
  {
    if s == [] then [""]
    else
      var rest := Split(s[1..], sep);
      if s[0] == sep then [""] + rest
      else [[s[0]] + rest[0]] + rest[1..]
  }

  /** The inverse of Split: the pieces with a separator between each two. */
  function Join(parts: seq<string>, sep: char): string
    requires |parts| >= 1
  {
    if |parts| == 1 then parts[0] else parts[0] + [sep] + Join(parts[1..], sep)
  }

  /** Number of occurrences of `c` in `s`. */
  function Count(s: string, c: char): nat
  {
    if s == [] then 0 else (if s[0] == c then 1 else 0) + Count(s[1..], c)
  }

  /** There is one more field than there are separators. */
  lemma {:induction false} SplitCount(s: string, sep: char)
    ensures |Split(s, sep)| == Count(s, sep) + 1
  {
    if s != [] {
      SplitCount(s[1..], sep);
    }
  }

  /** Joining the fields of a line gives the line back. */
  lemma {:induction false} JoinSplit(s: string, sep: char)
    ensures Join(Split(s, sep), sep) == s
  {
    if s != [] {
      JoinSplit(s[1..], sep);
      var rest := Split(s[1..], sep);
      if s[0] == sep {
        assert Split(s, sep) == [""] + rest;
        assert ([""] + rest)[1..] == rest;
      } else {
        var parts := Split(s, sep);
        assert parts == [[s[0]] + rest[0]] + rest[1..];
        if |rest| > 1 {
          assert parts[1..] == rest[1..];
        }
      }
    }
  }

  /** Splitting a line that starts with a field free of separators: that field heads the first piece. */
  lemma {:induction false} SplitPrefix(p: string, t: string, sep: char)
    requires sep !in p
    ensures Split(p + t, sep) == [p + Split(t, sep)[0]] + Split(t, sep)[1..]
  {
    if p == [] {
      var st := Split(t, sep);
      assert p + t == t && p + st[0] == st[0];
      assert [st[0]] + st[1..] == st;
    } else {
      SplitPrefix(p[1..], t, sep);
      var st := Split(t, sep);
      var rest := Split(p[1..] + t, sep);
      assert (p + t)[0] == p[0] && (p + t)[1..] == p[1..] + t;
      assert rest == [p[1..] + st[0]] + st[1..];
      assert Split(p + t, sep) == [[p[0]] + rest[0]] + rest[1..];
      assert [p[0]] + (p[1..] + st[0]) == p + st[0];
    }
  }

  /** Splitting joined fields, none holding the separator, gives the fields back. */
  lemma {:induction false} SplitJoin(parts: seq<string>, sep: char)
    requires |parts| >= 1
    requires forall i :: 0 <= i < |parts| ==> sep !in parts[i]
    ensures Split(Join(parts, sep), sep) == parts
  {
    if |parts| == 1 {
      SplitPrefix(parts[0], [], sep);
      assert parts[0] + [] == parts[0];
    } else {
      var tail := Join(parts[1..], sep);
      SplitJoin(parts[1..], sep);
      assert Join(parts, sep) == parts[0] + ([sep] + tail);
      SplitPrefix(parts[0], [sep] + tail, sep);
      assert ([sep] + tail)[0] == sep && ([sep] + tail)[1..] == tail;
      var st := Split([sep] + tail, sep);
      assert st == [""] + parts[1..];
      assert st[0] == "" && st[1..] == parts[1..];
      assert parts[0] + "" == parts[0];
      assert [parts[0]] + parts[1..] == parts;
    }
  }

  /** JS `s.startsWith(prefix)`. */
  predicate StartsWith(s: string, prefix: string)
  {
    |prefix| <= |s| && s[..|prefix|] == prefix
  }

  /** The result object of parseNmeaSentence; null coordinates are None. */
  datatype Fix = Fix(latitude: Option<real>, longitude: Option<real>, isValid: bool)

  /** At least this many fields make an RMC sentence acceptable. */
  const RmcMinFields: nat := 12

  /**
   * convertNmeaToDecimal: an empty field gives null; the conversion of the
   * number itself is the parameter `convert`.
   */
  function ConvertNmeaToDecimal(rawData: string, direction: string, convert: (string, string) -> real): (d: Option<real>)
    ensures d.None? <==> rawData == ""
    ensures d.Some? ==> d.value == convert(rawData, direction)
  {
    if rawData == "" then None else Some(convert(rawData, direction))
  }

  /** The sentence prefixes parseNmeaSentence accepts. */
  predicate IsRmc(sentence: string)
  {
    StartsWith(sentence, "$GNRMC") || StartsWith(sentence, "$GPRMC")
  }

  /**
   * parseNmeaSentence: None (null) unless the sentence is an RMC sentence with
   * at least 12 fields; otherwise validity is field 2 being "A", and the
   * coordinates are filled in only for a valid fix whose fields 3 to 6 are all
   * non-empty.
   */
  function ParseNmeaSentence(sentence: string, convert: (string, string) -> real): (result: Option<Fix>)
    ensures result.Some? <==> IsRmc(sentence) && |Split(sentence, ',')| >= RmcMinFields
    ensures result.Some? ==>
              var parts := Split(sentence, ',');
              var complete := parts[3] != "" && parts[4] != "" && parts[5] != "" && parts[6] != "";
              && result.value.isValid == (parts[2] == "A")
              && (result.value.latitude.Some? <==> result.value.isValid && complete)
              && (result.value.longitude.Some? <==> result.value.isValid && complete)
              && (result.value.latitude.Some? ==> result.value.latitude.value == convert(parts[3], parts[4]))
              && (result.value.longitude.Some? ==> result.value.longitude.value == convert(parts[5], parts[6]))
  {
    if !StartsWith(sentence, "$GNRMC") && !StartsWith(sentence, "$GPRMC") then None
    else
      var parts := Split(sentence, ',');
      if |parts| < RmcMinFields then None
      else
        var status := parts[2];
        var isValid := status == "A";
        if isValid && parts[3] != "" && parts[4] != "" && parts[5] != "" && parts[6] != "" then
          Some(Fix(ConvertNmeaToDecimal(parts[3], parts[4], convert),
                   ConvertNmeaToDecimal(parts[5], parts[6], convert),
                   true))
        else
          Some(Fix(None, None, isValid))
  }

  /** A line joined from fields, the first an RMC tag, has the RMC prefix. */
  lemma JoinedRmcPrefix(fields: seq<string>)
    requires |fields| >= 2
    requires fields[0] == "$GNRMC" || fields[0] == "$GPRMC"
    ensures IsRmc(Join(fields, ','))
  {
    var sentence := Join(fields, ',');
    assert sentence == fields[0] + ([','] + Join(fields[1..], ','));
    assert sentence[..6] == fields[0];
  }

  /** An RMC sentence assembled from its fields decodes to those fields' fix. */
  lemma ParseRmcFields(fields: seq<string>, convert: (string, string) -> real)
    requires |fields| >= RmcMinFields
    requires fields[0] == "$GNRMC" || fields[0] == "$GPRMC"
    requires forall i :: 0 <= i < |fields| ==> ',' !in fields[i]
    ensures var result := ParseNmeaSentence(Join(fields, ','), convert);
            var complete := fields[3] != "" && fields[4] != "" && fields[5] != "" && fields[6] != "";
            && result.Some?
            && result.value.isValid == (fields[2] == "A")
            && result.value.latitude == (if result.value.isValid && complete then Some(convert(fields[3], fields[4])) else None)
            && result.value.longitude == (if result.value.isValid && complete then Some(convert(fields[5], fields[6])) else None)
  {
    SplitJoin(fields, ',');
    JoinedRmcPrefix(fields);
  }

  /** The port state and the last fix, as the serial-line handler keeps them. */
  class GpsCache {
    var gpsActive: bool
    var isValid: bool
    var latitude: Option<real>
    var longitude: Option<real>
    var timestamp: int

    constructor ()
      ensures !gpsActive && !isValid
      ensures latitude == Some(0.0) && longitude == Some(0.0) && timestamp == 0
    {
      gpsActive, isValid := false, false;
      latitude, longitude := Some(0.0), Some(0.0);
      timestamp := 0;
    }

    /** The serial port opened. */
    method PortOpened()
      modifies this
      ensures gpsActive
      ensures isValid == old(isValid) && latitude == old(latitude) && longitude == old(longitude)
      ensures timestamp == old(timestamp)
    {
      gpsActive := true;
    }

    /** The serial port reported an error. */
    method PortFailed()
      modifies this
      ensures !gpsActive
      ensures isValid == old(isValid) && latitude == old(latitude) && longitude == old(longitude)
      ensures timestamp == old(timestamp)
    {
      gpsActive := false;
    }

    /**
     * One received line, already trimmed: an accepted sentence replaces the
     * validity flag, and a valid one also the coordinates and the time of the
     * fix; any other line changes nothing.
     */
    method OnLine(line: string, nowSeconds: int, convert: (string, string) -> real) returns (result: Option<Fix>)
      modifies this
      ensures result == ParseNmeaSentence(line, convert)
      ensures gpsActive == old(gpsActive)
      ensures result.None? ==>
                isValid == old(isValid) && latitude == old(latitude) && longitude == old(longitude) && timestamp == old(timestamp)
      ensures result.Some? ==> isValid == result.value.isValid
      ensures result.Some? && result.value.isValid ==>
                latitude == result.value.latitude && longitude == result.value.longitude && timestamp == nowSeconds
      ensures result.Some? && !result.value.isValid ==>
                latitude == old(latitude) && longitude == old(longitude) && timestamp == old(timestamp)
      ensures result.Some? ==> (IsFresh(nowSeconds) <==> gpsActive && result.value.isValid)
    {
      result := ParseNmeaSentence(line, convert);
      if result.Some? {
        isValid := result.value.isValid;
        if result.value.isValid {
          latitude := result.value.latitude;
          longitude := result.value.longitude;
          timestamp := nowSeconds;
        }
      }
    }

    /** `exist_gps` of the reporting path: a fix is reported only while the port is open and the cache valid. */
    function IsFresh(nowSeconds: int): (reported: bool)
      reads this
      ensures reported ==> gpsActive && isValid
    {
      if gpsActive then isValid && nowSeconds - timestamp < 23 else false
    }
  }

  /**
   * With the port open and a valid fix in the cache, the fix counts as fresh
   * up to 22 seconds after it was stored and not from 23 seconds on.
   */
  lemma FreshWindow(cache: GpsCache, age: int)
    requires cache.gpsActive && cache.isValid
    ensures cache.IsFresh(cache.timestamp + age) <==> age < 23
    ensures cache.IsFresh(cache.timestamp + 22) && !cache.IsFresh(cache.timestamp + 23)
  {
  }

  /** A status other than "A" gives an invalid fix with no coordinates. */
  lemma VoidFixHasNoCoordinates(convert: (string, string) -> real)
    ensures
      var fields := ["$GPRMC", "123519", "V", "3530.1234", "N", "13945.6789", "E", "022.4", "084.4", "230394", "003.1", "W"];
      ParseNmeaSentence(Join(fields, ','), convert) == Some(Fix(None, None, false))
  {
    var fields := ["$GPRMC", "123519", "V", "3530.1234", "N", "13945.6789", "E", "022.4", "084.4", "230394", "003.1", "W"];
    ParseRmcFields(fields, convert);
  }

  /** Status "A" with an empty latitude field: valid, yet both coordinates stay null. */
  lemma ValidFixWithoutCoordinates(convert: (string, string) -> real)
    ensures
      var fields := ["$GNRMC", "123519", "A", "", "N", "13945.6789", "E", "022.4", "084.4", "230394", "003.1", "W"];
      ParseNmeaSentence(Join(fields, ','), convert) == Some(Fix(None, None, true))
  {
    var fields := ["$GNRMC", "123519", "A", "", "N", "13945.6789", "E", "022.4", "084.4", "230394", "003.1", "W"];
    ParseRmcFields(fields, convert);
  }

  /** Too few fields: the sentence is ignored. */
  lemma ShortSentenceIgnored(convert: (string, string) -> real)
    ensures ParseNmeaSentence(Join(["$GPRMC", "123519", "A"], ','), convert) == None
  {
    SplitJoin(["$GPRMC", "123519", "A"], ',');
  }
}
