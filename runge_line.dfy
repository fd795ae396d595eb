/** Line handling of the Runge mikron 31 detector
    (runge_mikron31/runge_com.py).

    Every line the detector sends ends with a carriage return.  A signal
    line `SIG:a,b,c,d,e` carries five numbers (two absorbances, an unused
    field, the device temperature and the device time stamp); any other
    line is an event that goes to the text log.  The module info replies of
    the start-up queries carry the detector's wavelength as their third
    comma-separated field.  How a field is read as a number (Python's
    `float`) is a parameter `parse` of every function that needs it. */
module RungeLine {
  import opened Text

  const SigPrefix: string := "SIG:"
  const CarriageReturn: char := '\r'
  const Comma: char := ','
  /** The number of fields of a signal row. */
  const SignalArity: nat := 5

  /** What one line read by the recording thread turns into. */
  datatype Route =
    | Sample(row: seq<real>)   // a new row of the data series
    | Discard                  // a malformed signal line: no row, no log entry
    | Event(text: string)      // a log entry, after a time stamp

  /** Lines 82-86: the fields of a signal line, after every `SIG:` and then
      every carriage return is removed. */
  function SigFields(line: string): (r: seq<string>)
    ensures |r| >= 1
    ensures forall i :: 0 <= i < |r| ==> Comma !in r[i]
    ensures CarriageReturn !in Join(r, Comma)
    ensures Join(r, Comma) == RemoveAll(RemoveAll(line, SigPrefix), [CarriageReturn])
  {
    var body := RemoveAll(RemoveAll(line, SigPrefix), [CarriageReturn]);
    RemoveAllSingle(RemoveAll(line, SigPrefix), CarriageReturn);
    JoinSplit(body, Comma);
    Split(body, Comma)
  }

  /** `[float(i) for i in fields]`: the numbers, or None at the first field
      that does not parse (the ValueError). */
  function ParseAll(parse: string -> Option<real>, fields: seq<string>): (r: Option<seq<real>>)
    ensures r.Some? ==> |r.value| == |fields|
    ensures fields != [] && parse(fields[0]).None? ==> r.None?
    decreases |fields|
  {
    if fields == [] then Some([])
    else
      match parse(fields[0])
      case None => None
      case Some(x) =>
        match ParseAll(parse, fields[1..])
        case None => None
        case Some(xs) => Some([x] + xs)
  }

  /** The list is built exactly when every field parses, and then holds each
      field's number in the field's place. */
  lemma {:induction false} ParseAllMeaning(parse: string -> Option<real>, fields: seq<string>)
    ensures ParseAll(parse, fields).Some? <==> forall i :: 0 <= i < |fields| ==> parse(fields[i]).Some?
    ensures ParseAll(parse, fields).Some? ==>
      var row := ParseAll(parse, fields).value;
      |row| == |fields| && forall i :: 0 <= i < |fields| ==> row[i] == parse(fields[i]).value
    decreases |fields|
  {
    if fields != [] {
      ParseAllMeaning(parse, fields[1..]);
      assert forall i :: 1 <= i < |fields| ==> fields[1..][i - 1] == fields[i];
      if parse(fields[0]).Some? && ParseAll(parse, fields[1..]).Some? {
        var xs := ParseAll(parse, fields[1..]).value;
        var row := [parse(fields[0]).value] + xs;
        assert forall i :: 1 <= i < |fields| ==> row[i] == xs[i - 1];
      }
    }
  }

  /** Lines 80-96: the routing of one line. */
  function RouteLine(parse: string -> Option<real>, line: string): (r: Route)
    ensures r.Event? <==> !StartsWith(line, SigPrefix)
    ensures r.Sample? ==> |r.row| == SignalArity
  {
    if StartsWith(line, SigPrefix) then
      match ParseAll(parse, SigFields(line))
      case Some(row) => if |row| == SignalArity then Sample(row) else Discard
      case None => Discard
    else Event(RemoveAll(line, [CarriageReturn]))
  }

  /** A line becomes a data row if and only if it starts with `SIG:`, every
      one of its fields parses and there are exactly five of them; the row
      holds the fields' numbers in order. */
  lemma RouteSample(parse: string -> Option<real>, line: string)
    ensures RouteLine(parse, line).Sample? <==>
      && StartsWith(line, SigPrefix)
      && (forall i :: 0 <= i < |SigFields(line)| ==> parse(SigFields(line)[i]).Some?)
      && |SigFields(line)| == SignalArity
    ensures RouteLine(parse, line).Sample? ==>
      var row := RouteLine(parse, line).row;
      |row| == SignalArity && forall i :: 0 <= i < SignalArity ==> row[i] == parse(SigFields(line)[i]).value
  {
    ParseAllMeaning(parse, SigFields(line));
  }

  /** A line is an event if and only if it does not start with `SIG:`; the
      logged text is the line without its carriage returns. */
  lemma RouteEvent(parse: string -> Option<real>, line: string)
    ensures RouteLine(parse, line).Event? <==> !StartsWith(line, SigPrefix)
    ensures RouteLine(parse, line).Event? ==>
      RouteLine(parse, line).text == RemoveAll(line, [CarriageReturn])
      && CarriageReturn !in RouteLine(parse, line).text
  {
    RemoveAllSingle(line, CarriageReturn);
  }

  // ---------------------------------------------------------------------
  // The signal format read back

  /** An element of the pattern is in any text the pattern occurs in. */
  lemma {:induction false} OccursHas<T>(s: seq<T>, pat: seq<T>, k: nat)
    requires Occurs(s, pat) && k < |pat|
    ensures pat[k] in s
    decreases |s|
  {
    if StartsWith(s, pat) {
      assert s[..|pat|][k] == s[k];
    } else {
      OccursHas(s[1..], pat, k);
    }
  }

  /** Whatever is in a join is the separator or is in one of the pieces. */
  lemma {:induction false} JoinHas<T>(pieces: seq<seq<T>>, sep: T, x: T)
    requires x in Join(pieces, sep)
    ensures x == sep || exists i :: 0 <= i < |pieces| && x in pieces[i]
    decreases |pieces|
  {
    if |pieces| > 1 && x !in pieces[0] && x != sep {
      JoinHas(pieces[1..], sep, x);
      var i :| 0 <= i < |pieces| - 1 && x in pieces[1..][i];
      assert x in pieces[i + 1];
    }
  }

  /** Removing a one-element pattern that occurs only at the end of the text
      drops that end. */
  lemma {:induction false} RemoveAllLast<T>(s: seq<T>, t: T)
    requires t !in s
    ensures RemoveAll(s + [t], [t]) == s
    decreases |s|
  {
    if s == [] {
      assert [t][..1] == [t] && [t][1..] == [];
    } else {
      assert (s + [t])[..1] == [s[0]];
      assert (s + [t])[1..] == s[1..] + [t];
      RemoveAllLast(s[1..], t);
      assert [s[0]] + s[1..] == s;
    }
  }

  /** The signal line the detector sends for five fields. */
  function SigLine(fields: seq<string>): string
  {
    SigPrefix + Join(fields, Comma) + [CarriageReturn]
  }

  /** Reading back a signal line: five fields without separators, colons or
      carriage returns, each of which parses, give the row of their numbers. */
  lemma SigLineRoundTrip(parse: string -> Option<real>, fields: seq<string>)
    requires |fields| == SignalArity
    requires forall i :: 0 <= i < |fields| ==>
      Comma !in fields[i] && ':' !in fields[i] && CarriageReturn !in fields[i]
    requires forall i :: 0 <= i < |fields| ==> parse(fields[i]).Some?
    ensures RouteLine(parse, SigLine(fields)) ==
      Sample(seq(SignalArity, i requires 0 <= i < SignalArity => parse(fields[i]).value))
  {
    var body := Join(fields, Comma);
    var line := SigLine(fields);
    assert StartsWith(line, SigPrefix) by {
      assert line[..4] == SigPrefix;
    }
    assert CarriageReturn !in body && ':' !in body by {
      if CarriageReturn in body {
        JoinHas(fields, Comma, CarriageReturn);
      }
      if ':' in body {
        JoinHas(fields, Comma, ':');
      }
    }
    assert RemoveAll(line, SigPrefix) == body + [CarriageReturn] by {
      assert line[..4] == SigPrefix;
      assert line[4..] == body + [CarriageReturn];
      if Occurs(body + [CarriageReturn], SigPrefix) {
        OccursHas(body + [CarriageReturn], SigPrefix, 3);
        assert false;
      }
      RemoveAllAbsent(body + [CarriageReturn], SigPrefix);
    }
    RemoveAllLast(body, CarriageReturn);
    SplitJoin(fields, Comma);
    assert SigFields(line) == fields;
    ParseAllMeaning(parse, fields);
  }

  // ---------------------------------------------------------------------
  // Wavelength labels

  const Mod1Prefix: string := "MOD1_INFO:"
  const Mod2Prefix: string := "MOD2_INFO:"

  /** Lines 65 and 67: the third comma-separated field of a module info
      reply, followed by " nm"; None is the IndexError of a reply with fewer
      than three fields. */
  function Wavelength(reply: string): (r: Option<string>)
    ensures r.Some? <==> |Split(reply, Comma)| >= 3
    ensures r.Some? ==> EndsWith(r.value, " nm") && Comma !in r.value[..|r.value| - 3]
  {
    var fields := Split(reply, Comma);
    if |fields| < 3 then None else Some(fields[2] + " nm")
  }

  /** A text with `n` separators splits into `n + 1` pieces. */
  lemma {:induction false} SplitCount<T>(s: seq<T>, sep: T)
    ensures |Split(s, sep)| == multiset(s)[sep] + 1
    decreases |s|
  {
    if s != [] {
      SplitCount(s[1..], sep);
      assert s == [s[0]] + s[1..];
      assert multiset(s) == multiset([s[0]]) + multiset(s[1..]);
    }
  }

  /** A wavelength label is found if and only if the reply holds at least two
      commas. */
  lemma WavelengthNeedsTwoCommas(reply: string)
    ensures Wavelength(reply).Some? <==> multiset(reply)[Comma] >= 2
  {
    SplitCount(reply, Comma);
  }

  /** The label of a reply made of comma-free fields is its third field. */
  lemma WavelengthOfFields(fields: seq<string>)
    requires |fields| >= 3
    requires forall i :: 0 <= i < |fields| ==> Comma !in fields[i]
    ensures Wavelength(Join(fields, Comma)) == Some(fields[2] + " nm")
  {
    SplitJoin(fields, Comma);
  }
}
