/** components/QRCodeLabel.tsx, the computed part: the generated code split on `-` into
    type, location, time and person parts with `?` fallbacks, and the download file name. */
module QRLabel {
  import opened Text
  import opened Types
  import opened RuleConfig
  import opened EntryForm

  /** String.prototype.split with a one-character separator: never empty, no part holds the separator. */
  function Split(s: string, sep: char): (parts: seq<string>)
    ensures |parts| >= 1
    ensures forall k :: 0 <= k < |parts| ==> sep !in parts[k]
    decreases |s|
  {
    if s == [] then [""]
    else
      var rest := Split(s[1..], sep);
      if s[0] == sep then [""] + rest
      else [[s[0]] + rest[0]] + rest[1..]
  }

  /** Array.prototype.join, the inverse direction. */
  function Join(parts: seq<string>, sep: char): string
    requires |parts| >= 1
    decreases |parts|
  {
    if |parts| == 1 then parts[0] else parts[0] + [sep] + Join(parts[1..], sep)
  }

  /** A string without the separator is one part. */
  lemma {:induction false} SplitWithoutSeparator(s: string, sep: char)
    requires sep !in s
    ensures Split(s, sep) == [s]
    decreases |s|
  {
    if s != [] {
      SplitWithoutSeparator(s[1..], sep);
      assert [s[0]] + s[1..] == s;
    }
  }

  /** The first separator ends the first part. */
  lemma {:induction false} SplitAtSeparator(a: string, sep: char, b: string)
    requires sep !in a
    ensures Split(a + [sep] + b, sep) == [a] + Split(b, sep)
    decreases |a|
  {
    if a == [] {
      assert a + [sep] + b == [sep] + b;
      assert ([sep] + b)[1..] == b;
    } else {
      assert (a + [sep] + b)[1..] == a[1..] + [sep] + b;
      SplitAtSeparator(a[1..], sep, b);
      assert [a[0]] + a[1..] == a;
    }
  }

  /** Splitting a join of separator-free parts gives the parts back. */
  lemma {:induction false} SplitJoin(parts: seq<string>, sep: char)
    requires |parts| >= 1
    requires forall k :: 0 <= k < |parts| ==> sep !in parts[k]
    ensures Split(Join(parts, sep), sep) == parts
    decreases |parts|
  {
    if |parts| == 1 {
      SplitWithoutSeparator(parts[0], sep);
    } else {
      SplitJoin(parts[1..], sep);
      SplitAtSeparator(parts[0], sep, Join(parts[1..], sep));
      assert [parts[0]] + parts[1..] == parts;
    }
  }

  /** Joining the parts of any string gives the string back. */
  lemma {:induction false} JoinSplit(s: string, sep: char)
    ensures Join(Split(s, sep), sep) == s
    decreases |s|
  {
    if s != [] {
      var rest := Split(s[1..], sep);
      JoinSplit(s[1..], sep);
      if s[0] == sep {
        assert Split(s, sep)[1..] == rest;
        assert [sep] + s[1..] == s;
      } else {
        var parts := Split(s, sep);
        assert parts[1..] == rest[1..];
        if |rest| == 1 {
          assert s == [s[0]] + rest[0];
        } else {
          assert Join(rest, sep) == rest[0] + [sep] + Join(rest[1..], sep);
          assert s == [s[0]] + s[1..];
        }
      }
    }
  }

  datatype CodeParts = CodeParts(typePart: string, locPart: string, timePart: string, personPart: string)

  /** `parts[k] || '?'`. */
  function PartOr(parts: seq<string>, k: nat): string {
    if k < |parts| && parts[k] != "" then parts[k] else "?"
  }

  function OrUnknown(s: string): (r: string)
    ensures r != ""
  {
    if s == "" then "?" else s
  }

  /** The label's decomposition: the first four `-`-separated segments, a missing or empty one
      shown as `?`, later ones ignored. */
  function Decompose(code: string): (p: CodeParts)
    ensures p.typePart != "" && p.locPart != "" && p.timePart != "" && p.personPart != ""
    ensures '-' !in p.typePart && '-' !in p.locPart && '-' !in p.timePart && '-' !in p.personPart
  {
    var parts := Split(code, '-');
    CodeParts(PartOr(parts, 0), PartOr(parts, 1), PartOr(parts, 2), PartOr(parts, 3))
  }

  /** A code without a separator is the type part alone; the other three parts read `?`. */
  lemma OneSegment(a: string)
    requires '-' !in a
    ensures Decompose(a) == CodeParts(OrUnknown(a), "?", "?", "?")
  {
    SplitWithoutSeparator(a, '-');
  }

  /** A two-segment code: the time and person parts read `?`. */
  lemma TwoSegments(a: string, b: string)
    requires '-' !in a && '-' !in b
    ensures Decompose(a + "-" + b) == CodeParts(OrUnknown(a), OrUnknown(b), "?", "?")
  {
    SplitAtSeparator(a, '-', b);
    SplitWithoutSeparator(b, '-');
  }

  /** A three-segment code: the person part reads `?`. */
  lemma ThreeSegments(a: string, b: string, c: string)
    requires '-' !in a && '-' !in b && '-' !in c
    ensures Decompose(a + "-" + b + "-" + c) == CodeParts(OrUnknown(a), OrUnknown(b), OrUnknown(c), "?")
  {
    var x := b + "-" + c;
    assert a + "-" + b + "-" + c == a + "-" + x;
    SplitAtSeparator(a, '-', x);
    SplitAtSeparator(b, '-', c);
    SplitWithoutSeparator(c, '-');
  }

  /** Splitting four separator-free segments joined by the separator and followed by any
      tail: the four segments, then the tail's parts. */
  lemma SplitFourThen(a: string, b: string, c: string, d: string, rest: string)
    requires '-' !in a && '-' !in b && '-' !in c && '-' !in d
    ensures Split(a + "-" + b + "-" + c + "-" + d + "-" + rest, '-') == [a, b, c, d] + Split(rest, '-')
  {
    var x3 := d + "-" + rest;
    var x2 := c + "-" + x3;
    var x1 := b + "-" + x2;
    assert a + "-" + b + "-" + c + "-" + d + "-" + rest == a + "-" + x1;
    SplitAtSeparator(a, '-', x1);
    SplitAtSeparator(b, '-', x2);
    SplitAtSeparator(c, '-', x3);
    SplitAtSeparator(d, '-', rest);
  }

  /** Splitting four separator-free segments joined by the separator gives the four segments. */
  lemma SplitFour(a: string, b: string, c: string, d: string)
    requires '-' !in a && '-' !in b && '-' !in c && '-' !in d
    ensures Split(a + "-" + b + "-" + c + "-" + d, '-') == [a, b, c, d]
  {
    var x2 := c + "-" + d;
    var x1 := b + "-" + x2;
    assert a + "-" + b + "-" + c + "-" + d == a + "-" + x1;
    SplitWithoutSeparator(d, '-');
    SplitAtSeparator(c, '-', d);
    assert Split(x2, '-') == [c, d];
    SplitAtSeparator(b, '-', x2);
    assert Split(x1, '-') == [b, c, d];
    SplitAtSeparator(a, '-', x1);
  }

  /** Format round trip: when no segment of a composed code holds `-`, decomposing it gives
      back the type code, the location code with the floor, the time code and the person code
      (an empty one shown as `?`). */
  lemma DecomposeComposed(typeCode: string, locCode: string, floor: string, timeCode: string, personCode: string)
    requires '-' !in typeCode && '-' !in locCode + floor && '-' !in timeCode && '-' !in personCode
    ensures Decompose(ComposeCode(typeCode, locCode, floor, timeCode, personCode))
      == CodeParts(OrUnknown(typeCode), OrUnknown(locCode + floor), OrUnknown(timeCode), OrUnknown(personCode))
  {
    assert ComposeCode(typeCode, locCode, floor, timeCode, personCode)
      == typeCode + "-" + (locCode + floor) + "-" + timeCode + "-" + personCode;
    SplitFour(typeCode, locCode + floor, timeCode, personCode);
  }

  /** Segments after the fourth do not change the label. */
  lemma ExtraSegmentsIgnored(a: string, b: string, c: string, d: string, rest: string)
    requires '-' !in a && '-' !in b && '-' !in c && '-' !in d
    ensures Decompose(a + "-" + b + "-" + c + "-" + d + "-" + rest) == Decompose(a + "-" + b + "-" + c + "-" + d)
  {
    SplitFourThen(a, b, c, d, rest);
    SplitFour(a, b, c, d);
  }

  /** A record stored from an up-to-date preview, with rule codes free of `-`, a well-formed or
      empty date-time field and a finder from the form's domains, decomposes into exactly the
      segments it was built from. */
  lemma StoredCodeRoundTrip(g: GlobalState, d: Draft, dateTimeInput: string, timestamp: int, freshId: string)
    requires SubmitItem(g, d, timestamp, PreviewCode(g, d, TimeCode(dateTimeInput)), freshId).Stored?
    requires '-' !in FindById(g.categories, d.typeId).value.code
    requires '-' !in FindById(g.locations, d.locId).value.code
    requires d.floor in Floors(d.locId) && InDomains(d.grade, d.classNum, d.studentId)
    requires dateTimeInput == "" || IsLocalDateTime(dateTimeInput)
    ensures var item := SubmitItem(g, d, timestamp, PreviewCode(g, d, TimeCode(dateTimeInput)), freshId).item;
      Decompose(item.generatedCode) == CodeParts(
        FindById(g.categories, d.typeId).value.code,
        FindById(g.locations, d.locId).value.code + d.floor,
        TimeCode(dateTimeInput),
        PersonCode(d.grade, d.classNum, d.studentId))
  {
    var t, l := FindById(g.categories, d.typeId).value.code, FindById(g.locations, d.locId).value.code;
    var time, person := TimeCode(dateTimeInput), PersonCode(d.grade, d.classNum, d.studentId);
    StoredCodeUsesRuleCodes(g, d, time, timestamp, freshId);
    PersonCodeShape(d.grade, d.classNum, d.studentId);
    assert '-' !in person by {
      forall k | 0 <= k < |person| ensures person[k] != '-' {
        assert IsDigit(person[k]);
      }
    }
    if dateTimeInput != "" {
      TimeCodeOfLocalDateTime(dateTimeInput);
      assert '-' !in time by {
        forall k | 0 <= k < |time| ensures time[k] != '-' {
          assert IsDigit(time[k]);
        }
      }
    }
    assert |d.floor| == 1 && d.floor[0] != '-';
    assert '-' !in l + d.floor;
    DecomposeComposed(t, l, d.floor, time, person);
  }

  /** A rule code of `-` passes the normalisation and breaks the round trip: the type and
      location parts read `?`, and the location-and-floor and time segments land in the time
      and person parts. */
  lemma DashCodeBreaksRoundTrip(locCode: string, floor: string, timeCode: string, personCode: string)
    requires locCode + floor != "" && '-' !in locCode + floor
    requires timeCode != "" && '-' !in timeCode && '-' !in personCode
    ensures Normalize("-") == "-"
    ensures Decompose(ComposeCode("-", locCode, floor, timeCode, personCode))
      == CodeParts("?", "?", locCode + floor, timeCode)
  {
    var lf := locCode + floor;
    assert ComposeCode("-", locCode, floor, timeCode, personCode) == "" + "-" + "" + "-" + lf + "-" + timeCode + "-" + personCode;
    SplitFourThen("", "", lf, timeCode, personCode);
    assert Upper("-") == "-";
  }

  /** `QR-<code>.png`. */
  function DownloadName(code: string): (name: string)
    ensures |name| == |code| + 7
    ensures name[..3] == "QR-" && name[3..|name| - 4] == code && name[|name| - 4..] == ".png"
  {
    "QR-" + code + ".png"
  }
}
