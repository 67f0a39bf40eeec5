/** Display helpers of the metrics engine: splitting an identifier on a
    separator (Python's `str.split(sep)` with a one-character separator), the
    publisher display name built from the part after the first underscore,
    and the K/M scale `format_number` picks for a value. */
module Display {
  import opened Records

  /** The parts of `s` between occurrences of `sep`; there is always at least
      one part, and consecutive separators give empty parts. */
  function Split(s: string, sep: char): (parts: seq<string>)
    ensures |parts| >= 1
    ensures forall j :: 0 <= j < |parts| ==> sep !in parts[j]
    decreases |s|
  {
    if |s| == 0 then [""]
    else
      var rest := Split(s[1..], sep);
      if s[0] == sep then [""] + rest
      else [[s[0]] + rest[0]] + rest[1..]
  }

  /** The inverse of `Split`: the parts glued with `sep` between them. */
  function Join(parts: seq<string>, sep: char): string
    requires |parts| >= 1
    decreases |parts|
  {
    if |parts| == 1 then parts[0] else parts[0] + [sep] + Join(parts[1..], sep)
  }

  /** Splitting and re-joining gives back the string. */
  lemma {:induction false} JoinSplit(s: string, sep: char)
    ensures Join(Split(s, sep), sep) == s
    decreases |s|
  {
    if |s| > 0 {
      var rest := Split(s[1..], sep);
      JoinSplit(s[1..], sep);
      if s[0] == sep {
        assert ([""] + rest)[1..] == rest;
        assert s == [sep] + s[1..];
      } else {
        var parts := [[s[0]] + rest[0]] + rest[1..];
        if |rest| == 1 {
          assert s == [s[0]] + s[1..];
        } else {
          assert parts[1..] == rest[1..];
          assert Join(rest, sep) == rest[0] + [sep] + Join(rest[1..], sep);
          assert s == [s[0]] + s[1..];
        }
      }
    }
  }

  /** Joining separator-free parts and splitting again gives back the parts. */
  lemma {:induction false} SplitJoin(parts: seq<string>, sep: char)
    requires |parts| >= 1
    requires forall j :: 0 <= j < |parts| ==> sep !in parts[j]
    ensures Split(Join(parts, sep), sep) == parts
    decreases |parts|, |parts[0]|
  {
    if |parts[0]| > 0 {
      var head := parts[0];
      var shorter := [head[1..]] + parts[1..];
      assert shorter[1..] == parts[1..];
      assert forall j :: 1 <= j < |shorter| ==> shorter[j] == parts[j];
      SplitJoin(shorter, sep);
      var s := Join(parts, sep);
      if |parts| == 1 {
        assert s[1..] == Join(shorter, sep);
      } else {
        assert s == head + [sep] + Join(parts[1..], sep);
        assert s[1..] == head[1..] + [sep] + Join(parts[1..], sep);
        assert s[1..] == Join(shorter, sep);
      }
      assert s[0] == head[0];
      assert head[0] != sep by { assert head[0] in parts[0]; }
      assert [s[0]] + head[1..] == head;
      assert ([head] + parts[1..]) == parts;
    } else if |parts| > 1 {
      var s := Join(parts, sep);
      assert s == [sep] + Join(parts[1..], sep);
      assert s[1..] == Join(parts[1..], sep);
      assert forall j :: 0 <= j < |parts[1..]| ==> parts[1..][j] == parts[j + 1];
      SplitJoin(parts[1..], sep);
      assert [""] + parts[1..] == parts;
    }
  }

  /** `Split` yields more than one part exactly when the separator occurs. */
  lemma {:induction false} SplitCount(s: string, sep: char)
    ensures |Split(s, sep)| >= 2 <==> sep in s
    decreases |s|
  {
    if |s| > 0 {
      SplitCount(s[1..], sep);
      assert sep in s <==> s[0] == sep || sep in s[1..] by {
        assert s == [s[0]] + s[1..];
      }
    }
  }

  /** The publisher display name `"Publisher " + id.split('_')[1]`; `None`
      when the id has no underscore, where Python raises `IndexError`. */
  function PublisherName(publisherId: string): (name: Option<string>)
    ensures name.None? <==> '_' !in publisherId
    ensures name.Some? ==>
              exists prefix, rest :: publisherId == prefix + "_" + rest && '_' !in prefix
                && name.value == "Publisher " + Split(rest, '_')[0]
  {
    SplitCount(publisherId, '_');
    var parts := Split(publisherId, '_');
    if |parts| >= 2 then
      SplitShape(publisherId);
      Some("Publisher " + parts[1])
    else None
  }

  /** Where the first underscore sits: what precedes it is the first part, and
      the second part is the first part of what follows it. */
  lemma SplitShape(s: string)
    requires |Split(s, '_')| >= 2
    ensures exists prefix, rest :: s == prefix + "_" + rest && '_' !in prefix
              && Split(s, '_')[1] == Split(rest, '_')[0]
  {
    var parts := Split(s, '_');
    var rest := Join(parts[1..], '_');
    JoinSplit(s, '_');
    assert s == parts[0] + "_" + rest;
    assert forall j :: 0 <= j < |parts[1..]| ==> parts[1..][j] == parts[j + 1];
    SplitJoin(parts[1..], '_');
  }

  /** The scale `format_number` shows a value in. */
  datatype Scale = Millions | Thousands | Units

  function Multiplier(sc: Scale): real
  {
    match sc
    case Millions => 1000000.0
    case Thousands => 1000.0
    case Units => 1.0
  }

  /** `M` from one million up, `K` from one thousand up, plain below that
      (negative values included); the shown mantissa times the multiplier is
      the value. */
  function ScaleFor(value: real): (sc: Scale)
    ensures sc == Millions <==> value >= 1000000.0
    ensures sc == Thousands <==> 1000.0 <= value < 1000000.0
    ensures sc == Units <==> value < 1000.0
  {
    if value >= 1000000.0 then Millions
    else if value >= 1000.0 then Thousands
    else Units
  }

  function Mantissa(value: real): (m: real)
    ensures m * Multiplier(ScaleFor(value)) == value
    ensures ScaleFor(value) != Units ==> 1.0 <= m
    ensures ScaleFor(value) == Thousands ==> m < 1000.0
  {
    value / Multiplier(ScaleFor(value))
  }
}
