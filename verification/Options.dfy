/** qemu option strings: comma-separated fields in which a doubled comma stands for a literal one. */
module Options {
  import opened Text

  /** escapeOptValue. */
  function Escape(v: string): string
  {
    if v == "" then "" else (if v[0] == ',' then ",," else [v[0]]) + Escape(v[1..])
  }

  /** qemu's reading of an option string: a single comma ends a field, a doubled one is part of it. */
  function Fields(s: string): (fields: seq<string>)
    ensures |fields| > 0
  {
    if s == "" then [""]
    else if s[0] != ',' then Grow(s[0], Fields(s[1..]))
    else if |s| >= 2 && s[1] == ',' then Grow(',', Fields(s[2..]))
    else [""] + Fields(s[1..])
  }

  function Grow(c: char, fields: seq<string>): seq<string>
    requires |fields| > 0
  {
    [[c] + fields[0]] + fields[1..]
  }

  function EscapeAll(values: seq<string>): seq<string>
  {
    seq(|values|, i requires 0 <= i < |values| => Escape(values[i]))
  }

  lemma {:induction false} EscapePlain(v: string)
    requires ',' !in v
    ensures Escape(v) == v
  {
    if v != "" {
      EscapePlain(v[1..]);
      assert v == [v[0]] + v[1..];
    }
  }

  lemma {:induction false} EscapeAppend(a: string, b: string)
    ensures Escape(a + b) == Escape(a) + Escape(b)
  {
    if a == "" {
      assert a + b == b;
    } else {
      assert (a + b)[1..] == a[1..] + b;
      EscapeAppend(a[1..], b);
    }
  }

  lemma GrowFirst(c: char, v: string, rest: seq<string>)
    ensures Grow(c, [v] + rest) == [[c] + v] + rest
  {
    assert ([v] + rest)[1..] == rest;
  }

  lemma {:induction false} EscapedFieldAlone(v: string)
    ensures Fields(Escape(v)) == [v]
  {
    if v != "" {
      EscapedFieldAlone(v[1..]);
      GrowFirst(v[0], v[1..], []);
      assert v == [v[0]] + v[1..];
      if v[0] == ',' {
        assert Escape(v)[2..] == Escape(v[1..]);
      } else {
        assert Escape(v)[1..] == Escape(v[1..]);
      }
    }
  }

  /** An escaped value, even one ending in a run of commas, ends at the single comma that follows it. */
  lemma {:induction false} EscapedFieldEnds(v: string, rest: string)
    requires rest == "" || rest[0] != ','
    ensures Fields(Escape(v) + "," + rest) == [v] + Fields(rest)
  {
    var s := Escape(v) + "," + rest;
    if v == "" {
      assert s == "," + rest && s[1..] == rest;
    } else {
      EscapedFieldEnds(v[1..], rest);
      GrowFirst(v[0], v[1..], Fields(rest));
      assert v == [v[0]] + v[1..];
      if v[0] == ',' {
        assert s[2..] == Escape(v[1..]) + "," + rest;
      } else {
        assert s[1..] == Escape(v[1..]) + "," + rest;
      }
    }
  }

  /** Fields that can follow a comma: a later one neither empty nor starting with a comma. */
  ghost predicate Printable(values: seq<string>)
  {
    |values| > 0 && forall i :: 1 <= i < |values| ==> values[i] != "" && values[i][0] != ','
  }

  /** Escaping every value makes printing and reading inverse, whatever the values contain. */
  lemma {:induction false} FieldsReadBack(values: seq<string>)
    requires Printable(values)
    ensures Fields(Join(EscapeAll(values), ',')) == values
  {
    var parts := EscapeAll(values);
    if |values| == 1 {
      EscapedFieldAlone(values[0]);
    } else {
      var rest := Join(parts[1..], ',');
      assert parts[1..] == EscapeAll(values[1..]);
      FieldsReadBack(values[1..]);
      assert parts[1] == Escape(values[1]) && rest[0] == values[1][0];
      EscapedFieldEnds(values[0], rest);
      assert Join(parts, ',') == Escape(values[0]) + "," + rest;
      assert values == [values[0]] + values[1..];
    }
  }
}
