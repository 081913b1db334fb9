/**
 * The comma-list readers `readfloats` and `readfloat3` and the clamp
 * helper `saturatefloat4`.
 *
 * Both readers walk the string once, collecting characters into a
 * pending `element` and closing it at every separator. `Scan` is that
 * walk as a function; `ScanInverse` and `ScanJoined` show it is exactly
 * the split of the string at its separators.
 */
module Fields {
  import opened Common

  /** The fields closed by a separator so far, and the pending element. */
  datatype Split = Split(fields: seq<string>, element: string)

  /** The left-to-right character walk of the readers. */
  function Scan(s: string, sep: char): Split
    decreases |s|
  {
    if |s| == 0 then Split([], [])
    else
      var sp := Scan(s[..|s| - 1], sep);
      if s[|s| - 1] == sep then Split(sp.fields + [sp.element], [])
      else Split(sp.fields, sp.element + [s[|s| - 1]])
  }

  /** Every field followed by the separator, concatenated. */
  function Joined(fields: seq<string>, sep: char): string
    decreases |fields|
  {
    if |fields| == 0 then []
    else Joined(fields[..|fields| - 1], sep) + fields[|fields| - 1] + [sep]
  }

  function Occurrences(s: string, c: char): nat
    decreases |s|
  {
    if |s| == 0 then 0
    else Occurrences(s[..|s| - 1], c) + (if s[|s| - 1] == c then 1 else 0)
  }

  ghost predicate SeparatorFree(fields: seq<string>, sep: char)
  {
    forall k :: 0 <= k < |fields| ==> sep !in fields[k]
  }

  /** The walk loses nothing: one field per separator, none holds a separator. */
  lemma {:induction false} ScanInverse(s: string, sep: char)
    ensures Joined(Scan(s, sep).fields, sep) + Scan(s, sep).element == s
    ensures SeparatorFree(Scan(s, sep).fields, sep) && sep !in Scan(s, sep).element
    ensures |Scan(s, sep).fields| == Occurrences(s, sep)
  {
    if |s| > 0 {
      var p := s[..|s| - 1];
      ScanInverse(p, sep);
      assert s == p + [s[|s| - 1]];
      var sp := Scan(p, sep);
      if s[|s| - 1] == sep {
        assert Scan(s, sep).fields == sp.fields + [sp.element];
        assert (sp.fields + [sp.element])[..|sp.fields|] == sp.fields;
      }
    }
  }

  /** Appending separator-free text only extends the pending element. */
  lemma {:induction false} ScanNoSeparator(s: string, t: string, sep: char)
    requires sep !in t
    ensures Scan(s + t, sep) == Split(Scan(s, sep).fields, Scan(s, sep).element + t)
    decreases |t|
  {
    if |t| > 0 {
      var t' := t[..|t| - 1];
      assert (s + t)[..|s + t| - 1] == s + t';
      ScanNoSeparator(s, t', sep);
      assert t == t' + [t[|t| - 1]];
    } else {
      assert s + t == s;
    }
  }

  /** Splitting a joined list gives the list back: `Scan` is a bijection. */
  lemma {:induction false} ScanJoined(fields: seq<string>, e: string, sep: char)
    requires SeparatorFree(fields, sep) && sep !in e
    ensures Scan(Joined(fields, sep) + e, sep) == Split(fields, e)
    decreases |fields|
  {
    if |fields| == 0 {
      ScanNoSeparator([], e, sep);
      assert Joined(fields, sep) + e == [] + e;
    } else {
      var init := fields[..|fields| - 1];
      var last := fields[|fields| - 1];
      ScanJoined(init, last, sep);
      var closed := Joined(init, sep) + last + [sep];
      assert closed[..|closed| - 1] == Joined(init, sep) + last;
      assert Scan(closed, sep) == Split(init + [last], []);
      assert init + [last] == fields;
      ScanNoSeparator(closed, e, sep);
      assert Joined(fields, sep) == closed;
    }
  }

  /** `atof` of each closed field, in order. */
  function Converted(fields: seq<string>, atof: string -> real): (r: seq<real>)
    ensures |r| == |fields|
    decreases |fields|
  {
    if |fields| == 0 then []
    else Converted(fields[..|fields| - 1], atof) + [atof(fields[|fields| - 1])]
  }

  /** The numbers `readfloats` pushes for `value`. */
  function FieldValues(value: string, atof: string -> real): seq<real>
  {
    var sp := Scan(value, ',');
    Converted(sp.fields, atof) + (if |sp.element| != 0 then [atof(sp.element)] else [])
  }

  /**
   * IMVWebServer.cpp `readfloats`: one number per comma (an empty field
   * gives `atof("")`), one more for a non-empty trailing field, appended
   * after the vector's previous contents.
   */
  method ReadFloats(value: string, values: seq<real>, atof: string -> real) returns (result: seq<real>)
    ensures result == values + FieldValues(value, atof)
    ensures |result| == |values| + Occurrences(value, ',') + (if Scan(value, ',').element == [] then 0 else 1)
  {
    result := values;
    var element: string := "";
    for j := 0 to |value|
      invariant Scan(value[..j], ',').element == element
      invariant result == values + Converted(Scan(value[..j], ',').fields, atof)
    {
      ScanStep(value, j, ',');
      if value[j] == ',' {
        ConvertedAppend(Scan(value[..j], ',').fields, element, atof);
        result := result + [atof(element)];
        element := "";
      } else {
        element := element + [value[j]];
      }
    }
    assert value[..|value|] == value;
    if |element| != 0 {
      result := result + [atof(element)];
    }
    FieldValuesLength(value, atof);
  }

  /** One number per comma, and one more for a non-empty trailing field. */
  lemma FieldValuesLength(value: string, atof: string -> real)
    ensures |FieldValues(value, atof)| == Occurrences(value, ',') + (if Scan(value, ',').element == [] then 0 else 1)
  {
    ScanInverse(value, ',');
  }

  /** One more character moves the walk by one step. */
  lemma ScanStep(s: string, j: int, sep: char)
    requires 0 <= j < |s|
    ensures var sp := Scan(s[..j], sep);
      Scan(s[..j + 1], sep) == if s[j] == sep then Split(sp.fields + [sp.element], []) else Split(sp.fields, sp.element + [s[j]])
  {
    assert s[..j + 1][..j] == s[..j];
  }

  lemma ConvertedAppend(fields: seq<string>, e: string, atof: string -> real)
    ensures Converted(fields + [e], atof) == Converted(fields, atof) + [atof(e)]
  {
    assert (fields + [e])[..|fields|] == fields;
  }

  /**
   * The triple `readfloat3` returns: the fields closed by the first,
   * second and third comma give x, y and z; a non-empty trailing field
   * always overwrites z; whatever is missing stays 0.
   */
  function Float3Of(value: string, atof: string -> real): Float3
  {
    var sp := Scan(value, ',');
    Float3(
      if |sp.fields| > 0 then atof(sp.fields[0]) else 0.0,
      if |sp.fields| > 1 then atof(sp.fields[1]) else 0.0,
      if |sp.element| != 0 then atof(sp.element)
      else if |sp.fields| > 2 then atof(sp.fields[2]) else 0.0)
  }

  /** IMVWebServer.cpp `readfloat3`, the character loop with its field counter. */
  method ReadFloat3(value: string, atof: string -> real) returns (result: Float3)
    ensures result == Float3Of(value, atof)
  {
    result := Float3(0.0, 0.0, 0.0);
    var element: string := "";
    var i := 0;
    for j := 0 to |value|
      invariant Scan(value[..j], ',').element == element
      invariant i == |Scan(value[..j], ',').fields|
      invariant result.x == (if i > 0 then atof(Scan(value[..j], ',').fields[0]) else 0.0)
      invariant result.y == (if i > 1 then atof(Scan(value[..j], ',').fields[1]) else 0.0)
      invariant result.z == (if i > 2 then atof(Scan(value[..j], ',').fields[2]) else 0.0)
    {
      ScanStep(value, j, ',');
      if value[j] == ',' {
        if i == 0 {
          result := result.(x := atof(element));
        } else if i == 1 {
          result := result.(y := atof(element));
        } else if i == 2 {
          result := result.(z := atof(element));
        }
        element := "";
        i := i + 1;
      } else {
        element := element + [value[j]];
      }
    }
    assert value[..|value|] == value;
    if |element| != 0 {
      result := result.(z := atof(element));
    }
  }

  /** A comma-free string sets only z; the empty string gives (0, 0, 0). */
  lemma ReadFloat3WithoutComma(value: string, atof: string -> real)
    requires ',' !in value
    ensures Float3Of(value, atof) == Float3(0.0, 0.0, if value == [] then 0.0 else atof(value))
  {
    ScanNoSeparator([], value, ',');
    assert [] + value == value;
  }

  /**
   * `readfloat3` on fields joined by commas: the first three closed fields
   * land in x, y, z and a non-empty trailing field wins z, so "1,2" gives
   * x = 1, y = 0, z = 2.
   */
  lemma ReadFloat3OfFields(fields: seq<string>, e: string, atof: string -> real)
    requires SeparatorFree(fields, ',') && ',' !in e
    ensures Float3Of(Joined(fields, ',') + e, atof) == Float3(
      if |fields| > 0 then atof(fields[0]) else 0.0,
      if |fields| > 1 then atof(fields[1]) else 0.0,
      if e != [] then atof(e) else if |fields| > 2 then atof(fields[2]) else 0.0)
  {
    ScanJoined(fields, e, ',');
  }

  /** One channel of `saturatefloat4`: raise to `min`, then cut to `max`. */
  function Clamp(v: real, min: real, max: real): real
  {
    var raised := if v < min then min else v;
    if raised > max then max else raised
  }

  function Saturated(v: Float4, min: real, max: real): Float4
  {
    Float4(Clamp(v.x, min, max), Clamp(v.y, min, max), Clamp(v.z, min, max), v.w)
  }

  /**
   * IMVWebServer.cpp `saturatefloat4`: the six in-place conditional
   * assignments. For min <= max it puts x, y, z in [min, max] and leaves
   * a channel already in range alone; w is never touched.
   */
  method Saturate(value: Float4, min: real, max: real) returns (result: Float4)
    ensures result == Saturated(value, min, max)
    ensures result.w == value.w
    ensures min <= max ==> min <= result.x <= max && min <= result.y <= max && min <= result.z <= max
    ensures min <= value.x <= max ==> result.x == value.x
    ensures min <= value.y <= max ==> result.y == value.y
    ensures min <= value.z <= max ==> result.z == value.z
  {
    result := value;
    result := result.(x := if result.x < min then min else result.x);
    result := result.(y := if result.y < min then min else result.y);
    result := result.(z := if result.z < min then min else result.z);
    result := result.(x := if result.x > max then max else result.x);
    result := result.(y := if result.y > max then max else result.y);
    result := result.(z := if result.z > max then max else result.z);
  }

  /** Saturating twice is saturating once. */
  lemma SaturatedIdempotent(v: Float4, min: real, max: real)
    ensures Saturated(Saturated(v, min, max), min, max) == Saturated(v, min, max)
  {
  }
}
