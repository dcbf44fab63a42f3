/**
 * The three Python string builtins the telemetry parser is built from:
 * `str.strip()` with no argument, `str.split(sep)` with a one-character
 * separator, and `filter(None, parts)`, which drops the empty strings.
 */
module PyStr {

  /** The characters for which Python's `str.isspace()` holds; `strip()` removes these. */
  predicate IsSpace(c: char) {
    || c == ' '
    || ('\t' <= c <= '\r')
    || ('\U{1C}' <= c <= '\U{1F}')
    || c == '\U{85}' || c == '\U{A0}' || c == '\U{1680}'
    || ('\U{2000}' <= c <= '\U{200A}')
    || c == '\U{2028}' || c == '\U{2029}' || c == '\U{202F}' || c == '\U{205F}' || c == '\U{3000}'
  }

  /** `s.lstrip()`: the suffix of `s` left after removing its leading whitespace. */
  function StripStart(s: string): (r: string)
    ensures |r| <= |s| && r == s[|s| - |r|..]
    ensures forall k :: 0 <= k < |s| - |r| ==> IsSpace(s[k])
    ensures r == [] || !IsSpace(r[0])
  {
    if s == [] || !IsSpace(s[0]) then s else StripStart(s[1..])
  }

  /** `s.rstrip()`: the prefix of `s` left after removing its trailing whitespace. */
  function StripEnd(s: string): (r: string)
    ensures |r| <= |s| && r == s[..|r|]
    ensures forall k :: |r| <= k < |s| ==> IsSpace(s[k])
    ensures r == [] || !IsSpace(r[|r| - 1])
  {
    if s == [] || !IsSpace(s[|s| - 1]) then s else StripEnd(s[..|s| - 1])
  }

  /** `s.strip()`: `s` without leading and trailing whitespace. */
  function Strip(s: string): (r: string)
    ensures |r| <= |s|
    ensures r == [] || (!IsSpace(r[0]) && !IsSpace(r[|r| - 1]))
    ensures r == [] <==> forall k :: 0 <= k < |s| ==> IsSpace(s[k])
  {
    var t := StripStart(s);
    var r := StripEnd(t);
    assert r != [] ==> r[0] == t[0];
    assert t == [] ==> forall k :: 0 <= k < |s| ==> IsSpace(s[k]);
    assert t != [] ==> !IsSpace(s[|s| - |t|]);
    r
  }

  /** `r` is the slice of `s` starting at `i`, with only whitespace before and after it. */
  predicate TrimmedAt(s: string, r: string, i: nat) {
    && i + |r| <= |s| && r == s[i..i + |r|]
    && (forall k :: 0 <= k < i ==> IsSpace(s[k]))
    && (forall k :: i + |r| <= k < |s| ==> IsSpace(s[k]))
  }

  /** `strip()` removes surrounding whitespace and nothing else: the result is a slice of `s`. */
  lemma StripTrims(s: string)
    ensures exists i: nat :: TrimmedAt(s, Strip(s), i)
  {
    var t := StripStart(s);
    var r := Strip(s);
    var i := |s| - |t|;
    assert r == t[..|r|];
    assert r == s[i..i + |r|];
    assert forall k :: i + |r| <= k < |s| ==> s[k] == t[k - i];
    assert TrimmedAt(s, r, i);
  }

  /** The inverse of `Split`: the parts with one `sep` between neighbours (`sep.join(parts)`). */
  function Join(parts: seq<string>, sep: char): string {
    if |parts| == 0 then []
    else if |parts| == 1 then parts[0]
    else parts[0] + [sep] + Join(parts[1..], sep)
  }

  /** The number of occurrences of `c` in `s`. */
  function Count(s: string, c: char): nat {
    if s == [] then 0 else (if s[0] == c then 1 else 0) + Count(s[1..], c)
  }

  /**
   * `s.split(sep)`: there is always at least one part, one more than there are
   * separators, no part contains the separator, and joining the parts again
   * gives back `s`.
   */
  function Split(s: string, sep: char): (r: seq<string>)
    ensures |r| == Count(s, sep) + 1
    ensures forall i :: 0 <= i < |r| ==> sep !in r[i]
    ensures Join(r, sep) == s
  {
    if s == [] then [[]]
    else
      var rest := Split(s[1..], sep);
      if s[0] == sep then
        assert Join([[]] + rest, sep) == [sep] + Join(rest, sep);
        [[]] + rest
      else
        var r := [[s[0]] + rest[0]] + rest[1..];
        assert Join(r, sep) == [s[0]] + Join(rest, sep) by {
          if |rest| > 1 {
            assert r[1..] == rest[1..];
          }
        }
        assert s == [s[0]] + s[1..];
        r
  }

  /** Splitting at a separator splits the two sides independently. */
  lemma {:induction false} SplitConcat(a: string, b: string, sep: char)
    ensures Split(a + [sep] + b, sep) == Split(a, sep) + Split(b, sep)
  {
    var s := a + [sep] + b;
    if a == [] {
      assert s[1..] == b;
    } else {
      assert s[0] == a[0];
      assert s[1..] == a[1..] + [sep] + b;
      SplitConcat(a[1..], b, sep);
    }
  }

  /** A string without the separator splits into itself. */
  lemma {:induction false} SplitNoSeparator(a: string, sep: char)
    requires sep !in a
    ensures Split(a, sep) == [a]
  {
    if a != [] {
      SplitNoSeparator(a[1..], sep);
    }
  }

  /** `Split` undoes `Join` for separator-free parts. */
  lemma {:induction false} SplitJoin(parts: seq<string>, sep: char)
    requires |parts| >= 1
    requires forall i :: 0 <= i < |parts| ==> sep !in parts[i]
    ensures Split(Join(parts, sep), sep) == parts
  {
    if |parts| == 1 {
      SplitNoSeparator(parts[0], sep);
    } else {
      SplitConcat(parts[0], Join(parts[1..], sep), sep);
      SplitNoSeparator(parts[0], sep);
      SplitJoin(parts[1..], sep);
    }
  }

  /** `list(filter(None, xs))`: the non-empty strings of `xs`, in order. */
  function DropEmpty(xs: seq<string>): (r: seq<string>)
    ensures |r| <= |xs|
    ensures forall i :: 0 <= i < |r| ==> r[i] != [] && r[i] in xs
  {
    if xs == [] then []
    else
      var rest := DropEmpty(xs[1..]);
      assert forall i :: 0 <= i < |rest| ==> rest[i] in xs by {
        assert forall x :: x in xs[1..] ==> x in xs;
      }
      if xs[0] == [] then rest else [xs[0]] + rest
  }

  lemma {:induction false} DropEmptyConcat(xs: seq<string>, ys: seq<string>)
    ensures DropEmpty(xs + ys) == DropEmpty(xs) + DropEmpty(ys)
  {
    if xs != [] {
      assert (xs + ys)[1..] == xs[1..] + ys;
      DropEmptyConcat(xs[1..], ys);
    } else {
      assert xs + ys == ys;
    }
  }

  lemma {:induction false} DropEmptyNonEmpty(xs: seq<string>)
    requires forall i :: 0 <= i < |xs| ==> xs[i] != []
    ensures DropEmpty(xs) == xs
  {
    if xs != [] {
      DropEmptyNonEmpty(xs[1..]);
    }
  }

  /** `list(filter(None, s.split('*')))`: the non-empty `*`-separated fields of `s`. */
  function Fields(s: string): (r: seq<string>)
    ensures forall i :: 0 <= i < |r| ==> r[i] != [] && '*' !in r[i]
    ensures |r| <= Count(s, '*') + 1
  {
    var parts := Split(s, '*');
    var r := DropEmpty(parts);
    assert forall i :: 0 <= i < |r| ==> '*' !in r[i] by {
      forall i | 0 <= i < |r| ensures '*' !in r[i] {
        var j :| 0 <= j < |parts| && parts[j] == r[i];
      }
    }
    r
  }

  /** Fields on either side of a `*` are counted separately. */
  lemma FieldsConcat(a: string, b: string)
    ensures Fields(a + "*" + b) == Fields(a) + Fields(b)
  {
    SplitConcat(a, b, '*');
    DropEmptyConcat(Split(a, '*'), Split(b, '*'));
  }

  /** A leading `*` produces only an empty field, which is discarded. */
  lemma LeadingSeparatorIgnored(s: string)
    ensures Fields("*" + s) == Fields(s)
  {
    FieldsConcat("", s);
    assert "" + "*" + s == "*" + s;
  }

  /** A trailing `*` produces only an empty field, which is discarded. */
  lemma TrailingSeparatorIgnored(s: string)
    ensures Fields(s + "*") == Fields(s)
  {
    FieldsConcat(s, "");
    assert s + "*" + "" == s + "*";
  }

  /** A doubled `*` counts as one separator. */
  lemma DoubledSeparatorCollapses(a: string, b: string)
    ensures Fields(a + "**" + b) == Fields(a + "*" + b)
  {
    var tail := "*" + b;
    assert a + "**" + b == a + "*" + tail;
    calc {
      Fields(a + "*" + tail);
      { FieldsConcat(a, tail); }
      Fields(a) + Fields(tail);
      { LeadingSeparatorIgnored(b); }
      Fields(a) + Fields(b);
      { FieldsConcat(a, b); }
      Fields(a + "*" + b);
    }
  }

  /** Non-empty, `*`-free fields joined with `*` are recovered exactly by `Fields`. */
  lemma FieldsJoin(fields: seq<string>)
    requires |fields| >= 1
    requires forall i :: 0 <= i < |fields| ==> fields[i] != [] && '*' !in fields[i]
    ensures Fields(Join(fields, '*')) == fields
  {
    SplitJoin(fields, '*');
    DropEmptyNonEmpty(fields);
  }
}
