/**
 * The few pieces of JavaScript's string semantics the application relies
 * on: truthiness of nullable strings, `includes`, `startsWith`,
 * `Array.prototype.join`, `String.prototype.trim` and a character-class
 * `replace` with the global flag.
 */
module JsText {
  import opened Types

  /** A nullable string is truthy when it is present and not empty. */
  predicate Truthy(o: Option<string>)
  {
    o.Some? && o.value != ""
  }

  predicate StartsWith(s: string, prefix: string)
  {
    |prefix| <= |s| && s[..|prefix|] == prefix
  }

  predicate EndsWith(s: string, suffix: string)
  {
    |suffix| <= |s| && s[|s| - |suffix|..] == suffix
  }

  /** `sub` occurs in `s` starting at index `i`. */
  predicate OccursAt(s: string, sub: string, i: int)
  {
    0 <= i && i + |sub| <= |s| && s[i..i + |sub|] == sub
  }

  /** `s.includes(sub)`, scanning from the left as the runtime does. */
  function Includes(s: string, sub: string): (r: bool)
    ensures r <==> exists i :: OccursAt(s, sub, i)
    decreases |s|
  {
    if StartsWith(s, sub) then
      assert OccursAt(s, sub, 0);
      true
    else if |s| == 0 then
      assert forall i :: !OccursAt(s, sub, i);
      false
    else
      var r := Includes(s[1..], sub);
      if r then
        var i :| OccursAt(s[1..], sub, i);
        assert s[1..][i..i + |sub|] == s[i + 1..i + 1 + |sub|];
        assert OccursAt(s, sub, i + 1);
        true
      else
        forall i | OccursAt(s, sub, i)
          ensures false
        {
          if i > 0 {
            assert s[1..][i - 1..i - 1 + |sub|] == s[i..i + |sub|];
            assert OccursAt(s[1..], sub, i - 1);
          }
        }
        false
  }

  /** A string cannot contain a substring with a character it lacks. */
  lemma ExcludedByChar(s: string, sub: string, c: char)
    requires c in sub && c !in s
    ensures !Includes(s, sub)
  {
  }

  /** A string contains a different string of its own length nowhere. */
  lemma ExcludedBySameLength(s: string, sub: string)
    requires |s| == |sub| && s != sub
    ensures !Includes(s, sub)
  {
  }

  /** `parts.join(sep)`. */
  function Join(parts: seq<string>, sep: string): string
    decreases |parts|
  {
    if |parts| == 0 then ""
    else if |parts| == 1 then parts[0]
    else parts[0] + sep + Join(parts[1..], sep)
  }

  /** A joined list begins with its first part. */
  lemma {:induction false} JoinStartsWithFirst(parts: seq<string>, sep: string)
    requires |parts| >= 1
    ensures StartsWith(Join(parts, sep), parts[0])
  {
    var j := Join(parts, sep);
    if |parts| >= 2 {
      assert j == parts[0] + (sep + Join(parts[1..], sep));
    }
    assert j[..|parts[0]|] == parts[0];
  }

  /** A joined list of two or more parts begins with its first part, the separator and its second part. */
  lemma {:induction false} JoinStartsWith(parts: seq<string>, sep: string)
    requires |parts| >= 2
    ensures StartsWith(Join(parts, sep), parts[0] + sep + parts[1])
  {
    var j := Join(parts, sep);
    var rest := Join(parts[1..], sep);
    JoinStartsWithFirst(parts[1..], sep);
    assert rest == parts[1] + rest[|parts[1]|..];
    assert j == (parts[0] + sep + parts[1]) + rest[|parts[1]|..];
    assert j[..|parts[0] + sep + parts[1]|] == parts[0] + sep + parts[1];
  }

  /** A joined list ends with its last part, preceded by the separator when there are two or more. */
  lemma {:induction false} JoinEndsWith(parts: seq<string>, sep: string)
    requires |parts| >= 1
    ensures EndsWith(Join(parts, sep), parts[|parts| - 1])
    ensures |parts| >= 2 ==> EndsWith(Join(parts, sep), sep + parts[|parts| - 1])
    decreases |parts|
  {
    if |parts| >= 2 {
      var rest := parts[1..];
      JoinEndsWith(rest, sep);
      var last := parts[|parts| - 1];
      assert rest[|rest| - 1] == last;
      var j := Join(parts, sep);
      var jr := Join(rest, sep);
      assert j == parts[0] + sep + jr;
      if |rest| >= 2 {
        assert EndsWith(jr, sep + last);
        assert j[|j| - |sep + last|..] == jr[|jr| - |sep + last|..];
      } else {
        assert jr == last;
        assert j == parts[0] + (sep + last);
        assert j[|j| - |sep + last|..] == sep + last;
      }
      assert EndsWith(j, sep + last);
      assert j[|j| - |last|..] == (sep + last)[|sep|..];
    }
  }

  /** A joined list whose first and last parts are non-empty begins with the first part's first character and ends with the last part's last character. */
  lemma JoinEndpoints(parts: seq<string>, sep: string)
    requires |parts| >= 1 && parts[0] != [] && parts[|parts| - 1] != []
    ensures |Join(parts, sep)| > 0
    ensures Join(parts, sep)[0] == parts[0][0]
    ensures Join(parts, sep)[|Join(parts, sep)| - 1] == parts[|parts| - 1][|parts[|parts| - 1]| - 1]
  {
    JoinStartsWithFirst(parts, sep);
    JoinEndsWith(parts, sep);
    var j := Join(parts, sep);
    var last := parts[|parts| - 1];
    assert j[..|parts[0]|][0] == j[0];
    assert j[|j| - |last|..][|last| - 1] == j[|j| - 1];
  }

  /**
   * The characters `trim` removes: ECMAScript's WhiteSpace and
   * LineTerminator productions.
   */
  predicate IsWhitespace(c: char)
  {
    c == '\t' || c == '\n' || c == '\U{000B}' || c == '\U{000C}' || c == '\r' || c == ' '
    || c == '\U{00A0}' || c == '\U{1680}' || ('\U{2000}' <= c <= '\U{200A}')
    || c == '\U{2028}' || c == '\U{2029}' || c == '\U{202F}' || c == '\U{205F}'
    || c == '\U{3000}' || c == '\U{FEFF}'
  }

  /** Drops leading whitespace: the result is a suffix of `s` that does not start with whitespace. */
  function TrimStart(s: string): (r: string)
    ensures |r| <= |s| && r == s[|s| - |r|..]
    ensures r == [] || !IsWhitespace(r[0])
    ensures forall k :: 0 <= k < |s| - |r| ==> IsWhitespace(s[k])
    decreases |s|
  {
    if |s| > 0 && IsWhitespace(s[0]) then
      var r := TrimStart(s[1..]);
      assert forall k :: 1 <= k < |s| - |r| ==> s[k] == s[1..][k - 1];
      r
    else s
  }

  /** Drops trailing whitespace: the result is a prefix of `s` that does not end with whitespace. */
  function TrimEnd(s: string): (r: string)
    ensures |r| <= |s| && r == s[..|r|]
    ensures r == [] || !IsWhitespace(r[|r| - 1])
    ensures forall k :: |r| <= k < |s| ==> IsWhitespace(s[k])
    decreases |s|
  {
    if |s| > 0 && IsWhitespace(s[|s| - 1]) then
      var r := TrimEnd(s[..|s| - 1]);
      r
    else s
  }

  /** `s.trim()`. */
  function Trim(s: string): string
  {
    TrimEnd(TrimStart(s))
  }

  /** A string that neither starts nor ends with whitespace is its own trim. */
  lemma TrimUntouched(s: string)
    requires s != [] ==> !IsWhitespace(s[0]) && !IsWhitespace(s[|s| - 1])
    ensures Trim(s) == s
  {
  }

  /** Joining parts that start and end without whitespace gives a string `trim` leaves alone. */
  lemma JoinTrimUntouched(parts: seq<string>, sep: string)
    requires |parts| >= 1 && parts[0] != [] && parts[|parts| - 1] != []
    requires !IsWhitespace(parts[0][0]) && !IsWhitespace(parts[|parts| - 1][|parts[|parts| - 1]| - 1])
    ensures Trim(Join(parts, sep)) == Join(parts, sep)
  {
    JoinEndpoints(parts, sep);
    TrimUntouched(Join(parts, sep));
  }

  /** `s.replace(/[...]/g, replacement)`: every character in `targets` is replaced by `replacement`. */
  function ReplaceAll(s: string, targets: set<char>, replacement: char): (r: string)
    ensures |r| == |s|
    ensures forall k :: 0 <= k < |s| ==> r[k] == (if s[k] in targets then replacement else s[k])
    decreases |s|
  {
    if s == [] then []
    else
      var rest := ReplaceAll(s[1..], targets, replacement);
      [if s[0] in targets then replacement else s[0]] + rest
  }
}
