/** Strings as the services use them: the database's order, and Go's trimming and lower-casing. */
module Strings {

  // ---- a total order ----

  predicate Less(a: string, b: string) {
    b != "" && (a == "" || a[0] < b[0] || (a[0] == b[0] && Less(a[1..], b[1..])))
  }

  lemma {:induction false} LessTrichotomy(a: string, b: string)
    ensures (if Less(a, b) then 1 else 0) + (if Less(b, a) then 1 else 0) + (if a == b then 1 else 0) == 1
  {
    if a != "" && b != "" && a[0] == b[0] {
      LessTrichotomy(a[1..], b[1..]);
      assert a == [a[0]] + a[1..] && b == [b[0]] + b[1..];
    }
  }

  lemma {:induction false} LessTransitive(a: string, b: string, c: string)
    requires Less(a, b) && Less(b, c)
    ensures Less(a, c)
  {
    if a != "" && a[0] == b[0] && b[0] == c[0] {
      LessTransitive(a[1..], b[1..], c[1..]);
    }
  }

  // ---- trimming ----

  /** Go's unicode.IsSpace. */
  predicate IsSpace(c: char) {
    || c in "\t\n\U{0B}\U{0C}\r \U{85}\U{A0}\U{1680}\U{2028}\U{2029}\U{202F}\U{205F}\U{3000}"
    || '\U{2000}' <= c <= '\U{200A}'
  }

  /** strings.TrimSpace. */
  function Trim(s: string): string {
    if s == "" then ""
    else if IsSpace(s[0]) then Trim(s[1..])
    else if IsSpace(s[|s| - 1]) then Trim(s[..|s| - 1])
    else s
  }

  predicate AllSpaces(s: string) {
    forall i :: 0 <= i < |s| ==> IsSpace(s[i])
  }

  predicate Around(s: string, a: string, t: string, b: string) {
    s == a + t + b && AllSpaces(a) && AllSpaces(b)
  }

  /** t is s without the spaces around it. */
  ghost predicate IsTrimmed(s: string, t: string) {
    && (exists a, b :: Around(s, a, t, b))
    && (t != "" ==> !IsSpace(t[0]) && !IsSpace(t[|t| - 1]))
  }

  lemma SpaceBefore(s: string, a: string, t: string, b: string)
    requires s != "" && IsSpace(s[0]) && Around(s[1..], a, t, b)
    ensures Around(s, [s[0]] + a, t, b)
  {
    hide IsSpace;
    assert s == [s[0]] + s[1..];
  }

  lemma SpaceAfter(s: string, a: string, t: string, b: string)
    requires s != "" && IsSpace(s[|s| - 1]) && Around(s[..|s| - 1], a, t, b)
    ensures Around(s, a, t, b + [s[|s| - 1]])
  {
    hide IsSpace;
    assert s == s[..|s| - 1] + [s[|s| - 1]];
  }

  lemma {:induction false} TrimIs(s: string)
    ensures IsTrimmed(s, Trim(s))
  {
    hide IsSpace, Around;
    if s == "" || (!IsSpace(s[0]) && !IsSpace(s[|s| - 1])) {
      TrimmedAlready(s);
    } else if IsSpace(s[0]) {
      TrimIs(s[1..]);
      var a, b :| Around(s[1..], a, Trim(s[1..]), b);
      SpaceBefore(s, a, Trim(s[1..]), b);
    } else {
      TrimIs(s[..|s| - 1]);
      var a, b :| Around(s[..|s| - 1], a, Trim(s[..|s| - 1]), b);
      SpaceAfter(s, a, Trim(s[..|s| - 1]), b);
    }
  }

  lemma TrimmedAlready(s: string)
    ensures Around(s, "", s, "")
  {
  }

  /** Nothing else is: what is left is determined. */
  lemma {:induction false} TrimIff(s: string, t: string)
    ensures t == Trim(s) <==> IsTrimmed(s, t)
  {
    TrimIs(s);
    if IsTrimmed(s, t) {
      var a, b :| Around(s, a, t, b);
      var c, d :| Around(s, c, Trim(s), d);
      SameTrim(s, a, t, b, c, Trim(s), d);
    }
  }

  lemma SameTrim(s: string, a: string, t: string, b: string, c: string, u: string, d: string)
    requires Around(s, a, t, b) && Around(s, c, u, d)
    requires t != "" ==> !IsSpace(t[0]) && !IsSpace(t[|t| - 1])
    requires u != "" ==> !IsSpace(u[0]) && !IsSpace(u[|u| - 1])
    ensures t == u
  {
    if t != "" {
      assert s[|a|] == t[0] && s[|a| + |t| - 1] == t[|t| - 1];
      assert u != "";
    }
    if u != "" {
      assert s[|c|] == u[0] && s[|c| + |u| - 1] == u[|u| - 1];
      assert |a| == |c| && |b| == |d|;
      assert t == s[|a|..|s| - |b|] == u;
    }
  }

  /** Something is left exactly when some character is no space. */
  lemma {:induction false} TrimLeavesSomethingIff(s: string)
    ensures Trim(s) != "" <==> exists i :: 0 <= i < |s| && !IsSpace(s[i])
  {
    hide IsSpace;
    TrimIs(s);
    var a, b :| Around(s, a, Trim(s), b);
    if Trim(s) != "" { assert s[|a|] == Trim(s)[0]; } else { assert s == a + b; }
  }

  /** strings.ToLower, given the mapping of one rune. */
  function Lower(s: string, lower: char -> char): string {
    seq(|s|, i requires 0 <= i < |s| => lower(s[i]))
  }

  lemma LowerIs(s: string, lower: char -> char, l: string)
    ensures l == Lower(s, lower) <==> |l| == |s| && forall i :: 0 <= i < |s| ==> l[i] == lower(s[i])
  {
  }
}
