/** Strings as the cockpit sees them: white space, trimming and concatenation. */
module Text {

  /** The white space of ECMAScript, shared by `trim` and the regular-expression class `\s`. */
  predicate IsSpace(c: char) {
    || '\t' <= c <= '\r'
    || c == ' '
    || c == '\U{00A0}' || c == '\U{1680}' || '\U{2000}' <= c <= '\U{200A}'
    || c == '\U{2028}' || c == '\U{2029}' || c == '\U{202F}' || c == '\U{205F}'
    || c == '\U{3000}' || c == '\U{FEFF}'
  }

  function TrimStart(s: string): (r: string)
    ensures |r| <= |s| && r == s[|s| - |r|..]
    ensures r != [] ==> !IsSpace(r[0])
    ensures NonSpace(r) == NonSpace(s)
  {
    if s == [] || !IsSpace(s[0]) then s else TrimStart(s[1..])
  }

  function TrimEnd(s: string): (r: string)
    ensures r <= s
    ensures r != [] ==> !IsSpace(r[|r| - 1])
    ensures NonSpace(r) == NonSpace(s)
  {
    if s == [] || !IsSpace(s[|s| - 1]) then s
    else
      NonSpaceAppend(s[..|s| - 1], [s[|s| - 1]]);
      assert s == s[..|s| - 1] + [s[|s| - 1]];
      TrimEnd(s[..|s| - 1])
  }

  function Trim(s: string): (r: string)
    ensures NonSpace(r) == NonSpace(s)
    ensures r != [] ==> !IsSpace(r[0]) && !IsSpace(r[|r| - 1])
  {
    TrimEnd(TrimStart(s))
  }

  /** The characters of `s` that are not white space, in order. */
  function NonSpace(s: string): string {
    if s == [] then []
    else (if IsSpace(s[0]) then [] else [s[0]]) + NonSpace(s[1..])
  }

  lemma {:induction false} NonSpaceAppend(a: string, b: string)
    ensures NonSpace(a + b) == NonSpace(a) + NonSpace(b)
  {
    if a == [] {
      assert a + b == b;
    } else {
      assert (a + b)[1..] == a[1..] + b;
      NonSpaceAppend(a[1..], b);
    }
  }

  /** Trimming the end stops at the first character, from behind, that is not white space. */
  lemma {:induction false} TrimEndAppend(a: string, b: string)
    requires a != [] && !IsSpace(a[|a| - 1])
    ensures TrimEnd(a + b) == a + TrimEnd(b)
  {
    hide NonSpace;
    if b == [] {
      assert a + b == a;
    } else {
      var n := |b| - 1;
      assert (a + b)[..|a + b| - 1] == a + b[..n];
      TrimEndAppend(a, b[..n]);
    }
  }

  lemma {:induction false} TrimEndCons(c: char, s: string)
    ensures TrimEnd([c] + s) == if TrimEnd(s) == [] && IsSpace(c) then [] else [c] + TrimEnd(s)
  {
    hide NonSpace;
    if s == [] {
      assert [c] + s == [c] && [c][..0] == [];
    } else {
      var n := |s| - 1;
      assert ([c] + s)[..|s|] == [c] + s[..n];
      TrimEndCons(c, s[..n]);
    }
  }

  /** Both ends can be trimmed in either order. */
  lemma {:induction false} TrimsCommute(s: string)
    ensures TrimStart(TrimEnd(s)) == TrimEnd(TrimStart(s))
  {
    hide NonSpace, IsSpace;
    if s != [] {
      assert s == [s[0]] + s[1..];
      TrimEndCons(s[0], s[1..]);
      TrimsCommute(s[1..]);
      if TrimEnd(s) != [] {
        assert TrimEnd(s)[0] == s[0];
        assert TrimEnd(s)[1..] == TrimEnd(s[1..]);
      }
    }
  }

  /** What was trimmed at the end before does not matter. */
  lemma TrimTrimmedEnd(s: string)
    ensures Trim(TrimEnd(s)) == Trim(s)
  {
    hide NonSpace, IsSpace;
    TrimsCommute(s);
    var t := TrimEnd(TrimStart(s));
    assert TrimEnd(t) == t;
  }

  /** The concatenation of a list of strings. */
  function Flatten(parts: seq<string>): string {
    if parts == [] then "" else Flatten(parts[..|parts| - 1]) + parts[|parts| - 1]
  }

  lemma FlattenSnoc(parts: seq<string>, last: string)
    ensures Flatten(parts + [last]) == Flatten(parts) + last
  {
    assert (parts + [last])[..|parts|] == parts;
  }

  lemma FlattenTake(parts: seq<string>, i: nat)
    requires i < |parts|
    ensures Flatten(parts[..i + 1]) == Flatten(parts[..i]) + parts[i]
  {
    assert parts[..i + 1][..i] == parts[..i];
  }

  lemma {:induction false} FlattenCons(parts: seq<string>)
    requires parts != []
    ensures Flatten(parts) == parts[0] + Flatten(parts[1..])
  {
    var n := |parts| - 1;
    if n > 0 {
      FlattenCons(parts[..n]);
      assert parts[..n][1..] == parts[1..][..n - 1];
    } else {
      assert parts[..0] == [] && parts[1..] == [];
    }
  }
}
