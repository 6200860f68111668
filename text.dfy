/** String helpers shared by the client and the server: JavaScript's notion of
    white space, `String.prototype.trim`, and `Array.prototype.join`. */
module Text {

  /** A JavaScript value that may be `undefined`/`null`. */
  datatype Option<T> = None | Some(value: T)

  /** The code points JavaScript's `trim` and the regex class `\s` treat as white
      space: the WhiteSpace and LineTerminator productions of ECMA-262. */
  predicate IsJsSpace(c: char)
  {
    var n := c as int;
    n == 0x09 || n == 0x0A || n == 0x0B || n == 0x0C || n == 0x0D || n == 0x20
    || n == 0xA0 || n == 0x1680 || (0x2000 <= n <= 0x200A) || n == 0x2028
    || n == 0x2029 || n == 0x202F || n == 0x205F || n == 0x3000 || n == 0xFEFF
  }

  predicate AllSpace(s: string)
  {
    forall i :: 0 <= i < |s| ==> IsJsSpace(s[i])
  }

  /** Drops leading white space: the result is a suffix of `s` and only white
      space was dropped. */
  function TrimStart(s: string): (r: string)
    ensures |r| <= |s| && r == s[|s| - |r|..]
    ensures AllSpace(s[..|s| - |r|])
    ensures r == [] || !IsJsSpace(r[0])
  {
    if s != [] && IsJsSpace(s[0]) then
      var t := s[1..];
      var r := TrimStart(t);
      assert t[|t| - |r|..] == s[|s| - |r|..];
      var dropped, rest := s[..|s| - |r|], t[..|t| - |r|];
      assert AllSpace(dropped) by {
        forall i | 0 <= i < |dropped| ensures IsJsSpace(dropped[i]) {
          if i > 0 {
            assert dropped[i] == rest[i - 1];
          }
        }
      }
      r
    else s
  }

  /** Drops trailing white space: the result is a prefix of `s` and only white
      space was dropped. */
  function TrimEnd(s: string): (r: string)
    ensures |r| <= |s| && r == s[..|r|]
    ensures AllSpace(s[|r|..])
    ensures r == [] || !IsJsSpace(r[|r| - 1])
  {
    if s != [] && IsJsSpace(s[|s| - 1]) then
      var t := s[..|s| - 1];
      var r := TrimEnd(t);
      assert t[..|r|] == s[..|r|];
      assert t[|r|..] == s[|r|..|s| - 1];
      assert AllSpace(s[|r|..]) by {
        forall i | 0 <= i < |s[|r|..]| ensures IsJsSpace(s[|r|..][i]) {
          if i < |t| - |r| {
            assert s[|r|..][i] == t[|r|..][i];
          }
        }
      }
      r
    else s
  }

  /** `s.trim()`: the result is `s` with its white-space margins removed; it is
      empty exactly when `s` holds nothing but white space. */
  function Trim(s: string): (r: string)
    ensures |r| <= |s|
    ensures r == [] <==> AllSpace(s)
    ensures r == [] || (!IsJsSpace(r[0]) && !IsJsSpace(r[|r| - 1]))
  {
    var a := TrimStart(s);
    var r := TrimEnd(a);
    TrimSpaces(s, a, r);
    r
  }

  /** The two halves of `Trim` are empty together exactly when `s` is all space. */
  lemma TrimSpaces(s: string, a: string, r: string)
    requires a == TrimStart(s) && r == TrimEnd(a)
    ensures r == [] <==> AllSpace(s)
    ensures r != [] ==> r[0] == a[0]
  {
    var k := |s| - |a|;
    if r == [] {
      forall i | 0 <= i < |s| ensures IsJsSpace(s[i]) {
        assert s[..k][i] == s[i];
      }
    } else {
      assert r[0] == a[0];
      assert a[0] == s[k];
    }
  }

  /** Trimming an already trimmed string changes nothing. */
  lemma TrimIdempotent(s: string)
    ensures Trim(Trim(s)) == Trim(s)
  {
    var t := Trim(s);
    if t != [] {
      assert TrimStart(t) == t;
      assert TrimEnd(t) == t;
    }
  }

  /** `parts.join(sep)`. */
  function Join(parts: seq<string>, sep: string): string
  {
    if |parts| == 0 then ""
    else if |parts| == 1 then parts[0]
    else parts[0] + sep + Join(parts[1..], sep)
  }

  /** Joining a concatenation puts one separator between the two joins. */
  lemma {:induction false} JoinAppend(a: seq<string>, b: seq<string>, sep: string)
    requires a != [] && b != []
    ensures Join(a + b, sep) == Join(a, sep) + sep + Join(b, sep)
  {
    if |a| == 1 {
      assert (a + b)[1..] == b;
    } else {
      assert (a + b)[1..] == a[1..] + b;
      JoinAppend(a[1..], b, sep);
    }
  }
}
