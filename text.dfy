/** The string operations the dashboard code calls: `trim`, `toLowerCase`,
    `toUpperCase` of one character, `includes`, and the two `replace` calls. */
module Text {

  /** The white-space characters `trim` and the regular expression `\s` remove
      (the ASCII ones, no-break space and the byte-order mark). */
  predicate IsSpace(c: char)
  {
    c == ' ' || c == '\t' || c == '\n' || c == '\r'
    || c as int == 0x0B || c as int == 0x0C || c as int == 0xA0 || c as int == 0xFEFF
  }

  function TrimStart(s: string): (r: string)
    ensures |r| <= |s| && r == s[|s| - |r|..]
    ensures r == [] || !IsSpace(r[0])
    ensures forall k :: 0 <= k < |s| - |r| ==> IsSpace(s[k])
  {
    if s != [] && IsSpace(s[0]) then TrimStart(s[1..]) else s
  }

  function TrimEnd(s: string): (r: string)
    ensures |r| <= |s| && r == s[..|r|]
    ensures r == [] || !IsSpace(r[|r| - 1])
    ensures forall k :: |r| <= k < |s| ==> IsSpace(s[k])
  {
    if s != [] && IsSpace(s[|s| - 1]) then TrimEnd(s[..|s| - 1]) else s
  }

  /** `s.trim()`: `s` without its leading and trailing white space. */
  function Trim(s: string): (r: string)
    ensures |r| <= |s|
    ensures r == [] || (!IsSpace(r[0]) && !IsSpace(r[|r| - 1]))
  {
    TrimEnd(TrimStart(s))
  }

  /** What `trim` keeps is the slice of `s` between its leading and its trailing
      white space. */
  lemma TrimSlice(s: string)
    ensures exists i, j ::
              && 0 <= i <= j <= |s| && Trim(s) == s[i..j]
              && (forall k :: 0 <= k < i ==> IsSpace(s[k]))
              && (forall k :: j <= k < |s| ==> IsSpace(s[k]))
  {
    var t := TrimStart(s);
    var i := |s| - |t|;
    assert Trim(s) == s[i..i + |Trim(s)|];
  }

  /** `c.toLowerCase()` for the Latin letters (ASCII and Latin-1). */
  function LowerChar(c: char): char
  {
    if 'A' <= c <= 'Z' || ('À' <= c <= 'Þ' && c != '×') then (c as int + 32) as char else c
  }

  /** `c.toUpperCase()` for the Latin letters (ASCII and Latin-1); `ÿ` and the
      micro sign map outside Latin-1, to `Ÿ` and the Greek capital mu. */
  function UpperChar(c: char): char
  {
    if 'a' <= c <= 'z' || ('à' <= c <= 'þ' && c != '÷') then (c as int - 32) as char
    else if c as int == 0xFF then 0x178 as char
    else if c as int == 0xB5 then 0x39C as char
    else c
  }

  function ToLower(s: string): (r: string)
    ensures |r| == |s| && forall k :: 0 <= k < |s| ==> r[k] == LowerChar(s[k])
  {
    if s == [] then [] else [LowerChar(s[0])] + ToLower(s[1..])
  }

  /** `s.includes(sub)`. */
  predicate Contains(s: string, sub: string)
  {
    (|sub| <= |s| && s[..|sub|] == sub) || (s != [] && Contains(s[1..], sub))
  }

  /** `s.replace(/\s/g, '')`. */
  function RemoveSpaces(s: string): (r: string)
    ensures |r| <= |s|
    ensures forall k :: 0 <= k < |r| ==> !IsSpace(r[k])
  {
    if s == [] then []
    else if IsSpace(s[0]) then RemoveSpaces(s[1..])
    else [s[0]] + RemoveSpaces(s[1..])
  }

  /** Exactly the white space is removed: every other character keeps its number
      of occurrences. */
  lemma {:induction false} RemoveSpacesCounts(s: string)
    ensures forall c :: multiset(RemoveSpaces(s))[c] == if IsSpace(c) then 0 else multiset(s)[c]
  {
    if s != [] {
      RemoveSpacesCounts(s[1..]);
      assert s == [s[0]] + s[1..];
    }
  }

  /** Removing white space works piece by piece, so the kept characters stay in order. */
  lemma {:induction false} RemoveSpacesAppend(a: string, b: string)
    ensures RemoveSpaces(a + b) == RemoveSpaces(a) + RemoveSpaces(b)
  {
    if a == [] {
      assert a + b == b;
    } else {
      assert (a + b)[0] == a[0] && (a + b)[1..] == a[1..] + b;
      RemoveSpacesAppend(a[1..], b);
    }
  }

  /** Removing white space adds no character. */
  lemma {:induction false} RemoveSpacesFrom(s: string)
    ensures forall c :: c in RemoveSpaces(s) ==> c in s
  {
    if s != [] {
      RemoveSpacesFrom(s[1..]);
      assert s == [s[0]] + s[1..];
    }
  }

  /** `s.replace(/x/g, '')` for one character `x`. */
  function RemoveChar(s: string, x: char): (r: string)
    ensures |r| <= |s|
    ensures x !in r
  {
    if s == [] then []
    else if s[0] == x then RemoveChar(s[1..], x)
    else [s[0]] + RemoveChar(s[1..], x)
  }

  /** Exactly the occurrences of `x` are removed: every other character keeps its
      number of occurrences. */
  lemma {:induction false} RemoveCharCounts(s: string, x: char)
    ensures forall c :: multiset(RemoveChar(s, x))[c] == if c == x then 0 else multiset(s)[c]
  {
    if s != [] {
      RemoveCharCounts(s[1..], x);
      assert s == [s[0]] + s[1..];
    }
  }

  /** Removing a character keeps every other character and adds none. */
  lemma {:induction false} RemoveCharKeeps(s: string, x: char)
    ensures forall c :: c in RemoveChar(s, x) <==> c in s && c != x
    ensures forall a, b :: s == a + b ==> RemoveChar(s, x) == RemoveChar(a, x) + RemoveChar(b, x)
  {
    if s != [] {
      RemoveCharKeeps(s[1..], x);
      assert s == [s[0]] + s[1..];
    }
    forall a, b | s == a + b
      ensures RemoveChar(s, x) == RemoveChar(a, x) + RemoveChar(b, x)
    {
      RemoveCharAppend(a, b, x);
    }
  }

  /** Removing a character works piece by piece, so the kept characters stay in order. */
  lemma {:induction false} RemoveCharAppend(a: string, b: string, x: char)
    ensures RemoveChar(a + b, x) == RemoveChar(a, x) + RemoveChar(b, x)
  {
    if a == [] {
      assert a + b == b;
    } else {
      assert (a + b)[0] == a[0] && (a + b)[1..] == a[1..] + b;
      RemoveCharAppend(a[1..], b, x);
    }
  }

  /** `s.replace(a, b)` with a one-character pattern: only the first `a` becomes `b`. */
  function ReplaceFirst(s: string, a: char, b: char): (r: string)
    ensures |r| == |s|
    ensures a in s ==> exists i :: 0 <= i < |s| && s[i] == a && a !in s[..i] && r == s[i := b]
    ensures a !in s ==> r == s
  {
    if s == [] then []
    else if s[0] == a then [b] + s[1..]
    else
      var rest := ReplaceFirst(s[1..], a, b);
      assert s == [s[0]] + s[1..];
      if a in s[1..] then
        var i :| 0 <= i < |s[1..]| && s[1..][i] == a && a !in s[1..][..i] && rest == s[1..][i := b];
        assert s[..i + 1] == [s[0]] + s[1..][..i];
        assert [s[0]] + rest == s[i + 1 := b];
        [s[0]] + rest
      else
        [s[0]] + rest
  }
}
