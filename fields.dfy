/** Loosely typed CSV rows and the two readers the dashboard applies to them:
    `getVal` (first non-empty value among fallback header names) and `cleanNum`
    (an integer that may use `.` as a thousands separator). */
module Fields {
  import opened Wrappers
  import opened Text

  /** A cell of a parsed CSV row; a header the row does not have reads as `undefined`. */
  datatype Cell = Null | Str(s: string)

  type Row = map<string, Cell>

  /** `row[k]` is neither `undefined`, nor `null`, nor `''`. */
  predicate Present(row: Row, k: string)
  {
    k in row && row[k].Str? && row[k].s != ""
  }

  /** `keys[i]` is present in `row` and no key before it is. */
  predicate FirstPresentAt(row: Row, keys: seq<string>, i: int)
  {
    0 <= i < |keys| && Present(row, keys[i]) && forall j :: 0 <= j < i ==> !Present(row, keys[j])
  }

  /** `getVal(row, keys)`: the value under the first key, in list order, that is present. */
  function GetVal(row: Option<Row>, keys: seq<string>): (r: Option<string>)
    ensures r.None? <==> (row.None? || forall i :: 0 <= i < |keys| ==> !Present(row.value, keys[i]))
    ensures r.Some? ==> row.Some? && exists i :: FirstPresentAt(row.value, keys, i) && r.value == row.value[keys[i]].s
  {
    if row.None? || keys == [] then None
    else if Present(row.value, keys[0]) then Some(row.value[keys[0]].s)
    else
      var r := GetVal(row, keys[1..]);
      assert forall i :: 1 <= i < |keys| ==> keys[i] == keys[1..][i - 1];
      r
  }

  /** A read of a row is `undefined` unless at least one of its keys is present;
      adding fallback keys after the first present one never changes the value. */
  lemma {:induction false} GetValPrefix(row: Row, keys: seq<string>, more: seq<string>)
    requires exists i :: 0 <= i < |keys| && Present(row, keys[i])
    ensures GetVal(Some(row), keys + more) == GetVal(Some(row), keys)
  {
    if !Present(row, keys[0]) {
      assert (keys + more)[1..] == keys[1..] + more;
      var i :| 0 <= i < |keys| && Present(row, keys[i]);
      assert keys[1..][i - 1] == keys[i];
      GetValPrefix(row, keys[1..], more);
    }
  }

  /** The white-space and separator step of `cleanNum`: every white-space
      character is dropped, and so is every `.` when the text has no `,`. */
  function StripNumber(v: string): (r: string)
    ensures forall k :: 0 <= k < |r| ==> !IsSpace(r[k])
    ensures '.' in r ==> ',' in r
  {
    var w := RemoveSpaces(v);
    if '.' in w && ',' !in w then
      RemoveCharKeeps(w, '.');
      assert forall c :: c in w ==> !IsSpace(c);
      RemoveChar(w, '.')
    else w
  }

  /** Exactly the white space, and the dots of a text without a comma, are dropped:
      every other character keeps its number of occurrences. */
  lemma StripNumberCounts(v: string)
    ensures forall c :: multiset(StripNumber(v))[c] == (if IsSpace(c) || (c == '.' && ',' !in v) then 0 else multiset(v)[c])
  {
    var w := RemoveSpaces(v);
    RemoveSpacesCounts(v);
    RemoveCharCounts(w, '.');
    assert !IsSpace(',') && !IsSpace('.');
    assert (',' in w) == (',' in v) by {
      assert multiset(w)[','] == multiset(v)[','];
    }
  }

  /** The step only drops characters. */
  lemma StripNumberFrom(v: string)
    ensures forall c :: c in StripNumber(v) ==> c in v
  {
    var w := RemoveSpaces(v);
    RemoveSpacesFrom(v);
    RemoveCharKeeps(w, '.');
  }

  lemma StripNumberIdempotent(v: string)
    ensures StripNumber(StripNumber(v)) == StripNumber(v)
  {
    var w := RemoveSpaces(v);
    NoSpacesFixed(w);
    if '.' in w && ',' !in w {
      var x := RemoveChar(w, '.');
      RemoveCharKeeps(w, '.');
      assert forall c :: c in w ==> !IsSpace(c);
      NoSpacesFixed(x);
    }
  }

  lemma {:induction false} NoSpacesFixed(s: string)
    requires forall k :: 0 <= k < |s| ==> !IsSpace(s[k])
    ensures RemoveSpaces(s) == s
  {
    if s != [] {
      NoSpacesFixed(s[1..]);
    }
  }

  predicate IsDigit(c: char) { '0' <= c <= '9' }

  /** The number of decimal digits `s` starts with. */
  function LeadingDigits(s: string): (n: nat)
    ensures n <= |s|
    ensures forall k :: 0 <= k < n ==> IsDigit(s[k])
    ensures n < |s| ==> !IsDigit(s[n])
  {
    if s != [] && IsDigit(s[0]) then 1 + LeadingDigits(s[1..]) else 0
  }

  /** The value of a string of decimal digits. */
  function DigitsValue(d: string): nat
    requires forall k :: 0 <= k < |d| ==> IsDigit(d[k])
  {
    if d == [] then 0
    else
      var last := d[|d| - 1];
      assert IsDigit(last);
      DigitsValue(d[..|d| - 1]) * 10 + (last as int - '0' as int)
  }

  /** `parseInt(v) || 0` on a decimal text: an optional sign and the digits that
      follow it; no digit at all (`NaN`) reads as 0. */
  function ParseIntOrZero(v: string): int
  {
    var signed := v != [] && (v[0] == '-' || v[0] == '+');
    var body := if signed then v[1..] else v;
    var n := LeadingDigits(body);
    var magnitude: int := DigitsValue(body[..n]);
    if signed && v[0] == '-' then -magnitude else magnitude
  }

  /** `cleanNum(val)`. */
  function CleanNum(val: Option<string>): (n: int)
    ensures val.None? ==> n == 0
    ensures val.Some? && '-' !in val.value ==> n >= 0
  {
    if val.None? || val.value == "" then 0
    else
      StripNumberFrom(val.value);
      ParseIntOrZero(StripNumber(val.value))
  }

  /** Thousands separators are dropped. */
  lemma CleanNumThousands()
    ensures CleanNum(Some("1.234")) == 1234
  {
    StripThousands();
    ParseThousand();
  }

  lemma StripThousands()
    ensures StripNumber("1.234") == "1234"
  {
    NoSpacesThousands();
    assert "4"[1..] == "" && "34"[1..] == "4" && "234"[1..] == "34";
    assert ".234"[1..] == "234" && "1.234"[1..] == ".234";
    assert RemoveChar("4", '.') == "4" && RemoveChar("34", '.') == "34" && RemoveChar("234", '.') == "234";
    assert RemoveChar(".234", '.') == "234" && RemoveChar("1.234", '.') == "1234";
    assert "1.234"[1] == '.';
    assert forall k :: 0 <= k < 5 ==> "1.234"[k] != ',';
  }

  lemma NoSpacesThousands()
    ensures RemoveSpaces("1.234") == "1.234"
  {
    NoSpacesFixed("1.234");
  }

  lemma ParseThousand()
    ensures ParseIntOrZero("1234") == 1234
  {
    assert "4"[1..] == "" && "34"[1..] == "4" && "234"[1..] == "34" && "1234"[1..] == "234";
    assert LeadingDigits("4") == 1 && LeadingDigits("34") == 2 && LeadingDigits("234") == 3;
    assert LeadingDigits("1234") == 4;
    assert "1234"[..4] == "1234" && "1234"[..3] == "123" && "123"[..2] == "12" && "12"[..1] == "1" && "1"[..0] == "";
    assert DigitsValue("1") == 1 && DigitsValue("12") == 12 && DigitsValue("123") == 123;
  }

  /** A decimal comma ends the number: the fraction is cut off. */
  lemma CleanNumDecimalComma()
    ensures CleanNum(Some("2,5")) == 2
  {
    assert "5"[1..] == "" && ",5"[1..] == "5" && "2,5"[1..] == ",5";
    assert RemoveSpaces("5") == "5" && RemoveSpaces(",5") == ",5" && RemoveSpaces("2,5") == "2,5";
    assert ',' in "2,5";
    assert StripNumber("2,5") == "2,5";
    assert LeadingDigits(",5") == 0 && LeadingDigits("2,5") == 1;
    assert "2,5"[..1] == "2" && "2"[..0] == "";
  }

  /** Text that is not a number reads as 0. */
  lemma CleanNumNotANumber()
    ensures CleanNum(Some("x")) == 0
  {
    assert "x"[1..] == "";
    assert RemoveSpaces("x") == "x";
    assert '.' !in "x";
    assert StripNumber("x") == "x";
    assert LeadingDigits("x") == 0;
    assert "x"[..0] == "";
  }
}
