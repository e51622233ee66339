/** Cell normalisation of the loader: whitespace stripping, removal of
    thousands separators and the blank-to-zero numeric coercion of
    `_to_int` / `_to_float`. The number grammar itself (Python's `float(s)`)
    is a parameter `parse`: it yields `None` where Python raises. */
module Fields {

  datatype Option<+T> = None | Some(value: T)

  /** Python's `str.isspace` on one code point. */
  predicate IsSpace(c: char) {
    var n := c as int;
    n == 0x20 || 0x09 <= n <= 0x0D || 0x1C <= n <= 0x1F || n == 0x85 || n == 0xA0
    || n == 0x1680 || 0x2000 <= n <= 0x200A || n == 0x2028 || n == 0x2029
    || n == 0x202F || n == 0x205F || n == 0x3000
  }

  predicate AllSpace(s: string) {
    forall i :: 0 <= i < |s| ==> IsSpace(s[i])
  }

  /** Neither end of `s` is whitespace. */
  predicate Trimmed(s: string) {
    s == [] || (!IsSpace(s[0]) && !IsSpace(s[|s| - 1]))
  }

  /** Length of the longest all-whitespace prefix. */
  function LeadingSpace(s: string): (i: nat)
    ensures i <= |s| && AllSpace(s[..i])
    ensures i < |s| ==> !IsSpace(s[i])
  {
    if |s| == 0 || !IsSpace(s[0]) then 0
    else
      var j := LeadingSpace(s[1..]);
      assert s[..j + 1] == [s[0]] + s[1..][..j];
      j + 1
  }

  /** Start of the longest all-whitespace suffix. */
  function TrailingSpace(s: string): (j: nat)
    ensures j <= |s| && AllSpace(s[j..])
    ensures 0 < j ==> !IsSpace(s[j - 1])
  {
    if |s| == 0 || !IsSpace(s[|s| - 1]) then |s|
    else
      var t := s[..|s| - 1];
      var j := TrailingSpace(t);
      assert s[j..] == t[j..] + [s[|s| - 1]];
      j
  }

  /** Python's `s.strip()`: `s` without its leading and trailing whitespace. */
  function Strip(s: string): (r: string)
    ensures Trimmed(r)
    ensures exists i :: 0 <= i <= |s| - |r| && r == s[i..i + |r|] && AllSpace(s[..i]) && AllSpace(s[i + |r|..])
  {
    var i := LeadingSpace(s);
    if i == |s| then
      assert s[|s|..] == [];
      []
    else
      var j := TrailingSpace(s);
      assert i < j;
      assert s[i..j] == s[i..i + |s[i..j]|];
      s[i..j]
  }

  /** Stripping is determined by its two properties: a slice of `s` with only
      whitespace around it and no whitespace at either end of it is `Strip(s)`. */
  lemma StripUnique(s: string, i: nat, j: nat)
    requires i <= j <= |s|
    requires AllSpace(s[..i]) && AllSpace(s[j..]) && Trimmed(s[i..j])
    ensures Strip(s) == s[i..j]
  {
    var l := LeadingSpace(s);
    if i < j {
      assert !IsSpace(s[i]) by { assert s[i] == s[i..j][0]; }
      assert l == i;
      var t := TrailingSpace(s);
      assert !IsSpace(s[j - 1]) by { assert s[j - 1] == s[i..j][j - 1 - i]; }
      assert t == j;
    } else {
      assert AllSpace(s) by {
        forall k | 0 <= k < |s| ensures IsSpace(s[k]) {
          if k < i { assert s[k] == s[..i][k]; } else { assert s[k] == s[j..][k - j]; }
        }
      }
      assert l == |s|;
    }
  }

  /** Removes every ',' (`s.replace(",", "")`), keeping the other characters
      in order. */
  function RemoveCommas(s: string): (r: string)
    ensures ',' !in r
    ensures forall c :: c != ',' ==> multiset(r)[c] == multiset(s)[c]
    ensures ',' !in s ==> r == s
  {
    if s == [] then []
    else
      assert s == [s[0]] + s[1..];
      (if s[0] == ',' then [] else [s[0]]) + RemoveCommas(s[1..])
  }

  /** Removing separators distributes over concatenation, so the characters
      that survive keep their relative order. */
  lemma {:induction false} RemoveCommasAppend(a: string, b: string)
    ensures RemoveCommas(a + b) == RemoveCommas(a) + RemoveCommas(b)
  {
    if a != [] {
      assert (a + b)[0] == a[0] && (a + b)[1..] == a[1..] + b;
      RemoveCommasAppend(a[1..], b);
      var h := if a[0] == ',' then [] else [a[0]];
      assert RemoveCommas(a + b) == h + RemoveCommas(a[1..] + b);
      assert RemoveCommas(a) == h + RemoveCommas(a[1..]);
    } else {
      assert a + b == b;
    }
  }

  /** `(value or "").strip().replace(",", "")`. */
  function Clean(value: string): (s: string)
    ensures ',' !in s
  {
    RemoveCommas(Strip(value))
  }

  /** A cell is blank, and so reads as zero, exactly when what is left after
      stripping is made of commas alone. */
  lemma {:induction false} CleanBlank(value: string)
    ensures Clean(value) == [] <==> forall k :: 0 <= k < |Strip(value)| ==> Strip(value)[k] == ','
  {
    OnlyCommas(Strip(value));
  }

  lemma {:induction false} OnlyCommas(t: string)
    ensures RemoveCommas(t) == [] <==> forall k :: 0 <= k < |t| ==> t[k] == ','
  {
    if t != [] {
      OnlyCommas(t[1..]);
      if RemoveCommas(t) == [] {
        forall k | 0 <= k < |t| ensures t[k] == ',' {
          if k > 0 { assert t[k] == t[1..][k - 1]; }
        }
      }
    }
  }

  /** A whitespace-only cell is blank. */
  lemma SpaceIsBlank(value: string)
    requires AllSpace(value)
    ensures Clean(value) == []
  {
    var r := Strip(value);
    assert r == [];
  }

  /** Python's `int(x)` on a float: truncation toward zero. */
  function Truncate(x: real): (n: int)
    ensures 0.0 <= x ==> 0 <= n && n as real <= x < n as real + 1.0
    ensures x < 0.0 ==> n <= 0 && n as real - 1.0 < x <= n as real
  {
    if 0.0 <= x then x.Floor else -((-x).Floor)
  }

  /** `_to_int`: blank reads as 0; otherwise `int(float(s))` of the cleaned
      text, failing where the number grammar fails. */
  function ToInt(value: string, parse: string -> Option<real>): (r: Option<int>)
    ensures Clean(value) == [] ==> r == Some(0)
    ensures r == None <==> Clean(value) != [] && parse(Clean(value)) == None
    ensures r != None && Clean(value) != [] ==>
              var x, n := parse(Clean(value)).value, r.value as real;
              (0.0 <= x ==> 0.0 <= n <= x < n + 1.0) && (x < 0.0 ==> n - 1.0 < x <= n <= 0.0)
  {
    var s := Clean(value);
    if s == [] then Some(0)
    else
      match parse(s)
      case None => None
      case Some(x) => Some(Truncate(x))
  }

  /** `_to_float`: blank reads as 0.0; otherwise `float(s)` of the cleaned text. */
  function ToFloat(value: string, parse: string -> Option<real>): (r: Option<real>)
    ensures Clean(value) == [] ==> r == Some(0.0)
    ensures Clean(value) != [] ==> r == parse(Clean(value))
  {
    var s := Clean(value);
    if s == [] then Some(0.0) else parse(s)
  }
}
