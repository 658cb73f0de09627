/**
 * The JavaScript string operations the front end relies on, over ASCII:
 * `trim`, `toLowerCase`, `includes`, `split(",")`, `join(sep)` and
 * `Number.prototype.toString()` for integers.
 */
module Text {

  /** ASCII white space as removed by `String.prototype.trim`. */
  predicate IsSpace(c: char)
  {
    c == ' ' || c == '\t' || c == '\n' || c == '\r' || c == '\U{000B}' || c == '\U{000C}'
  }

  /** `s` has no white space at either end. */
  predicate IsTrimmed(s: string)
  {
    s == [] || (!IsSpace(s[0]) && !IsSpace(s[|s| - 1]))
  }

  function TrimStart(s: string): (r: string)
    ensures |r| <= |s| && r == s[|s| - |r|..]
    ensures r == [] || !IsSpace(r[0])
    ensures forall i :: 0 <= i < |s| - |r| ==> IsSpace(s[i])
  {
    if s != [] && IsSpace(s[0]) then TrimStart(s[1..]) else s
  }

  function TrimEnd(s: string): (r: string)
    ensures |r| <= |s| && r == s[..|r|]
    ensures r == [] || !IsSpace(r[|r| - 1])
    ensures forall i :: |r| <= i < |s| ==> IsSpace(s[i])
  {
    if s != [] && IsSpace(s[|s| - 1]) then TrimEnd(s[..|s| - 1]) else s
  }

  /** `String.prototype.trim`: the longest infix of `s` without white space at either end. */
  function Trim(s: string): (r: string)
    ensures IsTrimmed(r)
    ensures |r| <= |s|
  {
    var t := TrimStart(s);
    var r := TrimEnd(t);
    assert r == [] || r[0] == t[0];
    r
  }

  /** How many white-space characters `trim` drops at the front of `s`. */
  function LeadingBlanks(s: string): (k: nat)
    ensures k <= |s| && TrimStart(s) == s[k..]
    ensures forall j :: 0 <= j < k ==> IsSpace(s[j])
  {
    |s| - |TrimStart(s)|
  }

  /** What `Trim` drops: only white space, at the two ends, and it keeps the middle as it was. */
  lemma TrimIsInfix(s: string)
    ensures LeadingBlanks(s) + |Trim(s)| <= |s|
    ensures Trim(s) == s[LeadingBlanks(s)..LeadingBlanks(s) + |Trim(s)|]
    ensures forall j :: 0 <= j < LeadingBlanks(s) ==> IsSpace(s[j])
    ensures forall j :: LeadingBlanks(s) + |Trim(s)| <= j < |s| ==> IsSpace(s[j])
  {
    assert Trim(s) == TrimEnd(TrimStart(s));
    TrimEndOfSuffix(s, LeadingBlanks(s), TrimStart(s));
  }

  /** Trimming the end of `t`, the suffix of `s` from `k`, keeps an infix of `s` and drops only white space. */
  lemma TrimEndOfSuffix(s: string, k: nat, t: string)
    requires k <= |s| && t == s[k..]
    ensures k + |TrimEnd(t)| <= |s| && TrimEnd(t) == s[k..k + |TrimEnd(t)|]
    ensures forall j :: k + |TrimEnd(t)| <= j < |s| ==> IsSpace(s[j])
  {
    var r := TrimEnd(t);
    assert t[..|r|] == s[k..k + |r|];
    forall j | k + |r| <= j < |s|
      ensures IsSpace(s[j])
    {
      assert s[j] == t[j - k];
    }
  }

  /** Trimming text that has no white space at either end changes nothing. */
  lemma TrimTrimmed(s: string)
    requires IsTrimmed(s)
    ensures Trim(s) == s
  {
  }

  /** A leading blank does not survive `trim`. */
  lemma TrimLeadingBlank(s: string)
    ensures Trim([' '] + s) == Trim(s)
  {
    assert ([' '] + s)[1..] == s;
  }

  /** Every character is white space. */
  predicate Blank(s: string)
  {
    forall i :: 0 <= i < |s| ==> IsSpace(s[i])
  }

  /** `!s.trim()` holds exactly when the text is blank. */
  lemma {:induction false} TrimEmptyIffBlank(s: string)
    ensures Trim(s) == [] <==> Blank(s)
  {
    if Trim(s) == [] {
      var t := TrimStart(s);
      if t != [] {
        assert false;
      }
    } else {
      var t := TrimStart(s);
      assert t != [] && !IsSpace(t[0]);
      assert s[|s| - |t|] == t[0];
    }
  }

  /** ASCII `toLowerCase` on one character. */
  function LowerChar(c: char): (r: char)
    ensures 'A' <= c <= 'Z' ==> 'a' <= r <= 'z'
    ensures !('A' <= c <= 'Z') ==> r == c
  {
    if 'A' <= c <= 'Z' then (c as int + 32) as char else c
  }

  /** `String.prototype.toLowerCase` over ASCII. */
  function Lower(s: string): (r: string)
    ensures |r| == |s|
    ensures forall i :: 0 <= i < |s| ==> r[i] == LowerChar(s[i])
  {
    seq(|s|, i requires 0 <= i < |s| => LowerChar(s[i]))
  }

  /** Lower-casing twice is lower-casing once. */
  lemma LowerIdempotent(s: string)
    ensures Lower(Lower(s)) == Lower(s)
  {
  }

  /** `hay.includes(needle)`: `needle` occurs as a contiguous part of `hay`. */
  predicate Contains(hay: string, needle: string)
    decreases |hay|
  {
    needle <= hay || (hay != [] && Contains(hay[1..], needle))
  }

  /** `includes` agrees with "some position of `hay` starts with `needle`". */
  lemma {:induction false} ContainsAt(hay: string, needle: string)
    ensures Contains(hay, needle) <==> exists k :: 0 <= k <= |hay| && needle <= hay[k..]
  {
    if hay == [] {
      assert forall k :: 0 <= k <= |hay| ==> hay[k..] == [];
    } else {
      ContainsAt(hay[1..], needle);
      if Contains(hay, needle) {
        if needle <= hay {
          assert hay[0..] == hay;
        } else {
          var k :| 0 <= k <= |hay[1..]| && needle <= hay[1..][k..];
          assert hay[1..][k..] == hay[k + 1..];
        }
      } else {
        forall k | 0 <= k <= |hay| ensures !(needle <= hay[k..]) {
          if k > 0 {
            assert hay[1..][k - 1..] == hay[k..];
          }
        }
      }
    }
  }

  /** Every text contains the empty text: an empty search matches everything. */
  lemma ContainsEmpty(hay: string)
    ensures Contains(hay, "")
  {
  }

  /** Number of occurrences of `c` in `s`. */
  function Count(s: string, c: char): nat
  {
    if s == [] then 0 else (if s[0] == c then 1 else 0) + Count(s[1..], c)
  }

  /**
   * `s.split(",")`: the pieces between commas, in order. There is always one
   * more piece than there are commas, and no piece holds a comma.
   */
  function Split(s: string): (r: seq<string>)
    ensures |r| == Count(s, ',') + 1
    ensures forall i :: 0 <= i < |r| ==> ',' !in r[i]
  {
    if s == [] then [""]
    else
      var rest := Split(s[1..]);
      if s[0] == ',' then [""] + rest
      else [[s[0]] + rest[0]] + rest[1..]
  }

  /** `pieces.join(sep)`. */
  function Join(pieces: seq<string>, sep: string): string
  {
    if pieces == [] then ""
    else if |pieces| == 1 then pieces[0]
    else pieces[0] + sep + Join(pieces[1..], sep)
  }

  /** Splitting at commas and joining again with "," gives back the text. */
  lemma {:induction false} JoinSplit(s: string)
    ensures Join(Split(s), ",") == s
  {
    if s != [] {
      var rest := Split(s[1..]);
      JoinSplit(s[1..]);
      if s[0] == ',' {
        assert Split(s) == [""] + rest;
        assert ([""] + rest)[1..] == rest;
        assert s == "" + "," + s[1..];
      } else {
        var r := Split(s);
        assert r == [[s[0]] + rest[0]] + rest[1..];
        if |rest| == 1 {
          assert rest == [rest[0]];
          assert s == [s[0]] + s[1..];
        } else {
          assert r[1..] == rest[1..];
          assert Join(rest, ",") == rest[0] + "," + Join(rest[1..], ",");
          assert s == [s[0]] + s[1..];
        }
      }
    }
  }

  /** A comma-free text is a single piece. */
  lemma {:induction false} SplitNoComma(s: string)
    requires ',' !in s
    ensures Split(s) == [s]
  {
    if s != [] {
      SplitNoComma(s[1..]);
      assert [s[0]] + s[1..] == s;
    }
  }

  /** The first comma ends the first piece. */
  lemma {:induction false} SplitAtComma(a: string, rest: string)
    requires ',' !in a
    ensures Split(a + "," + rest) == [a] + Split(rest)
  {
    if a == [] {
      assert a + "," + rest == [','] + rest;
      assert ([','] + rest)[1..] == rest;
    } else {
      var s := a + "," + rest;
      assert s[0] == a[0] && s[1..] == a[1..] + "," + rest;
      SplitAtComma(a[1..], rest);
      assert [a[0]] + a[1..] == a;
    }
  }

  /** The list rule of the blog forms: `text.split(",").map(t => t.trim())`. */
  function ParseList(text: string): (r: seq<string>)
    ensures |r| == Count(text, ',') + 1
    ensures forall i :: 0 <= i < |r| ==> IsTrimmed(r[i]) && ',' !in r[i]
  {
    var pieces := Split(text);
    seq(|pieces|, i requires 0 <= i < |pieces| => Trim(pieces[i]))
  }

  /** The display rule of the update form: `list.join(", ")`. */
  function Display(items: seq<string>): string
  {
    Join(items, ", ")
  }

  /** Pieces that are trimmed and comma-free. */
  predicate Clean(items: seq<string>)
  {
    forall i :: 0 <= i < |items| ==> IsTrimmed(items[i]) && ',' !in items[i]
  }

  /**
   * Splitting `items.join(", ")` at commas gives the first item and then
   * every other item behind one blank.
   */
  lemma {:induction false} SplitDisplay(items: seq<string>)
    requires items != [] && Clean(items)
    ensures |Split(Display(items))| == |items|
    ensures Split(Display(items))[0] == items[0]
    ensures forall i :: 1 <= i < |items| ==> Split(Display(items))[i] == [' '] + items[i]
  {
    if |items| == 1 {
      SplitNoComma(items[0]);
    } else {
      var tail := items[1..];
      assert Display(items) == items[0] + "," + ([' '] + Display(tail));
      SplitAtComma(items[0], [' '] + Display(tail));
      SplitDisplay(tail);
      var y := Display(tail);
      assert ([' '] + y)[1..] == y;
      var ys := Split(y);
      assert Split([' '] + y) == [[' '] + ys[0]] + ys[1..];
      ShiftPieces(Split(Display(items)), ys, items);
    }
  }

  /** The pieces of the tail, moved one place on, with a blank put back before the first of them. */
  lemma ShiftPieces(xs: seq<string>, ys: seq<string>, items: seq<string>)
    requires |items| >= 2 && |ys| == |items| - 1 && ys[0] == items[1]
    requires forall i :: 1 <= i < |ys| ==> ys[i] == [' '] + items[1..][i]
    requires xs == [items[0]] + ([[' '] + ys[0]] + ys[1..])
    ensures |xs| == |items| && xs[0] == items[0]
    ensures forall i :: 1 <= i < |items| ==> xs[i] == [' '] + items[i]
  {
    forall i | 1 <= i < |items|
      ensures xs[i] == [' '] + items[i]
    {
      if i > 1 {
        assert xs[i] == ys[i - 1] && items[1..][i - 1] == items[i];
      }
    }
  }

  /**
   * Displaying a list with `join(", ")` and reading the text back with the
   * comma-split-and-trim rule gives the list back, provided it is not empty
   * and no item holds a comma or white space at either end.
   */
  lemma DisplayParseRoundTrip(items: seq<string>)
    requires items != [] && Clean(items)
    ensures ParseList(Display(items)) == items
  {
    SplitDisplay(items);
    var pieces := Split(Display(items));
    forall i | 0 <= i < |items| ensures Trim(pieces[i]) == items[i] {
      TrimTrimmed(items[i]);
      if i > 0 {
        TrimLeadingBlank(items[i]);
      }
    }
  }

  /** An empty input still parses to one (empty) item. */
  lemma ParseEmpty()
    ensures ParseList("") == [""]
  {
  }

  function DigitChar(d: nat): (c: char)
    requires d < 10
    ensures '0' <= c <= '9'
  {
    ('0' as int + d) as char
  }

  /** Decimal digits of a natural number, most significant first. */
  function NatToString(n: nat): (r: string)
    ensures r != []
    ensures forall i :: 0 <= i < |r| ==> '0' <= r[i] <= '9'
  {
    if n < 10 then [DigitChar(n)] else NatToString(n / 10) + [DigitChar(n % 10)]
  }

  /** `n.toString()` for an integer `n`. */
  function IntToString(n: int): (r: string)
    ensures r != []
    ensures n >= 0 ==> r == NatToString(n)
    ensures n < 0 ==> r[0] == '-' && r[1..] == NatToString(-n)
  {
    if n < 0 then "-" + NatToString(-n) else NatToString(n)
  }

  /** The number a string of decimal digits denotes, most significant first. */
  function DecimalValue(s: string): int
  {
    if s == [] then 0 else 10 * DecimalValue(s[..|s| - 1]) + (s[|s| - 1] as int - '0' as int)
  }

  /** The digits denote `n`, with no leading zero. */
  lemma {:induction false} NatToStringValue(n: nat)
    ensures DecimalValue(NatToString(n)) == n
    ensures n >= 10 ==> NatToString(n)[0] != '0'
  {
    if n >= 10 {
      var s := NatToString(n);
      assert s[..|s| - 1] == NatToString(n / 10);
      NatToStringValue(n / 10);
    }
  }

  /** `toString()` gives the decimal numeral of `n`: a sign for negatives, no leading zero. */
  lemma IntToStringValue(n: int)
    ensures var r := IntToString(n);
      (n >= 0 ==> DecimalValue(r) == n)
      && (n < 0 ==> r[0] == '-' && DecimalValue(r[1..]) == -n)
      && (r[0] == '0' ==> n == 0)
  {
    if n >= 0 {
      NatToStringValue(n);
    } else {
      NatToStringValue(-n);
    }
  }

  /** Distinct integers are written differently: page 2 and page 3 never share a numeral. */
  lemma IntToStringInjective(m: int, n: int)
    requires IntToString(m) == IntToString(n)
    ensures m == n
  {
    IntToStringValue(m);
    IntToStringValue(n);
  }
}
