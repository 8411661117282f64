/**
  Text building blocks shared by every serialiser: concatenation of parts,
  Rust's `join`, splitting at a separator, decimal formatting of unsigned
  integers, ASCII lower-casing, quoting, and reading a `key=value` fragment
  back into its key and its value.
 */
module DotText {

  import opened Options

  /** The parts, one after the other (the effect of a loop of `push_str`). */
  function Concat<T>(parts: seq<seq<T>>): seq<T>
  {
    if |parts| == 0 then [] else parts[0] + Concat(parts[1..])
  }

  lemma {:induction false} ConcatAppend<T>(a: seq<seq<T>>, b: seq<seq<T>>)
    ensures Concat(a + b) == Concat(a) + Concat(b)
  {
    if |a| == 0 {
      assert a + b == b;
    } else {
      assert (a + b)[1..] == a[1..] + b;
      ConcatAppend(a[1..], b);
    }
  }

  /** Each text between `before` and `after`, one after the other: a loop of `push_str`s. */
  function Lines(before: string, texts: seq<string>, after: string): string
  {
    Concat(seq(|texts|, k requires 0 <= k < |texts| => before + texts[k] + after))
  }

  lemma LinesCons(before: string, texts: seq<string>, after: string)
    requires |texts| > 0
    ensures Lines(before, texts, after) == before + texts[0] + after + Lines(before, texts[1..], after)
  {
    var parts := seq(|texts|, k requires 0 <= k < |texts| => before + texts[k] + after);
    assert parts[1..] == seq(|texts[1..]|, k requires 0 <= k < |texts[1..]| => before + texts[1..][k] + after);
  }

  lemma LinesAppend(before: string, a: seq<string>, b: seq<string>, after: string)
    ensures Lines(before, a + b, after) == Lines(before, a, after) + Lines(before, b, after)
  {
    var pa := seq(|a|, k requires 0 <= k < |a| => before + a[k] + after);
    var pb := seq(|b|, k requires 0 <= k < |b| => before + b[k] + after);
    assert seq(|a + b|, k requires 0 <= k < |a + b| => before + (a + b)[k] + after) == pa + pb;
    ConcatAppend(pa, pb);
  }

  /** One more text adds exactly one more line at the end. */
  lemma LinesSnoc(before: string, texts: seq<string>, x: string, after: string)
    ensures Lines(before, texts + [x], after) == Lines(before, texts, after) + (before + x + after)
  {
    LinesAppend(before, texts, [x], after);
    LinesCons(before, [x], after);
    assert [x][1..] == [];
  }

  lemma LinesOne(before: string, x: string, after: string)
    ensures Lines(before, [x], after) == before + x + after
  {
    LinesCons(before, [x], after);
    assert [x][1..] == [];
  }

  lemma LinesTwo(before: string, x: string, y: string, after: string)
    ensures Lines(before, [x, y], after) == (before + x + after) + (before + y + after)
  {
    LinesCons(before, [x, y], after);
    assert [x, y][1..] == [y];
    LinesOne(before, y, after);
  }

  /**
    Lines that each start with `s + t` and end with nothing, followed by
    `s`, are `s` followed by lines that each start with `t` and end with `s`.
   */
  lemma {:induction false} LinesRotate(s: string, t: string, texts: seq<string>)
    ensures Lines(s + t, texts, "") + s == s + Lines(t, texts, s)
  {
    if |texts| > 0 {
      var x := texts[0];
      LinesCons(s + t, texts, "");
      LinesCons(t, texts, s);
      LinesRotate(s, t, texts[1..]);
      calc {
        Lines(s + t, texts, "") + s;
        (s + t + x + "") + (Lines(s + t, texts[1..], "") + s);
        (s + t + x + "") + (s + Lines(t, texts[1..], s));
        s + (t + x + s + Lines(t, texts[1..], s));
      }
    }
  }

  lemma PrefixSlice<T>(a: seq<T>, b: seq<T>)
    ensures |a| <= |a + b| && (a + b)[..|a|] == a
  {
  }

  lemma SuffixSlice<T>(a: seq<T>, b: seq<T>)
    ensures |b| <= |a + b| && (a + b)[|a + b| - |b|..] == b
  {
  }

  lemma Assoc<T>(a: seq<T>, b: seq<T>, c: seq<T>)
    ensures a + (b + c) == a + b + c
  {
  }

  lemma ConcatTail<T>(a: seq<T>, b: seq<T>, c: seq<T>, d: seq<T>)
    ensures a + (b + c) + d == a + b + c + d
  {
  }

  lemma ConcatRegroup<T>(a: seq<T>, b: seq<T>, c: seq<T>, d: seq<T>, e: seq<T>)
    ensures a + (b + c + d) + e == a + b + c + d + e
  {
  }

  /**
    Two runs of lines, each line led by a newline and a tab, followed by a
    newline, are a newline followed by the same lines each written as a tab,
    the text and a newline.
   */
  lemma LinesRotateTwo(a: seq<string>, b: seq<string>)
    ensures Lines("\n\t", a, "") + Lines("\n\t", b, "") + "\n"
         == "\n" + (Lines("\t", a, "\n") + Lines("\t", b, "\n"))
  {
    assert "\n\t" == "\n" + "\t";
    LinesRotate("\n", "\t", a);
    LinesRotate("\n", "\t", b);
    calc {
      Lines("\n\t", a, "") + Lines("\n\t", b, "") + "\n";
      Lines("\n\t", a, "") + (Lines("\n\t", b, "") + "\n");
      Lines("\n\t", a, "") + ("\n" + Lines("\t", b, "\n"));
      (Lines("\n\t", a, "") + "\n") + Lines("\t", b, "\n");
      ("\n" + Lines("\t", a, "\n")) + Lines("\t", b, "\n");
    }
  }

  /** Rust's `join`: the parts separated by `sep`; no parts give "". */
  function Join(parts: seq<string>, sep: string): string
  {
    if |parts| == 0 then ""
    else if |parts| == 1 then parts[0]
    else parts[0] + sep + Join(parts[1..], sep)
  }

  /** Position of the first `c` in `s`, or `|s|` when `s` has none. */
  function IndexOf(s: string, c: char): (i: nat)
    ensures i <= |s|
    ensures i < |s| ==> s[i] == c
    ensures forall k :: 0 <= k < i ==> s[k] != c
  {
    if |s| == 0 then 0
    else if s[0] == c then 0
    else 1 + IndexOf(s[1..], c)
  }

  /** A separator placed right after a part free of it is found at the part's end. */
  lemma IndexOfAfter(a: string, c: char, b: string)
    requires c !in a
    ensures IndexOf(a + [c] + b, c) == |a|
  {
    var s := a + [c] + b;
    assert s[|a|] == c;
    assert forall k :: 0 <= k < |a| ==> s[k] == a[k];
  }

  /** The fields of `s` between the occurrences of `c`, in order. */
  function Split(s: string, c: char): (r: seq<string>)
    ensures |r| >= 1
    decreases |s|
  {
    var i := IndexOf(s, c);
    if i == |s| then [s] else [s[..i]] + Split(s[i + 1..], c)
  }

  /** Splitting a joined list at a separator none of its parts contain gives the parts back. */
  lemma {:induction false} JoinSplit(parts: seq<string>, c: char)
    requires |parts| >= 1
    requires forall k :: 0 <= k < |parts| ==> c !in parts[k]
    ensures Split(Join(parts, [c]), c) == parts
  {
    if |parts| == 1 {
      assert IndexOf(parts[0], c) == |parts[0]|;
    } else {
      var rest := Join(parts[1..], [c]);
      var s := parts[0] + [c] + rest;
      assert Join(parts, [c]) == s;
      IndexOfAfter(parts[0], c, rest);
      assert s[..|parts[0]|] == parts[0];
      assert s[|parts[0]| + 1..] == rest;
      assert Split(s, c) == [parts[0]] + Split(rest, c);
      JoinSplit(parts[1..], c);
    }
  }

  /** Everything before the first `c` in `s` (all of `s` when it has none). */
  function Before(s: string, c: char): string
  {
    s[..IndexOf(s, c)]
  }

  /** Everything after the first `c` in `s` (nothing when it has none). */
  function After(s: string, c: char): string
  {
    var i := IndexOf(s, c);
    if i < |s| then s[i + 1..] else ""
  }

  /** Text written as a part free of `c`, then `c`, then anything, splits back at that `c`. */
  lemma BeforeAfter(a: string, c: char, b: string)
    requires c !in a
    ensures Before(a + [c] + b, c) == a
    ensures After(a + [c] + b, c) == b
  {
    var s := a + [c] + b;
    IndexOfAfter(a, c, b);
    assert s[..|a|] == a;
    assert s[|a| + 1..] == b;
  }

  /** The key of a `key=value` fragment: everything before the first `=`. */
  function KeyOf(s: string): string
  {
    Before(s, '=')
  }

  /** The value of a `key=value` fragment: everything after the first `=`. */
  function ValueOf(s: string): string
  {
    After(s, '=')
  }

  /** The DOT attribute fragment `key=value`. */
  function Attr(key: string, value: string): string
  {
    key + "=" + value
  }

  /** A fragment whose key has no `=` reads back as that key and that value. */
  lemma KeyValueRoundTrip(key: string, value: string)
    requires '=' !in key
    ensures KeyOf(Attr(key, value)) == key
    ensures ValueOf(Attr(key, value)) == value
  {
    BeforeAfter(key, '=', value);
  }

  /** `s` between double quotes, verbatim: nothing inside is escaped. */
  function Quote(s: string): string
  {
    "\"" + s + "\""
  }

  predicate IsDigit(c: char)
  {
    '0' <= c <= '9'
  }

  predicate AllDigits(s: string)
  {
    forall k :: 0 <= k < |s| ==> IsDigit(s[k])
  }

  function DigitChar(d: nat): char
    requires d < 10
  {
    ('0' as int + d) as char
  }

  function DigitValue(c: char): nat
    requires IsDigit(c)
  {
    c as int - '0' as int
  }

  /**
    The decimal text of `n` as Rust's `Display` writes an unsigned integer:
    digits only, never empty, and no leading zero except for `0` itself.
   */
  function NatToString(n: nat): (r: string)
    ensures 1 <= |r|
    ensures AllDigits(r)
    ensures |r| > 1 ==> r[0] != '0'
  {
    if n < 10 then [DigitChar(n)] else NatToString(n / 10) + [DigitChar(n % 10)]
  }

  /** The number a digit string denotes in base ten. */
  function DigitsValue(s: string): nat
    requires AllDigits(s)
  {
    if |s| == 0 then 0 else DigitsValue(s[..|s| - 1]) * 10 + DigitValue(s[|s| - 1])
  }

  /** Reads a canonical decimal: non-empty, digits only, no leading zero. */
  function ParseNat(s: string): Option<nat>
  {
    if 1 <= |s| && AllDigits(s) && (|s| == 1 || s[0] != '0') then Some(DigitsValue(s)) else None
  }

  /** Every number's decimal text reads back as that number. */
  lemma {:induction false} NatToStringRoundTrip(n: nat)
    ensures ParseNat(NatToString(n)) == Some(n)
  {
    var s := NatToString(n);
    if n < 10 {
      assert s == [DigitChar(n)];
      assert s[..0] == [];
      assert DigitsValue(s) == DigitValue(DigitChar(n));
    } else {
      NatToStringRoundTrip(n / 10);
      assert s[..|s| - 1] == NatToString(n / 10);
      assert DigitsValue(s) == (n / 10) * 10 + n % 10;
    }
  }

  lemma {:induction false} DigitsValuePositive(s: string)
    requires 1 <= |s| && AllDigits(s) && s[0] != '0'
    ensures DigitsValue(s) > 0
  {
    if |s| > 1 {
      DigitsValuePositive(s[..|s| - 1]);
    }
  }

  /** Every text the reader accepts is the decimal text of the number it reads. */
  lemma {:induction false} ParseNatCanonical(s: string)
    requires ParseNat(s).Some?
    ensures NatToString(ParseNat(s).value) == s
    decreases |s|
  {
    if |s| > 1 {
      var front := s[..|s| - 1];
      assert front[0] == s[0];
      ParseNatCanonical(front);
      DigitsValuePositive(front);
      var v := DigitsValue(s);
      assert v / 10 == DigitsValue(front);
      assert v % 10 == DigitValue(s[|s| - 1]);
      assert s == front + [s[|s| - 1]];
    } else {
      assert s[..0] == [];
      assert DigitsValue(s) == DigitValue(s[0]);
      assert s == [s[0]];
    }
  }

  function LowerChar(c: char): char
  {
    if 'A' <= c <= 'Z' then (c as int - 'A' as int + 'a' as int) as char else c
  }

  /** ASCII lower-casing, character by character. */
  function ToLower(s: string): string
  {
    seq(|s|, k requires 0 <= k < |s| => LowerChar(s[k]))
  }

  /** Lower-casing neither adds nor removes a character that is not a letter. */
  lemma ToLowerKeepsNonLetter(s: string, c: char)
    requires !('A' <= c <= 'Z') && !('a' <= c <= 'z')
    ensures c in ToLower(s) <==> c in s
  {
    var t := ToLower(s);
    if c in t {
      var k :| 0 <= k < |t| && t[k] == c;
      assert LowerChar(s[k]) == c;
    }
    if c in s {
      var k :| 0 <= k < |s| && s[k] == c;
      assert t[k] == c;
    }
  }

  /** Each identifier with `prefix` put in front of it, in order. */
  function PrefixAll(prefix: string, ids: seq<string>): seq<string>
  {
    seq(|ids|, k requires 0 <= k < |ids| => prefix + ids[k])
  }

  /** Prefixing two lists one after the other prefixes each list. */
  lemma PrefixAllAppend(prefix: string, a: seq<string>, b: seq<string>)
    ensures PrefixAll(prefix, a + b) == PrefixAll(prefix, a) + PrefixAll(prefix, b)
  {
  }

  /** Prefixing a concatenation prefixes each of its parts. */
  lemma {:induction false} PrefixAllConcat(prefix: string, parts: seq<seq<string>>)
    ensures PrefixAll(prefix, Concat(parts))
         == Concat(seq(|parts|, k requires 0 <= k < |parts| => PrefixAll(prefix, parts[k])))
  {
    var mapped := seq(|parts|, k requires 0 <= k < |parts| => PrefixAll(prefix, parts[k]));
    if |parts| > 0 {
      PrefixAllConcat(prefix, parts[1..]);
      assert mapped[1..] == seq(|parts[1..]|, k requires 0 <= k < |parts[1..]| => PrefixAll(prefix, parts[1..][k]));
      assert PrefixAll(prefix, parts[0] + Concat(parts[1..]))
          == PrefixAll(prefix, parts[0]) + PrefixAll(prefix, Concat(parts[1..]));
    }
  }

}
