/** Shared vocabulary: optional values, calls that may raise, the JSON-like
    values the Python code passes around in dictionaries, and the few Python
    string and list operations the core relies on. */
module Common {

  datatype Option<T> = None | Some(value: T)

  /** The result of a call into code outside the model: it either returns a
      value or raises an exception carrying a message (`str(e)`). */
  datatype Outcome<T> = Returned(value: T) | Raised(error: string)

  /** A Python value as stored in the dictionaries of the source. */
  datatype Value =
    | Null
    | Bool(b: bool)
    | Num(r: real)
    | Str(s: string)
    | List(items: seq<Value>)
    | Obj(fields: map<string, Value>)

  /** Python truthiness. */
  predicate Truthy(v: Value)
  {
    match v
    case Null => false
    case Bool(b) => b
    case Num(r) => r != 0.0
    case Str(s) => s != ""
    case List(xs) => xs != []
    case Obj(m) => m != map[]
  }

  /** `d.get(key, default)` on a dictionary. */
  function Get(m: map<string, Value>, key: string, default: Value): (v: Value)
    ensures key in m ==> v == m[key]
    ensures key !in m ==> v == default
  {
    if key in m then m[key] else default
  }

  /** Python's slice `s[-k:]`, for every integer k (so `s[-0:]` is all of s,
      and a negative k drops the first -k elements). */
  function PyTail<T>(s: seq<T>, k: int): (r: seq<T>)
    ensures |r| <= |s| && r == s[|s| - |r|..]
    ensures k == 0 ==> r == s
    ensures k > 0 ==> |r| == (if k < |s| then k else |s|)
    ensures k < 0 ==> |r| == (if -k < |s| then |s| + k else 0)
  {
    if k == 0 then s
    else if k > 0 then (if k < |s| then s[|s| - k..] else s)
    else (if -k < |s| then s[-k..] else [])
  }

  /** `sep.join(parts)`. */
  function Join(parts: seq<string>, sep: string): string
  {
    if |parts| == 0 then ""
    else if |parts| == 1 then parts[0]
    else parts[0] + sep + Join(parts[1..], sep)
  }

  /** `str.lower()` restricted to ASCII letters. */
  function LowerChar(c: char): char
  {
    if 'A' <= c <= 'Z' then (c as int + 32) as char else c
  }

  function Lower(s: string): (r: string)
    ensures |r| == |s|
    ensures forall i :: 0 <= i < |s| ==> r[i] == LowerChar(s[i])
  {
    seq(|s|, i requires 0 <= i < |s| => LowerChar(s[i]))
  }

  /** `sub in s` for strings: sub occurs as a contiguous substring of s. */
  predicate Contains(s: string, sub: string)
    decreases |s|
  {
    (|sub| <= |s| && s[..|sub|] == sub) || (|s| > 0 && Contains(s[1..], sub))
  }

  /** Updating a key and then removing it is removing it. */
  lemma UpdateThenRemove<K, V>(m: map<K, V>, k: K, v: V)
    ensures m[k := v] - {k} == m - {k}
  {
  }

  /** sub occurs in s starting at position i. */
  predicate OccursAt(s: string, sub: string, i: int)
  {
    0 <= i <= |s| - |sub| && s[i..i + |sub|] == sub
  }

  /** The recursive test agrees with "some position holds sub". */
  lemma {:induction false} ContainsIffOccurs(s: string, sub: string)
    ensures Contains(s, sub) <==> exists i :: OccursAt(s, sub, i)
    decreases |s|
  {
    if |s| > 0 {
      ContainsIffOccurs(s[1..], sub);
      if |sub| <= |s| && s[..|sub|] == sub {
        assert OccursAt(s, sub, 0);
      }
      if Contains(s[1..], sub) {
        var i :| OccursAt(s[1..], sub, i);
        var a, b := s[i + 1..i + 1 + |sub|], s[1..][i..i + |sub|];
        forall k | 0 <= k < |sub|
          ensures a[k] == b[k]
        {
          assert b[k] == s[1..][i + k] == s[i + 1 + k];
        }
        assert a == b;
        assert OccursAt(s, sub, i + 1);
      }
      if exists i :: OccursAt(s, sub, i) {
        var i :| OccursAt(s, sub, i);
        if i > 0 {
          var a, b := s[1..][i - 1..i - 1 + |sub|], s[i..i + |sub|];
          forall k | 0 <= k < |sub|
            ensures a[k] == b[k]
          {
            assert a[k] == s[1..][i - 1 + k] == s[i + k];
          }
          assert a == b;
          assert OccursAt(s[1..], sub, i - 1);
        }
      }
    } else {
      if |sub| == 0 {
        assert OccursAt(s, sub, 0);
      }
      if exists i :: OccursAt(s, sub, i) {
        var i :| OccursAt(s, sub, i);
        assert i == 0 && s[..|sub|] == sub;
      }
    }
  }

  /** The three parts of a concatenation p + x + q can be read back from it
      by position. */
  lemma FrameSlices<T>(p: seq<T>, x: seq<T>, q: seq<T>)
    ensures |p + x + q| == |p| + |x| + |q|
    ensures (p + x + q)[..|p|] == p
    ensures (p + x + q)[|p|..|p| + |x|] == x
    ensures (p + x + q)[|p| + |x|..] == q
  {
  }

  lemma ConcatAssoc<T>(a: seq<T>, b: seq<T>, c: seq<T>)
    ensures a + (b + c) == a + b + c
  {
  }

  predicate IsDigit(c: char) { '0' <= c <= '9' }

  function DigitChar(d: nat): (c: char)
    requires d < 10
    ensures IsDigit(c) && c as int - '0' as int == d
  {
    (d + '0' as int) as char
  }

  /** `s` is a string of decimal digits that denotes `v`. */
  predicate Denotes(s: string, v: nat)
  {
    (forall i :: 0 <= i < |s| ==> IsDigit(s[i])) && DigitsValue(s) == v
  }

  /** The number a string of decimal digits denotes. */
  function DigitsValue(s: string): nat
    requires forall i :: 0 <= i < |s| ==> IsDigit(s[i])
    decreases |s|
  {
    if s == [] then 0
    else
      assert IsDigit(s[|s| - 1]);
      DigitsValue(s[..|s| - 1]) * 10 + (s[|s| - 1] as int - '0' as int)
  }

  /** `str(n)` for a natural number: decimal digits, no leading zero, that
      denote n. */
  function NatToString(n: nat): (s: string)
    ensures |s| >= 1
    ensures forall i :: 0 <= i < |s| ==> IsDigit(s[i])
    ensures DigitsValue(s) == n
    ensures n > 0 ==> s[0] != '0'
    ensures n < 10 <==> |s| == 1
    decreases n
  {
    if n < 10 then
      var s := [DigitChar(n)];
      assert s[..0] == [];
      s
    else
      var s := NatToString(n / 10) + [DigitChar(n % 10)];
      assert s[..|s| - 1] == NatToString(n / 10);
      s
  }

  /** Leading zeros do not change the number digits denote. */
  lemma {:induction false} LeadingZerosValue(zeros: string, d: string)
    requires forall i :: 0 <= i < |zeros| ==> zeros[i] == '0'
    requires forall i :: 0 <= i < |d| ==> IsDigit(d[i])
    ensures forall i :: 0 <= i < |zeros + d| ==> IsDigit((zeros + d)[i])
    ensures DigitsValue(zeros + d) == DigitsValue(d)
    decreases |d|
  {
    if d == [] {
      assert zeros + d == zeros;
      AllZerosValue(zeros);
    } else {
      var d' := d[..|d| - 1];
      LeadingZerosValue(zeros, d');
      assert (zeros + d)[..|zeros + d| - 1] == zeros + d';
    }
  }

  lemma {:induction false} AllZerosValue(zeros: string)
    requires forall i :: 0 <= i < |zeros| ==> zeros[i] == '0'
    ensures DigitsValue(zeros) == 0
    decreases |zeros|
  {
    if zeros != [] {
      AllZerosValue(zeros[..|zeros| - 1]);
    }
  }

  /** `f"{n:0{width}d}"`: decimal digits of n, padded on the left with zeros. */
  function ZeroPad(n: nat, width: nat): (s: string)
    ensures |s| >= width
    ensures |NatToString(n)| <= width ==> |s| == width
    ensures forall i :: 0 <= i < |s| ==> IsDigit(s[i])
    ensures DigitsValue(s) == n
  {
    var d := NatToString(n);
    if |d| >= width then d
    else
      var zeros := seq(width - |d|, _ => '0');
      LeadingZerosValue(zeros, d);
      zeros + d
  }

  /** A UTC clock reading, as `datetime.utcnow()` supplies it. */
  datatype DateTime = DateTime(year: nat, month: nat, day: nat, hour: nat, minute: nat, second: nat)

  predicate ValidDateTime(t: DateTime)
  {
    && 1000 <= t.year <= 9999 && 1 <= t.month <= 12 && 1 <= t.day <= 31
    && t.hour < 24 && t.minute < 60 && t.second < 60
  }

  /** `strftime('%Y%m%d')`: eight digits, the year in four, then the month
      and the day in two each. */
  function CompactDate(t: DateTime): (s: string)
    requires ValidDateTime(t)
    ensures |s| == 8 && forall i :: 0 <= i < 8 ==> IsDigit(s[i])
    ensures Denotes(s[..4], t.year) && Denotes(s[4..6], t.month) && Denotes(s[6..], t.day)
  {
    NatToStringLength(t.year);
    NatToStringLength(t.month);
    NatToStringLength(t.day);
    var y, m, d := ZeroPad(t.year, 4), ZeroPad(t.month, 2), ZeroPad(t.day, 2);
    FrameSlices(y, m, d);
    y + m + d
  }

  /** `strftime('%H%M%S')`: six digits, the hour, the minute and the second
      in two each. */
  function CompactTime(t: DateTime): (s: string)
    requires ValidDateTime(t)
    ensures |s| == 6 && forall i :: 0 <= i < 6 ==> IsDigit(s[i])
    ensures Denotes(s[..2], t.hour) && Denotes(s[2..4], t.minute) && Denotes(s[4..], t.second)
  {
    NatToStringLength(t.hour);
    NatToStringLength(t.minute);
    NatToStringLength(t.second);
    var h, m, sec := ZeroPad(t.hour, 2), ZeroPad(t.minute, 2), ZeroPad(t.second, 2);
    FrameSlices(h, m, sec);
    h + m + sec
  }

  /** Numbers below 10, 100 and 10000 take at most 1, 2 and 4 digits. */
  lemma {:induction false} NatToStringLength(n: nat)
    ensures n < 100 ==> |NatToString(n)| <= 2
    ensures n < 10000 ==> |NatToString(n)| <= 4
    decreases n
  {
    if n >= 10 {
      NatToStringLength(n / 10);
    }
  }
}
