/** Names of day files, "<date>" or "<date>-<seq>", and how a read path orders and cuts them. */
module DayKeys {
  import opened Options
  import opened Decimal
  import opened Sorting

  /** Go's string order. */
  predicate LexLess(a: string, b: string) {
    if b == "" then false
    else if a == "" then true
    else if a[0] != b[0] then a[0] < b[0]
    else LexLess(a[1..], b[1..])
  }

  function Hyphens(s: string): nat {
    if s == "" then 0 else Hyphens(s[..|s| - 1]) + (if s[|s| - 1] == '-' then 1 else 0)
  }

  /** strings.LastIndex(s, "-"). */
  function LastHyphen(s: string): (i: int)
    ensures -1 <= i < |s|
    ensures i >= 0 ==> s[i] == '-'
  {
    if s == "" then -1
    else if s[|s| - 1] == '-' then |s| - 1
    else LastHyphen(s[..|s| - 1])
  }

  function DayFileKey(date: string, n: nat): string {
    if n == 0 then date else date + "-" + Itoa(n)
  }

  function ExtractDate(key: string): string {
    if Hyphens(key) >= 3 && LastHyphen(key) > 0 then key[..LastHyphen(key)] else key
  }

  function SeqOf(key: string): int {
    if Hyphens(key) >= 3 && LastHyphen(key) > 0 && Atoi(key[LastHyphen(key) + 1..]).Some?
    then Atoi(key[LastHyphen(key) + 1..]).value
    else 0
  }

  /** "YYYY-MM-DD". */
  predicate IsDate(d: string) {
    |d| == 10 && forall i :: 0 <= i < 10 ==> if i == 4 || i == 7 then d[i] == '-' else IsDigit(d[i])
  }

  lemma {:induction false} DigitsAfterHyphen(d: string, t: string)
    requires AllDigits(t)
    ensures Hyphens(d + "-" + t) == Hyphens(d) + 1
    ensures LastHyphen(d + "-" + t) == |d|
  {
    var s := d + "-" + t;
    if t == "" {
      assert s == d + "-" && s[..|s| - 1] == d;
    } else {
      assert s[..|s| - 1] == d + "-" + t[..|t| - 1];
      DigitsAfterHyphen(d, t[..|t| - 1]);
    }
  }

  /** ExtractDate undoes DayFileKey exactly for base names without, and for rollover names with, the two
      hyphens of a date. */
  lemma ExtractDateInverts(d: string, n: nat)
    ensures ExtractDate(DayFileKey(d, n)) == d <==> if n == 0 then Hyphens(d) < 3 else Hyphens(d) >= 2
  {
    if n == 0 {
      if Hyphens(d) >= 3 {
        LastHyphenPositive(d);
      }
    } else {
      DigitsAfterHyphen(d, Itoa(n));
      var key := DayFileKey(d, n);
      assert key[..|d|] == d;
    }
  }

  /** What stands behind the last hyphen, if it is a number. */
  function Suffix(s: string): Option<int> {
    if LastHyphen(s) < 0 then None else Atoi(s[LastHyphen(s) + 1..])
  }

  /** SeqOf undoes it exactly for rollover names with the two hyphens of a date and a number of 64 bits,
      and for base names that have fewer than three hyphens or end in no number but 0. */
  lemma SeqOfInverts(d: string, n: nat)
    ensures SeqOf(DayFileKey(d, n)) == n <==>
      if n == 0 then Hyphens(d) < 3 || Suffix(d) == None || Suffix(d) == Some(0)
      else Hyphens(d) >= 2 && n <= MAX_INT64
  {
    if n == 0 {
      if Hyphens(d) >= 3 {
        LastHyphenPositive(d);
      }
    } else {
      SeqOfRollover(d, Itoa(n));
      AtoiOfItoa(n);
    }
  }

  lemma SeqOfRollover(d: string, t: string)
    requires AllDigits(t)
    ensures SeqOf(d + "-" + t) == if Hyphens(d) >= 2 && Atoi(t).Some? then Atoi(t).value else 0
  {
    var key := d + "-" + t;
    DigitsAfterHyphen(d, t);
    assert key[|d| + 1..] == t;
  }

  lemma {:induction false} LastHyphenPositive(d: string)
    requires Hyphens(d) >= 2
    ensures LastHyphen(d) > 0
  {
    if d[|d| - 1] != '-' {
      LastHyphenPositive(d[..|d| - 1]);
    }
  }

  lemma DateHyphens(d: string)
    requires IsDate(d)
    ensures Hyphens(d) == 2
  {
    NoHyphens(d[..4]);
    assert d[..7] == d[..4] + "-" + d[5..7] && d == d[..7] + "-" + d[8..];
    DigitsAfterHyphen(d[..4], d[5..7]);
    DigitsAfterHyphen(d[..7], d[8..]);
  }

  lemma {:induction false} NoHyphens(s: string)
    requires AllDigits(s)
    ensures Hyphens(s) == 0
  {
    if s != "" {
      NoHyphens(s[..|s| - 1]);
    }
  }

  /** The name of a file determines its date and its sequence number. */
  lemma KeyRoundTrip(d: string, n: nat)
    requires IsDate(d) && n <= MAX_INT64
    ensures ExtractDate(DayFileKey(d, n)) == d && SeqOf(DayFileKey(d, n)) == n
  {
    DateHyphens(d);
    ExtractDateInverts(d, n);
    SeqOfInverts(d, n);
  }

  // ---- (date, seq) order.

  predicate KeyLess(a: string, b: string) {
    if ExtractDate(a) != ExtractDate(b) then LexLess(ExtractDate(a), ExtractDate(b)) else SeqOf(a) < SeqOf(b)
  }

  function KeyOrder(): (string, string) -> bool {
    (a: string, b: string) => KeyLess(a, b)
  }

  function SortByDateSeq(names: seq<string>): seq<string> {
    StableSort(KeyOrder(), names)
  }

  lemma {:induction false} LexIrreflexive(a: string)
    ensures !LexLess(a, a)
  {
    if a != "" {
      LexIrreflexive(a[1..]);
    }
  }

  lemma {:induction false} LexTransitive(a: string, b: string, c: string)
    requires LexLess(a, b) && LexLess(b, c)
    ensures LexLess(a, c)
  {
    if a != "" && a[0] == b[0] == c[0] {
      LexTransitive(a[1..], b[1..], c[1..]);
    }
  }

  lemma {:induction false} LexTotal(a: string, b: string)
    requires a != b
    ensures LexLess(a, b) || LexLess(b, a)
  {
    if a != "" && b != "" && a[0] == b[0] {
      assert a == [a[0]] + a[1..] && b == [b[0]] + b[1..];
      LexTotal(a[1..], b[1..]);
    }
  }

  lemma LexAsymmetric(a: string, b: string)
    requires LexLess(a, b)
    ensures !LexLess(b, a)
  {
    if LexLess(b, a) {
      LexTransitive(a, b, a);
      LexIrreflexive(a);
    }
  }

  lemma KeyTransitive(a: string, b: string, c: string)
    ensures KeyLess(a, b) && KeyLess(b, c) ==> KeyLess(a, c)
    ensures !KeyLess(a, b) && !KeyLess(b, c) ==> !KeyLess(a, c)
  {
    var x, y, z := ExtractDate(a), ExtractDate(b), ExtractDate(c);
    if KeyLess(a, b) && KeyLess(b, c) && x != y && y != z {
      LexTransitive(x, y, z);
      LexIrreflexive(x);
    }
    if !KeyLess(a, b) && !KeyLess(b, c) && KeyLess(a, c) {
      if x != y && y != z {
        LexTotal(x, y);
        LexTotal(y, z);
        LexTransitive(z, y, x);
        LexIrreflexive(x);
        if x != z {
          LexAsymmetric(z, x);
        }
      } else if x != y {
        LexTotal(x, y);
        LexAsymmetric(y, x);
      } else if y != z {
        LexTotal(y, z);
        LexAsymmetric(z, y);
      }
    }
  }

  lemma KeyOrderIsStrictWeak()
    ensures StrictWeakOrder(KeyOrder())
  {
    forall a ensures !KeyOrder()(a, a) {
      LexIrreflexive(ExtractDate(a));
    }
    forall a, b, c ensures KeyOrder()(a, b) && KeyOrder()(b, c) ==> KeyOrder()(a, c) {
      KeyTransitive(a, b, c);
    }
    forall a, b, c ensures !KeyOrder()(a, b) && !KeyOrder()(b, c) ==> !KeyOrder()(a, c) {
      KeyTransitive(a, b, c);
    }
  }

  // ---- What the order means.

  /** Strings compare by the first character in which they differ. */
  lemma {:induction false} LexAt(a: string, b: string, i: nat)
    requires i < |a| && i < |b| && a[i] != b[i] && forall k :: 0 <= k < i ==> a[k] == b[k]
    ensures LexLess(a, b) <==> a[i] < b[i]
  {
    if i > 0 {
      LexAt(a[1..], b[1..], i - 1);
    }
  }

  /** And where one begins the other, the shorter comes first. */
  lemma {:induction false} LexPrefix(a: string, b: string)
    requires a <= b
    ensures LexLess(a, b) <==> |a| < |b|
  {
    if a != "" {
      assert a[0] == b[0] && a[1..] <= b[1..];
      LexPrefix(a[1..], b[1..]);
    }
  }

  function Num(c: char): int {
    c as int - '0' as int
  }

  function Year(d: string): int
    requires IsDate(d)
  {
    1000 * Num(d[0]) + 100 * Num(d[1]) + 10 * Num(d[2]) + Num(d[3])
  }

  function Month(d: string): int
    requires IsDate(d)
  {
    10 * Num(d[5]) + Num(d[6])
  }

  function DayOfMonth(d: string): int
    requires IsDate(d)
  {
    10 * Num(d[8]) + Num(d[9])
  }

  /** Year, month and day as one number. */
  function DateNumber(d: string): int
    requires IsDate(d)
  {
    Year(d) * 10000 + Month(d) * 100 + DayOfMonth(d)
  }

  lemma FirstDifference(d: string, e: string) returns (i: nat)
    requires |d| == |e| && d != e
    ensures i < |d| && d[i] != e[i] && forall k :: 0 <= k < i ==> d[k] == e[k]
  {
    i := 0;
    while d[i] == e[i]
      invariant i < |d| && forall k :: 0 <= k < i ==> d[k] == e[k]
      decreases |d| - i
    {
      assert i + 1 == |d| ==> d == e;
      i := i + 1;
    }
  }

  /** Dates compare by year, month and day. */
  lemma EarlierDate(d: string, e: string)
    requires IsDate(d) && IsDate(e)
    ensures LexLess(d, e) <==> DateNumber(d) < DateNumber(e)
    ensures d == e <==> DateNumber(d) == DateNumber(e)
  {
    if d == e {
      LexIrreflexive(d);
    } else {
      var i := FirstDifference(d, e);
      LexAt(d, e, i);
      InRange(d);
      InRange(e);
      if i < 4 {
        YearDiffers(d, e, i);
      } else {
        DayDiffers(d, e, i);
      }
    }
  }

  lemma InRange(d: string)
    requires IsDate(d)
    ensures 0 <= Month(d) <= 99 && 0 <= DayOfMonth(d) <= 99
  {
    assert IsDigit(d[5]) && IsDigit(d[6]) && IsDigit(d[8]) && IsDigit(d[9]);
  }

  lemma YearDiffers(d: string, e: string, i: nat)
    requires IsDate(d) && IsDate(e) && i < 4 && d[i] != e[i] && forall k :: 0 <= k < i ==> d[k] == e[k]
    ensures Year(d) != Year(e) && (d[i] < e[i] <==> Year(d) < Year(e))
  {
    assert IsDigit(d[0]) && IsDigit(d[1]) && IsDigit(d[2]) && IsDigit(d[3]);
    assert IsDigit(e[0]) && IsDigit(e[1]) && IsDigit(e[2]) && IsDigit(e[3]);
  }

  lemma DayDiffers(d: string, e: string, i: nat)
    requires IsDate(d) && IsDate(e) && 4 <= i < 10 && d[i] != e[i] && forall k :: 0 <= k < i ==> d[k] == e[k]
    ensures Year(d) == Year(e)
    ensures Month(d) != Month(e) || DayOfMonth(d) != DayOfMonth(e)
    ensures d[i] < e[i] <==> Month(d) < Month(e) || (Month(d) == Month(e) && DayOfMonth(d) < DayOfMonth(e))
  {
    assert d[4] == '-' && d[7] == '-' && e[4] == '-' && e[7] == '-';
    assert IsDigit(d[5]) && IsDigit(d[6]) && IsDigit(d[8]) && IsDigit(d[9]);
    assert IsDigit(e[5]) && IsDigit(e[6]) && IsDigit(e[8]) && IsDigit(e[9]);
  }

  /** Day files go by date, earlier first, and within a date by number. */
  lemma KeyOrderMeans(d: string, n: nat, e: string, m: nat)
    requires IsDate(d) && IsDate(e) && n <= MAX_INT64 && m <= MAX_INT64
    ensures KeyOrder()(DayFileKey(d, n), DayFileKey(e, m)) <==>
      DateNumber(d) < DateNumber(e) || (DateNumber(d) == DateNumber(e) && n < m)
  {
    KeyRoundTrip(d, n);
    KeyRoundTrip(e, m);
    EarlierDate(d, e);
  }
}
