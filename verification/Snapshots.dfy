/** Time stamps as fixed-width strings: the object keys of internal/backup/backup.go and latestKey of
    cmd/tsdb-ctl/main.go. */
module Snapshots {
  import opened Text
  import BackupRun

  /** Civil UTC date and time, to the second. */
  datatype Time = Time(year: nat, month: nat, day: nat, hour: nat, minute: nat, second: nat)

  /** What four- and two-digit layouts can show. */
  predicate FourDigitYear(t: Time) {
    t.year < 10000 && t.month < 100 && t.day < 100 && t.hour < 100 && t.minute < 100 && t.second < 100
  }

  predicate Earlier(a: Time, b: Time) {
    if a.year != b.year then a.year < b.year
    else if a.month != b.month then a.month < b.month
    else if a.day != b.day then a.day < b.day
    else if a.hour != b.hour then a.hour < b.hour
    else if a.minute != b.minute then a.minute < b.minute
    else a.second < b.second
  }

  // ---------------------------------------------------------------- digits

  function Pow10(w: nat): nat {
    if w == 0 then 1 else 10 * Pow10(w - 1)
  }

  function Digit(n: nat): char
    requires n < 10
  {
    "0123456789"[n]
  }

  /** `n` in decimal, exactly `w` digits. */
  function Digits(n: nat, w: nat): (s: string)
    ensures |s| == w
  {
    if w == 0 then "" else Digits(n / 10, w - 1) + [Digit(n % 10)]
  }

  lemma {:induction false} LessAppend(a: string, b: string, x: string, y: string)
    requires |a| == |b|
    ensures Less(a + x, b + y) <==> Less(a, b) || (a == b && Less(x, y))
  {
    if a == "" {
      assert a + x == x && b + y == y;
    } else {
      assert (a + x)[0] == a[0] && (b + y)[0] == b[0];
      assert (a + x)[1..] == a[1..] + x && (b + y)[1..] == b[1..] + y;
      LessAppend(a[1..], b[1..], x, y);
      assert a == [a[0]] + a[1..] && b == [b[0]] + b[1..];
    }
  }

  lemma DigitOrder(m: nat, n: nat)
    requires m < 10 && n < 10
    ensures Less([Digit(m)], [Digit(n)]) <==> m < n
    ensures Digit(m) == Digit(n) <==> m == n
  {
    assert [Digit(m)][1..] == "" && [Digit(n)][1..] == "";
  }

  /** Equal-width numerals compare like their numbers. */
  lemma {:induction false} DigitsOrder(m: nat, n: nat, w: nat)
    requires m < Pow10(w) && n < Pow10(w)
    ensures Less(Digits(m, w), Digits(n, w)) <==> m < n
    ensures Digits(m, w) == Digits(n, w) <==> m == n
  {
    if w > 0 {
      DigitsOrder(m / 10, n / 10, w - 1);
      DigitOrder(m % 10, n % 10);
      LessAppend(Digits(m / 10, w - 1), Digits(n / 10, w - 1), [Digit(m % 10)], [Digit(n % 10)]);
      LastDigit(m, w);
      LastDigit(n, w);
    }
  }

  lemma LastDigit(n: nat, w: nat)
    requires w > 0
    ensures Digits(n, w)[..w - 1] == Digits(n / 10, w - 1) && Digits(n, w)[w - 1] == Digit(n % 10)
  {
  }

  // ---------------------------------------------------------------- stamps

  /** The stamp with separators between and after the fields. */
  function Stamp(seps: seq<string>, t: Time): string
    requires |seps| == 6
  {
    Digits(t.year, 4) + seps[0] + (Digits(t.month, 2) + seps[1] + (Digits(t.day, 2) + seps[2]
      + (Digits(t.hour, 2) + seps[3] + (Digits(t.minute, 2) + seps[4] + (Digits(t.second, 2) + seps[5])))))
  }

  /** Layout 2006-01-02T15:04:05Z of tsdb-ctl. */
  const LISTING := ["-", "-", "T", ":", ":", "Z"]
  /** Layout 20060102T150405Z of the object keys. */
  const COMPACT := ["", "", "T", "", "", "Z"]

  lemma FieldOrder(m: nat, n: nat, w: nat, sep: string, x: string, y: string)
    requires m < Pow10(w) && n < Pow10(w)
    ensures Less(Digits(m, w) + sep + x, Digits(n, w) + sep + y) <==> m < n || (m == n && Less(x, y))
  {
    DigitsOrder(m, n, w);
    LessAppend(Digits(m, w), Digits(n, w), sep + x, sep + y);
    LessAppend(sep, sep, x, y);
    LessAsymmetric(sep, sep);
    assert Digits(m, w) + sep + x == Digits(m, w) + (sep + x);
    assert Digits(n, w) + sep + y == Digits(n, w) + (sep + y);
  }

  /** String order on stamps of one layout is time order. */
  lemma StampOrder(seps: seq<string>, a: Time, b: Time)
    requires |seps| == 6 && FourDigitYear(a) && FourDigitYear(b)
    ensures Less(Stamp(seps, a), Stamp(seps, b)) <==> Earlier(a, b)
  {
    assert Pow10(2) == 100 && Pow10(4) == 10000;
    var a6, b6 := Digits(a.second, 2) + seps[5], Digits(b.second, 2) + seps[5];
    var a5, b5 := Digits(a.minute, 2) + seps[4] + a6, Digits(b.minute, 2) + seps[4] + b6;
    var a4, b4 := Digits(a.hour, 2) + seps[3] + a5, Digits(b.hour, 2) + seps[3] + b5;
    var a3, b3 := Digits(a.day, 2) + seps[2] + a4, Digits(b.day, 2) + seps[2] + b4;
    var a2, b2 := Digits(a.month, 2) + seps[1] + a3, Digits(b.month, 2) + seps[1] + b3;
    FieldOrder(a.second, b.second, 2, seps[5], "", "");
    assert a6 + "" == a6 && b6 + "" == b6;
    FieldOrder(a.minute, b.minute, 2, seps[4], a6, b6);
    FieldOrder(a.hour, b.hour, 2, seps[3], a5, b5);
    FieldOrder(a.day, b.day, 2, seps[2], a4, b4);
    FieldOrder(a.month, b.month, 2, seps[1], a3, b3);
    FieldOrder(a.year, b.year, 4, seps[0], a2, b2);
  }

  lemma EarlierTotal(a: Time, b: Time)
    ensures Earlier(a, b) || a == b || Earlier(b, a)
  {
  }

  lemma SurroundedOrder(head: string, s: string, t: string, tail: string)
    requires |s| == |t|
    ensures Less(head + (s + tail), head + (t + tail)) <==> Less(s, t)
  {
    LessAppend(head, head, s + tail, t + tail);
    LessAppend(s, t, tail, tail);
    LessAsymmetric(head, head);
    LessAsymmetric(tail, tail);
  }

  /** A cluster's backup keys, under a fixed prefix, sort by the second of the run, and two runs in
      different seconds never share a key. */
  lemma BackupKeysOrdered(prefix: string, name: string, a: Time, b: Time)
    requires FourDigitYear(a) && FourDigitYear(b)
    ensures
      var x := BackupRun.BackupKey(prefix, name, Stamp(COMPACT, a));
      var y := BackupRun.BackupKey(prefix, name, Stamp(COMPACT, b));
      (Less(x, y) <==> Earlier(a, b)) && (x == y <==> a == b)
  {
    var s, t := Stamp(COMPACT, a), Stamp(COMPACT, b);
    StampLength(COMPACT, a, b);
    BackupKeyOrder(prefix, name, s, t);
    BackupKeyOrder(prefix, name, t, s);
    StampOrder(COMPACT, a, b);
    StampOrder(COMPACT, b, a);
    EarlierTotal(a, b);
    LessAsymmetric(BackupRun.BackupKey(prefix, name, s), BackupRun.BackupKey(prefix, name, t));
  }

  lemma StampLength(seps: seq<string>, a: Time, b: Time)
    requires |seps| == 6
    ensures |Stamp(seps, a)| == |Stamp(seps, b)|
  {
  }

  lemma BackupKeyOrder(prefix: string, name: string, s: string, t: string)
    requires |s| == |t|
    ensures Less(BackupRun.BackupKey(prefix, name, s), BackupRun.BackupKey(prefix, name, t)) <==> Less(s, t)
  {
    var head := prefix + "/" + name + "/";
    SurroundedOrder(head, s, t, ".tar");
    assert BackupRun.BackupKey(prefix, name, s) == head + (s + ".tar");
    assert BackupRun.BackupKey(prefix, name, t) == head + (t + ".tar");
  }

  predicate SlashFree(s: string) {
    '/' !in s
  }

  /** Behind the last slash there is only one way to split. */
  lemma LastSlash(a: string, b: string, x: string, y: string)
    requires SlashFree(x) && SlashFree(y) && a + "/" + x == b + "/" + y
    ensures a == b && x == y
  {
    NotShorter(a, b, x, y);
    NotShorter(b, a, y, x);
    var s := a + "/" + x;
    assert a == s[..|a|] && b == s[..|b|] && x == s[|a| + 1..] && y == s[|b| + 1..];
  }

  lemma NotShorter(a: string, b: string, x: string, y: string)
    requires SlashFree(x) && a + "/" + x == b + "/" + y
    ensures |a| >= |b|
  {
    var s := a + "/" + x;
    assert (b + "/" + y)[|b|] == '/';
    assert forall i :: |a| < i < |s| ==> s[i] == x[i - |a| - 1];
  }

  lemma SameTail(a: string, b: string, s: string, t: string, tail: string)
    requires |s| == |t| && a + (s + tail) == b + (t + tail)
    ensures a == b && s == t
  {
    var x := a + (s + tail);
    assert |a| == |b|;
    assert a == x[..|a|] && b == x[..|b|];
    assert s == x[|a|..|a| + |s|] && t == x[|b|..|b| + |t|];
  }

  /** Whatever the prefixes, one key means one prefix, one cluster name and one second. */
  lemma BackupKeysDistinct(prefix: string, name: string, a: Time, prefix': string, name': string, b: Time)
    requires FourDigitYear(a) && FourDigitYear(b) && SlashFree(name) && SlashFree(name')
    requires BackupRun.BackupKey(prefix, name, Stamp(COMPACT, a))
             == BackupRun.BackupKey(prefix', name', Stamp(COMPACT, b))
    ensures prefix == prefix' && name == name' && a == b
  {
    var s, t := Stamp(COMPACT, a), Stamp(COMPACT, b);
    var x, y := prefix + "/" + name + "/", prefix' + "/" + name' + "/";
    StampLength(COMPACT, a, b);
    assert BackupRun.BackupKey(prefix, name, s) == x + (s + ".tar");
    assert BackupRun.BackupKey(prefix', name', t) == y + (t + ".tar");
    SameTail(x, y, s, t, ".tar");
    assert x[..|x| - 1] == prefix + "/" + name && y[..|y| - 1] == prefix' + "/" + name';
    LastSlash(prefix, prefix', name, name');
    StampOrder(COMPACT, a, b);
    StampOrder(COMPACT, b, a);
    EarlierTotal(a, b);
    LessAsymmetric(s, t);
  }

  lemma TwoDigits(n: nat)
    requires n < 100
    ensures Digits(n, 2) == [Digit(n / 10), Digit(n % 10)]
  {
    assert Digits(n / 10, 1) == Digits(n / 10 / 10, 0) + [Digit(n / 10)];
  }

  lemma FourDigits(n: nat)
    requires n < 10000
    ensures Digits(n, 4) == [Digit(n / 10 / 10 / 10), Digit(n / 10 / 10 % 10), Digit(n / 10 % 10), Digit(n % 10)]
  {
    TwoDigits(n / 10 / 10);
    assert Digits(n / 10, 3) == Digits(n / 10 / 10, 2) + [Digit(n / 10 % 10)];
    assert Digits(n, 4) == Digits(n / 10, 3) + [Digit(n % 10)];
  }

  lemma DigitsOf2025()
    ensures Digits(2025, 4) == "2025"
  {
    FourDigits(2025);
  }

  lemma DigitsOfRest()
    ensures Digits(1, 2) == "01" && Digits(31, 2) == "31" && Digits(2, 2) == "02"
    ensures Digits(0, 2) == "00" && Digits(9, 2) == "09"
  {
    TwoDigits(1);
    TwoDigits(31);
    TwoDigits(2);
    TwoDigits(0);
    TwoDigits(9);
  }

  /** The two layouts, by example. */
  lemma CompactExample()
    ensures Stamp(COMPACT, Time(2025, 1, 31, 2, 0, 9)) == "20250131T020009Z"
  {
    DigitsOf2025();
    DigitsOfRest();
  }

  lemma ListingExample()
    ensures Stamp(LISTING, Time(2025, 1, 31, 2, 0, 9)) == "2025-01-31T02:00:09Z"
  {
    DigitsOf2025();
    DigitsOfRest();
  }

  // ---------------------------------------------------------------- latestKey

  datatype Object = Object(key: string, modified: Time)

  predicate IsLatest(objects: seq<Object>, i: nat)
    requires i < |objects|
  {
    && (forall j :: 0 <= j < |objects| ==> !Earlier(objects[i].modified, objects[j].modified))
    && (forall j :: 0 <= j < i ==> objects[j].modified != objects[i].modified)
  }

  lemma StampNonEmpty(t: Time)
    ensures Less("", Stamp(LISTING, t))
  {
    assert |Stamp(LISTING, t)| >= 4;
  }

  /** latestKey: the key of the first listed object among those modified last; so "", for objects with
      a key, means an empty listing. */
  method LatestKey(objects: seq<Object>) returns (newest: string)
    requires forall i :: 0 <= i < |objects| ==> FourDigitYear(objects[i].modified)
    ensures objects == [] ==> newest == ""
    ensures objects != [] ==> exists i: nat :: i < |objects| && newest == objects[i].key && IsLatest(objects, i)
  {
    newest := "";
    var newestStamp := "";
    ghost var at: nat := 0;
    for i := 0 to |objects|
      invariant i == 0 ==> newest == "" && newestStamp == ""
      invariant i > 0 ==> at < i && newest == objects[at].key && newestStamp == Stamp(LISTING, objects[at].modified)
      invariant forall j :: 0 <= j < i ==> !Earlier(objects[at].modified, objects[j].modified)
      invariant i > 0 ==> forall j :: 0 <= j < at ==> Earlier(objects[j].modified, objects[at].modified)
    {
      var stamp := Stamp(LISTING, objects[i].modified);
      if i == 0 {
        StampNonEmpty(objects[i].modified);
      } else {
        StampOrder(LISTING, objects[at].modified, objects[i].modified);
      }
      if Less(newestStamp, stamp) {
        newestStamp := stamp;
        newest := objects[i].key;
        at := i;
      }
    }
  }
}
