// The maximum-value logger (max_value_logger.py): the highest RPM and coolant
// temperature of a run, written to log/max_YYYYMMDD_HHMMSS.txt when the
// dashboard exits, with only the five newest such files kept.  The clock is a
// parameter and the log directory is a field holding its file names in
// directory order; the text written into the file is not modelled.

module MaxValues {
  import opened Text

  function Max(a: real, b: real): (m: real)
    ensures m >= a && m >= b && (m == a || m == b)
  {
    if b > a then b else a
  }

  /** The running maximum over a run of readings, from a starting value. */
  function RunningMax(start: real, readings: seq<real>): real
    decreases |readings|
  {
    if |readings| == 0 then start else Max(RunningMax(start, readings[..|readings| - 1]), readings[|readings| - 1])
  }

  /**
   * The running maximum is at least the start and every reading, and it is
   * the start or one of the readings.
   */
  lemma {:induction false} RunningMaxIsMaximum(start: real, readings: seq<real>)
    ensures RunningMax(start, readings) >= start
    ensures forall k | 0 <= k < |readings| :: RunningMax(start, readings) >= readings[k]
    ensures RunningMax(start, readings) == start || RunningMax(start, readings) in readings
    decreases |readings|
  {
    if |readings| > 0 {
      var init := readings[..|readings| - 1];
      RunningMaxIsMaximum(start, init);
      assert forall k | 0 <= k < |init| :: init[k] == readings[k];
    }
  }

  /** More readings never lower the maximum. */
  lemma {:induction false} RunningMaxGrows(start: real, readings: seq<real>, more: seq<real>)
    ensures RunningMax(start, readings + more) >= RunningMax(start, readings)
    decreases |more|
  {
    if |more| > 0 {
      var all := readings + more;
      assert all[..|all| - 1] == readings + more[..|more| - 1];
      RunningMaxGrows(start, readings, more[..|more| - 1]);
      assert RunningMax(start, all) >= RunningMax(start, all[..|all| - 1]);
    } else {
      assert readings + more == readings;
    }
  }

  // ------------------------------------------------------------ file names

  /** A wall-clock time as `datetime.now()` gives it. */
  datatype DateTime = DateTime(year: nat, month: nat, day: nat, hour: nat, minute: nat, second: nat)

  predicate ValidTime(t: DateTime) {
    1000 <= t.year <= 9999 && 1 <= t.month <= 12 && 1 <= t.day <= 31 &&
    t.hour < 24 && t.minute < 60 && t.second < 60
  }

  /** `%m`, `%d`, `%H`, `%M`, `%S`: two zero-padded digits. */
  function Digits2(n: nat): (s: string)
    requires n < 100
    ensures |s| == 2
  {
    [DecDigit(n / 10), DecDigit(n % 10)]
  }

  function Digits4(n: nat): (s: string)
    requires n < 10000
    ensures |s| == 4
  {
    Digits2(n / 100) + Digits2(n % 100)
  }

  /** `now.strftime("%Y%m%d_%H%M%S")` for a four-digit year. */
  function Stamp(t: DateTime): (s: string)
    requires ValidTime(t)
    ensures |s| == 15
  {
    Digits4(t.year) + (Digits2(t.month) + (Digits2(t.day) + ("_" + (Digits2(t.hour) + (Digits2(t.minute) + Digits2(t.second))))))
  }

  /** `f"max_{timestamp}.txt"` */
  function FileName(t: DateTime): string
    requires ValidTime(t)
  {
    "max_" + (Stamp(t) + ".txt")
  }

  /** Python's `<` on strings: code point by code point, a proper prefix first. */
  predicate Less(a: string, b: string)
    decreases |a|
  {
    |b| > 0 && (|a| == 0 || a[0] < b[0] || (a[0] == b[0] && Less(a[1..], b[1..])))
  }

  lemma {:induction false} LessIrreflexive(a: string)
    ensures !Less(a, a)
    decreases |a|
  {
    if |a| > 0 {
      LessIrreflexive(a[1..]);
    }
  }

  lemma {:induction false} LessTransitive(a: string, b: string, c: string)
    requires Less(a, b) && Less(b, c)
    ensures Less(a, c)
    decreases |a|
  {
    if |a| > 0 && a[0] == b[0] && b[0] == c[0] {
      LessTransitive(a[1..], b[1..], c[1..]);
    }
  }

  lemma {:induction false} LessTotal(a: string, b: string)
    requires a != b
    ensures Less(a, b) || Less(b, a)
    decreases |a|
  {
    if |a| > 0 && |b| > 0 && a[0] == b[0] {
      assert a == [a[0]] + a[1..] && b == [b[0]] + b[1..];
      LessTotal(a[1..], b[1..]);
    }
  }

  lemma {:induction false} LessAsymmetric(a: string, b: string)
    requires Less(a, b)
    ensures !Less(b, a)
  {
    if Less(b, a) {
      LessTransitive(a, b, a);
      LessIrreflexive(a);
    }
  }

  /** Strings of equal length compare by their first difference, so a common-width head decides first. */
  lemma {:induction false} LessConcat(x1: string, y1: string, x2: string, y2: string)
    requires |x1| == |x2|
    ensures Less(x1 + y1, x2 + y2) <==> Less(x1, x2) || (x1 == x2 && Less(y1, y2))
    decreases |x1|
  {
    if |x1| == 0 {
      assert x1 + y1 == y1 && x2 + y2 == y2;
    } else {
      assert (x1 + y1)[0] == x1[0] && (x2 + y2)[0] == x2[0];
      assert (x1 + y1)[1..] == x1[1..] + y1 && (x2 + y2)[1..] == x2[1..] + y2;
      LessConcat(x1[1..], y1, x2[1..], y2);
      if x1[0] == x2[0] {
        assert x1 == x2 <==> x1[1..] == x2[1..] by {
          assert x1 == [x1[0]] + x1[1..] && x2 == [x2[0]] + x2[1..];
        }
      }
    }
  }

  lemma Digits2Order(a: nat, b: nat)
    requires a < 100 && b < 100
    ensures Less(Digits2(a), Digits2(b)) <==> a < b
    ensures Digits2(a) == Digits2(b) <==> a == b
  {
    var da, db := Digits2(a), Digits2(b);
    var ta, tb, oa, ob := DecDigit(a / 10), DecDigit(b / 10), DecDigit(a % 10), DecDigit(b % 10);
    assert da == [ta, oa] && db == [tb, ob];
    assert da[1..] == [oa] && db[1..] == [ob];
    assert [oa][1..] == [] && [ob][1..] == [];
    assert Less([oa], [ob]) <==> oa < ob;
    assert Less(da, db) <==> ta < tb || (ta == tb && oa < ob);
    assert ta < tb <==> a / 10 < b / 10;
    assert ta == tb <==> a / 10 == b / 10;
    assert oa < ob <==> a % 10 < b % 10;
    assert oa == ob <==> a % 10 == b % 10;
    assert a == 10 * (a / 10) + a % 10 && b == 10 * (b / 10) + b % 10;
    if da == db {
      assert da[0] == db[0] && da[1] == db[1];
    }
  }

  lemma Digits4Order(a: nat, b: nat)
    requires a < 10000 && b < 10000
    ensures Less(Digits4(a), Digits4(b)) <==> a < b
    ensures Digits4(a) == Digits4(b) <==> a == b
  {
    Digits2Order(a / 100, b / 100);
    Digits2Order(a % 100, b % 100);
    LessConcat(Digits2(a / 100), Digits2(a % 100), Digits2(b / 100), Digits2(b % 100));
    assert a == 100 * (a / 100) + a % 100 && b == 100 * (b / 100) + b % 100;
    if Digits4(a) == Digits4(b) {
      assert Digits4(a)[..2] == Digits2(a / 100) && Digits4(b)[..2] == Digits2(b / 100);
      assert Digits4(a)[2..] == Digits2(a % 100) && Digits4(b)[2..] == Digits2(b % 100);
    }
  }

  /** Chronological order of the fields, year first. */
  predicate Before(t: DateTime, u: DateTime) {
    t.year < u.year || (t.year == u.year &&
    (t.month < u.month || (t.month == u.month &&
    (t.day < u.day || (t.day == u.day &&
    (t.hour < u.hour || (t.hour == u.hour &&
    (t.minute < u.minute || (t.minute == u.minute && t.second < u.second)))))))))
  }

  /** Two-digit fields after a shared head compare like their numbers. */
  lemma Field2(a: nat, b: nat, ra: string, rb: string)
    requires a < 100 && b < 100 && |ra| == |rb|
    ensures Less(Digits2(a) + ra, Digits2(b) + rb) <==> a < b || (a == b && Less(ra, rb))
    ensures Digits2(a) + ra == Digits2(b) + rb <==> a == b && ra == rb
  {
    Digits2Order(a, b);
    LessConcat(Digits2(a), ra, Digits2(b), rb);
    if Digits2(a) + ra == Digits2(b) + rb {
      assert (Digits2(a) + ra)[..2] == Digits2(a) && (Digits2(b) + rb)[..2] == Digits2(b);
      assert (Digits2(a) + ra)[2..] == ra && (Digits2(b) + rb)[2..] == rb;
    }
  }

  /** The time stamps of the file names sort exactly as the times do. */
  lemma StampOrder(t: DateTime, u: DateTime)
    requires ValidTime(t) && ValidTime(u)
    ensures Less(Stamp(t), Stamp(u)) <==> Before(t, u)
    ensures Stamp(t) == Stamp(u) <==> t == u
  {
    var ts := Digits2(t.minute) + Digits2(t.second);
    var us := Digits2(u.minute) + Digits2(u.second);
    Field2(t.minute, u.minute, Digits2(t.second), Digits2(u.second));
    Digits2Order(t.second, u.second);
    var th := Digits2(t.hour) + ts;
    var uh := Digits2(u.hour) + us;
    Field2(t.hour, u.hour, ts, us);
    var tu := "_" + th;
    var uu := "_" + uh;
    LessConcat("_", th, "_", uh);
    LessIrreflexive("_");
    assert tu == uu <==> th == uh by {
      if tu == uu {
        assert tu[1..] == th && uu[1..] == uh;
      }
    }
    var td := Digits2(t.day) + tu;
    var ud := Digits2(u.day) + uu;
    Field2(t.day, u.day, tu, uu);
    var tm := Digits2(t.month) + td;
    var um := Digits2(u.month) + ud;
    Field2(t.month, u.month, td, ud);
    Digits4Order(t.year, u.year);
    LessConcat(Digits4(t.year), tm, Digits4(u.year), um);
    if Stamp(t) == Stamp(u) {
      assert Stamp(t)[..4] == Digits4(t.year) && Stamp(u)[..4] == Digits4(u.year);
      assert Stamp(t)[4..] == tm && Stamp(u)[4..] == um;
    }
  }

  /** The newest file name is the greatest: name order is time order, and one second gives one name. */
  lemma FileNameOrder(t: DateTime, u: DateTime)
    requires ValidTime(t) && ValidTime(u)
    ensures Less(FileName(t), FileName(u)) <==> Before(t, u)
    ensures FileName(t) == FileName(u) <==> t == u
  {
    StampOrder(t, u);
    LessConcat(Stamp(t), ".txt", Stamp(u), ".txt");
    LessIrreflexive(".txt");
    LessConcat("max_", Stamp(t) + ".txt", "max_", Stamp(u) + ".txt");
    LessIrreflexive("max_");
    if FileName(t) == FileName(u) {
      assert FileName(t)[4..19] == Stamp(t) && FileName(u)[4..19] == Stamp(u);
    }
  }

  // -------------------------------------------------------------- retention

  /** `max_files` */
  const MAX_FILES: nat := 5

  predicate EndsWith(s: string, p: string) {
    |p| <= |s| && s[|s| - |p|..] == p
  }

  /** Names `glob("max_*.txt")` matches. */
  predicate IsMaxLog(name: string) {
    |name| >= 8 && StartsWith(name, "max_") && EndsWith(name, ".txt")
  }

  lemma FileNameIsMaxLog(t: DateTime)
    requires ValidTime(t)
    ensures IsMaxLog(FileName(t))
  {
    var n := FileName(t);
    assert n[..4] == "max_";
    assert n[|n| - 4..] == ".txt";
  }

  function MaxLogs(dir: seq<string>): (r: seq<string>)
    ensures forall x :: x in r <==> x in dir && IsMaxLog(x)
    decreases |dir|
  {
    if |dir| == 0 then []
    else (if IsMaxLog(dir[0]) then [dir[0]] else []) + MaxLogs(dir[1..])
  }

  /** No name twice, as in a directory listing. */
  predicate Distinct(s: seq<string>) {
    forall i, j | 0 <= i < j < |s| :: s[i] != s[j]
  }

  lemma ConsDistinct(a: string, t: seq<string>)
    requires Distinct(t) && a !in t
    ensures Distinct([a] + t)
  {
    var s := [a] + t;
    forall i, j | 0 <= i < j < |s|
      ensures s[i] != s[j]
    {
      assert s[j] == t[j - 1];
      if i > 0 { assert s[i] == t[i - 1]; }
    }
  }

  /** In a list without repetition every name occurs at most once. */
  lemma {:induction false} DistinctCounts(s: seq<string>)
    requires Distinct(s)
    ensures forall x :: multiset(s)[x] <= 1
    decreases |s|
  {
    if |s| > 0 {
      var t := s[1..];
      assert Distinct(t) by {
        forall i, j | 0 <= i < j < |t| ensures t[i] != t[j] { assert t[i] == s[i + 1] && t[j] == s[j + 1]; }
      }
      DistinctCounts(t);
      assert s == [s[0]] + t;
      assert s[0] !in t by {
        forall j | 0 <= j < |t| ensures t[j] != s[0] { assert t[j] == s[j + 1]; }
      }
    }
  }

  /** A name that occurs at most once is at no second position. */
  lemma CountedOnce(s: seq<string>, i: nat, j: nat)
    requires i < j < |s| && multiset(s)[s[i]] <= 1
    ensures s[i] != s[j]
  {
    assert s == s[..i] + [s[i]] + s[i + 1..j] + [s[j]] + s[j + 1..];
  }

  /** The log names of a directory without repetition are without repetition. */
  lemma {:induction false} MaxLogsDistinct(dir: seq<string>)
    requires Distinct(dir)
    ensures Distinct(MaxLogs(dir))
    decreases |dir|
  {
    if |dir| > 0 {
      var t := dir[1..];
      assert Distinct(t) by {
        forall i, j | 0 <= i < j < |t| ensures t[i] != t[j] { assert t[i] == dir[i + 1] && t[j] == dir[j + 1]; }
      }
      MaxLogsDistinct(t);
      if IsMaxLog(dir[0]) {
        assert dir[0] !in t by {
          forall j | 0 <= j < |t| ensures t[j] != dir[0] { assert t[j] == dir[j + 1]; }
        }
        ConsDistinct(dir[0], MaxLogs(t));
      } else {
        assert MaxLogs(dir) == MaxLogs(t);
      }
    }
  }

  /** Non-increasing in Python's string order. */
  predicate Descending(s: seq<string>) {
    forall i, j | 0 <= i < j < |s| :: !Less(s[i], s[j])
  }

  function InsertDescending(sorted: seq<string>, x: string): seq<string>
    decreases |sorted|
  {
    if |sorted| == 0 then [x]
    else if !Less(sorted[0], x) then [sorted[0]] + InsertDescending(sorted[1..], x)
    else [x] + sorted
  }

  /** `sorted(names, reverse=True)` */
  function SortDescending(names: seq<string>): seq<string>
    decreases |names|
  {
    if |names| == 0 then []
    else InsertDescending(SortDescending(names[..|names| - 1]), names[|names| - 1])
  }

  function InsertPoint(sorted: seq<string>, x: string): (p: nat)
    ensures p <= |sorted|
    ensures forall k | 0 <= k < p :: !Less(sorted[k], x)
    ensures p < |sorted| ==> Less(sorted[p], x)
    decreases |sorted|
  {
    if |sorted| == 0 || Less(sorted[0], x) then 0 else 1 + InsertPoint(sorted[1..], x)
  }

  lemma {:induction false} InsertDescendingAt(sorted: seq<string>, x: string)
    ensures var p := InsertPoint(sorted, x);
      InsertDescending(sorted, x) == sorted[..p] + [x] + sorted[p..]
    decreases |sorted|
  {
    if |sorted| > 0 && !Less(sorted[0], x) {
      var tail := sorted[1..];
      InsertDescendingAt(tail, x);
      var p := InsertPoint(tail, x);
      assert sorted[..p + 1] == [sorted[0]] + tail[..p];
      assert sorted[p + 1..] == tail[p..];
    }
  }

  /** `!Less` is the "at least" of a total order. */
  lemma NotLessTransitive(a: string, b: string, c: string)
    requires !Less(a, b) && !Less(b, c)
    ensures !Less(a, c)
  {
    if Less(a, c) {
      if a == b {
      } else if b == c {
      } else {
        LessTotal(a, b);
        LessTotal(b, c);
        LessTransitive(b, a, c);
      }
    }
  }

  lemma SmallerAfterPoint(sorted: seq<string>, x: string)
    requires Descending(sorted)
    ensures forall k | InsertPoint(sorted, x) <= k < |sorted| :: Less(sorted[k], x)
  {
    var p := InsertPoint(sorted, x);
    forall k | p <= k < |sorted|
      ensures Less(sorted[k], x)
    {
      if k > p && sorted[k] != sorted[p] {
        assert !Less(sorted[p], sorted[k]);
        LessTotal(sorted[p], sorted[k]);
        LessTransitive(sorted[k], sorted[p], x);
      }
    }
  }

  /** Putting `x` at its insertion point keeps the order. */
  lemma InsertAtPointOrdered(sorted: seq<string>, x: string)
    requires Descending(sorted)
    ensures var p := InsertPoint(sorted, x);
      Descending(sorted[..p] + [x] + sorted[p..])
  {
    var p := InsertPoint(sorted, x);
    SmallerAfterPoint(sorted, x);
    var r := sorted[..p] + [x] + sorted[p..];
    assert forall k | 0 <= k < p :: r[k] == sorted[k];
    assert r[p] == x;
    assert forall k | p < k < |r| :: r[k] == sorted[k - 1];
    forall i, j | 0 <= i < j < |r|
      ensures !Less(r[i], r[j])
    {
      if i == p {
        LessAsymmetric(sorted[j - 1], x);
      }
    }
  }

  lemma InsertDescendingSorted(sorted: seq<string>, x: string)
    requires Descending(sorted)
    ensures Descending(InsertDescending(sorted, x))
    ensures multiset(InsertDescending(sorted, x)) == multiset(sorted) + multiset{x}
  {
    var p := InsertPoint(sorted, x);
    InsertDescendingAt(sorted, x);
    InsertAtPointOrdered(sorted, x);
    assert sorted == sorted[..p] + sorted[p..];
  }

  /** The sort puts every name before all smaller ones, and loses and adds nothing. */
  lemma {:induction false} SortDescendingCorrect(names: seq<string>)
    ensures Descending(SortDescending(names))
    ensures multiset(SortDescending(names)) == multiset(names)
    decreases |names|
  {
    if |names| > 0 {
      var init := names[..|names| - 1];
      SortDescendingCorrect(init);
      InsertDescendingSorted(SortDescending(init), names[|names| - 1]);
      assert names == init + [names[|names| - 1]];
    }
  }

  /** The directory without the names in `gone`, in its own order. */
  function Without(dir: seq<string>, gone: seq<string>): (r: seq<string>)
    ensures forall x :: x in r <==> x in dir && x !in gone
    decreases |dir|
  {
    if |dir| == 0 then []
    else (if dir[0] in gone then [] else [dir[0]]) + Without(dir[1..], gone)
  }

  /** Deleting names keeps a directory without repetition. */
  lemma {:induction false} WithoutDistinct(dir: seq<string>, gone: seq<string>)
    requires Distinct(dir)
    ensures Distinct(Without(dir, gone))
    decreases |dir|
  {
    if |dir| > 0 {
      var t := dir[1..];
      assert Distinct(t) by {
        forall i, j | 0 <= i < j < |t| ensures t[i] != t[j] { assert t[i] == dir[i + 1] && t[j] == dir[j + 1]; }
      }
      WithoutDistinct(t, gone);
      if dir[0] !in gone {
        assert dir[0] !in t by {
          forall j | 0 <= j < |t| ensures t[j] != dir[0] { assert t[j] == dir[j + 1]; }
        }
        ConsDistinct(dir[0], Without(t, gone));
      } else {
        assert Without(dir, gone) == Without(t, gone);
      }
    }
  }

  lemma {:induction false} WithoutMore(dir: seq<string>, gone: seq<string>, x: string)
    ensures Without(Without(dir, gone), [x]) == Without(dir, gone + [x])
    decreases |dir|
  {
    if |dir| > 0 {
      WithoutMore(dir[1..], gone, x);
      var head := if dir[0] in gone then [] else [dir[0]];
      var rest := Without(dir[1..], gone);
      assert Without(dir, gone) == head + rest;
      if head == [] {
        assert head + rest == rest;
      } else {
        assert (head + rest)[0] == dir[0] && (head + rest)[1..] == rest;
      }
    }
  }

  /** The names `_cleanup_old_files` deletes: all but the five greatest log names. */
  function Expired(dir: seq<string>): seq<string> {
    var files := SortDescending(MaxLogs(dir));
    if |files| <= MAX_FILES then [] else files[MAX_FILES..]
  }

  /** The five greatest log names, or all of them when there are fewer. */
  function Newest(dir: seq<string>): (r: seq<string>)
    ensures |r| <= MAX_FILES
  {
    var files := SortDescending(MaxLogs(dir));
    if |files| <= MAX_FILES then files else files[..MAX_FILES]
  }

  /**
   * Cleanup leaves at most five log names, never deletes a name greater than
   * one it keeps, and touches nothing that is not a log; in a directory,
   * where no name occurs twice, the five greatest log names all survive.
   */
  lemma CleanupKeepsNewest(dir: seq<string>)
    ensures var after := Without(dir, Expired(dir));
      (forall x | x in after && IsMaxLog(x) :: x in Newest(dir)) &&
      (forall x | x in dir && !IsMaxLog(x) :: x in after) &&
      (forall kept, gone | kept in after && IsMaxLog(kept) && gone in dir && gone !in after :: !Less(kept, gone))
    ensures Distinct(dir) ==> forall x | x in Newest(dir) :: x in Without(dir, Expired(dir))
  {
    var logs := MaxLogs(dir);
    var files := SortDescending(logs);
    SortDescendingCorrect(logs);
    var after := Without(dir, Expired(dir));
    forall x | x in Expired(dir)
      ensures IsMaxLog(x)
    {
      assert x in multiset(files);
    }
    forall x | x in after && IsMaxLog(x)
      ensures x in Newest(dir)
    {
      assert x in multiset(files) by {
        assert x in logs;
      }
      var i :| 0 <= i < |files| && files[i] == x;
      assert Newest(dir)[i] == x;
    }
    forall kept, gone | kept in after && IsMaxLog(kept) && gone in dir && gone !in after
      ensures !Less(kept, gone)
    {
      var d := Expired(dir);
      assert gone in d;
      var j :| 0 <= j < |d| && d[j] == gone;
      assert kept in multiset(files) by {
        assert kept in logs;
      }
      var i :| 0 <= i < |files| && files[i] == kept;
      assert files[MAX_FILES + j] == gone;
    }
    if Distinct(dir) {
      NewestSurvive(dir);
    }
  }

  /** Without repeated names, no log among the five greatest is also past the fifth. */
  lemma NewestSurvive(dir: seq<string>)
    requires Distinct(dir)
    ensures forall x | x in Newest(dir) :: x in Without(dir, Expired(dir))
  {
    var logs := MaxLogs(dir);
    var files := SortDescending(logs);
    SortDescendingCorrect(logs);
    MaxLogsDistinct(dir);
    DistinctCounts(logs);
    var d := Expired(dir);
    forall x | x in Newest(dir)
      ensures x in dir && x !in d
    {
      var i :| 0 <= i < |Newest(dir)| && Newest(dir)[i] == x;
      assert files[i] == x;
      assert x in logs by {
        assert x in multiset(logs);
      }
      assert multiset(files)[files[i]] <= 1;
      forall j | 0 <= j < |d|
        ensures d[j] != x
      {
        assert d[j] == files[MAX_FILES + j];
        CountedOnce(files, i, MAX_FILES + j);
      }
    }
  }

  // ------------------------------------------------------------------ logger

  datatype SaveResult = Skipped | Saved(name: string) | WriteFailed(name: string)

  class MaxValueLogger {
    var maxRpm: real
    var maxCoolant: real
    const startTime: DateTime
    /** The log directory's file names, in directory order. */
    var logDir: seq<string>

    /** `__init__` the first time: both maxima at zero. */
    constructor(now: DateTime, existing: seq<string>)
      ensures maxRpm == 0.0 && maxCoolant == 0.0 && startTime == now && logDir == existing
    {
      maxRpm := 0.0;
      maxCoolant := 0.0;
      startTime := now;
      logDir := existing;
    }

    method UpdateRpm(rpm: real)
      modifies this
      ensures maxRpm == Max(old(maxRpm), rpm)
      ensures maxCoolant == old(maxCoolant) && logDir == old(logDir)
    {
      if rpm > maxRpm {
        maxRpm := rpm;
      }
    }

    method UpdateCoolant(temp: real)
      modifies this
      ensures maxCoolant == Max(old(maxCoolant), temp)
      ensures maxRpm == old(maxRpm) && logDir == old(logDir)
    {
      if temp > maxCoolant {
        maxCoolant := temp;
      }
    }

    /** `_cleanup_old_files`: delete, one by one, every log name past the fifth greatest. */
    method CleanupOldFiles()
      modifies this
      ensures logDir == Without(old(logDir), Expired(old(logDir)))
      ensures Distinct(old(logDir)) ==> Distinct(logDir)
      ensures maxRpm == old(maxRpm) && maxCoolant == old(maxCoolant)
    {
      var files := SortDescending(MaxLogs(logDir));
      var doomed := if |files| <= MAX_FILES then [] else files[MAX_FILES..];
      ghost var start := logDir;
      assert Without(start, []) == start by {
        WithoutNothing(start);
      }
      for i := 0 to |doomed|
        invariant logDir == Without(start, doomed[..i])
        invariant maxRpm == old(maxRpm) && maxCoolant == old(maxCoolant)
      {
        WithoutMore(start, doomed[..i], doomed[i]);
        assert doomed[..i] + [doomed[i]] == doomed[..i + 1];
        logDir := Without(logDir, [doomed[i]]);
      }
      assert doomed[..|doomed|] == doomed;
      if Distinct(start) {
        WithoutDistinct(start, doomed);
      }
    }

    /**
     * `save` at time `now`: nothing when neither maximum is positive;
     * otherwise the file for `now` is written (replacing one of the same
     * name) and, when the write works, old logs are cleaned up.
     */
    method Save(now: DateTime, writeOk: bool) returns (result: SaveResult)
      requires ValidTime(now)
      modifies this
      ensures old(maxRpm) <= 0.0 && old(maxCoolant) <= 0.0 ==> result == Skipped && logDir == old(logDir)
      ensures !(old(maxRpm) <= 0.0 && old(maxCoolant) <= 0.0) && !writeOk ==>
        result == WriteFailed(FileName(now)) && logDir == old(logDir)
      ensures !(old(maxRpm) <= 0.0 && old(maxCoolant) <= 0.0) && writeOk ==>
        var written := if FileName(now) in old(logDir) then old(logDir) else old(logDir) + [FileName(now)];
        result == Saved(FileName(now)) && logDir == Without(written, Expired(written))
      ensures Distinct(old(logDir)) ==> Distinct(logDir)
      ensures maxRpm == old(maxRpm) && maxCoolant == old(maxCoolant)
    {
      if maxRpm <= 0.0 && maxCoolant <= 0.0 {
        return Skipped;
      }
      var name := FileName(now);
      if !writeOk {
        return WriteFailed(name);
      }
      if name !in logDir {
        ghost var before := logDir;
        logDir := logDir + [name];
        assert Distinct(before) ==> Distinct(logDir) by {
          if Distinct(before) {
            forall i, j | 0 <= i < j < |logDir| ensures logDir[i] != logDir[j] {
              if j == |before| { assert logDir[i] == before[i]; }
            }
          }
        }
      }
      result := Saved(name);
      CleanupOldFiles();
    }
  }

  lemma {:induction false} WithoutNothing(dir: seq<string>)
    ensures Without(dir, []) == dir
    decreases |dir|
  {
    if |dir| > 0 {
      WithoutNothing(dir[1..]);
      assert dir == [dir[0]] + dir[1..];
    }
  }

  /** `MaxValueLogger._instance`: every construction after the first gives back the same logger. */
  class Singleton {
    var instance: MaxValueLogger?

    constructor()
      ensures instance == null
    {
      instance := null;
    }

    /** `get_max_value_logger()` */
    method Get(now: DateTime, existing: seq<string>) returns (logger: MaxValueLogger)
      modifies this
      ensures old(instance) != null ==>
        (logger == old(instance) && logger.maxRpm == old(logger.maxRpm) && logger.maxCoolant == old(logger.maxCoolant))
      ensures old(instance) == null ==> fresh(logger) && logger.maxRpm == 0.0 && logger.maxCoolant == 0.0
      ensures instance == logger
    {
      if instance == null {
        instance := new MaxValueLogger(now, existing);
      }
      logger := instance;
    }
  }
}
