/** Task ids as the strings the scheduler sorts, and why both legs of the mission
    see the packages in one and the same order. */
module TaskOrder {
  import opened Domain

  // ----- Rendering -----

  function Digit(n: nat): char
    requires n < 10
  {
    "0123456789"[n]
  }

  function Decimal(n: nat): string {
    if n < 10 then [Digit(n)] else Decimal(n / 10) + [Digit(n % 10)]
  }

  function LegText(leg: Leg): string {
    if leg == SourceToTransfer then "source_to_transfer" else "transfer_to_destination"
  }

  function Text(id: TaskId): string {
    ['P'] + (Decimal(id.item) + ([':'] + LegText(id.leg)))
  }

  predicate Numeric(s: string) {
    forall i :: 0 <= i < |s| ==> '0' <= s[i] <= '9'
  }

  lemma {:induction false} DecimalNumeric(n: nat)
    ensures Numeric(Decimal(n)) && Decimal(n) != []
  {
    if n >= 10 {
      DecimalNumeric(n / 10);
    }
  }

  function DigitValue(c: char): int {
    c as int - '0' as int
  }

  function DecimalValue(s: string): int {
    if s == [] then 0 else 10 * DecimalValue(s[..|s| - 1]) + DigitValue(s[|s| - 1])
  }

  lemma DigitRoundTrip(n: nat)
    requires n < 10
    ensures DigitValue(Digit(n)) == n
  {
  }

  lemma {:induction false} DecimalRoundTrip(n: nat)
    ensures DecimalValue(Decimal(n)) == n
  {
    if n < 10 {
      DigitRoundTrip(n);
      assert DecimalValue([]) == 0;
      assert Decimal(n)[..0] == [];
    } else {
      DecimalRoundTrip(n / 10);
      DigitRoundTrip(n % 10);
      assert Decimal(n)[..|Decimal(n)| - 1] == Decimal(n / 10);
    }
  }

  // ----- Lexicographic order -----

  predicate LexLess(a: string, b: string) {
    b != [] && (a == [] || a[0] < b[0] || (a[0] == b[0] && LexLess(a[1..], b[1..])))
  }

  lemma {:induction false} LexTotal(a: string, b: string)
    ensures !(LexLess(a, b) && LexLess(b, a))
    ensures a != b ==> LexLess(a, b) || LexLess(b, a)
    ensures !LexLess(a, a)
  {
    if a != [] {
      LexTotal(a[1..], a[1..]);
      if b != [] {
        LexTotal(a[1..], b[1..]);
        if a != b && a[0] == b[0] {
          assert a == [a[0]] + a[1..] && b == [b[0]] + b[1..];
        }
      }
    }
  }

  lemma {:induction false} LexTransitive(a: string, b: string, c: string)
    requires LexLess(a, b) && LexLess(b, c)
    ensures LexLess(a, c)
  {
    if a != [] && a[0] == b[0] && b[0] == c[0] {
      LexTransitive(a[1..], b[1..], c[1..]);
    }
  }

  /** Two different numerals are told apart before or at the colon that ends them:
      whatever follows the colon does not matter. */
  lemma {:induction false} DecidedBeforeColon(a: string, b: string, x: string, y: string, x': string, y': string)
    requires Numeric(a) && Numeric(b) && a != b
    ensures LexLess(a + ([':'] + x), b + ([':'] + y)) == LexLess(a + ([':'] + x'), b + ([':'] + y'))
  {
    if a == [] || b == [] || a[0] != b[0] {
      assert a != [] ==> a[0] <= '9';
      assert b != [] ==> b[0] <= '9';
    } else {
      var a1, b1 := a[1..], b[1..];
      assert a == [a[0]] + a1 && b == [b[0]] + b1;
      DecidedBeforeColon(a1, b1, x, y, x', y');
      assert (a + ([':'] + x))[1..] == a1 + ([':'] + x);
      assert (b + ([':'] + y))[1..] == b1 + ([':'] + y);
      assert (a + ([':'] + x'))[1..] == a1 + ([':'] + x');
      assert (b + ([':'] + y'))[1..] == b1 + ([':'] + y');
    }
  }

  predicate IdLess(a: TaskId, b: TaskId) {
    LexLess(Text(a), Text(b))
  }

  /** Package `p` sorts before package `q`. */
  predicate Before(p: nat, q: nat) {
    IdLess(TaskId(p, SourceToTransfer), TaskId(q, SourceToTransfer))
  }

  /** The order of two tasks of different packages is the order of the packages,
      whichever legs they are. */
  lemma BothLegsSortAlike(a: TaskId, b: TaskId)
    requires a.item != b.item
    ensures IdLess(a, b) == Before(a.item, b.item)
  {
    var p, q := Decimal(a.item), Decimal(b.item);
    DecimalNumeric(a.item);
    DecimalNumeric(b.item);
    DecimalRoundTrip(a.item);
    DecimalRoundTrip(b.item);
    DecidedBeforeColon(p, q, LegText(a.leg), LegText(b.leg), LegText(SourceToTransfer), LegText(SourceToTransfer));
    assert Text(a)[1..] == p + ([':'] + LegText(a.leg));
    assert Text(b)[1..] == q + ([':'] + LegText(b.leg));
    var a', b' := TaskId(a.item, SourceToTransfer), TaskId(b.item, SourceToTransfer);
    assert Text(a')[1..] == p + ([':'] + LegText(SourceToTransfer));
    assert Text(b')[1..] == q + ([':'] + LegText(SourceToTransfer));
  }

  lemma {:induction false} CommonPrefixDrops(s: string, a: string, b: string)
    ensures LexLess(s + a, s + b) == LexLess(a, b)
  {
    if s == [] {
      assert s + a == a && s + b == b;
    } else {
      CommonPrefixDrops(s[1..], a, b);
      assert (s + a)[1..] == s[1..] + a && (s + b)[1..] == s[1..] + b;
    }
  }

  /** Within one package the upstream task sorts first. */
  lemma UpstreamSortsFirst(p: nat)
    ensures IdLess(TaskId(p, SourceToTransfer), TaskId(p, TransferToDestination))
  {
    var s := ['P'] + (Decimal(p) + [':']);
    var a, b := LegText(SourceToTransfer), LegText(TransferToDestination);
    assert Text(TaskId(p, SourceToTransfer)) == s + a;
    assert Text(TaskId(p, TransferToDestination)) == s + b;
    CommonPrefixDrops(s, a, b);
  }

  /** A task id is determined by the package number it shows. */
  lemma TextDeterminesItem(p: nat, q: nat, leg: Leg)
    requires Text(TaskId(p, leg)) == Text(TaskId(q, leg))
    ensures p == q
  {
    var a, b, x := Decimal(p), Decimal(q), [':'] + LegText(leg);
    var s, t := Text(TaskId(p, leg)), Text(TaskId(q, leg));
    assert s[1..] == a + x && t[1..] == b + x;
    assert a == (a + x)[..|a|] && b == (b + x)[..|b|];
    DecimalRoundTrip(p);
    DecimalRoundTrip(q);
  }

  /** Distinct tasks render differently, so the id order is total and strict. */
  lemma IdTotal(a: TaskId, b: TaskId)
    ensures !(IdLess(a, b) && IdLess(b, a))
    ensures a != b ==> IdLess(a, b) || IdLess(b, a)
    ensures !IdLess(a, a)
  {
    LexTotal(Text(a), Text(b));
    LexTotal(Text(a), Text(a));
    if a != b && a.item == b.item {
      UpstreamSortsFirst(a.item);
    } else if a != b {
      BothLegsSortAlike(a, b);
      BothLegsSortAlike(b, a);
      var a', b' := TaskId(a.item, SourceToTransfer), TaskId(b.item, SourceToTransfer);
      LexTotal(Text(a'), Text(b'));
      if !IdLess(a, b) && !IdLess(b, a) {
        TextDeterminesItem(a.item, b.item, SourceToTransfer);
      }
    }
  }

  lemma IdTransitive(a: TaskId, b: TaskId, c: TaskId)
    requires IdLess(a, b) && IdLess(b, c)
    ensures IdLess(a, c)
  {
    LexTransitive(Text(a), Text(b), Text(c));
  }

  /** The order is not numeric: "P10:" sorts before "P1:". */
  lemma TenSortsBeforeOne()
    ensures Before(10, 1) && !Before(1, 10)
  {
    var a, b := TaskId(10, SourceToTransfer), TaskId(1, SourceToTransfer);
    assert Decimal(1) == ['1'];
    assert Decimal(10) == Decimal(1) + ['0'];
    assert Text(a)[1..][1..][0] == '0';
    assert Text(b)[1..][1..][0] == ':';
    assert Text(a)[1..][0] == Text(b)[1..][0] == '1';
    LexTotal(Text(a), Text(b));
  }

  // ----- The two traversal orders -----

  /** Insertion order of the task dictionary. */
  function Ids(n: nat): (ids: seq<TaskId>)
    ensures forall x :: x in ids <==> 1 <= x.item <= n
  {
    if n == 0 then []
    else
      var pair := [TaskId(n, SourceToTransfer), TaskId(n, TransferToDestination)];
      assert forall x :: x in pair <==> x.item == n by {
        assert pair[0] in pair && pair[1] in pair;
        forall x: TaskId | x.item == n
          ensures x in pair
        {
          assert x == if x.leg == SourceToTransfer then pair[0] else pair[1];
        }
      }
      Ids(n - 1) + pair
  }

  predicate Ordered(ids: seq<TaskId>) {
    forall i, j :: 0 <= i < j < |ids| ==> IdLess(ids[i], ids[j])
  }

  function Insert(x: TaskId, ids: seq<TaskId>): seq<TaskId> {
    if ids == [] then [x]
    else if IdLess(x, ids[0]) then [x] + ids
    else [ids[0]] + Insert(x, ids[1..])
  }

  /** The ids as `sorted` returns them. */
  function Sorted(ids: seq<TaskId>): seq<TaskId> {
    if ids == [] then [] else Insert(ids[0], Sorted(ids[1..]))
  }

  lemma {:induction false} InsertMembers(x: TaskId, ids: seq<TaskId>)
    ensures forall y :: y in Insert(x, ids) <==> y == x || y in ids
  {
    if ids != [] && !IdLess(x, ids[0]) {
      InsertMembers(x, ids[1..]);
      assert ids == [ids[0]] + ids[1..];
    }
  }

  lemma {:induction false} InsertOrdered(x: TaskId, ids: seq<TaskId>)
    requires Ordered(ids) && x !in ids
    ensures Ordered(Insert(x, ids))
  {
    if ids == [] {
    } else if IdLess(x, ids[0]) {
      forall j | 1 <= j < |ids|
        ensures IdLess(x, ids[j])
      {
        IdTransitive(x, ids[0], ids[j]);
      }
    } else {
      InsertOrdered(x, ids[1..]);
      InsertMembers(x, ids[1..]);
      IdTotal(x, ids[0]);
      var tail := Insert(x, ids[1..]);
      forall j | 0 <= j < |tail|
        ensures IdLess(ids[0], tail[j])
      {
        assert tail[j] in tail;
      }
    }
  }

  predicate Distinct(ids: seq<TaskId>) {
    forall i, j :: 0 <= i < j < |ids| ==> ids[i] != ids[j]
  }

  /** `Sorted` permutes its input into strictly ascending id order. */
  lemma {:induction false} SortedSorts(ids: seq<TaskId>)
    requires Distinct(ids)
    ensures Ordered(Sorted(ids))
    ensures forall y :: y in Sorted(ids) <==> y in ids
  {
    if ids != [] {
      SortedSorts(ids[1..]);
      InsertMembers(ids[0], Sorted(ids[1..]));
      InsertOrdered(ids[0], Sorted(ids[1..]));
      assert ids == [ids[0]] + ids[1..];
    }
  }

  lemma {:induction false} IdsDistinct(n: nat)
    ensures Distinct(Ids(n))
  {
    if n > 0 {
      IdsDistinct(n - 1);
      var ids := Ids(n - 1);
      forall i | 0 <= i < |ids|
        ensures ids[i].item < n
      {
        assert ids[i] in ids;
      }
    }
  }

  function Schedule(n: nat): seq<TaskId> {
    Sorted(Ids(n))
  }

  lemma ScheduleOrder(n: nat)
    ensures Ordered(Schedule(n))
    ensures forall x :: x in Schedule(n) <==> 1 <= x.item <= n
  {
    IdsDistinct(n);
    SortedSorts(Ids(n));
  }

  lemma ScheduleMembers(n: nat)
    ensures forall x :: x in Schedule(n) <==> 1 <= x.item <= n
  {
    ScheduleOrder(n);
  }

  lemma RestMembers(ids: seq<TaskId>)
    requires ids != []
    ensures ids[0] in ids
    ensures forall x :: x in ids <==> x == ids[0] || x in ids[1..]
  {
  }
}
