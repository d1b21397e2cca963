/** The file names of the disk buffer (src/agent/buffer.py): their lexicographic order, in which
    the directory listing is sorted, against the numeric order of the sequences they carry. */
module BatchNames {
  import opened Prelude
  import opened DiskBuffer

  function Pow10(w: nat): (p: nat)
    ensures p >= 1
  {
    if w == 0 then 1 else 10 * Pow10(w - 1)
  }

  function Digit(d: nat): char
    requires d < 10
  {
    '0' + d as char
  }

  /** The last `w` decimal digits of `n`. */
  function Fixed(n: nat, w: nat): string {
    if w == 0 then "" else Fixed(n / 10, w - 1) + [Digit(n % 10)]
  }

  const TEN_TO_20: nat := 100_000_000_000_000_000_000

  /** The digits Python's `{n:020d}` writes: twenty, or more when `n` needs more. */
  function Width(n: nat): nat {
    if n < TEN_TO_20 then 20 else 1 + Width(n / 10)
  }

  function Padded(n: nat, w: nat): string {
    "batch-" + Fixed(n, w) + ".json"
  }

  function Name(n: nat): string {
    Padded(n, Width(n))
  }

  /** `n` with its last `m` decimal digits removed. */
  function Leading(n: nat, m: nat): nat {
    if m == 0 then n else Leading(n / 10, m - 1)
  }

  lemma {:induction false} BeforeWithPrefix(p: string, s: string, t: string)
    ensures Before(p + s, p + t) <==> Before(s, t)
  {
    if p == [] {
      assert p + s == s && p + t == t;
    } else {
      BeforeWithPrefix(p[1..], s, t);
      assert (p + s)[1..] == p[1..] + s && (p + t)[1..] == p[1..] + t;
    }
  }

  /** Between strings that start with equally long parts, the parts decide unless they are equal. */
  lemma {:induction false} BeforeByParts(s: string, u: string, t: string, v: string)
    requires |s| == |t|
    ensures Before(s + u, t + v) <==> Before(s, t) || (s == t && Before(u, v))
  {
    if s == [] {
      assert s + u == u && t + v == v;
    } else {
      BeforeByParts(s[1..], u, t[1..], v);
      assert (s + u)[1..] == s[1..] + u && (t + v)[1..] == t[1..] + v;
      assert s == [s[0]] + s[1..] && t == [t[0]] + t[1..];
    }
  }

  lemma {:induction false} FixedLength(n: nat, w: nat)
    ensures |Fixed(n, w)| == w
  {
    if w > 0 {
      FixedLength(n / 10, w - 1);
    }
  }

  lemma {:induction false} FixedOrder(a: nat, b: nat, w: nat)
    requires a < Pow10(w) && b < Pow10(w)
    ensures Before(Fixed(a, w), Fixed(b, w)) <==> a < b
    ensures Fixed(a, w) == Fixed(b, w) <==> a == b
  {
    if w > 0 {
      FixedOrder(a / 10, b / 10, w - 1);
      FixedLength(a / 10, w - 1);
      FixedLength(b / 10, w - 1);
      var x, y := [Digit(a % 10)], [Digit(b % 10)];
      BeforeByParts(Fixed(a / 10, w - 1), x, Fixed(b / 10, w - 1), y);
      assert Before(x, y) <==> a % 10 < b % 10;
      assert Front(Fixed(a, w)) == Fixed(a / 10, w - 1) && Front(Fixed(b, w)) == Fixed(b / 10, w - 1);
      assert Fixed(a, w)[w - 1] == x[0] && Fixed(b, w)[w - 1] == y[0];
    }
  }

  lemma {:induction false} TwentyDigits()
    ensures Pow10(20) == TEN_TO_20
  {
    assert Pow10(4) == 10_000;
    assert Pow10(8) == 100_000_000;
    assert Pow10(12) == 1_000_000_000_000;
    assert Pow10(16) == 10_000_000_000_000_000;
  }

  lemma {:induction false} WidthSuffices(n: nat)
    ensures n < Pow10(Width(n)) && Width(n) >= 20
  {
    if n >= TEN_TO_20 {
      WidthSuffices(n / 10);
    } else {
      TwentyDigits();
    }
  }

  lemma {:induction false} WidthIsMonotone(a: nat, b: nat)
    requires a <= b
    ensures Width(a) <= Width(b)
  {
    if a >= TEN_TO_20 {
      WidthIsMonotone(a / 10, b / 10);
    } else {
      WidthSuffices(b);
    }
  }

  lemma {:induction false} SplitFixed(n: nat, k: nat, m: nat)
    ensures Fixed(n, k + m) == Fixed(Leading(n, m), k) + Fixed(n, m)
  {
    if m > 0 {
      SplitFixed(n / 10, k, m - 1);
    } else {
      assert Fixed(n, 0) == "";
    }
  }

  lemma {:induction false} LeadingFits(n: nat, k: nat, m: nat)
    requires n < Pow10(k + m)
    ensures Leading(n, m) < Pow10(k)
  {
    if m > 0 {
      LeadingFits(n / 10, k, m - 1);
    }
  }

  lemma {:induction false} PaddedOrder(a: nat, b: nat, k: nat, m: nat)
    requires a < Pow10(k) && b < Pow10(k + m)
    ensures Before(Padded(a, k), Padded(b, k + m)) <==> (if m == 0 then a < b else a <= Leading(b, m))
  {
    var lead := Leading(b, m);
    SplitFixed(b, k, m);
    LeadingFits(b, k, m);
    FixedOrder(a, lead, k);
    FixedLength(a, k);
    FixedLength(lead, k);
    var short, rest := Fixed(a, k) + ".json", Fixed(b, m) + ".json";
    assert Padded(a, k) == "batch-" + short;
    assert Padded(b, k + m) == "batch-" + (Fixed(lead, k) + rest);
    BeforeWithPrefix("batch-", short, Fixed(lead, k) + rest);
    BeforeByParts(Fixed(a, k), ".json", Fixed(lead, k), rest);
    if m > 0 {
      FirstDigit(b, m);
      assert rest[0] == Fixed(b, m)[0] && ".json"[0] == '.';
    } else {
      assert rest == ".json";
      BeforeIsTotal(".json", ".json");
    }
  }

  /** For any two sequences, the smaller one's name is listed first exactly when the other's
      leading digits, read over the smaller one's width, do not fall below it. */
  lemma {:induction false} NameOrderExactly(a: nat, b: nat)
    requires a < b
    ensures Width(a) <= Width(b)
    ensures Before(Name(a), Name(b)) <==> a <= Leading(b, Width(b) - Width(a))
  {
    WidthIsMonotone(a, b);
    WidthSuffices(a);
    WidthSuffices(b);
    PaddedOrder(a, b, Width(a), Width(b) - Width(a));
  }

  lemma {:induction false} FirstDigit(n: nat, m: nat)
    requires m > 0
    ensures |Fixed(n, m)| == m && '0' <= Fixed(n, m)[0]
  {
    FixedLength(n, m);
    if m > 1 {
      FirstDigit(n / 10, m - 1);
      FixedLength(n / 10, m - 1);
      assert Fixed(n, m)[0] == Fixed(n / 10, m - 1)[0];
    } else {
      assert Fixed(n / 10, 0) == "";
      assert Fixed(n, 1) == [Digit(n % 10)];
    }
  }

  lemma {:induction false} PaddedIsInjective(a: nat, b: nat, k: nat)
    requires a < Pow10(k) && b < Pow10(k)
    ensures Padded(a, k) == Padded(b, k) <==> a == b
  {
    FixedOrder(a, b, k);
    FixedLength(a, k);
    FixedLength(b, k);
    assert Padded(a, k)[6..6 + k] == Fixed(a, k) && Padded(b, k)[6..6 + k] == Fixed(b, k);
  }

  /** Names are injective, and among sequences of one width, in particular among all below
      10^20, listing order is numeric order. */
  lemma {:induction false} NameOrderIsDeliveryOrder(a: nat, b: nat)
    requires Width(a) == Width(b)
    ensures Before(Name(a), Name(b)) <==> a < b
    ensures Name(a) == Name(b) <==> a == b
    ensures a < TEN_TO_20 ==> Width(a) == 20
  {
    WidthSuffices(a);
    WidthSuffices(b);
    PaddedOrder(a, b, Width(a), 0);
    PaddedIsInjective(a, b, Width(a));
  }

  /** The files as the directory lists them, sorted by name. */
  ghost predicate Listed(files: seq<Entry>) {
    forall i, j :: 0 <= i < j < |files| ==> Before(Name(files[i].sequence), Name(files[j].sequence))
  }

  /** Below 10^20 the directory listing is the queue in the order of its sequences. */
  lemma {:induction false} ListingIsOrdered(files: seq<Entry>)
    requires forall i :: 0 <= i < |files| ==> files[i].sequence < TEN_TO_20
    ensures Listed(files) <==> Ordered(files)
  {
    forall i, j | 0 <= i < j < |files|
      ensures Before(Name(files[i].sequence), Name(files[j].sequence)) <==> files[i].sequence < files[j].sequence
    {
      NameOrderIsDeliveryOrder(files[i].sequence, files[j].sequence);
      NameOrderIsDeliveryOrder(files[j].sequence, files[j].sequence);
    }
  }

  /** The first sequence that needs 21 digits is listed before its predecessor. */
  lemma {:induction false} OrderBreaksAtTwentyOneDigits(b: nat)
    requires b == TEN_TO_20
    ensures !Before(Name(b - 1), Name(b))
  {
    assert Width(b - 1) == 20 && Width(b / 10) == 20 && Width(b) == 21;
    NameOrderExactly(b - 1, b);
    assert Leading(b / 10, 0) == b / 10;
  }
}
