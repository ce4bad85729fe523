/**
 * The payout table as the machine's design states it: one multiplier per symbol
 * for three of a kind and one for exactly two of a kind, with the five filler
 * symbols paying nothing.  Both prize evaluators are proved against it.
 */
module Paytable {
  import opened Symbols

  /** Multiplier for three matching symbols. */
  const ThreeMatch: map<SlotSymbol, nat> := map[
    Seven := 1000, Bar := 500, Diamond := 250, Bell := 150, Cherry := 80,
    Lemon := 0, Watermelon := 0, Grapes := 0, Orange := 0]

  /** Multiplier for exactly two matching symbols, keyed by the symbol the pair shares. */
  const TwoMatch: map<SlotSymbol, nat> := map[
    Seven := 100, Bar := 75, Diamond := 40, Bell := 30, Cherry := 25,
    Lemon := 0, Watermelon := 0, Grapes := 0, Orange := 0]

  /** The five symbols that pay anything; the other four are filler. */
  const Paying: set<SlotSymbol> := {Seven, Bar, Diamond, Bell, Cherry}

  /** A symbol's table entries are positive exactly when it is a paying symbol. */
  lemma PayingHasPositiveEntries(s: SlotSymbol)
    ensures s in Paying <==> ThreeMatch[s] > 0
    ensures s in Paying <==> TwoMatch[s] > 0
  {
    TablesAreTotal(s);
  }

  lemma TablesAreTotal(s: SlotSymbol)
    ensures s in ThreeMatch && s in TwoMatch
    ensures 0 <= TwoMatch[s] <= ThreeMatch[s] <= 1000
  {
    match s
    case Seven =>
    case Bar =>
    case Diamond =>
    case Bell =>
    case Cherry =>
    case Lemon =>
    case Watermelon =>
    case Grapes =>
    case Orange =>
  }

  /** How many of the three landed symbols are `s`. */
  function Occurrences(s: SlotSymbol, a: SlotSymbol, b: SlotSymbol, c: SlotSymbol): (n: nat)
    ensures n <= 3
  {
    (if a == s then 1 else 0) + (if b == s then 1 else 0) + (if c == s then 1 else 0)
  }

  /**
   * `m` is the prize the table gives for the line `a, b, c`: a symbol landing
   * three times pays its three-match entry, a symbol landing exactly twice pays
   * its two-match entry, and a line with no repeated symbol pays 0.
   */
  ghost predicate PaysPerTable(a: SlotSymbol, b: SlotSymbol, c: SlotSymbol, m: int)
  {
    && (forall s :: Occurrences(s, a, b, c) == 3 ==> s in ThreeMatch && m == ThreeMatch[s])
    && (forall s :: Occurrences(s, a, b, c) == 2 ==> s in TwoMatch && m == TwoMatch[s])
    && ((forall s :: Occurrences(s, a, b, c) <= 1) ==> m == 0)
  }

  lemma ThreeOfAKindPays(a: SlotSymbol, m: int)
    requires a in ThreeMatch && m == ThreeMatch[a]
    ensures PaysPerTable(a, a, a, m)
  {
    assert forall s :: Occurrences(s, a, a, a) == 3 ==> s == a;
    assert forall s :: Occurrences(s, a, a, a) != 2;
    assert Occurrences(a, a, a, a) == 3;
  }

  /** With exactly one pair on the line, the symbol the pair shares is the first reel's when it is in the pair and the second's otherwise. */
  lemma PairPays(a: SlotSymbol, b: SlotSymbol, c: SlotSymbol, m: int)
    requires !(a == b && b == c) && (a == b || a == c || b == c)
    requires var sym := if a == b || a == c then a else b;
      sym in TwoMatch && m == TwoMatch[sym]
    ensures PaysPerTable(a, b, c, m)
  {
    var sym := if a == b || a == c then a else b;
    assert Occurrences(sym, a, b, c) == 2;
    forall s | s != sym ensures Occurrences(s, a, b, c) <= 1 {
    }
  }

  lemma NoPairPaysNothing(a: SlotSymbol, b: SlotSymbol, c: SlotSymbol)
    requires a != b && a != c && b != c
    ensures PaysPerTable(a, b, c, 0)
  {
  }

  /** The table fixes the prize of every line: two prizes that both obey it are equal. */
  lemma PrizeIsDetermined(a: SlotSymbol, b: SlotSymbol, c: SlotSymbol, m1: int, m2: int)
    requires PaysPerTable(a, b, c, m1) && PaysPerTable(a, b, c, m2)
    ensures m1 == m2
  {
    if Occurrences(a, a, b, c) >= 2 {
      assert Occurrences(a, a, b, c) == 2 || Occurrences(a, a, b, c) == 3;
    } else if Occurrences(b, a, b, c) >= 2 {
      assert Occurrences(b, a, b, c) == 2 || Occurrences(b, a, b, c) == 3;
    } else {
      forall s ensures Occurrences(s, a, b, c) <= 1 {
        if s != a && s != b {
          assert Occurrences(s, a, b, c) <= 1;
        }
      }
    }
  }

  /** The table looks only at how often each symbol landed, not on which reel. */
  lemma PaysDependsOnlyOnCounts(a: SlotSymbol, b: SlotSymbol, c: SlotSymbol, d: SlotSymbol, e: SlotSymbol, f: SlotSymbol, m: int)
    requires PaysPerTable(a, b, c, m)
    requires forall s :: Occurrences(s, a, b, c) == Occurrences(s, d, e, f)
    ensures PaysPerTable(d, e, f, m)
  {
  }

  /** By the table, a line pays something exactly when some paying symbol lands on it at least twice. */
  lemma {:induction false} TablePaysOnlyPayingPairs(a: SlotSymbol, b: SlotSymbol, c: SlotSymbol, m: int)
    requires PaysPerTable(a, b, c, m)
    ensures m > 0 <==> exists s :: Occurrences(s, a, b, c) >= 2 && s in Paying
  {
    if a == b || a == c || b == c {
      var sym := if a == b || a == c then a else b;
      assert Occurrences(sym, a, b, c) >= 2;
      RepeatedSymbolDecides(a, b, c, m, sym);
    } else {
      NoRepeat(a, b, c);
    }
  }

  /** With three different symbols, no symbol lands twice. */
  lemma NoRepeat(a: SlotSymbol, b: SlotSymbol, c: SlotSymbol)
    requires a != b && a != c && b != c
    ensures forall s :: Occurrences(s, a, b, c) <= 1
  {
  }

  /** When `sym` lands at least twice it is the only symbol that does, and the prize is its table entry. */
  lemma {:induction false} RepeatedSymbolDecides(a: SlotSymbol, b: SlotSymbol, c: SlotSymbol, m: int, sym: SlotSymbol)
    requires PaysPerTable(a, b, c, m) && Occurrences(sym, a, b, c) >= 2
    ensures m > 0 <==> sym in Paying
    ensures forall s :: Occurrences(s, a, b, c) >= 2 ==> s == sym
  {
    PayingHasPositiveEntries(sym);
    assert Occurrences(sym, a, b, c) == 2 || Occurrences(sym, a, b, c) == 3;
  }
}
