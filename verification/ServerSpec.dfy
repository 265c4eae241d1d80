/** Names of connections and the round robin over loops. */
module ServerSpec {

  const INT_RANGE := 0x1_0000_0000

  /** m_nextConnId is a 32-bit int that wraps around. */
  function WrapInt(n: int): int {
    var m := n % INT_RANGE;
    if m < INT_RANGE / 2 then m else m - INT_RANGE
  }

  function Digit(d: nat): char
    requires d < 10
  {
    ['0', '1', '2', '3', '4', '5', '6', '7', '8', '9'][d]
  }

  function Decimal(n: nat): (s: string)
    ensures s != []
  {
    if n < 10 then [Digit(n)] else Decimal(n / 10) + [Digit(n % 10)]
  }

  /** std::to_string of an int. */
  function ToString(n: int): string {
    if n < 0 then "-" + Decimal(-n) else Decimal(n)
  }

  /** The name of the k-th connection of a server, counting from 0. */
  function ConnName(prefix: string, k: nat): string {
    prefix + "#" + ToString(WrapInt(k + 1))
  }

  /** The number that a string of decimal digits denotes. */
  function NumberRead(s: string): int {
    if s == [] then 0 else 10 * NumberRead(s[..|s| - 1]) + (s[|s| - 1] as int - '0' as int)
  }

  predicate AllDigits(s: string) {
    forall i :: 0 <= i < |s| ==> '0' <= s[i] <= '9'
  }

  lemma DigitDenotes(d: nat)
    requires d < 10
    ensures '0' <= Digit(d) <= '9' && Digit(d) as int == '0' as int + d
  {
  }

  /** A number is printed in decimal digits, without leading zeros, that read back as that number. */
  lemma {:induction false} DecimalReadsBack(n: nat)
    ensures AllDigits(Decimal(n)) && NumberRead(Decimal(n)) == n
    ensures Decimal(n)[0] == '0' ==> n == 0
    decreases n
  {
    var s := Decimal(n);
    DigitDenotes(n % 10);
    if n >= 10 {
      DecimalReadsBack(n / 10);
      assert s[..|s| - 1] == Decimal(n / 10);
    } else {
      assert s[..0] == [];
    }
  }

  /** An int is printed as such digits, after a minus sign exactly when it is negative. */
  lemma ToStringReadsBack(n: int)
    ensures n >= 0 ==> AllDigits(ToString(n)) && NumberRead(ToString(n)) == n
    ensures n < 0 ==> ToString(n)[0] == '-' && AllDigits(ToString(n)[1..]) && NumberRead(ToString(n)[1..]) == -n
  {
    DecimalReadsBack(if n < 0 then -n else n);
    hide Decimal, NumberRead;
    if n < 0 { assert ToString(n)[1..] == Decimal(-n); }
  }

  /** The counter holds the number it stands for, but for a multiple of 2^32, in the range of an int. */
  lemma WrapIntIs(n: int)
    ensures -0x8000_0000 <= WrapInt(n) < 0x8000_0000 && (n - WrapInt(n)) % 0x1_0000_0000 == 0
    ensures -0x8000_0000 <= n < 0x8000_0000 ==> WrapInt(n) == n
  {
  }

  /** A connection's name is the server's, a hash sign, and its number counting from 1. */
  lemma NameIs(prefix: string, k: nat)
    requires k < 0x7fff_ffff
    ensures var name := ConnName(prefix, k);
            && |name| > |prefix| + 1 && name[..|prefix|] == prefix && name[|prefix|] == '#'
            && AllDigits(name[|prefix| + 1..]) && NumberRead(name[|prefix| + 1..]) == k + 1
  {
    WrapIntIs(k + 1);
    ToStringReadsBack(k + 1);
    hide WrapInt, NumberRead, Decimal;
    assert ConnName(prefix, k)[|prefix| + 1..] == ToString(k + 1);
  }

  lemma DigitInjective(a: nat, b: nat)
    requires a < 10 && b < 10 && Digit(a) == Digit(b)
    ensures a == b
  {
  }

  lemma {:induction false} DecimalInjective(a: nat, b: nat)
    requires Decimal(a) == Decimal(b)
    ensures a == b
    decreases a
  {
    var s, t := Decimal(a), Decimal(b);
    assert s[|s| - 1] == Digit(a % 10) && t[|t| - 1] == Digit(b % 10);
    DigitInjective(a % 10, b % 10);
    if a >= 10 && b >= 10 {
      assert s[..|s| - 1] == Decimal(a / 10) && t[..|t| - 1] == Decimal(b / 10);
      DecimalInjective(a / 10, b / 10);
    }
  }

  lemma {:induction false} DecimalHasNoSign(n: nat)
    ensures Decimal(n)[0] != '-'
    decreases n
  {
    if n >= 10 {
      DecimalHasNoSign(n / 10);
    }
  }

  lemma ToStringInjective(a: int, b: int)
    requires ToString(a) == ToString(b)
    ensures a == b
  {
    if a < 0 && b < 0 {
      assert ToString(a)[1..] == Decimal(-a) && ToString(b)[1..] == Decimal(-b);
      DecimalInjective(-a, -b);
    } else if a >= 0 && b >= 0 {
      DecimalInjective(a, b);
    } else {
      DecimalHasNoSign(if a < 0 then b else a);
    }
  }

  lemma WrapIntCollides(j: nat, k: nat)
    ensures WrapInt(j + 1) == WrapInt(k + 1) <==> j % INT_RANGE == k % INT_RANGE
  {
    assert (j + 1) % INT_RANGE == (if j % INT_RANGE + 1 == INT_RANGE then 0 else j % INT_RANGE + 1);
    assert (k + 1) % INT_RANGE == (if k % INT_RANGE + 1 == INT_RANGE then 0 else k % INT_RANGE + 1);
  }

  /** Two connections share a name exactly when 2^32 divides the distance of their numbers. */
  lemma NamesCollideIff(prefix: string, j: nat, k: nat)
    ensures ConnName(prefix, j) == ConnName(prefix, k) <==> j % INT_RANGE == k % INT_RANGE
  {
    WrapIntCollides(j, k);
    hide WrapInt, ToString;
    var m, n := WrapInt(j + 1), WrapInt(k + 1);
    if ConnName(prefix, j) == ConnName(prefix, k) {
      assert ConnName(prefix, j)[|prefix| + 1..] == ToString(m) && ConnName(prefix, k)[|prefix| + 1..] == ToString(n);
      ToStringInjective(m, n);
    }
  }

  // ----- The connection map -----

  /** m_connections by connection number; `created` and `removed` record the run. */
  datatype Table = Table(prefix: string, entries: map<string, nat>, created: nat, removed: set<nat>) {
    function NameOf(k: nat): string {
      ConnName(prefix, k)
    }

    predicate Contains(k: nat) {
      NameOf(k) in entries && entries[NameOf(k)] == k
    }
  }

  datatype TableOp = Insert | Erase(k: nat)

  predicate Legal(t: Table, op: TableOp) {
    match op
    case Insert => t.created < INT_RANGE
    case Erase(k) => k < t.created
  }

  function Apply(t: Table, op: TableOp): Table {
    match op
    case Insert => t.(entries := t.entries[t.NameOf(t.created) := t.created], created := t.created + 1)
    case Erase(k) => t.(entries := t.entries - {t.NameOf(k)}, removed := t.removed + {k})
  }

  /** The map holds exactly the connections created and not removed, each under its own name. */
  ghost predicate TableInv(t: Table) {
    && (forall k :: k in t.removed ==> k < t.created)
    && (forall name :: name in t.entries ==>
          t.entries[name] < t.created && t.entries[name] !in t.removed && name == t.NameOf(t.entries[name]))
    && (forall k: nat :: k < t.created && k !in t.removed ==> t.Contains(k))
  }

  /** No other connection is in the map under the name of `k`. */
  predicate HasOwnName(t: Table, k: nat) {
    t.NameOf(k) in t.entries ==> t.entries[t.NameOf(k)] == k
  }

  lemma NamesDiffer(t: Table, j: nat, k: nat)
    requires j < INT_RANGE && k < INT_RANGE && j != k
    ensures t.NameOf(j) != t.NameOf(k)
  {
    NamesCollideIff(t.prefix, j, k);
    hide ConnName;
  }

  /** Below 2^32 connections all names differ. */
  lemma NamesAreOwn(t: Table, k: nat)
    requires TableInv(t) && t.created <= INT_RANGE && k < INT_RANGE
    ensures HasOwnName(t, k) && (k >= t.created ==> t.NameOf(k) !in t.entries)
  {
    var name := t.NameOf(k);
    if name in t.entries && t.entries[name] != k {
      NamesDiffer(t, t.entries[name], k);
    }
    hide ConnName;
  }

  /** An insertion under a name that is not in use overwrites nothing. */
  lemma FreeInsertKeepsTable(t: Table)
    requires TableInv(t) && t.NameOf(t.created) !in t.entries
    ensures TableInv(Apply(t, Insert))
    ensures forall j: nat :: j < t.created ==> (Apply(t, Insert).Contains(j) <==> t.Contains(j))
  {
    hide ConnName;
    var u := Apply(t, Insert);
    assert u.Contains(t.created);
    forall k: nat | k < t.created && k !in t.removed
      ensures u.Contains(k)
    {
      assert t.Contains(k);
    }
  }

  /** A removal of a connection with a name of its own takes just its own entry; repeated, it takes nothing. */
  lemma OwnEraseKeepsTable(t: Table, k: nat)
    requires TableInv(t) && k < t.created && HasOwnName(t, k)
    ensures TableInv(Apply(t, Erase(k)))
    ensures k in t.removed ==> Apply(t, Erase(k)) == t
    ensures forall j: nat :: j < t.created && j != k ==> (Apply(t, Erase(k)).Contains(j) <==> t.Contains(j))
  {
    hide ConnName;
    var u := Apply(t, Erase(k));
    forall j: nat | j < t.created && j !in u.removed
      ensures u.Contains(j)
    {
      assert t.Contains(j);
    }
    if k in t.removed {
      assert t.NameOf(k) !in t.entries;
      assert t.entries - {t.NameOf(k)} == t.entries && t.removed + {k} == t.removed;
    }
  }

  /** Below 2^32 connections an insertion overwrites nothing. */
  lemma InsertKeepsTable(t: Table)
    requires TableInv(t) && Legal(t, Insert)
    ensures TableInv(Apply(t, Insert)) && Apply(t, Insert).created <= INT_RANGE
    ensures t.NameOf(t.created) !in t.entries
  {
    NamesAreOwn(t, t.created);
    FreeInsertKeepsTable(t);
  }

  /** Below 2^32 connections a removal takes just its own entry; repeated, it takes nothing. */
  lemma EraseKeepsTable(t: Table, k: nat)
    requires TableInv(t) && t.created <= INT_RANGE && Legal(t, Erase(k))
    ensures TableInv(Apply(t, Erase(k)))
    ensures k in t.removed ==> Apply(t, Erase(k)) == t
    ensures forall j: nat :: j < t.created && j != k ==> (Apply(t, Erase(k)).Contains(j) <==> t.Contains(j))
  {
    NamesAreOwn(t, k);
    OwnEraseKeepsTable(t, k);
  }

  predicate LegalRun(t: Table, ops: seq<TableOp>)
    decreases |ops|
  {
    ops == [] || (Legal(t, ops[0]) && LegalRun(Apply(t, ops[0]), ops[1..]))
  }

  function Run(t: Table, ops: seq<TableOp>): Table
    decreases |ops|
  {
    if ops == [] then t else Run(Apply(t, ops[0]), ops[1..])
  }

  /** Over every run of fewer than 2^32 connections the map is exactly created minus removed. */
  lemma {:induction false} MapIsCreatedMinusRemoved(t: Table, ops: seq<TableOp>)
    requires TableInv(t) && t.created <= INT_RANGE && LegalRun(t, ops)
    ensures TableInv(Run(t, ops)) && Run(t, ops).created <= INT_RANGE
    decreases |ops|
  {
    if ops != [] {
      match ops[0] {
        case Insert => InsertKeepsTable(t);
        case Erase(k) => EraseKeepsTable(t, k);
      }
      MapIsCreatedMinusRemoved(Apply(t, ops[0]), ops[1..]);
    }
  }

  function Inserts(n: nat): seq<TableOp> {
    seq(n, _ => Insert)
  }

  lemma {:induction false} InsertsOnly(t: Table, n: nat)
    requires t.created + n <= INT_RANGE
    ensures LegalRun(t, Inserts(n))
    ensures var u := Run(t, Inserts(n)); u.created == t.created + n && u.removed == t.removed && u.prefix == t.prefix
    decreases n
  {
    hide ConnName;
    if n > 0 {
      assert Inserts(n)[1..] == Inserts(n - 1);
      InsertsOnly(Apply(t, Insert), n - 1);
    }
  }

  /** The map is kept by name, whoever is under it: a removal takes what is there, an insertion replaces it, and
      the entries of other names stay. */
  lemma MapIsByName(t: Table, k: nat, name: string)
    ensures t.NameOf(k) !in Apply(t, Erase(k)).entries
    ensures var added := t.NameOf(t.created);
            added in Apply(t, Insert).entries && Apply(t, Insert).entries[added] == t.created
    ensures name in t.entries && name != t.NameOf(k) ==>
              name in Apply(t, Erase(k)).entries && Apply(t, Erase(k)).entries[name] == t.entries[name]
    ensures name in t.entries && name != t.NameOf(t.created) ==>
              name in Apply(t, Insert).entries && Apply(t, Insert).entries[name] == t.entries[name]
    ensures Apply(t, Erase(k)).entries.Keys <= t.entries.Keys
  {
    hide ConnName;
  }

  /** Any connection that was made may be removed, once or again; and below 2^32 another may be made. */
  lemma AlwaysLegal(t: Table, k: nat)
    ensures k < t.created ==> Legal(t, Erase(k)) && Legal(t.(removed := t.removed + {k}), Erase(k))
    ensures t.created < 0x1_0000_0000 ==> Legal(t, Insert)
  {
  }

  /** The next connection takes over the first one's entry. */
  lemma WrapAroundOverwrites(t: Table)
    requires t.created == INT_RANGE && t.Contains(0)
    ensures !Apply(t, Insert).Contains(0) && Apply(t, Insert).entries.Keys == t.entries.Keys
  {
    NamesCollideIff(t.prefix, 0, INT_RANGE);
  }

  /** The run that gets there: 2^32 connections made, and none removed. */
  lemma WrapAroundRun(prefix: string)
    ensures var t := Run(Table(prefix, map[], 0, {}), Inserts(INT_RANGE));
            LegalRun(Table(prefix, map[], 0, {}), Inserts(INT_RANGE)) && t.Contains(0) && !Apply(t, Insert).Contains(0)
  {
    hide Run, LegalRun, ConnName, Inserts;
    InsertsOnly(Table(prefix, map[], 0, {}), INT_RANGE);
    MapIsCreatedMinusRemoved(Table(prefix, map[], 0, {}), Inserts(INT_RANGE));
    WrapAroundOverwrites(Run(Table(prefix, map[], 0, {}), Inserts(INT_RANGE)));
  }
}
